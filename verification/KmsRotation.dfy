/**
  * Granting and pruning a measurement over reads that may return any earlier version of the policy:
  * the commands of `kms-pcr0-allow.py` as steps over a versioned store that nothing else writes.
  */
module KmsRotation {
  import opened Js
  import opened KmsPolicy

  const CONSISTENCY_ATTEMPTS := 12

  datatype Command =
    | Show
    | Grant(pcr0: string)
    | PruneTo(keep: seq<string>)
    | KeepPrevious(running: string)

  datatype Exit =
    | Shown | NoChange | DryRun | Verified
    | NoStatement | NotAllowed | NoCondition | MissingSid | ReadBackMismatch

  datatype Plan = Stop(exit: Exit) | Write(policy: Policy, list: seq<string>)

  // ---------------------------------------------------------------- what a command makes of a list

  function Distinct(list: seq<string>, seen: set<string>): seq<string> {
    if list == [] then []
    else if list[0] in seen then Distinct(list[1..], seen)
    else [list[0]] + Distinct(list[1..], seen + {list[0]})
  }

  function Others(list: seq<string>, running: string): seq<string> {
    if list == [] then []
    else if list[0] == running then Others(list[1..], running)
    else [list[0]] + Others(list[1..], running)
  }

  function First<T>(list: seq<T>): seq<T> {
    if list == [] then [] else list[..1]
  }

  function After(command: Command, before: seq<string>): seq<string> {
    match command
    case Show => before
    case Grant(m) => if m in before then before else [m] + before
    case PruneTo(keep) => Distinct(keep, {})
    case KeepPrevious(running) => [running] + First(Others(before, running))
  }

  /** What must already be allowed before a command goes on. */
  function Needed(command: Command): seq<string> {
    match command
    case Show => []
    case Grant(_) => []
    case PruneTo(keep) => Distinct(keep, {})
    case KeepPrevious(running) => [running]
  }

  predicate Within(needed: seq<string>, list: seq<string>)
    decreases |needed|
  {
    needed == [] || (needed[0] in list && Within(needed[1..], list))
  }

  /** What a command does once it has settled on one reading of the policy. */
  function Decide(command: Command, dryRun: bool, read: Policy): Plan {
    match CurrentList(read)
    case None => Stop(NoStatement)
    case Some(before) =>
      var after := After(command, before);
      if command.Show? then Stop(Shown)
      else if !Within(Needed(command), before) then Stop(NotAllowed)
      else if after == before then Stop(NoChange)
      else if dryRun then Stop(DryRun)
      else
        match SetList(read, after)
        case None => Stop(NoCondition)
        case Some(edited) => if Repairable(edited) then Write(edited, after) else Stop(MissingSid)
  }

  /** The reading has a list, but not all that is needed on it. */
  predicate Lacks(needed: seq<string>, read: Policy) {
    CurrentList(read).Some? && !Within(needed, CurrentList(read).value)
  }

  ghost predicate AllLack(needed: seq<string>, taken: seq<Policy>)
    decreases |taken|
  {
    taken == [] || (Lacks(needed, taken[|taken| - 1]) && AllLack(needed, taken[..|taken| - 1]))
  }

  /** The readings a command takes before it decides: it settles on the first that lists all it needs. */
  ghost predicate SettlesOn(needed: seq<string>, taken: seq<Policy>) {
    1 <= |taken| <= 13 && AllLack(needed, taken[..|taken| - 1]) &&
    (Lacks(needed, taken[|taken| - 1]) ==> |taken| == 13)
  }

  // ---------------------------------------------------------------- what a command leaves listed

  /** The same entries, each once, in the order they are first named. */
  ghost predicate Once(named: seq<string>, list: seq<string>) {
    (forall e :: e in list <==> e in named) && InOrderOf(named, list)
  }

  ghost predicate InOrderOf(named: seq<string>, list: seq<string>) {
    forall i, j :: 0 <= i < j < |list| ==> NamedBefore(named, list[i], list[j])
  }

  /** The one entry is named before the other is at all; so they are two. */
  ghost predicate NamedBefore(named: seq<string>, one: string, other: string) {
    exists k :: 0 <= k < |named| && named[k] == one && forall j :: 0 <= j <= k ==> named[j] != other
  }

  /** The first of the entries that is another one. */
  ghost predicate FirstOther(list: seq<string>, running: string, other: string) {
    exists k :: 0 <= k < |list| && list[k] == other != running && forall j :: 0 <= j < k ==> list[j] == running
  }

  /** What is listed after a command, where this was listed before. */
  ghost predicate Leaves(command: Command, before: seq<string>, after: seq<string>) {
    match command
    case Show => after == before
    case Grant(m) => if m in before then after == before else after == [m] + before
    case PruneTo(keep) => Once(keep, after)
    case KeepPrevious(running) =>
      if exists e :: e in before && e != running then
        |after| == 2 && after[0] == running && FirstOther(before, running, after[1])
      else after == [running]
  }

  /** A command goes on only where this is listed. */
  predicate Needs(command: Command, entry: string) {
    match command
    case Show => false
    case Grant(_) => false
    case PruneTo(keep) => entry in keep
    case KeepPrevious(running) => entry == running
  }

  /** What a command does with a reading, by the entries it names and those the reading lists. */
  ghost predicate Planned(command: Command, dryRun: bool, read: Policy, plan: Plan) {
    match CurrentList(read)
    case None => plan == Stop(NoStatement)
    case Some(before) =>
      if command.Show? then plan == Stop(Shown)
      else if exists e :: Needs(command, e) && e !in before then plan == Stop(NotAllowed)
      else
        exists after :: Leaves(command, before, after) &&
          if after == before then plan == Stop(NoChange)
          else if dryRun then plan == Stop(DryRun)
          else
            match SetList(read, after)
            case None => plan == Stop(NoCondition)
            case Some(edited) => plan == if Repairable(edited) then Write(edited, after) else Stop(MissingSid)
  }

  /** The readings a command settles by: it re-reads just while one lists not all it needs, twelve times at most. */
  ghost predicate Settled(command: Command, taken: seq<Policy>) {
    1 <= |taken| <= 13 &&
    (forall i :: 0 <= i < |taken| - 1 ==> Misses(command, taken[i])) &&
    (Misses(command, taken[|taken| - 1]) ==> |taken| == 13)
  }

  ghost predicate Misses(command: Command, read: Policy) {
    CurrentList(read).Some? && exists e :: Needs(command, e) && e !in CurrentList(read).value
  }

  lemma {:induction false} DistinctIsOnce(list: seq<string>, seen: set<string>)
    ensures forall e :: e in Distinct(list, seen) <==> e in list && e !in seen
    ensures InOrderOf(list, Distinct(list, seen))
  {
    if list != [] {
      var first, rest := list[0], list[1..];
      InTail(list);
      if first in seen {
        DistinctIsOnce(rest, seen);
        OrderLater(list, Distinct(rest, seen));
      } else {
        var later := Distinct(rest, seen + {first});
        DistinctIsOnce(rest, seen + {first});
        OrderLater(list, later);
        OrderFirst(list, later);
      }
    }
  }

  lemma {:induction false} OrderLater(list: seq<string>, later: seq<string>)
    requires list != [] && list[0] !in later && InOrderOf(list[1..], later)
    ensures InOrderOf(list, later)
  {
    forall i, j | 0 <= i < j < |later| ensures NamedBefore(list, later[i], later[j]) {
      assert NamedBefore(list[1..], later[i], later[j]);
      NamedLater(list, later[i], later[j]);
    }
  }

  lemma {:induction false} OrderFirst(list: seq<string>, later: seq<string>)
    requires list != [] && list[0] !in later && InOrderOf(list, later)
    ensures InOrderOf(list, [list[0]] + later)
  {
    var out := [list[0]] + later;
    forall i, j | 0 <= i < j < |out| ensures NamedBefore(list, out[i], out[j]) {
      assert out[j] == later[j - 1] && out[j] in later;
      if i > 0 { assert out[i] == later[i - 1] && NamedBefore(list, later[i - 1], later[j - 1]); }
    }
  }

  lemma {:induction false} InTail(list: seq<string>)
    requires list != []
    ensures forall e :: e in list <==> e == list[0] || e in list[1..]
  {
    assert list == [list[0]] + list[1..];
  }

  lemma {:induction false} NamedLater(list: seq<string>, one: string, other: string)
    requires list != [] && list[0] != other && NamedBefore(list[1..], one, other)
    ensures NamedBefore(list, one, other)
  {
    var k :| 0 <= k < |list[1..]| && list[1..][k] == one && forall j :: 0 <= j <= k ==> list[1..][j] != other;
    assert list[k + 1] == one;
    assert forall j :: 0 < j <= k + 1 ==> list[j] == list[1..][j - 1];
  }

  lemma {:induction false} OthersFirst(list: seq<string>, running: string)
    ensures Others(list, running) != [] ==> FirstOther(list, running, Others(list, running)[0])
    ensures Others(list, running) != [] <==> exists e :: e in list && e != running
  {
    if list != [] {
      InTail(list);
      if list[0] == running {
        OthersFirst(list[1..], running);
        if Others(list, running) != [] {
          var k :| 0 <= k < |list[1..]| && list[1..][k] == Others(list, running)[0] != running &&
            forall j :: 0 <= j < k ==> list[1..][j] == running;
          assert list[k + 1] == Others(list, running)[0];
          assert forall j :: 0 < j < k + 1 ==> list[j] == list[1..][j - 1];
        }
      } else {
        assert list[0] in list;
      }
    }
  }

  lemma {:induction false} AfterLeaves(command: Command, before: seq<string>)
    ensures Leaves(command, before, After(command, before))
  {
    match command
    case Show =>
    case Grant(m) =>
    case PruneTo(keep) => DistinctIsOnce(keep, {});
    case KeepPrevious(running) => OthersFirst(before, running);
  }

  lemma {:induction false} WithinIs(needed: seq<string>, list: seq<string>)
    ensures Within(needed, list) <==> forall e :: e in needed ==> e in list
    decreases |needed|
  {
    if needed != [] {
      InTail(needed);
      WithinIs(needed[1..], list);
    }
  }

  lemma {:induction false} NeededIs(command: Command, list: seq<string>)
    ensures Within(Needed(command), list) <==> forall e :: Needs(command, e) ==> e in list
  {
    WithinIs(Needed(command), list);
    if command.PruneTo? { DistinctIsOnce(command.keep, {}); }
    if command.KeepPrevious? { assert forall e :: e in [command.running] <==> e == command.running; }
  }

  /** What every command decides on every reading. */
  lemma {:induction false} DecideIsPlanned(command: Command, dryRun: bool, read: Policy)
    ensures Planned(command, dryRun, read, Decide(command, dryRun, read))
  {
    if CurrentList(read).Some? {
      NeededIs(command, CurrentList(read).value);
      AfterLeaves(command, CurrentList(read).value);
    }
  }

  lemma {:induction false} LacksIsMisses(command: Command, read: Policy)
    ensures Lacks(Needed(command), read) <==> Misses(command, read)
  {
    if CurrentList(read).Some? { NeededIs(command, CurrentList(read).value); }
  }

  lemma {:induction false} AllLackIs(command: Command, taken: seq<Policy>)
    requires AllLack(Needed(command), taken)
    ensures forall i :: 0 <= i < |taken| ==> Misses(command, taken[i])
    decreases |taken|
  {
    if taken != [] {
      AllLackIs(command, taken[..|taken| - 1]);
      LacksIsMisses(command, taken[|taken| - 1]);
    }
  }

  lemma {:induction false} SettlesIsSettled(command: Command, taken: seq<Policy>)
    requires SettlesOn(Needed(command), taken)
    ensures Settled(command, taken)
  {
    var n := |taken| - 1;
    var earlier := taken[..n];
    AllLackIs(command, earlier);
    LacksIsMisses(command, taken[n]);
    forall i | 0 <= i < n ensures Misses(command, taken[i]) {
      assert taken[i] == earlier[i];
    }
  }

  // ---------------------------------------------------------------- the store and the script

  /** The policy's versions, oldest first, and a log of what was read. A read may return any version. */
  class KeyStore {
    var versions: seq<Policy>
    ghost var log: seq<Policy>

    constructor (initial: Policy)
      ensures versions == [initial] && log == []
    {
      versions, log := [initial], [];
    }

    method GetPolicy() returns (policy: Policy)
      requires versions != []
      modifies this`log
      ensures policy in versions && log == old(log) + [policy]
    {
      var i :| 0 <= i < |versions|;
      policy := versions[i];
      log := log + [policy];
    }

    method PutPolicy(policy: Policy) returns (ok: bool)
      modifies this`versions
      ensures ok <==> Repairable(policy)
      ensures versions == if ok then old(versions) + [policy] else old(versions)
    {
      ok := Repairable(policy);
      if ok { versions := versions + [policy]; }
    }

    /** Re-read until everything needed is listed, at most `CONSISTENCY_ATTEMPTS` times more. */
    method RereadUntilPresent(needed: seq<string>, first: Policy) returns (policy: Policy, ghost settled: seq<Policy>)
      requires versions != [] && CurrentList(first).Some? && first in versions
      modifies this`log
      ensures SettlesOn(needed, settled) && policy == settled[|settled| - 1] && policy in versions
      ensures settled[0] == first && log == old(log) + settled[1..]
    {
      policy, settled := first, [first];
      ghost var earlier := [];
      var attempt := 0;
      while attempt < CONSISTENCY_ATTEMPTS && Lacks(needed, policy)
        invariant settled == earlier + [policy] && AllLack(needed, earlier)
        invariant |earlier| == attempt <= CONSISTENCY_ATTEMPTS && policy in versions
        invariant settled[0] == first && log == old(log) + settled[1..]
      {
        earlier := settled;
        assert earlier[..|earlier| - 1] + [policy] == earlier;
        policy := GetPolicy();
        settled := earlier + [policy];
        attempt := attempt + 1;
      }
      assert settled[..|settled| - 1] == earlier;
    }

    /** The readings `main` takes before it decides. */
    method Settle(command: Command) returns (policy: Policy, ghost settled: seq<Policy>)
      requires versions != []
      modifies this`log
      ensures SettlesOn(Needed(command), settled) && policy == settled[|settled| - 1] && policy in versions
      ensures log == old(log) + settled
    {
      policy := GetPolicy();
      settled := [policy];
      if CurrentList(policy).Some? && !command.Show? {
        ghost var first := policy;
        policy, settled := RereadUntilPresent(Needed(command), policy);
        assert [first] + settled[1..] == settled;
        Assoc(old(log), [first], settled[1..]);
      }
    }

    /** `main`, from the first read to the exit; `read` is the reading it settled on. */
    method Run(command: Command, dryRun: bool) returns (exit: Exit, ghost settled: seq<Policy>, ghost read: Policy)
      requires versions != []
      modifies this
      ensures SettlesOn(Needed(command), settled) && settled[|settled| - 1] == read && read in old(versions)
      ensures CarriedOut(Decide(command, dryRun, read), exit, old(versions), old(log) + settled)
      ensures Settled(command, settled) && Planned(command, dryRun, read, Decide(command, dryRun, read))
    {
      var policy;
      policy, settled := Settle(command);
      read := policy;
      SettlesIsSettled(command, settled);
      DecideIsPlanned(command, dryRun, read);
      exit := Edit(command, dryRun, policy);
    }

    /** What a plan, made after the reads `taken`, leaves of the store. */
    ghost predicate CarriedOut(plan: Plan, exit: Exit, before: seq<Policy>, taken: seq<Policy>)
      reads this
    {
      match plan
      case Stop(e) => exit == e && versions == before && log == taken
      case Write(policy, list) =>
        versions == before + [policy] &&
        |log| == |taken| + 1 && log[..|taken|] == taken && exit == ReadBack(log[|taken|], list)
    }

    /** The part of `main` that looks at the reading settled on. */
    method Edit(command: Command, dryRun: bool, policy: Policy) returns (exit: Exit)
      requires versions != []
      modifies this
      ensures CarriedOut(Decide(command, dryRun, policy), exit, old(versions), old(log))
    {
      var before := CurrentList(policy);
      if before.None? { return NoStatement; }
      if command.Show? { return Shown; }
      if !Within(Needed(command), before.value) { return NotAllowed; }
      var after := After(command, before.value);
      if after == before.value { return NoChange; }
      if dryRun { return DryRun; }
      var edited := SetList(policy, after);
      if edited.None? { return NoCondition; }
      var ok := PutPolicy(edited.value);
      if !ok { return MissingSid; }
      var verify := GetPolicy();
      exit := ReadBack(verify, after);
    }
  }

  /** The verdict of reading the policy back: the same entries, in any order. */
  function ReadBack(policy: Policy, list: seq<string>): Exit {
    match CurrentList(policy)
    case None => NoStatement
    case Some(seen) => if multiset(seen) == multiset(list) then Verified else ReadBackMismatch
  }

  /** How many times the entry is listed. */
  function Times(list: seq<string>, entry: string): nat {
    if list == [] then 0 else (if list[0] == entry then 1 else 0) + Times(list[1..], entry)
  }

  lemma {:induction false} TimesIs(list: seq<string>, entry: string)
    ensures Times(list, entry) == multiset(list)[entry]
  {
    if list != [] {
      TimesIs(list[1..], entry);
      assert list == [list[0]] + list[1..];
    }
  }

  /** A write is verified exactly when what is read back lists every entry as often as was written. */
  lemma {:induction false} ReadBackIs(policy: Policy, list: seq<string>)
    ensures ReadBack(policy, list) == NoStatement <==> CurrentList(policy).None?
    ensures ReadBack(policy, list) == Verified <==>
            CurrentList(policy).Some? && TimesAgree(CurrentList(policy).value, list)
    ensures ReadBack(policy, list) in {NoStatement, Verified, ReadBackMismatch}
  {
    if CurrentList(policy).Some? { SameTimes(CurrentList(policy).value, list); }
  }

  ghost predicate TimesAgree(a: seq<string>, b: seq<string>) {
    forall e :: Times(a, e) == Times(b, e)
  }

  lemma {:induction false} SameTimes(a: seq<string>, b: seq<string>)
    ensures multiset(a) == multiset(b) <==> TimesAgree(a, b)
  {
    forall e ensures Times(a, e) == multiset(a)[e] && Times(b, e) == multiset(b)[e] {
      TimesIs(a, e);
      TimesIs(b, e);
    }
    if TimesAgree(a, b) {
      forall e ensures multiset(a)[e] == multiset(b)[e] {
        assert Times(a, e) == Times(b, e);
        TimesIs(a, e);
        TimesIs(b, e);
      }
      assert multiset(a) == multiset(b);
    } else {
      var e :| Times(a, e) != Times(b, e);
      TimesIs(a, e);
      TimesIs(b, e);
    }
  }

  // ---------------------------------------------------------------- steps

  /** The command came to an end on some reading of `h`: it found nothing to do, or it wrote. */
  ghost predicate Completes(h: seq<Policy>, command: Command, next: seq<Policy>) {
    exists read :: read in h &&
      match Decide(command, false, read)
      case Stop(exit) => exit == NoChange && next == h
      case Write(policy, _) => next == h + [policy]
  }

  /** One command, carried out or given up: what a `Run` leaves behind. */
  ghost predicate Step(h: seq<Policy>, command: Command, next: seq<Policy>) {
    next == h || Completes(h, command, next)
  }

  /** What `Run` promises, as a step. */
  lemma {:induction false} RunIsStep(h: seq<Policy>, command: Command, dryRun: bool, read: Policy, next: seq<Policy>)
    requires read in h
    requires match Decide(command, dryRun, read)
             case Stop(_) => next == h
             case Write(policy, _) => next == h + [policy]
    ensures Step(h, command, next)
    ensures Decide(command, dryRun, read) == Stop(NoChange) || Decide(command, dryRun, read).Write? ==>
      Completes(h, command, next)
  {
  }

  ghost predicate Lists(policy: Policy, entry: string) {
    CurrentList(policy).Some? && entry in CurrentList(policy).value
  }

  lemma {:induction false} WithinIsSubset(needed: seq<string>, list: seq<string>)
    requires Within(needed, list)
    ensures forall e :: e in needed ==> e in list
    decreases |needed|
  {
    if needed != [] { WithinIsSubset(needed[1..], list); }
  }

  lemma {:induction false} OthersWithin(list: seq<string>, running: string)
    ensures forall e :: e in Others(list, running) ==> e in list
    ensures running !in list ==> Others(list, running) == list
    ensures running !in Others(list, running)
  {
    if list != [] { OthersWithin(list[1..], running); }
  }

  /** A command lists nothing that was not listed where it read, except what is granted. */
  lemma {:induction false} AfterWithin(command: Command, before: seq<string>)
    requires Within(Needed(command), before)
    ensures forall e :: e in After(command, before) ==> e in before || command == Grant(e)
  {
    match command
    case Show =>
    case Grant(m) =>
    case PruneTo(keep) => WithinIsSubset(Distinct(keep, {}), before);
    case KeepPrevious(running) => OthersWithin(before, running);
  }

  /**
    * Pruning to the running measurement keeps a second one exactly when another is listed, even where
    * naming the running one twice, as `--prune-to` would be given after a restart, keeps it alone.
    */
  lemma {:induction false} KeepsARollback(before: seq<string>, running: string)
    ensures |After(KeepPrevious(running), before)| == 2 <==> exists e :: e in before && e != running
    ensures After(PruneTo([running, running]), before) == [running]
  {
    OthersWithin(before, running);
    OthersNone(before, running);
    assert [running, running][1..] == [running] && [running][1..] == [];
    assert {} + {running} == {running} && Distinct([running], {running}) == [];
  }

  lemma {:induction false} OthersNone(list: seq<string>, running: string)
    ensures Others(list, running) == [] <==> forall e :: e in list ==> e == running
  {
    if list != [] {
      OthersNone(list[1..], running);
      assert list[0] in list && forall e :: e in list <==> e == list[0] || e in list[1..];
    }
  }

  /** Measurements are given in lower case: `valid_pcr0` lowers them. */
  ghost predicate Given(command: Command) {
    match command
    case Show => true
    case Grant(m) => Lower(m) == m
    case PruneTo(keep) => Lowered(keep)
    case KeepPrevious(running) => Lower(running) == running
  }

  lemma {:induction false} LoweredEach(list: seq<string>)
    ensures Lowered(list) <==> forall e :: e in list ==> Lower(e) == e
  {
    if list != [] {
      LoweredEach(list[1..]);
      LoweredCons(list[0], list[1..]);
      assert [list[0]] + list[1..] == list;
    }
  }

  lemma {:induction false} AfterLowered(command: Command, before: seq<string>)
    requires Given(command) && Lowered(before) && Within(Needed(command), before)
    ensures Lowered(After(command, before))
  {
    AfterWithin(command, before);
    LoweredEach(before);
    LoweredEach(After(command, before));
  }

  /** What a write leaves to be read: the list it decided on, in the document it read. */
  lemma {:induction false} WriteReads(command: Command, read: Policy) returns (before: seq<string>)
    requires Given(command) && Decide(command, false, read).Write?
    ensures CurrentList(read) == Some(before) && Within(Needed(command), before)
    ensures var plan := Decide(command, false, read);
            CurrentList(plan.policy) == Some(After(command, before)) && Skeleton(plan.policy) == Skeleton(read) &&
            Repairable(plan.policy)
  {
    before := CurrentList(read).value;
    CurrentListLowered(read);
    AfterLowered(command, before);
    SetThenRead(read, After(command, before));
  }

  // ---------------------------------------------------------------- every run

  /** Histories left one after another by a sequence of commands. */
  ghost predicate IsRun(commands: seq<Command>, histories: seq<seq<Policy>>)
    decreases |commands|
  {
    |histories| == |commands| + 1 &&
    (commands != [] ==>
       Given(commands[0]) && Step(histories[0], commands[0], histories[1]) && IsRun(commands[1..], histories[1..]))
  }

  /** The entry was listed at the start, or was granted on the way. */
  ghost predicate Sourced(start: seq<Policy>, granted: set<string>, entry: string) {
    entry in granted || exists p :: p in start && Lists(p, entry)
  }

  /** All but the list is as in some version at the start. */
  ghost predicate Framed(start: seq<Policy>, policy: Policy) {
    exists p :: p in start && Skeleton(p) == Skeleton(policy)
  }

  ghost predicate Fine(start: seq<Policy>, granted: set<string>, policy: Policy) {
    Framed(start, policy) && (policy in start || Repairable(policy)) &&
    forall e :: Lists(policy, e) ==> Sourced(start, granted, e)
  }

  ghost predicate Sound(start: seq<Policy>, granted: set<string>, h: seq<Policy>) {
    start <= h && forall p :: p in h ==> Fine(start, granted, p)
  }

  function Granted(commands: seq<Command>): set<string> {
    if commands == [] then {}
    else (if commands[0].Grant? then {commands[0].pcr0} else {}) + Granted(commands[1..])
  }

  /** A step that wrote: what it read, and what it wrote. */
  lemma {:induction false} Wrote(h: seq<Policy>, command: Command, next: seq<Policy>)
      returns (read: Policy, before: seq<string>, added: Policy)
    requires Given(command) && Step(h, command, next) && next != h
    ensures read in h && next == h + [added] && CurrentList(read) == Some(before) && Within(Needed(command), before)
    ensures CurrentList(added) == Some(After(command, before)) && Skeleton(added) == Skeleton(read) && Repairable(added)
  {
    read :| read in h && Decide(command, false, read).Write? && next == h + [Decide(command, false, read).policy];
    before := WriteReads(command, read);
    added := Decide(command, false, read).policy;
  }

  lemma {:induction false} WrittenFine(
      start: seq<Policy>, granted: set<string>, command: Command, read: Policy, before: seq<string>, added: Policy)
    requires Fine(start, granted, read) && (command.Grant? ==> command.pcr0 in granted)
    requires CurrentList(read) == Some(before) && Within(Needed(command), before)
    requires CurrentList(added) == Some(After(command, before)) && Skeleton(added) == Skeleton(read) &&
      Repairable(added)
    ensures Fine(start, granted, added)
  {
    AfterWithin(command, before);
    assert Framed(start, read);
    forall e | Lists(added, e) ensures Sourced(start, granted, e) {
      if e in before { assert Lists(read, e); }
    }
  }

  lemma {:induction false} StepSound(start: seq<Policy>, granted: set<string>, h: seq<Policy>, command: Command,
      next: seq<Policy>)
    requires Sound(start, granted, h) && Given(command) && Step(h, command, next)
    requires command.Grant? ==> command.pcr0 in granted
    ensures Sound(start, granted, next)
  {
    if next != h {
      var read, before, added := Wrote(h, command, next);
      WrittenFine(start, granted, command, read, before, added);
    }
  }

  lemma {:induction false} SoundMore(start: seq<Policy>, granted: set<string>, more: set<string>, h: seq<Policy>)
    requires Sound(start, granted, h) && granted <= more
    ensures Sound(start, more, h)
  {
    forall p | p in h ensures Fine(start, more, p) {
      assert Fine(start, granted, p);
      forall e | Lists(p, e) ensures Sourced(start, more, e) {
        assert Sourced(start, granted, e);
      }
    }
  }

  /**
    * Over every run of the script, whatever its reads return: no entry is ever listed that was not listed
    * at the start or granted, and every version written keeps all else in place, both guard statements included.
    */
  lemma {:induction false} RunsAreSound(
      start: seq<Policy>, granted: set<string>, commands: seq<Command>, histories: seq<seq<Policy>>)
    requires IsRun(commands, histories) && Sound(start, granted, histories[0])
    ensures Sound(start, granted + Granted(commands), histories[|commands|])
    decreases |commands|
  {
    if commands != [] {
      var more := granted + (if commands[0].Grant? then {commands[0].pcr0} else {});
      SoundMore(start, granted, more, histories[0]);
      StepSound(start, more, histories[0], commands[0], histories[1]);
      RunsAreSound(start, more, commands[1..], histories[1..]);
      assert more + Granted(commands[1..]) == granted + Granted(commands);
    }
  }

  // ---------------------------------------------------------------- the rotation

  /** No version lists the measurement. */
  ghost predicate NeverListed(h: seq<Policy>, m: string) {
    forall p :: p in h ==> !Lists(p, m)
  }

  /**
    * `h`, then the version that granted `m` over the list `before`, then versions holding only `m` and the
    * first entry of `before`; all of them with the document of `read`.
    */
  ghost predicate Rotating(h: seq<Policy>, m: string, before: seq<string>, read: Policy, now: seq<Policy>) {
    h < now &&
    CurrentList(now[|h|]) == Some([m] + before) &&
    (forall i :: |h| < i < |now| ==> CurrentList(now[i]) == Some([m] + First(before))) &&
    forall i :: |h| <= i < |now| ==> Skeleton(now[i]) == Skeleton(read)
  }

  function Latest(h: seq<Policy>): Option<seq<string>>
    requires h != []
  {
    CurrentList(h[|h| - 1])
  }

  /** Pruning to `m` and the previous measurement, from any version that lists `m`. */
  lemma {:induction false} KeepAfter(m: string, before: seq<string>)
    requires m !in before
    ensures After(KeepPrevious(m), [m] + before) == [m] + First(before)
    ensures After(KeepPrevious(m), [m] + First(before)) == [m] + First(before)
  {
    OthersCons(m, before);
    OthersCons(m, First(before));
  }

  lemma {:induction false} OthersCons(m: string, before: seq<string>)
    requires m !in before
    ensures Others([m] + before, m) == before
  {
    OthersWithin(before, m);
    assert ([m] + before)[1..] == before;
  }

  /** A version that lists `m` is the grant's or a later one. */
  lemma {:induction false} ListedSince(h: seq<Policy>, m: string, before: seq<string>, read: Policy,
      now: seq<Policy>, seen: Policy)
      returns (i: nat)
    requires NeverListed(h, m) && Rotating(h, m, before, read, now) && seen in now && Lists(seen, m)
    ensures |h| <= i < |now| && now[i] == seen
  {
    forall k | 0 <= k < |h| ensures !Lists(now[k], m) {
      assert now[k] == h[k] && h[k] in h;
    }
    i :| 0 <= i < |now| && now[i] == seen;
  }

  /** A command that came to an end: it found its list in place, or wrote it. */
  lemma {:induction false} Finished(now: seq<Policy>, command: Command, next: seq<Policy>)
      returns (seen: Policy, list: seq<string>, added: Policy)
    requires Given(command) && Completes(now, command, next)
    ensures seen in now && CurrentList(seen) == Some(list) && Within(Needed(command), list)
    ensures if next == now then After(command, list) == list
            else next == now + [added] && CurrentList(added) == Some(After(command, list)) && Skeleton(added) == Skeleton(seen)
  {
    seen :| seen in now &&
      match Decide(command, false, seen)
      case Stop(exit) => exit == NoChange && next == now
      case Write(policy, _) => next == now + [policy];
    list, added := CurrentList(seen).value, seen;
    if Decide(command, false, seen).Write? {
      list := WriteReads(command, seen);
      added := Decide(command, false, seen).policy;
    }
  }

  lemma {:induction false} KeepStep(h: seq<Policy>, m: string, before: seq<string>, read: Policy, now: seq<Policy>,
      next: seq<Policy>)
    requires NeverListed(h, m) && m !in before && Lower(m) == m && Rotating(h, m, before, read, now)
    requires Step(now, KeepPrevious(m), next)
    ensures Rotating(h, m, before, read, next)
    ensures Completes(now, KeepPrevious(m), next) || Latest(now) == Some([m] + First(before)) ==>
      Latest(next) == Some([m] + First(before))
  {
    if Completes(now, KeepPrevious(m), next) {
      var seen, list, added := Finished(now, KeepPrevious(m), next);
      KeepFinished(h, m, before, read, now, next, seen, list, added);
    }
  }

  lemma {:induction false} KeepFinished(
      h: seq<Policy>, m: string, before: seq<string>, read: Policy, now: seq<Policy>, next: seq<Policy>,
      seen: Policy, list: seq<string>, added: Policy)
    requires NeverListed(h, m) && m !in before && Rotating(h, m, before, read, now)
    requires seen in now && CurrentList(seen) == Some(list) && Within([m], list)
    requires var after := After(KeepPrevious(m), list);
             if next == now then after == list
             else next == now + [added] && CurrentList(added) == Some(after) && Skeleton(added) == Skeleton(seen)
    ensures Rotating(h, m, before, read, next) && Latest(next) == Some([m] + First(before))
  {
    WithinIsSubset([m], list);
    assert m in [m];
    var i := ListedSince(h, m, before, read, now, seen);
    KeepAfter(m, before);
    if next == now { AllShort(h, m, before, read, now, i); } else { OneMore(h, m, before, read, now, added); }
  }

  lemma {:induction false} OneMore(h: seq<Policy>, m: string, before: seq<string>, read: Policy, now: seq<Policy>,
      added: Policy)
    requires Rotating(h, m, before, read, now)
    requires CurrentList(added) == Some([m] + First(before)) && Skeleton(added) == Skeleton(read)
    ensures Rotating(h, m, before, read, now + [added]) && Latest(now + [added]) == Some([m] + First(before))
  {
  }

  /** Once a version names only the two, so does the last. */
  lemma {:induction false} AllShort(h: seq<Policy>, m: string, before: seq<string>, read: Policy, now: seq<Policy>, i: nat)
    requires Rotating(h, m, before, read, now) && |h| <= i < |now| && CurrentList(now[i]) == Some([m] + First(before))
    ensures Latest(now) == Some([m] + First(before))
  {
    if |now| - 1 == |h| { assert i == |h|; }
  }

  /** Prunes to `m`, one after another, each carried out or given up. */
  ghost predicate PruneRun(m: string, histories: seq<seq<Policy>>)
    decreases |histories|
  {
    var n := |histories|;
    n > 1 ==> Step(histories[n - 2], KeepPrevious(m), histories[n - 1]) && PruneRun(m, histories[..n - 1])
  }

  /** Some prune of the run came to an end. */
  ghost predicate Pruned(m: string, histories: seq<seq<Policy>>)
    decreases |histories|
  {
    var n := |histories|;
    n > 1 && (Completes(histories[n - 2], KeepPrevious(m), histories[n - 1]) || Pruned(m, histories[..n - 1]))
  }

  lemma {:induction false} GrantRotates(h: seq<Policy>, m: string, read: Policy, before: seq<string>)
    requires NeverListed(h, m) && Lower(m) == m && read in h && Decide(Grant(m), false, read).Write?
    requires CurrentList(read) == Some(before)
    ensures m !in before && Rotating(h, m, before, read, h + [Decide(Grant(m), false, read).policy])
  {
    var same := WriteReads(Grant(m), read);
    assert !Lists(read, m);
  }

  lemma {:induction false} PrunesRotate(h: seq<Policy>, m: string, before: seq<string>, read: Policy,
      histories: seq<seq<Policy>>)
    requires NeverListed(h, m) && m !in before && Lower(m) == m
    requires histories != [] && Rotating(h, m, before, read, histories[0]) && PruneRun(m, histories)
    ensures Rotating(h, m, before, read, histories[|histories| - 1])
    ensures Pruned(m, histories) ==> Latest(histories[|histories| - 1]) == Some([m] + First(before))
    decreases |histories|
  {
    var n := |histories|;
    if n > 1 {
      PrunesRotate(h, m, before, read, histories[..n - 1]);
      KeepStep(h, m, before, read, histories[n - 2], histories[n - 1]);
    }
  }

  /**
    * Rotation under stale reads. A measurement no version has listed is granted, and then pruned to with the
    * previous one kept, any number of times and whatever the reads return. What is listed in the end is the
    * measurement with the whole list the grant read, or, once one prune has come to an end, with only the
    * first entry of it; no prune changes it again; and everything else is as the grant read it.
    */
  lemma {:induction false} RotationIsExact(h: seq<Policy>, m: string, read: Policy, histories: seq<seq<Policy>>)
    requires NeverListed(h, m) && Lower(m) == m && read in h && Decide(Grant(m), false, read).Write?
    requires histories != [] && histories[0] == h + [Decide(Grant(m), false, read).policy] && PruneRun(m, histories)
    ensures var before, end := CurrentList(read).value, histories[|histories| - 1];
            Rotating(h, m, before, read, end) && (Pruned(m, histories) ==> Latest(end) == Some([m] + First(before)))
  {
    var before := CurrentList(read).value;
    GrantRotates(h, m, read, before);
    PrunesRotate(h, m, before, read, histories);
  }

  // ---------------------------------------------------------------- what a stale grant brings back

  /** A grant that reads this version writes: it has a list to add to, and can still be repaired. */
  predicate Grantable(version: Policy, m: string) {
    CurrentList(version).Some? && m !in CurrentList(version).value && Skeleton(version).Some? && Repairable(version)
  }

  lemma {:induction false} GrantWrites(version: Policy, m: string)
    requires Lower(m) == m
    ensures Decide(Grant(m), false, version).Write? <==> Grantable(version, m)
  {
    if CurrentList(version).Some? && Skeleton(version).Some? {
      var after := After(Grant(m), CurrentList(version).value);
      CurrentListLowered(version);
      LoweredCons(m, CurrentList(version).value);
      SetThenRead(version, after);
    }
  }

  /** The grant that read this version leaves listed what the latest lists, and its own measurement. */
  ghost predicate AddsOnly(h: seq<Policy>, m: string, read: Policy)
    requires h != [] && Latest(h).Some? && Decide(Grant(m), false, read).Write?
  {
    var now := Latest(h + [Decide(Grant(m), false, read).policy]);
    now.Some? && forall e :: e in now.value <==> e == m || e in Latest(h).value
  }

  /** The version lists the same entries as the latest does, whether it lists the measurement or not. */
  ghost predicate UpToDate(h: seq<Policy>, m: string, version: Policy)
    requires h != [] && Latest(h).Some?
  {
    forall e :: e != m ==> (Lists(version, e) <==> e in Latest(h).value)
  }

  lemma {:induction false} AddsOnlyUpToDate(h: seq<Policy>, m: string, read: Policy)
    requires h != [] && Latest(h).Some? && Lower(m) == m && Decide(Grant(m), false, read).Write?
    ensures AddsOnly(h, m, read) <==> UpToDate(h, m, read)
  {
    var before := WriteReads(Grant(m), read);
    var next := h + [Decide(Grant(m), false, read).policy];
    assert Latest(next) == Some([m] + before);
    assert forall e :: e in [m] + before <==> e == m || e in before;
    assert forall e :: Lists(read, e) <==> e in before;
  }

  /**
    * Whatever a grant reads, it adds its measurement and only it to the list in force, exactly when every
    * version that a grant could write from is up to date: any other lists again what was pruned since.
    */
  lemma {:induction false} GrantAddsOnlyItsOwn(h: seq<Policy>, m: string)
    requires h != [] && Latest(h).Some? && Lower(m) == m
    ensures (forall read :: read in h && Decide(Grant(m), false, read).Write? ==> AddsOnly(h, m, read)) <==>
            (forall version :: version in h && Grantable(version, m) ==> UpToDate(h, m, version))
  {
    forall version
      ensures Decide(Grant(m), false, version).Write? <==> Grantable(version, m)
      ensures Grantable(version, m) ==> (AddsOnly(h, m, version) <==> UpToDate(h, m, version))
    {
      GrantWrites(version, m);
      if Grantable(version, m) { AddsOnlyUpToDate(h, m, version); }
    }
  }

  /** A policy that lists these entries, with the statements a write insists on. */
  function Listing(list: seq<string>): Policy {
    Policy([Statement(Some(ALLOW_SID), [Clause("StringEquals", map[CONDITION_KEY := Many(list)])], ""),
            Statement(Some(ADMIN_SID), [], ""), Statement(Some(DENY_SID), [], "")], "")
  }

  lemma {:induction false} ListingReads(list: seq<string>)
    requires Lowered(list)
    ensures CurrentList(Listing(list)) == Some(list) && Skeleton(Listing(list)).Some? && Repairable(Listing(list))
  {
    var statements := Listing(list).statements;
    assert ClauseAt(statements[0].condition) == 0;
    assert SidsOf(statements[2..]) == {Some(DENY_SID)} + SidsOf([]);
    assert statements[1..][1..] == statements[2..];
    assert SidsOf(statements[1..]) == {Some(ADMIN_SID)} + SidsOf(statements[2..]);
  }

  /** Two were listed and one was pruned; a grant that still reads both lists the pruned one again. */
  lemma {:induction false} StaleGrantListsAgain(h: seq<Policy>, a: string, b: string, c: string)
    requires Lower(a) == a && Lower(b) == b && Lower(c) == c && a != c && b != c
    requires h == [Listing([a, b]), Listing([a])]
    ensures var plan := Decide(Grant(c), false, h[0]);
            plan.Write? && Latest(h) == Some([a]) && Latest(h + [plan.policy]) == Some([c, a, b])
  {
    LoweredCons(b, []);
    LoweredCons(a, []);
    LoweredCons(a, [b]);
    ListingReads([a, b]);
    ListingReads([a]);
    GrantWrites(h[0], c);
    var before := WriteReads(Grant(c), h[0]);
    assert [c] + [a, b] == [c, a, b];
  }
}
