/** The enclave's memory of balance refusals: a bounded, insertion-ordered map against an unbounded one. */
module BalanceBackoff {
  import opened Js

  const MAX_RETRY_AFTER_SECONDS := 60
  const MAX_TRACKED_CREDENTIALS := 10000

  // ---------------------------------------------------------------- how long to wait

  predicate IsDigit(c: char) {
    '0' <= c <= '9'
  }

  predicate AllDigits(s: string) {
    forall i :: 0 <= i < |s| ==> IsDigit(s[i])
  }

  function Decimal(s: string, sofar: nat): nat
    requires AllDigits(s)
  {
    if s == "" then sofar else Decimal(s[1..], sofar * 10 + (s[0] as int - '0' as int))
  }

  /** The number a header or a body field gives: one to six digits, or a number as it is. */
  function Seconds(raw: Json): Option<real> {
    match raw
    case Str(s) =>
      var t := Trim(s);
      if 1 <= |t| <= 6 && AllDigits(t) then Some(Decimal(t, 0) as real) else None
    case Num(n) => Some(n)
    case _ => None
  }

  predicate Usable(raw: Json) {
    Seconds(raw).Some? && Seconds(raw).value >= 1.0
  }

  /** What a run of digits is worth, by their code points. */
  function Worth(s: string): int {
    if s == "" then 0 else 10 * Worth(s[..|s| - 1]) + s[|s| - 1] as int - 48
  }

  ghost predicate IsNumeral(s: string) {
    0 < |s| < 7 && forall i :: 0 <= i < |s| ==> 48 <= s[i] as int < 58
  }

  /** The value asks for so many seconds, one at least: as a number, or as a numeral between spaces. */
  ghost predicate Asks(raw: Json, seconds: real) {
    seconds >= 1.0 &&
    match raw
    case Num(n) => seconds == n
    case Str(s) => IsNumeral(Trim(s)) && seconds == Worth(Trim(s)) as real
    case _ => false
  }

  lemma {:induction false} DecimalIs(s: string, last: char, sofar: nat)
    requires AllDigits(s) && IsDigit(last)
    ensures AllDigits(s + [last]) && Decimal(s + [last], sofar) == 10 * Decimal(s, sofar) + (last as int - '0' as int)
    decreases |s|
  {
    if s == "" {
      assert s + [last] == [last] && [last][1..] == "";
    } else {
      TailAppend(s, [last]);
      DecimalIs(s[1..], last, sofar * 10 + (s[0] as int - '0' as int));
    }
  }

  lemma {:induction false} WorthIs(s: string)
    requires AllDigits(s)
    ensures Decimal(s, 0) == Worth(s)
  {
    if s != "" {
      var front, last := s[..|s| - 1], s[|s| - 1];
      WorthIs(front);
      DecimalIs(front, last, 0);
      assert s == front + [last];
    }
  }

  lemma {:induction false} AsksIs(raw: Json)
    ensures Usable(raw) <==> exists seconds :: Asks(raw, seconds)
    ensures Usable(raw) ==> Asks(raw, Seconds(raw).value)
    ensures forall seconds :: Asks(raw, seconds) ==> Usable(raw) && seconds == Seconds(raw).value
  {
    if raw.Str? {
      var t := Trim(raw.s);
      assert forall i :: 0 <= i < |t| ==> (IsDigit(t[i]) <==> 48 <= t[i] as int < 58);
      if AllDigits(t) { WorthIs(t); }
    }
    if Usable(raw) { assert Asks(raw, Seconds(raw).value); }
  }

  /** The header wins when it is usable; the body is the fallback; and never outside 1 to 60. */
  method RetryAfterSeconds(headerValue: Json, bodyValue: Json) returns (r: Option<int>)
    ensures r.Some? <==> exists seconds :: Asks(headerValue, seconds) || Asks(bodyValue, seconds)
    ensures forall seconds ::
              Asks(headerValue, seconds) || (Asks(bodyValue, seconds) && !exists other :: Asks(headerValue, other)) ==>
              r.Some? && 1 <= r.value <= 60 && r.value as real <= seconds && (r.value < 60 ==> seconds < r.value as real + 1.0)
  {
    AsksIs(headerValue);
    AsksIs(bodyValue);
    var sources := [headerValue, bodyValue];
    for i := 0 to 2
      invariant (i > 0 ==> !Usable(headerValue)) && (i > 1 ==> !Usable(bodyValue))
    {
      var n := Seconds(sources[i]);
      if n.Some? && n.value >= 1.0 {
        assert sources[i] == if Usable(headerValue) then headerValue else bodyValue;
        var floor := n.value.Floor;
        return Some(if floor < MAX_RETRY_AFTER_SECONDS then floor else MAX_RETRY_AFTER_SECONDS);
      }
    }
    return None;
  }

  // ---------------------------------------------------------------- the two maps

  /** A refusal held for a credential, until a time in milliseconds. */
  datatype Slot = Slot(key: string, until: int, body: Json)

  datatype Refusal = Refusal(body: Json, seconds: int)

  datatype Op = Remember(key: Json, seconds: Json, body: Json, t: int) | Lookup(key: Json, t: int)

  predicate IsKey(key: Json) {
    key.Str? && key.s != ""
  }

  predicate IsWindow(seconds: Json) {
    seconds.Num? && 1.0 <= seconds.n <= MAX_RETRY_AFTER_SECONDS as real && seconds.n.Floor as real == seconds.n
  }

  predicate Accepted(op: Op) {
    op.Remember? && IsKey(op.key) && IsWindow(op.seconds)
  }

  function SlotOf(op: Op): Slot
    requires Accepted(op)
  {
    Slot(op.key.s, op.t + op.seconds.n.Floor * 1000, op.body)
  }

  /** The seconds left, rounded up and never below 1. */
  function Left(until: int, t: int): int {
    var up := (until - t + 999) / 1000;
    if up < 1 then 1 else up
  }

  function RefusalOf(slot: Slot, t: int): Refusal {
    Refusal(slot.body, Left(slot.until, t))
  }

  /** The reference: the latest refusal of every credential, however many there are. */
  function StepMap(all: map<string, Slot>, op: Op): (map<string, Slot>, Option<Refusal>) {
    match op
    case Remember(_, _, _, _) => (if Accepted(op) then all[op.key.s := SlotOf(op)] else all, None)
    case Lookup(key, t) =>
      (all, if IsKey(key) && key.s in all && t < all[key.s].until then Some(RefusalOf(all[key.s], t)) else None)
  }

  /** The place of a key among the slots, or their number. */
  function PlaceOf(held: seq<Slot>, key: string): (i: nat)
    ensures i <= |held|
    ensures i < |held| ==> held[i].key == key
    ensures forall j :: 0 <= j < i ==> held[j].key != key
  {
    if held == [] || held[0].key == key then 0
    else
      var i := PlaceOf(held[1..], key);
      assert forall j :: 1 <= j < i + 1 ==> held[j] == held[1..][j - 1];
      i + 1
  }

  function Delete(held: seq<Slot>, key: string): seq<Slot> {
    var i := PlaceOf(held, key);
    if i == |held| then held else held[..i] + held[i + 1..]
  }

  /** The slots whose window is still open. */
  function Live(held: seq<Slot>, t: int): seq<Slot> {
    if held == [] then []
    else (if t < held[0].until then [held[0]] else []) + Live(held[1..], t)
  }

  /**
    * The map after a refusal is remembered: a known key keeps its place; a new one goes last, and where the
    * map is full it takes the place of whatever has expired, or else of the slot first inserted.
    */
  function Put(held: seq<Slot>, slot: Slot, t: int): seq<Slot> {
    var i := PlaceOf(held, slot.key);
    if i < |held| then held[i := slot]
    else if |held| < MAX_TRACKED_CREDENTIALS then held + [slot]
    else
      var live := Live(held, t);
      (if |live| < MAX_TRACKED_CREDENTIALS then live else live[1..]) + [slot]
  }

  function StepHeld(held: seq<Slot>, op: Op): (seq<Slot>, Option<Refusal>) {
    match op
    case Remember(_, _, _, t) => (if Accepted(op) then Put(held, SlotOf(op), t) else held, None)
    case Lookup(key, t) =>
      if !IsKey(key) then (held, None)
      else
        var i := PlaceOf(held, key.s);
        if i == |held| then (held, None)
        else if t >= held[i].until then (Delete(held, key.s), None)
        else (held, Some(RefusalOf(held[i], t)))
  }

  ghost predicate Distinct(held: seq<Slot>) {
    forall i, j :: 0 <= i < j < |held| ==> held[i].key != held[j].key
  }

  ghost predicate Bounded(held: seq<Slot>) {
    Distinct(held) && |held| <= MAX_TRACKED_CREDENTIALS
  }

  // ---------------------------------------------------------------- the cache

  class Backoff {
    var held: seq<Slot>

    ghost predicate Valid()
      reads this
    {
      Bounded(held)
    }

    constructor ()
      ensures Valid() && held == []
    {
      held := [];
    }

    method Sweep(t: int)
      modifies this
      ensures held == Live(old(held), t)
    {
      var all := held;
      held := [];
      for i := 0 to |all|
        invariant held + Live(all[i..], t) == Live(all, t)
      {
        ghost var before := held;
        assert all[i..][1..] == all[i + 1..];
        if t < all[i].until {
          held := held + [all[i]];
          Assoc(before, [all[i]], Live(all[i + 1..], t));
        }
      }
    }

    /** The first go until there is room: one at most, since the map is never over its bound. */
    method Evict()
      requires |held| <= MAX_TRACKED_CREDENTIALS
      modifies this
      ensures held == if |old(held)| < MAX_TRACKED_CREDENTIALS then old(held) else old(held)[1..]
    {
      while |held| >= MAX_TRACKED_CREDENTIALS
        invariant held == old(held) || (|old(held)| == MAX_TRACKED_CREDENTIALS && held == old(held)[1..])
        decreases |held|
      {
        held := held[1..];
      }
    }

    method Remember(key: Json, seconds: Json, body: Json, t: int) returns (ok: bool)
      requires Valid()
      modifies this
      ensures Valid() && ok == Accepted(Op.Remember(key, seconds, body, t))
      ensures held == StepHeld(old(held), Op.Remember(key, seconds, body, t)).0
    {
      if !IsKey(key) || !IsWindow(seconds) { return false; }
      ghost var op := Op.Remember(key, seconds, body, t);
      PutBounded(held, SlotOf(op), t);
      LiveWithin(held, t);
      var slot := Slot(key.s, t + seconds.n.Floor * 1000, body);
      var place := PlaceOf(held, key.s);
      if place < |held| {
        held := held[place := slot];
        return true;
      }
      if |held| >= MAX_TRACKED_CREDENTIALS {
        Sweep(t);
        Evict();
      }
      held := held + [slot];
      return true;
    }

    method Lookup(key: Json, t: int) returns (answer: Option<Refusal>)
      requires Valid()
      modifies this
      ensures Valid() && (held, answer) == StepHeld(old(held), Op.Lookup(key, t))
    {
      if !IsKey(key) { return None; }
      var i := PlaceOf(held, key.s);
      if i == |held| { return None; }
      var entry := held[i];
      if t >= entry.until {
        DeleteBounded(held, key.s);
        held := Delete(held, key.s);
        return None;
      }
      return Some(RefusalOf(entry, t));
    }
  }

  lemma {:induction false} DeleteBounded(held: seq<Slot>, key: string)
    requires Bounded(held)
    ensures Bounded(Delete(held, key))
    ensures forall s :: s in Delete(held, key) <==> s in held && s.key != key
  {
    var i := PlaceOf(held, key);
    if i < |held| {
      var less := Delete(held, key);
      assert forall j :: 0 <= j < |less| ==> less[j] == if j < i then held[j] else held[j + 1];
      forall s ensures s in less <==> s in held && s.key != key {
        if s in held && s.key != key {
          var k :| 0 <= k < |held| && held[k] == s;
          assert less[if k < i then k else k - 1] == s;
        }
      }
    }
  }

  /** Sweeping keeps just the open windows, in order, the first first. */
  lemma {:induction false} InTail(held: seq<Slot>)
    requires held != []
    ensures held == [held[0]] + held[1..] && forall s :: s in held <==> s == held[0] || s in held[1..]
  {
    assert held == [held[0]] + held[1..];
  }

  lemma {:induction false} LiveWithin(held: seq<Slot>, t: int)
    ensures |Live(held, t)| <= |held|
    ensures forall s :: s in Live(held, t) <==> s in held && t < s.until
    ensures |Live(held, t)| == |held| ==> Live(held, t) == held
  {
    if held != [] {
      LiveWithin(held[1..], t);
      InTail(held);
    }
  }

  lemma {:induction false} LiveDistinct(held: seq<Slot>, t: int)
    requires Distinct(held)
    ensures Distinct(Live(held, t))
  {
    if held != [] {
      LiveDistinct(held[1..], t);
      LiveWithin(held[1..], t);
      var rest := Live(held[1..], t);
      forall s | s in rest ensures s.key != held[0].key {
        assert s in held[1..];
      }
    }
  }

  lemma {:induction false} AppendDistinct(held: seq<Slot>, slot: Slot)
    requires Distinct(held) && forall s :: s in held ==> s.key != slot.key
    ensures Distinct(held + [slot])
  {
  }

  lemma {:induction false} UpdateDistinct(held: seq<Slot>, i: nat, slot: Slot)
    requires Distinct(held) && i < |held| && held[i].key == slot.key
    ensures Distinct(held[i := slot])
  {
  }

  lemma {:induction false} PutBounded(held: seq<Slot>, slot: Slot, t: int)
    requires Bounded(held)
    ensures Bounded(Put(held, slot, t)) && |Put(held, slot, t)| <= 10000
  {
    var i := PlaceOf(held, slot.key);
    if i < |held| {
      UpdateDistinct(held, i, slot);
    } else if |held| < MAX_TRACKED_CREDENTIALS {
      AppendDistinct(held, slot);
    } else {
      LiveWithin(held, t);
      LiveDistinct(held, t);
      var live := Live(held, t);
      AppendDistinct(if |live| < MAX_TRACKED_CREDENTIALS then live else live[1..], slot);
    }
  }

  // ---------------------------------------------------------------- refinement

  /** What is held is what the reference holds for the same keys. */
  ghost predicate Agrees(held: seq<Slot>, all: map<string, Slot>) {
    forall s :: s in held ==> s.key in all && all[s.key] == s
  }

  /** Every window still open in the reference is held. */
  ghost predicate HoldsOpen(held: seq<Slot>, all: map<string, Slot>, t: int) {
    forall k :: k in all && t < all[k].until ==> all[k] in held
  }

  /** No window reaches further than the longest honoured: so far for a clock that does not go back. */
  ghost predicate InWindow(all: map<string, Slot>, t: int) {
    forall k :: k in all ==> all[k].key == k && all[k].until <= t + MAX_RETRY_AFTER_SECONDS * 1000
  }

  /** What `Put` holds: the slot, and what was held for other keys, less the expired and at most one more. */
  lemma {:induction false} PutHolds(held: seq<Slot>, slot: Slot, t: int)
    requires Bounded(held)
    ensures slot in Put(held, slot, t)
    ensures forall s :: s in Put(held, slot, t) ==> s == slot || (s in held && s.key != slot.key)
  {
    LiveWithin(held, t);
    var i := PlaceOf(held, slot.key);
    if i < |held| {
      assert held[i := slot][i] == slot;
    }
  }

  /**
    * An open window is dropped exactly when a new key is remembered while the map is full of open windows,
    * and then it is the one first inserted.
    */
  lemma {:induction false} DropsOnlyFirst(held: seq<Slot>, slot: Slot, t: int, s: Slot)
    requires Bounded(held) && s in held && t < s.until && s.key != slot.key
    ensures s !in Put(held, slot, t) <==>
            PlaceOf(held, slot.key) == |held| == 10000 &&
            (forall o :: o in held ==> t < o.until) && s == held[0]
  {
    var i, live := PlaceOf(held, slot.key), Live(held, t);
    if i < |held| {
      StaysHeld(held, i, slot, s);
    } else if |held| == MAX_TRACKED_CREDENTIALS {
      LiveWithin(held, t);
      AllLive(held, t);
      if |live| == MAX_TRACKED_CREDENTIALS { StaysBehind(held, s); }
    }
  }

  lemma {:induction false} StaysHeld(held: seq<Slot>, i: nat, slot: Slot, s: Slot)
    requires i < |held| && s in held && held[i].key == slot.key != s.key
    ensures s in held[i := slot]
  {
    var k :| 0 <= k < |held| && held[k] == s;
    assert held[i := slot][k] == s;
  }

  /** Where the first goes, every other stays. */
  lemma {:induction false} StaysBehind(held: seq<Slot>, s: Slot)
    requires Distinct(held) && s in held
    ensures s in held[1..] <==> s != held[0]
  {
    var k :| 0 <= k < |held| && held[k] == s;
    if k > 0 { assert held[1..][k - 1] == s; }
  }

  lemma {:induction false} AllLive(held: seq<Slot>, t: int)
    ensures |Live(held, t)| == |held| <==> forall o :: o in held ==> t < o.until
  {
    if held != [] {
      var rest := held[1..];
      AllLive(rest, t);
      LiveWithin(rest, t);
      assert forall o :: o in held <==> o == held[0] || o in rest;
    }
  }

  lemma {:induction false} PlaceOfHeld(held: seq<Slot>, s: Slot)
    requires Distinct(held) && s in held
    ensures PlaceOf(held, s.key) < |held| && held[PlaceOf(held, s.key)] == s
  {
  }

  /**
    * One operation against the reference: a local refusal is the reference's, hence the latest for its key and
    * inside its window, and what it tells is in 1 to 60 seconds and not less than what is left.
    */
  lemma {:induction false} StepRefines(held: seq<Slot>, all: map<string, Slot>, op: Op)
    requires Bounded(held) && Agrees(held, all) && InWindow(all, op.t)
    ensures Bounded(StepHeld(held, op).0) && Agrees(StepHeld(held, op).0, StepMap(all, op).0) &&
      InWindow(StepMap(all, op).0, op.t)
    ensures StepHeld(held, op).1.Some? ==> StepHeld(held, op).1 == StepMap(all, op).1
    ensures StepMap(all, op).1.Some? ==>
              1 <= StepMap(all, op).1.value.seconds <= MAX_RETRY_AFTER_SECONDS &&
              all[op.key.s].until <= op.t + StepMap(all, op).1.value.seconds * 1000
  {
    if op.Remember? {
      if Accepted(op) {
        PutBounded(held, SlotOf(op), op.t);
        PutHolds(held, SlotOf(op), op.t);
      }
    } else if IsKey(op.key) {
      DeleteBounded(held, op.key.s);
    }
  }

  function Keys(held: seq<Slot>): set<string> {
    set s | s in held :: s.key
  }

  lemma {:induction false} KeysCount(held: seq<Slot>)
    requires Distinct(held)
    ensures |Keys(held)| == |held|
  {
    if held != [] {
      KeysCount(held[1..]);
      assert held == [held[0]] + held[1..];
      assert held[0].key !in Keys(held[1..]);
      assert Keys(held) == {held[0].key} + Keys(held[1..]);
    }
  }

  /** With no more keys than the map holds, a new one finds room. */
  lemma {:induction false} FindsRoom(held: seq<Slot>, all: map<string, Slot>, slot: Slot)
    requires Bounded(held) && Agrees(held, all) && |all[slot.key := slot]| <= MAX_TRACKED_CREDENTIALS
    requires PlaceOf(held, slot.key) == |held|
    ensures |held| < MAX_TRACKED_CREDENTIALS
  {
    KeysCount(held);
    var keys := Keys(held) + {slot.key};
    assert slot.key !in Keys(held);
    assert keys <= all[slot.key := slot].Keys;
    SubsetSize(keys, all[slot.key := slot].Keys);
  }

  lemma {:induction false} PutHoldsOpen(held: seq<Slot>, all: map<string, Slot>, slot: Slot, t: int)
    requires Bounded(held) && Agrees(held, all) && InWindow(all, t) && HoldsOpen(held, all, t)
    requires |all[slot.key := slot]| <= MAX_TRACKED_CREDENTIALS
    ensures HoldsOpen(Put(held, slot, t), all[slot.key := slot], t)
  {
    PutHolds(held, slot, t);
    forall k | k in all && k != slot.key && t < all[k].until ensures all[k] in Put(held, slot, t) {
      DropsOnlyFirst(held, slot, t, all[k]);
      if PlaceOf(held, slot.key) == |held| { FindsRoom(held, all, slot); }
    }
  }

  lemma {:induction false} StepExact(held: seq<Slot>, all: map<string, Slot>, op: Op)
    requires Bounded(held) && Agrees(held, all) && InWindow(all, op.t) && HoldsOpen(held, all, op.t)
    requires |StepMap(all, op).0| <= MAX_TRACKED_CREDENTIALS
    ensures StepHeld(held, op).1 == StepMap(all, op).1
    ensures HoldsOpen(StepHeld(held, op).0, StepMap(all, op).0, op.t)
  {
    if op.Remember? {
      if Accepted(op) { PutHoldsOpen(held, all, SlotOf(op), op.t); }
    } else if IsKey(op.key) {
      DeleteBounded(held, op.key.s);
      if op.key.s in all && op.t < all[op.key.s].until { PlaceOfHeld(held, all[op.key.s]); }
    }
  }

  // ---------------------------------------------------------------- runs

  /** The clock does not go back. */
  ghost predicate Timed(ops: seq<Op>, since: int)
    decreases |ops|
  {
    ops != [] ==> since <= ops[0].t && Timed(ops[1..], ops[0].t)
  }

  function Answers(held: seq<Slot>, ops: seq<Op>): seq<Option<Refusal>>
    decreases |ops|
  {
    if ops == [] then [] else [StepHeld(held, ops[0]).1] + Answers(StepHeld(held, ops[0]).0, ops[1..])
  }

  /** What the reference answers. */
  function AnswersMap(all: map<string, Slot>, ops: seq<Op>): seq<Option<Refusal>>
    decreases |ops|
  {
    if ops == [] then [] else [StepMap(all, ops[0]).1] + AnswersMap(StepMap(all, ops[0]).0, ops[1..])
  }

  function AllAfter(all: map<string, Slot>, ops: seq<Op>): map<string, Slot>
    decreases |ops|
  {
    if ops == [] then all else AllAfter(StepMap(all, ops[0]).0, ops[1..])
  }

  lemma {:induction false} AllGrows(all: map<string, Slot>, ops: seq<Op>)
    ensures all.Keys <= AllAfter(all, ops).Keys
    decreases |ops|
  {
    if ops != [] { AllGrows(StepMap(all, ops[0]).0, ops[1..]); }
  }

  /** Each answer is the reference's, or none: nothing is refused locally that the reference would not refuse alike. */
  ghost predicate NoneBut(answers: seq<Option<Refusal>>, reference: seq<Option<Refusal>>) {
    |answers| == |reference| && forall i :: 0 <= i < |answers| && answers[i].Some? ==> answers[i] == reference[i]
  }

  /**
    * Over every run the cache answers as the unbounded map or not at all; and just as the unbounded map while
    * no more credentials have been remembered than it holds.
    */
  lemma {:induction false} CacheRefines(held: seq<Slot>, all: map<string, Slot>, ops: seq<Op>, since: int)
    requires Bounded(held) && Agrees(held, all) && InWindow(all, since) && Timed(ops, since)
    ensures NoneBut(Answers(held, ops), AnswersMap(all, ops))
    ensures HoldsOpen(held, all, since) && |AllAfter(all, ops)| <= 10000 ==>
              Answers(held, ops) == AnswersMap(all, ops)
    decreases |ops|
  {
    if ops != [] {
      var op := ops[0];
      StepRefines(held, all, op);
      var next, more := StepHeld(held, op).0, StepMap(all, op).0;
      if HoldsOpen(held, all, since) && |AllAfter(all, ops)| <= MAX_TRACKED_CREDENTIALS {
        AllGrows(more, ops[1..]);
        SubsetSize(more.Keys, AllAfter(all, ops).Keys);
        StepExact(held, all, op);
      }
      CacheRefines(next, more, ops[1..], op.t);
    }
  }

  // ---------------------------------------------------------------- the reference, by what is remembered

  ghost predicate IsWhole(seconds: Json, n: int) {
    1 <= n <= 60 && seconds == Num(n as real)
  }

  /** A usable credential and whole seconds from 1 to 60 open a window of so many; anything else changes nothing. */
  lemma {:induction false} RemembersFor(all: map<string, Slot>, key: Json, seconds: Json, body: Json, t: int)
    ensures var next := StepMap(all, Op.Remember(key, seconds, body, t));
            next.1.None? &&
            (forall n: int :: key.Str? && key.s != "" && IsWhole(seconds, n) ==>
               next.0 == all[key.s := Slot(key.s, t + 1000 * n, body)]) &&
            ((key == Str("") || !key.Str? || !(exists n: int :: IsWhole(seconds, n))) ==> next.0 == all)
  {
    WindowIs(seconds);
  }

  lemma {:induction false} WindowIs(seconds: Json)
    ensures IsWindow(seconds) <==> exists n: int :: IsWhole(seconds, n)
    ensures forall n: int :: IsWhole(seconds, n) ==> seconds.n.Floor == n
  {
    if IsWindow(seconds) { assert IsWhole(seconds, seconds.n.Floor); }
  }

  /** The seconds told are the fewest whole ones, one at least, that cover what is left of the window. */
  lemma {:induction false} TellsWhatIsLeft(all: map<string, Slot>, key: Json, t: int)
    ensures var answer := StepMap(all, Op.Lookup(key, t)).1;
            if key.Str? && key != Str("") && key.s in all && t < all[key.s].until then
              answer.Some? && answer.value.body == all[key.s].body && answer.value.seconds >= 1 &&
              all[key.s].until <= t + 1000 * answer.value.seconds && t + 1000 * (answer.value.seconds - 1) < all[key.s].until
            else answer.None?
  {
  }
}
