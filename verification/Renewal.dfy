/**
  * `beginRenewalCsr` and `completeRenewal`: a key is made, its signing request handed out, and the
  * certificate brought back is installed only if it is for that key and those names.
  */
module Renewal {
  import opened Js
  import C = ChainWalk

  const PENDING_RENEWAL_TTL_MS := 3600000

  datatype Pending = Pending(key: nat, csr: string, domains: seq<string>, at: int)

  datatype Install = Install(key: nat, cert: string, domains: seq<string>, notAfter: int, fingerprint: string)

  /** Keys are numbered as they are generated. */
  datatype State = State(pending: Option<Pending>, last: Option<Install>, generated: nat)

  const INITIAL := State(None, None, 0)

  /** What lies outside: openssl's signing request for a key, and a key's public half. */
  datatype Tools = Tools(csr: (nat, seq<string>) -> Option<string>, public: nat -> string, checks: C.Checks)

  /** A certificate text as it parses: its first certificate, and all of them; parsing may throw. */
  datatype Presented = NotPem | Pem(text: string, first: Option<C.Certificate>, chain: Option<seq<C.Certificate>>)

  datatype Begun = NoDomains | CsrFailed | Csr(csr: string, domains: seq<string>, reused: bool)

  datatype Completed = Refused | Fresh(install: Install) | Repeated(install: Install)

  // ---------------------------------------------------------------- names

  /** `text.split(',')` */
  function Split(text: string): seq<string>
    decreases |text|
  {
    var i := IndexOf(text, ',');
    if i == |text| then [text] else [text[..i]] + Split(text[i + 1..])
  }

  /** The DNS names of a subject alternative name, in lower case. */
  function DnsNames(parts: seq<string>): seq<string> {
    if parts == [] then []
    else
      var part := Trim(parts[0]);
      (if "DNS:" <= part then [Lower(part[4..])] else []) + DnsNames(parts[1..])
  }

  predicate Covers(c: C.Certificate, names: seq<string>) {
    forall i :: 0 <= i < |names| ==> Lower(names[i]) in DnsNames(Split(c.altNames))
  }

  /** The entry is the DNS name that reads so in lower case. */
  ghost predicate IsDns(entry: string, low: string) {
    exists dns :: Trim(entry) == "DNS:" + dns && Lower(dns) == low
  }

  /** One of the alternative names is this DNS name, in whatever case. */
  ghost predicate Lists(altNames: string, name: string) {
    exists i :: 0 <= i < |Split(altNames)| && IsDns(Split(altNames)[i], Lower(name))
  }

  ghost predicate CoversAll(c: C.Certificate, names: seq<string>) {
    forall name :: name in names ==> Lists(c.altNames, name)
  }

  lemma {:induction false} DnsIs(entry: string, low: string)
    ensures IsDns(entry, low) <==> "DNS:" <= Trim(entry) && Lower(Trim(entry)[4..]) == low
  {
    var part := Trim(entry);
    if "DNS:" <= part { assert part == "DNS:" + part[4..]; }
    if dns :| part == "DNS:" + dns && Lower(dns) == low { assert part[4..] == dns; }
  }

  lemma {:induction false} DnsNamesAre(parts: seq<string>, low: string)
    ensures low in DnsNames(parts) <==> exists i :: 0 <= i < |parts| && IsDns(parts[i], low)
  {
    if parts != [] {
      var rest := parts[1..];
      DnsNamesAre(rest, low);
      DnsIs(parts[0], low);
      assert forall i :: 0 < i < |parts| ==> parts[i] == rest[i - 1];
      assert forall i :: 0 <= i < |rest| ==> rest[i] == parts[i + 1];
    }
  }

  lemma {:induction false} CoversIs(c: C.Certificate, names: seq<string>)
    ensures Covers(c, names) <==> CoversAll(c, names)
  {
    forall i | 0 <= i < |names|
      ensures Lower(names[i]) in DnsNames(Split(c.altNames)) <==> Lists(c.altNames, names[i])
    {
      DnsNamesAre(Split(c.altNames), Lower(names[i]));
    }
    if CoversAll(c, names) {
      forall i | 0 <= i < |names| ensures Lower(names[i]) in DnsNames(Split(c.altNames)) {
        assert names[i] in names;
      }
    }
  }

  /** The names are taken to be the same when their comma-separated lists read the same. */
  predicate SameNames(a: seq<string>, b: seq<string>) {
    Join(a, ",") == Join(b, ",")
  }

  /** What the names come to once each is split at its commas, as `ACME_DOMAIN` is. */
  function Pieces(names: seq<string>): seq<string>
    decreases |names|
  {
    if names == [] then [] else Split(names[0]) + Pieces(names[1..])
  }

  /** Two lists of names are taken to be the same exactly when they split into the same names. */
  lemma {:induction false} SameNamesIsSamePieces(a: seq<string>, b: seq<string>)
    requires a != [] && b != []
    ensures SameNames(a, b) <==> Pieces(a) == Pieces(b)
  {
    SplitJoin(a);
    SplitJoin(b);
    JoinSplit(Join(a, ","));
    JoinSplit(Join(b, ","));
  }

  lemma {:induction false} SplitJoin(names: seq<string>)
    requires names != []
    ensures Split(Join(names, ",")) == Pieces(names)
    decreases |names|
  {
    if |names| == 1 {
      ConcatNothing(Split(names[0]));
    } else {
      SplitJoin(names[1..]);
      var rest := Join(names[1..], ",");
      Assoc(names[0], ",", rest);
      SplitAtComma(names[0], rest, "," + rest);
    }
  }

  lemma {:induction false} SplitAtComma(a: string, rest: string, tail: string)
    requires tail == "," + rest
    ensures Split(a + tail) == Split(a) + Split(rest)
    decreases |a|
  {
    var i := IndexOf(a, ',');
    IndexOfAppend(a, tail, ',');
    if i < |a| {
      SliceWithin(a, tail, i);
      SplitAtComma(a[i + 1..], rest, tail);
      Assoc([a[..i]], Split(a[i + 1..]), Split(rest));
    } else {
      SliceAfter(a, rest, tail);
    }
  }

  lemma {:induction false} SliceAfter(a: string, rest: string, tail: string)
    requires tail == "," + rest
    ensures (a + tail)[..|a|] == a && (a + tail)[|a| + 1..] == rest
  {
  }

  lemma {:induction false} CutAt(text: string, i: nat)
    requires i < |text| && text[i] == ','
    ensures text[..i] + "," + text[i + 1..] == text
  {
  }

  lemma {:induction false} JoinCons(first: string, rest: seq<string>)
    requires rest != []
    ensures Join([first] + rest, ",") == first + "," + Join(rest, ",")
  {
    assert ([first] + rest)[1..] == rest;
  }

  lemma {:induction false} JoinSplit(text: string)
    ensures Split(text) != [] && Join(Split(text), ",") == text
    decreases |text|
  {
    var i := IndexOf(text, ',');
    if i < |text| {
      IndexOfIsFirst(text, ',');
      JoinSplit(text[i + 1..]);
      JoinCons(text[..i], Split(text[i + 1..]));
      CutAt(text, i);
    }
  }

  predicate NoComma(names: seq<string>)
    decreases |names|
  {
    names == [] || (IndexOf(names[0], ',') == |names[0]| && NoComma(names[1..]))
  }

  lemma {:induction false} PiecesOfPlain(names: seq<string>)
    requires NoComma(names)
    ensures Pieces(names) == names
    decreases |names|
  {
    if names != [] { PiecesOfPlain(names[1..]); }
  }

  /** Names without commas, such as a split on commas leaves, are the same exactly when their lists are equal. */
  lemma {:induction false} SameNamesIsEqual(a: seq<string>, b: seq<string>)
    requires NoComma(a) && NoComma(b) && a != [] && b != []
    ensures SameNames(a, b) <==> a == b
  {
    SameNamesIsSamePieces(a, b);
    PiecesOfPlain(a);
    PiecesOfPlain(b);
  }

  /** A name holding a comma would be taken for two. */
  lemma {:induction false} CommaIsTakenForTwo()
    ensures SameNames(["a,b"], ["a", "b"]) && ["a,b"] != ["a", "b"]
  {
    assert ["a", "b"][1..] == ["b"];
    assert Join(["a", "b"], ",") == "a" + "," + Join(["b"], ",");
    assert |["a,b"]| != |["a", "b"]|;
  }

  // ---------------------------------------------------------------- begin

  /** The pending renewal is for these names and young enough to be handed out again. */
  predicate Reusable(st: State, names: seq<string>, now: int) {
    st.pending.Some? && now - st.pending.value.at < PENDING_RENEWAL_TTL_MS && SameNames(st.pending.value.domains, names)
  }

  function Begin(tools: Tools, st: State, domains: seq<string>, now: int): (State, Begun) {
    var names := NonEmpty(domains);
    if names == [] then (st, NoDomains)
    else if Reusable(st, names, now) then (st, Csr(st.pending.value.csr, names, true))
    else
      match tools.csr(st.generated, names)
      case None => (st.(generated := st.generated + 1), CsrFailed)
      case Some(csr) =>
        (State(Some(Pending(st.generated, csr, names, now)), st.last, st.generated + 1), Csr(csr, names, false))
  }

  // ---------------------------------------------------------------- complete

  /** The chain may be installed for a pending renewal: it is trusted, for its key and names, and unexpired. */
  ghost predicate Installable(tools: Tools, p: Pending, certs: seq<C.Certificate>, roots: seq<C.Certificate>,
      now: int) {
    C.Accepts(tools.checks, certs, roots, now) && certs[0].key == tools.public(p.key) &&
    CoversAll(certs[0], p.domains) && certs[0].notAfter > now
  }

  ghost function Complete(
      tools: Tools, st: State, cert: Presented, roots: seq<C.Certificate>, now: int): (State, Completed)
  {
    if cert.NotPem? || cert.first.None? then (st, Refused)
    else
      var seen := cert.first.value.fingerprint;
      if st.last.Some? && st.last.value.fingerprint == seen then (st, Repeated(st.last.value))
      else if st.pending.None? || cert.chain.None? || !Installable(tools, st.pending.value, cert.chain.value, roots, now) then
        (st, Refused)
      else
        var p := st.pending.value;
        var install := Install(p.key, cert.text, p.domains, cert.chain.value[0].notAfter, seen);
        (State(None, Some(install), st.generated), Fresh(install))
  }

  class Authority {
    const tools: Tools
    var pendingRenewal: Option<Pending>
    var lastInstall: Option<Install>
    var generated: nat

    constructor (tools: Tools)
      ensures View() == INITIAL && this.tools == tools
    {
      this.tools, pendingRenewal, lastInstall, generated := tools, None, None, 0;
    }

    function View(): State
      reads this
    {
      State(pendingRenewal, lastInstall, generated)
    }

    method BeginRenewalCsr(domains: seq<string>, now: int) returns (r: Begun)
      modifies this
      ensures (View(), r) == Begin(tools, old(View()), domains, now)
    {
      var names := NonEmpty(domains);
      if names == [] { return NoDomains; }
      if pendingRenewal.Some? && now - pendingRenewal.value.at < PENDING_RENEWAL_TTL_MS &&
         Join(pendingRenewal.value.domains, ",") == Join(names, ",") {
        return Csr(pendingRenewal.value.csr, names, true);
      }
      var key := generated;
      generated := generated + 1;
      var csr := tools.csr(key, names);
      if csr.None? { return CsrFailed; }
      pendingRenewal := Some(Pending(key, csr.value, names, now));
      return Csr(csr.value, names, false);
    }

    method CompleteRenewal(cert: Presented, roots: seq<C.Certificate>, now: int) returns (r: Completed)
      modifies this
      ensures (View(), r) == Complete(tools, old(View()), cert, roots, now)
    {
      if cert.NotPem? || cert.first.None? { return Refused; }
      var seen := cert.first.value.fingerprint;
      if lastInstall.Some? && lastInstall.value.fingerprint == seen { return Repeated(lastInstall.value); }
      if pendingRenewal.None? || cert.chain.None? { return Refused; }
      var p := pendingRenewal.value;
      var verdict := C.VerifyChainToRoots(tools.checks, cert.chain.value, roots, now);
      if !verdict.Trusted? { return Refused; }
      var leaf := verdict.leaf;
      if leaf.key != tools.public(p.key) { return Refused; }
      CoversIs(leaf, p.domains);
      if !Covers(leaf, p.domains) { return Refused; }
      if leaf.notAfter <= now { return Refused; }
      var install := Install(p.key, cert.text, p.domains, leaf.notAfter, seen);
      pendingRenewal, lastInstall := None, Some(install);
      return Fresh(install);
    }
  }

  // ---------------------------------------------------------------- every run

  datatype Op =
    | BeginOp(domains: seq<string>, now: int)
    | CompleteOp(cert: Presented, roots: seq<C.Certificate>, at: int)

  ghost function Apply(tools: Tools, st: State, op: Op): State {
    match op
    case BeginOp(domains, now) => Begin(tools, st, domains, now).0
    case CompleteOp(cert, roots, now) => Complete(tools, st, cert, roots, now).0
  }

  ghost function Run(tools: Tools, st: State, ops: seq<Op>): State
    decreases |ops|
  {
    if ops == [] then st else Run(tools, Apply(tools, st, ops[0]), ops[1..])
  }

  /** The install an operation makes afresh. */
  ghost function FreshIn(tools: Tools, st: State, op: Op): seq<Install> {
    match op
    case BeginOp(_, _) => []
    case CompleteOp(cert, roots, now) =>
      match Complete(tools, st, cert, roots, now).1
      case Fresh(install) => [install]
      case _ => []
  }

  /** Every fresh install of a run, in order. */
  ghost function Installs(tools: Tools, st: State, ops: seq<Op>): seq<Install>
    decreases |ops|
  {
    if ops == [] then []
    else FreshIn(tools, st, ops[0]) + Installs(tools, Apply(tools, st, ops[0]), ops[1..])
  }

  /** The least key that may still be installed: the pending one, or the next to be generated. */
  function NextKey(st: State): nat {
    if st.pending.Some? then st.pending.value.key else st.generated
  }

  predicate Valid(st: State) {
    st.pending.Some? ==> st.pending.value.key < st.generated
  }

  lemma {:induction false} OneOp(tools: Tools, st: State, op: Op)
    requires Valid(st)
    ensures Valid(Apply(tools, st, op)) && NextKey(st) <= NextKey(Apply(tools, st, op))
    ensures FreshIn(tools, st, op) != [] ==>
      |FreshIn(tools, st, op)| == 1 && FreshIn(tools, st, op)[0].key == NextKey(st) < NextKey(Apply(tools, st, op))
  {
  }

  /** The keys, none below `low`, each after those generated before it: so none comes twice. */
  ghost predicate Rising(low: nat, made: seq<Install>) {
    (forall i :: 0 <= i < |made| ==> low <= made[i].key) &&
    forall i, j :: 0 <= i < j < |made| ==> made[i].key < made[j].key
  }

  lemma {:induction false} RisingCons(low: nat, first: Install, rest: seq<Install>)
    requires low <= first.key && Rising(first.key + 1, rest)
    ensures Rising(low, [first] + rest)
  {
    var made := [first] + rest;
    assert forall i :: 0 < i < |made| ==> made[i] == rest[i - 1];
  }

  /** Keys are installed in the order they were generated, each at most once. */
  lemma {:induction false} EachKeyOnce(tools: Tools, st: State, ops: seq<Op>)
    requires Valid(st)
    ensures Rising(NextKey(st), Installs(tools, st, ops))
    decreases |ops|
  {
    if ops != [] {
      var next := Apply(tools, st, ops[0]);
      OneOp(tools, st, ops[0]);
      EachKeyOnce(tools, next, ops[1..]);
      var first, rest := FreshIn(tools, st, ops[0]), Installs(tools, next, ops[1..]);
      if first == [] {
        assert first + rest == rest;
      } else {
        RisingCons(NextKey(st), first[0], rest);
        assert first == [first[0]];
      }
    }
  }

  lemma {:induction false} RunSnoc(tools: Tools, st: State, ops: seq<Op>, op: Op)
    ensures Run(tools, st, ops + [op]) == Apply(tools, Run(tools, st, ops), op)
    decreases |ops|
  {
    if ops == [] {
      assert (ops + [op])[1..] == [];
    } else {
      TailAppend(ops, [op]);
      RunSnoc(tools, Apply(tools, st, ops[0]), ops[1..], op);
    }
  }

  /** Some begin of the run asked for just these names, and the request handed out is over this key and them. */
  ghost predicate Asked(tools: Tools, ops: seq<Op>, p: Pending) {
    tools.csr(p.key, p.domains) == Some(p.csr) &&
    exists i :: 0 <= i < |ops| && ops[i].BeginOp? && AreNamed(ops[i].domains, p.domains) && ops[i].now == p.at
  }

  lemma {:induction false} PendingWasAsked(tools: Tools, ops: seq<Op>)
    ensures var st := Run(tools, INITIAL, ops);
            Valid(st) && (st.pending.Some? ==> Asked(tools, ops, st.pending.value))
    decreases |ops|
  {
    if ops != [] {
      var most, op := ops[..|ops| - 1], ops[|ops| - 1];
      assert most + [op] == ops;
      RunSnoc(tools, INITIAL, most, op);
      PendingWasAsked(tools, most);
      var st := Run(tools, INITIAL, most);
      OneOp(tools, st, op);
      AskedStill(tools, most, op, st);
    }
  }

  lemma {:induction false} AskedStill(tools: Tools, most: seq<Op>, op: Op, st: State)
    requires st.pending.Some? ==> Asked(tools, most, st.pending.value)
    ensures var next := Apply(tools, st, op); next.pending.Some? ==> Asked(tools, most + [op], next.pending.value)
  {
    var next, ops := Apply(tools, st, op), most + [op];
    if next.pending.Some? {
      if next.pending == st.pending {
        var i :| 0 <= i < |most| && most[i].BeginOp? && AreNamed(most[i].domains, st.pending.value.domains) &&
          most[i].now == st.pending.value.at;
        assert ops[i] == most[i];
      } else {
        NonEmptyIs(op.domains);
        assert ops[|most|] == op;
      }
    }
  }

  /**
    * Over every run, a fresh install is of a certificate trusted at that moment, over the key of a request
    * handed out in the run, covering every name some begin of the run asked of that request; and it is over
    * then. Whatever is refused or repeated changes nothing.
    */
  lemma {:induction false} InstallsWhatWasAsked(tools: Tools, ops: seq<Op>, cert: Presented,
      roots: seq<C.Certificate>, now: int)
    ensures var st := Run(tools, INITIAL, ops);
            var (next, outcome) := Complete(tools, st, cert, roots, now);
            if outcome.Fresh? then
              st.pending.Some? && Asked(tools, ops, st.pending.value) && next.pending.None? &&
              cert.Pem? && cert.first.Some? && cert.chain.Some? &&
              Installable(tools, st.pending.value, cert.chain.value, roots, now) &&
              outcome.install == Install(st.pending.value.key, cert.text, st.pending.value.domains,
                                         cert.chain.value[0].notAfter, cert.first.value.fingerprint)
            else next == st
  {
    PendingWasAsked(tools, ops);
  }

  /** While a renewal is in flight: begins for its names inside its window, and completes that install nothing. */
  ghost predicate Quiet(tools: Tools, st: State, names: seq<string>, t: int, op: Op) {
    match op
    case BeginOp(domains, now) => NonEmpty(domains) == names && now < t + 3600000
    case CompleteOp(cert, roots, now) => !Complete(tools, st, cert, roots, now).1.Fresh?
  }

  lemma {:induction false} QuietRun(tools: Tools, st: State, names: seq<string>, t: int, ops: seq<Op>)
    requires names != [] && st.pending.Some? && st.pending.value.domains == names && st.pending.value.at == t
    requires forall op :: op in ops ==> Quiet(tools, st, names, t, op)
    ensures Run(tools, st, ops) == st
    decreases |ops|
  {
    if ops != [] {
      assert Quiet(tools, st, names, t, ops[0]);
      assert Apply(tools, st, ops[0]) == st;
      QuietRun(tools, st, names, t, ops[1..]);
    }
  }

  /**
    * A certificate obtained for a request that was handed out still installs, whatever begins for the same
    * names came inside the window and whatever completes failed: every such begin hands out the same request,
    * and no later one does.
    */
  lemma {:induction false} InFlightInstalls(
      tools: Tools, before: State, domains: seq<string>, t: int, ops: seq<Op>,
      cert: Presented, roots: seq<C.Certificate>, now: int)
    requires Begin(tools, before, domains, t).1.Csr? && !Begin(tools, before, domains, t).1.reused
    requires var st := Begin(tools, before, domains, t).0;
             forall op :: op in ops ==> Quiet(tools, st, NonEmpty(domains), t, op)
    ensures var (first, begun) := Begin(tools, before, domains, t);
            var st := Run(tools, first, ops);
            (forall again: int :: again < t + 3600000 ==>
               Begin(tools, st, domains, again).1 == begun.(reused := true)) &&
            (forall again: int :: again >= t + 3600000 ==>
               !(Begin(tools, st, domains, again).1.Csr? && Begin(tools, st, domains, again).1.reused)) &&
            (cert.Pem? && cert.first.Some? && cert.chain.Some? &&
             Installable(tools, Pending(before.generated, begun.csr, NonEmpty(domains), t), cert.chain.value, roots, now) &&
             (before.last.Some? ==> before.last.value.fingerprint != cert.first.value.fingerprint) ==>
               Complete(tools, st, cert, roots, now).1.Fresh? &&
               Complete(tools, st, cert, roots, now).1.install.key == before.generated)
  {
    QuietRun(tools, Begin(tools, before, domains, t).0, NonEmpty(domains), t, ops);
  }

  /** A certificate installed once is answered for with the same result until another is installed. */
  lemma {:induction false} RepeatsLastInstall(
      tools: Tools, st: State, ops: seq<Op>, cert: Presented, roots: seq<C.Certificate>, now: int)
    requires st.last.Some? && Installs(tools, st, ops) == []
    requires cert.Pem? && cert.first.Some? && cert.first.value.fingerprint == st.last.value.fingerprint
    ensures var end := Run(tools, st, ops); Complete(tools, end, cert, roots, now) == (end, Repeated(st.last.value))
    decreases |ops|
  {
    if ops != [] {
      RepeatsLastInstall(tools, Apply(tools, st, ops[0]), ops[1..], cert, roots, now);
    }
  }
}
