/** The worker's request counters: one outcome for each request, in maps that cannot grow without bound. */
module Counters {
  import opened Js

  const MAX_KEYS := 64
  const OTHER := "other"

  predicate IsKeyChar(c: char) {
    'a' <= c <= 'z' || '0' <= c <= '9' || c == '_'
  }

  /** `KEY_RE` */
  predicate IsName(key: string) {
    1 <= |key| <= 64 && forall i :: 0 <= i < |key| ==> IsKeyChar(key[i])
  }

  /** The key a value asks for. */
  function KeyOf(v: Json): string {
    if v.Str? && IsName(v.s) then v.s else OTHER
  }

  /** A lower-case letter, a digit or an underscore, by its code. */
  predicate NameCode(code: int) {
    0x61 <= code < 0x7b || 0x30 <= code < 0x3a || code == 0x5f
  }

  /** A name is one to sixty-four of these characters; anything else is counted together. */
  lemma {:induction false} KeyOfIs(v: Json)
    ensures var name := v.Str? && 0 < |v.s| < 65 && forall i :: 0 <= i < |v.s| ==> NameCode(v.s[i] as int);
            KeyOf(v) == if name then v.s else "other"
  {
    assert forall c: char :: IsKeyChar(c) <==> NameCode(c as int);
  }

  function Named(m: map<string, nat>): set<string> {
    m.Keys - {OTHER}
  }

  /** The key that is counted: a new name once there is no room is counted as other. */
  function Counted(m: map<string, nat>, v: Json): string {
    var k := KeyOf(v);
    if k != OTHER && k !in m && |Named(m)| >= MAX_KEYS - 1 then OTHER else k
  }

  function Count(m: map<string, nat>, k: string): nat {
    if k in m then m[k] else 0
  }

  function AddTo(m: map<string, nat>, k: string): map<string, nat> {
    m[k := Count(m, k) + 1]
  }

  /** `bump` */
  function Bump(m: map<string, nat>, v: Json): map<string, nat> {
    AddTo(m, Counted(m, v))
  }

  // ---------------------------------------------------------------- sums

  ghost function Total(m: map<string, nat>): nat
    decreases |m|
  {
    if m == map[] then 0
    else
      var k :| k in m;
      Smaller(m, k);
      m[k] + Total(m - {k})
  }

  lemma {:induction false} Smaller(m: map<string, nat>, k: string)
    requires k in m
    ensures |m - {k}| == |m| - 1
  {
    assert m.Keys == (m - {k}).Keys + {k};
  }

  /** The sum does not depend on the order the keys are taken in. */
  lemma {:induction false} TotalWithout(m: map<string, nat>, k: string)
    requires k in m
    ensures Total(m) == m[k] + Total(m - {k})
    decreases |m|
  {
    var first :| first in m && Total(m) == m[first] + Total(m - {first});
    if first != k {
      Smaller(m, first);
      Smaller(m, k);
      TotalWithout(m - {first}, k);
      TotalWithout(m - {k}, first);
      assert m - {first} - {k} == m - {k} - {first};
    }
  }

  lemma {:induction false} TotalPut(m: map<string, nat>, k: string, n: nat)
    ensures Total(m[k := n]) == Total(m) - Count(m, k) + n
  {
    var more := m[k := n];
    TotalWithout(more, k);
    assert more - {k} == m - {k};
    if k in m {
      TotalWithout(m, k);
    } else {
      assert m - {k} == m;
    }
  }

  ghost predicate Bounded(m: map<string, nat>) {
    |Named(m)| <= MAX_KEYS - 1
  }

  lemma {:induction false} NamedPut(m: map<string, nat>, k: string, n: nat)
    ensures Named(m[k := n]) == Named(m) + ({k} - {OTHER})
  {
  }

  /** Adding a name adds at most one, and one exactly when it is a new one. */
  lemma {:induction false} AddName(names: set<string>, k: string)
    requires OTHER !in names
    ensures |names + ({k} - {OTHER})| == |names| + if k == OTHER || k in names then 0 else 1
  {
    if k == OTHER || k in names {
      assert names + ({k} - {OTHER}) == names;
    } else {
      assert names + ({k} - {OTHER}) == names + {k};
    }
  }

  lemma {:induction false} KeysAreNamed(m: map<string, nat>)
    ensures |m| <= |Named(m)| + 1
  {
    if OTHER in m {
      assert m.Keys == Named(m) + {OTHER};
    } else {
      assert m.Keys == Named(m);
    }
  }

  lemma {:induction false} PutBounded(m: map<string, nat>, k: string, n: nat)
    requires Bounded(m) && (k == OTHER || k in m || |Named(m)| < MAX_KEYS - 1)
    ensures Bounded(m[k := n]) && |m[k := n]| <= MAX_KEYS
  {
    NamedPut(m, k, n);
    AddName(Named(m), k);
    KeysAreNamed(m[k := n]);
  }

  /** A bump adds one to one count, leaves every other, and keeps the map within its keys. */
  lemma {:induction false} BumpAddsOne(m: map<string, nat>, v: Json)
    requires Bounded(m)
    ensures Bounded(Bump(m, v)) && |Bump(m, v)| <= 64 && Total(Bump(m, v)) == Total(m) + 1
    ensures Count(Bump(m, v), Counted(m, v)) == Count(m, Counted(m, v)) + 1
    ensures forall k :: k != Counted(m, v) ==> Count(Bump(m, v), k) == Count(m, k)
  {
    var k := CountedFits(m, v);
    AddOne(m, k);
  }

  lemma {:induction false} AddOne(m: map<string, nat>, k: string)
    requires Bounded(m) && (k == OTHER || k in m || |Named(m)| < MAX_KEYS - 1)
    ensures Bounded(AddTo(m, k)) && |AddTo(m, k)| <= MAX_KEYS && Total(AddTo(m, k)) == Total(m) + 1
    ensures Count(AddTo(m, k), k) == Count(m, k) + 1
    ensures forall other :: other != k ==> Count(AddTo(m, k), other) == Count(m, other)
  {
    PutBounded(m, k, Count(m, k) + 1);
    TotalPut(m, k, Count(m, k) + 1);
  }

  lemma {:induction false} CountedFits(m: map<string, nat>, v: Json) returns (k: string)
    requires Bounded(m)
    ensures k == Counted(m, v) && (k == OTHER || k in m || |Named(m)| < MAX_KEYS - 1)
  {
    k := KeyOf(v);
    if k != OTHER && k !in m && |Named(m)| >= MAX_KEYS - 1 { k := OTHER; }
  }

  // ---------------------------------------------------------------- requests and streams as steps

  datatype Event = Begin | Finalize(request: nat, outcome: Json) | Opened | Closed

  /** `done` holds each finalizer's flag, in the order the requests began. */
  datatype State = State(done: seq<bool>, outcomes: map<string, nat>, open: nat)

  const INITIAL := State([], map[], 0)

  function Step(st: State, e: Event): State {
    match e
    case Begin => st.(done := st.done + [false])
    case Finalize(i, outcome) =>
      if i < |st.done| &&
        !st.done[i] then st.(done := st.done[i := true], outcomes := Bump(st.outcomes, outcome)) else st
    case Opened => st.(open := st.open + 1)
    case Closed => st.(open := if st.open > 0 then st.open - 1 else 0)
  }

  function Run(events: seq<Event>): State
    decreases |events|
  {
    if events == [] then INITIAL else Step(Run(events[..|events| - 1]), events[|events| - 1])
  }

  function Finished(done: seq<bool>): nat {
    if done == [] then 0 else (if done[|done| - 1] then 1 else 0) + Finished(done[..|done| - 1])
  }

  lemma {:induction false} FinishOne(done: seq<bool>, i: nat)
    requires i < |done| && !done[i]
    ensures Finished(done[i := true]) == Finished(done) + 1
    decreases |done|
  {
    var last := |done| - 1;
    if i < last {
      FinishOne(done[..last], i);
      assert done[i := true][..last] == done[..last][i := true];
    } else {
      assert done[i := true][..last] == done[..last];
    }
  }

  lemma {:induction false} FinishedAll(done: seq<bool>)
    ensures Finished(done) <= |done|
    ensures Finished(done) == |done| <==> forall i :: 0 <= i < |done| ==> done[i]
  {
    if done != [] {
      FinishedAll(done[..|done| - 1]);
      assert forall i :: 0 <= i < |done| - 1 ==> done[i] == done[..|done| - 1][i];
    }
  }

  ghost predicate Valid(st: State) {
    Bounded(st.outcomes) && |st.outcomes| <= MAX_KEYS && Total(st.outcomes) == Finished(st.done)
  }

  lemma {:induction false} StepKeeps(st: State, e: Event)
    requires Valid(st)
    ensures Valid(Step(st, e))
  {
    match e
    case Begin => assert Step(st, e).done[..|st.done|] == st.done;
    case Finalize(i, outcome) =>
      if i < |st.done| && !st.done[i] { FinalizeKeeps(st, i, outcome); }
    case Opened =>
    case Closed =>
  }

  lemma {:induction false} FinalizeKeeps(st: State, i: nat, outcome: Json)
    requires Valid(st) && i < |st.done| && !st.done[i]
    ensures Valid(st.(done := st.done[i := true], outcomes := Bump(st.outcomes, outcome)))
  {
    BumpAddsOne(st.outcomes, outcome);
    FinishOne(st.done, i);
  }

  /** The request was finalized: some call of its finalizer came after it began. */
  ghost predicate Finalized(events: seq<Event>, request: nat) {
    exists i :: 0 <= i < |events| && events[i].Finalize? && events[i].request == request && request < Begun(events[..i])
  }

  function Begun(events: seq<Event>): nat
    decreases |events|
  {
    if events == [] then 0 else Begun(events[..|events| - 1]) + if events[|events| - 1].Begin? then 1 else 0
  }

  /** Which requests were finalized is just what the flags say. */
  lemma {:induction false} DoneIsFinalized(events: seq<Event>)
    ensures |Run(events).done| == Begun(events)
    ensures forall r: nat :: r < Begun(events) ==> (Run(events).done[r] <==> Finalized(events, r))
    decreases |events|
  {
    if events != [] {
      var most, e := events[..|events| - 1], events[|events| - 1];
      DoneIsFinalized(most);
      assert forall i :: 0 <= i <= |most| ==> most[..i] == events[..i];
      forall r: nat | r < Begun(events) ensures Run(events).done[r] <==> Finalized(events, r) {
        FinalizedSnoc(most, e, r);
        assert most + [e] == events;
        if r == Begun(most) { NotBefore(most, r); }
      }
    } else {
      assert Run(events).done == [];
    }
  }

  lemma {:induction false} FinalizedSnoc(most: seq<Event>, e: Event, r: nat)
    ensures Finalized(most + [e], r) <==> Finalized(most, r) || (e.Finalize? && e.request == r && r < Begun(most))
  {
    var events := most + [e];
    assert forall i :: 0 <= i <= |most| ==> most[..i] == events[..i];
    assert events[..|most|] == most && events[|most|] == e;
    if Finalized(most, r) {
      var i :| 0 <= i < |most| && most[i].Finalize? && most[i].request == r && r < Begun(most[..i]);
      assert events[i] == most[i];
    }
  }

  lemma {:induction false} BegunGrows(events: seq<Event>, i: nat)
    requires i <= |events|
    ensures Begun(events[..i]) <= Begun(events)
    decreases |events|
  {
    if i < |events| {
      BegunGrows(events[..|events| - 1], i);
      assert events[..|events| - 1][..i] == events[..i];
    } else {
      assert events[..i] == events;
    }
  }

  /** A request is not finalized before it begins. */
  lemma {:induction false} NotBefore(events: seq<Event>, r: nat)
    requires Begun(events) <= r
    ensures !Finalized(events, r)
  {
    forall i | 0 <= i < |events| ensures Begun(events[..i]) <= r {
      BegunGrows(events, i);
    }
  }

  /**
    * Under any interleaving, with any number of repeated calls: the outcomes sum to the number of requests
    * finalized at least once, so to the number of requests exactly when all are; and the map keeps to its keys.
    */
  lemma {:induction false} OneOutcomePerRequest(events: seq<Event>)
    ensures var st := Run(events);
            |st.outcomes| <= MAX_KEYS && Total(st.outcomes) == Finished(st.done) <= Begun(events) &&
            (Total(st.outcomes) == Begun(events) <==> forall r: nat :: r < Begun(events) ==> Finalized(events, r))
  {
    RunValid(events);
    DoneIsFinalized(events);
    FinishedAll(Run(events).done);
  }

  lemma {:induction false} RunValid(events: seq<Event>)
    ensures Valid(Run(events))
    decreases |events|
  {
    if events != [] {
      RunValid(events[..|events| - 1]);
      StepKeeps(Run(events[..|events| - 1]), events[|events| - 1]);
    } else {
      assert Named(map[]) == {};
    }
  }

  // ---------------------------------------------------------------- the stream gauge

  /** Streams opened less streams closed. */
  function Balance(events: seq<Event>): int
    decreases |events|
  {
    if events == [] then 0
    else
      Balance(events[..|events| - 1]) +
      match events[|events| - 1]
      case Opened => 1
      case Closed => -1
      case _ => 0
  }

  /** No more streams are closed than have been opened, at any time. */
  ghost predicate Balanced(events: seq<Event>)
    decreases |events|
  {
    Balance(events) >= 0 && (events != [] ==> Balanced(events[..|events| - 1]))
  }

  /** The gauge is what is open exactly when nothing was closed that had not been opened; else it is above. */
  lemma {:induction false} GaugeIsBalance(events: seq<Event>)
    ensures Run(events).open >= Balance(events)
    ensures Run(events).open == Balance(events) <==> Balanced(events)
    decreases |events|
  {
    if events != [] { GaugeIsBalance(events[..|events| - 1]); }
  }

  // ---------------------------------------------------------------- which outcome each request has

  /** The outcome of each request's first finalization, in the order they came. */
  function Firsts(events: seq<Event>): seq<Json>
    decreases |events|
  {
    if events == [] then []
    else
      var most, e := events[..|events| - 1], events[|events| - 1];
      var done := Run(most).done;
      Firsts(most) + if e.Finalize? && e.request < |done| && !done[e.request] then [e.outcome] else []
  }

  /** How many of the values ask for the key. */
  function Asking(values: seq<Json>, k: string): nat
    decreases |values|
  {
    if values == [] then 0
    else Asking(values[..|values| - 1], k) + if KeyOf(values[|values| - 1]) == k then 1 else 0
  }

  function NamesIn(values: seq<Json>): set<string> {
    (set i | 0 <= i < |values| :: KeyOf(values[i])) - {OTHER}
  }

  lemma {:induction false} AskingOne(values: seq<Json>, v: Json, k: string)
    ensures Asking(values + [v], k) == Asking(values, k) + if KeyOf(v) == k then 1 else 0
    ensures NamesIn(values + [v]) == NamesIn(values) + ({KeyOf(v)} - {OTHER})
  {
    assert (values + [v])[..|values|] == values;
    assert forall i :: 0 <= i < |values| ==> (values + [v])[i] == values[i];
    assert (values + [v])[|values|] == v;
  }

  lemma {:induction false} RoomFor(m: map<string, nat>, names: set<string>, k: string, n: nat)
    requires |names| <= MAX_KEYS - 1 && names == Named(m) + ({k} - {OTHER})
    ensures k == OTHER || k in m || |Named(m)| < MAX_KEYS - 1
    ensures Named(m[k := n]) == names
  {
    AddName(Named(m), k);
    NamedPut(m, k, n);
  }

  /** The counts are those of the values, each under its name. */
  ghost predicate CountsOf(m: map<string, nat>, values: seq<Json>, names: set<string>) {
    names == NamesIn(values) == Named(m) && forall k :: Count(m, k) == Asking(values, k)
  }

  lemma {:induction false} CountedAs(m: map<string, nat>, v: Json, key: string)
    requires key == KeyOf(v) && (key == OTHER || key in m || |Named(m)| < MAX_KEYS - 1)
    ensures Bump(m, v) == m[key := Count(m, key) + 1]
  {
  }

  lemma {:induction false} BumpCounts(m: map<string, nat>, values: seq<Json>, v: Json, names: set<string>)
    requires names == NamesIn(values + [v]) && |names| <= MAX_KEYS - 1 && CountsOf(m, values, NamesIn(values))
    ensures CountsOf(Bump(m, v), values + [v], names)
  {
    AskingOne(values, v, OTHER);
    var key := KeyOf(v);
    RoomFor(m, names, key, Count(m, key) + 1);
    CountedAs(m, v, key);
    CountsOne(m, values, v, key);
  }

  lemma {:induction false} CountsOne(m: map<string, nat>, values: seq<Json>, v: Json, key: string)
    requires key == KeyOf(v) && forall k :: Count(m, k) == Asking(values, k)
    ensures forall k :: Count(m[key := Count(m, key) + 1], k) == Asking(values + [v], k)
  {
    forall k ensures Count(m[key := Count(m, key) + 1], k) == Asking(values + [v], k) {
      AskingOne(values, v, k);
    }
  }

  /** Every count is exact while there is room for the names: only first finalizations count, each under its name. */
  lemma {:induction false} CountsFirsts(events: seq<Event>)
    requires |NamesIn(Firsts(events))| <= MAX_KEYS - 1
    ensures CountsOf(Run(events).outcomes, Firsts(events), NamesIn(Firsts(events)))
    decreases |events|
  {
    if events != [] {
      var most, e := events[..|events| - 1], events[|events| - 1];
      assert most + [e] == events;
      FirstsGrow(most, e);
      CountsFirsts(most);
      CountsStep(most, e);
    } else {
      NothingCounted();
    }
  }

  lemma {:induction false} NothingCounted()
    ensures CountsOf(map[], [], NamesIn([]))
  {
    assert NamesIn([]) == {} && Named(map[]) == {};
  }

  lemma {:induction false} FirstsGrow(most: seq<Event>, e: Event)
    ensures |NamesIn(Firsts(most))| <= |NamesIn(Firsts(most + [e]))|
  {
    FirstsStep(most, e);
    if Firsts(most + [e]) != Firsts(most) {
      AskingOne(Firsts(most), e.outcome, OTHER);
      SubsetSize(NamesIn(Firsts(most)), NamesIn(Firsts(most + [e])));
    }
  }

  lemma {:induction false} CountsStep(most: seq<Event>, e: Event)
    requires |NamesIn(Firsts(most + [e]))| <= MAX_KEYS - 1
    requires CountsOf(Run(most).outcomes, Firsts(most), NamesIn(Firsts(most)))
    ensures CountsOf(Run(most + [e]).outcomes, Firsts(most + [e]), NamesIn(Firsts(most + [e])))
  {
    FirstsStep(most, e);
    if Firsts(most + [e]) != Firsts(most) {
      BumpCounts(Run(most).outcomes, Firsts(most), e.outcome, NamesIn(Firsts(most + [e])));
    }
  }

  lemma {:induction false} FirstsStep(most: seq<Event>, e: Event)
    ensures var events := most + [e];
            (Firsts(events) == Firsts(most) && Run(events).outcomes == Run(most).outcomes) ||
            (e.Finalize? && Firsts(events) == Firsts(most) + [e.outcome] &&
             Run(events).outcomes == Bump(Run(most).outcomes, e.outcome))
  {
    var events := most + [e];
    assert events[..|events| - 1] == most && events[|events| - 1] == e;
  }

  // ---------------------------------------------------------------- the counters

  /** `finalize`, with the flag it closes over. */
  class Finalizer {
    const request: nat
    var done: bool

    constructor (request: nat)
      ensures this.request == request && !done
    {
      this.request, done := request, false;
    }
  }

  class WorkerCounters {
    var requests: nat
    var byOutcome: map<string, nat>
    var openStreams: nat
    ghost var finalizers: seq<Finalizer>

    ghost predicate Numbered()
      reads this, finalizers
    {
      requests == |finalizers| && forall i :: 0 <= i < |finalizers| ==> finalizers[i].request == i
    }

    ghost function View(): State
      reads this, finalizers
    {
      State(
        seq(|finalizers|, i requires 0 <= i < |finalizers| reads this, finalizers => finalizers[i].done),
        byOutcome, openStreams)
    }

    constructor ()
      ensures View() == INITIAL && Numbered()
    {
      requests, byOutcome, openStreams, finalizers := 0, map[], 0, [];
    }

    method BeginRequest() returns (finalizer: Finalizer)
      requires Numbered()
      modifies this
      ensures Numbered() && View() == Step(old(View()), Event.Begin)
      ensures fresh(finalizer) && finalizers == old(finalizers) + [finalizer]
    {
      finalizer := new Finalizer(requests);
      requests := requests + 1;
      finalizers := finalizers + [finalizer];
    }

    /** What calling a finalizer does. */
    method Finalize(finalizer: Finalizer, outcome: Json)
      requires Numbered() && finalizer in finalizers
      modifies this, finalizer
      ensures Numbered() && finalizers == old(finalizers)
      ensures View() == Step(old(View()), Event.Finalize(finalizer.request, outcome))
    {
      if finalizer.done { return; }
      finalizer.done := true;
      byOutcome := Bump(byOutcome, outcome);
    }

    method StreamOpened()
      requires Numbered()
      modifies this`openStreams
      ensures View() == Step(old(View()), Opened)
    {
      openStreams := openStreams + 1;
    }

    method StreamClosed()
      requires Numbered()
      modifies this`openStreams
      ensures View() == Step(old(View()), Closed)
    {
      if openStreams > 0 { openStreams := openStreams - 1; }
    }
  }
}
