/** What a Responses stream means to the client, and when that is what the collapsed form says. */
module BedrockAgreement {
  import opened Js
  import opened Decoding
  import opened ChatFrames
  import opened SseFraming
  import opened BedrockStream
  import opened BedrockCollapsed
  import opened BedrockWire
  import opened BedrockObject

  // ---------------------------------------------------------------- conservation of tool arguments

  /** The translator's books agree with what the client has been sent. */
  ghost predicate Matches(st: State, a: Answer<Usage>) {
    |a.calls| == st.toolCount &&
    (forall i :: 0 <= i < st.toolCount ==> a.calls[i].arguments == Sent(st, i)) &&
    (forall i :: i in st.argsSentByIndex ==> i < st.toolCount) &&
    (forall key :: key in st.toolIndexByItem ==> st.toolIndexByItem[key] < st.toolCount) &&
    (st.sawToolCall <==> st.toolCount > 0) &&
    (a.outcome == Open <==> !Silent(st))
  }

  function TextOf(event: Event): string {
    if event.TextDelta? then event.text else ""
  }

  ghost predicate SameHeads(a: seq<Call>, b: seq<Call>) {
    |a| == |b| && forall i :: 0 <= i < |a| ==> a[i].id == b[i].id && a[i].name == b[i].name
  }

  /** Everything one event changes about the answer besides tool arguments. */
  ghost predicate Moves(env: Env, st: State, a: Answer<Usage>, event: Event, b: Answer<Usage>) {
    b.content == a.content + TextOf(event) &&
    (if event.Added? then b.calls == a.calls + [Call(event.id, event.name, "")] else SameHeads(a.calls, b.calls)) &&
    (event.Terminal? ==>
      b.outcome == Completed && b.calls == a.calls &&
      b.finish == Some(FinishReason(st, event.incomplete, event.response)) &&
      b.usage ==
        (if Truthy(Get(event.response, "usage")) then Some(UsageOf(env.js, Get(event.response, "usage"))) else a.usage) &&
      b.model ==
        if Truthy(Get(event.response, "usage")) then Some(FrameModel(env, st.wireModel, event.response)) else a.model) &&
    (event.Failure? ==> b == a.(outcome := Failed(event.message))) &&
    (!event.Terminal? ==> b.finish == a.finish && b.usage == a.usage && b.model == a.model)
  }

  lemma {:induction false} ReceiveTerminal(env: Env, st: State, a: Answer<Usage>, event: Event)
    requires event.Terminal? && a.outcome == Open
    ensures var b := ReceiveAll(a, Step(env, st, event).1);
            b.Some? && Moves(env, st, a, event, b.value)
  {
    var finish: seq<ChatFrame> := [Chunk(NoDelta, Some(FinishReason(st, event.incomplete, event.response)))];
    var usage := UsageFrames(env, st, event.response);
    ReceiveAppend(a, finish + usage, [Done]);
    ReceiveAppend(a, finish, usage);
    assert a.content + "" == a.content;
  }

  lemma {:induction false} ReceiveFragment(st: State, a: Answer<Usage>, index: nat, fragment: string)
    requires Matches(st, a) && !Silent(st) && index < st.toolCount
    ensures var b := ReceiveAll(a, [Chunk(Fragment(index, fragment), None)]);
            b.Some? &&
            b.value == a.(calls := a.calls[index := a.calls[index].(arguments := Sent(st, index) + fragment)]) &&
            Matches(st.(argsSentByIndex := st.argsSentByIndex[index := Sent(st, index) + fragment]), b.value)
  {
    ReceiveOne(a, Chunk(Fragment(index, fragment), None));
  }

  /**
    * A completing argument event either completes the string exactly, by the missing suffix, or
    * changes nothing and emits nothing: the latter just when it does not properly extend what was sent.
    */
  lemma {:induction false} DoneCompletesOrKeeps(st: State, index: nat, full: string)
    ensures var (next, out) := SuffixOf(st, index, full);
            if Sent(st, index) < full then
              exists suffix :: out == [Chunk(Fragment(index, suffix), None)] && Sent(st, index) + suffix == full &&
                next == st.(argsSentByIndex := st.argsSentByIndex[index := full])
            else next == st && out == []
  {
    var sent := Sent(st, index);
    if sent < full {
      var suffix := full[|sent|..];
      assert sent + suffix == full;
      assert SuffixOf(st, index, full).1 == [Chunk(Fragment(index, suffix), None)];
    }
  }

  /** A step keeps the books, and moves the client's answer as its event says. */
  ghost predicate Keeps(env: Env, st: State, a: Answer<Usage>, event: Event, next: State, out: seq<ChatFrame>) {
    var b := ReceiveAll(a, out);
    b.Some? && Matches(next, b.value) && Moves(env, st, a, event, b.value)
  }

  lemma {:induction false} StepMatches(env: Env, st: State, a: Answer<Usage>, event: Event)
    requires Matches(st, a) && !Silent(st)
    ensures var (next, out) := Step(env, st, event);
            Keeps(env, st, a, event, next, out)
  {
    match event {
      case Terminal(_, _) => EndMatches(env, st, a, event);
      case ArgsDelta(itemId, outputIndex, delta) =>
        GrowMatches(env, st, a, event, Lookup(st.toolIndexByItem, itemId, outputIndex), delta);
      case ArgsDone(itemId, outputIndex, full) =>
        CompleteMatches(env, st, a, event, Lookup(st.toolIndexByItem, itemId, outputIndex), full);
      case ItemDone(key, full) => CompleteMatches(env, st, a, event, GetKey(st.toolIndexByItem, key), full);
      case _ => PlainMatches(env, st, a, event);
    }
  }

  predicate IsPlain(event: Event) {
    event.Added? || event.Failure? || event.TextDelta? || event.Created? || event.Ignored?
  }

  lemma {:induction false} PlainMatches(env: Env, st: State, a: Answer<Usage>, event: Event)
    requires Matches(st, a) && !Silent(st) && IsPlain(event)
    ensures var (next, out) := Step(env, st, event);
            Keeps(env, st, a, event, next, out)
  {
    ConcatNothing(a.content);
    var out := Step(env, st, event).1;
    if out != [] { ReceiveOne(a, out[0]); }
  }

  lemma {:induction false} EndMatches(env: Env, st: State, a: Answer<Usage>, event: Event)
    requires Matches(st, a) && !Silent(st) && event.Terminal?
    ensures var (next, out) := Step(env, st, event);
            Keeps(env, st, a, event, next, out)
  {
    ReceiveTerminal(env, st, a, event);
  }

  lemma {:induction false} GrowMatches(env: Env, st: State, a: Answer<Usage>, event: Event, index: Option<nat>,
      delta: string)
    requires Matches(st, a) && !Silent(st) && event.ArgsDelta? && (index.Some? ==> index.value < st.toolCount)
    ensures var (next, out) := Grow(st, index, delta);
            Keeps(env, st, a, event, next, out)
  {
    ConcatNothing(a.content);
    if index.Some? { ReceiveFragment(st, a, index.value, delta); }
  }

  lemma {:induction false} CompleteMatches(env: Env, st: State, a: Answer<Usage>, event: Event, index: Option<nat>,
      full: string)
    requires Matches(st, a) && !Silent(st) && (event.ArgsDone? || event.ItemDone?)
    requires index.Some? ==> index.value < st.toolCount
    ensures var (next, out) := Complete(st, index, full);
            Keeps(env, st, a, event, next, out)
  {
    ConcatNothing(a.content);
    if index.Some? { SuffixMatches(st, a, index.value, full); }
  }

  lemma {:induction false} SuffixMatches(st: State, a: Answer<Usage>, index: nat, full: string)
    requires Matches(st, a) && !Silent(st) && index < st.toolCount
    ensures var (next, out) := SuffixOf(st, index, full);
            var b := ReceiveAll(a, out);
            b.Some? && Matches(next, b.value) && b.value == a.(calls := b.value.calls) &&
            |b.value.calls| == |a.calls| &&
            (forall i :: 0 <= i < |a.calls| ==> b.value.calls[i] == a.calls[i].(arguments := Sent(next, i)))
  {
    DoneCompletesOrKeeps(st, index, full);
    var sent := Sent(st, index);
    if sent < full {
      ReceiveFragment(st, a, index, full[|sent|..]);
      assert sent + full[|sent|..] == full;
    }
  }

  lemma {:induction false} RunMatches(env: Env, st: State, a: Answer<Usage>, payloads: seq<string>)
    requires Matches(st, a)
    ensures var (last, out) := Run(Translator(env), st, payloads);
            var b := ReceiveAll(a, out);
            b.Some? && Matches(last, b.value)
    decreases |payloads|
  {
    if payloads != [] && !Silent(st) {
      var event := EventOf(env.js, payloads[0]);
      StepMatches(env, st, a, event);
      var (next, out) := Step(env, st, event);
      var b := ReceiveAll(a, out).value;
      RunMatches(env, next, b, payloads[1..]);
      ReceiveAppend(a, out, Run(Translator(env), next, payloads[1..]).1);
    }
  }

  /**
    * In every reachable state: the client can read what it was sent (indices dense from zero, each
    * announced before its first fragment, nothing behind an ending), and the fragments sent for each
    * index concatenate to exactly what the translator recorded as sent.
    */
  lemma {:induction false} ArgumentsConserved(env: Env, decoder: Decoder, chunks: seq<seq<Byte>>)
    ensures var (st, out) := FeedAll(Translator(env), decoder, Start(), chunks);
            var a := ReceiveAll(Nothing(), out);
            a.Some? && Matches(st.core.inner, a.value)
  {
    var h := Translator(env);
    FeedAllIsFeed(h, decoder, Start(), chunks);
    var text := Decode(decoder, 0, Concat(chunks)).1;
    ConcatNothing(text);
    PumpIsRun(h, Core([], INITIAL), text);
    RunMatches(env, INITIAL, Nothing(), Payloads(text, []));
  }

  // ---------------------------------------------------------------- what a stream means

  /** What was sent for call `i` once the call at `index`, if any, got more. */
  lemma {:induction false} GrowSent(st: State, index: Option<nat>, delta: string, i: nat)
    ensures Sent(Grow(st, index, delta).0, i) == if index == Some(i) then Sent(st, i) + delta else Sent(st, i)
  {
  }

  lemma {:induction false} CompleteSent(st: State, index: Option<nat>, full: string, i: nat)
    ensures Sent(Complete(st, index, full).0, i) ==
            if index == Some(i) && Sent(st, i) < full then full else Sent(st, i)
  {
    if index.Some? { DoneCompletesOrKeeps(st, index.value, full); }
  }

  predicate IsArgs(event: Event) {
    event.ArgsDelta? || event.ArgsDone? || event.ItemDone?
  }

  lemma {:induction false} NothingSent(env: Env, st: State, event: Event)
    requires !IsArgs(event)
    ensures Step(env, st, event).0.argsSentByIndex == st.argsSentByIndex
  {
  }

  /** Only an announcement touches the index of calls, and only an opening event the model. */
  lemma {:induction false} BooksAfter(env: Env, st: State, event: Event)
    ensures var next := Step(env, st, event).0;
            if event.Added? then
              next.toolIndexByItem == SetKey(st.toolIndexByItem, event.key, st.toolCount) &&
              next.toolCount == st.toolCount + 1
            else next.toolIndexByItem == st.toolIndexByItem && next.toolCount == st.toolCount
  {
  }

  lemma {:induction false} WireAfter(env: Env, st: State, event: Event)
    ensures Step(env, st, event).0.wireModel == if event.Created? && event.model.Some? then event.model else st.wireModel
  {
  }

  /** The call each identity stands for is the one the events give. */
  ghost predicate Owns(m: map<Json, nat>, past: seq<Json>) {
    forall key :: GetKey(m, key) == Owner(past, key)
  }

  /** The translator and the client hold what the events so far said. */
  ghost predicate Knows(js: Builtins, past: seq<Json>, st: State, a: Answer<Usage>) {
    a.content == AllSaid(past) && st.toolCount == |Keys(past)| && SameHeads(Starts(js, past), a.calls) &&
    Owns(st.toolIndexByItem, past) && st.wireModel == Echo(past) &&
    a.finish.None? && a.usage.None? && a.model.None? &&
    forall i: nat :: Sent(st, i) == ArgumentsIn(past, i)
  }

  lemma {:induction false} AboutIsLookup(m: map<Json, nat>, past: seq<Json>, e: Json)
    requires Owns(m, past)
    ensures IsFragment(e) || ArgumentsAreDone(e) ==> About(past, e) == Lookup(m, Get(e, "item_id"), Get(e, "output_index"))
    ensures ItemIsDone(e) ==> About(past, e) == GetKey(m, Identity(e))
  {
    assert GetKey(m, Get(e, "item_id")) == Owner(past, Get(e, "item_id"));
    assert GetKey(m, Get(e, "output_index")) == Owner(past, Get(e, "output_index"));
    assert GetKey(m, Identity(e)) == Owner(past, Identity(e));
  }

  lemma {:induction false} SentStep(env: Env, past: seq<Json>, st: State, e: Json, i: nat)
    requires Owns(st.toolIndexByItem, past) && Sent(st, i) == ArgumentsIn(past, i)
    ensures Sent(Step(env, st, Classify(env.js, e)).0, i) == ArgumentsIn(past + [e], i)
  {
    var event := Classify(env.js, e);
    ReadsFragment(env.js, e);
    ReadsWhole(env.js, e);
    AboutIsLookup(st.toolIndexByItem, past, e);
    ArgumentsSnoc(past, e, i);
    SentBy(env, st, event, About(past, e), e, i);
  }

  lemma {:induction false} SentBy(env: Env, st: State, event: Event, about: Option<nat>, e: Json, i: nat)
    requires event.ArgsDelta? <==> IsFragment(e)
    requires event.ArgsDone? || event.ItemDone? <==> IsWhole(e)
    requires !IsArgs(event) ==> about.None?
    requires event.ArgsDelta? ==>
      event.delta == Get(e, "delta").s && about == Lookup(st.toolIndexByItem, event.itemId, event.outputIndex)
    requires event.ArgsDone? ==>
      event.full == WholeOf(e) && about == Lookup(st.toolIndexByItem, event.itemId, event.outputIndex)
    requires event.ItemDone? ==> event.full == WholeOf(e) && about == GetKey(st.toolIndexByItem, event.key)
    ensures Sent(Step(env, st, event).0, i) == if about == Some(i) then More(Sent(st, i), e) else Sent(st, i)
  {
    match event {
      case ArgsDelta(_, _, delta) => GrowSent(st, about, delta, i);
      case ArgsDone(_, _, full) => CompleteSent(st, about, full, i);
      case ItemDone(_, full) => CompleteSent(st, about, full, i);
      case _ => NothingSent(env, st, event);
    }
  }

  lemma {:induction false} OwnsStep(env: Env, past: seq<Json>, st: State, e: Json)
    requires Owns(st.toolIndexByItem, past) && st.toolCount == |Keys(past)|
    ensures var next := Step(env, st, Classify(env.js, e)).0;
            Owns(next.toolIndexByItem, past + [e]) && next.toolCount == |Keys(past + [e])|
  {
    var event := Classify(env.js, e);
    ReadsStart(env.js, e);
    BooksAfter(env, st, event);
    KeysSnoc(past, e);
    OwnsAfter(st.toolIndexByItem, past, e, Step(env, st, event).0.toolIndexByItem);
  }

  lemma {:induction false} OwnsAfter(m: map<Json, nat>, past: seq<Json>, e: Json, after: map<Json, nat>)
    requires Owns(m, past) && after == if Announces(e) then SetKey(m, Identity(e), |Keys(past)|) else m
    ensures Owns(after, past + [e])
  {
    forall key ensures GetKey(after, key) == Owner(past + [e], key) {
      OwnerSnoc(past, e, key);
      assert GetKey(m, key) == Owner(past, key);
    }
  }

  lemma {:induction false} HeadsStep(js: Builtins, past: seq<Json>, a: seq<Call>, e: Json, b: seq<Call>)
    requires SameHeads(Starts(js, past), a)
    requires if Announces(e) then b == a + [HeadOf(js, Get(e, "item"))] else SameHeads(a, b)
    ensures SameHeads(Starts(js, past + [e]), b)
  {
    StartsSnoc(js, past, e);
    ConcatNothing(Starts(js, past));
  }

  lemma {:induction false} KnowsStep(env: Env, past: seq<Json>, st: State, a: Answer<Usage>, e: Json)
    returns (next: State, out: seq<ChatFrame>, b: Answer<Usage>)
    requires Matches(st, a) && !Silent(st) && Knows(env.js, past, st, a) && !Ends(e)
    ensures (next, out) == Step(env, st, Classify(env.js, e)) && ReceiveAll(a, out) == Some(b)
    ensures Matches(next, b) && !Silent(next) && Knows(env.js, past + [e], next, b)
  {
    var event := Classify(env.js, e);
    next, out, b := StepAnswer(env, st, a, e, event);
    ReadsText(env.js, e);
    ReadsStart(env.js, e);
    ReadsModel(env.js, e, st.wireModel);
    WireAfter(env, st, event);
    SaidSnoc(past, e);
    ConcatNothing(a.content);
    OwnsStep(env, past, st, e);
    HeadsStep(env.js, past, a.calls, e, b.calls);
    forall i: nat ensures Sent(next, i) == ArgumentsIn(past + [e], i) {
      SentStep(env, past, st, e, i);
    }
  }

  lemma {:induction false} StepAnswer(env: Env, st: State, a: Answer<Usage>, e: Json, event: Event)
    returns (next: State, out: seq<ChatFrame>, b: Answer<Usage>)
    requires Matches(st, a) && !Silent(st) && !Ends(e) && event == Classify(env.js, e)
    ensures (next, out) == Step(env, st, event) && ReceiveAll(a, out) == Some(b)
    ensures Matches(next, b) && !Silent(next) && Moves(env, st, a, event, b)
    ensures !event.Terminal? && !event.Failure?
  {
    ReadsEnd(env.js, e);
    StepMatches(env, st, a, event);
    var step := Step(env, st, event);
    next, out := step.0, step.1;
    b := ReceiveAll(a, out).value;
  }

  // ---------------------------------------------------------------- up to the ending

  /** What a payload holds; nothing for the `[DONE]` that may stand in the stream. */
  function FrameOf(js: Builtins, data: string): Json {
    if data == "[DONE]" || js.parse(data).None? then Undefined else js.parse(data).value
  }

  function FramesOf(js: Builtins, payloads: seq<string>): (frames: seq<Json>)
    ensures |frames| == |payloads|
  {
    if payloads == [] then [] else [FrameOf(js, payloads[0])] + FramesOf(js, payloads[1..])
  }

  predicate Broken(js: Builtins, data: string) {
    data != "[DONE]" && js.parse(data).None?
  }

  /** A payload that ends the stream: no JSON, or an event that ends it. */
  predicate Stops(js: Builtins, data: string) {
    Broken(js, data) || Ends(FrameOf(js, data))
  }

  /** The payloads before this one end nothing, and this one, if there is one, does. */
  ghost predicate StopsAt(js: Builtins, payloads: seq<string>, k: nat) {
    k <= |payloads| && (forall j :: 0 <= j < k ==> !Stops(js, payloads[j])) && (k < |payloads| ==> Stops(js, payloads[k]))
  }

  /** Every stream has one such place, its end if nothing ends it. */
  lemma {:induction false} SomewhereStops(js: Builtins, payloads: seq<string>) returns (k: nat)
    ensures StopsAt(js, payloads, k)
    ensures forall other: nat :: StopsAt(js, payloads, other) ==> other == k
  {
    k := 0;
    while k < |payloads| && !Stops(js, payloads[k])
      invariant k <= |payloads| && forall j :: 0 <= j < k ==> !Stops(js, payloads[j])
    {
      k := k + 1;
    }
  }

  /** The text said and the calls made, each with the id and name it was announced with and its arguments. */
  ghost predicate Heard(js: Builtins, frames: seq<Json>, a: Answer<Usage>) {
    a.content == AllSaid(frames) && |a.calls| == |Starts(js, frames)| &&
    forall i :: 0 <= i < |a.calls| ==> a.calls[i] == Starts(js, frames)[i].(arguments := ArgumentsIn(frames, i))
  }

  /** How the stream came to an end: by completing, by a failure, or by being cut off. */
  ghost predicate Ended(env: Env, frames: seq<Json>, payloads: seq<string>, a: Answer<Usage>) {
    if payloads == [] then a.outcome == Failed("bedrock stream ended unexpectedly") && a.finish.None? && a.usage.None?
    else if Broken(env.js, payloads[0]) then
      a.outcome == Failed("bedrock stream frame was not JSON") && a.finish.None? && a.usage.None?
    else
      var e := FrameOf(env.js, payloads[0]);
      if !Completes(e) then a.outcome == Failed(FailureText(env.js, e)) && a.finish.None? && a.usage.None?
      else a.outcome == Completed && a.finish == Some(Reason(frames, e)) && Reports(env, Echo(frames), ResponseIn(e), a)
  }

  /** The usage frame comes just when the response reports usage: with its counts, and with the model it names. */
  ghost predicate Reports(env: Env, wire: Option<string>, response: Json, a: Answer<Usage>) {
    if Truthy(Get(response, "usage")) then
      a.usage.Some? && UsageSays(env.js, Get(response, "usage"), a.usage.value) &&
      a.model == Some(match Get(response, "model") case Str(name) => name case _ => if wire.Some? then wire.value else env.model)
    else a.usage.None? && a.model.None?
  }

  lemma {:induction false} HeardFromBooks(js: Builtins, past: seq<Json>, st: State, a: Answer<Usage>)
    requires Matches(st, a) && Knows(js, past, st, a)
    ensures Heard(js, past, a)
  {
    forall i | 0 <= i < |a.calls|
      ensures a.calls[i] == Starts(js, past)[i].(arguments := ArgumentsIn(past, i))
    {
      assert Starts(js, past)[i].id == a.calls[i].id;
      assert Sent(st, i) == ArgumentsIn(past, i);
    }
  }

  /** The ending itself: the finish chunk, the usage and `[DONE]`; or one error. */
  lemma {:induction false} EndStep(env: Env, past: seq<Json>, st: State, a: Answer<Usage>, payloads: seq<string>)
    returns (last: State, out: seq<ChatFrame>, b: Answer<Usage>)
    requires Matches(st, a) && !Silent(st) && Knows(env.js, past, st, a) && payloads != [] && Stops(env.js, payloads[0])
    ensures (last, out) == Step(env, st, EventOf(env.js, payloads[0])) && ReceiveAll(a, out) == Some(b) && Silent(last)
    ensures Heard(env.js, past, b) && Ended(env, past, payloads, b)
  {
    var event, e := EventOf(env.js, payloads[0]), FrameOf(env.js, payloads[0]);
    HeardFromBooks(env.js, past, st, a);
    StepMatches(env, st, a, event);
    var step := Step(env, st, event);
    last, out := step.0, step.1;
    b := ReceiveAll(a, out).value;
    if !Broken(env.js, payloads[0]) {
      ReadsEnd(env.js, e);
      if Completes(e) { CompletedAs(env, past, st, a, e, event, b); }
    }
  }

  lemma {:induction false} CompletedAs(env: Env, past: seq<Json>, st: State, a: Answer<Usage>, e: Json, event: Event,
      b: Answer<Usage>)
    requires Matches(st, a) && Knows(env.js, past, st, a) && Moves(env, st, a, event, b)
    requires Completes(e) && event == Terminal(Is(e, "response.incomplete"), ResponseIn(e))
    ensures b.content == a.content && b.finish == Some(Reason(past, e)) && Reports(env, Echo(past), ResponseIn(e), b)
  {
    ConcatNothing(a.content);
    FirstOfTwo(Get(e, "response"), Obj(map[]));
    UsageIsSaid(env.js, Get(ResponseIn(e), "usage"));
  }

  lemma {:induction false} RunMeans(env: Env, past: seq<Json>, st: State, a: Answer<Usage>, payloads: seq<string>, k: nat)
    returns (b: Answer<Usage>)
    requires Matches(st, a) && !Silent(st) && Knows(env.js, past, st, a) && StopsAt(env.js, payloads, k)
    ensures var h := Translator(env);
            var (last, out) := Run(h, st, payloads);
            ReceiveAll(a, out + Finish(h, last).1) == Some(b)
    ensures var frames := past + FramesOf(env.js, payloads[..k]);
            Heard(env.js, frames, b) && Ended(env, frames, payloads[k..], b)
    decreases k
  {
    if k == 0 {
      ConcatNothing(past);
      b := RunStops(env, past, st, a, payloads);
    } else {
      var e, rest := FrameOf(env.js, payloads[0]), payloads[1..];
      StopsLater(env.js, payloads, k);
      var next, out, mid := KnowsStep(env, past, st, a, e);
      b := RunMeans(env, past + [e], next, mid, rest, k - 1);
      RunTurn(env, st, a, payloads, e, next, out, mid);
      FramesTurn(env.js, past, payloads, k, e);
    }
  }

  lemma {:induction false} StopsLater(js: Builtins, payloads: seq<string>, k: nat)
    requires StopsAt(js, payloads, k) && k > 0
    ensures payloads != [] && !Stops(js, payloads[0]) && StopsAt(js, payloads[1..], k - 1)
  {
    assert forall j :: 0 <= j < k - 1 ==> payloads[1..][j] == payloads[j + 1];
  }

  lemma {:induction false} FramesTurn(js: Builtins, past: seq<Json>, payloads: seq<string>, k: nat, e: Json)
    requires 0 < k <= |payloads| && e == FrameOf(js, payloads[0])
    ensures past + FramesOf(js, payloads[..k]) == past + [e] + FramesOf(js, payloads[1..][..k - 1])
    ensures payloads[k..] == payloads[1..][k - 1..]
  {
    assert payloads[..k][1..] == payloads[1..][..k - 1];
    Assoc(past, [e], FramesOf(js, payloads[1..][..k - 1]));
  }

  lemma {:induction false} RunTurn(env: Env, st: State, a: Answer<Usage>, payloads: seq<string>, e: Json, next: State,
      out: seq<ChatFrame>, mid: Answer<Usage>)
    requires payloads != [] && !Silent(st) && !Stops(env.js, payloads[0]) && e == FrameOf(env.js, payloads[0])
    requires (next, out) == Step(env, st, Classify(env.js, e)) && ReceiveAll(a, out) == Some(mid)
    ensures var h := Translator(env);
            var (last, all) := Run(h, st, payloads);
            var (end, more) := Run(h, next, payloads[1..]);
            ReceiveAll(a, all + Finish(h, last).1) == ReceiveAll(mid, more + Finish(h, end).1)
  {
    var h := Translator(env);
    var (end, more) := Run(h, next, payloads[1..]);
    DoneIsNothing(env.js, payloads[0]);
    Assoc(out, more, Finish(h, end).1);
    ReceiveAppend(a, out, more + Finish(h, end).1);
  }

  lemma {:induction false} DoneIsNothing(js: Builtins, data: string)
    requires !Broken(js, data)
    ensures EventOf(js, data) == Classify(js, FrameOf(js, data))
  {
  }

  lemma {:induction false} RunStops(env: Env, past: seq<Json>, st: State, a: Answer<Usage>, payloads: seq<string>)
    returns (b: Answer<Usage>)
    requires Matches(st, a) && !Silent(st) && Knows(env.js, past, st, a) && (payloads != [] ==> Stops(env.js, payloads[0]))
    ensures var h := Translator(env);
            var (last, out) := Run(h, st, payloads);
            ReceiveAll(a, out + Finish(h, last).1) == Some(b)
    ensures Heard(env.js, past, b) && Ended(env, past, payloads, b)
  {
    var h := Translator(env);
    if payloads == [] {
      HeardFromBooks(env.js, past, st, a);
      b := a.(outcome := Failed("bedrock stream ended unexpectedly"));
      var cut: ChatFrame := Error("bedrock stream ended unexpectedly");
      ReceiveOne(a, cut);
      ConcatNothing([cut]);
    } else {
      var last, out;
      last, out, b := EndStep(env, past, st, a, payloads);
      var (end, more) := Run(h, last, payloads[1..]);
      ConcatNothing(out);
    }
  }

  /**
    * What a Responses stream means, by the members of its JSON, for every stream and every split of its bytes.
    * Up to the payload that ends it, the client holds the text of its text deltas, and each call announced,
    * with its id and name and the arguments its fragments and full strings come to; the ending is what that
    * payload says, and an error where there is none.
    */
  lemma {:induction false} StreamMeans(env: Env, decoder: Decoder, chunks: seq<seq<Byte>>, payloads: seq<string>)
    returns (k: nat, a: Answer<Usage>)
    requires payloads == Payloads(Decode(decoder, 0, Concat(chunks)).1, [])
    ensures StopsAt(env.js, payloads, k)
    ensures ReceiveAll(Nothing(), Transcript(Translator(env), decoder, Start(), chunks)) == Some(a)
    ensures var frames := FramesOf(env.js, payloads[..k]);
            Heard(env.js, frames, a) && Ended(env, frames, payloads[k..], a)
  {
    k := SomewhereStops(env.js, payloads);
    TranscriptIsRun(Translator(env), decoder, Start(), chunks);
    a := RunMeans(env, [], INITIAL, Nothing(), payloads, k);
    ConcatNothing(FramesOf(env.js, payloads[..k]));
  }

  // ---------------------------------------------------------------- delivering a Responses object

  /** Where a key stands, or the length when it is not there. */
  function Position(keys: seq<Json>, key: Json): (i: nat)
    ensures i <= |keys|
    ensures i < |keys| ==> keys[i] == key
    ensures forall k :: 0 <= k < i ==> keys[k] != key
  {
    if keys == [] || keys[0] == key then 0 else
      var rest := Position(keys[1..], key);
      assert forall k :: 1 <= k < rest + 1 ==> keys[k] == keys[1..][k - 1];
      rest + 1
  }

  function At(keys: seq<Json>, key: Json): Option<nat> {
    if Position(keys, key) < |keys| then Some(Position(keys, key)) else None
  }

  /** The call an event is about, where calls go by these identities: its item's first, its place otherwise. */
  function Target(keys: seq<Json>, e: Json): Option<nat> {
    if ItemIsDone(e) then At(keys, Identity(e))
    else if !IsFragment(e) && !ArgumentsAreDone(e) then None
    else if At(keys, Get(e, "item_id")).Some? then At(keys, Get(e, "item_id"))
    else At(keys, Get(e, "output_index"))
  }

  /**
    * The events about call `i` deliver `whole`, `sent` of it already being there: the fragments spell a
    * prefix of it in any number of pieces, full strings are all of it and come last, and if none comes the
    * fragments have spelt it to the end.
    */
  ghost predicate Spells(keys: seq<Json>, i: nat, sent: string, whole: string, frames: seq<Json>)
    decreases |frames|
  {
    if frames == [] then sent == whole
    else if Target(keys, frames[0]) != Some(i) then Spells(keys, i, sent, whole, frames[1..])
    else if IsFragment(frames[0]) then
      var more := sent + Get(frames[0], "delta").s;
      more <= whole && Spells(keys, i, more, whole, frames[1..])
    else WholeOf(frames[0]) == whole && OnlyCompletes(keys, i, whole, frames[1..])
  }

  ghost predicate OnlyCompletes(keys: seq<Json>, i: nat, whole: string, frames: seq<Json>) {
    forall k :: 0 <= k < |frames| && Target(keys, frames[k]) == Some(i) ==>
      !IsFragment(frames[k]) && WholeOf(frames[k]) == whole
  }

  /** No event is about a call not announced yet (`known` are already). */
  ghost predicate InOrder(keys: seq<Json>, known: nat, frames: seq<Json>)
    decreases |frames|
  {
    if frames == [] then true
    else (Target(keys, frames[0]).Some? ==> Target(keys, frames[0]).value < known) &&
         InOrder(keys, if Announces(frames[0]) then known + 1 else known, frames[1..])
  }

  ghost predicate Distinct(keys: seq<Json>) {
    (forall i :: 0 <= i < |keys| ==> !keys[i].Arr? && !keys[i].Obj?) &&
    (forall i, j :: 0 <= i < j < |keys| ==> keys[i] != keys[j])
  }

  /** The last event, and only it, ends the stream, with the response itself. */
  ghost predicate EndsWith(frames: seq<Json>, response: Json) {
    frames != [] && ResponseIn(frames[|frames| - 1]) == response &&
    Is(frames[|frames| - 1],
       if Get(response, "status") == Str("incomplete") then "response.incomplete" else "response.completed") &&
    forall k :: 0 <= k < |frames| - 1 ==> !Ends(frames[k])
  }

  /**
    * The events deliver the response: its text cut into deltas anywhere, its calls announced in order under
    * distinct identities, each call's arguments spelt out as above, events of different calls and text
    * interleaved at will, and one terminal event carrying the response itself.
    */
  ghost predicate Delivers(js: Builtins, frames: seq<Json>, response: Json) {
    var items, keys := ToolItems(Items(response)), Keys(frames);
    EndsWith(frames, response) && AllSaid(frames) == TextIn(response) &&
    Distinct(keys) && InOrder(keys, 0, frames) && |keys| == |items| &&
    (forall i :: 0 <= i < |items| ==> Starts(js, frames)[i] == HeadOf(js, items[i])) &&
    forall i :: 0 <= i < |items| ==> Spells(keys, i, "", StringOrEmpty(Get(items[i], "arguments")), frames)
  }

  lemma {:induction false} KeysGrow(a: seq<Json>, b: seq<Json>)
    ensures Keys(a) <= Keys(a + b)
    decreases |b|
  {
    if b == [] {
      ConcatNothing(a);
    } else {
      var front, last := b[..|b| - 1], b[|b| - 1];
      KeysGrow(a, front);
      KeysSnoc(a + front, last);
      assert a + b == a + front + [last];
    }
  }

  /** Under distinct identities the last announced under one is the one announced under it. */
  lemma {:induction false} OwnerIsAt(past: seq<Json>, keys: seq<Json>, key: Json)
    requires Keys(past) <= keys && Distinct(keys)
    ensures Owner(past, key) == if Position(keys, key) < |Keys(past)| then Some(Position(keys, key)) else None
    decreases |past|
  {
    if past != [] {
      var front, last := past[..|past| - 1], past[|past| - 1];
      OwnerIsAt(front, keys, key);
      var n := |Keys(front)|;
      if Announces(last) {
        assert keys[n] == Identity(last);
        assert keys[n] == key ==> Position(keys, key) == n;
      }
    }
  }

  lemma {:induction false} AboutIsTarget(past: seq<Json>, keys: seq<Json>, e: Json)
    requires Keys(past) <= keys && Distinct(keys) && (Target(keys, e).Some? ==> Target(keys, e).value < |Keys(past)|)
    ensures About(past, e) == Target(keys, e)
  {
    OwnerIsAt(past, keys, Identity(e));
    OwnerIsAt(past, keys, Get(e, "item_id"));
    OwnerIsAt(past, keys, Get(e, "output_index"));
  }

  lemma {:induction false} CompletedSpells(keys: seq<Json>, i: nat, whole: string, frames: seq<Json>)
    requires OnlyCompletes(keys, i, whole, frames)
    ensures Spells(keys, i, whole, whole, frames)
    decreases |frames|
  {
    if frames != [] {
      forall k | 0 <= k < |frames[1..]| && Target(keys, frames[1..][k]) == Some(i)
        ensures !IsFragment(frames[1..][k]) && WholeOf(frames[1..][k]) == whole
      {
        assert frames[1..][k] == frames[k + 1];
      }
      assert Target(keys, frames[0]) == Some(i) ==> !IsFragment(frames[0]) && WholeOf(frames[0]) == whole;
      CompletedSpells(keys, i, whole, frames[1..]);
    }
  }

  /** One event brings what was sent closer to the whole, and the rest still spells what is missing. */
  lemma {:induction false} SpellsStep(keys: seq<Json>, i: nat, sent: string, whole: string, frames: seq<Json>)
    requires frames != [] && sent <= whole && Spells(keys, i, sent, whole, frames)
    ensures var more := if Target(keys, frames[0]) == Some(i) then More(sent, frames[0]) else sent;
            more <= whole && Spells(keys, i, more, whole, frames[1..])
  {
    if Target(keys, frames[0]) == Some(i) && !IsFragment(frames[0]) {
      assert sent < whole || sent == whole;
      CompletedSpells(keys, i, whole, frames[1..]);
    }
  }

  /** What is spelt is what is heard. */
  lemma {:induction false} SpeltOut(keys: seq<Json>, i: nat, past: seq<Json>, rest: seq<Json>, whole: string)
    requires Keys(past + rest) == keys && Distinct(keys) && InOrder(keys, |Keys(past)|, rest)
    requires ArgumentsIn(past, i) <= whole && Spells(keys, i, ArgumentsIn(past, i), whole, rest)
    ensures ArgumentsIn(past + rest, i) == whole
    decreases |rest|
  {
    if rest == [] {
      ConcatNothing(past);
    } else {
      SpeltMore(keys, i, past, rest, whole);
      var e, later := rest[0], rest[1..];
      assert rest == [e] + later;
      Assoc(past, [e], later);
      SpeltOut(keys, i, past + [e], later, whole);
    }
  }

  lemma {:induction false} SpeltMore(keys: seq<Json>, i: nat, past: seq<Json>, rest: seq<Json>, whole: string)
    requires rest != [] && Keys(past + rest) == keys && Distinct(keys) && InOrder(keys, |Keys(past)|, rest)
    requires ArgumentsIn(past, i) <= whole && Spells(keys, i, ArgumentsIn(past, i), whole, rest)
    ensures var sent := ArgumentsIn(past + [rest[0]], i);
            InOrder(keys, |Keys(past + [rest[0]])|, rest[1..]) && sent <= whole && Spells(keys, i, sent, whole, rest[1..])
  {
    KeysGrow(past, rest);
    AboutIsTarget(past, keys, rest[0]);
    ArgumentsSnoc(past, rest[0], i);
    KeysSnoc(past, rest[0]);
    SpellsStep(keys, i, ArgumentsIn(past, i), whole, rest);
  }

  // ---------------------------------------------------------------- agreement with the collapsed form

  /** The streamed answer is the collapsed completion. */
  predicate SameAnswer(a: Answer<Usage>, c: Completion) {
    c.Completion? &&
    c.content == (if a.content == "" then None else Some(a.content)) &&
    c.toolCalls == a.calls &&
    c.refusal == "" &&
    a.finish == Some(c.finish)
  }

  /** What a caller can read off the response: no refusal text, no content filter, every name a string or absent. */
  predicate Streamable(response: Json) {
    RefusalIn(response) == "" &&
    !CutFor(response, "content_filter") &&
    forall i :: 0 <= i < |ToolItems(Items(response))| ==>
      var name := Get(ToolItems(Items(response))[i], "name");
      name.Str? || Nullish(name)
  }

  /**
    * What a caller can read off the delivery: both forms name one model, because the response names it, or
    * because none is announced but the one asked for.
    */
  predicate OneModel(env: Env, frames: seq<Json>, response: Json) {
    var model := Get(response, "model");
    if model.Str? then model.s != "" || env.model == ""
    else Echo(frames).None? || Echo(frames).value == env.model
  }

  /** The streamed answer is the collapsed completion exactly when the response is streamable. */
  ghost predicate AnswerAgrees(env: Env, response: Json, a: Answer<Usage>) {
    var c := Collapse(env, response);
    c.Completion? && (SameAnswer(a, c) <==> Streamable(response))
  }

  ghost predicate UsageAgrees(env: Env, frames: seq<Json>, response: Json, a: Answer<Usage>) {
    var c := Collapse(env, response);
    if Truthy(Get(response, "usage")) then
      c.Completion? && a.usage == Some(c.usage) && a.model.Some? &&
      (a.model == Some(c.model) <==> OneModel(env, frames, response))
    else a.usage == None && a.model == None
  }

  /** What the two forms agree on, for one response delivered by these events. */
  ghost predicate Agreed(env: Env, frames: seq<Json>, response: Json, a: Answer<Usage>) {
    AnswerAgrees(env, response, a) && UsageAgrees(env, frames, response, a)
  }

  /** The payloads carry the events, and then anything at all. */
  ghost predicate Carry(js: Builtins, payloads: seq<string>, frames: seq<Json>) {
    |frames| <= |payloads| &&
    forall k :: 0 <= k < |frames| ==> !Broken(js, payloads[k]) && FrameOf(js, payloads[k]) == frames[k]
  }

  /**
    * Streaming agrees with the collapsed form. For every response that is not a failure, every delivery
    * of it as JSON events, whatever follows it and every split of the bytes, the client folds the stream to
    * one completed answer; that answer is `responsesJsonToChatCompletion` of the response exactly when the
    * response is streamable; and the usage frame comes exactly when the response reports usage, with the
    * same numbers, and with the same model exactly when there is one model to name.
    */
  lemma {:induction false} StreamingAgrees(
      env: Env, decoder: Decoder, chunks: seq<seq<Byte>>, frames: seq<Json>, response: Json)
    requires IsAnswer(response) && Delivers(env.js, frames, response)
    requires Carry(env.js, Payloads(Decode(decoder, 0, Concat(chunks)).1, []), frames)
    ensures var a := ReceiveAll(Nothing(), Transcript(Translator(env), decoder, Start(), chunks));
            a.Some? && a.value.outcome == Completed && Agreed(env, frames, response, a.value)
  {
    var payloads, k := Payloads(Decode(decoder, 0, Concat(chunks)).1, []), |frames| - 1;
    CarriedStops(env.js, payloads, frames, response);
    var stop := SomewhereStops(env.js, payloads);
    var place, a := StreamMeans(env, decoder, chunks, payloads);
    assert place == stop == k;
    FramesCarried(env.js, payloads, frames, k);
    HeardAgrees(env, frames, response, a, payloads[k..]);
  }

  lemma {:induction false} HeardAgrees(env: Env, frames: seq<Json>, response: Json, a: Answer<Usage>,
      payloads: seq<string>)
    requires IsAnswer(response) && Delivers(env.js, frames, response)
    requires payloads != [] && !Broken(env.js, payloads[0]) && FrameOf(env.js, payloads[0]) == frames[|frames| - 1]
    requires Heard(env.js, frames[..|frames| - 1], a) && Ended(env, frames[..|frames| - 1], payloads, a)
    ensures a.outcome == Completed && Agreed(env, frames, response, a)
  {
    var front, last := Parted(frames);
    WholeAgrees(env, frames, front, last, response, payloads, a);
  }

  lemma {:induction false} Parted(frames: seq<Json>) returns (front: seq<Json>, last: Json)
    requires frames != []
    ensures frames == front + [last] && front == frames[..|frames| - 1] && last == frames[|frames| - 1]
  {
    front, last := frames[..|frames| - 1], frames[|frames| - 1];
  }

  lemma {:induction false} WholeAgrees(env: Env, frames: seq<Json>, front: seq<Json>, last: Json, response: Json,
      payloads: seq<string>, a: Answer<Usage>)
    requires IsAnswer(response) && Delivers(env.js, frames, response) && frames == front + [last]
    requires payloads != [] && !Broken(env.js, payloads[0]) && FrameOf(env.js, payloads[0]) == last
    requires Heard(env.js, front, a) && Ended(env, front, payloads, a)
    ensures a.outcome == Completed && Agreed(env, frames, response, a)
  {
    HeardWhole(env, frames, front, last, response, payloads, a);
    AnswersAgree(env, frames, front, last, response, a);
    UsagesAgree(env, frames, response, a);
  }

  lemma {:induction false} CarriedStops(js: Builtins, payloads: seq<string>, frames: seq<Json>, response: Json)
    requires EndsWith(frames, response) && Carry(js, payloads, frames)
    ensures StopsAt(js, payloads, |frames| - 1)
  {
  }

  lemma {:induction false} FramesCarried(js: Builtins, payloads: seq<string>, frames: seq<Json>, k: nat)
    requires Carry(js, payloads, frames) && k <= |frames|
    ensures FramesOf(js, payloads[..k]) == frames[..k]
    decreases k
  {
    if k > 0 {
      FramesCarried(js, payloads[1..], frames[1..], k - 1);
      assert payloads[..k][1..] == payloads[1..][..k - 1] && frames[..k] == [frames[0]] + frames[1..][..k - 1];
    }
  }

  /** The event that ends a stream says nothing else. */
  lemma {:induction false} EndIsQuiet(js: Builtins, front: seq<Json>, last: Json, frames: seq<Json>, a: Answer<Usage>)
    requires Completes(last) && frames == front + [last] && Heard(js, front, a)
    ensures Heard(js, frames, a) && Echo(frames) == Echo(front) && Keys(frames) == Keys(front)
  {
    SaidSnoc(front, last);
    KeysSnoc(front, last);
    StartsSnoc(js, front, last);
    ConcatNothing(AllSaid(front));
    forall i | 0 <= i < |a.calls| ensures a.calls[i] == Starts(js, frames)[i].(arguments := ArgumentsIn(frames, i)) {
      ArgumentsSnoc(front, last, i);
    }
  }

  lemma {:induction false} HeardWhole(env: Env, frames: seq<Json>, front: seq<Json>, last: Json, response: Json,
      payloads: seq<string>, a: Answer<Usage>)
    requires Delivers(env.js, frames, response) && frames == front + [last]
    requires payloads != [] && !Broken(env.js, payloads[0]) && FrameOf(env.js, payloads[0]) == last
    requires Heard(env.js, front, a) && Ended(env, front, payloads, a)
    ensures a.outcome == Completed && Whole(env, frames, front, last, response, a)
  {
    EndedWith(env, frames, front, last, response, payloads, a);
    EndIsQuiet(env.js, front, last, frames, a);
    CallsDelivered(env.js, frames, response, ToolItems(Items(response)), a);
  }

  /** The client holds the whole response, and its ending. */
  ghost predicate Whole(env: Env, frames: seq<Json>, front: seq<Json>, last: Json, response: Json, a: Answer<Usage>) {
    var items := ToolItems(Items(response));
    a.content == TextIn(response) && |Keys(front)| == |items| && AreItems(env.js, items, a.calls) &&
    EndedAs(last, response) && a.finish == Some(Reason(front, last)) && Reports(env, Echo(frames), response, a)
  }

  lemma {:induction false} EndedWith(env: Env, frames: seq<Json>, front: seq<Json>, last: Json, response: Json,
      payloads: seq<string>, a: Answer<Usage>)
    requires payloads != [] && !Broken(env.js, payloads[0]) && FrameOf(env.js, payloads[0]) == last
    requires frames == front + [last] && EndsWith(frames, response) && Ended(env, front, payloads, a)
    ensures a.outcome == Completed && a.finish == Some(Reason(front, last)) && Reports(env, Echo(front), response, a)
    ensures EndedAs(last, response)
  {
    assert frames[|frames| - 1] == last;
  }

  predicate EndedAs(last: Json, response: Json) {
    Completes(last) && ResponseIn(last) == response &&
    (Is(last, "response.incomplete") <==> Get(response, "status") == Str("incomplete"))
  }

  /** Each call is the item's, with its arguments. */
  lemma {:induction false} CallsDelivered(js: Builtins, frames: seq<Json>, response: Json, items: seq<Json>,
      a: Answer<Usage>)
    requires Delivers(js, frames, response) && items == ToolItems(Items(response)) && Heard(js, frames, a)
    ensures a.content == TextIn(response) && |Keys(frames)| == |items|
    ensures AreItems(js, items, a.calls)
  {
    forall i | 0 <= i < |items|
      ensures a.calls[i] == HeadOf(js, items[i]).(arguments := StringOrEmpty(Get(items[i], "arguments")))
    {
      ConcatNothing(frames);
      SpeltOut(Keys(frames), i, [], frames, StringOrEmpty(Get(items[i], "arguments")));
    }
  }

  predicate AreItems(js: Builtins, items: seq<Json>, calls: seq<Call>) {
    |calls| == |items| &&
    forall i :: 0 <= i < |items| ==>
      calls[i] == HeadOf(js, items[i]).(arguments := StringOrEmpty(Get(items[i], "arguments")))
  }

  lemma {:induction false} AnswersAgree(env: Env, frames: seq<Json>, front: seq<Json>, last: Json, response: Json,
      a: Answer<Usage>)
    requires IsAnswer(response) && Whole(env, frames, front, last, response, a)
    ensures AnswerAgrees(env, response, a)
  {
    FailureIs(env.js, response);
    ReadsObject(response);
    SameCalls(env.js, ToolItems(Items(response)), a.calls);
    FinishAgrees(front, last, response);
  }

  /** Both forms give one finish reason, a content filter apart. */
  lemma {:induction false} FinishAgrees(front: seq<Json>, last: Json, response: Json)
    requires EndedAs(last, response) && |Keys(front)| == |ToolItems(Items(response))|
    ensures Reason(front, last) == CollapsedFinish(response) <==> !CutFor(response, "content_filter")
  {
    FinishIs(response);
    FirstOfTwo(Get(last, "response"), Obj(map[]));
    assert "content_filter"[0] != "tool_calls"[0] && "content_filter"[0] != "stop"[0];
  }

  lemma {:induction false} SameCalls(js: Builtins, items: seq<Json>, received: seq<Call>)
    requires AreItems(js, items, received)
    ensures received == CallsOf(js, items) <==>
            forall i :: 0 <= i < |items| ==> var name := Get(items[i], "name"); name.Str? || Nullish(name)
  {
    forall i | 0 <= i < |items|
      ensures received[i] == CallOf(js, items[i]) <==> var name := Get(items[i], "name"); name.Str? || Nullish(name)
    {
      FirstOfThree(Get(items[i], "call_id"), Get(items[i], "id"), Str(""));
      FirstOfTwo(Get(items[i], "name"), Str(""));
    }
  }

  lemma {:induction false} UsagesAgree(env: Env, frames: seq<Json>, response: Json, a: Answer<Usage>)
    requires IsAnswer(response) && Reports(env, Echo(frames), response, a)
    ensures UsageAgrees(env, frames, response, a)
  {
    CollapsedTo(env, response);
    if Truthy(Get(response, "usage")) { UsageIs(env.js, Get(response, "usage"), a.usage.value); }
  }

  lemma {:induction false} UsageIs(js: Builtins, usage: Json, u: Usage)
    requires UsageSays(js, usage, u)
    ensures u == UsageOf(js, usage)
  {
    UsageIsSaid(js, usage);
  }

  lemma {:induction false} CollapsedTo(env: Env, response: Json)
    requires IsAnswer(response)
    ensures var c, model := Collapse(env, response), Get(response, "model");
            c.Completion? && c.model == (if model.Str? && model.s != "" then model.s else env.model) &&
            (Truthy(Get(response, "usage")) ==> c.usage == UsageOf(env.js, Get(response, "usage")))
  {
    FailureIs(env.js, response);
  }
}
