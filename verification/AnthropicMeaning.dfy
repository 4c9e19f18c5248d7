/** What a Messages stream means to the client, by the members of its JSON. */
module AnthropicMeaning {
  import opened Js
  import opened Decoding
  import opened ChatFrames
  import opened SseFraming
  import opened AnthropicStream
  import opened AnthropicWire

  // ---------------------------------------------------------------- one event

  /** The translator's books agree with what the client has been sent. */
  ghost predicate Matches(st: State, a: Answer<Usage>) {
    |a.calls| == st.toolCount &&
    (forall block :: block in st.toolIndexByBlock ==> st.toolIndexByBlock[block] < st.toolCount) &&
    (a.outcome == Open <==> !Silent(st))
  }

  function TextOf(event: Event): string {
    if event.TextDelta? then event.text else ""
  }

  /** The tool calls after one event: one more announced, or one fragment longer, or as they were. */
  function CallsAfter(st: State, calls: seq<Call>, event: Event): seq<Call> {
    if event.ToolStart? then calls + [Call(event.id, event.name, "")]
    else if event.ArgsDelta? && event.block in st.toolIndexByBlock && st.toolIndexByBlock[event.block] < |calls| then
      var i := st.toolIndexByBlock[event.block];
      calls[i := calls[i].(arguments := calls[i].arguments + event.partial)]
    else calls
  }

  lemma {:induction false} StepMatches(env: Env, st: State, a: Answer<Usage>, event: Event)
    requires Matches(st, a) && !Silent(st)
    ensures var (next, out) := Step(env, st, event);
            var b := ReceiveAll(a, out);
            b.Some? && Matches(next, b.value) &&
            b.value.content == a.content + TextOf(event) && b.value.calls == CallsAfter(st, a.calls, event) &&
            (event.MessageStop? ==>
              b.value.outcome == Completed && b.value.usage == Some(st.usage) &&
              b.value.finish == FinishChunk(st).finish && b.value.model == Some(UsageReport(env, st).model)) &&
            (event.Failure? ==> b.value == a.(outcome := Failed(event.message)))
  {
    assert a.content + "" == a.content;
    var (next, out) := Step(env, st, event);
    if event.MessageStop? {
      ReceiveAppend(a, [FinishChunk(st)] + [UsageReport(env, st)], [Done]);
      ReceiveAppend(a, [FinishChunk(st)], [UsageReport(env, st)]);
    } else if out != [] {
      assert out == [out[0]];
      ReceiveOne(a, out[0]);
    }
  }

  lemma {:induction false} StepAnswer(env: Env, st: State, a: Answer<Usage>, event: Event)
    returns (next: State, out: seq<ChatFrame>, b: Answer<Usage>)
    requires Matches(st, a) && !Silent(st)
    ensures (next, out) == Step(env, st, event) && ReceiveAll(a, out) == Some(b)
    ensures Matches(next, b) && b.content == a.content + TextOf(event) && b.calls == CallsAfter(st, a.calls, event)
    ensures Silent(next) <==> event.MessageStop? || event.Failure?
    ensures event.MessageStop? ==>
      b.outcome == Completed && b.usage == Some(st.usage) && b.finish == FinishChunk(st).finish &&
      b.model == Some(UsageReport(env, st).model)
    ensures event.Failure? ==> b == a.(outcome := Failed(event.message))
    ensures !Silent(next) ==> b.finish == a.finish && b.usage == a.usage
  {
    StepMatches(env, st, a, event);
    var step := Step(env, st, event);
    next, out := step.0, step.1;
    b := ReceiveAll(a, out).value;
  }

  // ---------------------------------------------------------------- the calls

  /** Call by call: the id and name it was announced with, and its fragments for arguments. */
  ghost predicate Spelt(js: Builtins, frames: seq<Json>, calls: seq<Call>) {
    |calls| == |Heads(js, frames)| == Count(frames) &&
    forall i :: 0 <= i < |calls| ==> calls[i] == Heads(js, frames)[i].(arguments := FragmentsOf(frames, i))
  }

  /** The translator's map of blocks is the one the events give. */
  ghost predicate Owns(m: map<Json, nat>, frames: seq<Json>) {
    forall block :: Owner(frames, block) == if block in m then Some(m[block]) else None
  }

  lemma {:induction false} OwnsStep(m: map<Json, nat>, past: seq<Json>, e: Json)
    requires Owns(m, past)
    ensures Owns(if Announces(e) then SetKey(m, Get(e, "index"), Count(past)) else m, past + [e])
  {
    forall block
      ensures var next := if Announces(e) then SetKey(m, Get(e, "index"), Count(past)) else m;
              Owner(past + [e], block) == if block in next then Some(next[block]) else None
    {
      OwnerSnoc(past, e, block);
      assert Owner(past, block) == if block in m then Some(m[block]) else None;
      if block.Arr? || block.Obj? { NeverOwned(past, block); }
    }
  }

  lemma {:induction false} NeverOwned(frames: seq<Json>, block: Json)
    requires block.Arr? || block.Obj?
    ensures Owner(frames, block).None?
  {
  }

  /** What of a call one event adds. */
  function Added(m: map<Json, nat>, event: Event, i: nat): string {
    if event.ArgsDelta? && event.block in m && m[event.block] == i then event.partial else ""
  }

  lemma {:induction false} CallAfter(st: State, calls: seq<Call>, event: Event, i: nat)
    requires forall block :: block in st.toolIndexByBlock ==> st.toolIndexByBlock[block] < |calls|
    requires i < |calls|
    ensures |CallsAfter(st, calls, event)| == |calls| + if event.ToolStart? then 1 else 0
    ensures CallsAfter(st, calls, event)[i] ==
            calls[i].(arguments := calls[i].arguments + Added(st.toolIndexByBlock, event, i))
  {
    ConcatNothing(calls[i].arguments);
  }

  /** What call `i` is after one more event, when it was announced before. */
  lemma {:induction false} SpeltCall(js: Builtins, past: seq<Json>, m: map<Json, nat>, calls: seq<Call>, e: Json,
      event: Event, i: nat)
    requires Owns(m, past) && Spelt(js, past, calls) && i < |calls| && event == Classify(js, e)
    ensures i < |Heads(js, past + [e])|
    ensures Heads(js, past + [e])[i].(arguments := FragmentsOf(past + [e], i)) ==
            calls[i].(arguments := calls[i].arguments + Added(m, event, i))
  {
    ReadsCall(js, e);
    HeadsSnoc(js, past, e);
    FragmentsSnoc(past, e, i);
    assert calls[i] == Heads(js, past)[i].(arguments := FragmentsOf(past, i));
    assert Owner(past, Get(e, "index")) == if Get(e, "index") in m then Some(m[Get(e, "index")]) else None;
  }

  lemma {:induction false} SpeltStart(js: Builtins, past: seq<Json>, calls: seq<Call>, e: Json)
    requires Spelt(js, past, calls) && Announces(e)
    ensures |Heads(js, past + [e])| == |calls| + 1
    ensures Heads(js, past + [e])[|calls|].(arguments := FragmentsOf(past + [e], |calls|)) == HeadOf(js, e)
  {
    HeadsSnoc(js, past, e);
    FragmentsSnoc(past, e, |calls|);
    NoFragments(past, |calls|);
  }

  lemma {:induction false} SpeltStep(js: Builtins, past: seq<Json>, st: State, calls: seq<Call>, e: Json, event: Event)
    requires Owns(st.toolIndexByBlock, past) && Spelt(js, past, calls) && event == Classify(js, e)
    requires forall block :: block in st.toolIndexByBlock ==> st.toolIndexByBlock[block] < |calls|
    ensures Spelt(js, past + [e], CallsAfter(st, calls, event))
  {
    ReadsCall(js, e);
    HeadsSnoc(js, past, e);
    if Announces(e) { SpeltStart(js, past, calls, e); }
    var after := CallsAfter(st, calls, event);
    forall i | 0 <= i < |after|
      ensures after[i] == Heads(js, past + [e])[i].(arguments := FragmentsOf(past + [e], i))
    {
      if i < |calls| {
        SpeltCall(js, past, st.toolIndexByBlock, calls, e, event, i);
        CallAfter(st, calls, event, i);
      }
    }
  }

  // ---------------------------------------------------------------- the usage, the finish reason and the model

  lemma {:induction false} UsageStep(js: Builtins, past: seq<Json>, e: Json, u: Usage, v: Usage)
    requires UsageSays(js, past, u)
    requires if Starts(e) then InputSays(js, e, v) && v.output == OutputSet(js, e)
             else v == u.(output := if SetsOutput(e) then OutputSet(js, e) else u.output)
    ensures UsageSays(js, past + [e], v)
  {
    NoneSnoc(past, e, Starts);
    NoneSnoc(past, e, SetsOutput);
    forall k: nat | LastOf(past + [e], Starts, k) ensures InputSays(js, (past + [e])[k], v) {
      LastSnoc(past, e, Starts, k);
    }
    forall k: nat | LastOf(past + [e], SetsOutput, k) ensures v.output == OutputSet(js, (past + [e])[k]) {
      LastSnoc(past, e, SetsOutput, k);
    }
  }

  lemma {:induction false} FinishStep(past: seq<Json>, e: Json, finish: string, next: string)
    requires FinishSays(past, finish)
    requires if SetsStop(e) then StandsFor(Get(Get(e, "delta"), "stop_reason").s, next) else next == finish
    ensures FinishSays(past + [e], next)
  {
    NoneSnoc(past, e, SetsStop);
    forall k: nat | LastOf(past + [e], SetsStop, k)
      ensures StandsFor(Get(Get((past + [e])[k], "delta"), "stop_reason").s, next)
    {
      LastSnoc(past, e, SetsStop, k);
    }
  }

  lemma {:induction false} ModelStep(past: seq<Json>, e: Json, asked: string, model: string, next: string)
    requires ModelSays(past, asked, model)
    requires if NamesModel(e) then Str(next) == Get(Get(e, "message"), "model") else next == model
    ensures ModelSays(past + [e], asked, next)
  {
    NoneSnoc(past, e, NamesModel);
    forall k: nat | LastOf(past + [e], NamesModel, k)
      ensures Get(Get((past + [e])[k], "message"), "model") == Str(next)
    {
      LastSnoc(past, e, NamesModel, k);
    }
  }

  function FinishOf(st: State): string {
    if st.finishReason.Some? then st.finishReason.value else "stop"
  }

  function ModelOf(env: Env, st: State): string {
    if st.wireModel.Some? then st.wireModel.value else env.model
  }

  /** The last writer wins: what the events so far report is what the translator has in hand. */
  ghost predicate Holds(env: Env, past: seq<Json>, st: State) {
    UsageSays(env.js, past, st.usage) && FinishSays(past, FinishOf(st)) && ModelSays(past, env.model, ModelOf(env, st))
  }

  lemma {:induction false} HoldsStep(env: Env, past: seq<Json>, st: State, e: Json, event: Event)
    requires Holds(env, past, st) && event == Classify(env.js, e)
    ensures Holds(env, past + [e], Step(env, st, event).0)
  {
    var next := Step(env, st, event).0;
    ReadsStart(env.js, e);
    ReadsDelta(env.js, e);
    Reported(env, st, event);
    if SetsStop(e) { FinishStandsFor(event.stopReason.value); }
    UsageStep(env.js, past, e, st.usage, next.usage);
    FinishStep(past, e, FinishOf(st), FinishOf(next));
    ModelStep(past, e, env.model, ModelOf(env, st), ModelOf(env, next));
  }

  lemma {:induction false} Reported(env: Env, st: State, event: Event)
    ensures var next := Step(env, st, event).0;
            next.usage == (if event.MessageStart? then event.usage
                           else if event.MessageDelta? && event.output.Some? then st.usage.(output := event.output.value)
                           else st.usage) &&
            next.finishReason == (if event.MessageDelta? && event.stopReason.Some? then Some(FinishFor(event.stopReason.value))
                                  else st.finishReason) &&
            next.wireModel == if event.MessageStart? && event.model.Some? then event.model else st.wireModel
  {
  }

  // ---------------------------------------------------------------- up to the ending

  /** The translator and the client hold what the events so far said. */
  ghost predicate Knows(env: Env, past: seq<Json>, st: State, a: Answer<Usage>) {
    Matches(st, a) && !Silent(st) && a.content == AllSaid(past) && a.finish.None? && a.usage.None? &&
    st.toolCount == Count(past) && Spelt(env.js, past, a.calls) && Owns(st.toolIndexByBlock, past) && Holds(env, past, st)
  }

  lemma {:induction false} KnowsStep(env: Env, past: seq<Json>, st: State, a: Answer<Usage>, e: Json)
    returns (next: State, out: seq<ChatFrame>, b: Answer<Usage>)
    requires Knows(env, past, st, a) && !Ends(e)
    ensures (next, out) == Step(env, st, Classify(env.js, e)) && ReceiveAll(a, out) == Some(b)
    ensures Knows(env, past + [e], next, b)
  {
    var event := Classify(env.js, e);
    next, out, b := StepAnswer(env, st, a, event);
    ReadsText(env.js, e);
    ReadsCall(env.js, e);
    ReadsEnd(env.js, e);
    SaidSnoc(past, e);
    HeadsSnoc(env.js, past, e);
    BlocksAfter(env, st, event);
    OwnsStep(st.toolIndexByBlock, past, e);
    SpeltStep(env.js, past, st, a.calls, e, event);
    HoldsStep(env, past, st, e, event);
  }

  lemma {:induction false} BlocksAfter(env: Env, st: State, event: Event)
    ensures var next := Step(env, st, event).0;
            next.toolIndexByBlock ==
              (if event.ToolStart? then SetKey(st.toolIndexByBlock, event.block, st.toolCount) else st.toolIndexByBlock) &&
            next.toolCount == st.toolCount + if event.ToolStart? then 1 else 0
  {
  }

  function FrameOf(js: Builtins, data: string): Json {
    if js.parse(data).None? then Undefined else js.parse(data).value
  }

  function FramesOf(js: Builtins, payloads: seq<string>): (frames: seq<Json>)
    ensures |frames| == |payloads|
  {
    if payloads == [] then [] else [FrameOf(js, payloads[0])] + FramesOf(js, payloads[1..])
  }

  /** A payload that ends the stream: no JSON, or an event that ends it. */
  predicate Stops(js: Builtins, data: string) {
    js.parse(data).None? || Ends(FrameOf(js, data))
  }

  /** The payloads before this one end nothing, and this one, if there is one, does. */
  ghost predicate StopsAt(js: Builtins, payloads: seq<string>, k: nat) {
    k <= |payloads| && (forall j :: 0 <= j < k ==> !Stops(js, payloads[j])) && (k < |payloads| ==> Stops(js, payloads[k]))
  }

  /** Every stream has one such place, its end if nothing ends it. */
  lemma {:induction false} SomewhereStops(js: Builtins, payloads: seq<string>) returns (k: nat)
    ensures StopsAt(js, payloads, k)
    ensures forall other: nat :: StopsAt(js, payloads, other) ==> other == k
  {
    k := 0;
    while k < |payloads| && !Stops(js, payloads[k])
      invariant k <= |payloads| && forall j :: 0 <= j < k ==> !Stops(js, payloads[j])
    {
      k := k + 1;
    }
  }

  /** How the stream came to an end: by its stop event, by a failure, or by being cut off. */
  ghost predicate Ended(env: Env, frames: seq<Json>, payloads: seq<string>, a: Answer<Usage>) {
    if payloads == [] then a.outcome == Failed("anthropic stream ended unexpectedly") && a.finish.None? && a.usage.None?
    else if env.js.parse(payloads[0]).None? then
      a.outcome == Failed("anthropic stream frame was not JSON") && a.finish.None? && a.usage.None?
    else
      var e := FrameOf(env.js, payloads[0]);
      if Is(e, "error") then a.outcome == Failed(FailureText(env.js, e)) && a.finish.None? && a.usage.None?
      else
        a.outcome == Completed && a.finish.Some? && FinishSays(frames, a.finish.value) &&
        a.usage.Some? && UsageSays(env.js, frames, a.usage.value) && a.model.Some? && ModelSays(frames, env.model, a.model.value)
  }

  lemma {:induction false} EndStep(env: Env, past: seq<Json>, st: State, a: Answer<Usage>, payloads: seq<string>)
    returns (last: State, out: seq<ChatFrame>, b: Answer<Usage>)
    requires Knows(env, past, st, a) && payloads != [] && Stops(env.js, payloads[0])
    ensures (last, out) == Step(env, st, EventOf(env.js, payloads[0])) && ReceiveAll(a, out) == Some(b) && Silent(last)
    ensures b.content == a.content && b.calls == a.calls && Ended(env, past, payloads, b)
  {
    last, out, b := StepAnswer(env, st, a, EventOf(env.js, payloads[0]));
    ConcatNothing(a.content);
    ReadsEnd(env.js, FrameOf(env.js, payloads[0]));
  }

  lemma {:induction false} RunStops(env: Env, past: seq<Json>, st: State, a: Answer<Usage>, payloads: seq<string>)
    returns (b: Answer<Usage>)
    requires Knows(env, past, st, a) && (payloads != [] ==> Stops(env.js, payloads[0]))
    ensures var (last, out) := Run(Translator(env), st, payloads);
            ReceiveAll(a, out + Finish(Translator(env), last).1) == Some(b)
    ensures b.content == AllSaid(past) && Spelt(env.js, past, b.calls) && Ended(env, past, payloads, b)
  {
    if payloads == [] {
      b := a.(outcome := Failed("anthropic stream ended unexpectedly"));
      var cut: ChatFrame := Error("anthropic stream ended unexpectedly");
      ReceiveOne(a, cut);
      ConcatNothing([cut]);
    } else {
      var last, out;
      last, out, b := EndStep(env, past, st, a, payloads);
      RunEnds(env, st, payloads, last, out);
      ConcatNothing(out);
    }
  }

  lemma {:induction false} RunEnds(env: Env, st: State, payloads: seq<string>, last: State, out: seq<ChatFrame>)
    requires payloads != [] && !Silent(st) && (last, out) == Step(env, st, EventOf(env.js, payloads[0])) && Silent(last)
    ensures Run(Translator(env), st, payloads) == (last, out) && Finish(Translator(env), last) == (last, [])
  {
    ConcatNothing(out);
  }

  lemma {:induction false} RunTurn(env: Env, st: State, a: Answer<Usage>, payloads: seq<string>, e: Json, next: State,
      out: seq<ChatFrame>, mid: Answer<Usage>)
    requires payloads != [] && !Silent(st) && !Stops(env.js, payloads[0]) && e == FrameOf(env.js, payloads[0])
    requires (next, out) == Step(env, st, Classify(env.js, e)) && ReceiveAll(a, out) == Some(mid)
    ensures var h := Translator(env);
            var (last, all) := Run(h, st, payloads);
            var (end, more) := Run(h, next, payloads[1..]);
            ReceiveAll(a, all + Finish(h, last).1) == ReceiveAll(mid, more + Finish(h, end).1)
  {
    var h := Translator(env);
    var (end, more) := Run(h, next, payloads[1..]);
    EventIs(env.js, payloads[0]);
    assert h.dispatch(st, payloads[0]) == (next, out);
    assert Run(h, st, payloads) == (end, out + more);
    Assoc(out, more, Finish(h, end).1);
    ReceiveAppend(a, out, more + Finish(h, end).1);
  }

  lemma {:induction false} EventIs(js: Builtins, data: string)
    requires !Stops(js, data)
    ensures EventOf(js, data) == Classify(js, FrameOf(js, data))
  {
  }

  lemma {:induction false} StopsLater(js: Builtins, payloads: seq<string>, k: nat)
    requires StopsAt(js, payloads, k) && k > 0
    ensures payloads != [] && !Stops(js, payloads[0]) && StopsAt(js, payloads[1..], k - 1)
  {
    assert forall j :: 0 <= j < k - 1 ==> payloads[1..][j] == payloads[j + 1];
  }

  lemma {:induction false} FramesTurn(js: Builtins, past: seq<Json>, payloads: seq<string>, k: nat, e: Json)
    requires 0 < k <= |payloads| && e == FrameOf(js, payloads[0])
    ensures past + FramesOf(js, payloads[..k]) == past + [e] + FramesOf(js, payloads[1..][..k - 1])
    ensures payloads[k..] == payloads[1..][k - 1..]
  {
    assert payloads[..k][1..] == payloads[1..][..k - 1];
    Assoc(past, [e], FramesOf(js, payloads[1..][..k - 1]));
  }

  /**
    * Up to its ending a stream accumulates. The client's content is the text deltas joined, whatever stands
    * between them; call `i` has the id and name of the i-th announcement and, for arguments, the fragments
    * whose block stood for it when they arrived. `past` is what was heard before.
    */
  lemma {:induction false} RunAccumulates(
      env: Env, past: seq<Json>, st: State, a: Answer<Usage>, payloads: seq<string>, k: nat)
    returns (b: Answer<Usage>)
    requires Knows(env, past, st, a) && StopsAt(env.js, payloads, k)
    ensures var (last, out) := Run(Translator(env), st, payloads);
            ReceiveAll(a, out + Finish(Translator(env), last).1) == Some(b)
    ensures var frames := past + FramesOf(env.js, payloads[..k]);
            b.content == AllSaid(frames) && Spelt(env.js, frames, b.calls) && Ended(env, frames, payloads[k..], b)
    decreases k
  {
    if k == 0 {
      ConcatNothing(past);
      b := RunStops(env, past, st, a, payloads);
    } else {
      var e, rest := FrameOf(env.js, payloads[0]), payloads[1..];
      StopsLater(env.js, payloads, k);
      var next, out, mid := KnowsStep(env, past, st, a, e);
      b := RunAccumulates(env, past + [e], next, mid, rest, k - 1);
      RunTurn(env, st, a, payloads, e, next, out, mid);
      FramesTurn(env.js, past, payloads, k, e);
    }
  }

  /**
    * What a Messages stream means, for every stream and every split of its bytes. Up to the payload that ends
    * it, the client holds the text of its text deltas and each call with its id, name and fragments; at its
    * stop event come the finish reason and the usage, each as last reported, and otherwise an error.
    */
  lemma {:induction false} StreamMeans(env: Env, decoder: Decoder, chunks: seq<seq<Byte>>, payloads: seq<string>)
    returns (k: nat, a: Answer<Usage>)
    requires payloads == Payloads(Decode(decoder, 0, Concat(chunks)).1, [])
    ensures StopsAt(env.js, payloads, k)
    ensures ReceiveAll(Nothing(), Transcript(Translator(env), decoder, Start(), chunks)) == Some(a)
    ensures var frames := FramesOf(env.js, payloads[..k]);
            a.content == AllSaid(frames) && Spelt(env.js, frames, a.calls) && Ended(env, frames, payloads[k..], a)
  {
    k := SomewhereStops(env.js, payloads);
    TranscriptIsRun(Translator(env), decoder, Start(), chunks);
    a := RunAccumulates(env, [], INITIAL, Nothing(), payloads, k);
    ConcatNothing(FramesOf(env.js, payloads[..k]));
  }
}
