/** The Messages stream as it comes: what its events say, by the members of their JSON. */
module AnthropicWire {
  import opened Js
  import opened ChatFrames
  import opened AnthropicStream

  // ---------------------------------------------------------------- one event

  function Said(e: Json): string {
    if Is(e, "content_block_delta") && Is(Get(e, "delta"), "text_delta") then StringOrEmpty(Get(Get(e, "delta"), "text"))
    else ""
  }

  predicate Announces(e: Json) {
    Is(e, "content_block_start") && Is(Get(e, "content_block"), "tool_use")
  }

  /** The id and name a client is given for a tool_use block. */
  function HeadOf(js: Builtins, e: Json): Call {
    var block := Get(e, "content_block");
    Call(js.text(FirstPresent([Get(block, "id"), Str("")])), FirstPresent([Get(block, "name"), Str("")]), "")
  }

  predicate IsFragment(e: Json) {
    Is(e, "content_block_delta") && Is(Get(e, "delta"), "input_json_delta") && Get(Get(e, "delta"), "partial_json").Str?
  }

  predicate Ends(e: Json) {
    Is(e, "message_stop") || Is(e, "error")
  }

  function FailureText(js: Builtins, e: Json): string {
    "anthropic " +
    js.text(FirstTruthy([Get(Get(e, "error"), "message"), Get(Get(e, "error"), "type"), Str("stream error")]))
  }

  predicate Starts(e: Json) {
    Is(e, "message_start")
  }

  predicate NamesModel(e: Json) {
    Starts(e) && Get(Get(e, "message"), "model").Str?
  }

  predicate SetsStop(e: Json) {
    Is(e, "message_delta") && Get(Get(e, "delta"), "stop_reason").Str?
  }

  predicate SetsOutput(e: Json) {
    Starts(e) || (Is(e, "message_delta") && Get(Get(e, "usage"), "output_tokens").Num?)
  }

  /** `Number(v ?? 0)` */
  function Counted(js: Builtins, v: Json): real {
    js.number(FirstPresent([v, Num(0.0)]))
  }

  function OutputSet(js: Builtins, e: Json): real {
    if Starts(e) then Counted(js, Get(Get(Get(e, "message"), "usage"), "output_tokens"))
    else
      var output := Get(Get(e, "usage"), "output_tokens");
      if output.Num? then output.n else 0.0
  }

  /** The input and cache counts are those an opening event reports, each cache count only where it does. */
  ghost predicate InputSays(js: Builtins, e: Json, u: Usage) {
    var usage := Get(Get(e, "message"), "usage");
    var read, creation := Get(usage, "cache_read_input_tokens"), Get(usage, "cache_creation_input_tokens");
    u.input == Counted(js, Get(usage, "input_tokens")) &&
    (u.cacheRead.None? <==> read == Undefined) && (u.cacheRead.Some? ==> u.cacheRead.value == js.number(read)) &&
    (u.cacheCreation.None? <==> creation == Undefined) &&
    (u.cacheCreation.Some? ==> u.cacheCreation.value == js.number(creation))
  }

  /** The finish reason a stop reason stands for. */
  ghost predicate StandsFor(stopReason: string, finish: string) {
    (finish == "length" <==> stopReason == "max_tokens") && (finish == "tool_calls" <==> stopReason == "tool_use") &&
    (finish == "stop" <==> stopReason != "max_tokens" && stopReason != "tool_use")
  }

  lemma {:induction false} FinishStandsFor(stopReason: string)
    ensures StandsFor(stopReason, FinishFor(stopReason))
  {
    assert "length"[0] != "tool_calls"[0] && "length"[0] != "stop"[0] && "tool_calls"[0] != "stop"[0];
  }

  // ---------------------------------------------------------------- the events so far

  function AllSaid(frames: seq<Json>): string {
    if frames == [] then "" else AllSaid(frames[..|frames| - 1]) + Said(frames[|frames| - 1])
  }

  /** The tool calls announced, in order. */
  function Heads(js: Builtins, frames: seq<Json>): seq<Call> {
    if frames == [] then []
    else
      var last := frames[|frames| - 1];
      Heads(js, frames[..|frames| - 1]) + if Announces(last) then [HeadOf(js, last)] else []
  }

  /** How many calls were announced. */
  function Count(frames: seq<Json>): nat {
    if frames == [] then 0 else Count(frames[..|frames| - 1]) + if Announces(frames[|frames| - 1]) then 1 else 0
  }

  /** The call a block's index stands for: the last announced under it. (An object is never found again.) */
  function Owner(frames: seq<Json>, block: Json): Option<nat> {
    if frames == [] || block.Arr? || block.Obj? then None
    else
      var front, last := frames[..|frames| - 1], frames[|frames| - 1];
      if Announces(last) && Get(last, "index") == block then Some(Count(front)) else Owner(front, block)
  }

  /** The fragments of call `i`, joined: those whose block stood for it when they arrived. */
  function FragmentsOf(frames: seq<Json>, i: nat): string {
    if frames == [] then ""
    else
      var front, last := frames[..|frames| - 1], frames[|frames| - 1];
      FragmentsOf(front, i) +
      if IsFragment(last) && Owner(front, Get(last, "index")) == Some(i) then Get(Get(last, "delta"), "partial_json").s else ""
  }

  /** The last of the events that is such a one. */
  ghost predicate LastOf(frames: seq<Json>, such: Json -> bool, k: nat) {
    k < |frames| && such(frames[k]) && forall j :: k < j < |frames| ==> !such(frames[j])
  }

  ghost predicate NoneOf(frames: seq<Json>, such: Json -> bool) {
    forall j :: 0 <= j < |frames| ==> !such(frames[j])
  }

  /** The last writer wins: each count is that of the last event to report it, and nought where none did. */
  ghost predicate UsageSays(js: Builtins, frames: seq<Json>, u: Usage) {
    (forall k: nat :: LastOf(frames, Starts, k) ==> InputSays(js, frames[k], u)) &&
    (NoneOf(frames, Starts) ==> u.input == 0.0 && u.cacheRead.None? && u.cacheCreation.None?) &&
    (forall k: nat :: LastOf(frames, SetsOutput, k) ==> u.output == OutputSet(js, frames[k])) &&
    (NoneOf(frames, SetsOutput) ==> u.output == 0.0)
  }

  /** The finish reason is that of the last stop reason given, and `stop` where none was. */
  ghost predicate FinishSays(frames: seq<Json>, finish: string) {
    (forall k: nat :: LastOf(frames, SetsStop, k) ==> StandsFor(Get(Get(frames[k], "delta"), "stop_reason").s, finish)) &&
    (NoneOf(frames, SetsStop) ==> finish == "stop")
  }

  /** The model is the last one named, and the one asked for where none was. */
  ghost predicate ModelSays(frames: seq<Json>, asked: string, model: string) {
    (forall k: nat :: LastOf(frames, NamesModel, k) ==> Get(Get(frames[k], "message"), "model") == Str(model)) &&
    (NoneOf(frames, NamesModel) ==> model == asked)
  }

  lemma {:induction false} SaidSnoc(past: seq<Json>, e: Json)
    ensures AllSaid(past + [e]) == AllSaid(past) + Said(e)
  {
    Snoc(past, e, past + [e]);
  }

  lemma {:induction false} HeadsSnoc(js: Builtins, past: seq<Json>, e: Json)
    ensures Heads(js, past + [e]) == Heads(js, past) + if Announces(e) then [HeadOf(js, e)] else []
    ensures Count(past + [e]) == Count(past) + if Announces(e) then 1 else 0
  {
    Snoc(past, e, past + [e]);
  }

  lemma {:induction false} OwnerSnoc(past: seq<Json>, e: Json, block: Json)
    ensures Owner(past + [e], block) ==
            if block.Arr? || block.Obj? then None
            else if Announces(e) && Get(e, "index") == block then Some(Count(past)) else Owner(past, block)
  {
    Snoc(past, e, past + [e]);
  }

  lemma {:induction false} FragmentsSnoc(past: seq<Json>, e: Json, i: nat)
    ensures FragmentsOf(past + [e], i) ==
            FragmentsOf(past, i) +
            if IsFragment(e) && Owner(past, Get(e, "index")) == Some(i) then Get(Get(e, "delta"), "partial_json").s else ""
  {
    Snoc(past, e, past + [e]);
  }

  /** A call not announced yet has no fragments. */
  lemma {:induction false} NoFragments(frames: seq<Json>, i: nat)
    requires Count(frames) <= i
    ensures FragmentsOf(frames, i) == "" && forall block :: Owner(frames, block) != Some(i)
    decreases |frames|
  {
    if frames != [] { NoFragments(frames[..|frames| - 1], i); }
  }

  lemma {:induction false} LastSnoc(past: seq<Json>, e: Json, such: Json -> bool, k: nat)
    ensures LastOf(past + [e], such, k) <==> if such(e) then k == |past| else LastOf(past, such, k)
  {
    var all := past + [e];
    assert all[|past|] == e;
    if LastOf(all, such, k) && !such(e) {
      assert forall j :: k <= j < |past| ==> past[j] == all[j];
    }
  }

  lemma {:induction false} NoneSnoc(past: seq<Json>, e: Json, such: Json -> bool)
    ensures NoneOf(past + [e], such) <==> NoneOf(past, such) && !such(e)
  {
    var all := past + [e];
    assert all[|past|] == e;
    if NoneOf(all, such) {
      forall j | 0 <= j < |past| ensures !such(past[j]) {
        assert past[j] == all[j];
      }
    }
  }

  // ---------------------------------------------------------------- what the translator reads of an event

  lemma {:induction false} ReadsText(js: Builtins, e: Json)
    ensures Classify(js, e).TextDelta? ==> Classify(js, e).text == Said(e)
    ensures !Classify(js, e).TextDelta? ==> Said(e) == ""
  {
  }

  lemma {:induction false} ReadsCall(js: Builtins, e: Json)
    ensures Classify(js, e).ToolStart? <==> Announces(e)
    ensures Announces(e) ==>
      var event := Classify(js, e);
      event.block == Get(e, "index") && Call(event.id, event.name, "") == HeadOf(js, e)
    ensures Classify(js, e).ArgsDelta? <==> IsFragment(e)
    ensures IsFragment(e) ==> Classify(js, e) == ArgsDelta(Get(e, "index"), Get(Get(e, "delta"), "partial_json").s)
  {
    FirstOfTwo(Get(Get(e, "content_block"), "id"), Str(""));
    FirstOfTwo(Get(Get(e, "content_block"), "name"), Str(""));
  }

  lemma {:induction false} ReadsEnd(js: Builtins, e: Json)
    ensures Classify(js, e).MessageStop? <==> Is(e, "message_stop")
    ensures Classify(js, e).Failure? <==> Is(e, "error")
    ensures Is(e, "error") ==> Classify(js, e) == Failure(FailureText(js, e))
  {
    FirstOfThree(Get(Get(e, "error"), "message"), Get(Get(e, "error"), "type"), Str("stream error"));
  }

  lemma {:induction false} ReadsStart(js: Builtins, e: Json)
    ensures Classify(js, e).MessageStart? <==> Starts(e)
    ensures Starts(e) ==>
      var event := Classify(js, e);
      (event.model.Some? <==> NamesModel(e)) && (NamesModel(e) ==> Str(event.model.value) == Get(Get(e, "message"), "model")) &&
      InputSays(js, e, event.usage) && event.usage.output == OutputSet(js, e)
  {
    var usage := Get(Get(e, "message"), "usage");
    FirstOfTwo(Get(usage, "input_tokens"), Num(0.0));
    FirstOfTwo(Get(usage, "output_tokens"), Num(0.0));
  }

  lemma {:induction false} ReadsDelta(js: Builtins, e: Json)
    ensures Classify(js, e).MessageDelta? <==> Is(e, "message_delta")
    ensures Is(e, "message_delta") ==>
      var event := Classify(js, e);
      (event.stopReason.Some? <==> SetsStop(e)) && (event.output.Some? <==> SetsOutput(e)) &&
      (SetsStop(e) ==> Str(event.stopReason.value) == Get(Get(e, "delta"), "stop_reason")) &&
      (SetsOutput(e) ==> event.output.value == OutputSet(js, e))
  {
  }
}
