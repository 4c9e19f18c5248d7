/** The Responses stream as it comes: what its events say, by the members of their JSON. */
module BedrockWire {
  import opened Js
  import opened ChatFrames
  import opened BedrockStream

  // ---------------------------------------------------------------- one event

  function Said(e: Json): string {
    if Is(e, "response.output_text.delta") then StringOrEmpty(Get(e, "delta")) else ""
  }

  predicate Announces(e: Json) {
    Is(e, "response.output_item.added") && Is(Get(e, "item"), "function_call")
  }

  /** What an item's own events go by: its id, else its place in the output. */
  function Identity(e: Json): Json {
    FirstPresent([Get(Get(e, "item"), "id"), Get(e, "output_index")])
  }

  /** The id and name a client is given for an item. */
  function HeadOf(js: Builtins, item: Json): Call {
    Call(js.text(FirstPresent([Get(item, "call_id"), Get(item, "id"), Str("")])), FirstPresent([Get(item, "name"), Str("")]), "")
  }

  predicate IsFragment(e: Json) {
    Is(e, "response.function_call_arguments.delta") && Get(e, "delta").Str?
  }

  predicate ItemIsDone(e: Json) {
    Is(e, "response.output_item.done") && Is(Get(e, "item"), "function_call") && Get(Get(e, "item"), "arguments").Str?
  }

  predicate ArgumentsAreDone(e: Json) {
    Is(e, "response.function_call_arguments.done") && Get(e, "arguments").Str?
  }

  /** An event that repeats a call's arguments in full. */
  predicate IsWhole(e: Json) {
    ItemIsDone(e) || ArgumentsAreDone(e)
  }

  function WholeOf(e: Json): string {
    StringOrEmpty(if ItemIsDone(e) then Get(Get(e, "item"), "arguments") else Get(e, "arguments"))
  }

  predicate Completes(e: Json) {
    Is(e, "response.completed") || Is(e, "response.incomplete")
  }

  predicate Ends(e: Json) {
    Completes(e) || Is(e, "response.failed") || Is(e, "error")
  }

  function ResponseIn(e: Json): Json {
    FirstPresent([Get(e, "response"), Obj(map[])])
  }

  function FailureText(js: Builtins, e: Json): string {
    "bedrock " +
    js.text(if Is(e, "error") then FirstTruthy([Get(e, "message"), Get(e, "code"), Str("stream error")])
            else FirstTruthy([Get(Get(Get(e, "response"), "error"), "message"), Str("bedrock response.failed with no detail")]))
  }

  function Named(wire: Option<string>, e: Json): Option<string> {
    if Is(e, "response.created") && Get(Get(e, "response"), "model").Str? then Some(Get(Get(e, "response"), "model").s)
    else wire
  }

  /** The function_call items of a response's output, in order. */
  function ToolItems(output: seq<Json>): seq<Json> {
    if output == [] then []
    else
      ToolItems(output[..|output| - 1]) + if Is(output[|output| - 1], "function_call") then [output[|output| - 1]] else []
  }

  // ---------------------------------------------------------------- the events so far

  function AllSaid(frames: seq<Json>): string {
    if frames == [] then "" else AllSaid(frames[..|frames| - 1]) + Said(frames[|frames| - 1])
  }

  /** The identities calls are announced under, in order. */
  function Keys(frames: seq<Json>): seq<Json> {
    if frames == [] then []
    else
      var last := frames[|frames| - 1];
      Keys(frames[..|frames| - 1]) + if Announces(last) then [Identity(last)] else []
  }

  /** What they are announced as. */
  function Starts(js: Builtins, frames: seq<Json>): (calls: seq<Call>)
    ensures |calls| == |Keys(frames)|
  {
    if frames == [] then []
    else
      var last := frames[|frames| - 1];
      Starts(js, frames[..|frames| - 1]) + if Announces(last) then [HeadOf(js, Get(last, "item"))] else []
  }

  /** The call an identity stands for: the last announced under it. (An object is never found again.) */
  function Owner(frames: seq<Json>, key: Json): Option<nat> {
    if frames == [] || key.Arr? || key.Obj? then None
    else
      var front, last := frames[..|frames| - 1], frames[|frames| - 1];
      if Announces(last) && Identity(last) == key then Some(|Keys(front)|) else Owner(front, key)
  }

  /** The call an event about arguments is about: by its item's identity, and else by its place in the output. */
  function About(frames: seq<Json>, e: Json): Option<nat> {
    if ItemIsDone(e) then Owner(frames, Identity(e))
    else if !IsFragment(e) && !ArgumentsAreDone(e) then None
    else if Owner(frames, Get(e, "item_id")).Some? then Owner(frames, Get(e, "item_id"))
    else Owner(frames, Get(e, "output_index"))
  }

  /** What an event makes of the arguments sent: fragments add up, and a full string completes what it extends. */
  function More(sent: string, e: Json): string {
    if IsFragment(e) then sent + StringOrEmpty(Get(e, "delta"))
    else if sent < WholeOf(e) then WholeOf(e)
    else sent
  }

  /** The arguments of call `i` so far. */
  function ArgumentsIn(frames: seq<Json>, i: nat): string {
    if frames == [] then ""
    else
      var front, last := frames[..|frames| - 1], frames[|frames| - 1];
      if About(front, last) == Some(i) then More(ArgumentsIn(front, i), last) else ArgumentsIn(front, i)
  }

  /** The model last named. */
  function Echo(frames: seq<Json>): Option<string> {
    if frames == [] then None else Named(Echo(frames[..|frames| - 1]), frames[|frames| - 1])
  }

  function Reason(frames: seq<Json>, e: Json): string {
    if Is(e, "response.incomplete") &&
      Get(Get(Get(e, "response"), "incomplete_details"), "reason") == Str("max_output_tokens") then "length"
    else if Keys(frames) != [] then "tool_calls"
    else "stop"
  }

  /** The counts a response reports, under the names it reports them. */
  ghost predicate UsageSays(js: Builtins, usage: Json, u: Usage) {
    var input, output := Get(usage, "input_tokens_details"), Get(usage, "output_tokens_details");
    u.prompt == Counted(js, Get(usage, "input_tokens")) && u.completion == Counted(js, Get(usage, "output_tokens")) &&
    u.total == Counted(js, Get(usage, "input_tokens")) + Counted(js, Get(usage, "output_tokens")) &&
    u.cached == Counted(js, Get(input, "cached_tokens")) && u.cacheWrite == Counted(js, Get(input, "cache_write_tokens")) &&
    (u.reasoning.Some? <==> Get(output, "reasoning_tokens") != Undefined) &&
    (u.reasoning.Some? ==> u.reasoning.value == Counted(js, Get(output, "reasoning_tokens")))
  }

  /** `Number(v ?? 0)` */
  function Counted(js: Builtins, v: Json): real {
    js.number(FirstPresent([v, Num(0.0)]))
  }

  lemma {:induction false} UsageIsSaid(js: Builtins, usage: Json)
    ensures UsageSays(js, usage, UsageOf(js, usage))
  {
    forall v ensures Counted(js, v) == js.number(OrElse(v, Num(0.0))) {
      FirstOfTwo(v, Num(0.0));
    }
  }

  lemma {:induction false} KeysSnoc(past: seq<Json>, e: Json)
    ensures Keys(past + [e]) == Keys(past) + if Announces(e) then [Identity(e)] else []
  {
    Snoc(past, e, past + [e]);
  }

  lemma {:induction false} StartsSnoc(js: Builtins, past: seq<Json>, e: Json)
    ensures Starts(js, past + [e]) == Starts(js, past) + if Announces(e) then [HeadOf(js, Get(e, "item"))] else []
  {
    Snoc(past, e, past + [e]);
  }

  lemma {:induction false} OwnerSnoc(past: seq<Json>, e: Json, key: Json)
    ensures Owner(past + [e], key) ==
            if key.Arr? || key.Obj? then None
            else if Announces(e) && Identity(e) == key then Some(|Keys(past)|) else Owner(past, key)
  {
    Snoc(past, e, past + [e]);
  }

  lemma {:induction false} ArgumentsSnoc(past: seq<Json>, e: Json, i: nat)
    ensures ArgumentsIn(past + [e], i) ==
            if About(past, e) == Some(i) then More(ArgumentsIn(past, i), e) else ArgumentsIn(past, i)
  {
    Snoc(past, e, past + [e]);
  }

  lemma {:induction false} SaidSnoc(past: seq<Json>, e: Json)
    ensures AllSaid(past + [e]) == AllSaid(past) + Said(e) && Echo(past + [e]) == Named(Echo(past), e)
  {
    Snoc(past, e, past + [e]);
  }

  // ---------------------------------------------------------------- what the translator reads of an event

  lemma {:induction false} ReadsText(js: Builtins, e: Json)
    ensures Classify(js, e).TextDelta? ==> Classify(js, e).text == Said(e)
    ensures !Classify(js, e).TextDelta? ==> Said(e) == ""
  {
  }

  lemma {:induction false} ReadsStart(js: Builtins, e: Json)
    ensures Classify(js, e).Added? <==> Announces(e)
    ensures Announces(e) ==>
      var event := Classify(js, e);
      event.key == Identity(e) && Call(event.id, event.name, "") == HeadOf(js, Get(e, "item"))
  {
    var item := Get(e, "item");
    FirstOfTwo(Get(item, "id"), Get(e, "output_index"));
    FirstOfTwo(Get(item, "name"), Str(""));
    FirstOfThree(Get(item, "call_id"), Get(item, "id"), Str(""));
  }

  lemma {:induction false} ReadsFragment(js: Builtins, e: Json)
    ensures Classify(js, e).ArgsDelta? <==> IsFragment(e)
    ensures IsFragment(e) ==> Classify(js, e) == ArgsDelta(Get(e, "item_id"), Get(e, "output_index"), Get(e, "delta").s)
  {
  }

  lemma {:induction false} ReadsWhole(js: Builtins, e: Json)
    ensures Classify(js, e).ArgsDone? <==> ArgumentsAreDone(e)
    ensures ArgumentsAreDone(e) ==> Classify(js, e) == ArgsDone(Get(e, "item_id"), Get(e, "output_index"), WholeOf(e))
    ensures Classify(js, e).ItemDone? <==> ItemIsDone(e)
    ensures ItemIsDone(e) ==> Classify(js, e) == ItemDone(Identity(e), WholeOf(e))
  {
    FirstOfTwo(Get(Get(e, "item"), "id"), Get(e, "output_index"));
  }

  lemma {:induction false} ReadsCompletion(js: Builtins, e: Json)
    ensures Classify(js, e).Terminal? <==> Completes(e)
    ensures Completes(e) ==> Classify(js, e) == Terminal(Is(e, "response.incomplete"), ResponseIn(e))
  {
    FirstOfTwo(Get(e, "response"), Obj(map[]));
  }

  lemma {:induction false} ReadsFailure(js: Builtins, e: Json)
    ensures Classify(js, e).Failure? <==> Ends(e) && !Completes(e)
    ensures Ends(e) && !Completes(e) ==> Classify(js, e) == Failure(FailureText(js, e))
  {
    if Is(e, "response.failed") { ReadsResponseFailed(js, e); }
    else if Is(e, "error") { ReadsError(js, e); }
    else { ReadsNoFailure(js, e); }
  }

  lemma {:induction false} ReadsNoFailure(js: Builtins, e: Json)
    requires !Is(e, "response.failed") && !Is(e, "error")
    ensures !Classify(js, e).Failure?
  {
  }

  lemma {:induction false} ReadsResponseFailed(js: Builtins, e: Json)
    requires Is(e, "response.failed")
    ensures Classify(js, e) == Failure(FailureText(js, e))
  {
    FirstOfTwo(Get(Get(Get(e, "response"), "error"), "message"), Str("bedrock response.failed with no detail"));
  }

  lemma {:induction false} ReadsError(js: Builtins, e: Json)
    requires Is(e, "error")
    ensures Classify(js, e) == Failure(FailureText(js, e))
  {
    FirstOfThree(Get(e, "message"), Get(e, "code"), Str("stream error"));
  }

  lemma {:induction false} ReadsEnd(js: Builtins, e: Json)
    ensures Classify(js, e).Terminal? <==> Completes(e)
    ensures Completes(e) ==> Classify(js, e) == Terminal(Is(e, "response.incomplete"), ResponseIn(e))
    ensures Classify(js, e).Failure? <==> Ends(e) && !Completes(e)
    ensures Ends(e) && !Completes(e) ==> Classify(js, e) == Failure(FailureText(js, e))
  {
    ReadsCompletion(js, e);
    ReadsFailure(js, e);
  }

  lemma {:induction false} ReadsModel(js: Builtins, e: Json, wire: Option<string>)
    ensures var event := Classify(js, e);
            (if event.Created? && event.model.Some? then event.model else wire) == Named(wire, e)
  {
  }
}
