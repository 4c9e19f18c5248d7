/** What a Responses object says, by the members of its JSON, and that the chat completion says just that. */
module BedrockObject {
  import opened Js
  import opened ChatFrames
  import opened BedrockStream
  import opened BedrockCollapsed
  import opened BedrockWire

  // ---------------------------------------------------------------- what is said

  function Items(response: Json): seq<Json> {
    match Get(response, "output")
    case Arr(items) => items
    case _ => []
  }

  function MessageParts(item: Json): seq<Json> {
    match Get(item, "content")
    case Arr(parts) => if Is(item, "message") then parts else []
    case _ => []
  }

  /** The content of every message, in order. */
  function Parts(items: seq<Json>): seq<Json> {
    if items == [] then [] else Parts(items[..|items| - 1]) + MessageParts(items[|items| - 1])
  }

  function Part(part: Json, kind: string): string {
    match Get(part, if kind == "refusal" then "refusal" else "text")
    case Str(s) => if Is(part, kind) then s else ""
    case _ => ""
  }

  /** What the parts of one kind say, put together. */
  function Together(parts: seq<Json>, kind: string): string {
    if parts == [] then "" else Together(parts[..|parts| - 1], kind) + Part(parts[|parts| - 1], kind)
  }

  function TextIn(response: Json): string {
    Together(Parts(Items(response)), "output_text")
  }

  function RefusalIn(response: Json): string {
    Together(Parts(Items(response)), "refusal")
  }

  predicate CallSays(js: Builtins, item: Json, call: Call) {
    call.id == js.text(FirstPresent([Get(item, "call_id"), Get(item, "id"), Str("")])) &&
    (if Get(item, "name").Str? then call.name == Get(item, "name") else call.name == Str("")) &&
    (if Get(item, "arguments").Str? then Str(call.arguments) == Get(item, "arguments") else call.arguments == "")
  }

  predicate CutFor(response: Json, reason: string) {
    Get(response, "status") == Str("incomplete") && Get(Get(response, "incomplete_details"), "reason") == Str(reason)
  }

  predicate IsCut(response: Json) {
    CutFor(response, "max_output_tokens") || CutFor(response, "content_filter")
  }

  predicate FinishSays(response: Json, finish: string) {
    match finish
    case "length" => CutFor(response, "max_output_tokens")
    case "content_filter" => CutFor(response, "content_filter")
    case "tool_calls" => !IsCut(response) && ToolItems(Items(response)) != []
    case "stop" => !IsCut(response) && ToolItems(Items(response)) == []
    case _ => false
  }

  /** An object, with no error object in it, that has not failed. */
  predicate IsAnswer(response: Json) {
    response.Obj? && !Get(response, "error").Obj? && !Get(response, "error").Arr? && Get(response, "status") != Str("failed")
  }

  ghost predicate RefusedFor(js: Builtins, response: Json, message: string) {
    if !response.Obj? then message == "upstream response was not a Responses object"
    else if Get(response, "error").Obj? || Get(response, "error").Arr? then
      message == "upstream " + js.text(FirstTruthy([Get(Get(response, "error"), "message"), Str("response failed")]))
    else message == "upstream response failed"
  }

  /** What the completion is for every object: its own text, refusal, calls, ending, usage and model; or why not. */
  ghost predicate ObjectSays(env: Env, response: Json, c: Completion) {
    if !IsAnswer(response) then c.Refused? && RefusedFor(env.js, response, c.message)
    else
      c.Completion? && CallsSay(env.js, ToolItems(Items(response)), c.toolCalls) &&
      (if TextIn(response) == "" then c.content.None? else c.content == Some(TextIn(response))) &&
      c.refusal == RefusalIn(response) && FinishSays(response, c.finish) &&
      UsageSays(env.js, FirstPresent([Get(response, "usage"), Obj(map[])]), c.usage) &&
      Str(c.model) == FirstTruthy([if Get(response, "model").Str? then Get(response, "model") else Null, Str(env.model)])
  }

  ghost predicate CallsSay(js: Builtins, items: seq<Json>, calls: seq<Call>) {
    |calls| == |items| && forall i :: 0 <= i < |items| ==> CallSays(js, items[i], calls[i])
  }

  // ---------------------------------------------------------------- and that it is said

  lemma {:induction false} PartIs(part: Json)
    ensures Part(part, "output_text") == PartText(part) && Part(part, "refusal") == PartRefusal(part)
  {
    assert "output_text" != "refusal";
  }

  lemma {:induction false} PartsAre(parts: seq<Json>)
    ensures Together(parts, "output_text") == Texts(parts) && Together(parts, "refusal") == Refusals(parts)
    decreases |parts|
  {
    if parts != [] {
      var n := |parts| - 1;
      PartsAre(parts[..n]);
      PartIs(parts[n]);
      PartsSnoc(parts, n);
      assert parts[..n + 1] == parts;
    }
  }

  lemma {:induction false} OutputIs(output: seq<Json>)
    ensures Parts(output) == AllParts(output) && ToolItems(output) == Calls(output)
    decreases |output|
  {
    if output != [] {
      var front, last := output[..|output| - 1], output[|output| - 1];
      OutputIs(front);
      OutputAppend(front, last);
      assert output == front + [last];
    }
  }

  /** What the model reads off a response is what its members say. */
  lemma {:induction false} ReadsObject(response: Json)
    ensures TextIn(response) == Texts(AllParts(OutputOf(response)))
    ensures RefusalIn(response) == Refusals(AllParts(OutputOf(response)))
    ensures Items(response) == OutputOf(response) && ToolItems(Items(response)) == Calls(OutputOf(response))
  {
    OutputIs(Items(response));
    PartsAre(Parts(Items(response)));
  }

  lemma {:induction false} CallIs(js: Builtins, item: Json)
    ensures CallSays(js, item, CallOf(js, item))
  {
    FirstOfThree(Get(item, "call_id"), Get(item, "id"), Str(""));
  }

  lemma {:induction false} FinishIs(response: Json)
    ensures FinishSays(response, CollapsedFinish(response))
    ensures CutReason(response) == Str("content_filter") <==> CutFor(response, "content_filter")
  {
    ReadsObject(response);
  }

  lemma {:induction false} FailureIs(js: Builtins, response: Json)
    ensures FailureOf(js, response).None? <==> IsAnswer(response)
    ensures !IsAnswer(response) ==> RefusedFor(js, response, FailureOf(js, response).value)
  {
    FirstOfTwo(Get(Get(response, "error"), "message"), Str("response failed"));
  }

  /** The completion says of every response what its members do. */
  lemma {:induction false} CollapseIsSaid(env: Env, response: Json)
    ensures ObjectSays(env, response, Collapse(env, response))
  {
    FailureIs(env.js, response);
    if IsAnswer(response) {
      ReadsObject(response);
      FinishIs(response);
      FirstOfTwo(Get(response, "usage"), Obj(map[]));
      UsageIsSaid(env.js, OrElse(Get(response, "usage"), Obj(map[])));
      forall item { CallIs(env.js, item); }
    }
  }
}
