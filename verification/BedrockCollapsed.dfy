/** `responsesJsonToChatCompletion` and `ResponsesJsonToChat`: the non-streaming twin. */
module BedrockCollapsed {
  import opened Js
  import opened Decoding
  import opened ChatFrames
  import opened BedrockStream

  datatype Completion =
    | Completion(model: string, content: Option<string>, toolCalls: seq<Call>, refusal: string, finish: string, usage: Usage)
    | Refused(message: string)

  // ---------------------------------------------------------------- what a Responses object holds

  function OutputOf(response: Json): seq<Json> {
    ItemsOf(Get(response, "output"))
  }

  function PartText(part: Json): string {
    if Get(part, "type") == Str("output_text") then StringOrEmpty(Get(part, "text")) else ""
  }

  function PartRefusal(part: Json): string {
    if Get(part, "type") == Str("refusal") then StringOrEmpty(Get(part, "refusal")) else ""
  }

  function PartsOf(item: Json): seq<Json> {
    if Get(item, "type") == Str("message") then ItemsOf(Get(item, "content")) else []
  }

  /** Every content part of every message item, in order. */
  function AllParts(output: seq<Json>): seq<Json> {
    if output == [] then [] else PartsOf(output[0]) + AllParts(output[1..])
  }

  function Texts(parts: seq<Json>): string {
    if parts == [] then "" else PartText(parts[0]) + Texts(parts[1..])
  }

  function Refusals(parts: seq<Json>): string {
    if parts == [] then "" else PartRefusal(parts[0]) + Refusals(parts[1..])
  }

  /** The function_call items, in order. */
  function Calls(output: seq<Json>): seq<Json> {
    if output == [] then [] else (if IsFunctionCall(output[0]) then [output[0]] else []) + Calls(output[1..])
  }

  function CallOf(js: Builtins, item: Json): Call {
    Call(CallId(js, item), Str(StringOrEmpty(Get(item, "name"))), StringOrEmpty(Get(item, "arguments")))
  }

  function CallsOf(js: Builtins, items: seq<Json>): (calls: seq<Call>)
    ensures |calls| == |items|
    ensures forall i :: 0 <= i < |items| ==> calls[i] == CallOf(js, items[i])
  {
    if items == [] then [] else [CallOf(js, items[0])] + CallsOf(js, items[1..])
  }

  /** The upstream reported a failure, or something that is not a Responses object. */
  function FailureOf(js: Builtins, response: Json): Option<string> {
    var error := Get(response, "error");
    if !response.Obj? then Some("upstream response was not a Responses object")
    else if error.Obj? || error.Arr? then
      Some("upstream " + js.text(OrTruthy(Get(error, "message"), Str("response failed"))))
    else if Get(response, "status") == Str("failed") then Some("upstream response failed")
    else None
  }

  function CutReason(response: Json): Json {
    if Get(response, "status") == Str("incomplete") then Get(Get(response, "incomplete_details"), "reason") else Undefined
  }

  function CollapsedFinish(response: Json): string {
    var reason := CutReason(response);
    if reason == Str("max_output_tokens") then "length"
    else if reason == Str("content_filter") then "content_filter"
    else if Calls(OutputOf(response)) != [] then "tool_calls"
    else "stop"
  }

  /** The meaning of a Responses object as one chat completion. */
  function Collapse(env: Env, response: Json): Completion {
    var failure := FailureOf(env.js, response);
    if failure.Some? then Refused(failure.value)
    else
      var parts := AllParts(OutputOf(response));
      var model := Get(response, "model");
      Completion(
        if model.Str? && model.s != "" then model.s else env.model,
        if Texts(parts) == "" then None else Some(Texts(parts)),
        CallsOf(env.js, Calls(OutputOf(response))),
        Refusals(parts),
        CollapsedFinish(response),
        UsageOf(env.js, OrElse(Get(response, "usage"), Obj(map[]))))
  }

  lemma {:induction false} TextsAppend(a: seq<Json>, b: seq<Json>)
    ensures Texts(a + b) == Texts(a) + Texts(b)
  {
    if a == [] {
      assert a + b == b;
    } else {
      TailAppend(a, b);
      TextsAppend(a[1..], b);
      Assoc(PartText(a[0]), Texts(a[1..]), Texts(b));
    }
  }

  lemma {:induction false} RefusalsAppend(a: seq<Json>, b: seq<Json>)
    ensures Refusals(a + b) == Refusals(a) + Refusals(b)
  {
    if a == [] {
      assert a + b == b;
    } else {
      TailAppend(a, b);
      RefusalsAppend(a[1..], b);
      Assoc(PartRefusal(a[0]), Refusals(a[1..]), Refusals(b));
    }
  }

  lemma {:induction false} PartsSnoc(parts: seq<Json>, k: nat)
    requires k < |parts|
    ensures Texts(parts[..k + 1]) == Texts(parts[..k]) + PartText(parts[k])
    ensures Refusals(parts[..k + 1]) == Refusals(parts[..k]) + PartRefusal(parts[k])
  {
    var one := [parts[k]];
    assert parts[..k + 1] == parts[..k] + one && one[1..] == [];
    TextsAppend(parts[..k], one);
    RefusalsAppend(parts[..k], one);
    ConcatNothing(PartText(parts[k]));
    ConcatNothing(PartRefusal(parts[k]));
  }

  lemma {:induction false} OutputAppend(a: seq<Json>, item: Json)
    ensures AllParts(a + [item]) == AllParts(a) + PartsOf(item)
    ensures Calls(a + [item]) == Calls(a) + if IsFunctionCall(item) then [item] else []
  {
    if a == [] {
      assert a + [item] == [item];
    } else {
      TailAppend(a, [item]);
      OutputAppend(a[1..], item);
    }
  }

  lemma {:induction false} CallsOfAppend(js: Builtins, items: seq<Json>, item: Json)
    ensures CallsOf(js, items + [item]) == CallsOf(js, items) + [CallOf(js, item)]
  {
  }

  lemma {:induction false} OutputSnoc(js: Builtins, output: seq<Json>, k: nat)
    requires k < |output|
    ensures Texts(AllParts(output[..k + 1])) == Texts(AllParts(output[..k])) + Texts(PartsOf(output[k]))
    ensures Refusals(AllParts(output[..k + 1])) == Refusals(AllParts(output[..k])) + Refusals(PartsOf(output[k]))
    ensures CallsOf(js, Calls(output[..k + 1])) ==
            CallsOf(js, Calls(output[..k])) + if IsFunctionCall(output[k]) then [CallOf(js, output[k])] else []
  {
    var front, item := output[..k], output[k];
    assert output[..k + 1] == front + [item];
    OutputAppend(front, item);
    TextsAppend(AllParts(front), PartsOf(item));
    RefusalsAppend(AllParts(front), PartsOf(item));
    CallsOfAppend(js, Calls(front), item);
    ConcatNothing(Calls(front));
  }

  /** The content parts of one message: text joins text, refusal joins refusal. */
  method ReadParts(parts: seq<Json>, content0: string, refusal0: string) returns (content: string, refusal: string)
    ensures content == content0 + Texts(parts) && refusal == refusal0 + Refusals(parts)
  {
    content, refusal := content0, refusal0;
    for k := 0 to |parts|
      invariant content == content0 + Texts(parts[..k]) && refusal == refusal0 + Refusals(parts[..k])
    {
      var part := parts[k];
      PartsSnoc(parts, k);
      Assoc(content0, Texts(parts[..k]), PartText(part));
      Assoc(refusal0, Refusals(parts[..k]), PartRefusal(part));
      if Get(part, "type") == Str("output_text") && Get(part, "text").Str? {
        content := content + Get(part, "text").s;
      } else if Get(part, "type") == Str("refusal") && Get(part, "refusal").Str? {
        refusal := refusal + Get(part, "refusal").s;
      }
    }
    assert parts[..|parts|] == parts;
  }

  method ReadOutput(js: Builtins, output: seq<Json>) returns (content: string, refusal: string, toolCalls: seq<Call>)
    ensures content == Texts(AllParts(output)) && refusal == Refusals(AllParts(output))
    ensures toolCalls == CallsOf(js, Calls(output))
  {
    content, refusal, toolCalls := "", "", [];
    for k := 0 to |output|
      invariant content == Texts(AllParts(output[..k])) && refusal == Refusals(AllParts(output[..k]))
      invariant toolCalls == CallsOf(js, Calls(output[..k]))
    {
      var item := output[k];
      OutputSnoc(js, output, k);
      if Get(item, "type") == Str("message") && Get(item, "content").Arr? {
        content, refusal := ReadParts(Get(item, "content").items, content, refusal);
      } else if IsFunctionCall(item) {
        toolCalls := toolCalls + [CallOf(js, item)];
      }
    }
    assert output[..|output|] == output;
  }

  method ResponsesJsonToChatCompletion(env: Env, response: Json) returns (completion: Completion)
    ensures completion == Collapse(env, response)
  {
    if !response.Obj? { return Refused("upstream response was not a Responses object"); }
    var error := Get(response, "error");
    if error.Obj? || error.Arr? {
      return Refused("upstream " + env.js.text(OrTruthy(Get(error, "message"), Str("response failed"))));
    }
    if Get(response, "status") == Str("failed") { return Refused("upstream response failed"); }
    var content, refusal, toolCalls := ReadOutput(env.js, ItemsOf(Get(response, "output")));
    var reason := CutReason(response);
    var finish := if reason == Str("max_output_tokens") then "length"
                  else if reason == Str("content_filter") then "content_filter"
                  else if |toolCalls| > 0 then "tool_calls" else "stop";
    var usage := OrElse(Get(response, "usage"), Obj(map[]));
    var model := Get(response, "model");
    return Completion(
        if model.Str? && model.s != "" then model.s else env.model,
        if content == "" then None else Some(content),
        toolCalls, refusal, finish, UsageOf(env.js, usage));
  }

  // ---------------------------------------------------------------- the buffered body

  const MAX_JSON_BODY_BYTES := 4 * 1024 * 1024

  /** The answer to a whole body: one completion, or the envelope that says why there is none. */
  function BodyAnswer(env: Env, decode: seq<Byte> -> string, body: seq<Byte>): Completion {
    if |body| > MAX_JSON_BODY_BYTES then Refused("upstream response body over the size cap")
    else
      match env.js.parse(decode(body))
      case None => Refused("upstream response body was not JSON")
      case Some(parsed) => Collapse(env, parsed)
  }

  class ResponsesJsonToChat {
    const env: Env
    const decode: seq<Byte> -> string
    var wireModel: Option<string>
    var failed: bool
    var chunks: seq<seq<Byte>>
    var bytes: nat
    var over: bool
    var done: bool
    /** Every byte fed before finish. */
    ghost var body: seq<Byte>

    ghost predicate Valid()
      reads this
    {
      !done ==>
        if over then |body| > MAX_JSON_BODY_BYTES && chunks == []
        else body == Concat(chunks) && bytes == |body| <= MAX_JSON_BODY_BYTES
    }

    /** What is retained never exceeds the cap, whatever is fed. */
    lemma Bounded()
      requires Valid() && !done
      ensures |Concat(chunks)| <= 4_194_304
    {
    }

    constructor (env: Env, decode: seq<Byte> -> string)
      ensures Valid() && body == [] && !done && !failed && this.env == env && this.decode == decode
    {
      this.env, this.decode := env, decode;
      wireModel, failed, chunks, bytes, over, done, body := None, false, [], 0, false, false, [];
    }

    /** The model a body that was kept and parsed names. */
    function ModelEcho(whole: seq<Byte>): Option<string> {
      if |whole| > MAX_JSON_BODY_BYTES || env.js.parse(decode(whole)).None? then None
      else AsModel(Get(env.js.parse(decode(whole)).value, "model"))
    }

    method Feed(chunk: seq<Byte>)
      requires Valid()
      modifies this
      ensures Valid() && done == old(done) && failed == old(failed)
      ensures body == if old(done) then old(body) else old(body) + chunk
    {
      if done { return; }
      body := body + chunk;
      if over { return; }
      bytes := bytes + |chunk|;
      if bytes > MAX_JSON_BODY_BYTES {
        over := true;
        chunks := [];
        return;
      }
      ConcatAppend(chunks, [chunk]);
      chunks := chunks + [chunk];
    }

    /** However the body was cut, the answer is the answer to the whole body; once, and once only. */
    method Finish() returns (out: Option<Completion>)
      requires Valid()
      modifies this
      ensures Valid() && done
      ensures out == if old(done) then None else Some(BodyAnswer(env, decode, old(body)))
      ensures failed == if out.Some? then old(failed) || out.value.Refused? else old(failed)
      ensures wireModel == if out.Some? && ModelEcho(old(body)).Some? then ModelEcho(old(body)) else old(wireModel)
    {
      if done { return None; }
      done := true;
      var answer: Completion;
      if over {
        answer := Refused("upstream response body over the size cap");
      } else {
        var parsed := env.js.parse(decode(Concat(chunks)));
        if parsed.None? {
          answer := Refused("upstream response body was not JSON");
        } else {
          answer := ResponsesJsonToChatCompletion(env, parsed.value);
          if Get(parsed.value, "model").Str? { wireModel := Some(Get(parsed.value, "model").s); }
        }
      }
      if answer.Refused? { failed := true; }
      chunks := [];
      return Some(answer);
    }
  }
}
