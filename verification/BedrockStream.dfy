/** `ResponsesToChatSse`: OpenAI Responses events in, chat-completions frames out. */
module BedrockStream {
  import opened Js
  import opened Decoding
  import opened ChatFrames
  import opened SseFraming

  datatype Usage = Usage(
    prompt: real, completion: real, total: real, cached: real, cacheWrite: real, reasoning: Option<real>)

  type ChatFrame = Frame<Usage>

  datatype Env = Env(js: Builtins, model: string)

  /** A Responses event, as far as the translator reads it. */
  datatype Event =
    | Created(model: Option<string>)
    | Added(key: Json, id: string, name: Json)
    | ArgsDelta(itemId: Json, outputIndex: Json, delta: string)
    | ArgsDone(itemId: Json, outputIndex: Json, full: string)
    | ItemDone(key: Json, full: string)
    | TextDelta(text: string)
    | Terminal(incomplete: bool, response: Json)
    | Failure(message: string)
    | Ignored

  predicate IsFunctionCall(item: Json) {
    Get(item, "type") == Str("function_call")
  }

  function AsModel(v: Json): Option<string> {
    if v.Str? then Some(v.s) else None
  }

  function Classify(js: Builtins, e: Json): Event {
    var t := Get(e, "type");
    if t == Str("response.created") then Created(AsModel(Get(Get(e, "response"), "model")))
    else if t == Str("response.output_item.added") then
      var item := Get(e, "item");
      if !IsFunctionCall(item) then Ignored
      else Added(OrElse(Get(item, "id"), Get(e, "output_index")), CallId(js, item), OrElse(Get(item, "name"), Str("")))
    else if t == Str("response.function_call_arguments.delta") then
      if Get(e, "delta").Str? then ArgsDelta(Get(e, "item_id"), Get(e, "output_index"), Get(e, "delta").s) else Ignored
    else if t == Str("response.function_call_arguments.done") then
      if Get(e, "arguments").Str? then ArgsDone(Get(e, "item_id"), Get(e, "output_index"), Get(e, "arguments").s) else Ignored
    else if t == Str("response.output_item.done") then
      var item := Get(e, "item");
      if !IsFunctionCall(item) || !Get(item, "arguments").Str? then Ignored
      else ItemDone(OrElse(Get(item, "id"), Get(e, "output_index")), Get(item, "arguments").s)
    else if t == Str("response.output_text.delta") then
      if Get(e, "delta").Str? && Get(e, "delta").s != "" then TextDelta(Get(e, "delta").s) else Ignored
    else if t == Str("response.completed") then Terminal(false, OrElse(Get(e, "response"), Obj(map[])))
    else if t == Str("response.incomplete") then Terminal(true, OrElse(Get(e, "response"), Obj(map[])))
    else if t == Str("response.failed") then
      Failure("bedrock " + js.text(OrTruthy(Get(Get(Get(e, "response"), "error"), "message"),
                                            Str("bedrock response.failed with no detail"))))
    else if t == Str("error") then
      Failure("bedrock " + js.text(OrTruthy(Get(e, "message"), OrTruthy(Get(e, "code"), Str("stream error")))))
    else Ignored
  }

  /** `String(item.call_id ?? item.id ?? '')` */
  function CallId(js: Builtins, item: Json): string {
    js.text(OrElse(Get(item, "call_id"), OrElse(Get(item, "id"), Str(""))))
  }

  function EventOf(js: Builtins, data: string): Event {
    if data == "[DONE]" then Ignored
    else
      match js.parse(data)
      case None => Failure("bedrock stream frame was not JSON")
      case Some(e) => Classify(js, e)
  }

  datatype State = State(
    wireModel: Option<string>,
    terminalModel: Option<string>,
    toolIndexByItem: map<Json, nat>,
    argsSentByIndex: map<nat, string>,
    toolCount: nat,
    sawToolCall: bool,
    completed: bool,
    doneEmitted: bool,
    fatal: bool)

  const INITIAL := State(None, None, map[], map[], 0, false, false, false, false)

  function GetKey(m: map<Json, nat>, key: Json): Option<nat> {
    if key in m then Some(m[key]) else None
  }

  /** `get(event.item_id) ?? get(event.output_index)` */
  function Lookup(m: map<Json, nat>, itemId: Json, outputIndex: Json): Option<nat> {
    if GetKey(m, itemId).Some? then GetKey(m, itemId) else GetKey(m, outputIndex)
  }

  function Sent(st: State, index: nat): string {
    if index in st.argsSentByIndex then st.argsSentByIndex[index] else ""
  }

  function SuffixOf(st: State, index: nat, full: string): (State, seq<ChatFrame>) {
    var sent := Sent(st, index);
    if |full| <= |sent| || !(sent <= full) then (st, [])
    else (st.(argsSentByIndex := st.argsSentByIndex[index := full]), [Chunk(Fragment(index, full[|sent|..]), None)])
  }

  function FinishReason(st: State, incomplete: bool, response: Json): string {
    if incomplete && Get(Get(response, "incomplete_details"), "reason") == Str("max_output_tokens") then "length"
    else if st.sawToolCall then "tool_calls"
    else "stop"
  }

  function UsageOf(js: Builtins, usage: Json): Usage {
    var count := (v: Json) => js.number(OrElse(v, Num(0.0)));
    var prompt, completion := count(Get(usage, "input_tokens")), count(Get(usage, "output_tokens"));
    var reasoning := Get(Get(usage, "output_tokens_details"), "reasoning_tokens");
    Usage(prompt, completion, prompt + completion,
          count(Get(Get(usage, "input_tokens_details"), "cached_tokens")),
          count(Get(Get(usage, "input_tokens_details"), "cache_write_tokens")),
          if reasoning != Undefined then Some(count(reasoning)) else None)
  }

  /** The model a usage frame names: the response's own, else the one announced, else the one asked for. */
  function FrameModel(env: Env, wire: Option<string>, response: Json): string {
    if Get(response, "model").Str? then Get(response, "model").s
    else if wire.Some? then wire.value else env.model
  }

  function UsageFrames(env: Env, st: State, response: Json): seq<ChatFrame> {
    var usage := Get(response, "usage");
    if !Truthy(usage) then [] else [UsageFrame(FrameModel(env, st.wireModel, response), UsageOf(env.js, usage))]
  }

  function EndFrames(env: Env, st: State, incomplete: bool, response: Json): seq<ChatFrame> {
    [Chunk(NoDelta, Some(FinishReason(st, incomplete, response)))] + UsageFrames(env, st, response) + [Done]
  }

  /** More of a call's arguments, for a call that was announced. */
  function Grow(st: State, index: Option<nat>, delta: string): (State, seq<ChatFrame>) {
    if index.None? then (st, [])
    else (st.(argsSentByIndex := st.argsSentByIndex[index.value := Sent(st, index.value) + delta]),
          [Chunk(Fragment(index.value, delta), None)])
  }

  /** All of a call's arguments, for a call that was announced. */
  function Complete(st: State, index: Option<nat>, full: string): (State, seq<ChatFrame>) {
    if index.None? then (st, []) else SuffixOf(st, index.value, full)
  }

  /** What one event does to the state, and the frames it emits. */
  function Step(env: Env, st: State, event: Event): (State, seq<ChatFrame>) {
    match event
    case Created(model) =>
      (if model.Some? then st.(wireModel := model) else st, [Chunk(Role, None)])
    case Added(key, id, name) =>
      (st.(
         sawToolCall := true, toolCount := st.toolCount + 1,
         toolIndexByItem := SetKey(st.toolIndexByItem, key, st.toolCount)),
       [Chunk(Announce(st.toolCount, id, name), None)])
    case ArgsDelta(itemId, outputIndex, delta) =>
      Grow(st, Lookup(st.toolIndexByItem, itemId, outputIndex), delta)
    case ArgsDone(itemId, outputIndex, full) =>
      Complete(st, Lookup(st.toolIndexByItem, itemId, outputIndex), full)
    case ItemDone(key, full) => Complete(st, GetKey(st.toolIndexByItem, key), full)
    case TextDelta(text) => (st, [Chunk(Content(text), None)])
    case Terminal(incomplete, response) =>
      var model := AsModel(Get(response, "model"));
      (st.(completed := true, doneEmitted := true, terminalModel := if model.Some? then model else st.terminalModel),
       EndFrames(env, st, incomplete, response))
    case Failure(message) => (st.(fatal := true), [Error(message)])
    case Ignored => (st, [])
  }

  predicate Silent(st: State) {
    st.fatal || st.doneEmitted
  }

  function Cut(st: State): (State, seq<ChatFrame>) {
    (st.(fatal := true), [Error("bedrock stream ended unexpectedly")])
  }

  function Translator(env: Env): Handler<State, ChatFrame> {
    Handler((st: State, data: string) => Step(env, st, EventOf(env.js, data)),
            (st: State) => Silent(st),
            (st: State) => Cut(st))
  }

  function Start(): Framing<State> {
    Framing(0, "", Core([], INITIAL))
  }

  class ResponsesToChatSse {
    const env: Env
    const decoder: Decoder
    var decoderState: nat
    var wireModel: Option<string>
    var terminalModel: Option<string>
    var buffer: string
    var eventData: seq<string>
    var toolIndexByItem: map<Json, nat>
    var argsSentByIndex: map<nat, string>
    var toolCount: nat
    var sawToolCall: bool
    var completed: bool
    var doneEmitted: bool
    var fatal: bool

    constructor (env: Env, decoder: Decoder)
      ensures View() == Start() && this.env == env && this.decoder == decoder
    {
      this.env, this.decoder, decoderState := env, decoder, 0;
      wireModel, terminalModel := None, None;
      buffer, eventData := "", [];
      toolIndexByItem, argsSentByIndex, toolCount := map[], map[], 0;
      sawToolCall, completed, doneEmitted, fatal := false, false, false, false;
    }

    function Inner(): State
      reads this
    {
      State(wireModel, terminalModel, toolIndexByItem, argsSentByIndex, toolCount, sawToolCall, completed, doneEmitted, fatal)
    }

    function View(): Framing<State>
      reads this
    {
      Framing(decoderState, buffer, Core(eventData, Inner()))
    }

    method EmitArgsSuffix(index: nat, full: string) returns (out: seq<ChatFrame>)
      modifies this`argsSentByIndex
      ensures (Inner(), out) == SuffixOf(old(Inner()), index, full)
    {
      var sent := if index in argsSentByIndex then argsSentByIndex[index] else "";
      if |full| <= |sent| || !(sent <= full) { return []; }
      argsSentByIndex := argsSentByIndex[index := full];
      return [Chunk(Fragment(index, full[|sent|..]), None)];
    }

    /** The frames of the ending: the finish chunk, usage when reported, and `[DONE]`. */
    method Complete(incomplete: bool, response: Json) returns (out: seq<ChatFrame>)
      modifies this`completed, this`terminalModel, this`doneEmitted
      ensures (Inner(), out) == Step(env, old(Inner()), Terminal(incomplete, response))
    {
      completed := true;
      out := [Chunk(NoDelta, Some(FinishReason(Inner(), incomplete, response)))];
      if Get(response, "model").Str? { terminalModel := Some(Get(response, "model").s); }
      out := out + UsageFrames(env, Inner(), response);
      doneEmitted := true;
      out := out + [Done];
    }

    method OnEvent(event: Event) returns (out: seq<ChatFrame>)
      modifies this
      ensures (Inner(), out) == Step(env, old(Inner()), event)
      ensures unchanged(`buffer, `eventData, `decoderState)
    {
      match event {
        case Created(model) =>
          if model.Some? { wireModel := model; }
          return [Chunk(Role, None)];
        case Added(key, id, name) =>
          sawToolCall := true;
          var index := toolCount;
          toolCount := toolCount + 1;
          toolIndexByItem := SetKey(toolIndexByItem, key, index);
          return [Chunk(Announce(index, id, name), None)];
        case ArgsDelta(itemId, outputIndex, delta) =>
          var index := Lookup(toolIndexByItem, itemId, outputIndex);
          if index.None? { return []; }
          var sent := if index.value in argsSentByIndex then argsSentByIndex[index.value] else "";
          argsSentByIndex := argsSentByIndex[index.value := sent + delta];
          return [Chunk(Fragment(index.value, delta), None)];
        case ArgsDone(itemId, outputIndex, full) =>
          var index := Lookup(toolIndexByItem, itemId, outputIndex);
          if index.None? { return []; }
          out := EmitArgsSuffix(index.value, full);
        case ItemDone(key, full) =>
          var index := GetKey(toolIndexByItem, key);
          if index.None? { return []; }
          out := EmitArgsSuffix(index.value, full);
        case TextDelta(text) =>
          return [Chunk(Content(text), None)];
        case Terminal(incomplete, response) =>
          out := Complete(incomplete, response);
        case Failure(message) =>
          fatal := true;
          return [Error(message)];
        case Ignored =>
          return [];
      }
    }

    method Dispatch(data: string) returns (out: seq<ChatFrame>)
      modifies this
      ensures (Inner(), out) == Step(env, old(Inner()), EventOf(env.js, data))
      ensures unchanged(`buffer, `eventData, `decoderState)
    {
      if data == "[DONE]" { return []; }
      var parsed := env.js.parse(data);
      if parsed.None? {
        fatal := true;
        return [Error("bedrock stream frame was not JSON")];
      }
      out := OnEvent(Classify(env.js, parsed.value));
    }

    /** The first line of the buffer: a blank one dispatches, a `data:` one accumulates. */
    method TakeLine(idx: nat) returns (out: seq<ChatFrame>)
      requires idx < |buffer|
      modifies this
      ensures (Core(eventData, Inner()), out) ==
              Line(Translator(env), old(Core(eventData, Inner())), StripCr(old(buffer)[..idx]))
      ensures buffer == old(buffer)[idx + 1..] && unchanged(`decoderState)
    {
      var line := StripCr(buffer[..idx]);
      buffer := buffer[idx + 1..];
      out := [];
      if line == "" {
        if |eventData| > 0 {
          out := Dispatch(Join(eventData, "\n"));
          eventData := [];
        }
      } else if "data:" <= line {
        eventData := eventData + [TrimStart(line[5..])];
      }
    }

    /** Take the first line; the run on the whole buffer goes on from what is left of it. */
    method TakeTurn(idx: nat, ghost sofar: seq<ChatFrame>) returns (out: seq<ChatFrame>)
      requires idx == IndexOf(buffer, '\n') < |buffer|
      modifies this
      ensures old(Resume(Pump(Translator(env), Core(eventData, Inner()), buffer), sofar)) ==
              if Silent(Inner()) then Pumped(Core(eventData, Inner()), buffer, sofar + out)
              else Resume(Pump(Translator(env), Core(eventData, Inner()), buffer), sofar + out)
      ensures |buffer| < |old(buffer)| && unchanged(`decoderState)
    {
      ghost var core, text := Core(eventData, Inner()), buffer;
      out := TakeLine(idx);
      PumpTurn(Translator(env), core, text, buffer, sofar, Core(eventData, Inner()), out);
    }

    /** Take every complete line in the buffer, until the ending. */
    method Drain() returns (out: seq<ChatFrame>)
      requires !Silent(Inner())
      modifies this
      ensures Pumped(Core(eventData, Inner()), buffer, out) == old(Pump(Translator(env), Core(eventData, Inner()), buffer))
      ensures unchanged(`decoderState)
    {
      out := [];
      ghost var whole := Resume(Pump(Translator(env), Core(eventData, Inner()), buffer), []);
      while true
        invariant !Silent(Inner()) && decoderState == old(decoderState)
        invariant whole == Resume(Pump(Translator(env), Core(eventData, Inner()), buffer), out)
        decreases |buffer|
      {
        var idx := IndexOf(buffer, '\n');
        if idx == |buffer| {
          PumpOver(Translator(env), Core(eventData, Inner()), buffer, out);
          break;
        }
        var emitted := TakeTurn(idx, out);
        out := out + emitted;
        if fatal || doneEmitted { break; }
      }
      ConcatNothing(old(Pump(Translator(env), Core(eventData, Inner()), buffer).out));
    }

    method Feed(chunk: seq<Byte>) returns (out: seq<ChatFrame>)
      modifies this
      ensures (View(), out) == SseFraming.Feed(Translator(env), decoder, old(View()), chunk)
    {
      if fatal || doneEmitted { return []; }
      var (next, text) := Decode(decoder, decoderState, chunk);
      decoderState := next;
      buffer := buffer + text;
      out := Drain();
    }

    method Finish() returns (out: seq<ChatFrame>)
      modifies this`fatal
      ensures (Inner(), out) == SseFraming.Finish(Translator(env), old(Inner()))
    {
      if fatal || doneEmitted { return []; }
      fatal := true;
      return [Error("bedrock stream ended unexpectedly")];
    }
  }

  // ---------------------------------------------------------------- every stream, every split

  lemma {:induction false} TranslatorIsLawful(env: Env)
    ensures Lawful(Translator(env), f => IsEnding(f))
  {
    var h, isEnding := Translator(env), (f: ChatFrame) => IsEnding(f);
    forall st, data | !h.silent(st)
      ensures Kept(isEnding, h.silent(h.dispatch(st, data).0), h.dispatch(st, data).1)
    {
      var event := EventOf(env.js, data);
      StepEnds(env, st, event);
      var out: seq<ChatFrame> := Step(env, st, event).1;
      assert h.dispatch(st, data) == Step(env, st, event);
    }
  }

  lemma {:induction false} StepEnds(env: Env, st: State, event: Event)
    requires !Silent(st)
    ensures Kept((f: ChatFrame) => IsEnding(f), Silent(Step(env, st, event).0), Step(env, st, event).1)
  {
    if event.Terminal? { EndsKept(env, st, event.incomplete, event.response); }
  }

  lemma {:induction false} EndsKept(env: Env, st: State, incomplete: bool, response: Json)
    ensures Kept((f: ChatFrame) => IsEnding(f), true, EndFrames(env, st, incomplete, response))
  {
    var isEnding := (f: ChatFrame) => IsEnding(f);
    var finish: ChatFrame := Chunk(NoDelta, Some(FinishReason(st, incomplete, response)));
    var usage := UsageFrames(env, st, response);
    assert Endings(isEnding, [finish]) == 0;
    assert Endings(isEnding, usage) == 0;
    EndingsAppend(isEnding, [finish], usage);
    KeptAppend(isEnding, true, [finish] + usage, [Done]);
  }

  /** For every stream and every split the client gets one terminal frame, with nothing behind it. */
  lemma {:induction false} StreamEndsOnce(env: Env, decoder: Decoder, chunks: seq<seq<Byte>>)
    ensures EndsOnce((f: ChatFrame) => IsEnding(f), Transcript(Translator(env), decoder, Start(), chunks))
  {
    TranslatorIsLawful(env);
    OneEnding(Translator(env), (f: ChatFrame) => IsEnding(f), decoder, Start(), chunks);
  }
}
