/** `MessagesToChatSse`: Anthropic Messages events in, chat-completions frames out. */
module AnthropicStream {
  import opened Js
  import opened Decoding
  import opened ChatFrames
  import opened SseFraming

  /** Additive usage: the input count excludes both cache buckets. */
  datatype Usage = Usage(input: real, output: real, cacheRead: Option<real>, cacheCreation: Option<real>)

  type ChatFrame = Frame<Usage>

  datatype Env = Env(js: Builtins, model: string)

  datatype Event =
    | MessageStart(model: Option<string>, usage: Usage)
    | ToolStart(block: Json, id: string, name: Json)
    | TextDelta(text: string)
    | ArgsDelta(block: Json, partial: string)
    | MessageDelta(model: Option<string>, stopReason: Option<string>, output: Option<real>)
    | MessageStop
    | Failure(message: string)
    | Ignored

  function AsString(v: Json): Option<string> {
    if v.Str? then Some(v.s) else None
  }

  function StartUsage(js: Builtins, usage: Json): Usage {
    var read, creation := Get(usage, "cache_read_input_tokens"), Get(usage, "cache_creation_input_tokens");
    Usage(js.number(OrElse(Get(usage, "input_tokens"), Num(0.0))),
          js.number(OrElse(Get(usage, "output_tokens"), Num(0.0))),
          if read != Undefined then Some(js.number(read)) else None,
          if creation != Undefined then Some(js.number(creation)) else None)
  }

  function Classify(js: Builtins, e: Json): Event {
    var t := Get(e, "type");
    if t == Str("message_start") then
      MessageStart(AsString(Get(Get(e, "message"), "model")), StartUsage(js, Get(Get(e, "message"), "usage")))
    else if t == Str("content_block_start") then
      var block := Get(e, "content_block");
      if Get(block, "type") != Str("tool_use") then Ignored
      else ToolStart(Get(e, "index"), js.text(OrElse(Get(block, "id"), Str(""))), OrElse(Get(block, "name"), Str("")))
    else if t == Str("content_block_delta") then
      var delta := Get(e, "delta");
      if Get(delta, "type") == Str("text_delta") then
        if StringOrEmpty(Get(delta, "text")) != "" then TextDelta(Get(delta, "text").s) else Ignored
      else if Get(delta, "type") == Str("input_json_delta") && Get(delta, "partial_json").Str? then
        ArgsDelta(Get(e, "index"), Get(delta, "partial_json").s)
      else Ignored
    else if t == Str("message_delta") then
      var output := Get(Get(e, "usage"), "output_tokens");
      MessageDelta(AsString(Get(Get(e, "message"), "model")), AsString(Get(Get(e, "delta"), "stop_reason")),
                   if output.Num? then Some(output.n) else None)
    else if t == Str("message_stop") then MessageStop
    else if t == Str("error") then
      var error := Get(e, "error");
      Failure("anthropic " + js.text(OrTruthy(Get(error, "message"), OrTruthy(Get(error, "type"), Str("stream error")))))
    else Ignored
  }

  function EventOf(js: Builtins, data: string): Event {
    match js.parse(data)
    case None => Failure("anthropic stream frame was not JSON")
    case Some(e) => Classify(js, e)
  }

  function FinishFor(stopReason: string): string {
    if stopReason == "max_tokens" then "length"
    else if stopReason == "tool_use" then "tool_calls"
    else "stop"
  }

  datatype State = State(
    wireModel: Option<string>,
    terminalModel: Option<string>,
    toolIndexByBlock: map<Json, nat>,
    toolCount: nat,
    usage: Usage,
    finishReason: Option<string>,
    completed: bool,
    doneEmitted: bool,
    fatal: bool)

  const INITIAL := State(None, None, map[], 0, Usage(0.0, 0.0, None, None), None, false, false, false)

  function FinishChunk(st: State): ChatFrame {
    Chunk(NoDelta, Some(if st.finishReason.Some? then st.finishReason.value else "stop"))
  }

  function UsageReport(env: Env, st: State): ChatFrame {
    UsageFrame(if st.wireModel.Some? then st.wireModel.value else env.model, st.usage)
  }

  /** What one event does to the state, and the frames it emits. */
  function Step(env: Env, st: State, event: Event): (State, seq<ChatFrame>) {
    match event
    case MessageStart(model, usage) =>
      (st.(usage := usage, wireModel := if model.Some? then model else st.wireModel), [Chunk(Role, None)])
    case ToolStart(block, id, name) =>
      (st.(toolCount := st.toolCount + 1, toolIndexByBlock := SetKey(st.toolIndexByBlock, block, st.toolCount)),
       [Chunk(Announce(st.toolCount, id, name), None)])
    case TextDelta(text) => (st, [Chunk(Content(text), None)])
    case ArgsDelta(block, partial) =>
      (st, if block in st.toolIndexByBlock then [Chunk(Fragment(st.toolIndexByBlock[block], partial), None)] else [])
    case MessageDelta(model, stopReason, output) =>
      (st.(terminalModel := if model.Some? then model else st.terminalModel,
           finishReason := if stopReason.Some? then Some(FinishFor(stopReason.value)) else st.finishReason,
           usage := if output.Some? then st.usage.(output := output.value) else st.usage), [])
    case MessageStop =>
      (st.(completed := true, doneEmitted := true), [FinishChunk(st)] + [UsageReport(env, st)] + [Done])
    case Failure(message) => (st.(fatal := true), [Error(message)])
    case Ignored => (st, [])
  }

  predicate Silent(st: State) {
    st.fatal || st.doneEmitted
  }

  function Cut(st: State): (State, seq<ChatFrame>) {
    (st.(fatal := true), [Error("anthropic stream ended unexpectedly")])
  }

  function Translator(env: Env): Handler<State, ChatFrame> {
    Handler((st: State, data: string) => Step(env, st, EventOf(env.js, data)),
            (st: State) => Silent(st),
            (st: State) => Cut(st))
  }

  function Start(): Framing<State> {
    Framing(0, "", Core([], INITIAL))
  }

  class MessagesToChatSse {
    const env: Env
    const decoder: Decoder
    var decoderState: nat
    var wireModel: Option<string>
    var terminalModel: Option<string>
    var buffer: string
    var eventData: seq<string>
    var toolIndexByBlock: map<Json, nat>
    var toolCount: nat
    var usage: Usage
    var finishReason: Option<string>
    var completed: bool
    var doneEmitted: bool
    var fatal: bool

    constructor (env: Env, decoder: Decoder)
      ensures View() == Start() && this.env == env && this.decoder == decoder
    {
      this.env, this.decoder, decoderState := env, decoder, 0;
      wireModel, terminalModel, buffer, eventData := None, None, "", [];
      toolIndexByBlock, toolCount := map[], 0;
      usage, finishReason := Usage(0.0, 0.0, None, None), None;
      completed, doneEmitted, fatal := false, false, false;
    }

    function Inner(): State
      reads this
    {
      State(wireModel, terminalModel, toolIndexByBlock, toolCount, usage, finishReason, completed, doneEmitted, fatal)
    }

    function View(): Framing<State>
      reads this
    {
      Framing(decoderState, buffer, Core(eventData, Inner()))
    }

    method OnEvent(event: Event) returns (out: seq<ChatFrame>)
      modifies this
      ensures (Inner(), out) == Step(env, old(Inner()), event)
      ensures unchanged(`buffer, `eventData, `decoderState)
    {
      match event {
        case MessageStart(model, counts) =>
          if model.Some? { wireModel := model; }
          usage := counts;
          return [Chunk(Role, None)];
        case ToolStart(block, id, name) =>
          var index := toolCount;
          toolCount := toolCount + 1;
          toolIndexByBlock := SetKey(toolIndexByBlock, block, index);
          return [Chunk(Announce(index, id, name), None)];
        case TextDelta(text) =>
          return [Chunk(Content(text), None)];
        case ArgsDelta(block, partial) =>
          if block !in toolIndexByBlock { return []; }
          return [Chunk(Fragment(toolIndexByBlock[block], partial), None)];
        case MessageDelta(model, stopReason, output) =>
          if model.Some? { terminalModel := model; }
          if stopReason.Some? { finishReason := Some(FinishFor(stopReason.value)); }
          if output.Some? { usage := usage.(output := output.value); }
          return [];
        case MessageStop =>
          completed := true;
          out := [Chunk(NoDelta, Some(if finishReason.Some? then finishReason.value else "stop"))];
          out := out + [UsageFrame(if wireModel.Some? then wireModel.value else env.model, usage)];
          doneEmitted := true;
          out := out + [Done];
        case Failure(message) =>
          fatal := true;
          return [Error(message)];
        case Ignored =>
          return [];
      }
    }

    method Dispatch(data: string) returns (out: seq<ChatFrame>)
      modifies this
      ensures (Inner(), out) == Step(env, old(Inner()), EventOf(env.js, data))
      ensures unchanged(`buffer, `eventData, `decoderState)
    {
      var parsed := env.js.parse(data);
      if parsed.None? {
        fatal := true;
        return [Error("anthropic stream frame was not JSON")];
      }
      out := OnEvent(Classify(env.js, parsed.value));
    }

    /** The first line of the buffer: a blank one dispatches, a `data:` one accumulates. */
    method TakeLine(idx: nat) returns (out: seq<ChatFrame>)
      requires idx < |buffer|
      modifies this
      ensures (Core(eventData, Inner()), out) ==
              Line(Translator(env), old(Core(eventData, Inner())), StripCr(old(buffer)[..idx]))
      ensures buffer == old(buffer)[idx + 1..] && unchanged(`decoderState)
    {
      var line := StripCr(buffer[..idx]);
      buffer := buffer[idx + 1..];
      out := [];
      if line == "" {
        if |eventData| > 0 {
          out := Dispatch(Join(eventData, "\n"));
          eventData := [];
        }
      } else if "data:" <= line {
        eventData := eventData + [TrimStart(line[5..])];
      }
    }

    /** Take the first line; the run on the whole buffer goes on from what is left of it. */
    method TakeTurn(idx: nat, ghost sofar: seq<ChatFrame>) returns (out: seq<ChatFrame>)
      requires idx == IndexOf(buffer, '\n') < |buffer|
      modifies this
      ensures old(Resume(Pump(Translator(env), Core(eventData, Inner()), buffer), sofar)) ==
              if Silent(Inner()) then Pumped(Core(eventData, Inner()), buffer, sofar + out)
              else Resume(Pump(Translator(env), Core(eventData, Inner()), buffer), sofar + out)
      ensures |buffer| < |old(buffer)| && unchanged(`decoderState)
    {
      ghost var core, text := Core(eventData, Inner()), buffer;
      out := TakeLine(idx);
      PumpTurn(Translator(env), core, text, buffer, sofar, Core(eventData, Inner()), out);
    }

    /** Take every complete line in the buffer, until the ending. */
    method Drain() returns (out: seq<ChatFrame>)
      requires !Silent(Inner())
      modifies this
      ensures Pumped(Core(eventData, Inner()), buffer, out) == old(Pump(Translator(env), Core(eventData, Inner()), buffer))
      ensures unchanged(`decoderState)
    {
      out := [];
      ghost var whole := Resume(Pump(Translator(env), Core(eventData, Inner()), buffer), []);
      while true
        invariant !Silent(Inner()) && decoderState == old(decoderState)
        invariant whole == Resume(Pump(Translator(env), Core(eventData, Inner()), buffer), out)
        decreases |buffer|
      {
        var idx := IndexOf(buffer, '\n');
        if idx == |buffer| {
          PumpOver(Translator(env), Core(eventData, Inner()), buffer, out);
          break;
        }
        var emitted := TakeTurn(idx, out);
        out := out + emitted;
        if fatal || doneEmitted { break; }
      }
      ConcatNothing(old(Pump(Translator(env), Core(eventData, Inner()), buffer).out));
    }

    method Feed(chunk: seq<Byte>) returns (out: seq<ChatFrame>)
      modifies this
      ensures (View(), out) == SseFraming.Feed(Translator(env), decoder, old(View()), chunk)
    {
      if fatal || doneEmitted { return []; }
      var (next, text) := Decode(decoder, decoderState, chunk);
      decoderState := next;
      buffer := buffer + text;
      out := Drain();
    }

    method Finish() returns (out: seq<ChatFrame>)
      modifies this`fatal
      ensures (Inner(), out) == SseFraming.Finish(Translator(env), old(Inner()))
    {
      if fatal || doneEmitted { return []; }
      fatal := true;
      return [Error("anthropic stream ended unexpectedly")];
    }
  }

  // ---------------------------------------------------------------- every stream, every split

  lemma {:induction false} TranslatorIsLawful(env: Env)
    ensures Lawful(Translator(env), f => IsEnding(f))
  {
    var h, isEnding := Translator(env), (f: ChatFrame) => IsEnding(f);
    forall st, data | !h.silent(st)
      ensures Kept(isEnding, h.silent(h.dispatch(st, data).0), h.dispatch(st, data).1)
    {
      StepEnds(env, st, EventOf(env.js, data));
    }
  }

  lemma {:induction false} StepEnds(env: Env, st: State, event: Event)
    requires !Silent(st)
    ensures Kept((f: ChatFrame) => IsEnding(f), Silent(Step(env, st, event).0), Step(env, st, event).1)
  {
    if event.MessageStop? {
      var isEnding := (f: ChatFrame) => IsEnding(f);
      EndingsAppend(isEnding, [FinishChunk(st)], [UsageReport(env, st)]);
      KeptAppend(isEnding, true, [FinishChunk(st)] + [UsageReport(env, st)], [Done]);
    }
  }

  /** For every stream and every split the client gets one terminal frame, with nothing behind it. */
  lemma {:induction false} StreamEndsOnce(env: Env, decoder: Decoder, chunks: seq<seq<Byte>>)
    ensures EndsOnce((f: ChatFrame) => IsEnding(f), Transcript(Translator(env), decoder, Start(), chunks))
  {
    TranslatorIsLawful(env);
    OneEnding(Translator(env), (f: ChatFrame) => IsEnding(f), decoder, Start(), chunks);
  }
}
