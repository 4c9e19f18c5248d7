/** `FirstTokenDetector`: the first streamed line that carries generated output. */
module FirstToken {
  import opened Js
  import opened Decoding
  import L = BoundedLines

  datatype Kind = Content | Reasoning | ToolCall

  predicate NonEmptyString(v: Json) {
    v.Str? && v.s != ""
  }

  predicate Announces(call: Json) {
    var fn := Get(call, "function");
    NonEmptyString(Get(fn, "name")) || NonEmptyString(Get(fn, "arguments"))
  }

  predicate AnnouncesToolCall(delta: Json) {
    var calls := Get(delta, "tool_calls");
    calls.Arr? && exists i :: 0 <= i < |calls.items| && Announces(calls.items[i])
  }

  /** The text a choice's delta carries: content before reasoning. */
  function TextKind(choice: Json): Option<Kind> {
    var delta := Get(choice, "delta");
    if NonEmptyString(Get(delta, "content")) then Some(Content)
    else if NonEmptyString(Get(delta, "reasoning")) || NonEmptyString(Get(delta, "reasoning_content")) then Some(Reasoning)
    else None
  }

  // ---------------------------------------------------------------- what a frame carries, by its members

  predicate Full(v: Json) {
    v.Str? && |v.s| > 0
  }

  /** The text of a choice: its content, or its reasoning under either name where it has no content. */
  predicate Says(choice: Json, kind: Kind) {
    var delta := Get(choice, "delta");
    match kind
    case Content => Full(Get(delta, "content"))
    case Reasoning =>
      !Full(Get(delta, "content")) && (Full(Get(delta, "reasoning")) || Full(Get(delta, "reasoning_content")))
    case ToolCall => false
  }

  /** A tool call with a name or with arguments. */
  predicate CallsTool(choice: Json) {
    var calls := Get(Get(choice, "delta"), "tool_calls");
    calls.Arr? && exists i :: 0 <= i < |calls.items| && IsCall(calls.items[i])
  }

  predicate IsCall(call: Json) {
    Full(Get(Get(call, "function"), "name")) || Full(Get(Get(call, "function"), "arguments"))
  }

  predicate NoText(choices: seq<Json>) {
    forall i :: 0 <= i < |choices| ==> !Says(choices[i], Content) && !Says(choices[i], Reasoning)
  }

  /** What a frame's choices mean: the first that carries text decides; a tool call only where none does. */
  ghost predicate IsChatKind(choices: seq<Json>, kind: Option<Kind>) {
    match kind
    case None => NoText(choices) && forall i :: 0 <= i < |choices| ==> !CallsTool(choices[i])
    case Some(ToolCall) => NoText(choices) && exists i :: 0 <= i < |choices| && CallsTool(choices[i])
    case Some(text) => exists i :: 0 <= i < |choices| && Says(choices[i], text) && NoText(choices[..i])
  }

  /** What an event of the other two dialects carries. */
  predicate EventCarries(frame: Json, kind: Kind) {
    var delta := Get(frame, "delta");
    match kind
    case Content =>
      (Is(frame, "content_block_delta") && Is(delta, "text_delta") && Full(Get(delta, "text"))) ||
      (Is(frame, "response.output_text.delta") && Full(delta))
    case Reasoning =>
      (Is(frame, "content_block_delta") && Is(delta, "thinking_delta") && Full(Get(delta, "thinking"))) ||
      (Is(frame, "response.reasoning_summary_text.delta") && Full(delta))
    case ToolCall =>
      (Is(frame, "content_block_start") && Is(Get(frame, "content_block"), "tool_use")) ||
      (Is(frame, "response.output_item.added") && Is(Get(frame, "item"), "function_call")) ||
      (Is(frame, "response.function_call_arguments.delta") && Full(delta))
  }

  predicate HasChoices(frame: Json) {
    Get(frame, "choices").Arr? && Get(frame, "choices").items != []
  }

  ghost predicate FrameCarries(frame: Json, kind: Option<Kind>) {
    if HasChoices(frame) then IsChatKind(Get(frame, "choices").items, kind)
    else if kind.Some? then EventCarries(frame, kind.value)
    else forall k: Kind :: !EventCarries(frame, k)
  }

  /** What a line carries: only a data line with a JSON object carries anything. */
  ghost predicate LineCarries(js: Builtins, line: string, kind: Option<Kind>) {
    if "data:" <= line && "{" <= Trim(line[5..]) && js.parse(Trim(line[5..])).Some? then
      FrameCarries(js.parse(Trim(line[5..])).value, kind)
    else kind.None?
  }

  lemma {:induction false} TextKindIs(choice: Json)
    ensures TextKind(choice) == Some(Content) <==> Says(choice, Content)
    ensures TextKind(choice) == Some(Reasoning) <==> Says(choice, Reasoning)
    ensures TextKind(choice) != Some(ToolCall)
  {
  }

  lemma {:induction false} AnnouncesIs(choice: Json)
    ensures AnnouncesToolCall(Get(choice, "delta")) <==> CallsTool(choice)
  {
    var calls := Get(Get(choice, "delta"), "tool_calls");
    if calls.Arr? {
      assert forall i :: 0 <= i < |calls.items| ==> (Announces(calls.items[i]) <==> IsCall(calls.items[i]));
    }
  }

  /** What one reading of the choices, in order, comes to. */
  lemma {:induction false} ChatKindIs(choices: seq<Json>, toolCall: bool)
    ensures if toolCall && NoText(choices) then ChatKind(choices, toolCall) == Some(ToolCall)
            else IsChatKind(choices, ChatKind(choices, toolCall))
  {
    if choices != [] {
      var first, rest := choices[0], choices[1..];
      TextKindIs(first);
      AnnouncesIs(first);
      if TextKind(first).Some? {
        assert choices[..0] == [];
      } else {
        ChatKindIs(rest, toolCall || AnnouncesToolCall(Get(first, "delta")));
        ChatKindCons(first, rest, ChatKind(rest, toolCall || AnnouncesToolCall(Get(first, "delta"))));
        assert choices == [first] + rest;
      }
    }
  }

  /** A choice in front that carries no text. */
  lemma {:induction false} ChatKindCons(first: Json, rest: seq<Json>, kind: Option<Kind>)
    requires !Says(first, Content) && !Says(first, Reasoning)
    ensures NoText([first] + rest) <==> NoText(rest)
    ensures IsChatKind(rest, kind) && (kind.None? ==> !CallsTool(first)) ==> IsChatKind([first] + rest, kind)
    ensures NoText(rest) && CallsTool(first) ==> IsChatKind([first] + rest, Some(ToolCall))
  {
    NoTextCons(first, rest);
    CallsCons(first, rest);
    if IsChatKind(rest, kind) && kind.Some? && !kind.value.ToolCall? { TextCons(first, rest, kind.value); }
  }

  lemma {:induction false} NoTextCons(first: Json, rest: seq<Json>)
    requires !Says(first, Content) && !Says(first, Reasoning)
    ensures NoText([first] + rest) <==> NoText(rest)
  {
    var choices := [first] + rest;
    assert forall i :: 0 < i < |choices| ==> choices[i] == rest[i - 1];
    assert forall i :: 0 <= i < |rest| ==> rest[i] == choices[i + 1];
  }

  lemma {:induction false} CallsCons(first: Json, rest: seq<Json>)
    ensures (exists i :: 0 <= i < |[first] + rest| && CallsTool(([first] + rest)[i])) <==>
            CallsTool(first) || exists i :: 0 <= i < |rest| && CallsTool(rest[i])
  {
    var choices := [first] + rest;
    assert choices[0] == first;
    assert forall i :: 0 < i < |choices| ==> choices[i] == rest[i - 1];
    assert forall i :: 0 <= i < |rest| ==> rest[i] == choices[i + 1];
  }

  lemma {:induction false} TextCons(first: Json, rest: seq<Json>, kind: Kind)
    requires !Says(first, Content) && !Says(first, Reasoning) && !kind.ToolCall? && IsChatKind(rest, Some(kind))
    ensures IsChatKind([first] + rest, Some(kind))
  {
    var choices := [first] + rest;
    var i :| 0 <= i < |rest| && Says(rest[i], kind) && NoText(rest[..i]);
    NoTextCons(first, rest[..i]);
    assert choices[..i + 1] == [first] + rest[..i];
    assert choices[i + 1] == rest[i];
  }

  lemma {:induction false} AnthropicKindIs(frame: Json, kind: Kind)
    requires !HasChoices(frame) && Is(frame, "content_block_delta")
    ensures AnthropicKind(frame) == Some(kind) <==> EventCarries(frame, kind)
  {
  }

  lemma {:induction false} EventKindIs(frame: Json, kind: Kind)
    requires !HasChoices(frame)
    ensures FrameKind(frame) == Some(kind) <==> EventCarries(frame, kind)
  {
    var t := Get(frame, "type");
    if t == Str("content_block_delta") { AnthropicKindIs(frame, kind); }
    else if t == Str("content_block_start") { }
    else if t == Str("response.output_text.delta") { }
    else if t == Str("response.reasoning_summary_text.delta") { }
    else if t == Str("response.output_item.added") { }
    else if t == Str("response.function_call_arguments.delta") { }
  }

  lemma {:induction false} FrameKindIs(frame: Json)
    ensures FrameCarries(frame, FrameKind(frame))
  {
    if HasChoices(frame) {
      ChatKindIs(Get(frame, "choices").items, false);
    } else {
      forall k: Kind { EventKindIs(frame, k); }
    }
  }

  /** The kind a line is read to carry it carries. */
  lemma {:induction false} KindIs(js: Builtins, line: string)
    ensures LineCarries(js, line, KindOf(js, line))
  {
    if "data:" <= line {
      var payload := Trim(line[5..]);
      assert "{" <= payload <==> payload != "" && payload[0] == '{';
      assert "[DONE]"[0] != '{';
      if js.parse(payload).Some? { FrameKindIs(js.parse(payload).value); }
    }
  }

  // ---------------------------------------------------------------- what a frame is read to carry

  function ChatKind(choices: seq<Json>, toolCall: bool): Option<Kind> {
    if choices == [] then (if toolCall then Some(ToolCall) else None)
    else if TextKind(choices[0]).Some? then TextKind(choices[0])
    else ChatKind(choices[1..], toolCall || AnnouncesToolCall(Get(choices[0], "delta")))
  }

  method ChatKindOf(choices: seq<Json>) returns (kind: Option<Kind>)
    ensures kind == ChatKind(choices, false)
    ensures IsChatKind(choices, kind)
  {
    ChatKindIs(choices, false);
    var toolCall := false;
    for k := 0 to |choices|
      invariant ChatKind(choices, false) == ChatKind(choices[k..], toolCall)
    {
      var text := TextKind(choices[k]);
      assert choices[k..][1..] == choices[k + 1..];
      if text.Some? { return text; }
      if AnnouncesToolCall(Get(choices[k], "delta")) { toolCall := true; }
    }
    return if toolCall then Some(ToolCall) else None;
  }

  function AnthropicKind(frame: Json): Option<Kind> {
    var d := Get(frame, "delta");
    if Get(d, "type") == Str("text_delta") && NonEmptyString(Get(d, "text")) then Some(Content)
    else if Get(d, "type") == Str("thinking_delta") && NonEmptyString(Get(d, "thinking")) then Some(Reasoning)
    else None
  }

  function Spoken(frame: Json, kind: Kind): Option<Kind> {
    if NonEmptyString(Get(frame, "delta")) then Some(kind) else None
  }

  function FrameKind(frame: Json): Option<Kind> {
    var choices, t := Get(frame, "choices"), Get(frame, "type");
    if choices.Arr? && choices.items != [] then ChatKind(choices.items, false)
    else if t == Str("content_block_start") then
      if Get(Get(frame, "content_block"), "type") == Str("tool_use") then Some(ToolCall) else None
    else if t == Str("content_block_delta") then AnthropicKind(frame)
    else if t == Str("response.output_text.delta") then Spoken(frame, Content)
    else if t == Str("response.reasoning_summary_text.delta") then Spoken(frame, Reasoning)
    else if t == Str("response.output_item.added") then
      if Get(Get(frame, "item"), "type") == Str("function_call") then Some(ToolCall) else None
    else if t == Str("response.function_call_arguments.delta") then Spoken(frame, ToolCall)
    else None
  }

  /** `detectFirstTokenKind` */
  function KindOf(js: Builtins, line: string): Option<Kind> {
    if !("data:" <= line) then None
    else
      var payload := Trim(line[5..]);
      if payload == "" || payload == "[DONE]" || payload[0] != '{' then None
      else
        match js.parse(payload)
        case None => None
        case Some(frame) => FrameKind(frame)
  }

  // ---------------------------------------------------------------- the detector over chunks

  /** What a line, without its terminator, carries. */
  function Detect(js: Builtins): string -> Option<Kind> {
    line => KindOf(js, StripCr(line))
  }

  const MAX_PENDING_CHARS := 1024 * 1024

  datatype State = State(done: bool, pending: string)

  const STOPPED := State(true, "")

  /** What is left of an unfinished line: dropped, and the detector with it, when over-long. */
  function Keep(line: string): State {
    if |line| > MAX_PENDING_CHARS then STOPPED else State(false, line)
  }

  /** What the lines completed by a stretch of text come to: the first kind, or the line left pending. */
  function Search(kindOf: string -> Option<Kind>, pending: string, text: string): (State, Option<Kind>)
    decreases |text|
  {
    var i := IndexOf(text, '\n');
    if i == |text| then (Keep(pending + text), None)
    else
      var kind := kindOf(pending + text[..i]);
      if kind.Some? then (STOPPED, kind) else Search(kindOf, "", text[i + 1..])
  }

  function FeedText(kindOf: string -> Option<Kind>, st: State, text: string): (State, Option<Kind>) {
    if st.done then (st, None) else Search(kindOf, st.pending, text)
  }

  /** The answers of feeding texts one after another. */
  function FeedTexts(kindOf: string -> Option<Kind>, st: State, texts: seq<string>): seq<Option<Kind>>
    decreases |texts|
  {
    if texts == [] then []
    else
      var (next, kind) := FeedText(kindOf, st, texts[0]);
      [kind] + FeedTexts(kindOf, next, texts[1..])
  }

  class FirstTokenDetector {
    const kindOf: string -> Option<Kind>
    const decoder: Decoder
    var decoderState: nat
    var done: bool
    var pending: string

    constructor (js: Builtins, decoder: Decoder)
      ensures View() == State(false, "") && decoderState == 0 && this.decoder == decoder
      ensures kindOf == Detect(js)
    {
      kindOf, this.decoder, decoderState, done, pending := Detect(js), decoder, 0, false, "";
    }

    function View(): State
      reads this
    {
      State(done, pending)
    }

    method Stop()
      modifies this`done, this`pending
      ensures View() == STOPPED
    {
      done, pending := true, "";
    }

    /** Look at every line the text completes, up to the first that carries output. */
    method Look(text: string) returns (kind: Option<Kind>)
      requires !done
      modifies this`done, this`pending
      ensures (View(), kind) == Search(kindOf, old(pending), text)
    {
      var rest := text;
      while IndexOf(rest, '\n') < |rest|
        invariant !done
        invariant Search(kindOf, old(pending), text) == Search(kindOf, pending, rest)
        decreases |rest|
      {
        var nl := IndexOf(rest, '\n');
        kind := kindOf(pending + rest[..nl]);
        if kind.Some? {
          Stop();
          return;
        }
        pending, rest := "", rest[nl + 1..];
      }
      pending := pending + rest;
      if |pending| > MAX_PENDING_CHARS { Stop(); }
      return None;
    }

    method Feed(chunk: seq<Byte>) returns (kind: Option<Kind>)
      modifies this
      ensures !old(done) ==> decoderState == Decode(decoder, old(decoderState), chunk).0
      ensures old(done) ==> unchanged(this) && kind == None
      ensures !old(done) ==>
        (View(), kind) == FeedText(kindOf, old(View()), Decode(decoder, old(decoderState), chunk).1)
    {
      if done { return None; }
      var (next, text) := Decode(decoder, decoderState, chunk);
      decoderState := next;
      kind := Look(text);
    }
  }

  // ---------------------------------------------------------------- refinement of a search over lines

  /** The first line that carries output. */
  function FirstKind(kindOf: string -> Option<Kind>, lines: seq<string>): Option<Kind> {
    if lines == [] then None
    else if kindOf(lines[0]).Some? then kindOf(lines[0])
    else FirstKind(kindOf, lines[1..])
  }

  /** No line, the unfinished one included, is longer than is held. */
  predicate Held(s: string)
    decreases |s|
  {
    var i := IndexOf(s, '\n');
    i <= 1_048_576 && (i < |s| ==> Held(s[i + 1..]))
  }

  ghost predicate OnlyAt(answers: seq<Option<Kind>>, i: nat) {
    forall j :: 0 <= j < |answers| && j != i ==> answers[j].None?
  }

  /** At most one answer is a kind. */
  ghost predicate OnceAt(answers: seq<Option<Kind>>, kind: Option<Kind>) {
    match kind
    case None => forall i :: 0 <= i < |answers| ==> answers[i].None?
    case Some(_) =>
      exists i :: 0 <= i < |answers| && answers[i] == kind && OnlyAt(answers, i)
  }

  lemma {:induction false} SearchIsFirst(kindOf: string -> Option<Kind>, pending: string, text: string)
      returns (next: State, kind: Option<Kind>)
    requires IndexOf(pending, '\n') == |pending|
    ensures (next, kind) == Search(kindOf, pending, text) && kind == FirstKind(kindOf, L.Lines(pending + text))
    ensures kind.Some? ==> next == STOPPED
    ensures kind.None? ==> next == Keep(L.Remainder(pending + text))
  {
    next, kind := Search(kindOf, pending, text).0, Search(kindOf, pending, text).1;
    SearchFinds(kindOf, pending, text);
    if kind.None? { SearchKeeps(kindOf, pending, text); }
  }

  lemma {:induction false} SearchTurn(kindOf: string -> Option<Kind>, pending: string, text: string)
    returns (line: string, rest: string)
    requires IndexOf(pending, '\n') == |pending| && IndexOf(text, '\n') < |text|
    ensures Search(kindOf, pending, text) ==
            if kindOf(line).Some? then (STOPPED, kindOf(line)) else Search(kindOf, "", rest)
    ensures L.Lines(pending + text) == [line] + L.Lines(rest) && L.Remainder(pending + text) == L.Remainder(rest)
    ensures |rest| < |text|
  {
    var i := IndexOf(text, '\n');
    line, rest := pending + text[..i], text[i + 1..];
    L.LinesBehind(pending, text, i);
  }

  lemma {:induction false} SearchFinds(kindOf: string -> Option<Kind>, pending: string, text: string)
    requires IndexOf(pending, '\n') == |pending|
    ensures Search(kindOf, pending, text).1 == FirstKind(kindOf, L.Lines(pending + text))
    ensures Search(kindOf, pending, text).1.Some? ==> Search(kindOf, pending, text).0 == STOPPED
    decreases |text|
  {
    if IndexOf(text, '\n') < |text| {
      var first, rest := SearchTurn(kindOf, pending, text);
      FirstCons(kindOf, first, L.Lines(rest));
      ConcatNothing(rest);
      SearchFinds(kindOf, "", rest);
    } else {
      IndexOfAppend(pending, text, '\n');
      L.LinesNone(pending + text);
    }
  }

  lemma {:induction false} SearchKeeps(kindOf: string -> Option<Kind>, pending: string, text: string)
    requires IndexOf(pending, '\n') == |pending| && Search(kindOf, pending, text).1.None?
    ensures Search(kindOf, pending, text).0 == Keep(L.Remainder(pending + text))
    decreases |text|
  {
    if IndexOf(text, '\n') < |text| {
      var line, rest := SearchTurn(kindOf, pending, text);
      ConcatNothing(rest);
      SearchKeeps(kindOf, "", rest);
    } else {
      IndexOfAppend(pending, text, '\n');
      L.LinesNone(pending + text);
    }
  }

  lemma {:induction false} FirstCons(kindOf: string -> Option<Kind>, first: string, rest: seq<string>)
    ensures FirstKind(kindOf, [first] + rest) == if kindOf(first).Some? then kindOf(first) else FirstKind(kindOf, rest)
  {
    assert ([first] + rest)[1..] == rest;
  }

  lemma {:induction false} StoppedAnswers(kindOf: string -> Option<Kind>, texts: seq<string>)
    ensures |FeedTexts(kindOf, STOPPED, texts)| == |texts|
    ensures forall i :: 0 <= i < |texts| ==> FeedTexts(kindOf, STOPPED, texts)[i].None?
    decreases |texts|
  {
    if texts != [] { StoppedAnswers(kindOf, texts[1..]); }
  }

  lemma {:induction false} FirstAppend(kindOf: string -> Option<Kind>, a: seq<string>, b: seq<string>)
    ensures FirstKind(kindOf, a + b) == if FirstKind(kindOf, a).Some? then FirstKind(kindOf, a) else FirstKind(kindOf, b)
    decreases |a|
  {
    if a == [] {
      assert a + b == b;
    } else {
      TailAppend(a, b);
      FirstAppend(kindOf, a[1..], b);
    }
  }

  /** Where a text ends with too much of a line in hand, and no line before has carried output. */
  ghost predicate DropsAt(kindOf: string -> Option<Kind>, pending: string, texts: seq<string>, n: nat)
    requires n <= |texts|
  {
    var seen := pending + Concat(texts[..n]);
    FirstKind(kindOf, L.Lines(seen)).None? && |L.Remainder(seen)| > 1_048_576
  }

  /** The detector gives up: some text ends so. */
  ghost predicate Drops(kindOf: string -> Option<Kind>, pending: string, texts: seq<string>) {
    exists n :: 0 < n <= |texts| && DropsAt(kindOf, pending, texts, n)
  }

  /** What the first text leaves, and what the later ones find behind it. */
  lemma {:induction false} DropsLater(
      kindOf: string -> Option<Kind>, pending: string, texts: seq<string>, whole: string, n: nat)
    requires texts != [] && whole == pending + texts[0] && n < |texts|
    ensures DropsAt(kindOf, pending, texts, n + 1) <==>
            FirstKind(kindOf, L.Lines(whole)).None? && DropsAt(kindOf, L.Remainder(whole), texts[1..], n)
  {
    var first, later := texts[0], Concat(texts[1..][..n]);
    assert texts[..n + 1] == [first] + texts[1..][..n];
    assert Concat([first] + texts[1..][..n]) == first + later;
    Assoc(pending, first, later);
    L.LinesAppend(whole, later);
    FirstAppend(kindOf, L.Lines(whole), L.Lines(L.Remainder(whole) + later));
  }

  lemma {:induction false} DropsNow(kindOf: string -> Option<Kind>, pending: string, texts: seq<string>)
    requires texts != []
    ensures DropsAt(kindOf, pending, texts, 1) <==>
            FirstKind(kindOf, L.Lines(pending + texts[0])).None? && |L.Remainder(pending + texts[0])| > MAX_PENDING_CHARS
  {
    assert texts[..1] == [texts[0]] && [texts[0]][1..] == [];
    assert Concat([texts[0]]) == texts[0] + Concat([]);
    ConcatNothing(texts[0]);
  }

  /** It gives up at the first text or later. */
  lemma {:induction false} DropsTurn(kindOf: string -> Option<Kind>, pending: string, texts: seq<string>, whole: string)
    requires texts != [] && whole == pending + texts[0]
    ensures Drops(kindOf, pending, texts) <==>
            FirstKind(kindOf, L.Lines(whole)).None? &&
            (|L.Remainder(whole)| > MAX_PENDING_CHARS || Drops(kindOf, L.Remainder(whole), texts[1..]))
  {
    DropsNow(kindOf, pending, texts);
    if Drops(kindOf, pending, texts) {
      var n :| 0 < n <= |texts| && DropsAt(kindOf, pending, texts, n);
      if n > 1 { DropsLater(kindOf, pending, texts, whole, n - 1); }
    }
    if FirstKind(kindOf, L.Lines(whole)).None? && Drops(kindOf, L.Remainder(whole), texts[1..]) {
      var n :| 0 < n <= |texts[1..]| && DropsAt(kindOf, L.Remainder(whole), texts[1..], n);
      DropsLater(kindOf, pending, texts, whole, n);
    }
  }

  /** Where every line fits, none is left too long. */
  lemma {:induction false} HeldLeft(a: string, b: string)
    requires Held(a + b)
    ensures |L.Remainder(a)| <= MAX_PENDING_CHARS
    decreases |a|
  {
    IndexOfAppend(a, b, '\n');
    var i := IndexOf(a, '\n');
    if i < |a| {
      SliceWithin(a, b, i);
      HeldLeft(a[i + 1..], b);
    }
  }

  lemma {:induction false} HeldDropsNothing(kindOf: string -> Option<Kind>, pending: string, texts: seq<string>)
    requires Held(pending + Concat(texts))
    ensures !Drops(kindOf, pending, texts)
  {
    forall n | 0 < n <= |texts| ensures !DropsAt(kindOf, pending, texts, n) {
      var front, back := Concat(texts[..n]), Concat(texts[n..]);
      ConcatAppend(texts[..n], texts[n..]);
      assert texts[..n] + texts[n..] == texts;
      Assoc(pending, front, back);
      HeldLeft(pending + front, back);
    }
  }

  /**
    * Detection refines a search over lines, for every stream and every split: `feed` answers a kind at most
    * once, and it is that of the first line carrying any; unless, before such a line was complete, some text
    * ended with more of a line in hand than is held, and then no kind is ever answered.
    */
  lemma {:induction false} DetectsFirst(kindOf: string -> Option<Kind>, pending: string, texts: seq<string>)
    requires IndexOf(pending, '\n') == |pending|
    ensures OnceAt(FeedTexts(kindOf, State(false, pending), texts),
                   if Drops(kindOf, pending, texts) then None
                   else FirstKind(kindOf, L.Lines(pending + Concat(texts))))
    ensures Held(pending + Concat(texts)) ==> !Drops(kindOf, pending, texts)
    decreases |texts|
  {
    if Held(pending + Concat(texts)) { HeldDropsNothing(kindOf, pending, texts); }
    if texts == [] {
      ConcatNothing(pending);
      L.LinesNone(pending);
    } else {
      var whole, later := pending + texts[0], texts[1..];
      var rest := Concat(later);
      Assoc(pending, texts[0], rest);
      L.LinesAppend(whole, rest);
      FirstAppend(kindOf, L.Lines(whole), L.Lines(L.Remainder(whole) + rest));
      DropsTurn(kindOf, pending, texts, whole);
      var next, kind := SearchIsFirst(kindOf, pending, texts[0]);
      if next == STOPPED {
        StoppedAnswers(kindOf, later);
        OnceFirst(kind, FeedTexts(kindOf, STOPPED, later));
      } else {
        DetectsFirst(kindOf, L.Remainder(whole), later);
        OnceBehindNone(FeedTexts(kindOf, next, later),
                       if Drops(kindOf, L.Remainder(whole), later) then None
                       else FirstKind(kindOf, L.Lines(L.Remainder(whole) + rest)));
      }
    }
  }

  lemma {:induction false} OnceFirst(kind: Option<Kind>, none: seq<Option<Kind>>)
    requires forall i :: 0 <= i < |none| ==> none[i].None?
    ensures OnceAt([kind] + none, kind)
  {
    var answers := [kind] + none;
    assert answers[0] == kind && forall j :: 0 < j < |answers| ==> answers[j] == none[j - 1];
  }

  lemma {:induction false} OnceBehindNone(answers: seq<Option<Kind>>, kind: Option<Kind>)
    requires OnceAt(answers, kind)
    ensures OnceAt([None] + answers, kind)
  {
    var longer := [None] + answers;
    assert forall j :: 0 < j < |longer| ==> longer[j] == answers[j - 1];
    if kind.Some? {
      var i :| 0 <= i < |answers| && answers[i] == kind && OnlyAt(answers, i);
      assert longer[i + 1] == kind && OnlyAt(longer, i + 1);
    }
  }
}
