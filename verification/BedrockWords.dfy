/** What the input of a Responses request says, by the members of the messages it comes from. */
module BedrockWords {
  import opened Js
  import opened BedrockRequest

  // ---------------------------------------------------------------- content

  /** The characters of a text, one by one. */
  ghost predicate Spelt(text: string, atoms: seq<Atom>) {
    |atoms| == |text| && forall i :: 0 <= i < |text| ==> atoms[i] == Ch(text[i])
  }

  ghost predicate IsText(part: Json, text: string) {
    Is(part, "text") && Get(part, "text") == Str(text)
  }

  ghost predicate IsImage(part: Json, url: string) {
    Is(part, "image_url") && Get(Get(part, "image_url"), "url") == Str(url)
  }

  /** A text part says its text; an image part shows its image, when the wire takes it. */
  ghost predicate PartSays(media: string -> bool, part: Json, atoms: seq<Atom>) {
    (exists text :: IsText(part, text) && Spelt(text, atoms)) ||
    exists url :: IsImage(part, url) && media(url) && atoms == [Picture(url)]
  }

  ghost predicate PartsSay(media: string -> bool, parts: seq<Json>, atoms: seq<Atom>)
    decreases |parts|
  {
    if parts == [] then atoms == []
    else
      exists n ::
        0 <= n <= |atoms| && PartsSay(media, parts[..|parts| - 1], atoms[..n]) &&
        PartSays(media, parts[|parts| - 1], atoms[n..])
  }

  ghost predicate ContentSays(media: string -> bool, content: Json, atoms: seq<Atom>) {
    match content
    case Str(text) => Spelt(text, atoms)
    case Arr(parts) => PartsSay(media, parts, atoms)
    case _ => Nullish(content) && atoms == []
  }

  /** The texts of the parts, joined; each of them is a text. */
  ghost predicate TextsSay(parts: seq<Json>, text: string)
    decreases |parts|
  {
    if parts == [] then text == ""
    else
      exists n ::
        0 <= n <= |text| && TextsSay(parts[..|parts| - 1], text[..n]) && IsText(parts[|parts| - 1], text[n..])
  }

  ghost predicate TextSays(content: Json, text: string) {
    match content
    case Str(s) => text == s
    case Arr(parts) => TextsSay(parts, text)
    case _ => Nullish(content) && text == ""
  }

  // ---------------------------------------------------------------- messages

  ghost predicate CallSays(js: Builtins, call: Json, voiced: Voiced) {
    var fn := Get(call, "function");
    voiced.Calls? && voiced.entry.Called? && Is(call, "function") && Get(fn, "name") == Str(voiced.entry.name) &&
    voiced.entry.callId == js.text(FirstPresent([Get(call, "id"), Str("")])) &&
    if Get(fn, "arguments").Str? then Get(fn, "arguments") == Str(voiced.entry.arguments) else voiced.entry.arguments == "{}"
  }

  /** A turn, unless nothing is said in it. */
  ghost predicate TurnIs(role: string, atoms: seq<Atom>, voice: seq<Voiced>) {
    voice == if atoms == [] then [] else [Turn(role, atoms)]
  }

  ghost predicate SpeaksAs(message: Json, role: string) {
    Get(message, "role") == Str(role)
  }

  /** The tool calls that are read: an assistant's. */
  function CallsIn(message: Json): seq<Json> {
    var calls := Get(message, "tool_calls");
    if Get(message, "role") == Str("assistant") && calls.Arr? then calls.items else []
  }

  ghost predicate CallsSay(js: Builtins, calls: seq<Json>, voice: seq<Voiced>) {
    |voice| == |calls| && forall i :: 0 <= i < |calls| ==> CallSays(js, calls[i], voice[i])
  }

  /** In its own role: its text, and then its calls. */
  ghost predicate SpokenSays(js: Builtins, message: Json, role: string, voice: seq<Voiced>) {
    exists text, atoms, n ::
      TextSays(Get(message, "content"), text) && Spelt(text, atoms) && 0 <= n <= |voice| && TurnIs(role, atoms, voice[..n]) &&
      CallsSay(js, CallsIn(message), voice[n..])
  }

  ghost predicate ResultSays(js: Builtins, message: Json, voice: seq<Voiced>) {
    exists text ::
      TextSays(Get(message, "content"), text) &&
      voice == [Calls(Returned(js.text(FirstPresent([Get(message, "tool_call_id"), Str("")])), text))]
  }

  ghost predicate MessageSays(js: Builtins, media: string -> bool, message: Json, voice: seq<Voiced>) {
    if SpeaksAs(message, "user") then
      exists atoms :: ContentSays(media, Get(message, "content"), atoms) && TurnIs("user", atoms, voice)
    else if SpeaksAs(message, "tool") then ResultSays(js, message, voice)
    else
      exists role :: role in {"system", "developer", "assistant"} && SpeaksAs(message, role) &&
                     SpokenSays(js, message, role, voice)
  }

  /** Message by message, in order. */
  ghost predicate ConversationSays(js: Builtins, media: string -> bool, messages: seq<Json>, voice: seq<Voiced>)
    decreases |messages|
  {
    if messages == [] then voice == []
    else
      exists n ::
        0 <= n <= |voice| && ConversationSays(js, media, messages[..|messages| - 1], voice[..n]) &&
        MessageSays(js, media, messages[|messages| - 1], voice[n..])
  }

  // ---------------------------------------------------------------- what cannot be said

  predicate KnownRole(message: Json) {
    Get(message, "role") in {Str("user"), Str("system"), Str("developer"), Str("assistant"), Str("tool")}
  }

  predicate PartClear(media: string -> bool, part: Json) {
    var url := Get(Get(part, "image_url"), "url");
    (Is(part, "text") && Get(part, "text").Str?) || (Is(part, "image_url") && url.Str? && media(url.s))
  }

  /** Images are for the user's turns only. */
  predicate ContentClear(media: string -> bool, message: Json) {
    var content := Get(message, "content");
    content.Str? || Nullish(content) ||
    (content.Arr? &&
     forall i :: 0 <= i < |content.items| ==>
       PartClear(if Get(message, "role") == Str("user") then media else (url => false), content.items[i]))
  }

  predicate CallClear(call: Json) {
    Is(call, "function") && Get(Get(call, "function"), "name").Str?
  }

  predicate CallsClear(calls: seq<Json>) {
    forall i :: 0 <= i < |calls| ==> CallClear(calls[i])
  }

  predicate Clear(media: string -> bool, message: Json) {
    KnownRole(message) && ContentClear(media, message) && CallsClear(CallsIn(message))
  }

  function UnclearField(media: string -> bool, message: Json): string {
    if !KnownRole(message) then "messages.role"
    else if !ContentClear(media, message) then "messages.content"
    else "messages.tool_calls"
  }

  // ---------------------------------------------------------------- the reading says it

  lemma {:induction false} CharsAre(text: string)
    ensures Spelt(text, Chars(text))
  {
    if text != "" { CharsAre(text[1..]); }
  }

  lemma {:induction false} PartIs(media: string -> bool, part: Json)
    ensures PartAtom(media, part).Some? <==> PartClear(media, part)
    ensures PartAtom(media, part).Some? ==> PartSays(media, part, PartAtom(media, part).value)
  {
    if PartClear(media, part) {
      if Is(part, "text") && Get(part, "text").Str? {
        CharsAre(Get(part, "text").s);
        assert IsText(part, Get(part, "text").s);
      } else {
        assert IsImage(part, Get(Get(part, "image_url"), "url").s);
      }
    }
  }

  lemma {:induction false} PartsAre(media: string -> bool, parts: seq<Json>)
    ensures PartAtoms(media, parts).Some? <==> forall i :: 0 <= i < |parts| ==> PartClear(media, parts[i])
    ensures PartAtoms(media, parts).Some? ==> PartsSay(media, parts, PartAtoms(media, parts).value)
    decreases |parts|
  {
    if parts != [] {
      var front, last := parts[..|parts| - 1], parts[|parts| - 1];
      PartsAre(media, front);
      PartIs(media, last);
      assert forall i :: 0 <= i < |front| ==> front[i] == parts[i];
      if PartAtoms(media, parts).Some? {
        var before, atoms := PartAtoms(media, front).value, PartAtom(media, last).value;
        var n := |before|;
        assert (before + atoms)[..n] == before && (before + atoms)[n..] == atoms;
      }
    }
  }

  lemma {:induction false} ContentIs(media: string -> bool, message: Json)
    requires SpeaksAs(message, "user")
    ensures var content := Get(message, "content");
            (ContentAtoms(media, content).Some? <==> ContentClear(media, message)) &&
            (ContentAtoms(media, content).Some? ==> ContentSays(media, content, ContentAtoms(media, content).value))
  {
    var content := Get(message, "content");
    if content.Str? { CharsAre(content.s); }
    if content.Arr? { PartsAre(media, content.items); }
  }

  lemma {:induction false} TextsAre(parts: seq<Json>)
    ensures JoinedTexts(parts).Some? <==> forall i :: 0 <= i < |parts| ==> PartClear(url => false, parts[i])
    ensures JoinedTexts(parts).Some? ==> TextsSay(parts, JoinedTexts(parts).value)
    decreases |parts|
  {
    if parts != [] {
      var front, last := parts[..|parts| - 1], parts[|parts| - 1];
      TextsAre(front);
      assert forall i :: 0 <= i < |front| ==> front[i] == parts[i];
      if JoinedTexts(parts).Some? {
        var before, text := JoinedTexts(front).value, Get(last, "text").s;
        var n := |before|;
        assert (before + text)[..n] == before && (before + text)[n..] == text;
        assert IsText(last, text);
      }
    }
  }

  lemma {:induction false} TextIs(media: string -> bool, message: Json)
    requires !SpeaksAs(message, "user")
    ensures var content := Get(message, "content");
            (ContentText(content).Some? <==> ContentClear(media, message)) &&
            (ContentText(content).Some? ==> TextSays(content, ContentText(content).value))
  {
    var content := Get(message, "content");
    if content.Arr? { TextsAre(content.items); }
  }

  lemma {:induction false} CallIs(js: Builtins, call: Json)
    ensures CallEntry(js, call).Some? <==> CallClear(call)
    ensures CallEntry(js, call).Some? ==> CallSays(js, call, Calls(CallEntry(js, call).value))
  {
    FirstOfTwo(Get(call, "id"), Str(""));
  }

  lemma {:induction false} CallsAre(js: Builtins, calls: seq<Json>)
    ensures CallsVoice(js, calls).Some? <==> CallsClear(calls)
    ensures CallsVoice(js, calls).Some? ==> CallsSay(js, calls, CallsVoice(js, calls).value)
    decreases |calls|
  {
    if calls != [] {
      var front, last := calls[..|calls| - 1], calls[|calls| - 1];
      CallsAre(js, front);
      CallIs(js, last);
      assert forall i :: 0 <= i < |front| ==> front[i] == calls[i];
    }
  }

  lemma {:induction false} SpokenIs(js: Builtins, media: string -> bool, message: Json, role: string)
    requires role in {"system", "developer", "assistant"} && SpeaksAs(message, role)
    requires ContentClear(media, message) && CallsClear(CallsIn(message))
    ensures var heard := MessageVoice(js, media, message); heard.Heard? && SpokenSays(js, message, role, heard.voice)
  {
    assert "user"[0] != role[0];
    TextIs(media, message);
    CallsAre(js, CallsIn(message));
    var text, calls := ContentText(Get(message, "content")).value, CallsVoice(js, CallsIn(message)).value;
    var atoms := Chars(text);
    CharsAre(text);
    var turn := Voice(role, atoms);
    var n := |turn|;
    assert (turn + calls)[..n] == turn && (turn + calls)[n..] == calls;
  }

  /** A message is heard just when it is clear, and then for what it says; else its field is the unclear one. */
  lemma {:induction false} MessageIs(js: Builtins, media: string -> bool, message: Json)
    ensures var heard := MessageVoice(js, media, message);
            (heard.Heard? <==> Clear(media, message)) &&
            (heard.Heard? ==> MessageSays(js, media, message, heard.voice)) &&
            (heard.Unclear? ==> heard.field == UnclearField(media, message))
  {
    CallsAre(js, CallsIn(message));
    if SpeaksAs(message, "user") {
      ContentIs(media, message);
    } else {
      TextIs(media, message);
      FirstOfTwo(Get(message, "tool_call_id"), Str(""));
      if Clear(media, message) && !SpeaksAs(message, "tool") {
        SpokenIs(js, media, message, Get(message, "role").s);
      }
    }
  }

  /** The first message that is not clear, and its field. */
  ghost predicate FirstUnclear(media: string -> bool, messages: seq<Json>, field: string) {
    exists k ::
      0 <= k < |messages| && !Clear(media, messages[k]) && field == UnclearField(media, messages[k]) &&
      forall i :: 0 <= i < k ==> Clear(media, messages[i])
  }

  /**
    * What a conversation is heard to say, it says, message by message; and it is not heard exactly where some
    * message is unclear, for the field of the first.
    */
  lemma {:induction false} ConversationIs(js: Builtins, media: string -> bool, messages: seq<Json>)
    ensures IsHeard(js, media, messages, ConversationVoice(js, media, messages))
    decreases |messages|
  {
    if messages != [] {
      var front, last := messages[..|messages| - 1], messages[|messages| - 1];
      ConversationIs(js, media, front);
      assert messages == front + [last];
      OneMore(js, media, front, last, ConversationVoice(js, media, front));
    }
  }

  ghost predicate IsHeard(js: Builtins, media: string -> bool, messages: seq<Json>, heard: Heard) {
    match heard
    case Heard(voice) =>
      (forall i :: 0 <= i < |messages| ==> Clear(media, messages[i])) && ConversationSays(js, media, messages, voice)
    case Unclear(field) => FirstUnclear(media, messages, field)
  }

  lemma {:induction false} OneMore(js: Builtins, media: string -> bool, front: seq<Json>, last: Json, heard: Heard)
    requires IsHeard(js, media, front, heard)
    ensures IsHeard(js, media, front + [last],
      match heard
      case Unclear(field) => heard
      case Heard(before) =>
        match MessageVoice(js, media, last)
        case Unclear(field) => Unclear(field)
        case Heard(voice) => Heard(before + voice))
  {
    MessageIs(js, media, last);
    match heard
    case Unclear(field) => UnclearStays(media, front, last, field);
    case Heard(before) =>
      match MessageVoice(js, media, last)
      case Unclear(field) => UnclearHere(media, front, last);
      case Heard(voice) => HeardMore(js, media, front, last, before, voice);
  }

  lemma {:induction false} UnclearStays(media: string -> bool, front: seq<Json>, last: Json, field: string)
    requires FirstUnclear(media, front, field)
    ensures FirstUnclear(media, front + [last], field)
  {
    var k :| 0 <= k < |front| && !Clear(media, front[k]) && field == UnclearField(media, front[k]) &&
      forall i :: 0 <= i < k ==> Clear(media, front[i]);
    var all := front + [last];
    assert forall i :: 0 <= i <= k ==> all[i] == front[i];
  }

  lemma {:induction false} UnclearHere(media: string -> bool, front: seq<Json>, last: Json)
    requires !Clear(media, last) && forall i :: 0 <= i < |front| ==> Clear(media, front[i])
    ensures FirstUnclear(media, front + [last], UnclearField(media, last))
  {
    var all := front + [last];
    assert all[|front|] == last && forall i :: 0 <= i < |front| ==> all[i] == front[i];
  }

  lemma {:induction false} HeardMore(js: Builtins, media: string -> bool, front: seq<Json>, last: Json,
      before: seq<Voiced>, voice: seq<Voiced>)
    requires ConversationSays(js, media, front, before) && MessageSays(js, media, last, voice)
    ensures ConversationSays(js, media, front + [last], before + voice)
  {
    Snoc(front, last, front + [last]);
    var n := |before|;
    assert (before + voice)[..n] == before && (before + voice)[n..] == voice;
  }
}
