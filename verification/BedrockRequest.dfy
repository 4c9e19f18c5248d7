/** `toResponsesRequest`: a chat conversation as the input of a Responses request. */
module BedrockRequest {
  import opened Js

  // ---------------------------------------------------------------- a user turn

  /** `input_text` and `input_image` items. */
  datatype Item = Text(text: string) | Image(url: string)

  /** What a turn says, apart from how it is cut into items. */
  datatype Atom = Ch(c: char) | Picture(url: string)

  function Chars(s: string): seq<Atom> {
    if s == "" then [] else [Ch(s[0])] + Chars(s[1..])
  }

  lemma {:induction false} CharsAppend(a: string, b: string)
    ensures Chars(a + b) == Chars(a) + Chars(b)
    decreases |a|
  {
    if a == "" {
      assert a + b == b;
    } else {
      TailAppend(a, b);
      CharsAppend(a[1..], b);
    }
  }

  function ItemAtoms(item: Item): seq<Atom> {
    match item
    case Text(t) => Chars(t)
    case Image(url) => [Picture(url)]
  }

  function Atoms(items: seq<Item>): seq<Atom> {
    if items == [] then [] else ItemAtoms(items[0]) + Atoms(items[1..])
  }

  lemma {:induction false} AtomsOne(item: Item)
    ensures Atoms([item]) == ItemAtoms(item)
  {
    assert [item][1..] == [] && ItemAtoms(item) + [] == ItemAtoms(item);
  }

  lemma {:induction false} AtomsSnoc(items: seq<Item>, item: Item)
    ensures Atoms(items + [item]) == Atoms(items) + ItemAtoms(item)
    decreases |items|
  {
    if items == [] {
      AtomsOne(item);
      assert items + [item] == [item] && [] + ItemAtoms(item) == ItemAtoms(item);
    } else {
      TailAppend(items, [item]);
      AtomsSnoc(items[1..], item);
      Assoc(ItemAtoms(items[0]), Atoms(items[1..]), ItemAtoms(item));
    }
  }

  predicate IsTextPart(part: Json) {
    Get(part, "type") == Str("text") && Get(part, "text").Str?
  }

  /** An image the wire takes; `media` is the pattern its data URI must match. */
  predicate IsImagePart(media: string -> bool, part: Json) {
    Get(part, "type") == Str("image_url") && Get(Get(part, "image_url"), "url").Str? &&
    media(Get(Get(part, "image_url"), "url").s)
  }

  /** What a part adds to what is said, if it is of a known shape. */
  function PartAtom(media: string -> bool, part: Json): Option<seq<Atom>> {
    if IsTextPart(part) then Some(Chars(Get(part, "text").s))
    else if IsImagePart(media, part) then Some([Picture(Get(Get(part, "image_url"), "url").s)])
    else None
  }

  /** What a list of parts says; nothing when one of them is of no known shape. */
  function PartAtoms(media: string -> bool, parts: seq<Json>): Option<seq<Atom>> {
    if parts == [] then Some([])
    else
      match PartAtoms(media, parts[..|parts| - 1])
      case None => None
      case Some(before) =>
        match PartAtom(media, parts[|parts| - 1])
        case None => None
        case Some(atoms) => Some(before + atoms)
  }

  /** What a user turn's content says. */
  function ContentAtoms(media: string -> bool, content: Json): Option<seq<Atom>> {
    if content.Str? then Some(Chars(content.s))
    else if content.Arr? then PartAtoms(media, content.items)
    else if Nullish(content) then Some([])
    else None
  }

  /** No empty text and no text next to another. */
  ghost predicate Canonical(items: seq<Item>) {
    (forall i :: 0 <= i < |items| && items[i].Text? ==> items[i].text != "") &&
    forall i :: 0 < i < |items| && items[i].Text? ==> items[i - 1].Image?
  }

  lemma {:induction false} CanonicalTail(items: seq<Item>)
    requires Canonical(items) && items != []
    ensures Canonical(items[1..])
  {
    var rest := items[1..];
    assert forall i :: 0 <= i < |rest| ==> rest[i] == items[i + 1];
  }

  /** How many characters come before the first picture. */
  function Lead(atoms: seq<Atom>): nat {
    if atoms == [] || atoms[0].Picture? then 0 else 1 + Lead(atoms[1..])
  }

  lemma {:induction false} LeadOfOne(first: Atom, rest: seq<Atom>)
    requires first.Ch?
    ensures Lead([first] + rest) == 1 + Lead(rest)
  {
    assert ([first] + rest)[1..] == rest;
  }

  lemma {:induction false} LeadOfChars(s: string, rest: seq<Atom>)
    requires rest == [] || rest[0].Picture?
    ensures |Chars(s)| == |s| && Lead(Chars(s) + rest) == |s|
    decreases |s|
  {
    if s == "" {
      ConcatNothing(rest);
    } else {
      LeadOfChars(s[1..], rest);
      Assoc([Ch(s[0])], Chars(s[1..]), rest);
      LeadOfOne(Ch(s[0]), Chars(s[1..]) + rest);
    }
  }

  lemma {:induction false} CharsAreText(a: string, b: string)
    requires Chars(a) == Chars(b)
    ensures a == b
    decreases |a|
  {
    if a != "" && b != "" {
      assert Chars(a)[1..] == Chars(a[1..]) && Chars(b)[1..] == Chars(b[1..]);
      assert Chars(a)[0] == Chars(b)[0];
      CharsAreText(a[1..], b[1..]);
      assert a == [a[0]] + a[1..] && b == [b[0]] + b[1..];
    }
  }

  /** A canonical list, its first text apart: the text is the characters before the first picture. */
  lemma {:induction false} CanonicalLead(items: seq<Item>) returns (text: string, rest: seq<Item>)
    requires Canonical(items)
    ensures items == (if text == "" then [] else [Text(text)]) + rest && Canonical(rest)
    ensures rest == [] || rest[0].Image?
    ensures Atoms(items) == Chars(text) + Atoms(rest) && Lead(Atoms(items)) == |text| == |Chars(text)|
  {
    if items != [] && items[0].Text? {
      text, rest := items[0].text, items[1..];
      CanonicalTail(items);
      assert rest != [] ==> items[1].Image?;
    } else {
      text, rest := "", items;
      assert [] + rest == rest && [] + Atoms(rest) == Atoms(rest);
    }
    LeadOfChars(text, Atoms(rest));
  }

  /** What a turn says has one canonical cut into items. */
  lemma {:induction false} CanonicalIsUnique(a: seq<Item>, b: seq<Item>)
    requires Canonical(a) && Canonical(b) && Atoms(a) == Atoms(b)
    ensures a == b
    decreases |a|
  {
    var textA, restA := CanonicalLead(a);
    var textB, restB := CanonicalLead(b);
    SplitEqual(Chars(textA), Atoms(restA), Chars(textB), Atoms(restB));
    CharsAreText(textA, textB);
    if restA != [] && restB != [] {
      var urlA, tailA := CanonicalPicture(restA);
      var urlB, tailB := CanonicalPicture(restB);
      SplitEqual([Picture(urlA)], Atoms(tailA), [Picture(urlB)], Atoms(tailB));
      CanonicalIsUnique(tailA, tailB);
    }
  }

  lemma {:induction false} CanonicalPicture(items: seq<Item>) returns (url: string, rest: seq<Item>)
    requires Canonical(items) && items != [] && items[0].Image?
    ensures items == [Image(url)] + rest && Canonical(rest) && Atoms(items) == [Picture(url)] + Atoms(rest)
  {
    url, rest := items[0].url, items[1..];
    CanonicalTail(items);
  }

  lemma {:induction false} SplitEqual<T>(a: seq<T>, b: seq<T>, c: seq<T>, d: seq<T>)
    requires a + b == c + d && |a| == |c|
    ensures a == c && b == d
  {
    assert a == (a + b)[..|a|] && c == (c + d)[..|c|];
    assert b == (a + b)[|a|..] && d == (c + d)[|c|..];
  }

  method FlushText(items: seq<Item>, text: string) returns (more: seq<Item>)
    requires Canonical(items) && (items != [] ==> items[|items| - 1].Image?)
    ensures Canonical(more) && Atoms(more) == Atoms(items) + Chars(text)
  {
    if text == "" {
      assert Atoms(items) + [] == Atoms(items);
      return items;
    }
    AtomsSnoc(items, Text(text));
    return items + [Text(text)];
  }

  lemma {:induction false} PartStep(media: string -> bool, parts: seq<Json>, k: nat)
    requires k < |parts| && PartAtoms(media, parts[..k]).Some?
    ensures PartAtoms(media, parts[..k + 1]) ==
            match PartAtom(media, parts[k])
            case None => None
            case Some(atoms) => Some(PartAtoms(media, parts[..k]).value + atoms)
  {
    assert parts[..k + 1][..k] == parts[..k] && parts[..k + 1][k] == parts[k];
  }

  method PartsToItems(media: string -> bool, parts: seq<Json>) returns (r: Option<seq<Item>>)
    ensures r.Some? <==> PartAtoms(media, parts).Some?
    ensures r.Some? ==> Canonical(r.value) && Atoms(r.value) == PartAtoms(media, parts).value
  {
    var items, text := [], "";
    ghost var said := [];
    for k := 0 to |parts|
      invariant Canonical(items) && (items != [] ==> items[|items| - 1].Image?)
      invariant said == Atoms(items) + Chars(text) && PartAtoms(media, parts[..k]) == Some(said)
    {
      var part := parts[k];
      PartStep(media, parts, k);
      if IsTextPart(part) {
        TextGrows(Atoms(items), text, Get(part, "text").s);
        text := text + Get(part, "text").s;
        said := said + Chars(Get(part, "text").s);
        continue;
      }
      if IsImagePart(media, part) {
        items := FlushText(items, text);
        items := PushImage(items, Get(Get(part, "image_url"), "url").s);
        text := "";
        said := said + [Picture(Get(Get(part, "image_url"), "url").s)];
        continue;
      }
      NoneBeyond(media, parts, k + 1);
      return None;
    }
    assert parts[..|parts|] == parts;
    items := FlushText(items, text);
    return Some(items);
  }

  method PushImage(items: seq<Item>, url: string) returns (more: seq<Item>)
    requires Canonical(items)
    ensures Canonical(more) && more != [] && more[|more| - 1].Image? && Atoms(more) == Atoms(items) + [Picture(url)]
  {
    AtomsSnoc(items, Image(url));
    return items + [Image(url)];
  }

  /** The canonical items that say what the content says; none when it is of no known shape. */
  method UserContentToItems(media: string -> bool, content: Json) returns (r: Option<seq<Item>>)
    ensures r.Some? <==> ContentAtoms(media, content).Some?
    ensures r.Some? ==> Canonical(r.value) && Atoms(r.value) == ContentAtoms(media, content).value
  {
    if content.Str? {
      var one := FlushText([], content.s);
      return Some(one);
    }
    if !content.Arr? { return if Nullish(content) then Some([]) else None; }
    r := PartsToItems(media, content.items);
  }

  lemma {:induction false} TextGrows(before: seq<Atom>, text: string, more: string)
    ensures before + Chars(text + more) == before + Chars(text) + Chars(more)
  {
    CharsAppend(text, more);
    Assoc(before, Chars(text), Chars(more));
  }

  lemma {:induction false} NoneBeyond(media: string -> bool, parts: seq<Json>, k: nat)
    requires k <= |parts| && PartAtoms(media, parts[..k]).None?
    ensures PartAtoms(media, parts).None?
    decreases |parts|
  {
    if k < |parts| {
      assert parts[..|parts| - 1][..k] == parts[..k];
      NoneBeyond(media, parts[..|parts| - 1], k);
    } else {
      assert parts[..k] == parts;
    }
  }

  // ---------------------------------------------------------------- the conversation

  /** An item of the input: a turn, a call the assistant made, or what a tool returned. */
  datatype Entry =
    | Said(role: string, items: seq<Item>)
    | Called(callId: string, name: string, arguments: string)
    | Returned(callId: string, output: string)

  /** What is heard in a conversation, one turn or call at a time: who says what, however it is cut into items. */
  datatype Voiced = Turn(role: string, atoms: seq<Atom>) | Calls(entry: Entry)

  /** Saying nothing is no turn. */
  function Voice(role: string, atoms: seq<Atom>): seq<Voiced> {
    if atoms == [] then [] else [Turn(role, atoms)]
  }

  function EntryVoice(entry: Entry): Voiced {
    match entry
    case Said(role, items) => Turn(role, Atoms(items))
    case _ => Calls(entry)
  }

  /** Entry by entry, so that no two turns run into one. */
  function InputVoice(input: seq<Entry>): seq<Voiced> {
    if input == [] then [] else InputVoice(input[..|input| - 1]) + [EntryVoice(input[|input| - 1])]
  }

  function JoinedTexts(parts: seq<Json>): Option<string> {
    if parts == [] then Some("")
    else
      match JoinedTexts(parts[..|parts| - 1])
      case None => None
      case Some(before) =>
        if IsTextPart(parts[|parts| - 1]) then Some(before + Get(parts[|parts| - 1], "text").s) else None
  }

  /** `contentToText` */
  function ContentText(content: Json): Option<string> {
    if content.Str? then Some(content.s)
    else if content.Arr? then JoinedTexts(content.items)
    else if Nullish(content) then Some("")
    else None
  }

  function CallEntry(js: Builtins, call: Json): Option<Entry> {
    var fn := Get(call, "function");
    if Get(call, "type") == Str("function") && Get(fn, "name").Str? then
      var arguments := Get(fn, "arguments");
      var id := js.text(OrElse(Get(call, "id"), Str("")));
      Some(Called(id, Get(fn, "name").s, if arguments.Str? then arguments.s else "{}"))
    else None
  }

  function CallsVoice(js: Builtins, calls: seq<Json>): Option<seq<Voiced>> {
    if calls == [] then Some([])
    else
      match CallsVoice(js, calls[..|calls| - 1])
      case None => None
      case Some(before) =>
        match CallEntry(js, calls[|calls| - 1])
        case None => None
        case Some(entry) => Some(before + [Calls(entry)])
  }

  predicate Speaks(role: Json) {
    role == Str("system") || role == Str("developer") || role == Str("assistant")
  }

  /** What a message says; or the field that is of no known shape. */
  datatype Heard = Heard(voice: seq<Voiced>) | Unclear(field: string)

  function MessageVoice(js: Builtins, media: string -> bool, message: Json): Heard {
    var role, content := Get(message, "role"), Get(message, "content");
    if role == Str("user") then
      match ContentAtoms(media, content)
      case None => Unclear("messages.content")
      case Some(atoms) => Heard(Voice("user", atoms))
    else if Speaks(role) then
      match ContentText(content)
      case None => Unclear("messages.content")
      case Some(text) =>
        match CallsVoice(js, AssistantCalls(message))
        case None => Unclear("messages.tool_calls")
        case Some(calls) => Heard(Voice(role.s, Chars(text)) + calls)
    else if role == Str("tool") then
      match ContentText(content)
      case None => Unclear("messages.content")
      case Some(text) => Heard([Calls(Returned(js.text(OrElse(Get(message, "tool_call_id"), Str(""))), text))])
    else Unclear("messages.role")
  }

  /** What a conversation says, message by message; or the field of the first message that is unclear. */
  function ConversationVoice(js: Builtins, media: string -> bool, messages: seq<Json>): Heard {
    if messages == [] then Heard([])
    else
      match ConversationVoice(js, media, messages[..|messages| - 1])
      case Unclear(field) => Unclear(field)
      case Heard(before) =>
        match MessageVoice(js, media, messages[|messages| - 1])
        case Unclear(field) => Unclear(field)
        case Heard(voice) => Heard(before + voice)
  }

  /** No turn is empty, and each is cut the one canonical way. */
  ghost predicate Tidy(input: seq<Entry>) {
    forall i :: 0 <= i < |input| && input[i].Said? ==> input[i].items != [] && Canonical(input[i].items)
  }

  lemma {:induction false} InputSnoc(input: seq<Entry>, entry: Entry)
    ensures InputVoice(input + [entry]) == InputVoice(input) + [EntryVoice(entry)]
    ensures Tidy(input) && (entry.Said? ==> entry.items != [] && Canonical(entry.items)) ==> Tidy(input + [entry])
  {
    assert (input + [entry])[..|input|] == input;
  }

  lemma {:induction false} CallStep(js: Builtins, calls: seq<Json>, k: nat)
    requires k < |calls| && CallsVoice(js, calls[..k]).Some?
    ensures CallsVoice(js, calls[..k + 1]) ==
            match CallEntry(js, calls[k])
            case None => None
            case Some(entry) => Some(CallsVoice(js, calls[..k]).value + [Calls(entry)])
  {
    assert calls[..k + 1][..k] == calls[..k] && calls[..k + 1][k] == calls[k];
  }

  lemma {:induction false} NoCallsBeyond(js: Builtins, calls: seq<Json>, k: nat)
    requires k <= |calls| && CallsVoice(js, calls[..k]).None?
    ensures CallsVoice(js, calls).None?
    decreases |calls|
  {
    if k < |calls| {
      assert calls[..|calls| - 1][..k] == calls[..k];
      NoCallsBeyond(js, calls[..|calls| - 1], k);
    } else {
      assert calls[..k] == calls;
    }
  }

  /** Push the calls of an assistant turn. */
  method PushCalls(js: Builtins, input: seq<Entry>, calls: seq<Json>) returns (more: Option<seq<Entry>>)
    requires Tidy(input)
    ensures more.Some? <==> CallsVoice(js, calls).Some?
    ensures more.Some? ==> Tidy(more.value) && InputVoice(more.value) == InputVoice(input) + CallsVoice(js, calls).value
  {
    var pushed := input;
    ghost var said := [];
    for k := 0 to |calls|
      invariant Tidy(pushed) && CallsVoice(js, calls[..k]) == Some(said) &&
        InputVoice(pushed) == InputVoice(input) + said
    {
      CallStep(js, calls, k);
      var entry := CallEntry(js, calls[k]);
      if entry.None? {
        NoCallsBeyond(js, calls, k + 1);
        return None;
      }
      InputSnoc(pushed, entry.value);
      Assoc(InputVoice(input), said, [Calls(entry.value)]);
      pushed, said := pushed + [entry.value], said + [Calls(entry.value)];
    }
    assert calls[..|calls|] == calls;
    return Some(pushed);
  }

  /** Push one text turn, unless it is empty. */
  method PushText(input: seq<Entry>, role: string, text: string) returns (more: seq<Entry>)
    requires Tidy(input)
    ensures Tidy(more) && InputVoice(more) == InputVoice(input) + Voice(role, Chars(text))
  {
    if text == "" {
      assert InputVoice(input) + [] == InputVoice(input);
      return input;
    }
    SaidText(input, role, text);
    return input + [Said(role, [Text(text)])];
  }

  lemma {:induction false} SaidText(input: seq<Entry>, role: string, text: string)
    requires Tidy(input) && text != ""
    ensures var more := input + [Said(role, [Text(text)])];
            Tidy(more) && InputVoice(more) == InputVoice(input) + Voice(role, Chars(text))
  {
    AtomsOne(Text(text));
    InputSnoc(input, Said(role, [Text(text)]));
  }

  method PushItems(input: seq<Entry>, items: seq<Item>) returns (more: seq<Entry>)
    requires Tidy(input) && Canonical(items)
    ensures Tidy(more) && InputVoice(more) == InputVoice(input) + Voice("user", Atoms(items))
  {
    if items == [] {
      assert InputVoice(input) + [] == InputVoice(input);
      return input;
    }
    InputSnoc(input, Said("user", items));
    return input + [Said("user", items)];
  }

  datatype Input = Input(input: seq<Entry>) | Skip(field: string)

  /** One message of the conversation. */
  method PushMessage(js: Builtins, media: string -> bool, input: seq<Entry>, message: Json) returns (r: Input)
    requires Tidy(input)
    ensures match MessageVoice(js, media, message)
            case Unclear(field) => r == Skip(field)
            case Heard(voice) => r.Input? && Tidy(r.input) && InputVoice(r.input) == InputVoice(input) + voice
  {
    var role, content := Get(message, "role"), Get(message, "content");
    if role == Str("user") {
      var items := UserContentToItems(media, content);
      if items.None? { return Skip("messages.content"); }
      var more := PushItems(input, items.value);
      return Input(more);
    }
    if Speaks(role) {
      var text := ContentText(content);
      if text.None? { return Skip("messages.content"); }
      var said := PushText(input, role.s, text.value);
      var more := PushCalls(js, said, AssistantCalls(message));
      if more.None? { return Skip("messages.tool_calls"); }
      Assoc(InputVoice(input), Voice(role.s, Chars(text.value)), CallsVoice(js, AssistantCalls(message)).value);
      return Input(more.value);
    }
    if role == Str("tool") {
      var text := ContentText(content);
      if text.None? { return Skip("messages.content"); }
      var entry := Returned(js.text(OrElse(Get(message, "tool_call_id"), Str(""))), text.value);
      InputSnoc(input, entry);
      return Input(input + [entry]);
    }
    return Skip("messages.role");
  }

  lemma {:induction false} ConversationStep(js: Builtins, media: string -> bool, messages: seq<Json>, k: nat)
    requires k < |messages| && ConversationVoice(js, media, messages[..k]).Heard?
    ensures ConversationVoice(js, media, messages[..k + 1]) ==
            match MessageVoice(js, media, messages[k])
            case Unclear(field) => Unclear(field)
            case Heard(voice) => Heard(ConversationVoice(js, media, messages[..k]).voice + voice)
  {
    assert messages[..k + 1][..k] == messages[..k] && messages[..k + 1][k] == messages[k];
  }

  lemma {:induction false} UnclearBeyond(js: Builtins, media: string -> bool, messages: seq<Json>, k: nat)
    requires k <= |messages| && ConversationVoice(js, media, messages[..k]).Unclear?
    ensures ConversationVoice(js, media, messages) == ConversationVoice(js, media, messages[..k])
    decreases |messages|
  {
    if k < |messages| {
      assert messages[..|messages| - 1][..k] == messages[..k];
      UnclearBeyond(js, media, messages[..|messages| - 1], k);
    } else {
      assert messages[..k] == messages;
    }
  }

  /**
    * The input says just what the conversation says, with one turn for each message that says something, cut
    * the one canonical way, and each call and result an entry of its own, all in order; a conversation is
    * refused for the first message that is unclear, or for saying nothing at all.
    */
  method ToInput(js: Builtins, media: string -> bool, messages: Json) returns (r: Input)
    ensures match ConversationVoice(js, media, ItemsOf(messages))
            case Unclear(field) => r == Skip(field)
            case Heard(voice) =>
              if voice == [] then r == Skip("messages")
              else r.Input? && r.input != [] && Tidy(r.input) && InputVoice(r.input) == voice
  {
    var source := ItemsOf(messages);
    var input := [];
    ghost var said := [];
    for k := 0 to |source|
      invariant Tidy(input) && ConversationVoice(js, media, source[..k]) == Heard(said) && InputVoice(input) == said
    {
      ConversationStep(js, media, source, k);
      var pushed := PushMessage(js, media, input, source[k]);
      if pushed.Skip? {
        UnclearBeyond(js, media, source, k + 1);
        return pushed;
      }
      input, said := pushed.input, InputVoice(pushed.input);
    }
    assert source[..|source|] == source;
    return if input == [] then Skip("messages") else Input(input);
  }
}
