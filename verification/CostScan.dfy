/** `lastUsageObject`: finding the last `"usage": {…}` in raw JSON text, cut at its front anywhere. */
module CostScan {
  import opened Js

  // ---------------------------------------------------------------- the scanner

  function Shift(end: Option<nat>, k: nat): Option<nat> {
    if end.Some? then Some(end.value + k) else None
  }

  /** Where the brace stands that brings the depth back to zero, reading strings and escapes over. */
  function Scan(text: string, depth: int, inString: bool): Option<nat>
    decreases |text|
  {
    if text == "" then None
    else if inString then
      if text[0] == '\\' then (if |text| < 2 then None else Shift(Scan(text[2..], depth, true), 2))
      else Shift(Scan(text[1..], depth, text[0] != '"'), 1)
    else if text[0] == '"' then Shift(Scan(text[1..], depth, true), 1)
    else if text[0] == '{' then Shift(Scan(text[1..], depth + 1, false), 1)
    else if text[0] == '}' then (if depth - 1 == 0 then Some(0) else Shift(Scan(text[1..], depth - 1, false), 1))
    else Shift(Scan(text[1..], depth, false), 1)
  }

  /** The scan loop, started on an opening brace. */
  method ScanFrom(text: string, start: nat) returns (end: Option<nat>)
    requires start <= |text|
    ensures end == Shift(Scan(text[start..], 0, false), start)
    ensures end.Some? ==> end.value < |text|
  {
    var depth, inString, i := 0, false, start;
    while i < |text|
      invariant start <= i
      invariant i <= |text| ==> Shift(Scan(text[start..], 0, false), start) == Shift(Scan(text[i..], depth, inString), i)
      invariant i > |text| ==> Scan(text[start..], 0, false) == None
    {
      var ch := text[i];
      assert text[i..][0] == ch && text[i..][1..] == text[i + 1..];
      assert i + 2 <= |text| ==> text[i..][2..] == text[i + 2..];
      if inString {
        if ch == '\\' { i := i + 1; } else if ch == '"' { inString := false; }
      } else if ch == '"' {
        inString := true;
      } else if ch == '{' {
        depth := depth + 1;
      } else if ch == '}' {
        depth := depth - 1;
        if depth == 0 { return Some(i); }
      }
      i := i + 1;
    }
    return None;
  }

  // ---------------------------------------------------------------- the text of a JSON value

  datatype StrChar = Plain(c: char) | Escape(c: char)

  /**
    * JSON text as the scanner sees it: string literals, objects, and everything between (numbers,
    * literals, brackets, commas, colons, whitespace). Every printed JSON value is one of these.
    */
  datatype Node = Filler(text: string) | Literal(chars: seq<StrChar>) | Braces(inner: seq<Node>)

  function CharText(c: StrChar): string {
    match c
    case Plain(c) => [c]
    case Escape(c) => ['\\', c]
  }

  function CharsText(chars: seq<StrChar>): string {
    if chars == [] then "" else CharText(chars[0]) + CharsText(chars[1..])
  }

  function NodeText(node: Node): string {
    match node
    case Filler(text) => text
    case Literal(chars) => "\"" + CharsText(chars) + "\""
    case Braces(inner) => "{" + NodesText(inner) + "}"
  }

  function NodesText(nodes: seq<Node>): string {
    if nodes == [] then "" else NodeText(nodes[0]) + NodesText(nodes[1..])
  }

  /** What may stand between strings and braces; of letters JSON has only those of true, false, null and e. */
  predicate FillerChar(c: char) {
    c != '"' && c != '{' && c != '}' && c != '\\' && c != 'g'
  }

  predicate LiteralChar(c: StrChar) {
    c.Plain? ==> c.c != '"' && c.c != '\\'
  }

  predicate WellFormed(node: Node) {
    match node
    case Filler(text) => forall i :: 0 <= i < |text| ==> FillerChar(text[i])
    case Literal(chars) => forall i :: 0 <= i < |chars| ==> LiteralChar(chars[i])
    case Braces(inner) => AllWellFormed(inner)
  }

  predicate AllWellFormed(nodes: seq<Node>) {
    nodes == [] || (WellFormed(nodes[0]) && AllWellFormed(nodes[1..]))
  }

  lemma {:induction false} ScanFiller(text: string, rest: string, depth: int)
    requires forall i :: 0 <= i < |text| ==> FillerChar(text[i])
    ensures Scan(text + rest, depth, false) == Shift(Scan(rest, depth, false), |text|)
  {
    if text == "" {
      assert text + rest == rest;
    } else {
      TailAppend(text, rest);
      ScanFiller(text[1..], rest, depth);
    }
  }

  lemma {:induction false} ScanChars(chars: seq<StrChar>, rest: string, depth: int)
    requires forall i :: 0 <= i < |chars| ==> LiteralChar(chars[i])
    ensures Scan(CharsText(chars) + rest, depth, true) == Shift(Scan(rest, depth, true), |CharsText(chars)|)
  {
    if chars == [] {
      assert CharsText(chars) + rest == rest;
    } else {
      var tail := CharsText(chars[1..]) + rest;
      Assoc(CharText(chars[0]), CharsText(chars[1..]), rest);
      ScanChars(chars[1..], rest, depth);
      if chars[0].Plain? {
        assert ([chars[0].c] + tail)[1..] == tail;
      } else {
        assert (['\\', chars[0].c] + tail)[2..] == tail;
      }
    }
  }

  /** At depth one or more a whole text is read over, back to the depth it began at. */
  lemma {:induction false} ScanNodes(nodes: seq<Node>, rest: string, depth: int)
    requires AllWellFormed(nodes) && depth >= 1
    ensures Scan(NodesText(nodes) + rest, depth, false) == Shift(Scan(rest, depth, false), |NodesText(nodes)|)
    decreases nodes
  {
    if nodes == [] {
      assert NodesText(nodes) + rest == rest;
    } else {
      var tail := NodesText(nodes[1..]) + rest;
      Assoc(NodeText(nodes[0]), NodesText(nodes[1..]), rest);
      ScanNodes(nodes[1..], rest, depth);
      ScanNode(nodes[0], tail, depth);
    }
  }

  lemma {:induction false} ScanNode(node: Node, rest: string, depth: int)
    requires WellFormed(node) && depth >= 1
    ensures Scan(NodeText(node) + rest, depth, false) == Shift(Scan(rest, depth, false), |NodeText(node)|)
    decreases node
  {
    match node {
      case Filler(text) => ScanFiller(text, rest, depth);
      case Literal(chars) =>
        var text := CharsText(chars);
        assert (NodeText(node) + rest)[1..] == text + ("\"" + rest);
        ScanChars(chars, "\"" + rest, depth);
        assert ("\"" + rest)[1..] == rest;
      case Braces(inner) =>
        var text := NodesText(inner);
        assert (NodeText(node) + rest)[1..] == text + ("}" + rest);
        ScanNodes(inner, "}" + rest, depth + 1);
        assert ("}" + rest)[1..] == rest;
    }
  }

  /**
    * The brace scan is exact: started on the opening brace of any object text, with any nesting, escapes
    * and braces inside strings, it stops on that object's own closing brace, whatever follows.
    */
  lemma {:induction false} ScanExact(inner: seq<Node>, rest: string)
    requires AllWellFormed(inner)
    ensures Scan("{" + NodesText(inner) + "}" + rest, 0, false) == Some(|NodesText(inner)| + 1)
  {
    var text := NodesText(inner);
    var whole := "{" + text + "}" + rest;
    assert whole[1..] == text + ("}" + rest);
    ScanNodes(inner, "}" + rest, 1);
  }

  // Every rendered JSON value is such a text.

  datatype Value = Atom(token: string) | Quoted(chars: seq<StrChar>) | List(items: seq<Value>) | Record(members: seq<Member>)

  datatype Member = Member(name: seq<StrChar>, value: Value)

  function Render(v: Value): string {
    match v
    case Atom(token) => token
    case Quoted(chars) => NodeText(Literal(chars))
    case List(items) => "[" + RenderItems(items) + "]"
    case Record(members) => "{" + RenderMembers(members) + "}"
  }

  function RenderItems(items: seq<Value>): string {
    if items == [] then "" else Render(items[0]) + (if |items| == 1 then "" else ",") + RenderItems(items[1..])
  }

  function RenderMembers(members: seq<Member>): string {
    if members == [] then ""
    else NodeText(Literal(members[0].name)) + ":" + Render(members[0].value) +
         (if |members| == 1 then "" else ",") + RenderMembers(members[1..])
  }

  predicate IsJson(v: Value) {
    match v
    case Atom(token) => WellFormed(Filler(token))
    case Quoted(chars) => WellFormed(Literal(chars))
    case List(items) => forall i :: 0 <= i < |items| ==> IsJson(items[i])
    case Record(members) => forall i :: 0 <= i < |members| ==> WellFormed(Literal(members[i].name)) && IsJson(members[i].value)
  }

  lemma {:induction false} NodesAppend(a: seq<Node>, b: seq<Node>)
    ensures NodesText(a + b) == NodesText(a) + NodesText(b)
    ensures AllWellFormed(a + b) <==> AllWellFormed(a) && AllWellFormed(b)
    decreases |a|
  {
    if a == [] {
      assert a + b == b;
    } else {
      TailAppend(a, b);
      NodesAppend(a[1..], b);
      Assoc(NodeText(a[0]), NodesText(a[1..]), NodesText(b));
    }
  }

  lemma {:induction false} OneNode(node: Node)
    ensures NodesText([node]) == NodeText(node) && (AllWellFormed([node]) <==> WellFormed(node))
  {
    assert NodesText([node]) == NodeText(node) + NodesText([]);
  }

  lemma {:induction false} RenderedIsText(v: Value) returns (nodes: seq<Node>)
    requires IsJson(v)
    ensures AllWellFormed(nodes) && NodesText(nodes) == Render(v)
    ensures v.Record? ==> |nodes| == 1 && nodes[0].Braces?
    decreases v, 2
  {
    match v {
      case Atom(token) => nodes := [Filler(token)]; OneNode(nodes[0]);
      case Quoted(chars) => nodes := [Literal(chars)]; OneNode(nodes[0]);
      case List(items) =>
        var inner := ItemsAreText(v, items);
        nodes := Between(Filler("["), inner, Filler("]"));
      case Record(members) =>
        var inner := MembersAreText(v, members);
        nodes := [Braces(inner)];
        OneNode(nodes[0]);
    }
  }

  lemma {:induction false} Between(first: Node, inner: seq<Node>, last: Node) returns (nodes: seq<Node>)
    requires WellFormed(first) && AllWellFormed(inner) && WellFormed(last)
    ensures AllWellFormed(nodes) && NodesText(nodes) == NodeText(first) + NodesText(inner) + NodeText(last)
  {
    nodes := [first] + inner + [last];
    OneNode(first);
    OneNode(last);
    NodesAppend([first], inner);
    NodesAppend([first] + inner, [last]);
  }

  lemma {:induction false} ItemsAreText(v: Value, items: seq<Value>) returns (nodes: seq<Node>)
    requires forall i :: 0 <= i < |items| ==> IsJson(items[i]) && items[i] < v
    ensures AllWellFormed(nodes) && NodesText(nodes) == RenderItems(items)
    decreases v, 1, |items|
  {
    if items == [] {
      nodes := [];
    } else {
      var head := RenderedIsText(items[0]);
      var tail := ItemsAreText(v, items[1..]);
      var comma := Filler(if |items| == 1 then "" else ",");
      OneNode(comma);
      NodesAppend(head, [comma]);
      NodesAppend(head + [comma], tail);
      nodes := head + [comma] + tail;
    }
  }

  lemma {:induction false} MembersAreText(v: Value, members: seq<Member>) returns (nodes: seq<Node>)
    requires forall i :: 0 <= i < |members| ==>
      WellFormed(Literal(members[i].name)) && IsJson(members[i].value) && members[i].value < v
    ensures AllWellFormed(nodes) && NodesText(nodes) == RenderMembers(members)
    decreases v, 1, |members|
  {
    if members == [] {
      nodes := [];
    } else {
      var value := RenderedIsText(members[0].value);
      var tail := MembersAreText(v, members[1..]);
      var comma := Filler(if |members| == 1 then "" else ",");
      var head := [Literal(members[0].name)] + [Filler(":")];
      OneNode(Literal(members[0].name));
      OneNode(Filler(":"));
      OneNode(comma);
      NodesAppend([Literal(members[0].name)], [Filler(":")]);
      NodesAppend(head, value);
      NodesAppend(head + value, [comma]);
      NodesAppend(head + value + [comma], tail);
      nodes := head + value + [comma] + tail;
    }
  }

  /** Read off any rendered JSON object: the scan stops on the object's own closing brace. */
  lemma {:induction false} RenderedScan(v: Value, rest: string)
    requires IsJson(v) && v.Record?
    ensures Scan(Render(v) + rest, 0, false) == Some(|Render(v)| - 1)
  {
    var nodes := RenderedIsText(v);
    OneNode(nodes[0]);
    ScanExact(nodes[0].inner, rest);
  }

  // ---------------------------------------------------------------- where strings begin and end

  datatype Lex = Outside | Inside | Escaping

  function Next(state: Lex, c: char): Lex {
    match state
    case Outside => if c == '"' then Inside else Outside
    case Inside => if c == '\\' then Escaping else if c == '"' then Outside else Inside
    case Escaping => Inside
  }

  /** The state after reading a text. */
  function After(state: Lex, text: string): Lex
    decreases |text|
  {
    if text == "" then state else After(Next(state, text[0]), text[1..])
  }

  lemma {:induction false} AfterAppend(state: Lex, a: string, b: string)
    ensures After(state, a + b) == After(After(state, a), b)
    decreases |a|
  {
    if a == "" {
      assert a + b == b;
    } else {
      TailAppend(a, b);
      AfterAppend(Next(state, a[0]), a[1..], b);
    }
  }

  /** Read further, one character at a time. */
  lemma {:induction false} AfterStep(state: Lex, text: string, p: nat)
    requires p < |text|
    ensures After(state, text[..p + 1]) == Next(After(state, text[..p]), text[p])
  {
    assert text[..p + 1] == text[..p] + [text[p]];
    AfterAppend(state, text[..p], [text[p]]);
    assert After(After(state, text[..p]), [text[p]]) == After(Next(After(state, text[..p]), text[p]), "");
  }

  lemma {:induction false} AfterChars(chars: seq<StrChar>)
    requires forall i :: 0 <= i < |chars| ==> LiteralChar(chars[i])
    ensures After(Inside, CharsText(chars)) == Inside
    ensures forall p :: 0 <= p <= |CharsText(chars)| ==> After(Inside, CharsText(chars)[..p]) != Outside
  {
    if chars != [] {
      AfterChars(chars[1..]);
      var head, tail := CharText(chars[0]), CharsText(chars[1..]);
      AfterAppend(Inside, head, tail);
      assert After(Inside, head) == Inside by {
        if chars[0].Escape? {
          assert head[1..] == [chars[0].c] && After(Escaping, [chars[0].c]) == After(Inside, [chars[0].c][1..]);
        } else {
          assert head[1..] == "";
        }
      }
      forall p | 0 <= p <= |head + tail|
        ensures After(Inside, (head + tail)[..p]) != Outside
      {
        if p < |head| {
          assert (head + tail)[..p] == head[..p];
          assert p == 0 || (p == 1 && head[..1] == ['\\'] && ['\\'][1..] == "");
        } else {
          assert (head + tail)[..p] == head + tail[..p - |head|];
          AfterAppend(Inside, head, tail[..p - |head|]);
        }
      }
    }
  }

  /** What a reader outside strings can meet in a well-formed text: an opening brace only where an object begins. */
  ghost predicate Met(text: string, p: nat)
    requires p < |text|
  {
    text[p] != 'g' && (text[p] == '{' ==> exists inner, rest :: ObjectAt(text[p..], inner, rest))
  }

  ghost predicate ObjectAt(text: string, inner: seq<Node>, rest: string) {
    AllWellFormed(inner) && text == "{" + NodesText(inner) + "}" + rest
  }

  /** Whatever is met in one part is met in the whole. */
  lemma {:induction false} MetWithin(before: string, text: string, after: string, p: nat)
    requires p < |text| && Met(text, p)
    ensures Met(before + text + after, |before| + p)
  {
    var whole := before + text + after;
    assert whole[|before| + p] == text[p];
    if text[p] == '{' {
      var inner, rest :| ObjectAt(text[p..], inner, rest);
      assert whole[|before| + p..] == text[p..] + after;
      assert text[p..] + after == "{" + NodesText(inner) + "}" + (rest + after);
      assert ObjectAt(whole[|before| + p..], inner, rest + after);
    }
  }

  lemma {:induction false} OutsideNodes(nodes: seq<Node>)
    requires AllWellFormed(nodes)
    ensures After(Outside, NodesText(nodes)) == Outside
    ensures forall p :: 0 <= p < |NodesText(nodes)| && After(Outside, NodesText(nodes)[..p]) == Outside ==>
        Met(NodesText(nodes), p)
    decreases nodes
  {
    if nodes != [] {
      OutsideNode(nodes[0]);
      OutsideNodes(nodes[1..]);
      OutsideTwo(NodeText(nodes[0]), NodesText(nodes[1..]));
    }
  }

  lemma {:induction false} OutsideTwo(a: string, b: string)
    requires After(Outside, a) == Outside && After(Outside, b) == Outside
    requires forall p :: 0 <= p < |a| && After(Outside, a[..p]) == Outside ==> Met(a, p)
    requires forall p :: 0 <= p < |b| && After(Outside, b[..p]) == Outside ==> Met(b, p)
    ensures After(Outside, a + b) == Outside
    ensures forall p :: 0 <= p < |a + b| && After(Outside, (a + b)[..p]) == Outside ==> Met(a + b, p)
  {
    AfterAppend(Outside, a, b);
    forall p | 0 <= p < |a + b| && After(Outside, (a + b)[..p]) == Outside
      ensures Met(a + b, p)
    {
      if p < |a| {
        assert (a + b)[..p] == a[..p];
        MetWithin("", a, b, p);
        assert "" + a + b == a + b;
      } else {
        assert (a + b)[..p] == a + b[..p - |a|];
        AfterAppend(Outside, a, b[..p - |a|]);
        MetWithin(a, b, "", p - |a|);
        assert a + b + "" == a + b;
      }
    }
  }

  lemma {:induction false} OutsideNode(node: Node)
    requires WellFormed(node)
    ensures After(Outside, NodeText(node)) == Outside
    ensures forall p :: 0 <= p < |NodeText(node)| && After(Outside, NodeText(node)[..p]) == Outside ==>
        Met(NodeText(node), p)
    decreases node
  {
    match node {
      case Filler(text) => OutsideFiller(text);
      case Literal(chars) => OutsideLiteral(chars);
      case Braces(inner) =>
        OutsideNodes(inner);
        OutsideBraces(inner);
    }
  }

  lemma {:induction false} OutsideFiller(text: string)
    requires forall i :: 0 <= i < |text| ==> FillerChar(text[i])
    ensures After(Outside, text) == Outside
  {
    if text != "" { OutsideFiller(text[1..]); }
  }

  lemma {:induction false} OutsideLiteral(chars: seq<StrChar>)
    requires forall i :: 0 <= i < |chars| ==> LiteralChar(chars[i])
    ensures var text := NodeText(Literal(chars));
            After(Outside, text) == Outside &&
            forall p :: 0 < p < |text| ==> After(Outside, text[..p]) != Outside
  {
    var body := CharsText(chars);
    var text := "\"" + body + "\"";
    AfterChars(chars);
    forall p | 0 < p < |text|
      ensures After(Outside, text[..p]) == After(Inside, body[..p - 1])
    {
      assert text[..p][1..] == body[..p - 1];
    }
    assert text[..|text| - 1][1..] == body[..|body|] == body;
    AfterStep(Outside, text, |text| - 1);
    assert text[..|text|] == text;
  }

  lemma {:induction false} OutsideBraces(inner: seq<Node>)
    requires AllWellFormed(inner)
    requires After(Outside, NodesText(inner)) == Outside
    requires forall p :: 0 <= p < |NodesText(inner)| && After(Outside, NodesText(inner)[..p]) == Outside ==>
        Met(NodesText(inner), p)
    ensures var text := NodeText(Braces(inner));
            After(Outside, text) == Outside &&
            forall p :: 0 <= p < |text| && After(Outside, text[..p]) == Outside ==> Met(text, p)
  {
    var body := NodesText(inner);
    var text := "{" + body + "}";
    assert text[1..] == body + "}";
    AfterAppend(Outside, body, "}");
    forall p | 0 <= p < |text| && After(Outside, text[..p]) == Outside
      ensures Met(text, p)
    {
      if p == 0 {
        assert text + "" == text && text[0..] == text;
        assert ObjectAt(text[0..], inner, "");
      } else if p <= |body| {
        assert text[..p][1..] == body[..p - 1];
        MetWithin("{", body, "}", p - 1);
      }
    }
  }

  // ---------------------------------------------------------------- the last "usage" object

  const USAGE := "\"usage\""

  function SkipSpace(text: string, i: nat): (j: nat)
    requires i <= |text|
    ensures i <= j <= |text|
    ensures forall k :: i <= k < j ==> IsSpace(text[k])
    ensures j < |text| ==> !IsSpace(text[j])
    decreases |text| - i
  {
    if i < |text| && IsSpace(text[i]) then SkipSpace(text, i + 1) else i
  }

  /** The pattern at `p`: `"usage"`, no backslash before it, then a colon and a brace; where the brace stands. */
  function MatchAt(text: string, p: nat): (brace: Option<nat>)
    requires p <= |text|
    ensures brace.Some? ==> p + 7 <= brace.value < |text| && text[brace.value] == '{'
  {
    if !(USAGE <= text[p..]) || (p > 0 && text[p - 1] == '\\') then None
    else
      var colon := SkipSpace(text, p + 7);
      if colon == |text| || text[colon] != ':' then None
      else
        var brace := SkipSpace(text, colon + 1);
        if brace < |text| && text[brace] == '{' then Some(brace) else None
  }

  /** The brace of the last match starting before `n`. */
  function LastMatchBelow(text: string, n: nat): (brace: Option<nat>)
    requires n <= |text| + 1
    ensures brace.Some? ==> brace.value < |text|
  {
    if n == 0 then None
    else if MatchAt(text, n - 1).Some? then MatchAt(text, n - 1)
    else LastMatchBelow(text, n - 1)
  }

  /** The left-to-right search. (Matches cannot overlap, so it ends at the last position that matches.) */
  method LastMatch(text: string) returns (start: Option<nat>)
    ensures start == LastMatchBelow(text, |text| + 1)
  {
    start := None;
    for p := 0 to |text| + 1
      invariant start == LastMatchBelow(text, p)
    {
      var found := MatchAt(text, p);
      if found.Some? { start := found; }
    }
  }

  lemma {:induction false} ScanEnd(text: string, depth: int, inString: bool)
    ensures Scan(text, depth, inString).Some? ==> Scan(text, depth, inString).value < |text|
    decreases |text|
  {
    if text != "" {
      if |text| > 1 { ScanEnd(text[2..], depth, true); }
      ScanEnd(text[1..], depth, true);
      ScanEnd(text[1..], depth, false);
      ScanEnd(text[1..], depth + 1, false);
      ScanEnd(text[1..], depth - 1, false);
    }
  }

  /** The text of the last "usage" object: from the last match's brace to the brace the scan stops on. */
  function UsageSlice(text: string): Option<string> {
    var start := LastMatchBelow(text, |text| + 1);
    if start.None? then None
    else
      var end := Scan(text[start.value..], 0, false);
      ScanEnd(text[start.value..], 0, false);
      if end.None? then None else Some(text[start.value..start.value + end.value + 1])
  }

  /** The text of the object behind the last match, when its closing brace is there. */
  ghost predicate IsLastUsage(text: string, found: Option<string>) {
    (found.None? ==>
       forall p :: 0 <= p <= |text| ==> LastAt(text, p) ==> Scan(text[MatchAt(text, p).value..], 0, false).None?) &&
    (found.Some? ==>
       exists p :: 0 <= p <= |text| && LastAt(text, p) && ScannedAt(text, MatchAt(text, p).value, found.value))
  }

  ghost predicate LastAt(text: string, p: nat)
    requires p <= |text|
  {
    MatchAt(text, p).Some? && forall q :: p < q <= |text| ==> MatchAt(text, q).None?
  }

  ghost predicate ScannedAt(text: string, brace: nat, slice: string)
    requires brace < |text|
  {
    var end := Scan(text[brace..], 0, false);
    end.Some? && brace + end.value < |text| && slice == text[brace..brace + end.value + 1]
  }

  /** `lastUsageObject`, up to parsing the slice. */
  method LastUsage(text: string) returns (found: Option<string>)
    ensures found == UsageSlice(text)
  {
    var start := LastMatch(text);
    if start.None? { return None; }
    var end := ScanFrom(text, start.value);
    if end.None? { return None; }
    return Some(text[start.value..end.value + 1]);
  }

  lemma {:induction false} NoMatchBelow(text: string, n: nat)
    requires n <= |text| + 1 && LastMatchBelow(text, n).None?
    ensures forall q :: 0 <= q < n ==> MatchAt(text, q).None?
  {
    if n > 0 { NoMatchBelow(text, n - 1); }
  }

  /** The last match starting before `n` stands at `p`. */
  ghost predicate LastBelow(text: string, n: nat, p: nat)
    requires n <= |text| + 1
  {
    p < n && MatchAt(text, p).Some? && forall q :: p < q < n ==> MatchAt(text, q).None?
  }

  lemma {:induction false} LastMatchIsLast(text: string, n: nat) returns (p: nat)
    requires n <= |text| + 1 && LastMatchBelow(text, n).Some?
    ensures LastBelow(text, n, p) && MatchAt(text, p) == LastMatchBelow(text, n)
  {
    var here := n - 1;
    if MatchAt(text, here).Some? {
      p := here;
    } else {
      p := LastMatchIsLast(text, here);
      OneBelow(text, here, p);
    }
  }

  lemma {:induction false} OneBelow(text: string, n: nat, p: nat)
    requires n <= |text| && LastBelow(text, n, p) && MatchAt(text, n).None?
    ensures LastBelow(text, n + 1, p)
  {
  }

  lemma {:induction false} OnlyLast(text: string, p: nat)
    requires LastBelow(text, |text| + 1, p)
    ensures LastAt(text, p) && forall q :: 0 <= q <= |text| && LastAt(text, q) ==> q == p
  {
  }

  lemma {:induction false} UsageSliceIsLast(text: string)
    ensures IsLastUsage(text, UsageSlice(text))
  {
    var start := LastMatchBelow(text, |text| + 1);
    if start.None? {
      NoMatchBelow(text, |text| + 1);
    } else {
      var p := LastMatchIsLast(text, |text| + 1);
      OnlyLast(text, p);
      SliceScanned(text, start.value);
    }
  }

  lemma {:induction false} SliceScanned(text: string, brace: nat)
    requires LastMatchBelow(text, |text| + 1) == Some(brace) && brace < |text|
    ensures match UsageSlice(text)
            case None => Scan(text[brace..], 0, false).None?
            case Some(slice) => ScannedAt(text, brace, slice)
  {
    ScanEnd(text[brace..], 0, false);
  }

  /** Reading a character that is not a quote leaves a reader outside strings outside. */
  lemma {:induction false} StaysOutside(line: string, from: nat, upto: nat)
    requires from <= upto <= |line| && After(Outside, line[..from]) == Outside
    requires forall k :: from <= k < upto ==> line[k] != '"'
    ensures After(Outside, line[..upto]) == Outside
    decreases upto
  {
    if from < upto {
      StaysOutside(line, from, upto - 1);
      AfterStep(Outside, line, upto - 1);
    }
  }

  /** `"usage"` stands at a position, character by character. */
  predicate UsageAt(line: string, at: nat) {
    at + 7 <= |line| && line[at] == '"' && line[at + 1] == 'u' && line[at + 2] == 's' && line[at + 3] == 'a' &&
    line[at + 4] == 'g' && line[at + 5] == 'e' && line[at + 6] == '"'
  }

  /** Outside strings there is no g: so the word is read inside one, and its closing quote ends it. */
  lemma {:induction false} UsageEnds(line: string, at: nat)
    requires UsageAt(line, at) && After(Outside, line[..at + 4]) != Outside
    ensures After(Outside, line[..at + 7]) == Outside
  {
    AfterStep(Outside, line, at + 4);
    AfterStep(Outside, line, at + 5);
    AfterStep(Outside, line, at + 6);
  }

  /** And its opening quote begins it, unless a backslash escapes that quote. */
  lemma {:induction false} UsageBegins(line: string, at: nat)
    requires UsageAt(line, at) && After(Outside, line[..at + 4]) != Outside
    requires at == 0 || line[at - 1] != '\\'
    ensures After(Outside, line[..at]) == Outside
  {
    AfterStep(Outside, line, at);
    AfterStep(Outside, line, at + 1);
    AfterStep(Outside, line, at + 2);
    AfterStep(Outside, line, at + 3);
    if at > 0 { AfterStep(Outside, line, at - 1); }
  }

  lemma {:induction false} MatchIsUsage(line: string, cut: nat, p: nat)
    requires cut <= |line| && p <= |line[cut..]| && MatchAt(line[cut..], p).Some?
    ensures UsageAt(line, cut + p) && (p > 0 ==> line[cut + p - 1] != '\\')
  {
    var text := line[cut..];
    assert forall k :: 0 <= k < 7 ==> text[p..][k] == USAGE[k] && line[cut + p + k] == text[p..][k];
    assert p > 0 ==> text[p - 1] == line[cut + p - 1];
  }

  // What is matched or scanned to its end in a text is so whatever follows the text.

  lemma {:induction false} SkipWithin(a: string, b: string, i: nat)
    requires i <= |a| && SkipSpace(a, i) < |a|
    ensures SkipSpace(a + b, i) == SkipSpace(a, i)
    decreases |a| - i
  {
    assert (a + b)[i] == a[i];
    if IsSpace(a[i]) { SkipWithin(a, b, i + 1); }
  }

  lemma {:induction false} NameWithin(a: string, b: string, p: nat)
    requires p <= |a| && USAGE <= a[p..]
    ensures USAGE <= (a + b)[p..] && (p > 0 ==> (a + b)[p - 1] == a[p - 1])
  {
    assert (a + b)[p..] == a[p..] + b;
  }

  lemma {:induction false} MatchWithin(a: string, b: string, p: nat)
    requires p <= |a| && MatchAt(a, p).Some?
    ensures MatchAt(a + b, p) == MatchAt(a, p)
  {
    NameWithin(a, b, p);
    var colon := SkipSpace(a, p + 7);
    var brace := SkipSpace(a, colon + 1);
    SkipWithin(a, b, p + 7);
    SkipWithin(a, b, colon + 1);
    CharWithin(a, b, colon);
    CharWithin(a, b, brace);
    MatchParts(a + b, p, colon, brace);
  }

  lemma {:induction false} MatchParts(text: string, p: nat, colon: nat, brace: nat)
    requires p + 7 <= |text| && USAGE <= text[p..] && (p > 0 ==> text[p - 1] != '\\')
    requires SkipSpace(text, p + 7) == colon < |text| && text[colon] == ':'
    requires SkipSpace(text, colon + 1) == brace < |text| && text[brace] == '{'
    ensures MatchAt(text, p) == Some(brace)
  {
  }

  lemma {:induction false} CharWithin(a: string, b: string, i: nat)
    requires i < |a|
    ensures (a + b)[i] == a[i]
  {
  }

  lemma {:induction false} ScanWithin(a: string, b: string, depth: int, inString: bool)
    requires Scan(a, depth, inString).Some?
    ensures Scan(a + b, depth, inString) == Scan(a, depth, inString)
    decreases |a|
  {
    TailAppend(a, b);
    if inString && a[0] == '\\' {
      TailAppend(a[1..], b);
      BehindTwo(a, b);
      ScanWithin(a[2..], b, depth, true);
    } else if inString {
      ScanWithin(a[1..], b, depth, a[0] != '"');
    } else if a[0] == '"' {
      ScanWithin(a[1..], b, depth, true);
    } else if a[0] == '{' {
      ScanWithin(a[1..], b, depth + 1, false);
    } else if a[0] != '}' {
      ScanWithin(a[1..], b, depth, false);
    } else if depth != 1 {
      ScanWithin(a[1..], b, depth - 1, false);
    }
  }

  lemma {:induction false} BehindTwo(a: string, b: string)
    requires |a| >= 2
    ensures (a + b)[2..] == a[2..] + b
  {
  }

  lemma {:induction false} MatchInWhole(whole: string, end: nat, p: nat)
    requires p <= end <= |whole| && MatchAt(whole[..end], p).Some?
    ensures MatchAt(whole, p) == MatchAt(whole[..end], p)
  {
    assert whole[..end] + whole[end..] == whole;
    MatchWithin(whole[..end], whole[end..], p);
  }

  /**
    * A match never lies inside a string value. In a JSON line cut anywhere at its front and at its end, inside
    * a string or behind a backslash too, the closing quote of a matched `"usage"` is where a string ends; and
    * unless the match sits right at the front, the string that ends there is the whole member name.
    */
  lemma {:induction false} MatchEndsString(nodes: seq<Node>, line: string, cut: nat, end: nat, p: nat, at: nat)
    requires AllWellFormed(nodes) && line == NodesText(nodes) && cut <= |line|
    requires p <= end <= |line[cut..]| && MatchAt(line[cut..][..end], p).Some? && at == cut + p
    ensures at + 7 <= |line| && After(Outside, line[..at + 7]) == Outside
    ensures p > 0 || cut == 0 ==> After(Outside, line[..at]) == Outside
  {
    MatchPlaced(line, cut, end, p, at);
    UsageIsString(nodes, line, at);
  }

  lemma {:induction false} MatchPlaced(line: string, cut: nat, end: nat, p: nat, at: nat)
    requires cut <= |line| && p <= end <= |line[cut..]| && at == cut + p && MatchAt(line[cut..][..end], p).Some?
    ensures UsageAt(line, at) && (p > 0 ==> line[at - 1] != '\\')
  {
    MatchInWhole(line[cut..], end, p);
    MatchIsUsage(line, cut, p);
  }

  lemma {:induction false} NameEndsString(nodes: seq<Node>, line: string, cut: nat, p: nat, at: nat)
    requires AllWellFormed(nodes) && line == NodesText(nodes) && cut <= |line| && p <= |line[cut..]| && at == cut + p
    requires MatchAt(line[cut..], p).Some?
    ensures at + 7 <= |line| && After(Outside, line[..at + 7]) == Outside
    ensures p > 0 || cut == 0 ==> After(Outside, line[..at]) == Outside
  {
    MatchIsUsage(line, cut, p);
    UsageIsString(nodes, line, at);
  }

  lemma {:induction false} UsageIsString(nodes: seq<Node>, line: string, at: nat)
    requires AllWellFormed(nodes) && line == NodesText(nodes) && UsageAt(line, at)
    ensures After(Outside, line[..at + 7]) == Outside
    ensures at == 0 || line[at - 1] != '\\' ==> After(Outside, line[..at]) == Outside
  {
    LettersInside(nodes, line, at + 4);
    UsageEnds(line, at);
    if at == 0 || line[at - 1] != '\\' { UsageBegins(line, at); }
  }

  /** Outside strings no g is met. */
  lemma {:induction false} LettersInside(nodes: seq<Node>, line: string, p: nat)
    requires AllWellFormed(nodes) && line == NodesText(nodes) && p < |line| && line[p] == 'g'
    ensures After(Outside, line[..p]) != Outside
  {
    OutsideNodes(nodes);
    assert !Met(line, p);
  }

  /** Between the matched name and the matched brace no string begins. */
  lemma {:induction false} MatchGap(text: string, p: nat)
    requires p <= |text| && MatchAt(text, p).Some?
    ensures forall k :: p + 7 <= k < MatchAt(text, p).value ==> text[k] != '"'
  {
    var colon := SkipSpace(text, p + 7);
  }

  lemma {:induction false} GapInLine(line: string, cut: nat, start: nat, end: nat)
    requires cut <= |line| && start <= end < |line[cut..]|
    requires forall k :: start <= k < end ==> line[cut..][k] != '"'
    ensures forall k :: cut + start <= k < cut + end ==> line[k] != '"'
    ensures line[cut + end] == line[cut..][end]
  {
    forall k | cut + start <= k < cut + end ensures line[k] != '"' {
      assert line[k] == line[cut..][k - cut];
    }
  }

  lemma {:induction false} MatchBrace(nodes: seq<Node>, cut: nat, p: nat) returns (brace: nat)
    requires AllWellFormed(nodes) && cut <= |NodesText(nodes)|
    requires p <= |NodesText(nodes)[cut..]| && MatchAt(NodesText(nodes)[cut..], p).Some?
    ensures MatchAt(NodesText(nodes)[cut..], p) == Some(brace) && cut + brace < |NodesText(nodes)|
    ensures NodesText(nodes)[cut + brace] == '{' && After(Outside, NodesText(nodes)[..cut + brace]) == Outside
  {
    var line := NodesText(nodes);
    brace := MatchAt(line[cut..], p).value;
    BraceOutside(nodes, line, cut, p, brace, cut + p, cut + brace);
  }

  lemma {:induction false} BraceOutside(
      nodes: seq<Node>, line: string, cut: nat, p: nat, brace: nat, at: nat, stop: nat)
    requires AllWellFormed(nodes) && line == NodesText(nodes) && cut <= |line| && p <= |line[cut..]|
    requires MatchAt(line[cut..], p) == Some(brace) && at == cut + p && stop == cut + brace
    ensures stop < |line| && line[stop] == '{' && After(Outside, line[..stop]) == Outside
  {
    NameEndsString(nodes, line, cut, p, at);
    GapOutside(line, line[cut..], cut, p, brace, at + 7, stop);
  }

  lemma {:induction false} GapOutside(
      line: string, text: string, cut: nat, p: nat, brace: nat, start: nat, stop: nat)
    requires cut <= |line| && text == line[cut..] && p <= |text| && MatchAt(text, p) == Some(brace)
    requires start == cut + p + 7 && stop == cut + brace && After(Outside, line[..start]) == Outside
    ensures stop < |line| && line[stop] == '{' && After(Outside, line[..stop]) == Outside
  {
    MatchGap(text, p);
    GapInLine(line, cut, p + 7, brace);
    StaysOutside(line, start, stop);
  }

  /** The matched brace opens an object of the line, whole. */
  lemma {:induction false} MatchOpensObject(nodes: seq<Node>, cut: nat, p: nat)
    requires AllWellFormed(nodes) && cut <= |NodesText(nodes)|
    requires p <= |NodesText(nodes)[cut..]| && MatchAt(NodesText(nodes)[cut..], p).Some?
    ensures var text := NodesText(nodes)[cut..];
            exists inner, rest :: ObjectAt(text[MatchAt(text, p).value..], inner, rest)
  {
    var brace := MatchBrace(nodes, cut, p);
    OutsideNodes(nodes);
    assert Met(NodesText(nodes), cut + brace);
    assert NodesText(nodes)[cut + brace..] == NodesText(nodes)[cut..][brace..];
  }

  lemma {:induction false} ObjectScanned(text: string, brace: nat, inner: seq<Node>, rest: string)
    requires brace < |text| && ObjectAt(text[brace..], inner, rest)
    ensures ScannedAt(text, brace, NodeText(Braces(inner)))
  {
    ScanExact(inner, rest);
    var n := |NodesText(inner)|;
    assert text[brace..][..n + 2] == "{" + NodesText(inner) + "}";
    assert text[brace..brace + n + 2] == text[brace..][..n + 2];
  }

  /** The text of the whole object that the last match opens. */
  ghost predicate IsLastObject(text: string, found: string) {
    exists p, inner, rest ::
      0 <= p <= |text| && LastAt(text, p) && ObjectAt(text[MatchAt(text, p).value..], inner, rest) &&
      found == NodeText(Braces(inner))
  }

  /** The object that opens at the brace is not closed before `end`. */
  ghost predicate Unclosed(whole: string, brace: nat, end: nat) {
    brace <= |whole| &&
    exists inner, rest :: ObjectAt(whole[brace..], inner, rest) && end < brace + |NodeText(Braces(inner))|
  }

  /**
    * What `lastUsageObject` reads off the tail of an over-long line is the whole object behind its last
    * match. For every JSON line, cut anywhere at its front and at its end, a match opens an object of the
    * line; it is scanned to its end, unless the line is cut off before that, and just then, or where nothing
    * matches, nothing is read.
    */
  lemma {:induction false} UsageIsWholeObject(nodes: seq<Node>, cut: nat, end: nat, whole: string, text: string)
    requires AllWellFormed(nodes) && cut <= |NodesText(nodes)| && whole == NodesText(nodes)[cut..]
    requires end <= |whole| && text == whole[..end]
    ensures UsageSlice(text).Some? ==> IsLastObject(text, UsageSlice(text).value)
    ensures UsageSlice(text).None? <==>
            forall p :: 0 <= p <= |text| && LastAt(text, p) ==> Unclosed(whole, MatchAt(text, p).value, end)
    ensures end == |whole| && UsageSlice(text).None? ==> forall p :: 0 <= p <= |text| ==> MatchAt(text, p).None?
  {
    if some: nat :| some <= |text| && MatchAt(text, some).Some? {
      var p := LastOne(text, some);
      OnlyLastAt(text, p);
      LastInCut(nodes, cut, end, whole, text, p);
    } else {
      NothingMatched(text);
    }
  }

  lemma {:induction false} NothingMatched(text: string)
    requires forall p :: 0 <= p <= |text| ==> MatchAt(text, p).None?
    ensures UsageSlice(text).None?
  {
    UsageSliceIsLast(text);
  }

  lemma {:induction false} LastInCut(nodes: seq<Node>, cut: nat, end: nat, whole: string, text: string, p: nat)
    requires AllWellFormed(nodes) && cut <= |NodesText(nodes)| && whole == NodesText(nodes)[cut..]
    requires end <= |whole| && text == whole[..end] && p <= |text| && LastAt(text, p)
    ensures if Unclosed(whole, MatchAt(text, p).value, end) then UsageSlice(text).None?
            else UsageSlice(text).Some? && IsLastObject(text, UsageSlice(text).value)
    ensures end == |whole| ==> !Unclosed(whole, MatchAt(text, p).value, end)
  {
    MatchInWhole(whole, end, p);
    MatchOpensObject(nodes, cut, p);
    var brace := MatchAt(text, p).value;
    var inner, rest :| ObjectAt(whole[brace..], inner, rest);
    ObjectInCut(whole, text, end, p, brace, inner, rest);
  }

  lemma {:induction false} OnlyLastAt(text: string, p: nat)
    requires p <= |text| && LastAt(text, p)
    ensures forall q :: 0 <= q <= |text| && LastAt(text, q) ==> q == p
  {
  }

  /** Objects opened at one brace are of one length. */
  lemma {:induction false} OneLength(text: string, inner: seq<Node>, rest: string, other: seq<Node>, behind: string)
    requires ObjectAt(text, inner, rest) && ObjectAt(text, other, behind)
    ensures |NodeText(Braces(inner))| == |NodeText(Braces(other))|
  {
    ScanExact(inner, rest);
    ScanExact(other, behind);
  }

  lemma {:induction false} UnclosedIs(whole: string, brace: nat, end: nat, inner: seq<Node>, rest: string)
    requires brace <= |whole| && ObjectAt(whole[brace..], inner, rest)
    ensures Unclosed(whole, brace, end) <==> end < brace + |NodeText(Braces(inner))|
  {
    if Unclosed(whole, brace, end) {
      var other, behind :| ObjectAt(whole[brace..], other, behind) && end < brace + |NodeText(Braces(other))|;
      OneLength(whole[brace..], inner, rest, other, behind);
    }
  }

  lemma {:induction false} ObjectKept(text: string, k: nat, inner: seq<Node>, rest: string)
    requires ObjectAt(text, inner, rest) && |NodeText(Braces(inner))| <= k <= |text|
    ensures ObjectAt(text[..k], inner, rest[..k - |NodeText(Braces(inner))|])
  {
    var braces := NodeText(Braces(inner));
    assert text[..k] == braces + rest[..k - |braces|];
  }

  /** The object that the last match opens is read just where it is closed. */
  lemma {:induction false} ObjectInCut(
      whole: string, text: string, end: nat, p: nat, brace: nat, inner: seq<Node>, rest: string)
    requires end <= |whole| && text == whole[..end] && p <= |text| && LastAt(text, p) && MatchAt(text, p) == Some(brace)
    requires ObjectAt(whole[brace..], inner, rest)
    ensures if Unclosed(whole, brace, end) then UsageSlice(text).None?
            else UsageSlice(text).Some? && IsLastObject(text, UsageSlice(text).value)
    ensures end == |whole| ==> !Unclosed(whole, brace, end)
  {
    UnclosedIs(whole, brace, end, inner, rest);
    assert text[brace..] == whole[brace..][..end - brace];
    var n := |NodeText(Braces(inner))|;
    if brace + n <= end {
      ObjectKept(whole[brace..], end - brace, inner, rest);
      LastObjectIsRead(text, p, inner, rest[..end - brace - n]);
    } else {
      CutOffUnread(whole, text, end, p, brace, inner, rest);
    }
  }

  lemma {:induction false} CutOffUnread(
      whole: string, text: string, end: nat, p: nat, brace: nat, inner: seq<Node>, rest: string)
    requires end <= |whole| && text == whole[..end] && p <= |text| && LastAt(text, p) && MatchAt(text, p) == Some(brace)
    requires ObjectAt(whole[brace..], inner, rest) && end < brace + |NodeText(Braces(inner))|
    ensures UsageSlice(text).None?
  {
    ReadIsScanned(text, p);
    assert text[brace..] == whole[brace..][..end - brace];
    CutOffUnscanned(whole[brace..], text[brace..], end - brace, inner, rest);
  }

  lemma {:induction false} ReadIsScanned(text: string, p: nat)
    requires p <= |text| && LastAt(text, p)
    ensures UsageSlice(text).Some? ==> Scan(text[MatchAt(text, p).value..], 0, false).Some?
  {
    UsageSliceIsLast(text);
    if found: string :| UsageSlice(text) == Some(found) {
      var q :| 0 <= q <= |text| && LastAt(text, q) && ScannedAt(text, MatchAt(text, q).value, found);
      OnlyLastAt(text, p);
    }
  }

  lemma {:induction false} CutOffUnscanned(text: string, cut: string, end: nat, inner: seq<Node>, rest: string)
    requires ObjectAt(text, inner, rest) && end < |NodeText(Braces(inner))| && end <= |text| && cut == text[..end]
    ensures Scan(cut, 0, false).None?
  {
    if Scan(cut, 0, false).Some? {
      assert cut + text[end..] == text;
      ScanWithin(cut, text[end..], 0, false);
      ScanEnd(cut, 0, false);
      ScanExact(inner, rest);
    }
  }

  /** The object behind the last match is what is read. */
  lemma {:induction false} LastObjectIsRead(text: string, p: nat, inner: seq<Node>, rest: string)
    requires p <= |text| && LastAt(text, p) && ObjectAt(text[MatchAt(text, p).value..], inner, rest)
    ensures UsageSlice(text) == Some(NodeText(Braces(inner)))
  {
    UsageSliceIsLast(text);
    ObjectScanned(text, MatchAt(text, p).value, inner, rest);
    LastUsageAt(text, UsageSlice(text), p);
  }

  lemma {:induction false} LastUsageAt(text: string, found: Option<string>, p: nat)
    requires IsLastUsage(text, found) && p <= |text| && LastAt(text, p)
    requires Scan(text[MatchAt(text, p).value..], 0, false).Some?
    ensures found.Some? && ScannedAt(text, MatchAt(text, p).value, found.value)
  {
    if found.Some? {
      var q :| 0 <= q <= |text| && LastAt(text, q) && ScannedAt(text, MatchAt(text, q).value, found.value);
      assert q == p;
    }
  }

  /** Where there is a match there is a last one. */
  lemma {:induction false} LastOne(text: string, p: nat) returns (last: nat)
    requires p <= |text| && MatchAt(text, p).Some?
    ensures last <= |text| && LastAt(text, last)
    decreases |text| - p
  {
    if q: nat :| p < q <= |text| && MatchAt(text, q).Some? {
      last := LastOne(text, q);
    } else {
      last := p;
    }
  }
}
