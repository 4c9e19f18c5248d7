/** Where the injected cache marks go, by the turns themselves. */
module AnthropicMarks {
  import opened Js
  import opened AnthropicRequest
  import opened AnthropicMessages

  // ---------------------------------------------------------------- which blocks, which turns

  /** Text that is more than whitespace. */
  predicate Worded(text: string) {
    exists i :: 0 <= i < |text| && !IsSpace(text[i])
  }

  predicate WordedText(block: Block) {
    block.TextBlock? && Worded(block.text)
  }

  /** A block that a mark may stand on: text, or a tool result with some in it. */
  predicate MayBear(block: Block) {
    match block
    case TextBlock(text, _) => Worded(text)
    case ToolResult(_, content, _) => exists i :: 0 <= i < |content| && WordedText(content[i])
    case _ => false
  }

  predicate MayHost(turn: Turn) {
    exists i :: 0 <= i < |turn.content| && MayBear(turn.content[i])
  }

  predicate IsAnchor(messages: seq<Turn>, a: nat) {
    a < |messages| && messages[a].role == User && MayHost(messages[a])
  }

  /** One of the last two user turns that may host: no two more come behind it. */
  ghost predicate IsLateAnchor(messages: seq<Turn>, a: nat) {
    IsAnchor(messages, a) && forall b: nat, c: nat :: a < b < c ==> !(IsAnchor(messages, b) && IsAnchor(messages, c))
  }

  /** The last turn that may host. */
  ghost predicate IsTail(messages: seq<Turn>, t: nat) {
    t < |messages| && MayHost(messages[t]) && forall i :: t < i < |messages| ==> !MayHost(messages[i])
  }

  ghost predicate IsHead(messages: seq<Turn>, t: nat) {
    t == 0 && messages != [] && MayHost(messages[0])
  }

  /** The earlier of the two late anchors goes where the first turn, both of them and the tail are four. */
  ghost predicate GivesWay(messages: seq<Turn>, a: nat) {
    exists b: nat, t: nat ::
      0 < a < b && IsLateAnchor(messages, a) && IsLateAnchor(messages, b) && IsHead(messages, 0) && IsTail(messages, t) &&
      t != 0 && t != a && t != b
  }

  /** A turn to mark: the first, the last two user turns, the last of all that may host, at most three of them. */
  ghost predicate ToMark(messages: seq<Turn>, t: nat) {
    (IsHead(messages, t) || IsLateAnchor(messages, t) || IsTail(messages, t)) && !GivesWay(messages, t)
  }

  function WithMark(block: Block, mark: Json): Block {
    block.(mark := Some(mark))
  }

  /** The turn with a mark of ours on its last block that may bear one. */
  ghost predicate Bears(turn: Turn, out: Turn) {
    exists i ::
      0 <= i < |turn.content| && MayBear(turn.content[i]) && (forall j :: i < j < |turn.content| ==> !MayBear(turn.content[j])) &&
      out == turn.(content := turn.content[i := WithMark(turn.content[i], Obj(map["type" := Str("ephemeral")]))])
  }

  // ---------------------------------------------------------------- the choice made is that one

  lemma {:induction false} TrimmedStart(s: string)
    ensures TrimStart(s) == "" <==> !Worded(s)
    ensures Worded(TrimStart(s)) <==> Worded(s)
  {
    if s != "" && IsSpace(s[0]) {
      TrimmedStart(s[1..]);
      assert forall i :: 0 < i < |s| ==> s[i] == s[1..][i - 1];
      assert forall i :: 0 <= i < |s[1..]| ==> s[1..][i] == s[i + 1];
    }
  }

  lemma {:induction false} TrimmedEnd(s: string)
    ensures TrimEnd(s) == "" <==> !Worded(s)
  {
    if s != "" && IsSpace(s[|s| - 1]) {
      var front := s[..|s| - 1];
      TrimmedEnd(front);
      assert forall i :: 0 <= i < |front| ==> front[i] == s[i];
    }
  }

  lemma {:induction false} Trimmed(s: string)
    ensures Trim(s) != "" <==> Worded(s)
  {
    TrimmedStart(s);
    TrimmedEnd(TrimStart(s));
  }

  lemma {:induction false} TextIs(block: Block)
    ensures CacheableText(block) <==> WordedText(block)
  {
    if block.TextBlock? { Trimmed(block.text); }
  }

  lemma {:induction false} BlockIs(block: Block)
    ensures Cacheable(block) <==> MayBear(block)
  {
    TextIs(block);
    if block.ToolResult? {
      forall i | 0 <= i < |block.content| ensures CacheableText(block.content[i]) <==> WordedText(block.content[i]) {
        TextIs(block.content[i]);
      }
    }
  }

  lemma {:induction false} TurnIs(turn: Turn)
    ensures Hosts(turn) <==> MayHost(turn)
  {
    forall i | 0 <= i < |turn.content| ensures Cacheable(turn.content[i]) <==> MayBear(turn.content[i]) {
      BlockIs(turn.content[i]);
    }
  }

  lemma {:induction false} MarkIs(turn: Turn)
    requires MayHost(turn)
    ensures Bears(turn, MarkTurn(turn))
  {
    TurnIs(turn);
    var i := LastCacheable(turn.content);
    forall j | i <= j < |turn.content| ensures Cacheable(turn.content[j]) <==> MayBear(turn.content[j]) {
      BlockIs(turn.content[j]);
    }
  }

  lemma {:induction false} AnchorsAre(messages: seq<Turn>, a: nat)
    ensures a in Anchors(messages) <==> IsAnchor(messages, a)
  {
    if a < |messages| { TurnIs(messages[a]); }
  }

  /** The last two of the anchors are the late ones. */
  lemma {:induction false} LateAre(messages: seq<Turn>, a: nat)
    ensures a in LastTwo(Anchors(messages)) <==> IsLateAnchor(messages, a)
  {
    var anchors := Anchors(messages);
    forall b: nat ensures b in anchors <==> IsAnchor(messages, b) {
      AnchorsAre(messages, b);
    }
    if a in LastTwo(anchors) {
      assert a in anchors;
      NoTwoBehind(anchors, a);
    }
    if a in anchors && a !in LastTwo(anchors) {
      var n := |anchors|;
      TwoBehind(anchors, a);
      assert anchors[n - 2] in anchors && anchors[n - 1] in anchors;
    }
  }

  lemma {:induction false} NoTwoBehind(anchors: seq<nat>, a: nat)
    requires forall i, j :: 0 <= i < j < |anchors| ==> anchors[i] < anchors[j]
    requires a in LastTwo(anchors)
    ensures forall b :: b in anchors && a < b ==> b == anchors[|anchors| - 1]
  {
    var l :| 0 <= l < |LastTwo(anchors)| && LastTwo(anchors)[l] == a;
    var k := if |anchors| <= 2 then l else |anchors| - 2 + l;
    forall b | b in anchors && a < b ensures b == anchors[|anchors| - 1] {
      var i :| 0 <= i < |anchors| && anchors[i] == b;
      assert anchors[k] == a;
    }
  }

  lemma {:induction false} TwoBehind(anchors: seq<nat>, a: nat)
    requires forall i, j :: 0 <= i < j < |anchors| ==> anchors[i] < anchors[j]
    requires a in anchors && a !in LastTwo(anchors)
    ensures |anchors| > 2 && a < anchors[|anchors| - 2] < anchors[|anchors| - 1]
  {
    var k, n := 0, |anchors|;
    k :| 0 <= k < |anchors| && anchors[k] == a;
    assert n > 2 ==> LastTwo(anchors) == [anchors[n - 2], anchors[n - 1]];
  }

  lemma {:induction false} TailIs(messages: seq<Turn>, t: nat)
    ensures t == Tail(messages) < |messages| <==> IsTail(messages, t)
  {
    forall i | 0 <= i < |messages| ensures Hosts(messages[i]) <==> MayHost(messages[i]) {
      TurnIs(messages[i]);
    }
  }

  lemma {:induction false} WantedIs(messages: seq<Turn>, t: nat)
    ensures Wanted(messages, t) <==> IsHead(messages, t) || IsLateAnchor(messages, t) || IsTail(messages, t)
  {
    if messages != [] { TurnIs(messages[0]); }
    LateAre(messages, t);
    TailIs(messages, t);
  }

  lemma {:induction false} GivesWayIs(messages: seq<Turn>, a: nat)
    requires OverBudget(messages) && a == LastTwo(Anchors(messages))[0]
    ensures GivesWay(messages, a)
  {
    var two, tail := LastTwo(Anchors(messages)), Tail(messages);
    assert two[0] in two && two[1] in two;
    AnchorsHost(messages, two[0]);
    LateAre(messages, two[0]);
    LateAre(messages, two[1]);
    TailIs(messages, tail);
    TurnIs(messages[0]);
    assert two[0] != 0;
  }

  lemma {:induction false} OnlyFirstGives(messages: seq<Turn>, a: nat)
    requires GivesWay(messages, a)
    ensures OverBudget(messages) && a == LastTwo(Anchors(messages))[0]
  {
    var b: nat, t: nat :| 0 < a < b && IsLateAnchor(messages, a) && IsLateAnchor(messages, b) && IsHead(messages, 0) &&
      IsTail(messages, t) && t != 0 && t != a && t != b;
    FourWanted(messages, a, b, t);
  }

  lemma {:induction false} FourWanted(messages: seq<Turn>, a: nat, b: nat, t: nat)
    requires 0 < a < b && IsLateAnchor(messages, a) && IsLateAnchor(messages, b) && IsHead(messages, 0)
    requires IsTail(messages, t) && t != 0 && t != a && t != b
    ensures OverBudget(messages) && a == LastTwo(Anchors(messages))[0]
  {
    TwoAre(messages, a, b);
    TailIs(messages, t);
    TurnIs(messages[0]);
  }

  lemma {:induction false} TwoAre(messages: seq<Turn>, a: nat, b: nat)
    requires a < b && IsLateAnchor(messages, a) && IsLateAnchor(messages, b)
    ensures LastTwo(Anchors(messages)) == [a, b]
  {
    LateAre(messages, a);
    LateAre(messages, b);
    AnchorsHost(messages, a);
    BothLate(LastTwo(Anchors(messages)), a, b);
  }

  lemma {:induction false} BothLate(two: seq<nat>, a: nat, b: nat)
    requires |two| <= 2 && (|two| == 2 ==> two[0] < two[1]) && a in two && b in two && a < b
    ensures two == [a, b]
  {
  }

  /** The turns chosen are the turns to mark. */
  lemma {:induction false} ChosenIs(messages: seq<Turn>, t: nat)
    ensures Chosen(messages, t) <==> ToMark(messages, t)
  {
    WantedIs(messages, t);
    if OverBudget(messages) && t == LastTwo(Anchors(messages))[0] { GivesWayIs(messages, t); }
    if GivesWay(messages, t) { OnlyFirstGives(messages, t); }
  }

  /** Our marks stand on the turns to mark, each on its last block that may bear one, and nowhere else. */
  ghost predicate OursStand(messages: seq<Turn>, out: seq<Turn>) {
    |out| == |messages| &&
    forall t :: 0 <= t < |messages| ==>
      if ToMark(messages, t) then Bears(messages[t], out[t]) else out[t] == messages[t]
  }

  lemma {:induction false} MarksAreThere(messages: seq<Turn>, out: seq<Turn>)
    requires |out| == |messages|
    requires forall i :: 0 <= i < |messages| ==> out[i] == if Chosen(messages, i) then MarkTurn(messages[i]) else messages[i]
    ensures OursStand(messages, out)
  {
    forall t | 0 <= t < |messages|
      ensures if ToMark(messages, t) then Bears(messages[t], out[t]) else out[t] == messages[t]
    {
      ChosenIs(messages, t);
      if ToMark(messages, t) {
        ToMarkHosts(messages, t);
        MarkIs(messages[t]);
      }
    }
  }

  lemma {:induction false} ToMarkHosts(messages: seq<Turn>, t: nat)
    requires ToMark(messages, t)
    ensures t < |messages| && MayHost(messages[t])
  {
  }
}
