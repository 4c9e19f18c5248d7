/** The outgoing /v1/messages body: injected cache marks, the thinking budget, and the whole request. */
module AnthropicMessages {
  import opened Js
  import opened AnthropicRequest
  import opened AnthropicBody

  // ---------------------------------------------------------------- addCachePromptMarks (routing.mjs)

  const EPHEMERAL := Obj(map["type" := Str("ephemeral")])
  const MAX_INJECTED_CACHE_MARKS := 3

  predicate CacheableText(block: Block) {
    block.TextBlock? && Trim(block.text) != ""
  }

  predicate Cacheable(block: Block) {
    CacheableText(block) || (block.ToolResult? && exists nested :: nested in block.content && CacheableText(nested))
  }

  predicate Hosts(turn: Turn) {
    exists i :: 0 <= i < |turn.content| && Cacheable(turn.content[i])
  }

  predicate BlockHasCallerMark(block: Block) {
    block.mark.Some? || (block.ToolResult? && exists nested :: nested in block.content && nested.mark.Some?)
  }

  predicate HasCallerMark(turn: Turn) {
    exists i :: 0 <= i < |turn.content| && BlockHasCallerMark(turn.content[i])
  }

  /** The last block of a turn that can carry a mark. */
  function LastCacheable(blocks: seq<Block>): (i: nat)
    requires exists k :: 0 <= k < |blocks| && Cacheable(blocks[k])
    ensures i < |blocks| && Cacheable(blocks[i])
    ensures forall k :: i < k < |blocks| ==> !Cacheable(blocks[k])
  {
    var n := |blocks| - 1;
    if Cacheable(blocks[n]) then n
    else
      assert exists k :: 0 <= k < n && Cacheable(blocks[..n][k]) by {
        var k :| 0 <= k < |blocks| && Cacheable(blocks[k]);
        assert blocks[..n][k] == blocks[k];
      }
      LastCacheable(blocks[..n])
  }

  function MarkTurn(turn: Turn): Turn {
    if !Hosts(turn) then turn
    else
      var i := LastCacheable(turn.content);
      turn.(content := turn.content[i := turn.content[i].(mark := Some(EPHEMERAL))])
  }

  /** The user turns that can host a mark, in order. */
  function Anchors(messages: seq<Turn>): (anchors: seq<nat>)
    ensures forall a: nat :: a in anchors <==> a < |messages| && messages[a].role == User && Hosts(messages[a])
    ensures forall i, j :: 0 <= i < j < |anchors| ==> anchors[i] < anchors[j]
  {
    if messages == [] then []
    else
      var n := |messages| - 1;
      var front := Anchors(messages[..n]);
      assert forall i :: 0 <= i < |front| ==> front[i] < n by {
        forall i | 0 <= i < |front|
          ensures front[i] < n
        {
          assert front[i] in front;
        }
      }
      if messages[n].role == User && Hosts(messages[n]) then front + [n] else front
  }

  function LastTwo(anchors: seq<nat>): seq<nat> {
    if |anchors| <= 2 then anchors else anchors[|anchors| - 2..]
  }

  /** The last turn of any role that can host a mark; the length when none can. */
  function Tail(messages: seq<Turn>): (t: nat)
    ensures t <= |messages|
    ensures t < |messages| ==> Hosts(messages[t])
    ensures forall i :: 0 <= i < |messages| && (t == |messages| || t < i) ==> !Hosts(messages[i])
  {
    if messages == [] then 0
    else
      var n := |messages| - 1;
      if Hosts(messages[n]) then n
      else
        var t := Tail(messages[..n]);
        if t == n then |messages| else t
  }

  /** A turn worth marking: the first, one of the last two user anchors, or the tail. */
  predicate Wanted(messages: seq<Turn>, t: nat) {
    (t == 0 && messages != [] && Hosts(messages[0])) || t in LastTwo(Anchors(messages)) ||
    (t == Tail(messages) && t < |messages|)
  }

  /** Four different turns are wanted: one more than the budget. */
  predicate OverBudget(messages: seq<Turn>) {
    var anchors, tail := LastTwo(Anchors(messages)), Tail(messages);
    |anchors| == 2 && 0 !in anchors && messages != [] && Hosts(messages[0]) && tail < |messages| && tail != 0 &&
    tail !in anchors
  }

  /** Over budget, the earlier of the two anchors goes. */
  predicate Chosen(messages: seq<Turn>, t: nat) {
    Wanted(messages, t) && !(OverBudget(messages) && t == LastTwo(Anchors(messages))[0])
  }

  predicate Distinct(targets: seq<nat>) {
    forall i, j :: 0 <= i < j < |targets| ==> targets[i] != targets[j]
  }

  /** `if (!targets.includes(msg)) targets.push(msg)` */
  function AddTarget(targets: seq<nat>, i: nat): seq<nat> {
    if i in targets then targets else targets + [i]
  }

  function Gather(first: seq<nat>, anchors: seq<nat>, tail: Option<nat>): seq<nat> {
    var one := if |anchors| > 0 then AddTarget(first, anchors[0]) else first;
    var two := if |anchors| > 1 then AddTarget(one, anchors[1]) else one;
    if tail.Some? then AddTarget(two, tail.value) else two
  }

  lemma {:induction false} GatherExact(first: seq<nat>, anchors: seq<nat>, tail: Option<nat>)
    requires first == [] || first == [0]
    requires |anchors| <= 2 && (|anchors| == 2 ==> anchors[0] != anchors[1])
    ensures var g := Gather(first, anchors, tail);
            Distinct(g) && |g| <= 4 &&
            (forall t :: t in g <==> t in first || t in anchors || tail == Some(t)) &&
            (|g| == 4 <==>
               first == [0] && |anchors| == 2 && 0 !in anchors && tail.Some? && tail.value != 0 && tail.value !in anchors) &&
            (|g| == 4 ==> g[1] == anchors[0])
  {
    assert |anchors| == 1 ==> anchors == [anchors[0]];
    assert |anchors| == 2 ==> anchors == [anchors[0], anchors[1]];
  }

  lemma {:induction false} AnchorsHost(messages: seq<Turn>, a: nat)
    requires a in LastTwo(Anchors(messages))
    ensures a < |messages| && Hosts(messages[a])
    ensures var two := LastTwo(Anchors(messages)); |two| == 2 ==> two[0] < two[1]
  {
    assert a in Anchors(messages);
  }

  /** The turns that may be marked, before the budget: the first, the last two anchors, the tail. */
  method Candidates(messages: seq<Turn>) returns (targets: seq<nat>)
    requires messages != []
    ensures Distinct(targets) && (forall t: nat :: t in targets <==> Wanted(messages, t))
    ensures |targets| <= 4 && (|targets| == 4 <==> OverBudget(messages))
    ensures |targets| == 4 ==> targets[1] == LastTwo(Anchors(messages))[0]
  {
    var first: seq<nat> := if Hosts(messages[0]) then [0] else [];
    var userAnchors := LastTwo(Anchors(messages));
    var i := Tail(messages);
    var tail := if i < |messages| then Some(i) else None;
    if |userAnchors| > 0 { AnchorsHost(messages, userAnchors[0]); }
    GatherExact(first, userAnchors, tail);
    targets := Gather(first, userAnchors, tail);
  }

  lemma {:induction false} WithoutSecond(targets: seq<nat>)
    requires Distinct(targets) && |targets| == 4
    ensures Distinct([targets[0], targets[2], targets[3]])
    ensures forall t :: t in [targets[0], targets[2], targets[3]] <==> t in targets && t != targets[1]
  {
  }

  /** The turns that will be marked. */
  method ChooseTargets(messages: seq<Turn>) returns (targets: seq<nat>)
    requires messages != []
    ensures Distinct(targets) && |targets| <= 3
    ensures forall t: nat :: t in targets <==> Chosen(messages, t)
  {
    targets := Candidates(messages);
    if |targets| > MAX_INJECTED_CACHE_MARKS {
      WithoutSecond(targets);
      targets := [targets[0], targets[2], targets[3]];
    }
  }

  lemma {:induction false} MarkCountAppend(a: seq<Block>, b: seq<Block>, at: nat)
    ensures |MarkPositions(a + b, at)| == |MarkPositions(a, at)| + |MarkPositions(b, at + |a|)|
    decreases |a|
  {
    if a == [] {
      assert a + b == b;
    } else {
      TailAppend(a, b);
      MarkCountAppend(a[1..], b, at + 1);
    }
  }

  lemma {:induction false} MarkCountShift(blocks: seq<Block>, at: nat, at': nat)
    ensures |MarkPositions(blocks, at)| == |MarkPositions(blocks, at')|
    decreases |blocks|
  {
    if blocks != [] {
      MarkCountShift(blocks[1..], at + 1, at' + 1);
    }
  }

  /** Marking one more block adds at most one mark. */
  lemma {:induction false} MarkOneCount(blocks: seq<Block>, i: nat, mark: Option<Json>, at: nat)
    requires i < |blocks|
    ensures |MarkPositions(blocks[i := blocks[i].(mark := mark)], at)| <= |MarkPositions(blocks, at)| + 1
    decreases i
  {
    var out := blocks[i := blocks[i].(mark := mark)];
    if i > 0 {
      TailUpdate(blocks, i, blocks[i].(mark := mark));
      MarkOneCount(blocks[1..], i - 1, mark, at + 1);
    } else {
      assert out[1..] == blocks[1..];
    }
  }

  lemma {:induction false} BlocksSplit(turns: seq<Turn>, k: nat)
    requires k < |turns|
    ensures BlocksOf(turns) == BlocksOf(turns[..k]) + turns[k].content + BlocksOf(turns[k + 1..])
    decreases k
  {
    if k == 0 {
      assert turns[..0] == [];
      assert [] + turns[0].content == turns[0].content;
    } else {
      BlocksSplit(turns[1..], k - 1);
      assert turns[..k][1..] == turns[1..][..k - 1] && turns[1..][k..] == turns[k + 1..];
      Assoc(turns[0].content, BlocksOf(turns[1..][..k - 1]), turns[k].content);
      Assoc(turns[0].content, BlocksOf(turns[1..][..k - 1]) + turns[k].content, BlocksOf(turns[k + 1..]));
    }
  }

  lemma {:induction false} MarkTurnCount(turns: seq<Turn>, k: nat)
    requires k < |turns|
    ensures |MarksIn(turns[k := MarkTurn(turns[k])])| <= |MarksIn(turns)| + 1
  {
    var out := turns[k := MarkTurn(turns[k])];
    var front, was, now, back := BlocksOf(turns[..k]), turns[k].content, out[k].content, BlocksOf(turns[k + 1..]);
    assert out[..k] == turns[..k] && out[k + 1..] == turns[k + 1..];
    BlocksSplit(turns, k);
    BlocksSplit(out, k);
    if Hosts(turns[k]) {
      MarkOneCount(was, LastCacheable(was), Some(EPHEMERAL), |front|);
    }
    MarkCountBetween(front, was, back);
    MarkCountBetween(front, now, back);
  }

  lemma {:induction false} MarkCountBetween(front: seq<Block>, blocks: seq<Block>, back: seq<Block>)
    ensures |MarkPositions(front + blocks + back, 0)| ==
            |MarkPositions(front, 0)| + |MarkPositions(blocks, |front|)| + |MarkPositions(back, |front| + |blocks|)|
  {
    MarkCountAppend(front + blocks, back, 0);
    MarkCountAppend(front, blocks, 0);
  }

  method MarkAll(messages: seq<Turn>, targets: seq<nat>) returns (out: seq<Turn>)
    requires Distinct(targets)
    requires forall t :: t in targets ==> t < |messages|
    ensures |out| == |messages|
    ensures forall i :: 0 <= i < |messages| ==> out[i] == if i in targets then MarkTurn(messages[i]) else messages[i]
    ensures |MarksIn(out)| <= |MarksIn(messages)| + |targets|
  {
    out := messages;
    for k := 0 to |targets|
      invariant |out| == |messages|
      invariant forall i :: 0 <= i < |messages| ==>
        out[i] == if i in targets[..k] then MarkTurn(messages[i]) else messages[i]
      invariant |MarksIn(out)| <= |MarksIn(messages)| + k
    {
      assert targets[..k + 1] == targets[..k] + [targets[k]];
      assert targets[k] in targets && targets[k] !in targets[..k];
      MarkTurnCount(out, targets[k]);
      out := out[targets[k] := MarkTurn(out[targets[k]])];
    }
    assert targets[..|targets|] == targets;
  }

  predicate AnyCallerMark(messages: seq<Turn>) {
    exists i :: 0 <= i < |messages| && HasCallerMark(messages[i])
  }

  /**
    * Marks the chosen turns, each on its last block that can carry one, and never more than three;
    * unless the caller marked anything anywhere, nested blocks included.
    */
  method AddCachePromptMarks(messages: seq<Turn>) returns (out: seq<Turn>)
    ensures |out| == |messages|
    ensures AnyCallerMark(messages) ==> out == messages
    ensures !AnyCallerMark(messages) ==> |MarksIn(out)| <= |MarksIn(messages)| + 3
    ensures !AnyCallerMark(messages) ==>
      forall i :: 0 <= i < |messages| ==> out[i] == if Chosen(messages, i) then MarkTurn(messages[i]) else messages[i]
  {
    if |messages| == 0 || AnyCallerMark(messages) { return messages; }
    var targets := ChooseTargets(messages);
    forall t | t in targets
      ensures t < |messages|
    {
      if t in LastTwo(Anchors(messages)) { AnchorsHost(messages, t); }
    }
    out := MarkAll(messages, targets);
  }
}
