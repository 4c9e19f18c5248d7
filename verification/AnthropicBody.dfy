/** The rest of `toMessagesRequest`: alternation, the cache-mark cap and injection, the thinking budget. */
module AnthropicBody {
  import opened Js
  import opened AnthropicRequest

  // ---------------------------------------------------------------- strict alternation

  function Tag(role: Role, blocks: seq<Block>): (tagged: seq<(Role, Block)>)
    ensures |tagged| == |blocks|
    ensures forall i :: 0 <= i < |blocks| ==> tagged[i] == (role, blocks[i])
  {
    if blocks == [] then [] else [(role, blocks[0])] + Tag(role, blocks[1..])
  }

  /** The conversation with its turn boundaries taken out: who says which block, in order. */
  function Speech(turns: seq<Turn>): seq<(Role, Block)> {
    if turns == [] then [] else Tag(turns[0].role, turns[0].content) + Speech(turns[1..])
  }

  lemma {:induction false} SpeechSnoc(turns: seq<Turn>, turn: Turn)
    ensures Speech(turns + [turn]) == Speech(turns) + Tag(turn.role, turn.content)
  {
    if turns == [] {
      assert turns + [turn] == [turn];
      assert Speech([turn]) == Tag(turn.role, turn.content) + Speech([]);
    } else {
      TailAppend(turns, [turn]);
      SpeechSnoc(turns[1..], turn);
      Assoc(Tag(turns[0].role, turns[0].content), Speech(turns[1..]), Tag(turn.role, turn.content));
    }
  }

  /** What the Messages API demands: no empty message, and neighbours never of the same role. */
  predicate Alternating(messages: seq<Turn>) {
    (forall i :: 0 <= i < |messages| ==> messages[i].content != []) &&
    (forall i :: 0 <= i < |messages| - 1 ==> messages[i].role != messages[i + 1].role)
  }

  lemma {:induction false} MergeAlternates(front: seq<Turn>, last: Turn, more: seq<Block>)
    requires Alternating(front + [last])
    ensures Alternating(front + [Turn(last.role, last.content + more)])
  {
    var before, after := front + [last], front + [Turn(last.role, last.content + more)];
    assert before[|front|] == last;
    assert forall i :: 0 <= i < |after| ==> after[i].role == before[i].role && (i < |front| ==> after[i] == before[i]);
  }

  lemma {:induction false} PushAlternates(messages: seq<Turn>, turn: Turn)
    requires Alternating(messages) && turn.content != []
    requires messages != [] ==> messages[|messages| - 1].role != turn.role
    ensures Alternating(messages + [turn])
  {
  }

  /** Merging keeps every word of the conversation and alternates strictly. */
  method MergeTurns(turns: seq<Turn>) returns (messages: seq<Turn>)
    ensures Alternating(messages)
    ensures Speech(messages) == Speech(turns)
  {
    messages := [];
    for k := 0 to |turns|
      invariant Alternating(messages)
      invariant Speech(messages) == Speech(turns[..k])
    {
      var turn := turns[k];
      assert turns[..k + 1] == turns[..k] + [turn];
      SpeechSnoc(turns[..k], turn);
      if |turn.content| == 0 {
        assert Speech(messages) + [] == Speech(messages);
      } else if |messages| > 0 && messages[|messages| - 1].role == turn.role {
        var front, last := messages[..|messages| - 1], messages[|messages| - 1];
        assert messages == front + [last];
        SpeechMerge(front, last, turn.content);
        MergeAlternates(front, last, turn.content);
        messages := front + [Turn(last.role, last.content + turn.content)];
      } else {
        SpeechSnoc(messages, turn);
        PushAlternates(messages, turn);
        messages := messages + [turn];
      }
    }
    assert turns[..|turns|] == turns;
  }

  lemma {:induction false} TagAppend(role: Role, a: seq<Block>, b: seq<Block>)
    ensures Tag(role, a + b) == Tag(role, a) + Tag(role, b)
  {
    if a == [] {
      assert a + b == b;
    } else {
      TailAppend(a, b);
      TagAppend(role, a[1..], b);
    }
  }

  lemma {:induction false} SpeechMerge(front: seq<Turn>, last: Turn, more: seq<Block>)
    ensures Speech(front + [Turn(last.role, last.content + more)]) == Speech(front + [last]) + Tag(last.role, more)
  {
    SpeechSnoc(front, last);
    SpeechSnoc(front, Turn(last.role, last.content + more));
    TagAppend(last.role, last.content, more);
    Assoc(Speech(front), Tag(last.role, last.content), Tag(last.role, more));
  }

  /** There is only one way to alternate the same words, so the merge is determined. */
  lemma {:induction false} AlternationUnique(a: seq<Turn>, b: seq<Turn>)
    requires Alternating(a) && Alternating(b) && Speech(a) == Speech(b)
    ensures a == b
    decreases |a|
  {
    if a != [] { FirstRun(a); }
    if b != [] { FirstRun(b); }
    if a != [] && b != [] {
      var n := |a[0].content|;
      assert a[0].content == b[0].content by {
        forall i | 0 <= i < n
          ensures a[0].content[i] == b[0].content[i]
        {
          assert Speech(a)[i].1 == a[0].content[i];
        }
      }
      AlternationUnique(a[1..], b[1..]);
      assert a == [a[0]] + a[1..] && b == [b[0]] + b[1..];
    }
  }

  /** The first turn is as long as its role speaks. */
  lemma {:induction false} FirstRun(a: seq<Turn>)
    requires Alternating(a) && a != []
    ensures 0 < |a[0].content| <= |Speech(a)| && Speech(a)[|a[0].content|..] == Speech(a[1..])
    ensures forall i :: 0 <= i < |a[0].content| ==> Speech(a)[i] == (a[0].role, a[0].content[i])
    ensures |a[0].content| < |Speech(a)| ==> Speech(a)[|a[0].content|].0 != a[0].role
  {
    if |a| > 1 {
      assert Speech(a[1..]) == Tag(a[1].role, a[1].content) + Speech(a[1..][1..]);
      assert Speech(a)[|a[0].content|] == Tag(a[1].role, a[1].content)[0];
    } else {
      assert a[1..] == [];
    }
  }

  // ---------------------------------------------------------------- cache marks

  const MAX_CACHE_MARKS := 4

  /** Where the marked blocks stand. */
  function MarkPositions(blocks: seq<Block>, at: nat): (positions: seq<nat>)
    ensures forall p :: p in positions ==> at <= p < at + |blocks|
  {
    if blocks == [] then []
    else (if blocks[0].mark.Some? then [at] else []) + MarkPositions(blocks[1..], at + 1)
  }

  function BlocksOf(turns: seq<Turn>): seq<Block> {
    if turns == [] then [] else turns[0].content + BlocksOf(turns[1..])
  }

  function MarksIn(turns: seq<Turn>): seq<nat> {
    MarkPositions(BlocksOf(turns), 0)
  }

  /** Delete every mark that does not stand at a kept position. */
  function Keep(blocks: seq<Block>, at: nat, kept: seq<nat>): (out: seq<Block>)
    ensures |out| == |blocks|
  {
    if blocks == [] then []
    else [if at in kept then blocks[0] else blocks[0].(mark := None)] + Keep(blocks[1..], at + 1, kept)
  }

  function KeepTurns(turns: seq<Turn>, at: nat, kept: seq<nat>): (out: seq<Turn>)
    ensures |out| == |turns|
    ensures forall i :: 0 <= i < |turns| ==> out[i].role == turns[i].role && |out[i].content| == |turns[i].content|
  {
    if turns == [] then []
    else [Turn(turns[0].role, Keep(turns[0].content, at, kept))] + KeepTurns(turns[1..], at + |turns[0].content|, kept)
  }

  lemma {:induction false} KeepTurnsBlocks(turns: seq<Turn>, at: nat, kept: seq<nat>)
    ensures BlocksOf(KeepTurns(turns, at, kept)) == Keep(BlocksOf(turns), at, kept)
  {
    if turns != [] {
      KeepTurnsBlocks(turns[1..], at + |turns[0].content|, kept);
      KeepAppend(turns[0].content, BlocksOf(turns[1..]), at, kept);
    }
  }

  lemma {:induction false} KeepAppend(a: seq<Block>, b: seq<Block>, at: nat, kept: seq<nat>)
    ensures Keep(a + b, at, kept) == Keep(a, at, kept) + Keep(b, at + |a|, kept)
    decreases |a|
  {
    if a == [] {
      assert a + b == b;
    } else {
      TailAppend(a, b);
      KeepAppend(a[1..], b, at + 1, kept);
    }
  }

  lemma {:induction false} KeepStrips(blocks: seq<Block>, at: nat, kept: seq<nat>)
    ensures StripMarks(Keep(blocks, at, kept)) == StripMarks(blocks)
    decreases |blocks|
  {
    if blocks != [] {
      KeepStrips(blocks[1..], at + 1, kept);
    }
  }

  /** At these positions and beyond, just those of the window are kept. */
  ghost predicate KeptWindow(at: nat, kept: seq<nat>, window: seq<nat>) {
    forall p :: at <= p ==> (p in kept <==> p in window)
  }

  lemma {:induction false} WindowBeyond(at: nat, kept: seq<nat>, window: seq<nat>, rest: seq<nat>)
    requires KeptWindow(at, kept, window) && (window == rest || window == [at] + rest)
    ensures KeptWindow(at + 1, kept, rest)
  {
  }

  /** The window of the marks without the first block's, or as it is where that has none. */
  lemma {:induction false} WindowTail(at: nat, rest: seq<nat>, lo: nat, hi: nat) returns (l: nat, h: nat)
    requires lo <= hi <= 1 + |rest|
    ensures l <= h <= |rest|
    ensures ([at] + rest)[lo..hi] == if lo == 0 && hi > 0 then [at] + rest[l..h] else rest[l..h]
  {
    l, h := if lo == 0 then 0 else lo - 1, if hi == 0 then 0 else hi - 1;
  }

  /** Keeping a contiguous run of the marks leaves exactly that run. */
  lemma {:induction false} KeepPositions(blocks: seq<Block>, at: nat, lo: nat, hi: nat, kept: seq<nat>)
    requires lo <= hi <= |MarkPositions(blocks, at)|
    requires KeptWindow(at, kept, MarkPositions(blocks, at)[lo..hi])
    ensures MarkPositions(Keep(blocks, at, kept), at) == MarkPositions(blocks, at)[lo..hi]
    decreases |blocks|
  {
    if blocks != [] {
      var rest, window := MarkPositions(blocks[1..], at + 1), MarkPositions(blocks, at)[lo..hi];
      if blocks[0].mark.None? {
        ConcatNothing(rest);
        WindowBeyond(at, kept, window, window);
        KeepPositions(blocks[1..], at + 1, lo, hi, kept);
      } else {
        var l, h := WindowTail(at, rest, lo, hi);
        WindowBeyond(at, kept, window, rest[l..h]);
        KeepPositions(blocks[1..], at + 1, l, h, kept);
        KeepCons(blocks, at, kept, rest[l..h], lo == 0 && hi > 0);
      }
    }
  }

  lemma {:induction false} KeepCons(blocks: seq<Block>, at: nat, kept: seq<nat>, window: seq<nat>, first: bool)
    requires blocks != [] && blocks[0].mark.Some? && (at in kept <==> first)
    requires MarkPositions(Keep(blocks[1..], at + 1, kept), at + 1) == window
    ensures MarkPositions(Keep(blocks, at, kept), at) == if first then [at] + window else window
  {
    ConcatNothing(window);
    assert Keep(blocks, at, kept)[1..] == Keep(blocks[1..], at + 1, kept);
  }

  /** The same blocks, each as it was or, where it is not kept, without its mark. */
  ghost predicate Capped(out: seq<Block>, blocks: seq<Block>, kept: seq<nat>) {
    |out| == |blocks| &&
    forall i :: 0 <= i < |blocks| ==> out[i] == if i in kept then blocks[i] else blocks[i].(mark := None)
  }

  lemma {:induction false} KeepEach(blocks: seq<Block>, at: nat, kept: seq<nat>)
    ensures forall i :: 0 <= i < |blocks| ==>
      Keep(blocks, at, kept)[i] == if at + i in kept then blocks[i] else blocks[i].(mark := None)
    decreases |blocks|
  {
    if blocks != [] {
      var rest := Keep(blocks[1..], at + 1, kept);
      KeepEach(blocks[1..], at + 1, kept);
      forall i | 0 < i < |blocks|
        ensures Keep(blocks, at, kept)[i] == if at + i in kept then blocks[i] else blocks[i].(mark := None)
      {
        assert rest[i - 1] == if at + 1 + (i - 1) in kept then blocks[1..][i - 1] else blocks[1..][i - 1].(mark := None);
      }
    }
  }

  lemma {:induction false} MarkedHere(blocks: seq<Block>, at: nat)
    ensures forall i :: 0 <= i < |blocks| ==> (at + i in MarkPositions(blocks, at) <==> blocks[i].mark.Some?)
    decreases |blocks|
  {
    if blocks != [] {
      var rest := MarkPositions(blocks[1..], at + 1);
      MarkedHere(blocks[1..], at + 1);
      forall i | 0 < i < |blocks| ensures at + i in MarkPositions(blocks, at) <==> blocks[i].mark.Some? {
        assert at + 1 + (i - 1) in rest <==> blocks[1..][i - 1].mark.Some?;
      }
    }
  }

  /** With every mark kept nothing changes. */
  lemma {:induction false} CappedAll(blocks: seq<Block>)
    ensures Capped(blocks, blocks, MarkPositions(blocks, 0))
  {
    MarkedHere(blocks, 0);
    forall i | 0 <= i < |blocks|
      ensures blocks[i] == if i in MarkPositions(blocks, 0) then blocks[i] else blocks[i].(mark := None)
    {
      assert 0 + i in MarkPositions(blocks, 0) <==> blocks[i].mark.Some?;
    }
  }

  function Min(a: nat, b: nat): nat {
    if a < b then a else b
  }

  /** The system marks that survive the cap: the first four. */
  function KeptSystem(system: seq<nat>): seq<nat> {
    system[..Min(MAX_CACHE_MARKS, |system|)]
  }

  /** The turn marks that survive: as many of the last as the budget leaves. */
  function KeptTurns(system: seq<nat>, turns: seq<nat>): seq<nat> {
    turns[|turns| - Min(|turns|, MAX_CACHE_MARKS - |KeptSystem(system)|)..]
  }

  /** `turnMarked.slice(-n)`, which for n = 0 would be the whole array. */
  function LastOf(positions: seq<nat>, n: nat): seq<nat> {
    if n == 0 then [] else if n <= |positions| then positions[|positions| - n..] else positions
  }

  /** Only marks differ. */
  predicate SameButMarks(a: seq<Turn>, b: seq<Turn>) {
    |a| == |b| &&
    forall i :: 0 <= i < |a| ==> a[i].role == b[i].role && StripMarks(a[i].content) == StripMarks(b[i].content)
  }

  /** Marks are deleted and nothing else is touched; where no more than four are set, nothing at all. */
  method CapMarks(system0: seq<Block>, messages0: seq<Turn>) returns (system: seq<Block>, messages: seq<Turn>)
    ensures StripMarks(system) == StripMarks(system0) && SameButMarks(messages, messages0)
    ensures Capped(system, system0, KeptSystem(MarkPositions(system0, 0)))
    ensures Capped(BlocksOf(messages), BlocksOf(messages0), KeptTurns(MarkPositions(system0, 0), MarksIn(messages0)))
    ensures |MarkPositions(system0, 0)| + |MarksIn(messages0)| <= MAX_CACHE_MARKS ==>
      system == system0 && messages == messages0
    ensures MarkPositions(system, 0) == KeptSystem(MarkPositions(system0, 0))
    ensures MarksIn(messages) == KeptTurns(MarkPositions(system0, 0), MarksIn(messages0))
  {
    system, messages := system0, messages0;
    var systemMarked := MarkPositions(system, 0);
    var turnMarked := MarksIn(messages);
    CappedAll(system);
    CappedAll(BlocksOf(messages));
    if |systemMarked| + |turnMarked| > MAX_CACHE_MARKS {
      var keepSystem := systemMarked[..Min(MAX_CACHE_MARKS, |systemMarked|)];
      var keepTurns := LastOf(turnMarked, MAX_CACHE_MARKS - |keepSystem|);
      system := DropMarks(system, 0, |keepSystem|, keepSystem);
      messages := DropTurnMarks(messages, |turnMarked| - |keepTurns|, keepTurns);
    }
  }

  /** Delete the marks that are not kept: `delete block.cache_control` for each of them. */
  method DropMarks(blocks: seq<Block>, ghost lo: nat, ghost hi: nat, kept: seq<nat>) returns (out: seq<Block>)
    requires lo <= hi <= |MarkPositions(blocks, 0)| && kept == MarkPositions(blocks, 0)[lo..hi]
    ensures StripMarks(out) == StripMarks(blocks) && MarkPositions(out, 0) == kept && Capped(out, blocks, kept)
  {
    KeepEach(blocks, 0, kept);
    KeepStrips(blocks, 0, kept);
    KeepPositions(blocks, 0, lo, hi, kept);
    out := Keep(blocks, 0, kept);
  }

  method DropTurnMarks(turns: seq<Turn>, ghost lo: nat, kept: seq<nat>) returns (out: seq<Turn>)
    requires lo <= |MarksIn(turns)| && kept == MarksIn(turns)[lo..]
    ensures SameButMarks(out, turns) && MarksIn(out) == kept && Capped(BlocksOf(out), BlocksOf(turns), kept)
  {
    KeepEach(BlocksOf(turns), 0, kept);
    KeepTurnsSame(turns, 0, kept);
    KeepTurnsBlocks(turns, 0, kept);
    KeepPositions(BlocksOf(turns), 0, lo, |MarksIn(turns)|, kept);
    out := KeepTurns(turns, 0, kept);
  }

  lemma {:induction false} KeepTurnsSame(turns: seq<Turn>, at: nat, kept: seq<nat>)
    ensures SameButMarks(KeepTurns(turns, at, kept), turns)
    decreases |turns|
  {
    if turns != [] {
      KeepTurnsSame(turns[1..], at + |turns[0].content|, kept);
      KeepStrips(turns[0].content, at, kept);
    }
  }

  /** Exactly min(4, total) marks survive the cap. */
  lemma {:induction false} CapExact(system: seq<nat>, turns: seq<nat>)
    ensures |KeptSystem(system)| + |KeptTurns(system, turns)| == Min(4, |system| + |turns|)
    ensures KeptSystem(system) <= system
    ensures KeptTurns(system, turns) == turns[|turns| - |KeptTurns(system, turns)|..]
  {
  }
}
