/** What the blocks of a /v1/messages body say, by the members of the messages they come from. */
module AnthropicWords {
  import opened Js
  import opened AnthropicRequest

  // ---------------------------------------------------------------- content

  /** The one documented shape of a part's own mark. */
  predicate Ephemeral(mark: Json) {
    mark.Obj? && mark.fields.Keys <= {"type", "ttl"} && Is(mark, "ephemeral") &&
    Get(mark, "ttl") in {Undefined, Str("5m"), Str("1h")}
  }

  /** A text block has the part's text, and its mark where that is of the documented shape and the text not blank. */
  ghost predicate TextSays(part: Json, block: Block) {
    var mark := Get(part, "cache_control");
    block.TextBlock? && Get(part, "text") == Str(block.text) &&
    if Ephemeral(mark) && Trim(block.text) != "" then block.mark == Some(mark) else block.mark.None?
  }

  /** An image block has the media type and the data of the part's data URI. */
  ghost predicate ImageSays(env: Env, part: Json, block: Block) {
    var url := Get(Get(part, "image_url"), "url");
    block.ImageBlock? && url.Str? && env.image(url.s) == Some((block.mediaType, block.data)) && block.mark.None?
  }

  /** What one part contributes: its text unless that is empty, its image, and nothing for replayed reasoning. */
  ghost predicate PartSays(env: Env, part: Json, blocks: seq<Block>) {
    if Is(part, "text") then (if Get(part, "text") == Str("") then blocks == [] else |blocks| == 1 && TextSays(part, blocks[0]))
    else if Is(part, "image_url") then |blocks| == 1 && ImageSays(env, part, blocks[0])
    else blocks == []
  }

  /** Part by part, in order. */
  ghost predicate PartsSay(env: Env, parts: seq<Json>, blocks: seq<Block>)
    decreases |parts|
  {
    if parts == [] then blocks == []
    else exists n :: 0 <= n <= |blocks| && PartSays(env, parts[0], blocks[..n]) && PartsSay(env, parts[1..], blocks[n..])
  }

  ghost predicate ContentSays(env: Env, content: Json, blocks: seq<Block>) {
    if content.Arr? then PartsSay(env, content.items, blocks)
    else if Nullish(content) || content == Str("") then blocks == []
    else content.Str? && blocks == [TextBlock(content.s, None)]
  }

  // ---------------------------------------------------------------- tool calls

  /** The input is what the arguments parse to, and an empty object exactly when they are absent or blank. */
  ghost predicate InputSays(env: Env, arguments: Json, input: Json) {
    if arguments.Str? && Trim(arguments.s) != "" then env.js.parse(arguments.s) == Some(input) && input.Obj?
    else (arguments.Str? || arguments == Undefined) && input == Obj(map[])
  }

  ghost predicate CallSays(env: Env, call: Json, block: Block) {
    block.ToolUse? && Is(call, "function") && Get(Get(call, "function"), "name") == Str(block.name) &&
    block.id == env.js.text(FirstPresent([Get(call, "id"), Str("")])) &&
    InputSays(env, Get(Get(call, "function"), "arguments"), block.input) && block.mark.None?
  }

  ghost predicate CallsSay(env: Env, calls: seq<Json>, blocks: seq<Block>) {
    |blocks| == |calls| && forall i :: 0 <= i < |calls| ==> CallSays(env, calls[i], blocks[i])
  }

  // ---------------------------------------------------------------- messages

  /** A message's own mark rides its last block, and the others stay as they are. */
  ghost predicate Marked(blocks: seq<Block>, mark: Json, out: seq<Block>) {
    |out| == |blocks| &&
    forall i :: 0 <= i < |out| ==>
      out[i] == if i == |out| - 1 && mark != Undefined then blocks[i].(mark := Some(mark)) else blocks[i]
  }

  /** The mark of a tool result: the message's own, and else the last that one of its parts carries. */
  ghost predicate Hoisted(blocks: seq<Block>, own: Json, mark: Option<Json>) {
    if own != Undefined then mark == Some(own) else LastMarked(blocks, mark)
  }

  ghost predicate LastMarked(blocks: seq<Block>, mark: Option<Json>) {
    if mark.None? then forall i :: 0 <= i < |blocks| ==> blocks[i].mark.None?
    else exists i :: 0 <= i < |blocks| && blocks[i].mark == mark && forall j :: i < j < |blocks| ==> blocks[j].mark.None?
  }

  /** The nested blocks carry no mark; where the message has no content there is one empty text. */
  ghost predicate Nested(blocks: seq<Block>, inner: seq<Block>) {
    if blocks == [] then inner == [TextBlock("", None)]
    else |inner| == |blocks| && forall i :: 0 <= i < |inner| ==> inner[i] == blocks[i].(mark := None)
  }

  ghost predicate ResultSays(env: Env, message: Json, block: Block) {
    block.ToolResult? && block.toolUseId == env.js.text(FirstPresent([Get(message, "tool_call_id"), Str("")])) &&
    exists said ::
      ContentSays(env, Get(message, "content"), said) && Nested(said, block.content) &&
      Hoisted(said, Get(message, "cache_control"), block.mark)
  }

  /** The blocks of a system, user or assistant message: its content, then its calls. */
  ghost predicate BlocksSay(env: Env, message: Json, blocks: seq<Block>) {
    exists said, uses ::
      ContentSays(env, Get(message, "content"), said) && CallsSay(env, CallsIn(message), uses) &&
      Marked(said + uses, Get(message, "cache_control"), blocks)
  }

  /** The turn says what the message says, in the voice it says it in: a tool result is the user's. */
  ghost predicate TurnSays(env: Env, message: Json, turn: Turn) {
    (turn.role == Assistant <==> SpeaksAs(message, "assistant")) &&
    if SpeaksAs(message, "tool") then |turn.content| == 1 && ResultSays(env, message, turn.content[0])
    else BlocksSay(env, message, turn.content)
  }

  ghost predicate TurnsSay(env: Env, messages: seq<Json>, turns: seq<Turn>) {
    |turns| == |messages| && forall i :: 0 <= i < |messages| ==> TurnSays(env, messages[i], turns[i])
  }

  /** Message by message, in order. */
  ghost predicate SystemSays(env: Env, messages: seq<Json>, blocks: seq<Block>)
    decreases |messages|
  {
    if messages == [] then blocks == []
    else exists n :: 0 <= n <= |blocks| && BlocksSay(env, messages[0], blocks[..n]) && SystemSays(env, messages[1..], blocks[n..])
  }

  // ---------------------------------------------------------------- the translation says it

  lemma {:induction false} PartIsSaid(env: Env, part: Json)
    requires PartBlocks(env, part).Some?
    ensures PartSays(env, part, PartBlocks(env, part).value)
  {
    var mark := Get(part, "cache_control");
    assert Ephemeral(mark) <==> IsEphemeral(mark) by { EphemeralIs(mark); }
  }

  lemma {:induction false} EphemeralIs(mark: Json)
    ensures Ephemeral(mark) <==> IsEphemeral(mark)
  {
  }

  lemma {:induction false} PartsAreSaid(env: Env, parts: seq<Json>)
    requires PartsBlocks(env, parts).Some?
    ensures PartsSay(env, parts, PartsBlocks(env, parts).value)
  {
    if parts != [] {
      var first, rest := PartBlocks(env, parts[0]).value, PartsBlocks(env, parts[1..]).value;
      PartIsSaid(env, parts[0]);
      PartsAreSaid(env, parts[1..]);
      var n := |first|;
      assert (first + rest)[..n] == first && (first + rest)[n..] == rest;
    }
  }

  lemma {:induction false} ContentIsSaid(env: Env, content: Json)
    requires ContentBlocks(env, content).Some?
    ensures ContentSays(env, content, ContentBlocks(env, content).value)
  {
    if content.Arr? { PartsAreSaid(env, content.items); }
  }

  lemma {:induction false} CallIsSaid(env: Env, call: Json)
    requires CallBlock(env, call).Some?
    ensures |CallBlock(env, call).value| == 1 && CallSays(env, call, CallBlock(env, call).value[0])
  {
    FirstOfTwo(Get(call, "id"), Str(""));
  }

  lemma {:induction false} CallsAreSaid(env: Env, calls: seq<Json>)
    requires CallsBlocks(env, calls).Some?
    ensures CallsSay(env, calls, CallsBlocks(env, calls).value)
  {
    if calls != [] {
      CallIsSaid(env, calls[0]);
      CallsAreSaid(env, calls[1..]);
    }
  }

  lemma {:induction false} MarkIsSaid(blocks: seq<Block>, mark: Json)
    ensures Marked(blocks, mark, MarkLast(blocks, Present(mark)))
  {
  }

  lemma {:induction false} LastMarkIs(blocks: seq<Block>)
    ensures LastMarked(blocks, LastMark(blocks))
  {
    if blocks != [] {
      var n := |blocks| - 1;
      LastMarkIs(blocks[..n]);
      LastMarkedSnoc(blocks[..n], blocks[n], LastMark(blocks[..n]));
      assert blocks == blocks[..n] + [blocks[n]];
    }
  }

  lemma {:induction false} LastMarkedSnoc(front: seq<Block>, last: Block, mark: Option<Json>)
    requires LastMarked(front, mark)
    ensures LastMarked(front + [last], if last.mark.Some? then last.mark else mark)
  {
    var all := front + [last];
    assert all[|front|] == last;
    if last.mark.None? && mark.Some? {
      var i :| 0 <= i < |front| && front[i].mark == mark && forall j :: i < j < |front| ==> front[j].mark.None?;
      assert all[i].mark == mark;
    }
  }

  lemma {:induction false} ResultIsSaid(env: Env, message: Json, blocks: seq<Block>)
    requires ContentSays(env, Get(message, "content"), blocks)
    ensures ResultSays(env, message, ToolResultOf(env, message, blocks))
  {
    FirstOfTwo(Get(message, "tool_call_id"), Str(""));
    LastMarkIs(blocks);
    var result := ToolResultOf(env, message, blocks);
    assert Nested(blocks, result.content) && Hoisted(blocks, Get(message, "cache_control"), result.mark);
  }

  lemma {:induction false} BlocksAreSaid(env: Env, message: Json, said: seq<Block>, uses: seq<Block>)
    requires ContentSays(env, Get(message, "content"), said) && CallsSay(env, CallsIn(message), uses)
    ensures BlocksSay(env, message, MarkLast(said + uses, Present(Get(message, "cache_control"))))
  {
    MarkIsSaid(said + uses, Get(message, "cache_control"));
  }

  lemma {:induction false} PieceIsSaid(env: Env, message: Json)
    requires Clear(env, message)
    ensures var piece := Translate(env, message);
            if SystemRole(message) then piece.SystemPiece? && BlocksSay(env, message, piece.blocks)
            else piece.TurnPiece? && TurnSays(env, message, piece.turn)
  {
    PieceOf(env, message);
    ContentIsClear(env, Get(message, "content"));
    CallsAreClear(env, CallsIn(message));
    var said, uses := ContentBlocks(env, Get(message, "content")).value, CallsBlocks(env, CallsIn(message)).value;
    ContentIsSaid(env, Get(message, "content"));
    CallsAreSaid(env, CallsIn(message));
    ResultIsSaid(env, message, said);
    BlocksAreSaid(env, message, said, uses);
    if SystemRole(message) { ConcatNothing(said); }
  }

  lemma {:induction false} TurnsAreSaid(env: Env, messages: seq<Json>)
    requires forall i :: 0 <= i < |messages| ==> Fits(env, messages[i], true)
    ensures TurnsSay(env, messages, TurnsOf(env, messages))
  {
    if messages != [] {
      PieceIsSaid(env, messages[0]);
      assert forall i :: 0 <= i < |messages[1..]| ==> messages[1..][i] == messages[i + 1];
      TurnsAreSaid(env, messages[1..]);
    }
  }

  lemma {:induction false} SystemIsSaid(env: Env, messages: seq<Json>)
    requires forall i :: 0 <= i < |messages| ==> Clear(env, messages[i]) && SystemRole(messages[i])
    ensures SystemSays(env, messages, SystemBlocks(env, messages))
  {
    if messages != [] {
      PieceIsSaid(env, messages[0]);
      assert forall i :: 0 <= i < |messages[1..]| ==> messages[1..][i] == messages[i + 1];
      SystemIsSaid(env, messages[1..]);
      var first, rest := Translate(env, messages[0]).blocks, SystemBlocks(env, messages[1..]);
      var n := |first|;
      assert (first + rest)[..n] == first && (first + rest)[n..] == rest;
    }
  }

  /** What an expressible conversation is taken to say, it says: the leading system run, and each turn. */
  ghost predicate Rendered(env: Env, source: seq<Json>, system: seq<Block>, turns: seq<Turn>) {
    exists k :: 0 <= k <= |source| && (forall i :: 0 <= i < k ==> SystemRole(source[i])) &&
      (k < |source| ==> !SystemRole(source[k])) && SystemSays(env, source[..k], system) && TurnsSay(env, source[k..], turns)
  }

  lemma {:induction false} ConversationIsSaid(env: Env, source: seq<Json>)
    requires Expressible(env, source)
    ensures var k := Leading(source);
            Rendered(env, source, SystemBlocks(env, source[..k]), TurnsOf(env, source[k..]))
  {
    var k := Leading(source);
    forall i | 0 <= i < |source| ensures IsSystem(source[i]) <==> SystemRole(source[i]) {
      KindOf(env, source[i]);
    }
    forall i | 0 <= i < k ensures Clear(env, source[..k][i]) && SystemRole(source[..k][i]) {
      assert Fits(env, source[i], k <= i);
    }
    forall i | 0 <= i < |source[k..]| ensures Fits(env, source[k..][i], true) {
      assert Fits(env, source[k + i], k <= k + i);
    }
    SystemIsSaid(env, source[..k]);
    TurnsAreSaid(env, source[k..]);
  }
}
