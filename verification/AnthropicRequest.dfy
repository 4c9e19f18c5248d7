/** `toMessagesRequest`: a projected chat-completions body becomes an Anthropic /v1/messages body. */
module AnthropicRequest {
  import opened Js

  /** A content block; `mark` is its `cache_control` member, when present. */
  datatype Block =
    | TextBlock(text: string, mark: Option<Json>)
    | ImageBlock(mediaType: string, data: string, mark: Option<Json>)
    | ToolUse(id: string, name: string, input: Json, mark: Option<Json>)
    | ToolResult(toolUseId: string, content: seq<Block>, mark: Option<Json>)

  datatype Role = User | Assistant

  datatype Turn = Turn(role: Role, content: seq<Block>)

  /** `image` is the data-URI check: the media type and payload of an image Anthropic takes, or nothing. */
  datatype Env = Env(js: Builtins, image: string -> Option<(string, string)>, lower: string -> string)

  // ---------------------------------------------------------------- one message

  predicate IsEphemeral(v: Json) {
    v.Obj? && (forall key :: key in v.fields ==> key == "type" || key == "ttl") &&
    Get(v, "type") == Str("ephemeral") &&
    (Get(v, "ttl") == Undefined || Get(v, "ttl") == Str("5m") || Get(v, "ttl") == Str("1h"))
  }

  const REASONING_PART_TYPES := ["reasoning", "thinking", "redacted_thinking", "redacted_reasoning"]

  /** A member that is present, whatever its value. */
  function Present(v: Json): Option<Json> {
    if v == Undefined then None else Some(v)
  }

  /** What one content part contributes: a block, nothing, or a refusal of the whole message. */
  function PartBlocks(env: Env, part: Json): Option<seq<Block>> {
    var text, url, mark := Get(part, "text"), Get(Get(part, "image_url"), "url"), Get(part, "cache_control");
    if Get(part, "type") == Str("text") && text.Str? then
      if text.s == "" then Some([])
      else Some([TextBlock(text.s, if IsEphemeral(mark) && Trim(text.s) != "" then Some(mark) else None)])
    else if Get(part, "type") == Str("image_url") && url.Str? then
      match env.image(url.s)
      case None => None
      case Some((mediaType, data)) => Some([ImageBlock(mediaType, data, None)])
    else if Get(part, "type").Str? && Get(part, "type").s in REASONING_PART_TYPES then Some([])
    else None
  }

  /** Both, or a refusal. */
  function Both(a: Option<seq<Block>>, b: Option<seq<Block>>): Option<seq<Block>> {
    if a.Some? && b.Some? then Some(a.value + b.value) else None
  }

  function PartsBlocks(env: Env, parts: seq<Json>): Option<seq<Block>> {
    if parts == [] then Some([]) else Both(PartBlocks(env, parts[0]), PartsBlocks(env, parts[1..]))
  }

  function ContentBlocks(env: Env, content: Json): Option<seq<Block>> {
    if content.Str? then Some(if content.s == "" then [] else [TextBlock(content.s, None)])
    else if content.Arr? then PartsBlocks(env, content.items)
    else if Nullish(content) then Some([])
    else None
  }

  /** A replayed tool call; its arguments must be absent, blank, or a string that parses to an object. */
  function CallBlock(env: Env, call: Json): Option<seq<Block>> {
    var name, args := Get(Get(call, "function"), "name"), Get(Get(call, "function"), "arguments");
    if Get(call, "type") != Str("function") || !name.Str? then None
    else
      var id := env.js.text(OrElse(Get(call, "id"), Str("")));
      if args == Undefined then Some([ToolUse(id, name.s, Obj(map[]), None)])
      else if !args.Str? then None
      else if Trim(args.s) == "" then Some([ToolUse(id, name.s, Obj(map[]), None)])
      else
        var input := env.js.parse(args.s);
        if input.Some? && input.value.Obj? then Some([ToolUse(id, name.s, input.value, None)]) else None
  }

  function CallsBlocks(env: Env, calls: seq<Json>): Option<seq<Block>> {
    if calls == [] then Some([]) else Both(CallBlock(env, calls[0]), CallsBlocks(env, calls[1..]))
  }

  /** A message-level mark lands on the last block, when there is one. */
  function MarkLast(blocks: seq<Block>, mark: Option<Json>): seq<Block> {
    if mark.None? || blocks == [] then blocks else blocks[|blocks| - 1 := blocks[|blocks| - 1].(mark := mark)]
  }

  function StripMarks(blocks: seq<Block>): (bare: seq<Block>)
    ensures |bare| == |blocks|
    ensures forall i :: 0 <= i < |blocks| ==> bare[i] == blocks[i].(mark := None)
  {
    if blocks == [] then [] else [blocks[0].(mark := None)] + StripMarks(blocks[1..])
  }

  /** The mark of the last marked block. */
  function LastMark(blocks: seq<Block>): Option<Json> {
    if blocks == [] then None
    else if blocks[|blocks| - 1].mark.Some? then blocks[|blocks| - 1].mark
    else LastMark(blocks[..|blocks| - 1])
  }

  /** A tool message: its marks are hoisted onto the tool_result block, a message-level one winning. */
  function ToolResultOf(env: Env, message: Json, blocks: seq<Block>): Block {
    var mark := Present(Get(message, "cache_control"));
    ToolResult(env.js.text(OrElse(Get(message, "tool_call_id"), Str(""))),
               if blocks == [] then [TextBlock("", None)] else StripMarks(blocks),
               if mark.Some? then mark else LastMark(blocks))
  }

  predicate IsSystem(message: Json) {
    Get(message, "role") == Str("system") || Get(message, "role") == Str("developer")
  }

  /** One message, translated alone: its blocks and the role they speak in, or the field that refuses it. */
  datatype Piece = SystemPiece(blocks: seq<Block>) | TurnPiece(turn: Turn) | RefusedPiece(field: string)

  function Translate(env: Env, message: Json): Piece {
    var role, mark := Get(message, "role"), Present(Get(message, "cache_control"));
    var blocks := ContentBlocks(env, Get(message, "content"));
    if IsSystem(message) then
      if blocks.None? then RefusedPiece("messages.content") else SystemPiece(MarkLast(blocks.value, mark))
    else if role == Str("user") || role == Str("assistant") then
      if blocks.None? then RefusedPiece("messages.content")
      else
        var calls := AssistantCalls(message);
        var uses := CallsBlocks(env, calls);
        if uses.None? then RefusedPiece("messages.tool_calls")
        else TurnPiece(Turn(if role == Str("user") then User else Assistant, MarkLast(blocks.value + uses.value, mark)))
    else if role == Str("tool") then
      if blocks.None? then RefusedPiece("messages.content")
      else TurnPiece(Turn(User, [ToolResultOf(env, message, blocks.value)]))
    else RefusedPiece("messages.role")
  }

  lemma {:induction false} PartsSnoc(env: Env, parts: seq<Json>, part: Json)
    ensures PartsBlocks(env, parts + [part]) == Both(PartsBlocks(env, parts), PartBlocks(env, part))
  {
    if parts == [] {
      assert parts + [part] == [part];
      BothEmpty(PartBlocks(env, part));
    } else {
      TailAppend(parts, [part]);
      PartsSnoc(env, parts[1..], part);
      BothAssoc(PartBlocks(env, parts[0]), PartsBlocks(env, parts[1..]), PartBlocks(env, part));
    }
  }

  lemma {:induction false} BothEmpty(a: Option<seq<Block>>)
    ensures Both(a, Some([])) == a && Both(Some([]), a) == a
  {
    if a.Some? {
      assert a.value + [] == a.value && [] + a.value == a.value;
    }
  }

  lemma {:induction false} BothAssoc(a: Option<seq<Block>>, b: Option<seq<Block>>, c: Option<seq<Block>>)
    ensures Both(Both(a, b), c) == Both(a, Both(b, c))
  {
    if a.Some? && b.Some? && c.Some? {
      Assoc(a.value, b.value, c.value);
    }
  }

  lemma {:induction false} PartsRefused(env: Env, parts: seq<Json>, k: nat)
    requires k < |parts| && PartBlocks(env, parts[k]).None?
    ensures PartsBlocks(env, parts).None?
  {
    if k > 0 {
      PartsRefused(env, parts[1..], k - 1);
    }
  }

  method ContentToBlocks(env: Env, content: Json) returns (blocks: Option<seq<Block>>)
    ensures blocks == ContentBlocks(env, content)
  {
    if content.Str? { return Some(if content.s == "" then [] else [TextBlock(content.s, None)]); }
    if content.Arr? {
      var collected: seq<Block> := [];
      for k := 0 to |content.items|
        invariant Some(collected) == PartsBlocks(env, content.items[..k])
      {
        var part := content.items[k];
        assert content.items[..k + 1] == content.items[..k] + [part];
        PartsSnoc(env, content.items[..k], part);
        var one := PartBlocks(env, part);
        if one.None? {
          PartsRefused(env, content.items, k);
          return None;
        }
        collected := collected + one.value;
      }
      assert content.items[..|content.items|] == content.items;
      return Some(collected);
    }
    if Nullish(content) { return Some([]); }
    return None;
  }

  lemma {:induction false} CallsSnoc(env: Env, calls: seq<Json>, call: Json)
    ensures CallsBlocks(env, calls + [call]) == Both(CallsBlocks(env, calls), CallBlock(env, call))
  {
    if calls == [] {
      assert calls + [call] == [call];
      BothEmpty(CallBlock(env, call));
    } else {
      TailAppend(calls, [call]);
      CallsSnoc(env, calls[1..], call);
      BothAssoc(CallBlock(env, calls[0]), CallsBlocks(env, calls[1..]), CallBlock(env, call));
    }
  }

  lemma {:induction false} CallsRefused(env: Env, calls: seq<Json>, k: nat)
    requires k < |calls| && CallBlock(env, calls[k]).None?
    ensures CallsBlocks(env, calls).None?
  {
    if k > 0 {
      CallsRefused(env, calls[1..], k - 1);
    }
  }

  method ToolUses(env: Env, calls: seq<Json>) returns (blocks: Option<seq<Block>>)
    ensures blocks == CallsBlocks(env, calls)
  {
    var collected: seq<Block> := [];
    for k := 0 to |calls|
      invariant Some(collected) == CallsBlocks(env, calls[..k])
    {
      assert calls[..k + 1] == calls[..k] + [calls[k]];
      CallsSnoc(env, calls[..k], calls[k]);
      var one := CallBlock(env, calls[k]);
      if one.None? {
        CallsRefused(env, calls, k);
        return None;
      }
      collected := collected + one.value;
    }
    assert calls[..|calls|] == calls;
    return Some(collected);
  }

  lemma {:induction false} StripOneMore(blocks: seq<Block>, k: nat)
    requires k < |blocks|
    ensures StripMarks(blocks[..k + 1]) == StripMarks(blocks[..k]) + [blocks[k].(mark := None)]
  {
    PrefixSnoc(blocks, k);
    StripSnoc(blocks[..k], blocks[k]);
  }

  lemma {:induction false} StripSnoc(blocks: seq<Block>, block: Block)
    ensures StripMarks(blocks + [block]) == StripMarks(blocks) + [block.(mark := None)]
  {
    if blocks == [] {
      ConcatNothing([block]);
    } else {
      TailAppend(blocks, [block]);
      StripSnoc(blocks[1..], block);
      Assoc([blocks[0].(mark := None)], StripMarks(blocks[1..]), [block.(mark := None)]);
    }
  }

  lemma {:induction false} LastOneMore(blocks: seq<Block>, k: nat)
    requires k < |blocks|
    ensures LastMark(blocks[..k + 1]) == if blocks[k].mark.Some? then blocks[k].mark else LastMark(blocks[..k])
  {
    assert blocks[..k + 1][..k] == blocks[..k];
  }

  /** The part marks of a tool result leave its blocks; the last one is what hoists. */
  method HoistMarks(blocks: seq<Block>) returns (bare: seq<Block>, partMark: Option<Json>)
    ensures bare == StripMarks(blocks) && partMark == LastMark(blocks)
  {
    bare, partMark := [], None;
    for k := 0 to |blocks|
      invariant bare == StripMarks(blocks[..k]) && partMark == LastMark(blocks[..k])
    {
      StripOneMore(blocks, k);
      LastOneMore(blocks, k);
      if blocks[k].mark.Some? { partMark := blocks[k].mark; }
      bare := bare + [blocks[k].(mark := None)];
    }
    assert blocks[..|blocks|] == blocks;
  }

  // ---------------------------------------------------------------- the whole conversation

  datatype Conversation = Conversation(system: seq<Block>, turns: seq<Turn>) | Refused(field: string)

  /** What precedes, then a conversation. */
  function Before(system: seq<Block>, turns: seq<Turn>, rest: Conversation): Conversation {
    if rest.Refused? then rest else Conversation(system + rest.system, turns + rest.turns)
  }

  /** Message by message, the first refusal deciding; system messages only while none other came. */
  function Converse(env: Env, messages: seq<Json>, leading: bool): Conversation {
    if messages == [] then Conversation([], [])
    else if IsSystem(messages[0]) && !leading then Refused("messages.system")
    else
      match Translate(env, messages[0])
      case RefusedPiece(field) => Refused(field)
      case SystemPiece(blocks) => Before(blocks, [], Converse(env, messages[1..], leading))
      case TurnPiece(turn) => Before([], [turn], Converse(env, messages[1..], false))
  }

  method ReadMessages(env: Env, source: seq<Json>) returns (result: Conversation)
    ensures result == Converse(env, source, true)
  {
    var system: seq<Block>, turns: seq<Turn> := [], [];
    var inLeadingSystem := true;
    BeforeNothing(Converse(env, source, true));
    for k := 0 to |source|
      invariant Converse(env, source, true) == Before(system, turns, Converse(env, source[k..], inLeadingSystem))
    {
      var message := source[k];
      var role := Get(message, "role");
      ghost var rest := Converse(env, source[k + 1..], inLeadingSystem && IsSystem(message));
      assert source[k..][0] == message && source[k..][1..] == source[k + 1..];
      if role == Str("system") || role == Str("developer") {
        if !inLeadingSystem { return Refused("messages.system"); }
        var blocks := ContentToBlocks(env, Get(message, "content"));
        if blocks.None? { return Refused("messages.content"); }
        var marked := MarkLast(blocks.value, Present(Get(message, "cache_control")));
        BeforeTwice(system, turns, marked, [], rest);
        system := system + marked;
        assert turns + [] == turns;
      } else {
        inLeadingSystem := false;
        var piece := ReadTurn(env, message);
        if piece.RefusedPiece? { return Refused(piece.field); }
        BeforeTwice(system, turns, [], [piece.turn], rest);
        turns := turns + [piece.turn];
        assert system + [] == system;
      }
    }
    assert source[|source|..] == [];
    assert system + [] == system && turns + [] == turns;
    result := Conversation(system, turns);
  }

  lemma {:induction false} BeforeNothing(c: Conversation)
    ensures Before([], [], c) == c
  {
    if c.Conversation? {
      assert [] + c.system == c.system && [] + c.turns == c.turns;
    }
  }

  lemma {:induction false} BeforeTwice(s: seq<Block>, t: seq<Turn>, s': seq<Block>, t': seq<Turn>, c: Conversation)
    ensures Before(s, t, Before(s', t', c)) == Before(s + s', t + t', c)
  {
    if c.Conversation? {
      Assoc(s, s', c.system);
      Assoc(t, t', c.turns);
    }
  }

  /** A message after the leading system run. */
  method ReadTurn(env: Env, message: Json) returns (piece: Piece)
    requires !IsSystem(message)
    ensures piece == Translate(env, message) && !piece.SystemPiece?
  {
    var role, mark := Get(message, "role"), Present(Get(message, "cache_control"));
    if role == Str("user") || role == Str("assistant") {
      var blocks := ContentToBlocks(env, Get(message, "content"));
      if blocks.None? { return RefusedPiece("messages.content"); }
      var uses: Option<seq<Block>> := Some([]);
      if role == Str("assistant") && Get(message, "tool_calls").Arr? {
        uses := ToolUses(env, Get(message, "tool_calls").items);
        if uses.None? { return RefusedPiece("messages.tool_calls"); }
      }
      return TurnPiece(Turn(if role == Str("user") then User else Assistant, MarkLast(blocks.value + uses.value, mark)));
    }
    if role == Str("tool") {
      var blocks := ContentToBlocks(env, Get(message, "content"));
      if blocks.None? { return RefusedPiece("messages.content"); }
      var bare, partMark := HoistMarks(blocks.value);
      return TurnPiece(Turn(User, [ToolResult(
        env.js.text(OrElse(Get(message, "tool_call_id"), Str(""))),
        if |bare| > 0 then bare else [TextBlock("", None)],
        if mark.Some? then mark else partMark)]));
    }
    return RefusedPiece("messages.role");
  }

  /** The leading run of system messages. */
  function Leading(messages: seq<Json>): (k: nat)
    ensures k <= |messages|
    ensures forall i :: 0 <= i < k ==> IsSystem(messages[i])
    ensures k < |messages| ==> !IsSystem(messages[k])
  {
    if messages == [] || !IsSystem(messages[0]) then 0 else
      var rest := Leading(messages[1..]);
      assert forall i :: 1 <= i < rest + 1 ==> IsSystem(messages[1..][i - 1]) && messages[i] == messages[1..][i - 1];
      rest + 1
  }

  function SystemBlocks(env: Env, messages: seq<Json>): seq<Block> {
    if messages == [] then []
    else
      var piece := Translate(env, messages[0]);
      (if piece.SystemPiece? then piece.blocks else []) + SystemBlocks(env, messages[1..])
  }

  function TurnsOf(env: Env, messages: seq<Json>): seq<Turn> {
    if messages == [] then []
    else
      var piece := Translate(env, messages[0]);
      (if piece.TurnPiece? then [piece.turn] else []) + TurnsOf(env, messages[1..])
  }

  // What can be expressed, by the members of a message.

  /** A text, an image of a kind the API takes, or replayed reasoning, which is left out. */
  predicate PartClear(env: Env, part: Json) {
    var url := Get(Get(part, "image_url"), "url");
    (Is(part, "text") && Get(part, "text").Str?) || (Is(part, "image_url") && url.Str? && env.image(url.s).Some?) ||
    Is(part, "reasoning") || Is(part, "thinking") || Is(part, "redacted_thinking") || Is(part, "redacted_reasoning")
  }

  predicate ContentClear(env: Env, content: Json) {
    content.Str? || Nullish(content) ||
    (content.Arr? && forall i :: 0 <= i < |content.items| ==> PartClear(env, content.items[i]))
  }

  /** Arguments are absent or blank, or a string that parses to an object. */
  predicate ArgumentsClear(env: Env, arguments: Json) {
    arguments == Undefined ||
    (arguments.Str? &&
     (Trim(arguments.s) == "" || (env.js.parse(arguments.s).Some? && env.js.parse(arguments.s).value.Obj?)))
  }

  predicate CallClear(env: Env, call: Json) {
    Is(call, "function") && Get(Get(call, "function"), "name").Str? &&
    ArgumentsClear(env, Get(Get(call, "function"), "arguments"))
  }

  predicate CallsClear(env: Env, calls: seq<Json>) {
    forall i :: 0 <= i < |calls| ==> CallClear(env, calls[i])
  }

  predicate SpeaksAs(message: Json, role: string) {
    Get(message, "role") == Str(role)
  }

  predicate SystemRole(message: Json) {
    SpeaksAs(message, "system") || SpeaksAs(message, "developer")
  }

  predicate KnownRole(message: Json) {
    SystemRole(message) || SpeaksAs(message, "user") || SpeaksAs(message, "assistant") || SpeaksAs(message, "tool")
  }

  /** The tool calls that are read: an assistant's. */
  function CallsIn(message: Json): seq<Json> {
    var calls := Get(message, "tool_calls");
    if SpeaksAs(message, "assistant") && calls.Arr? then calls.items else []
  }

  predicate Clear(env: Env, message: Json) {
    KnownRole(message) && ContentClear(env, Get(message, "content")) && CallsClear(env, CallsIn(message))
  }

  /** A message can be expressed where it stands: a system message only within the leading run. */
  predicate Fits(env: Env, message: Json, behind: bool) {
    Clear(env, message) && (behind ==> !SystemRole(message))
  }

  lemma {:induction false} PartIsClear(env: Env, part: Json)
    ensures PartBlocks(env, part).Some? <==> PartClear(env, part)
  {
  }

  lemma {:induction false} PartsAreClear(env: Env, parts: seq<Json>)
    ensures PartsBlocks(env, parts).Some? <==> forall i :: 0 <= i < |parts| ==> PartClear(env, parts[i])
  {
    if parts != [] {
      PartIsClear(env, parts[0]);
      PartsAreClear(env, parts[1..]);
      assert forall i :: 0 < i < |parts| ==> parts[i] == parts[1..][i - 1];
      assert forall i :: 0 <= i < |parts[1..]| ==> parts[1..][i] == parts[i + 1];
    }
  }

  lemma {:induction false} CallIsClear(env: Env, call: Json)
    ensures CallBlock(env, call).Some? <==> CallClear(env, call)
  {
  }

  lemma {:induction false} CallsAreClear(env: Env, calls: seq<Json>)
    ensures CallsBlocks(env, calls).Some? <==> CallsClear(env, calls)
  {
    if calls != [] {
      CallIsClear(env, calls[0]);
      CallsAreClear(env, calls[1..]);
      assert forall i :: 0 < i < |calls| ==> calls[i] == calls[1..][i - 1];
      assert forall i :: 0 <= i < |calls[1..]| ==> calls[1..][i] == calls[i + 1];
    }
  }

  lemma {:induction false} ContentIsClear(env: Env, content: Json)
    ensures ContentBlocks(env, content).Some? <==> ContentClear(env, content)
  {
    if content.Arr? { PartsAreClear(env, content.items); }
  }

  /** What a message becomes by itself: a system piece or a turn when it is clear, and else a refusal that says why. */
  lemma {:induction false} PieceOf(env: Env, message: Json)
    ensures var piece := Translate(env, message);
            (piece.RefusedPiece? <==> !Clear(env, message)) &&
            (piece.RefusedPiece? ==> piece.field == UnfitField(env, message, false)) &&
            (piece.SystemPiece? <==> Clear(env, message) && SystemRole(message))
  {
    ContentIsClear(env, Get(message, "content"));
    CallsAreClear(env, CallsIn(message));
  }

  predicate Expressible(env: Env, messages: seq<Json>) {
    forall i :: 0 <= i < |messages| ==> Fits(env, messages[i], Leading(messages) <= i)
  }

  lemma {:induction false} KindOf(env: Env, message: Json)
    ensures Fits(env, message, true) <==> Translate(env, message).TurnPiece?
    ensures Fits(env, message, false) <==> !Translate(env, message).RefusedPiece?
    ensures Translate(env, message).RefusedPiece? ==> Translate(env, message).field == UnfitField(env, message, false)
    ensures IsSystem(message) <==> SystemRole(message)
    ensures IsSystem(message) ==> !Translate(env, message).TurnPiece?
  {
    PieceOf(env, message);
  }

  lemma {:induction false} ConverseTurns(env: Env, messages: seq<Json>)
    ensures var c := Converse(env, messages, false);
            (c.Conversation? <==> forall i :: 0 <= i < |messages| ==> Fits(env, messages[i], true)) &&
            (c.Conversation? ==> c.system == [] && c.turns == TurnsOf(env, messages))
  {
    if messages != [] {
      ConverseTurns(env, messages[1..]);
      KindOf(env, messages[0]);
      assert forall i :: 0 < i < |messages| ==> messages[i] == messages[1..][i - 1];
      assert forall i :: 0 <= i < |messages[1..]| ==> messages[1..][i] == messages[i + 1];
    }
  }

  /**
    * The conversation is accepted exactly when every message can be expressed, and then `system` is the
    * leading system run, message by message, and the turns are all the others, in order.
    */
  lemma {:induction false} ConverseExact(env: Env, messages: seq<Json>)
    ensures var c := Converse(env, messages, true);
            var k := Leading(messages);
            (c.Conversation? <==> Expressible(env, messages)) &&
            (c.Conversation? ==> c.system == SystemBlocks(env, messages[..k]) && c.turns == TurnsOf(env, messages[k..]))
  {
    if messages == [] {
    } else if IsSystem(messages[0]) {
      ConverseExact(env, messages[1..]);
      ExpressibleTail(env, messages);
      KindOf(env, messages[0]);
      var k := Leading(messages);
      assert messages[..k][1..] == messages[1..][..k - 1] && messages[k..] == messages[1..][k - 1..];
      if Converse(env, messages, true).Conversation? {
        assert [] + Converse(env, messages[1..], true).turns == Converse(env, messages[1..], true).turns;
      }
    } else {
      ConverseTurns(env, messages);
      KindOf(env, messages[0]);
      assert Converse(env, messages, true) == Converse(env, messages, false);
      assert messages[0..] == messages;
    }
  }

  lemma {:induction false} ExpressibleTail(env: Env, messages: seq<Json>)
    requires messages != [] && IsSystem(messages[0])
    ensures Expressible(env, messages) <==> Fits(env, messages[0], false) && Expressible(env, messages[1..])
  {
    assert Leading(messages) == Leading(messages[1..]) + 1;
    assert forall i :: 0 < i < |messages| ==> messages[i] == messages[1..][i - 1];
    assert forall i :: 0 <= i < |messages[1..]| ==> messages[1..][i] == messages[i + 1];
  }

  // ---------------------------------------------------------------- the refusal

  /** Why a message that does not fit is refused. */
  function UnfitField(env: Env, message: Json, behind: bool): string {
    if SystemRole(message) && behind then "messages.system"
    else if !KnownRole(message) then "messages.role"
    else if !ContentClear(env, Get(message, "content")) then "messages.content"
    else "messages.tool_calls"
  }

  /** The first message that cannot be expressed where it stands, and why. */
  ghost predicate FirstUnfit(env: Env, messages: seq<Json>, k: nat, field: string) {
    k < |messages| && !Fits(env, messages[k], Leading(messages) <= k) &&
    (forall i :: 0 <= i < k ==> Fits(env, messages[i], Leading(messages) <= i)) &&
    field == UnfitField(env, messages[k], Leading(messages) <= k)
  }

  lemma {:induction false} TurnsRefused(env: Env, messages: seq<Json>, k: nat)
    requires k < |messages| && !Fits(env, messages[k], true)
    requires forall i :: 0 <= i < k ==> Fits(env, messages[i], true)
    ensures Converse(env, messages, false) == Refused(UnfitField(env, messages[k], true))
    decreases k
  {
    TurnFirst(env, messages);
    if k > 0 {
      var rest := messages[1..];
      assert forall i :: 0 <= i < k ==> rest[i] == messages[i + 1];
      TurnsRefused(env, rest, k - 1);
    }
  }

  lemma {:induction false} TurnFirst(env: Env, messages: seq<Json>)
    requires messages != []
    ensures var rest := Converse(env, messages[1..], false);
            Converse(env, messages, false) ==
            if !Fits(env, messages[0], true) then Refused(UnfitField(env, messages[0], true))
            else if rest.Refused? then rest else Converse(env, messages, false)
  {
    KindOf(env, messages[0]);
  }

  /** A conversation is refused for the first of its messages that cannot be expressed. */
  lemma {:induction false} RefusedForFirst(env: Env, messages: seq<Json>, k: nat, field: string)
    requires FirstUnfit(env, messages, k, field)
    ensures Converse(env, messages, true) == Refused(field)
    decreases k
  {
    if !IsSystem(messages[0]) {
      assert Converse(env, messages, true) == Converse(env, messages, false);
      TurnsRefused(env, messages, k);
    } else if k == 0 {
      KindOf(env, messages[0]);
    } else {
      KindOf(env, messages[0]);
      UnfitTail(env, messages, k, field);
      RefusedForFirst(env, messages[1..], k - 1, field);
    }
  }

  lemma {:induction false} UnfitTail(env: Env, messages: seq<Json>, k: nat, field: string)
    requires FirstUnfit(env, messages, k, field) && k > 0 && IsSystem(messages[0])
    ensures FirstUnfit(env, messages[1..], k - 1, field)
  {
    assert Leading(messages) == Leading(messages[1..]) + 1;
    assert forall i :: 0 <= i < |messages[1..]| ==> messages[1..][i] == messages[i + 1];
  }

  lemma {:induction false} SomeFirst(env: Env, messages: seq<Json>, k: nat) returns (first: nat, field: string)
    requires k < |messages| && !Fits(env, messages[k], Leading(messages) <= k)
    ensures FirstUnfit(env, messages, first, field)
    decreases k
  {
    if i: nat :| i < k && !Fits(env, messages[i], Leading(messages) <= i) {
      first, field := SomeFirst(env, messages, i);
    } else {
      first, field := k, UnfitField(env, messages[k], Leading(messages) <= k);
    }
  }

  lemma {:induction false} ConverseRefusal(env: Env, messages: seq<Json>) returns (k: nat)
    requires Converse(env, messages, true).Refused?
    ensures FirstUnfit(env, messages, k, Converse(env, messages, true).field)
  {
    ConverseExact(env, messages);
    var some :| 0 <= some < |messages| && !Fits(env, messages[some], Leading(messages) <= some);
    var field;
    k, field := SomeFirst(env, messages, some);
    RefusedForFirst(env, messages, k, field);
  }
}
