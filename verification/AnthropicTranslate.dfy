/** `toMessagesRequest` as a whole. */
module AnthropicTranslate {
  import opened Js
  import opened AnthropicRequest
  import opened AnthropicWords
  import opened AnthropicBody
  import opened AnthropicMessages
  import opened AnthropicMarks
  import opened AnthropicOptions

  // ---------------------------------------------------------------- thinking budget

  const DEFAULT_MAX_TOKENS := 8192.0
  const MIN_THINKING_BUDGET := 1024.0
  const ANSWER_HEADROOM_TOKENS := 2048.0

  datatype Thinking = Off | Adaptive(effort: string) | Enabled(budget: real)

  const ADAPTIVE_ONLY_THINKING := [
    "claude-fable-5", "claude-fable-5-1", "claude-opus-5-5", "claude-sonnet-5-5", "claude-haiku-5-5",
    "claude-opus-5", "claude-opus-4-8", "claude-opus-4-7", "claude-sonnet-5"]

  function RequestedBudget(effort: string): Option<real> {
    if effort == "low" || effort == "minimal" then Some(1024.0)
    else if effort == "medium" then Some(4096.0)
    else if effort == "high" then Some(16384.0)
    else None
  }

  function EffortForBudget(budget: real): string {
    if budget <= 2048.0 then "low"
    else if budget <= 8192.0 then "medium"
    else if budget <= 32768.0 then "high"
    else "xhigh"
  }

  function IsAdaptiveOnly(model: Json): bool {
    model.Str? && model.s in ADAPTIVE_ONLY_THINKING
  }

  /** The budget an effort asks for; any other effort asks for none. */
  predicate AsksFor(effort: string, budget: real) {
    match budget
    case 1024.0 => effort in ["minimal", "low"]
    case 4096.0 => effort == "medium"
    case 16384.0 => effort == "high"
    case _ => false
  }

  predicate Graded(budget: real, effort: string) {
    match effort
    case "low" => budget <= 2048.0
    case "medium" => 2048.0 < budget <= 8192.0
    case "high" => 8192.0 < budget <= 32768.0
    case "xhigh" => 32768.0 < budget
    case _ => false
  }

  lemma {:induction false} EffortIsGraded(budget: real)
    ensures Graded(budget, EffortForBudget(budget))
  {
  }

  /** A model that takes an effort for its thinking and refuses a budget. */
  predicate TakesEffort(model: Json) {
    model == Str("claude-fable-5") || model == Str("claude-fable-5-1") || model == Str("claude-opus-5-5") ||
    model == Str("claude-sonnet-5-5") || model == Str("claude-haiku-5-5") || model == Str("claude-opus-5") ||
    model == Str("claude-opus-4-8") || model == Str("claude-opus-4-7") || model == Str("claude-sonnet-5")
  }

  /**
    * The budget is carved out of max_tokens. A client's own limit is never touched: the budget shrinks
    * into it, to the largest that leaves the headroom, and thinking is off when that is below the floor.
    * Without a client limit the default grows just enough.
    */
  predicate Carved(model: Json, effort: string, client: Option<real>, maxTokens: real, thinking: Thinking,
      requested: real, budget: real) {
    (thinking != Off <==>
      effort in ["minimal", "low", "medium", "high"] && (client.None? || 1024.0 + 2048.0 <= client.value)) &&
    (client.Some? ==> maxTokens == client.value) &&
    (client.None? && thinking == Off ==> maxTokens == 8192.0) &&
    (client.None? && thinking != Off ==>
      budget == requested && 8192.0 <= maxTokens && (maxTokens == 8192.0 || maxTokens == budget + 2048.0)) &&
    (thinking != Off ==>
      AsksFor(effort, requested) && 1024.0 <= budget <= requested && budget + 2048.0 <= maxTokens &&
      (budget == requested || budget + 2048.0 == maxTokens)) &&
    match thinking
    case Off => true
    case Adaptive(grade) => TakesEffort(model) && Graded(budget, grade)
    case Enabled(given) => !TakesEffort(model) && given == budget
  }

  method CarveThinking(model: Json, effort: string, client: Option<real>) returns (maxTokens: real, thinking: Thinking)
    ensures exists requested, budget :: Carved(model, effort, client, maxTokens, thinking, requested, budget)
  {
    maxTokens := if client.Some? then client.value else DEFAULT_MAX_TOKENS;
    var requested := RequestedBudget(effort);
    var thinkingBudget := 0.0;
    if requested.Some? {
      if client.Some? {
        var room := maxTokens - ANSWER_HEADROOM_TOKENS;
        thinkingBudget := if requested.value < room then requested.value else room;
      } else {
        thinkingBudget := requested.value;
        var needed := thinkingBudget + ANSWER_HEADROOM_TOKENS;
        maxTokens := if maxTokens < needed then needed else maxTokens;
      }
      if thinkingBudget < MIN_THINKING_BUDGET { thinkingBudget := 0.0; }
    }
    EffortIsGraded(thinkingBudget);
    if thinkingBudget > 0.0 {
      thinking := if IsAdaptiveOnly(model) then Adaptive(EffortForBudget(thinkingBudget)) else Enabled(thinkingBudget);
    } else {
      thinking := Off;
    }
    assert Carved(model, effort, client, maxTokens, thinking,
      if requested.Some? then requested.value else 0.0, thinkingBudget);
  }

  // ---------------------------------------------------------------- the request

  const ANTHROPIC_MAPPABLE_FIELDS := [
    "model", "messages", "stream", "stream_options", "temperature", "top_p", "top_k", "max_tokens",
    "max_completion_tokens", "stop", "tools", "tool_choice", "parallel_tool_calls", "service_tier", "user",
    "reasoning_effort", "cache_control"]

  datatype Body = Body(
    model: Json, messages: seq<Turn>, maxTokens: real, system: seq<Block>, thinking: Thinking,
    temperature: Option<real>, topP: Option<real>, topK: Option<real>, options: Options)

  datatype Translation = Accepted(body: Body) | Skip(reason: string, offendingField: string)

  function AsNumber(v: Json): Option<real> {
    if v.Num? then Some(v.n) else None
  }

  /** Who says what, cache marks aside. */
  function Words(turns: seq<Turn>): seq<(Role, Block)> {
    if turns == [] then [] else Tag(turns[0].role, StripMarks(turns[0].content)) + Words(turns[1..])
  }

  lemma {:induction false} WordsSame(a: seq<Turn>, b: seq<Turn>)
    requires SameButMarks(a, b)
    ensures Words(a) == Words(b)
    decreases |a|
  {
    if a != [] {
      WordsSame(a[1..], b[1..]);
    }
  }

  function BareSpeech(words: seq<(Role, Block)>): seq<(Role, Block)> {
    if words == [] then [] else [(words[0].0, words[0].1.(mark := None))] + BareSpeech(words[1..])
  }

  lemma {:induction false} BareAppend(a: seq<(Role, Block)>, b: seq<(Role, Block)>)
    ensures BareSpeech(a + b) == BareSpeech(a) + BareSpeech(b)
    decreases |a|
  {
    if a == [] {
      assert a + b == b && [] + BareSpeech(b) == BareSpeech(b);
    } else {
      TailAppend(a, b);
      BareAppend(a[1..], b);
      Assoc([(a[0].0, a[0].1.(mark := None))], BareSpeech(a[1..]), BareSpeech(b));
    }
  }

  lemma {:induction false} BareTag(role: Role, blocks: seq<Block>)
    ensures BareSpeech(Tag(role, blocks)) == Tag(role, StripMarks(blocks))
    decreases |blocks|
  {
    if blocks != [] {
      BareTag(role, blocks[1..]);
      assert Tag(role, blocks)[1..] == Tag(role, blocks[1..]);
      assert StripMarks(blocks)[1..] == StripMarks(blocks[1..]);
    }
  }

  lemma {:induction false} WordsOfSpeech(turns: seq<Turn>)
    ensures Words(turns) == BareSpeech(Speech(turns))
    decreases |turns|
  {
    if turns != [] {
      WordsOfSpeech(turns[1..]);
      BareTag(turns[0].role, turns[0].content);
      BareAppend(Tag(turns[0].role, turns[0].content), Speech(turns[1..]));
    }
  }

  lemma {:induction false} SameSpeechSameWords(a: seq<Turn>, b: seq<Turn>)
    requires Speech(a) == Speech(b)
    ensures Words(a) == Words(b)
  {
    WordsOfSpeech(a);
    WordsOfSpeech(b);
  }

  lemma {:induction false} MarkedSame(messages: seq<Turn>, out: seq<Turn>)
    requires |out| == |messages|
    requires forall i :: 0 <= i < |messages| ==> out[i] == messages[i] || out[i] == MarkTurn(messages[i])
    ensures SameButMarks(out, messages)
  {
    forall i | 0 <= i < |messages|
      ensures out[i].role == messages[i].role && StripMarks(out[i].content) == StripMarks(messages[i].content)
    {
      MarkTurnSame(messages[i]);
    }
  }

  lemma {:induction false} MarkTurnSame(turn: Turn)
    ensures MarkTurn(turn).role == turn.role && StripMarks(MarkTurn(turn).content) == StripMarks(turn.content)
  {
    if Hosts(turn) { StripUpdate(turn.content, LastCacheable(turn.content), Some(EPHEMERAL)); }
  }

  lemma {:induction false} MarkGone(block: Block, mark: Option<Json>)
    ensures block.(mark := mark).(mark := None) == block.(mark := None)
  {
  }

  lemma {:induction false} StripUpdate(blocks: seq<Block>, i: nat, mark: Option<Json>)
    requires i < |blocks|
    ensures StripMarks(blocks[i := blocks[i].(mark := mark)]) == StripMarks(blocks)
    decreases i
  {
    var rest := blocks[1..];
    if i == 0 {
      MarkGone(blocks[0], mark);
      assert blocks[0 := blocks[0].(mark := mark)][1..] == rest;
    } else {
      TailUpdate(blocks, i, blocks[i].(mark := mark));
      StripUpdate(rest, i - 1, mark);
    }
  }

  lemma {:induction false} SameTransitive(a: seq<Turn>, b: seq<Turn>, c: seq<Turn>)
    requires SameButMarks(a, b) && SameButMarks(b, c)
    ensures SameButMarks(a, c)
  {
  }

  /** Alternation does not depend on marks. */
  lemma {:induction false} AlternatingSame(a: seq<Turn>, b: seq<Turn>)
    requires SameButMarks(a, b) && Alternating(b)
    ensures Alternating(a)
  {
    forall i | 0 <= i < |a|
      ensures a[i].content != []
    {
      assert |StripMarks(a[i].content)| == |StripMarks(b[i].content)|;
    }
  }

  // No block nested in a tool_result carries a mark.

  predicate Bare(block: Block) {
    block.ToolResult? ==> forall i :: 0 <= i < |block.content| ==> block.content[i].mark.None?
  }

  predicate AllBare(blocks: seq<Block>) {
    forall i :: 0 <= i < |blocks| ==> Bare(blocks[i])
  }

  lemma {:induction false} PartsBare(env: Env, parts: seq<Json>)
    ensures PartsBlocks(env, parts).Some? ==> AllBare(PartsBlocks(env, parts).value)
  {
    if parts != [] {
      PartsBare(env, parts[1..]);
    }
  }

  lemma {:induction false} CallsBare(env: Env, calls: seq<Json>)
    ensures CallsBlocks(env, calls).Some? ==> AllBare(CallsBlocks(env, calls).value)
  {
    if calls != [] {
      CallsBare(env, calls[1..]);
    }
  }

  lemma {:induction false} ContentBare(env: Env, content: Json)
    ensures ContentBlocks(env, content).Some? ==> AllBare(ContentBlocks(env, content).value)
  {
    if content.Arr? { PartsBare(env, content.items); }
  }

  lemma {:induction false} MarkLastBare(blocks: seq<Block>, mark: Option<Json>)
    requires AllBare(blocks)
    ensures AllBare(MarkLast(blocks, mark))
  {
  }

  lemma {:induction false} ResultBare(id: string, content: seq<Block>, mark: Option<Json>)
    requires forall i :: 0 <= i < |content| ==> content[i].mark.None?
    ensures AllBare([ToolResult(id, content, mark)])
  {
  }

  lemma {:induction false} StrippedBare(blocks: seq<Block>)
    ensures forall i :: 0 <= i < |blocks| ==> StripMarks(blocks)[i].mark.None?
    decreases |blocks|
  {
    if blocks != [] { StrippedBare(blocks[1..]); }
  }

  lemma {:induction false} ToolResultBare(env: Env, message: Json, blocks: seq<Block>)
    ensures AllBare([ToolResultOf(env, message, blocks)])
  {
    var result := ToolResultOf(env, message, blocks);
    StrippedBare(blocks);
    ResultBare(result.toolUseId, result.content, result.mark);
  }

  lemma {:induction false} TranslateBare(env: Env, message: Json)
    ensures var piece := Translate(env, message);
            (piece.SystemPiece? ==> AllBare(piece.blocks)) && (piece.TurnPiece? ==> AllBare(piece.turn.content))
  {
    var piece := Translate(env, message);
    var blocks, mark := ContentBlocks(env, Get(message, "content")), Present(Get(message, "cache_control"));
    ContentBare(env, Get(message, "content"));
    if blocks.Some? {
      MarkLastBare(blocks.value, mark);
      ToolResultBare(env, message, blocks.value);
      var calls := AssistantCalls(message);
      CallsBare(env, calls);
      if CallsBlocks(env, calls).Some? {
        AppendBare(blocks.value, CallsBlocks(env, calls).value);
        MarkLastBare(blocks.value + CallsBlocks(env, calls).value, mark);
      }
    }
  }

  lemma {:induction false} AppendBare(a: seq<Block>, b: seq<Block>)
    requires AllBare(a) && AllBare(b)
    ensures AllBare(a + b)
  {
  }

  lemma {:induction false} TurnsBare(env: Env, messages: seq<Json>)
    ensures forall i :: 0 <= i < |TurnsOf(env, messages)| ==> AllBare(TurnsOf(env, messages)[i].content)
  {
    if messages != [] {
      TurnsBare(env, messages[1..]);
      TranslateBare(env, messages[0]);
    }
  }

  lemma {:induction false} BareUnmarked(block: Block)
    ensures Bare(block.(mark := None)) <==> Bare(block)
  {
  }

  ghost predicate BareAll(words: seq<(Role, Block)>) {
    forall i :: 0 <= i < |words| ==> Bare(words[i].1)
  }

  lemma {:induction false} BareTagged(role: Role, content: seq<Block>)
    ensures AllBare(content) <==> BareAll(Tag(role, StripMarks(content)))
    decreases |content|
  {
    if content != [] {
      BareTagged(role, content[1..]);
      BareUnmarked(content[0]);
      assert content == [content[0]] + content[1..];
      var bare := StripMarks(content);
      assert bare[1..] == StripMarks(content[1..]);
      BareBoth([(role, bare[0])], Tag(role, bare[1..]));
    }
  }

  lemma {:induction false} BareBoth(a: seq<(Role, Block)>, b: seq<(Role, Block)>)
    ensures BareAll(a + b) <==> BareAll(a) && BareAll(b)
  {
    var all := a + b;
    if BareAll(all) {
      forall i | 0 <= i < |a| ensures Bare(a[i].1) {
        assert a[i] == all[i];
      }
      forall i | 0 <= i < |b| ensures Bare(b[i].1) {
        assert b[i] == all[|a| + i];
      }
    }
  }

  ghost predicate BareTurns(turns: seq<Turn>) {
    forall i :: 0 <= i < |turns| ==> AllBare(turns[i].content)
  }

  /** Nesting is a matter of the words, not of their marks. */
  lemma {:induction false} BareWords(turns: seq<Turn>)
    ensures BareTurns(turns) <==> BareAll(Words(turns))
    decreases |turns|
  {
    if turns != [] {
      var rest := turns[1..];
      BareWords(rest);
      BareTagged(turns[0].role, turns[0].content);
      BareBoth(Tag(turns[0].role, StripMarks(turns[0].content)), Words(rest));
      BareTurnsCons(turns[0], rest);
      assert turns == [turns[0]] + rest;
    }
  }

  lemma {:induction false} BareTurnsCons(first: Turn, rest: seq<Turn>)
    ensures BareTurns([first] + rest) <==> AllBare(first.content) && BareTurns(rest)
  {
    var turns := [first] + rest;
    assert turns[0] == first && forall i :: 0 < i < |turns| ==> turns[i] == rest[i - 1];
    if BareTurns(turns) {
      forall i | 0 <= i < |rest| ensures AllBare(rest[i].content) {
        assert turns[i + 1] == rest[i];
      }
    }
  }

  lemma {:induction false} BlocksOfSpeech(turns: seq<Turn>)
    ensures |BlocksOf(turns)| == |Speech(turns)|
    ensures forall i :: 0 <= i < |Speech(turns)| ==> BlocksOf(turns)[i] == Speech(turns)[i].1
  {
    if turns != [] {
      BlocksOfSpeech(turns[1..]);
    }
  }

  lemma {:induction false} SameSpeechSameBlocks(a: seq<Turn>, b: seq<Turn>)
    requires Speech(a) == Speech(b)
    ensures BlocksOf(a) == BlocksOf(b)
  {
    BlocksOfSpeech(a);
    BlocksOfSpeech(b);
  }

  lemma {:induction false} NoMarks(turns: seq<Turn>)
    requires !AnyCallerMark(turns)
    ensures MarksIn(turns) == []
  {
    if turns != [] {
      assert !HasCallerMark(turns[0]);
      assert forall i :: 0 <= i < |turns[1..]| ==> turns[1..][i] == turns[i + 1];
      NoMarks(turns[1..]);
      Unmarked(turns[0].content, 0);
      MarkCountAppend(turns[0].content, BlocksOf(turns[1..]), 0);
      MarkCountShift(BlocksOf(turns[1..]), 0, |turns[0].content|);
    }
  }

  lemma {:induction false} Unmarked(blocks: seq<Block>, at: nat)
    requires forall i :: 0 <= i < |blocks| ==> blocks[i].mark.None?
    ensures MarkPositions(blocks, at) == []
    decreases |blocks|
  {
    if blocks != [] {
      Unmarked(blocks[1..], at + 1);
    }
  }

  // ---------------------------------------------------------------- what an accepted body keeps

  /** The conversation as a Messages body carries it: each turn and the system run say what their messages say. */
  ghost predicate Faithful(env: Env, source: seq<Json>, system: seq<Block>, messages: seq<Turn>) {
    var turns := TurnsOf(env, source[Leading(source)..]);
    Rendered(env, source, SystemBlocks(env, source[..Leading(source)]), turns) &&
    Alternating(messages) && messages != [] && messages[0].role == User &&
    Words(messages) == Words(turns) &&
    StripMarks(system) == StripMarks(SystemBlocks(env, source[..Leading(source)])) &&
    (forall i :: 0 <= i < |messages| ==> AllBare(messages[i].content))
  }

  /**
    * The marks it carries. Where the caller set any, each block is as the caller gave it, or without its mark
    * where the cap does not keep that; where the caller set none, the turns to mark carry ours.
    */
  ghost predicate MarksKept(env: Env, source: seq<Json>, system: seq<Block>, messages: seq<Turn>) {
    var prompt, turns := SystemBlocks(env, source[..Leading(source)]), TurnsOf(env, source[Leading(source)..]);
    var systemMarks, turnMarks := MarkPositions(prompt, 0), MarksIn(turns);
    MarkPositions(system, 0) == KeptSystem(systemMarks) && Capped(system, prompt, KeptSystem(systemMarks)) &&
    (if systemMarks != [] || turnMarks != [] then
       MarksIn(messages) == KeptTurns(systemMarks, turnMarks) &&
       Capped(BlocksOf(messages), BlocksOf(turns), KeptTurns(systemMarks, turnMarks))
     else exists merged :: Alternating(merged) && Speech(merged) == Speech(turns) && OursStand(merged, messages)) &&
    |MarkPositions(system, 0)| + |MarksIn(messages)| <= 4
  }

  lemma {:induction false} NoCallerMark(turns: seq<Turn>)
    requires BareTurns(turns) && MarksIn(turns) == []
    ensures !AnyCallerMark(turns)
    decreases |turns|
  {
    if turns != [] {
      MarkCountAppend(turns[0].content, BlocksOf(turns[1..]), 0);
      MarkCountShift(BlocksOf(turns[1..]), 0, |turns[0].content|);
      BareTurnsCons(turns[0], turns[1..]);
      assert turns == [turns[0]] + turns[1..];
      NoCallerMark(turns[1..]);
      MarkedHere(turns[0].content, 0);
      assert MarkPositions(turns[0].content, 0) == [];
      assert !HasCallerMark(turns[0]);
      assert forall i :: 0 < i < |turns| ==> turns[i] == turns[1..][i - 1];
    }
  }

  /** Someone speaks, and the user speaks first. */
  predicate UserOpens(turns: seq<Turn>) {
    Speech(turns) != [] && Speech(turns)[0].0 == User
  }

  lemma {:induction false} OpensSame(messages: seq<Turn>, turns: seq<Turn>)
    requires Alternating(messages) && Speech(messages) == Speech(turns)
    ensures UserOpens(turns) <==> messages != [] && messages[0].role == User
  {
    if messages != [] {
      assert Speech(messages)[0] == Tag(messages[0].role, messages[0].content)[0];
    }
  }

  lemma {:induction false} FaithfulMarks(env: Env, source: seq<Json>, merged: seq<Turn>, system: seq<Block>,
      messages: seq<Turn>)
    requires Alternating(merged) && merged != [] && merged[0].role == User
    requires Speech(merged) == Speech(TurnsOf(env, source[Leading(source)..]))
    requires SameButMarks(messages, merged)
    requires StripMarks(system) == StripMarks(SystemBlocks(env, source[..Leading(source)])) && Expressible(env, source)
    ensures Faithful(env, source, system, messages) && BareTurns(merged)
  {
    var turns := TurnsOf(env, source[Leading(source)..]);
    ConversationIsSaid(env, source);
    AlternatingSame(messages, merged);
    SameSpeechSameWords(merged, turns);
    WordsSame(messages, merged);
    TurnsBare(env, source[Leading(source)..]);
    BareWords(turns);
    BareWords(merged);
    BareWords(messages);
  }

  /** The cap, and our own marks where the caller set none on the system prompt. */
  method SetMarks(system0: seq<Block>, merged: seq<Turn>) returns (system: seq<Block>, messages: seq<Turn>)
    ensures StripMarks(system) == StripMarks(system0) && SameButMarks(messages, merged)
    ensures MarkPositions(system, 0) == KeptSystem(MarkPositions(system0, 0))
    ensures Capped(system, system0, KeptSystem(MarkPositions(system0, 0)))
    ensures MarkPositions(system0, 0) != [] || MarksIn(merged) != [] ==>
      var kept := KeptTurns(MarkPositions(system0, 0), MarksIn(merged));
      MarksIn(messages) == kept && Capped(BlocksOf(messages), BlocksOf(merged), kept)
    ensures MarkPositions(system0, 0) == [] && MarksIn(merged) == [] && !AnyCallerMark(merged) ==> OursStand(merged, messages)
    ensures |MarkPositions(system, 0)| + |MarksIn(messages)| <= MAX_CACHE_MARKS
  {
    var systemMarked := MarkPositions(system0, 0);
    system, messages := CapMarks(system0, merged);
    CapExact(systemMarked, MarksIn(merged));
    if |systemMarked| == 0 {
      ghost var capped := messages;
      messages := AddCachePromptMarks(messages);
      if !AnyCallerMark(capped) { MarksAreThere(capped, messages); }
      MarkedSame(capped, messages);
      SameTransitive(messages, capped, merged);
      if !AnyCallerMark(capped) { NoMarks(capped); }
    }
  }

  /** The field a conversation is refused for: its first message's that cannot be expressed, or all of them. */
  ghost predicate RefusesFor(env: Env, source: seq<Json>, field: string) {
    if Expressible(env, source) then field == "messages" else exists k :: FirstUnfit(env, source, k, field)
  }

  method ReadConversation(env: Env, source: seq<Json>)
      returns (refused: Option<string>, system: seq<Block>, messages: seq<Turn>)
    ensures refused.None? <==> Expressible(env, source) && UserOpens(TurnsOf(env, source[Leading(source)..]))
    ensures refused.None? ==> Faithful(env, source, system, messages) && MarksKept(env, source, system, messages)
    ensures refused.Some? ==> RefusesFor(env, source, refused.value)
  {
    system, messages := [], [];
    var conversation := ReadMessages(env, source);
    ConverseExact(env, source);
    if conversation.Refused? {
      ghost var k := ConverseRefusal(env, source);
      return Some(conversation.field), [], [];
    }
    var merged := MergeTurns(conversation.turns);
    OpensSame(merged, conversation.turns);
    if |merged| == 0 || merged[0].role != User { return Some("messages"), [], []; }
    system, messages := SetMarks(conversation.system, merged);
    SameSpeechSameBlocks(merged, conversation.turns);
    FaithfulMarks(env, source, merged, system, messages);
    if MarksIn(merged) == [] { NoCallerMark(merged); }
    refused := None;
  }

  /** A field that the translation accounts for: what is said, how it is sampled, and what tools there are. */
  predicate IsMappable(key: string) {
    key in ["model", "messages", "user", "service_tier", "cache_control"] || key in ["stream", "stream_options"] ||
    key in ["temperature", "top_p", "top_k", "max_tokens", "max_completion_tokens", "stop", "reasoning_effort"] ||
    key in ["tools", "tool_choice", "parallel_tool_calls"]
  }

  lemma {:induction false} MappableIs(key: string)
    ensures IsMappable(key) <==> key in ANTHROPIC_MAPPABLE_FIELDS
  {
  }

  ghost predicate Mappable(keys: seq<string>) {
    forall i :: 0 <= i < |keys| ==> IsMappable(keys[i])
  }

  ghost predicate IsFirstUnmappable(keys: seq<string>, key: string) {
    exists i :: 0 <= i < |keys| && keys[i] == key && !IsMappable(key) && Mappable(keys[..i])
  }

  method FirstUnmappable(keys: seq<string>) returns (key: Option<string>)
    ensures key.None? <==> Mappable(keys)
    ensures key.Some? ==> IsFirstUnmappable(keys, key.value)
  {
    for k := 0 to |keys|
      invariant Mappable(keys[..k])
    {
      MappableIs(keys[k]);
      if keys[k] !in ANTHROPIC_MAPPABLE_FIELDS { return Some(keys[k]); }
      assert keys[..k + 1] == keys[..k] + [keys[k]];
    }
    assert keys[..|keys|] == keys;
    return None;
  }

  /** The client's own limit: `max_completion_tokens ?? max_tokens`, when it is a number. */
  function ClientMax(projected: Json): Option<real> {
    AsNumber(OrElse(Get(projected, "max_completion_tokens"), Get(projected, "max_tokens")))
  }

  function Effort(env: Env, projected: Json): string {
    env.lower(env.js.text(OrElse(Get(projected, "reasoning_effort"), Str(""))))
  }

  /** The client's own limit: its first of these members that is there, where that is a number. */
  predicate IsClientMax(projected: Json, limit: Option<real>) {
    var given := FirstPresent([Get(projected, "max_completion_tokens"), Get(projected, "max_tokens")]);
    if given.Num? then limit == Some(given.n) else limit.None?
  }

  /** What the body thinks and how much it may write are what the request's own members allow. */
  ghost predicate ThinkingFits(env: Env, projected: Json, maxTokens: real, thinking: Thinking) {
    var given := Get(projected, "reasoning_effort");
    var effort := env.lower(env.js.text(if Nullish(given) then Str("") else given));
    exists client, requested, budget ::
      IsClientMax(projected, client) &&
      Carved(Get(projected, "model"), effort, client, maxTokens, thinking, requested, budget)
  }

  method Think(env: Env, projected: Json) returns (maxTokens: real, thinking: Thinking)
    ensures ThinkingFits(env, projected, maxTokens, thinking)
  {
    maxTokens, thinking := CarveThinking(Get(projected, "model"), Effort(env, projected), ClientMax(projected));
    assert IsClientMax(projected, ClientMax(projected));
  }

  /** Sampling knobs are the request's own, and sent only while thinking is off. */
  ghost predicate SamplingIs(projected: Json, body: Body) {
    if body.thinking == Off then
      IsNumberOf(Get(projected, "temperature"), body.temperature) && IsNumberOf(Get(projected, "top_p"), body.topP) &&
      IsNumberOf(Get(projected, "top_k"), body.topK)
    else body.temperature.None? && body.topP.None? && body.topK.None?
  }

  predicate IsNumberOf(v: Json, number: Option<real>) {
    if v.Num? then number == Some(v.n) else number.None?
  }

  /** A request is refused for the first of these that is not as it must be. */
  ghost predicate Skips(env: Env, projected: Json, keys: seq<string>, reason: string, field: string) {
    var source := ItemsOf(Get(projected, "messages"));
    if !Mappable(keys) then
      reason == "anthropic_unmappable_field" && IsFirstUnmappable(keys, field)
    else if Get(projected, "stream") != Bool(true) then reason == "anthropic_stream_only" && field == ""
    else
      reason == "anthropic_unmappable_field" &&
      if Expressible(env, source) && UserOpens(TurnsOf(env, source[Leading(source)..])) then field == UnfitOption(projected)
      else RefusesFor(env, source, field)
  }

  /**
    * The projected body (its keys in order) becomes a Messages body or a skip reason. It is accepted
    * exactly when every field is mappable, it streams, every message can be expressed where it stands, the
    * user opens and every option has a shape the API takes; the body then carries the same conversation, at
    * most four marks, a thinking budget that fits, and sampling knobs only while thinking is off. Otherwise
    * it is refused for the first thing that is not so: a key, the stream flag, a message, an option.
    */
  method ToMessagesRequest(env: Env, projected: Json, keys: seq<string>) returns (result: Translation)
    ensures var source := ItemsOf(Get(projected, "messages"));
            result.Accepted? <==>
              Mappable(keys) && Get(projected, "stream") == Bool(true) &&
              Expressible(env, source) && UserOpens(TurnsOf(env, source[Leading(source)..])) && OptionsFit(projected)
    ensures result.Accepted? ==>
      var source, body := ItemsOf(Get(projected, "messages")), result.body;
      Faithful(env, source, body.system, body.messages) && MarksKept(env, source, body.system, body.messages) &&
      body.model == Get(projected, "model") && OptionsSay(projected, body.options) &&
      ThinkingFits(env, projected, body.maxTokens, body.thinking) && SamplingIs(projected, body)
    ensures result.Skip? ==> Skips(env, projected, keys, result.reason, result.offendingField)
  {
    var unmappable := FirstUnmappable(keys);
    if unmappable.Some? { return Skip("anthropic_unmappable_field", unmappable.value); }
    if Get(projected, "stream") != Bool(true) { return Skip("anthropic_stream_only", ""); }
    var refused, system, messages := ReadConversation(env, ItemsOf(Get(projected, "messages")));
    if refused.Some? { return Skip("anthropic_unmappable_field", refused.value); }
    var maxTokens, thinking := Think(env, projected);
    var options := ReadOptions(projected);
    if options.Unmappable? { return Skip("anthropic_unmappable_field", options.field); }
    var off := thinking == Off;
    return Accepted(Body(Get(projected, "model"), messages, maxTokens, system, thinking,
      if off then AsNumber(Get(projected, "temperature")) else None,
      if off then AsNumber(Get(projected, "top_p")) else None,
      if off then AsNumber(Get(projected, "top_k")) else None, options));
  }
}
