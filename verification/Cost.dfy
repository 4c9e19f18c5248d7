/** `CostExtractor`: usage figures out of a byte stream, with bounded memory. */
module Cost {
  import opened Js
  import opened Decoding
  import opened CostScan
  import opened BoundedLines

  // ---------------------------------------------------------------- one line

  const MIN_COST_INPUT := 0.0000003
  const MIN_COST_OUTPUT := 0.000001

  /** What one usage frame reports, and what a whole stream comes to. */
  datatype Costing = Costing(
    model: Option<string>, totalCost: real, inputTokens: real, outputTokens: real, generationId: Option<string>,
    cacheReadTokens: Option<real>, cacheWriteTokens: Option<real>, reasoningTokens: Option<real>,
    provider: Option<string>, isByok: Option<bool>)

  /**
    * The built-ins and regular expressions: `providerName`, the captures of a `gen-` id and of a model
    * slug, a bounded string field by its name, and `JSON.stringify`.
    */
  datatype Env = Env(
    js: Builtins, isFreeModel: bool, provider: Json -> Option<string>,
    generationIn: string -> Option<string>, modelIn: string -> Option<string>, field: (string, string) -> Option<string>,
    stringify: Json -> string)

  predicate Includes(s: string, part: string) {
    part <= s || (s != "" && Includes(s[1..], part))
  }

  function EndsWith(s: string, end: string): bool {
    |end| <= |s| && s[|s| - |end|..] == end
  }

  function AsText(v: Json): Option<string> {
    if v.Str? then Some(v.s) else None
  }

  function AsCount(v: Json): Option<real> {
    if v.Num? then Some(v.n) else None
  }

  function Count(env: Env, a: Json, b: Json): real {
    env.js.number(OrTruthy(a, OrTruthy(b, Num(0.0))))
  }

  /** The flag is set and the frame carries the cost the flag speaks of. */
  predicate ByokCost(usage: Json) {
    Get(usage, "is_byok") == Bool(true) && Truthy(Get(Get(usage, "cost_details"), "upstream_inference_cost"))
  }

  /** A free model's row that the upstream priced at nothing. */
  predicate FreeRow(usage: Json, model: Json) {
    model.Str? && EndsWith(model.s, ":free") && (Get(usage, "cost") == Num(0.0) || Nullish(Get(usage, "cost")))
  }

  function FirstOf(a: Json, b: Json, c: Json): Option<real> {
    AsCount(OrElse(a, OrElse(b, c)))
  }

  function Upstream(env: Env, usage: Json): real {
    env.js.number(Get(Get(usage, "cost_details"), "upstream_inference_cost"))
  }

  /** What the row is charged when it is a free one: its tokens at the minimum rate. */
  function MinimumCost(env: Env, usage: Json): real {
    Count(env, Get(usage, "prompt_tokens"), Get(usage, "input_tokens")) * MIN_COST_INPUT +
    Count(env, Get(usage, "completion_tokens"), Get(usage, "output_tokens")) * MIN_COST_OUTPUT
  }

  function Charge(env: Env, usage: Json, model: Json): real {
    if FreeRow(usage, model) then MinimumCost(env, usage)
    else if ByokCost(usage) then Upstream(env, usage)
    else Count(env, Get(usage, "total_cost"), Get(usage, "cost"))
  }

  function FromUsage(env: Env, usage: Json, model: Json, id: Json, provider: Json): Costing {
    var input := Count(env, Get(usage, "prompt_tokens"), Get(usage, "input_tokens"));
    var output := Count(env, Get(usage, "completion_tokens"), Get(usage, "output_tokens"));
    Costing(
      AsText(model),
      Charge(env, usage, model), input, output, AsText(id),
      FirstOf(Get(Get(usage, "prompt_tokens_details"), "cached_tokens"),
              Get(Get(usage, "input_tokens_details"), "cached_tokens"), Get(usage, "cache_read_input_tokens")),
      FirstOf(Get(Get(usage, "prompt_tokens_details"), "cache_write_tokens"),
              Get(Get(usage, "input_tokens_details"), "cache_write_tokens"), Get(usage, "cache_creation_input_tokens")),
      FirstOf(Get(Get(usage, "completion_tokens_details"), "reasoning_tokens"),
              Get(Get(usage, "output_tokens_details"), "reasoning_tokens"), Undefined),
      env.provider(provider), Some(ByokCost(usage)))
  }

  function ParseCostingChunk(env: Env, line: string): Option<Costing> {
    if !Includes(line, "\"usage\"") then None
    else
      var json := if "data: " <= line then Trim(line[6..]) else Trim(line);
      if json == "[DONE]" || json == "" then None
      else
        match env.js.parse(json)
        case None => None
        case Some(c) => ParseFrame(env, c)
  }

  /** A usage frame, an Anthropic message_start (model and id only), or neither. */
  function ParseFrame(env: Env, c: Json): Option<Costing> {
    if Truthy(Get(c, "usage")) then Framed(env, Get(c, "usage"), c, Get(c, "provider"))
    else if Truthy(Get(Get(c, "response"), "usage")) then
      Framed(env, Get(Get(c, "response"), "usage"), Get(c, "response"),
             OrElse(Get(Get(c, "response"), "provider"), Get(c, "provider")))
    else if Truthy(Get(Get(c, "message"), "usage")) then
      var m := Get(c, "message");
      Some(Costing(AsText(Get(m, "model")), 0.0, 0.0, 0.0, AsText(Get(m, "id")), None, None, None,
                   env.provider(OrElse(Get(m, "provider"), Get(c, "provider"))), None))
    else None
  }

  /** `model?.endsWith` throws on a model that is neither a string nor absent; the frame then counts for nothing. */
  function Framed(env: Env, usage: Json, named: Json, provider: Json): Option<Costing> {
    var model := Get(named, "model");
    if model.Str? || Nullish(model) then Some(FromUsage(env, usage, model, Get(named, "id"), provider)) else None
  }

  function Nonempty(s: Option<string>): bool {
    s.Some? && s.value != ""
  }

  /** `_line`: what one line does to the result. */
  function Line(env: Env, r: Costing, line: string): Costing {
    if Trim(line) == "" then r
    else
      match ParseCostingChunk(env, line)
      case None =>
        r.(generationId := if !Nonempty(r.generationId) && env.generationIn(line).Some? then env.generationIn(line) else r.generationId,
           model := if !Nonempty(r.model) && env.modelIn(line).Some? then env.modelIn(line) else r.model)
      case Some(p) => Merge(env, r, p)
  }

  /** What a frame does to the result: whatever it reports replaces what was there, but for the first `gen-` id. */
  function Merge(env: Env, r: Costing, p: Costing): Costing {
    Costing(
      if Nonempty(p.model) then p.model else r.model,
      if env.isFreeModel then 0.0 else if p.totalCost != 0.0 then p.totalCost else r.totalCost,
      if p.inputTokens != 0.0 then p.inputTokens else r.inputTokens,
      if p.outputTokens != 0.0 then p.outputTokens else r.outputTokens,
      if !Nonempty(r.generationId) && p.generationId.Some? &&
        "gen-" <= p.generationId.value then p.generationId else r.generationId,
      if p.cacheReadTokens.Some? then p.cacheReadTokens else r.cacheReadTokens,
      if p.cacheWriteTokens.Some? then p.cacheWriteTokens else r.cacheWriteTokens,
      if p.reasoningTokens.Some? then p.reasoningTokens else r.reasoningTokens,
      if p.provider.Some? then p.provider else r.provider,
      if p.isByok.Some? then p.isByok else r.isByok)
  }

  const EMPTY := Costing(None, 0.0, 0.0, 0.0, None, None, None, None, None, None)

  /** What a row reports of its cost: the charge, and whether it carries an upstream cost. */
  lemma {:induction false} Reports(env: Env, usage: Json, model: Json, id: Json, provider: Json)
    ensures FromUsage(env, usage, model, id, provider).isByok == Some(ByokCost(usage))
    ensures FromUsage(env, usage, model, id, provider).totalCost == Charge(env, usage, model)
  {
  }

  function EnvOf(number: Json -> real): Env {
    Env(Builtins(text => None, v => "", number), false, v => None, text => None, text => None, (text, name) => None, v => "")
  }

  /** Where every figure reads as one, the minimum is not the upstream cost. */
  lemma {:induction false} FreeIsNotUpstream(env: Env, usage: Json, model: Json)
    requires FreeRow(usage, model) && env == EnvOf(v => 1.0)
    ensures Charge(env, usage, model) != Upstream(env, usage)
  {
  }

  lemma {:induction false} PaidIsUpstream(env: Env, usage: Json, model: Json)
    requires ByokCost(usage) && !FreeRow(usage, model)
    ensures Charge(env, usage, model) == Upstream(env, usage)
  {
  }

  /**
    * The flag a row reports tells which cost it was given, however numbers are read, exactly unless the row
    * is a free one: a `:free` model priced at nothing takes the minimum cost and still reports the flag.
    */
  lemma {:induction false} ByokIsTheBranch(usage: Json, model: Json, id: Json, provider: Json)
    ensures forall env: Env :: FromUsage(env, usage, model, id, provider).isByok == Some(ByokCost(usage))
    ensures ByokCost(usage) ==>
              ((forall env: Env :: FromUsage(env, usage, model, id, provider).totalCost == Upstream(env, usage)) <==>
               !FreeRow(usage, model))
  {
    forall env: Env
      ensures FromUsage(env, usage, model, id, provider).isByok == Some(ByokCost(usage))
      ensures FromUsage(env, usage, model, id, provider).totalCost == Charge(env, usage, model)
    {
      Reports(env, usage, model, id, provider);
    }
    if FreeRow(usage, model) {
      var env := EnvOf(v => 1.0);
      FreeIsNotUpstream(env, usage, model);
      assert FromUsage(env, usage, model, id, provider).totalCost != Upstream(env, usage);
    } else if ByokCost(usage) {
      forall env: Env ensures FromUsage(env, usage, model, id, provider).totalCost == Upstream(env, usage) {
        PaidIsUpstream(env, usage, model);
      }
    }
  }

  const FREE_ROW := Obj(map[
    "is_byok" := Bool(true), "cost" := Num(0.0), "prompt_tokens" := Num(1000.0),
    "cost_details" := Obj(map["upstream_inference_cost" := Num(1.0)])])

  lemma {:induction false} FreeRowFields()
    ensures Get(FREE_ROW, "is_byok") == Bool(true) && Get(FREE_ROW, "cost") == Num(0.0)
    ensures Get(FREE_ROW, "prompt_tokens") == Num(1000.0) && Get(FREE_ROW, "completion_tokens") == Undefined
    ensures Get(FREE_ROW, "output_tokens") == Undefined
    ensures Get(Get(FREE_ROW, "cost_details"), "upstream_inference_cost") == Num(1.0)
  {
  }

  /** Such a row: a free model reporting an upstream cost of one is charged its tokens' minimum. */
  lemma {:induction false} FreeRowReportsByok(row: Json, env: Env)
    requires row == FREE_ROW && env == EnvOf((v: Json) => if v.Num? then v.n else 0.0)
    ensures var r := FromUsage(env, row, Str("m:free"), Undefined, Undefined);
            r.isByok == Some(true) && Upstream(env, row) == 1.0 && r.totalCost == 0.0003
  {
    FreeRowCharge(env, row);
    Reports(env, row, Str("m:free"), Undefined, Undefined);
  }

  lemma {:induction false} FreeRowCharge(env: Env, row: Json)
    requires row == FREE_ROW && env == EnvOf((v: Json) => if v.Num? then v.n else 0.0)
    ensures ByokCost(row) && Upstream(env, row) == 1.0 && Charge(env, row, Str("m:free")) == 0.0003
  {
    FreeRowFields();
    var model := "m:free";
    assert model[|model| - 5..] == ":free";
  }

  // ---------------------------------------------------------------- the extractor

  function LastUsageObject(env: Env, text: string): Option<Json> {
    match UsageSlice(text)
    case None => None
    case Some(slice) => env.js.parse(slice)
  }

  function Field(env: Env, head: string, name: string): Json {
    match env.field(head, name)
    case None => Undefined
    case Some(text) => Str(text)
  }

  function Put(fields: map<string, Json>, name: string, v: Json): map<string, Json> {
    if v.Undefined? then fields else fields[name := v]
  }

  /** The frame made up from the fields of the head and the usage of the tail. */
  function Rebuilt(env: Env, head: string, usage: Json): Json {
    Obj(Put(Put(Put(map["usage" := usage], "id", Field(env, head, "id")), "model", Field(env, head, "model")), "provider",
            Field(env, head, "provider")))
  }

  /** How an over-long line is read from its two windows. */
  function ReadWindows(env: Env, r: Costing, w: Window): Costing {
    match LastUsageObject(env, w.tail)
    case None => Line(env, r, w.head)
    case Some(usage) => Line(env, r, env.stringify(Rebuilt(env, w.head, usage)))
  }

  // ---------------------------------------------------------------- when the windows say what the line says

  /** The line is a usage frame: these are its usage, model, id and provider. */
  predicate IsFrame(env: Env, line: string, usage: Json, model: Json, id: Json, provider: Json) {
    Trim(line) != "" && ParseCostingChunk(env, line) == Some(FromUsage(env, usage, model, id, provider))
  }

  function Name(v: Json): Option<string> {
    if v.Str? && v.s != "" then Some(v.s) else None
  }

  function Generation(v: Json): Option<string> {
    if v.Str? && "gen-" <= v.s then Some(v.s) else None
  }

  /** The head's fields name the model, the generation and the provider that the frame names. */
  predicate HeadNames(env: Env, head: string, model: Json, id: Json, provider: Json) {
    Name(Field(env, head, "model")) == Name(model) && Generation(Field(env, head, "id")) == Generation(id) &&
    env.provider(Field(env, head, "provider")) == env.provider(provider)
  }

  /** What is printed is a line of its own, and parses back. */
  predicate ParsesBack(env: Env, v: Json) {
    var line := env.stringify(v);
    env.js.parse(line) == Some(v) && Trim(line) == line && line != "" && line != "[DONE]" && !("data: " <= line) &&
    Includes(line, "\"usage\"")
  }

  lemma {:induction false} RebuiltFields(env: Env, head: string, usage: Json)
    ensures var v := Rebuilt(env, head, usage);
            Get(v, "usage") == usage && Get(v, "id") == Field(env, head, "id") &&
            Get(v, "model") == Field(env, head, "model") && Get(v, "provider") == Field(env, head, "provider")
  {
  }

  lemma {:induction false} RebuiltIsFrame(env: Env, head: string, usage: Json, v: Json)
    requires v == Rebuilt(env, head, usage) && ParsesBack(env, v) && Truthy(usage)
    ensures IsFrame(env, env.stringify(v), usage, Field(env, head, "model"), Field(env, head, "id"),
                    Field(env, head, "provider"))
  {
    RebuiltFields(env, head, usage);
  }

  function NameIn(p: Costing): Option<string> {
    if Nonempty(p.model) then p.model else None
  }

  function GenerationIn(p: Costing): Option<string> {
    if p.generationId.Some? && "gen-" <= p.generationId.value then p.generationId else None
  }

  predicate SameNaming(a: Costing, b: Costing) {
    NameIn(a) == NameIn(b) && GenerationIn(a) == GenerationIn(b) && a.provider == b.provider
  }

  predicate SameFigures(env: Env, a: Costing, b: Costing) {
    (env.isFreeModel || a.totalCost == b.totalCost) && a.inputTokens == b.inputTokens && a.outputTokens == b.outputTokens &&
    a.cacheReadTokens == b.cacheReadTokens && a.cacheWriteTokens == b.cacheWriteTokens &&
    a.reasoningTokens == b.reasoningTokens && a.isByok == b.isByok
  }

  /** Two frames do the same to every result exactly when they report the same figures and names. */
  lemma {:induction false} SameMerge(env: Env, a: Costing, b: Costing)
    ensures (forall r :: Merge(env, r, a) == Merge(env, r, b)) <==> SameFigures(env, a, b) && SameNaming(a, b)
  {
    MergedEmpty(env, a);
    MergedEmpty(env, b);
    if SameFigures(env, a, b) && SameNaming(a, b) {
      forall r { AlikeMerge(env, r, a, b); }
    }
  }

  /** An empty result shows what is merged into it. */
  lemma {:induction false} MergedEmpty(env: Env, p: Costing)
    ensures var r := Merge(env, EMPTY, p);
            r == p.(model := NameIn(p), generationId := GenerationIn(p), totalCost := if env.isFreeModel then 0.0 else p.totalCost)
  {
  }

  lemma {:induction false} AlikeMerge(env: Env, r: Costing, a: Costing, b: Costing)
    requires SameFigures(env, a, b) && SameNaming(a, b)
    ensures Merge(env, r, a) == Merge(env, r, b)
  {
  }

  lemma {:induction false} SameCharge(env: Env, usage: Json, a: Json, b: Json)
    requires Name(a) == Name(b)
    ensures Charge(env, usage, a) == Charge(env, usage, b)
  {
  }

  /** The names of a frame are those of its model, id and provider; with the same usage they decide the figures. */
  lemma {:induction false} NamesOf(env: Env, usage: Json, model: Json, id: Json, provider: Json)
    ensures var p := FromUsage(env, usage, model, id, provider);
            NameIn(p) == Name(model) && GenerationIn(p) == Generation(id) && p.provider == env.provider(provider)
  {
  }

  lemma {:induction false} FiguresOf(env: Env, usage: Json, a: Json, i: Json, p: Json, b: Json, j: Json, q: Json)
    requires Name(a) == Name(b)
    ensures SameFigures(env, FromUsage(env, usage, a, i, p), FromUsage(env, usage, b, j, q))
  {
    SameCharge(env, usage, a, b);
  }

  lemma {:induction false} LineOfFrame(
      env: Env, r: Costing, line: string, usage: Json, model: Json, id: Json, provider: Json)
    requires IsFrame(env, line, usage, model, id, provider)
    ensures Line(env, r, line) == Merge(env, r, FromUsage(env, usage, model, id, provider))
  {
  }

  /** What the windows of a line report: the head's fields with the usage found in the tail, else the head alone. */
  function Reported(env: Env, w: Window): Option<Costing> {
    match LastUsageObject(env, w.tail)
    case None => if Trim(w.head) == "" then None else ParseCostingChunk(env, w.head)
    case Some(usage) =>
      Some(FromUsage(env, usage, Field(env, w.head, "model"), Field(env, w.head, "id"), Field(env, w.head, "provider")))
  }

  /** An object that is found is no falsy value, and the frame rebuilt around it is printed so that it parses back. */
  predicate Rebuilds(env: Env, w: Window) {
    match LastUsageObject(env, w.tail)
    case None => true
    case Some(usage) => Truthy(usage) && ParsesBack(env, Rebuilt(env, w.head, usage))
  }

  /**
    * An over-long line that is a usage frame is read from its windows as it is read whole, for every result,
    * exactly when they report its figures and its names: so not where the tail has no match or the figures of
    * another object, nor where the head names something else.
    */
  lemma {:induction false} WindowsReadAsWhole(
      env: Env, line: string, usage: Json, model: Json, id: Json, provider: Json)
    requires IsFrame(env, line, usage, model, id, provider) && Rebuilds(env, WindowOf(line))
    ensures var frame, seen := FromUsage(env, usage, model, id, provider), Reported(env, WindowOf(line));
            (forall r :: ReadWindows(env, r, WindowOf(line)) == Line(env, r, line)) <==>
            seen.Some? && SameFigures(env, seen.value, frame) && SameNaming(seen.value, frame)
  {
    var w, frame := WindowOf(line), FromUsage(env, usage, model, id, provider);
    forall r ensures Line(env, r, line) == Merge(env, r, frame) { LineOfFrame(env, r, line, usage, model, id, provider); }
    match Reported(env, w)
    case None =>
      UnreportedFlag(env, w);
      MergedEmpty(env, frame);
      assert ReadWindows(env, EMPTY, w) != Line(env, EMPTY, line);
    case Some(p) =>
      forall r ensures ReadWindows(env, r, w) == Merge(env, r, p) { ReadReported(env, r, w, p); }
      SameMerge(env, p, frame);
  }

  lemma {:induction false} ReadReported(env: Env, r: Costing, w: Window, p: Costing)
    requires Rebuilds(env, w) && Reported(env, w) == Some(p)
    ensures ReadWindows(env, r, w) == Merge(env, r, p)
  {
    var found := LastUsageObject(env, w.tail);
    if found.Some? {
      var rebuilt := Rebuilt(env, w.head, found.value);
      RebuiltIsFrame(env, w.head, found.value, rebuilt);
      LineOfFrame(env, r, env.stringify(rebuilt), found.value, Field(env, w.head, "model"), Field(env, w.head, "id"),
                  Field(env, w.head, "provider"));
    }
  }

  /** Where nothing is reported no cost regime is. */
  lemma {:induction false} UnreportedFlag(env: Env, w: Window)
    requires Reported(env, w).None?
    ensures ReadWindows(env, EMPTY, w).isByok.None?
  {
  }

  /**
    * Where the last match in the tail opens the frame's own usage object, whole, the figures are the frame's,
    * and the names of the head alone decide.
    */
  lemma {:induction false} HeadDecides(
      env: Env, line: string, usage: Json, model: Json, id: Json, provider: Json, p: nat, inner: seq<Node>, rest: string)
    requires IsFrame(env, line, usage, model, id, provider) && Rebuilds(env, WindowOf(line))
    requires var tail := WindowOf(line).tail;
             p <= |tail| && LastAt(tail, p) && ObjectAt(tail[MatchAt(tail, p).value..], inner, rest)
    requires env.js.parse(NodeText(Braces(inner))) == Some(usage)
    ensures (forall r :: ReadWindows(env, r, WindowOf(line)) == Line(env, r, line)) <==>
            HeadNames(env, WindowOf(line).head, model, id, provider)
  {
    var w := WindowOf(line);
    var m, i, from := Field(env, w.head, "model"), Field(env, w.head, "id"), Field(env, w.head, "provider");
    LastObjectIsRead(w.tail, p, inner, rest);
    WindowsReadAsWhole(env, line, usage, model, id, provider);
    NamesOf(env, usage, m, i, from);
    NamesOf(env, usage, model, id, provider);
    if Name(m) == Name(model) { FiguresOf(env, usage, m, i, from, model, id, provider); }
  }

  /** Where the tail has no match and the head is no frame by itself, the figures are lost. */
  lemma {:induction false} FiguresLost(env: Env, line: string, usage: Json, model: Json, id: Json, provider: Json)
    requires IsFrame(env, line, usage, model, id, provider)
    requires UsageSlice(WindowOf(line).tail).None? && ParseCostingChunk(env, WindowOf(line).head).None?
    ensures exists r :: ReadWindows(env, r, WindowOf(line)) != Line(env, r, line)
  {
    WindowsReadAsWhole(env, line, usage, model, id, provider);
  }

  function ReaderOf(env: Env): LineReader<Costing> {
    LineReader((r: Costing, line: string) => Line(env, r, line), (r: Costing, w: Window) => ReadWindows(env, r, w))
  }

  /** A generation id, once captured, is never replaced. */
  lemma {:induction false} GenerationKept(env: Env, r: Costing, lines: seq<string>)
    requires Nonempty(r.generationId)
    ensures FoldLines(ReaderOf(env), r, lines).generationId == r.generationId
    decreases |lines|
  {
    if lines != [] { GenerationKept(env, Line(env, r, lines[0]), lines[1..]); }
  }

  /** A free model is never charged, whatever the upstream reports. */
  lemma {:induction false} FreeStaysFree(env: Env, r: Costing, lines: seq<string>)
    requires env.isFreeModel && r.totalCost == 0.0
    ensures FoldLines(ReaderOf(env), r, lines).totalCost == 0.0
    decreases |lines|
  {
    if lines != [] { FreeStaysFree(env, Line(env, r, lines[0]), lines[1..]); }
  }

  class CostExtractor {
    const env: Env
    const decoder: Decoder
    var decoderState: nat
    var buffer: string
    var longLine: Option<Window>
    var result: Costing
    /** The unfinished line in full, of which only the windows are retained once it is over-long. */
    ghost var line: string

    /** What is retained is the unfinished line, or its first and last 65,536 characters. */
    ghost predicate Valid()
      reads this
    {
      if longLine.Some? then
        buffer == "" && longLine.value == WindowOf(line) && |line| > MAX_LINE_CHARS
      else buffer == line && |buffer| <= MAX_LINE_CHARS && IndexOf(line, '\n') == |line|
    }

    ghost function View(): Reading<Costing>
      reads this
    {
      Reading(result, line, longLine.Some?)
    }

    /** Characters held between calls. */
    function Retained(): nat
      reads this
    {
      |buffer| + if longLine.Some? then |longLine.value.head| + |longLine.value.tail| else 0
    }

    lemma {:induction false} Bounded()
      requires Valid()
      ensures Retained() <= 1_000_000
    {
    }

    constructor (env: Env, decoder: Decoder)
      ensures Valid() && View() == Reading(EMPTY, "", false) && decoderState == 0
      ensures this.env == env && this.decoder == decoder
    {
      this.env, this.decoder, decoderState := env, decoder, 0;
      buffer, longLine, result, line := "", None, EMPTY, "";
    }

    method KeepTail(text: string)
      requires longLine.Some? && longLine.value == WindowOf(line) && |line| > MAX_LINE_CHARS
      modifies this`longLine, this`line
      ensures line == old(line) + text && longLine == Some(WindowOf(line))
    {
      var tail := Last(longLine.value.tail + text, WINDOW_CHARS);
      LastAppend(line, text, WINDOW_CHARS);
      assert First(line + text, WINDOW_CHARS) == First(line, WINDOW_CHARS);
      longLine := Some(Window(longLine.value.head, tail));
      line := line + text;
    }

    method EndLongLine()
      requires longLine.Some?
      modifies this`longLine, this`result
      ensures longLine.None? && result == ReadWindows(env, old(result), old(longLine).value)
    {
      var w := longLine.value;
      longLine := None;
      var slice := LastUsage(w.tail);
      var usage := if slice.None? then None else env.js.parse(slice.value);
      if usage.None? {
        result := Line(env, result, w.head);
      } else {
        result := Line(env, result, env.stringify(Rebuilt(env, w.head, usage.value)));
      }
    }

    method TakeLines(lines: seq<string>)
      modifies this`result
      ensures result == FoldLines(ReaderOf(env), old(result), lines)
    {
      for k := 0 to |lines|
        invariant FoldLines(ReaderOf(env), old(result), lines) == FoldLines(ReaderOf(env), result, lines[k..])
      {
        result := Line(env, result, lines[k]);
      }
    }

    method Feed(chunk: seq<Byte>)
      requires Valid()
      modifies this
      ensures Valid()
      ensures var (next, text) := Decode(decoder, old(decoderState), chunk);
              decoderState == next && View() == FeedText(ReaderOf(env), old(View()), text)
    {
      var (next, text) := Decode(decoder, decoderState, chunk);
      decoderState := next;
      if longLine.Some? {
        FeedLong(text);
      } else {
        FeedShort(text);
      }
    }

    /** An over-long line in hand: its tail is kept to the line's end, and what follows is read as usual. */
    method FeedLong(text: string)
      requires Valid() && longLine.Some?
      modifies this
      ensures Valid() && decoderState == old(decoderState) && View() == FeedText(ReaderOf(env), old(View()), text)
    {
      var nl := IndexOf(text, '\n');
      KeepTail(text[..nl]);
      if nl == |text| {
        assert text[..nl] == text;
        return;
      }
      EndLongLine();
      line := "";
      FeedShort(text[nl + 1..]);
    }

    /** No over-long line in hand: its lines are read, and the one left unfinished is judged. */
    method FeedShort(text: string)
      requires Valid() && longLine.None?
      modifies this
      ensures Valid() && decoderState == old(decoderState) && View() == FeedText(ReaderOf(env), old(View()), text)
    {
      TakeFolds(ReaderOf(env), result, line, text);
      buffer := buffer + text;
      var lines := Lines(buffer);
      buffer := Remainder(buffer);
      line := buffer;
      TakeLines(lines);
      Judge();
    }

    /** The unfinished line is kept whole up to the bound, and as its two windows past it. */
    method Judge()
      requires longLine.None? && buffer == line && IndexOf(line, '\n') == |line|
      modifies this`longLine, this`buffer
      ensures Valid() && View() == old(View()).(long := |line| > MAX_LINE_CHARS)
    {
      if |buffer| > MAX_LINE_CHARS {
        longLine := Some(Window(First(buffer, WINDOW_CHARS), ""));
        ConcatNothing(buffer);
        longLine := Some(longLine.value.(tail := Last(longLine.value.tail + buffer, WINDOW_CHARS)));
        buffer := "";
      }
    }

    method Finish() returns (out: Costing)
      requires Valid()
      modifies this
      ensures Valid() && out == result == Finished(ReaderOf(env), old(View())) && line == ""
    {
      if longLine.Some? { EndLongLine(); }
      if Trim(buffer) != "" { result := Line(env, result, buffer); }
      buffer, line := "", "";
      return result;
    }
  }
}
