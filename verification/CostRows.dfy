/** What a stream costs: each figure by the members of the usage frame that reports it last. */
module CostRows {
  import opened Js
  import opened Decoding
  import opened BoundedLines
  import opened Cost

  // ---------------------------------------------------------------- one row

  function TextIn(v: Json): Option<string> {
    match v
    case Str(s) => Some(s)
    case _ => None
  }

  function NumberIn(v: Json): Option<real> {
    match v
    case Num(n) => Some(n)
    case _ => None
  }

  /** `Number(a || b || 0)` */
  function Figure(env: Env, a: Json, b: Json): real {
    env.js.number(FirstTruthy([a, b, Num(0.0)]))
  }

  /** A `:free` model that the upstream priced at nothing. */
  ghost predicate IsFree(usage: Json, model: Json) {
    (exists front: string :: model == Str(front + ":free")) && Get(usage, "cost") in {Undefined, Null, Num(0.0)}
  }

  predicate PaidUpstream(usage: Json) {
    Get(usage, "is_byok") == Bool(true) && Truthy(Get(Get(usage, "cost_details"), "upstream_inference_cost"))
  }

  ghost predicate NamesSay(env: Env, usage: Json, model: Json, id: Json, provider: Json, p: Costing) {
    p.model == TextIn(model) && p.generationId == TextIn(id) && p.provider == env.provider(provider) &&
    p.isByok == Some(PaidUpstream(usage))
  }

  ghost predicate CostSays(env: Env, usage: Json, model: Json, p: Costing) {
    var input := Figure(env, Get(usage, "prompt_tokens"), Get(usage, "input_tokens"));
    var output := Figure(env, Get(usage, "completion_tokens"), Get(usage, "output_tokens"));
    p.inputTokens == input && p.outputTokens == output &&
    (IsFree(usage, model) ==> p.totalCost == input * 0.0000003 + output * 0.000001) &&
    (!IsFree(usage, model) && PaidUpstream(usage) ==>
       p.totalCost == env.js.number(Get(Get(usage, "cost_details"), "upstream_inference_cost"))) &&
    (!IsFree(usage, model) && !PaidUpstream(usage) ==>
       p.totalCost == Figure(env, Get(usage, "total_cost"), Get(usage, "cost")))
  }

  ghost predicate CountsSay(usage: Json, p: Costing) {
    p.cacheReadTokens ==
      NumberIn(FirstPresent([Get(Get(usage, "prompt_tokens_details"), "cached_tokens"),
                             Get(Get(usage, "input_tokens_details"), "cached_tokens"), Get(usage, "cache_read_input_tokens")])) &&
    p.cacheWriteTokens ==
      NumberIn(FirstPresent([Get(Get(usage, "prompt_tokens_details"), "cache_write_tokens"),
                             Get(Get(usage, "input_tokens_details"), "cache_write_tokens"),
                             Get(usage, "cache_creation_input_tokens")])) &&
    p.reasoningTokens ==
      NumberIn(FirstPresent([Get(Get(usage, "completion_tokens_details"), "reasoning_tokens"),
                             Get(Get(usage, "output_tokens_details"), "reasoning_tokens")]))
  }

  /**
    * A row has its usage's figures: the tokens under their chat names, else under the others; the minimum cost
    * when it is free, the upstream's when that was paid, and else its total cost, or its cost where that is
    * falsy; and of each other count the first that is there, where it is a number.
    */
  ghost predicate RowSays(env: Env, usage: Json, model: Json, id: Json, provider: Json, p: Costing) {
    NamesSay(env, usage, model, id, provider, p) && CostSays(env, usage, model, p) && CountsSay(usage, p)
  }

  lemma {:induction false} FreeIsFree(usage: Json, model: Json)
    ensures FreeRow(usage, model) <==> IsFree(usage, model)
  {
    if model.Str? && EndsWith(model.s, ":free") {
      var front := model.s[..|model.s| - 5];
      assert model.s == front + ":free";
    }
    if front: string :| model == Str(front + ":free") {
      assert model.s[|model.s| - 5..] == ":free";
    }
  }

  lemma {:induction false} FiguresAreSaid(env: Env, a: Json, b: Json)
    ensures Count(env, a, b) == Figure(env, a, b)
  {
    FirstOfThree(a, b, Num(0.0));
  }

  lemma {:induction false} FirstIsSaid(a: Json, b: Json, c: Json)
    ensures FirstOf(a, b, c) == NumberIn(FirstPresent([a, b, c])) && FirstOf(a, b, Undefined) == NumberIn(FirstPresent([a, b]))
  {
    FirstOfThree(a, b, c);
    FirstOfTwo(a, b);
  }

  lemma {:induction false} ChargeIsSaid(env: Env, usage: Json, model: Json)
    ensures var input := Figure(env, Get(usage, "prompt_tokens"), Get(usage, "input_tokens"));
            var output := Figure(env, Get(usage, "completion_tokens"), Get(usage, "output_tokens"));
            Charge(env, usage, model) ==
            if IsFree(usage, model) then input * 0.0000003 + output * 0.000001
            else if PaidUpstream(usage) then env.js.number(Get(Get(usage, "cost_details"), "upstream_inference_cost"))
            else Figure(env, Get(usage, "total_cost"), Get(usage, "cost"))
  {
    FreeIsFree(usage, model);
    FiguresAreSaid(env, Get(usage, "prompt_tokens"), Get(usage, "input_tokens"));
    FiguresAreSaid(env, Get(usage, "completion_tokens"), Get(usage, "output_tokens"));
    FiguresAreSaid(env, Get(usage, "total_cost"), Get(usage, "cost"));
  }

  lemma {:induction false} CostIsSaid(env: Env, usage: Json, model: Json, id: Json, provider: Json)
    ensures CostSays(env, usage, model, FromUsage(env, usage, model, id, provider))
  {
    ChargeIsSaid(env, usage, model);
    FiguresAreSaid(env, Get(usage, "prompt_tokens"), Get(usage, "input_tokens"));
    FiguresAreSaid(env, Get(usage, "completion_tokens"), Get(usage, "output_tokens"));
  }

  lemma {:induction false} CountsAreSaid(env: Env, usage: Json, model: Json, id: Json, provider: Json)
    ensures CountsSay(usage, FromUsage(env, usage, model, id, provider))
  {
    FirstIsSaid(Get(Get(usage, "prompt_tokens_details"), "cached_tokens"),
                Get(Get(usage, "input_tokens_details"), "cached_tokens"), Get(usage, "cache_read_input_tokens"));
    FirstIsSaid(Get(Get(usage, "prompt_tokens_details"), "cache_write_tokens"),
                Get(Get(usage, "input_tokens_details"), "cache_write_tokens"), Get(usage, "cache_creation_input_tokens"));
    FirstIsSaid(Get(Get(usage, "completion_tokens_details"), "reasoning_tokens"),
                Get(Get(usage, "output_tokens_details"), "reasoning_tokens"), Undefined);
  }

  lemma {:induction false} NamesAreSaid(env: Env, usage: Json, model: Json, id: Json, provider: Json)
    ensures NamesSay(env, usage, model, id, provider, FromUsage(env, usage, model, id, provider))
  {
  }

  /** The figures of every usage frame, by its members. */
  lemma {:induction false} RowIsSaid(env: Env, usage: Json, model: Json, id: Json, provider: Json)
    ensures RowSays(env, usage, model, id, provider, FromUsage(env, usage, model, id, provider))
  {
    NamesAreSaid(env, usage, model, id, provider);
    CostIsSaid(env, usage, model, id, provider);
    CountsAreSaid(env, usage, model, id, provider);
  }

  // ---------------------------------------------------------------- one line

  /** A row, unless its model is neither a string nor absent. */
  ghost predicate RowOr(env: Env, usage: Json, model: Json, id: Json, provider: Json, p: Option<Costing>) {
    if model.Str? || Nullish(model) then p.Some? && RowSays(env, usage, model, id, provider, p.value) else p.None?
  }

  /** The usage is the frame's own, its response's, or that of a message's start, of which only the names count. */
  ghost predicate FrameSays(env: Env, c: Json, p: Option<Costing>) {
    var r, m := Get(c, "response"), Get(c, "message");
    if Truthy(Get(c, "usage")) then RowOr(env, Get(c, "usage"), Get(c, "model"), Get(c, "id"), Get(c, "provider"), p)
    else if Truthy(Get(r, "usage")) then
      RowOr(env, Get(r, "usage"), Get(r, "model"), Get(r, "id"), FirstPresent([Get(r, "provider"), Get(c, "provider")]), p)
    else if Truthy(Get(m, "usage")) then
      p == Some(EMPTY.(model := TextIn(Get(m, "model")), generationId := TextIn(Get(m, "id")),
                       provider := env.provider(FirstPresent([Get(m, "provider"), Get(c, "provider")]))))
    else p.None?
  }

  /** The word stands in the line. */
  ghost predicate Contains(line: string, word: string) {
    exists before, after :: line == before + word + after
  }

  function PayloadOf(line: string): string {
    Trim(if "data: " <= line then line[6..] else line)
  }

  ghost predicate LineSays(env: Env, line: string, p: Option<Costing>) {
    if !Contains(line, "\"usage\"") || PayloadOf(line) in {"", "[DONE]"} || env.js.parse(PayloadOf(line)).None? then p.None?
    else FrameSays(env, env.js.parse(PayloadOf(line)).value, p)
  }

  lemma {:induction false} IncludesIs(line: string, word: string)
    ensures Includes(line, word) <==> Contains(line, word)
  {
    if Includes(line, word) { Found(line, word); }
    if before, after :| line == before + word + after { Included(before, word, after, line); }
  }

  lemma {:induction false} Found(line: string, word: string)
    requires Includes(line, word)
    ensures Contains(line, word)
  {
    if word <= line {
      assert line == [] + word + line[|word|..];
    } else {
      Found(line[1..], word);
      var before, after :| line[1..] == before + word + after;
      assert line == ([line[0]] + before) + word + after;
    }
  }

  lemma {:induction false} Included(before: string, word: string, after: string, line: string)
    requires line == before + word + after
    ensures Includes(line, word)
    decreases |before|
  {
    if before == "" {
      assert line[..|word|] == word;
    } else {
      assert line[1..] == before[1..] + word + after;
      Included(before[1..], word, after, line[1..]);
    }
  }

  /** What every line reports, by the members of what it parses to. */
  lemma {:induction false} LineIsSaid(env: Env, line: string)
    ensures LineSays(env, line, ParseCostingChunk(env, line))
  {
    IncludesIs(line, "\"usage\"");
    if env.js.parse(PayloadOf(line)).Some? { FrameIsSaid(env, env.js.parse(PayloadOf(line)).value); }
  }

  lemma {:induction false} FrameIsSaid(env: Env, c: Json)
    ensures FrameSays(env, c, ParseFrame(env, c))
  {
    var r, m := Get(c, "response"), Get(c, "message");
    if Truthy(Get(c, "usage")) {
      FramedIsSaid(env, Get(c, "usage"), c, Get(c, "provider"));
    } else if Truthy(Get(r, "usage")) {
      FirstOfTwo(Get(r, "provider"), Get(c, "provider"));
      FramedIsSaid(env, Get(r, "usage"), r, OrElse(Get(r, "provider"), Get(c, "provider")));
    } else if Truthy(Get(m, "usage")) {
      FirstOfTwo(Get(m, "provider"), Get(c, "provider"));
    }
  }

  lemma {:induction false} FramedIsSaid(env: Env, usage: Json, named: Json, provider: Json)
    ensures RowOr(env, usage, Get(named, "model"), Get(named, "id"), provider, Framed(env, usage, named, provider))
  {
    RowIsSaid(env, usage, Get(named, "model"), Get(named, "id"), provider);
  }

  // ---------------------------------------------------------------- every line

  /** What the last line to report it reports. */
  function LastReported<T>(lines: seq<string>, reports: string -> Option<T>): Option<T> {
    if lines == [] then None
    else if reports(lines[|lines| - 1]).Some? then reports(lines[|lines| - 1])
    else LastReported(lines[..|lines| - 1], reports)
  }

  /** What the first line to report it reports. */
  function FirstReported<T>(lines: seq<string>, reports: string -> Option<T>): Option<T> {
    if lines == [] then None
    else if FirstReported(lines[..|lines| - 1], reports).Some? then FirstReported(lines[..|lines| - 1], reports)
    else reports(lines[|lines| - 1])
  }

  function RowOf(env: Env, line: string): Option<Costing> {
    if Trim(line) == "" then None else ParseCostingChunk(env, line)
  }

  /** A figure that is not nought counts as reported. */
  function Nonzero(n: real): Option<real> {
    if n == 0.0 then None else Some(n)
  }

  function Worded(s: Option<string>): Option<string> {
    if s == Some("") then None else s
  }

  function Given(n: Option<real>): real {
    if n.Some? then n.value else 0.0
  }

  function Of<T>(env: Env, part: Costing -> Option<T>): string -> Option<T> {
    line => if RowOf(env, line).Some? then part(RowOf(env, line).value) else None
  }

  /** A generation id a line gives: a frame's own of that kind, or one captured from a line that is no frame. */
  function GenerationOf(env: Env): string -> Option<string> {
    line =>
      match RowOf(env, line)
      case Some(p) => if p.generationId.Some? && "gen-" <= p.generationId.value then p.generationId else None
      case None => if Trim(line) == "" then None else Worded(env.generationIn(line))
  }

  /** A model captured from a line that is no frame. */
  function ModelSeen(env: Env): string -> Option<string> {
    line => if Trim(line) == "" || RowOf(env, line).Some? then None else Worded(env.modelIn(line))
  }

  ghost predicate FiguresSum(env: Env, lines: seq<string>, r: Costing) {
    r.totalCost ==
      (if env.isFreeModel then 0.0 else Given(LastReported(lines, Of(env, (p: Costing) => Nonzero(p.totalCost))))) &&
    r.inputTokens == Given(LastReported(lines, Of(env, (p: Costing) => Nonzero(p.inputTokens)))) &&
    r.outputTokens == Given(LastReported(lines, Of(env, (p: Costing) => Nonzero(p.outputTokens))))
  }

  ghost predicate CountsSum(env: Env, lines: seq<string>, r: Costing) {
    r.cacheReadTokens == LastReported(lines, Of(env, (p: Costing) => p.cacheReadTokens)) &&
    r.cacheWriteTokens == LastReported(lines, Of(env, (p: Costing) => p.cacheWriteTokens)) &&
    r.reasoningTokens == LastReported(lines, Of(env, (p: Costing) => p.reasoningTokens)) &&
    r.provider == LastReported(lines, Of(env, (p: Costing) => p.provider)) &&
    r.isByok == LastReported(lines, Of(env, (p: Costing) => p.isByok))
  }

  ghost predicate NamesSum(env: Env, lines: seq<string>, r: Costing) {
    Worded(r.generationId) == FirstReported(lines, GenerationOf(env)) &&
    Worded(r.model) ==
      var named := LastReported(lines, Of(env, (p: Costing) => Worded(p.model)));
      if named.Some? then named else FirstReported(lines, ModelSeen(env))
  }

  /**
    * Each figure is that of the last frame to report it, and nought where none does; a free model's cost is
    * nought; the generation is the first one given; the model is the last a frame names, else the first seen.
    */
  ghost predicate Sums(env: Env, lines: seq<string>, r: Costing) {
    FiguresSum(env, lines, r) && CountsSum(env, lines, r) && NamesSum(env, lines, r)
  }

  lemma {:induction false} ReportedSnoc<T>(lines: seq<string>, line: string, reports: string -> Option<T>)
    ensures LastReported(lines + [line], reports) ==
            if reports(line).Some? then reports(line) else LastReported(lines, reports)
    ensures FirstReported(lines + [line], reports) ==
            if FirstReported(lines, reports).Some? then FirstReported(lines, reports) else reports(line)
  {
    Snoc(lines, line, lines + [line]);
  }

  lemma {:induction false} PartSnoc<T>(env: Env, lines: seq<string>, line: string, part: Costing -> Option<T>)
    ensures LastReported(lines + [line], Of(env, part)) ==
            if RowOf(env, line).Some? && part(RowOf(env, line).value).Some? then part(RowOf(env, line).value)
            else LastReported(lines, Of(env, part))
  {
    ReportedSnoc(lines, line, Of(env, part));
  }

  lemma {:induction false} FiguresStep(env: Env, lines: seq<string>, r: Costing, line: string)
    requires FiguresSum(env, lines, r)
    ensures FiguresSum(env, lines + [line], Line(env, r, line))
  {
    PartSnoc(env, lines, line, (p: Costing) => Nonzero(p.totalCost));
    PartSnoc(env, lines, line, (p: Costing) => Nonzero(p.inputTokens));
    PartSnoc(env, lines, line, (p: Costing) => Nonzero(p.outputTokens));
  }

  lemma {:induction false} CountsStep(env: Env, lines: seq<string>, r: Costing, line: string)
    requires CountsSum(env, lines, r)
    ensures CountsSum(env, lines + [line], Line(env, r, line))
  {
    PartSnoc(env, lines, line, (p: Costing) => p.cacheReadTokens);
    PartSnoc(env, lines, line, (p: Costing) => p.cacheWriteTokens);
    PartSnoc(env, lines, line, (p: Costing) => p.reasoningTokens);
    PartSnoc(env, lines, line, (p: Costing) => p.provider);
    PartSnoc(env, lines, line, (p: Costing) => p.isByok);
  }

  lemma {:induction false} NamesStep(env: Env, lines: seq<string>, r: Costing, line: string)
    requires NamesSum(env, lines, r)
    ensures NamesSum(env, lines + [line], Line(env, r, line))
  {
    PartSnoc(env, lines, line, (p: Costing) => Worded(p.model));
    ReportedSnoc(lines, line, GenerationOf(env));
    ReportedSnoc(lines, line, ModelSeen(env));
  }

  lemma {:induction false} SumsStep(env: Env, lines: seq<string>, r: Costing, line: string)
    requires Sums(env, lines, r)
    ensures Sums(env, lines + [line], Line(env, r, line))
  {
    FiguresStep(env, lines, r, line);
    CountsStep(env, lines, r, line);
    NamesStep(env, lines, r, line);
  }

  lemma {:induction false} FoldSnoc(env: Env, r: Costing, lines: seq<string>, line: string)
    ensures FoldLines(ReaderOf(env), r, lines + [line]) == Line(env, FoldLines(ReaderOf(env), r, lines), line)
    decreases |lines|
  {
    if lines == [] {
      ConcatNothing([line]);
      assert [line][1..] == [];
    } else {
      TailAppend(lines, [line]);
      FoldSnoc(env, Line(env, r, lines[0]), lines[1..], line);
    }
  }

  /** Over any lines the result is what the lines last, or first, report. */
  lemma {:induction false} ResultIsReported(env: Env, lines: seq<string>)
    ensures Sums(env, lines, FoldLines(ReaderOf(env), EMPTY, lines))
    decreases |lines|
  {
    if lines != [] {
      var front, last := lines[..|lines| - 1], lines[|lines| - 1];
      assert lines == front + [last];
      ResultIsReported(env, front);
      FoldSnoc(env, EMPTY, front, last);
      SumsStep(env, front, FoldLines(ReaderOf(env), EMPTY, front), last);
    }
  }

  /** So does what the extractor comes to, for every split of a stream whose lines fit. */
  lemma {:induction false} StreamIsReported(env: Env, decoder: Decoder, chunks: seq<seq<Byte>>)
    requires Short(Decode(decoder, 0, Concat(chunks)).1)
    ensures var text := Decode(decoder, 0, Concat(chunks)).1;
            Sums(env, Lines(text) + [Remainder(text)],
                 Finished(ReaderOf(env), FeedTexts(ReaderOf(env), Reading(EMPTY, "", false), TextsOf(decoder, 0, chunks))))
  {
    var text := Decode(decoder, 0, Concat(chunks)).1;
    ExtractionIsFold(ReaderOf(env), EMPTY, decoder, chunks);
    FoldSnoc(env, EMPTY, Lines(text), Remainder(text));
    ResultIsReported(env, Lines(text) + [Remainder(text)]);
  }
}
