/**
  * Reading a byte stream line by line with bounded memory: an unfinished line that has grown past the
  * bound is kept only as its head and tail. What a line does is a parameter.
  */
module BoundedLines {
  import opened Js
  import opened Decoding

  /** What a whole line does to the result, and what an over-long one does from its two windows. */
  datatype LineReader<!R> = LineReader(line: (R, string) -> R, windows: (R, Window) -> R)

  const MAX_LINE_CHARS := 1_000_000
  const WINDOW_CHARS := 65536

  datatype Window = Window(head: string, tail: string)

  function First(s: string, n: nat): string {
    if |s| <= n then s else s[..n]
  }

  /** `s.slice(-n)` for n > 0 */
  function Last(s: string, n: nat): string {
    if |s| <= n then s else s[|s| - n..]
  }

  /** What has been read: the result so far, the whole of the unfinished line, and whether it is over-long. */
  datatype Reading<R> = Reading(result: R, line: string, long: bool)

  function WindowOf(line: string): Window {
    Window(First(line, WINDOW_CHARS), Last(line, WINDOW_CHARS))
  }

  /** The whole of a line that fits, and otherwise its first and its last 65,536 characters. */
  ghost predicate Shows(w: Window, line: string) {
    if |line| <= 65_536 then w == Window(line, line)
    else |w.head| == |w.tail| == 65_536 && w.head <= line && line[|line| - 65_536..] == w.tail
  }

  lemma {:induction false} WindowIs(line: string)
    ensures Shows(WindowOf(line), line)
  {
  }

  /** A line ends: read whole, or from its windows when a chunk ended with too much of it in hand. */
  function EndLine<R>(how: LineReader<R>, r: Reading<R>): Reading<R> {
    Reading(if r.long then how.windows(r.result, WindowOf(r.line)) else how.line(r.result, r.line), "", false)
  }

  function Take<R>(how: LineReader<R>, r: Reading<R>, text: string): Reading<R>
    decreases |text|
  {
    var i := IndexOf(text, '\n');
    if i == |text| then r.(line := r.line + text)
    else Take(how, EndLine(how, r.(line := r.line + text[..i])), text[i + 1..])
  }

  /** One chunk of text: its lines, and the verdict on the one left unfinished. */
  function FeedText<R>(how: LineReader<R>, r: Reading<R>, text: string): Reading<R> {
    var t := Take(how, r, text);
    if |t.line| > MAX_LINE_CHARS then t.(long := true) else t
  }

  function FeedTexts<R>(how: LineReader<R>, r: Reading<R>, texts: seq<string>): Reading<R>
    decreases |texts|
  {
    if texts == [] then r else FeedTexts(how, FeedText(how, r, texts[0]), texts[1..])
  }

  /** `finish()` */
  function Finished<R>(how: LineReader<R>, r: Reading<R>): R {
    EndLine(how, r).result
  }

  // ---------------------------------------------------------------- line by line

  /** The complete lines of a text, and what is left behind the last newline: `split` and `pop`. */
  function Lines(s: string): seq<string>
    decreases |s|
  {
    var i := IndexOf(s, '\n');
    if i == |s| then [] else [s[..i]] + Lines(s[i + 1..])
  }

  function Remainder(s: string): (left: string)
    ensures IndexOf(left, '\n') == |left|
    decreases |s|
  {
    var i := IndexOf(s, '\n');
    if i == |s| then s else Remainder(s[i + 1..])
  }

  function FoldLines<R>(how: LineReader<R>, r: R, lines: seq<string>): R
    decreases |lines|
  {
    if lines == [] then r else FoldLines(how, how.line(r, lines[0]), lines[1..])
  }

  lemma {:induction false} LinesCons(s: string, first: string, rest: string)
    requires |first| < |s| && IndexOf(s, '\n') == |first| && s[..|first|] == first && s[|first| + 1..] == rest
    ensures Lines(s) == [first] + Lines(rest) && Remainder(s) == Remainder(rest)
  {
  }

  /** The first line of a text begins with what was unfinished. */
  lemma {:induction false} LinesBehind(line: string, text: string, i: nat)
    requires IndexOf(line, '\n') == |line| && i < |text| && IndexOf(text, '\n') == i
    ensures IndexOf(line + text, '\n') == |line| + i
    ensures Lines(line + text) == [line + text[..i]] + Lines(text[i + 1..])
    ensures Remainder(line + text) == Remainder(text[i + 1..])
  {
    IndexOfAppend(line, text, '\n');
    SliceBeyond(line, text, i);
    LinesCons(line + text, line + text[..i], text[i + 1..]);
  }

  lemma {:induction false} LinesNone(s: string)
    requires IndexOf(s, '\n') == |s|
    ensures Lines(s) == [] && Remainder(s) == s
  {
  }

  lemma {:induction false} TakeTurn<R>(how: LineReader<R>, result: R, pending: string, text: string)
    returns (line: string, rest: string)
    requires IndexOf(pending, '\n') == |pending| && IndexOf(text, '\n') < |text|
    ensures Take(how, Reading(result, pending, false), text) ==
            Take(how, Reading(how.line(result, line), "", false), rest)
    ensures Lines(pending + text) == [line] + Lines(rest) && Remainder(pending + text) == Remainder(rest)
    ensures |rest| < |text|
  {
    var i := IndexOf(text, '\n');
    line, rest := pending + text[..i], text[i + 1..];
    LinesBehind(pending, text, i);
  }

  /** Reading a text is folding `_line` over its lines. */
  lemma {:induction false} TakeFolds<R>(how: LineReader<R>, result: R, line: string, text: string)
    requires IndexOf(line, '\n') == |line|
    ensures Take(how, Reading(result, line, false), text) ==
            Reading(FoldLines(how, result, Lines(line + text)), Remainder(line + text), false)
    decreases |text|
  {
    if IndexOf(text, '\n') < |text| {
      var first, rest := TakeTurn(how, result, line, text);
      ConcatNothing(rest);
      TakeFolds(how, how.line(result, first), "", rest);
      FoldCons(how, result, first, Lines(rest));
    } else {
      IndexOfAppend(line, text, '\n');
      LinesNone(line + text);
    }
  }

  lemma {:induction false} FoldCons<R>(how: LineReader<R>, r: R, first: string, rest: seq<string>)
    ensures FoldLines(how, r, [first] + rest) == FoldLines(how, how.line(r, first), rest)
  {
    assert ([first] + rest)[1..] == rest;
  }

  // ---------------------------------------------------------------- which lines are read from their windows

  /** Where the texts end, counted from `at`. */
  ghost function Cuts(texts: seq<string>, at: nat): set<nat>
    decreases |texts|
  {
    if texts == [] then {} else {at + |texts[0]|} + Cuts(texts[1..], at + |texts[0]|)
  }

  /** Some text ends inside the line, or just before its newline, with more than the bound of it in hand. */
  ghost predicate CutPast(cuts: set<nat>, start: nat, end: nat) {
    exists p :: p in cuts && start + 1_000_000 < p <= end
  }

  function ReadLine<R>(how: LineReader<R>, r: R, windowed: bool, line: string): R {
    if windowed then how.windows(r, WindowOf(line)) else how.line(r, line)
  }

  /**
    * Reading line by line, the reading of each chosen by the cuts: a line from its windows when it is cut past
    * the bound, and whole otherwise. The first line starts at `start` and may already be marked as over-long;
    * `last` is the one left unfinished.
    */
  ghost function ReadByCuts<R>(
      how: LineReader<R>, r: R, long: bool, start: nat, lines: seq<string>, last: string, cuts: set<nat>): Reading<R>
    decreases |lines|
  {
    if lines == [] then Reading(r, last, long || CutPast(cuts, start, start + |last|))
    else
      var next := ReadLine(how, r, long || CutPast(cuts, start, start + |lines[0]|), lines[0]);
      ReadByCuts(how, next, false, start + |lines[0]| + 1, lines[1..], last, cuts)
  }

  lemma {:induction false} ByCutsCons<R>(
      how: LineReader<R>, r: R, long: bool, start: nat, first: string, rest: seq<string>, last: string, cuts: set<nat>)
    ensures ReadByCuts(how, r, long, start, [first] + rest, last, cuts) ==
            ReadByCuts(how, ReadLine(how, r, long || CutPast(cuts, start, start + |first|), first), false,
                       start + |first| + 1, rest, last, cuts)
  {
    assert ([first] + rest)[1..] == rest;
  }

  lemma {:induction false} OtherCut(start: nat, end: nat, cut: nat, cuts: set<nat>)
    ensures CutPast({cut} + cuts, start, end) <==> CutPast(cuts, start, end) || start + 1_000_000 < cut <= end
  {
    if CutPast(cuts, start, end) {
      var p :| p in cuts && start + MAX_LINE_CHARS < p <= end;
      assert p in {cut} + cuts;
    }
    if start + MAX_LINE_CHARS < cut <= end { assert cut in {cut} + cuts; }
  }

  /** A cut no later than the start is past no line. */
  lemma {:induction false} EarlierCut<R>(
      how: LineReader<R>, r: R, start: nat, lines: seq<string>, last: string, cut: nat, cuts: set<nat>)
    requires cut <= start
    ensures ReadByCuts(how, r, false, start, lines, last, {cut} + cuts) == ReadByCuts(how, r, false, start, lines, last, cuts)
    decreases |lines|
  {
    if lines == [] {
      OtherCut(start, start + |last|, cut, cuts);
    } else {
      OtherCut(start, start + |lines[0]|, cut, cuts);
      var next := ReadLine(how, r, CutPast(cuts, start, start + |lines[0]|), lines[0]);
      EarlierCut(how, next, start + |lines[0]| + 1, lines[1..], last, cut, cuts);
    }
  }

  lemma {:induction false} LaterCuts(start: nat, end: nat, cuts: set<nat>)
    requires forall p :: p in cuts ==> end < p
    ensures !CutPast(cuts, start, end)
  {
  }

  /** How much text the lines take up, newlines included. */
  function Length(lines: seq<string>): nat {
    if lines == [] then 0 else |lines[0]| + 1 + Length(lines[1..])
  }

  lemma {:induction false} LengthOfLines(text: string)
    ensures Length(Lines(text)) + |Remainder(text)| == |text|
    decreases |text|
  {
    var i := IndexOf(text, '\n');
    if i < |text| {
      LengthOfLines(text[i + 1..]);
      LinesCons(text, text[..i], text[i + 1..]);
      assert Lines(text)[1..] == Lines(text[i + 1..]);
    } else {
      LinesNone(text);
    }
  }

  lemma {:induction false} LinesAppend(a: string, b: string)
    ensures Lines(a + b) == Lines(a) + Lines(Remainder(a) + b) && Remainder(a + b) == Remainder(Remainder(a) + b)
    decreases |a|
  {
    IndexOfAppend(a, b, '\n');
    var i := IndexOf(a, '\n');
    if i < |a| {
      var first, rest := a[..i], a[i + 1..];
      SliceWithin(a, b, i);
      LinesAppend(rest, b);
      LinesCons(a, first, rest);
      LinesCons(a + b, first, rest + b);
      Assoc([first], Lines(rest), Lines(Remainder(rest) + b));
    } else {
      LinesNone(a);
      ConcatNothing(Lines(a + b));
    }
  }

  lemma {:induction false} FeedTurn<R>(how: LineReader<R>, r: Reading<R>, text: string)
    returns (line: string, rest: string, next: Reading<R>)
    requires IndexOf(r.line, '\n') == |r.line| && IndexOf(text, '\n') < |text|
    ensures next == Reading(ReadLine(how, r.result, r.long, line), "", false)
    ensures FeedText(how, r, text) == FeedText(how, next, rest)
    ensures Lines(r.line + text) == [line] + Lines(rest) && Remainder(r.line + text) == Remainder(rest)
    ensures |rest| < |text| && |line| + 1 + |rest| == |r.line + text|
  {
    var i := IndexOf(text, '\n');
    line, rest := r.line + text[..i], text[i + 1..];
    next := Reading(ReadLine(how, r.result, r.long, line), "", false);
    LinesBehind(r.line, text, i);
  }

  lemma {:induction false} FeedLast<R>(how: LineReader<R>, r: Reading<R>, text: string)
    requires IndexOf(text, '\n') == |text|
    ensures FeedText(how, r, text) == Reading(r.result, r.line + text, r.long || |r.line + text| > MAX_LINE_CHARS)
  {
  }

  lemma {:induction false} OneCut<R>(how: LineReader<R>, r: R, long: bool, start: nat, last: string, cut: nat)
    requires cut == start + |last|
    ensures ReadByCuts(how, r, long, start, [], last, {cut}) == Reading(r, last, long || |last| > MAX_LINE_CHARS)
  {
    assert cut in {cut};
  }

  /** No cut before its end: the line is read as it is marked. */
  lemma {:induction false} ByCutsLine<R>(
      how: LineReader<R>, r: R, long: bool, start: nat, line: string, rest: seq<string>, last: string, end: nat)
    requires start + |line| < end
    ensures ReadByCuts(how, r, long, start, [line] + rest, last, {end}) ==
            ReadByCuts(how, ReadLine(how, r, long, line), false, start + |line| + 1, rest, last, {end})
  {
    LaterCuts(start, start + |line|, {end});
    ByCutsCons(how, r, long, start, line, rest, last, {end});
  }

  lemma {:induction false} FeedOne<R>(how: LineReader<R>, r: Reading<R>, start: nat, text: string, cut: nat)
    requires IndexOf(r.line, '\n') == |r.line| && IndexOf(text, '\n') == |text| && cut == start + |r.line + text|
    ensures FeedText(how, r, text) == ReadByCuts(how, r.result, r.long, start, [], r.line + text, {cut})
    ensures Lines(r.line + text) == [] && Remainder(r.line + text) == r.line + text
  {
    IndexOfAppend(r.line, text, '\n');
    LinesNone(r.line + text);
    FeedLast(how, r, text);
    OneCut(how, r.result, r.long, start, r.line + text, cut);
  }

  /** One text: its lines, and the verdict on the one left unfinished. */
  lemma {:induction false} FeedByCuts<R>(how: LineReader<R>, r: Reading<R>, start: nat, text: string, cut: nat)
      returns (lines: seq<string>, last: string)
    requires IndexOf(r.line, '\n') == |r.line| && cut == start + |r.line + text|
    ensures lines == Lines(r.line + text) && last == Remainder(r.line + text)
    ensures FeedText(how, r, text) == ReadByCuts(how, r.result, r.long, start, lines, last, {cut})
    decreases |text|
  {
    if IndexOf(text, '\n') < |text| {
      var line, rest, next := FeedTurn(how, r, text);
      ConcatNothing(rest);
      var more;
      more, last := FeedByCuts(how, next, start + |line| + 1, rest, cut);
      ByCutsLine(how, r.result, r.long, start, line, more, last, cut);
      lines := [line] + more;
    } else {
      FeedOne(how, r, start, text, cut);
      lines, last := [], r.line + text;
    }
  }

  /** Reading on after a cut, from the unfinished line it left; the next line begins with that. */
  lemma {:induction false} ByCutsAppend<R>(
      how: LineReader<R>, r: R, long: bool, start: nat, a: seq<string>, left: string, b: seq<string>, last: string,
      cut: nat, cuts: set<nat>)
    requires cut == start + Length(a) + |left| && forall p :: p in cuts ==> cut <= p
    requires |left| <= if b == [] then |last| else |b[0]|
    ensures var mid := ReadByCuts(how, r, long, start, a, left, {cut});
            mid.line == left &&
            ReadByCuts(how, r, long, start, a + b, last, {cut} + cuts) ==
            ReadByCuts(how, mid.result, mid.long, cut - |left|, b, last, cuts)
    decreases |a|
  {
    if a == [] {
      ConcatNothing(b);
      assert cut in {cut};
      CutInLine(how, r, long, start, b, last, |left|, cuts);
    } else {
      var first, rest := a[0], a[1..];
      LaterCuts(start, start + |first|, {cut} + cuts);
      LaterCuts(start, start + |first|, {cut});
      var next := ReadLine(how, r, long, first);
      ByCutsAppend(how, next, false, start + |first| + 1, rest, left, b, last, cut, cuts);
      assert a + b == [first] + (rest + b);
      ByCutsCons(how, r, long, start, first, rest + b, last, {cut} + cuts);
    }
  }

  /** A cut inside the first line is kept as the mark on it. */
  lemma {:induction false} CutInLine<R>(
      how: LineReader<R>, r: R, long: bool, start: nat, lines: seq<string>, last: string, inside: nat, cuts: set<nat>)
    requires inside <= if lines == [] then |last| else |lines[0]|
    ensures ReadByCuts(how, r, long, start, lines, last, {start + inside} + cuts) ==
            ReadByCuts(how, r, long || inside > MAX_LINE_CHARS, start, lines, last, cuts)
  {
    if lines == [] {
      OtherCut(start, start + |last|, start + inside, cuts);
    } else {
      var end := start + |lines[0]|;
      OtherCut(start, end, start + inside, cuts);
      var next := ReadLine(how, r, long || inside > MAX_LINE_CHARS || CutPast(cuts, start, end), lines[0]);
      EarlierCut(how, next, end + 1, lines[1..], last, start + inside, cuts);
    }
  }

  lemma {:induction false} CutsBehind(texts: seq<string>, at: nat)
    ensures forall p :: p in Cuts(texts, at) ==> at <= p
    decreases |texts|
  {
    if texts != [] { CutsBehind(texts[1..], at + |texts[0]|); }
  }

  /** The first line of what follows begins with what was unfinished. */
  lemma {:induction false} FirstBehind(line: string, text: string)
    requires IndexOf(line, '\n') == |line|
    ensures |line| <= if Lines(line + text) == [] then |Remainder(line + text)| else |Lines(line + text)[0]|
  {
    IndexOfAppend(line, text, '\n');
    var i := IndexOf(text, '\n');
    if i < |text| {
      LinesBehind(line, text, i);
    } else {
      LinesNone(line + text);
    }
  }

  /** One text more, and the rest as one. */
  lemma {:induction false} CutOnce<R>(
      how: LineReader<R>, r: Reading<R>, start: nat, text: string, seen: string, rest: string, cut: nat, cuts: set<nat>)
      returns (mid: Reading<R>)
    requires IndexOf(r.line, '\n') == |r.line| && seen == r.line + text
    requires cut == start + |seen| && forall p :: p in cuts ==> cut <= p
    ensures mid == FeedText(how, r, text) && IndexOf(mid.line, '\n') == |mid.line| <= cut
    ensures ReadByCuts(how, r.result, r.long, start, Lines(seen + rest), Remainder(seen + rest), {cut} + cuts) ==
            ReadByCuts(how, mid.result, mid.long, cut - |mid.line|, Lines(mid.line + rest), Remainder(mid.line + rest), cuts)
  {
    mid := FeedText(how, r, text);
    var lines, left := FeedSeen(how, r, start, text, seen, cut);
    LinesAppend(seen, rest);
    var more, last := BehindCut(how, r.result, r.long, start, lines, left, rest, cut, cuts);
  }

  lemma {:induction false} FeedSeen<R>(
      how: LineReader<R>, r: Reading<R>, start: nat, text: string, seen: string, cut: nat)
      returns (lines: seq<string>, left: string)
    requires IndexOf(r.line, '\n') == |r.line| && seen == r.line + text && cut == start + |seen|
    ensures lines == Lines(seen) && left == Remainder(seen) && cut == start + Length(lines) + |left|
    ensures FeedText(how, r, text) == ReadByCuts(how, r.result, r.long, start, lines, left, {cut})
  {
    lines, left := FeedByCuts(how, r, start, text, cut);
    LengthOfLines(seen);
  }

  lemma {:induction false} BehindCut<R>(
      how: LineReader<R>, r: R, long: bool, start: nat, lines: seq<string>, left: string, rest: string, cut: nat,
      cuts: set<nat>)
      returns (more: seq<string>, last: string)
    requires IndexOf(left, '\n') == |left| && cut == start + Length(lines) + |left| && forall p :: p in cuts ==> cut <= p
    ensures more == Lines(left + rest) && last == Remainder(left + rest)
    ensures var mid := ReadByCuts(how, r, long, start, lines, left, {cut});
            mid.line == left &&
            ReadByCuts(how, r, long, start, lines + more, last, {cut} + cuts) ==
            ReadByCuts(how, mid.result, mid.long, cut - |left|, more, last, cuts)
  {
    more, last := Lines(left + rest), Remainder(left + rest);
    FirstBehind(left, rest);
    ByCutsAppend(how, r, long, start, lines, left, more, last, cut, cuts);
  }

  lemma {:induction false} FeedsByCuts<R>(
      how: LineReader<R>, r: Reading<R>, start: nat, texts: seq<string>, begun: nat, whole: string)
    requires IndexOf(r.line, '\n') == |r.line| && begun == start + |r.line| && whole == r.line + Concat(texts)
    ensures FeedTexts(how, r, texts) ==
            ReadByCuts(how, r.result, r.long, start, Lines(whole), Remainder(whole), Cuts(texts, begun))
    decreases |texts|
  {
    if texts == [] {
      ConcatNothing(r.line);
      LinesNone(r.line);
      NoCuts(how, r, start);
    } else {
      var text, rest, later := texts[0], Concat(texts[1..]), texts[1..];
      var cut := begun + |text|;
      CutsBehind(later, cut);
      Assoc(r.line, text, rest);
      var mid := CutOnce(how, r, start, text, r.line + text, rest, cut, Cuts(later, cut));
      FeedsByCuts(how, mid, cut - |mid.line|, later, cut, mid.line + rest);
    }
  }

  lemma {:induction false} NoCuts<R>(how: LineReader<R>, r: Reading<R>, start: nat)
    ensures ReadByCuts(how, r.result, r.long, start, [], r.line, {}) == r
  {
  }

  /**
    * Past the bound the cuts decide, and exactly they do: for any stream in any number of texts, each line is
    * read from its windows if and only if some text ended inside it with more than the bound in hand.
    */
  lemma {:induction false} CutDecides<R>(how: LineReader<R>, empty: R, texts: seq<string>)
    ensures var whole := Concat(texts);
            FeedTexts(how, Reading(empty, "", false), texts) ==
            ReadByCuts(how, empty, false, 0, Lines(whole), Remainder(whole), Cuts(texts, 0))
  {
    ConcatNothing(Concat(texts));
    FeedsByCuts(how, Reading(empty, "", false), 0, texts, 0, Concat(texts));
  }

  /** No line of the text, the unfinished one included, is longer than the bound. */
  predicate Short(s: string)
    decreases |s|
  {
    var i := IndexOf(s, '\n');
    i <= 1_000_000 && (i < |s| ==> Short(s[i + 1..]))
  }

  /** Short lines are cut past the bound by no cut. */
  lemma {:induction false} ShortByCuts<R>(how: LineReader<R>, r: R, start: nat, text: string, cuts: set<nat>)
    requires Short(text)
    ensures ReadByCuts(how, r, false, start, Lines(text), Remainder(text), cuts) ==
            Reading(FoldLines(how, r, Lines(text)), Remainder(text), false)
    decreases |text|
  {
    var i := IndexOf(text, '\n');
    assert !CutPast(cuts, start, start + i);
    if i < |text| {
      var line, rest := text[..i], text[i + 1..];
      LinesCons(text, line, rest);
      ShortByCuts(how, how.line(r, line), start + i + 1, rest, cuts);
      ByCutsCons(how, r, false, start, line, Lines(rest), Remainder(rest), cuts);
      FoldCons(how, r, line, Lines(rest));
    } else {
      LinesNone(text);
    }
  }

  /** The texts the chunks decode to, one by one. */
  function TextsOf(decoder: Decoder, state: nat, chunks: seq<seq<Byte>>): seq<string>
    decreases |chunks|
  {
    if chunks == [] then []
    else
      var (next, text) := Decode(decoder, state, chunks[0]);
      [text] + TextsOf(decoder, next, chunks[1..])
  }

  lemma {:induction false} TextsConcat(decoder: Decoder, state: nat, chunks: seq<seq<Byte>>)
    ensures Concat(TextsOf(decoder, state, chunks)) == Decode(decoder, state, Concat(chunks)).1
    decreases |chunks|
  {
    if chunks != [] {
      var (next, text) := Decode(decoder, state, chunks[0]);
      TextsConcat(decoder, next, chunks[1..]);
      DecodeAppend(decoder, state, chunks[0], Concat(chunks[1..]));
      assert TextsOf(decoder, state, chunks)[1..] == TextsOf(decoder, next, chunks[1..]);
    }
  }

  /**
    * Bounded extraction refines line-by-line parsing: for every split of a stream whose lines fit the
    * bound, the result is the lines of the whole text folded, the one left at the end included.
    */
  lemma {:induction false} ExtractionIsFold<R>(how: LineReader<R>, empty: R, decoder: Decoder, chunks: seq<seq<Byte>>)
    requires Short(Decode(decoder, 0, Concat(chunks)).1)
    ensures var text := Decode(decoder, 0, Concat(chunks)).1;
            Finished(how, FeedTexts(how, Reading(empty, "", false), TextsOf(decoder, 0, chunks))) ==
            how.line(FoldLines(how, empty, Lines(text)), Remainder(text))
  {
    var text, texts := Decode(decoder, 0, Concat(chunks)).1, TextsOf(decoder, 0, chunks);
    TextsConcat(decoder, 0, chunks);
    CutDecides(how, empty, texts);
    ShortByCuts(how, empty, 0, text, Cuts(texts, 0));
  }

  lemma {:induction false} LastAppend(line: string, text: string, n: nat)
    ensures Last(Last(line, n) + text, n) == Last(line + text, n)
  {
  }
}
