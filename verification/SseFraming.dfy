/**
  * The server-sent-event framing that both stream translators share line for line: bytes are decoded
  * and buffered, `data:` lines accumulate, a blank line dispatches the event. What an event does is a
  * parameter, so what holds of the framing holds of both translators.
  */
module SseFraming {
  import opened Js
  import opened Decoding

  /** A translator: what one event payload does to its state and emits, and when it has gone silent. */
  datatype Handler<!S, !F> = Handler(dispatch: (S, string) -> (S, seq<F>), silent: S -> bool, cut: S -> (S, seq<F>))

  /** The data lines of the event being read, and the translator's own state. */
  datatype Core<S> = Core(eventData: seq<string>, inner: S)

  datatype Framing<S> = Framing(decoderState: nat, buffer: string, core: Core<S>)

  /** What a stretch of text did: the new state, the unfinished line left over, and the output. */
  datatype Pumped<S, F> = Pumped(core: Core<S>, left: string, out: seq<F>)

  predicate IsDataLine(line: string) {
    "data:" <= line
  }

  /** What one complete line does. */
  function Line<S, F>(h: Handler<S, F>, core: Core<S>, line: string): (Core<S>, seq<F>) {
    if line == "" then
      if core.eventData != [] then
        var (inner, out) := h.dispatch(core.inner, Join(core.eventData, "\n"));
        (Core([], inner), out)
      else (core, [])
    else if IsDataLine(line) then
      (Core(core.eventData + [TrimStart(line[5..])], core.inner), [])
    else (core, [])
  }

  /** Consume every complete line of the text, stopping where the translator goes silent. */
  function Pump<S, F>(h: Handler<S, F>, core: Core<S>, text: string): Pumped<S, F>
    decreases |text|
  {
    var i := IndexOf(text, '\n');
    if i == |text| then Pumped(core, text, [])
    else
      var (next, out) := Line(h, core, StripCr(text[..i]));
      if h.silent(next.inner) then Pumped(next, text[i + 1..], out)
      else
        var last := Pump(h, next, text[i + 1..]);
        Pumped(last.core, last.left, out + last.out)
  }

  /** `feed(chunk)` */
  function Feed<S, F>(h: Handler<S, F>, decoder: Decoder, st: Framing<S>, chunk: seq<Byte>): (Framing<S>, seq<F>) {
    if h.silent(st.core.inner) then (st, [])
    else
      var (d, text) := Decode(decoder, st.decoderState, chunk);
      var p := Pump(h, st.core, st.buffer + text);
      (Framing(d, p.left, p.core), p.out)
  }

  function FeedAll<S, F>(
      h: Handler<S, F>, decoder: Decoder, st: Framing<S>, chunks: seq<seq<Byte>>): (Framing<S>, seq<F>)
    decreases |chunks|
  {
    if chunks == [] then (st, [])
    else
      var (next, out) := Feed(h, decoder, st, chunks[0]);
      var (last, rest) := FeedAll(h, decoder, next, chunks[1..]);
      (last, out + rest)
  }

  /** `finish()`: silent already, or the stream was cut short. */
  function Finish<S, F>(h: Handler<S, F>, inner: S): (S, seq<F>) {
    if h.silent(inner) then (inner, []) else h.cut(inner)
  }

  /** Everything a client receives: the outputs of every feed, then the output of finish. */
  function Transcript<S, F>(h: Handler<S, F>, decoder: Decoder, st: Framing<S>, chunks: seq<seq<Byte>>): seq<F> {
    var (last, out) := FeedAll(h, decoder, st, chunks);
    out + Finish(h, last.core.inner).1
  }

  /** Between calls no complete line is waiting. */
  predicate Settled<S, F>(h: Handler<S, F>, st: Framing<S>) {
    h.silent(st.core.inner) || IndexOf(st.buffer, '\n') == |st.buffer|
  }

  /**
    * Indistinguishable by any later call: once silent, the leftover buffer and decoder state are
    * never looked at again.
    */
  predicate Same<S(==), F>(h: Handler<S, F>, a: Framing<S>, b: Framing<S>) {
    a.core == b.core && (h.silent(a.core.inner) || a == b)
  }

  /** The same stretch of text, seen after some output has already been collected. */
  function Resume<S, F>(p: Pumped<S, F>, collected: seq<F>): Pumped<S, F> {
    Pumped(p.core, p.left, collected + p.out)
  }

  /** One turn of the loop in `feed` that takes the first complete line. */
  lemma {:induction false} PumpTurn<S, F>(
      h: Handler<S, F>, core: Core<S>, text: string, left: string, collected: seq<F>, next: Core<S>, out: seq<F>)
    requires var i := IndexOf(text, '\n'); i < |text| && left == text[i + 1..] && (next, out) == Line(h, core, StripCr(text[..i]))
    ensures Resume(Pump(h, core, text), collected) ==
            if h.silent(next.inner) then Pumped(next, left, collected + out) else Resume(Pump(h, next, left), collected + out)
  {
    Assoc(collected, out, Pump(h, next, left).out);
  }

  /** No line is complete: the loop is over. */
  lemma {:induction false} PumpOver<S, F>(h: Handler<S, F>, core: Core<S>, text: string, collected: seq<F>)
    requires IndexOf(text, '\n') == |text|
    ensures Resume(Pump(h, core, text), collected) == Pumped(core, text, collected)
  {
    assert collected + [] == collected;
  }

  lemma {:induction false} PumpSettles<S, F>(h: Handler<S, F>, core: Core<S>, text: string)
    ensures var p := Pump(h, core, text);
            h.silent(p.core.inner) || IndexOf(p.left, '\n') == |p.left|
    decreases |text|
  {
    var i := IndexOf(text, '\n');
    if i < |text| {
      PumpSettles(h, Line(h, core, StripCr(text[..i])).0, text[i + 1..]);
    }
  }

  /** What the first complete line does, and what is pumped behind it. */
  function Turn<S, F>(next: Core<S>, out: seq<F>, rest: string, silent: bool, last: Pumped<S, F>): Pumped<S, F> {
    if silent then Pumped(next, rest, out) else Resume(last, out)
  }

  lemma {:induction false} PumpLine<S, F>(h: Handler<S, F>, core: Core<S>, text: string, line: string, rest: string)
    returns (next: Core<S>, out: seq<F>)
    requires var i := IndexOf(text, '\n'); i < |text| && line == text[..i] && rest == text[i + 1..]
    ensures (next, out) == Line(h, core, StripCr(line))
    ensures Pump(h, core, text) == Turn(next, out, rest, h.silent(next.inner), Pump(h, next, rest))
  {
    var done := Line(h, core, StripCr(line));
    next, out := done.0, done.1;
  }

  /** What arrives later is pumped on from where the text left off; nothing, once the translator is silent. */
  ghost predicate GoesOn<S, F>(p: Pumped<S, F>, ended: bool, q: Pumped<S, F>, whole: Pumped<S, F>) {
    if ended then whole.core == p.core && whole.out == p.out else whole == Resume(q, p.out)
  }

  /** Text that arrives later only continues the run: nothing already consumed changes. */
  lemma {:induction false} PumpAppend<S, F>(h: Handler<S, F>, core: Core<S>, text: string, more: string)
    ensures var p := Pump(h, core, text);
            GoesOn(p, IndexOf(text, '\n') < |text| && h.silent(p.core.inner), Pump(h, p.core, p.left + more),
                   Pump(h, core, text + more))
    decreases |text|
  {
    IndexOfAppend(text, more, '\n');
    var i := IndexOf(text, '\n');
    if i < |text| {
      var line, rest := text[..i], text[i + 1..];
      SliceWithin(text, more, i);
      var next, out := PumpLine(h, core, text, line, rest);
      var again, same := PumpLine(h, core, text + more, line, rest + more);
      if !h.silent(next.inner) {
        PumpAppend(h, next, rest, more);
        TurnGoesOn(h, next, out, rest, Pump(h, next, rest), more);
      }
    } else {
      ConcatNothing(Pump(h, core, text + more).out);
    }
  }

  lemma {:induction false} TurnGoesOn<S, F>(h: Handler<S, F>, next: Core<S>, out: seq<F>, rest: string,
      p: Pumped<S, F>, more: string)
    requires !h.silent(next.inner) && p == Pump(h, next, rest)
    requires GoesOn(p, IndexOf(rest, '\n') < |rest| && h.silent(p.core.inner), Pump(h, p.core, p.left + more),
                    Pump(h, next, rest + more))
    ensures GoesOn(Resume(p, out), h.silent(p.core.inner), Pump(h, p.core, p.left + more),
                   Resume(Pump(h, next, rest + more), out))
  {
    Assoc(out, p.out, Pump(h, p.core, p.left + more).out);
  }

  /** Two chunks in a row are the chunk they concatenate to. */
  lemma {:induction false} FeedAppend<S, F>(h: Handler<S, F>, decoder: Decoder, st: Framing<S>, a: seq<Byte>,
      b: seq<Byte>)
    ensures var (mid, left) := Feed(h, decoder, st, a);
            var (end, right) := Feed(h, decoder, mid, b);
            var (whole, all) := Feed(h, decoder, st, a + b);
            Same(h, whole, end) && all == left + right
  {
    if !h.silent(st.core.inner) {
      DecodeAppend(decoder, st.decoderState, a, b);
      var (d, text) := Decode(decoder, st.decoderState, a);
      var (e, more) := Decode(decoder, d, b);
      PumpAppend(h, st.core, st.buffer + text, more);
      Assoc(st.buffer, text, more);
    }
  }

  /** However the bytes are cut into chunks, the run is the run on the whole. */
  lemma {:induction false} FeedAllIsFeed<S, F>(h: Handler<S, F>, decoder: Decoder, st: Framing<S>,
      chunks: seq<seq<Byte>>)
    requires Settled(h, st)
    ensures Same(h, FeedAll(h, decoder, st, chunks).0, Feed(h, decoder, st, Concat(chunks)).0)
    ensures FeedAll(h, decoder, st, chunks).1 == Feed(h, decoder, st, Concat(chunks)).1
    decreases |chunks|
  {
    if chunks == [] {
      assert st.buffer + "" == st.buffer;
    } else {
      if !h.silent(st.core.inner) {
        PumpSettles(h, st.core, st.buffer + Decode(decoder, st.decoderState, chunks[0]).1);
      }
      FeedAllIsFeed(h, decoder, Feed(h, decoder, st, chunks[0]).0, chunks[1..]);
      FeedAppend(h, decoder, st, chunks[0], Concat(chunks[1..]));
    }
  }

  /**
    * Chunk independence: from any state between calls, two ways of cutting the same bytes into chunks
    * give the client the same transcript.
    */
  lemma {:induction false} ChunkIndependence<S, F>(h: Handler<S, F>, decoder: Decoder, st: Framing<S>,
      a: seq<seq<Byte>>, b: seq<seq<Byte>>)
    requires Settled(h, st)
    requires Concat(a) == Concat(b)
    ensures Transcript(h, decoder, st, a) == Transcript(h, decoder, st, b)
  {
    FeedAllIsFeed(h, decoder, st, a);
    FeedAllIsFeed(h, decoder, st, b);
  }

  // ---------------------------------------------------------------- one ending

  /** How many frames are endings. */
  function Endings<F>(isEnding: F -> bool, out: seq<F>): nat {
    if out == [] then 0 else (if isEnding(out[0]) then 1 else 0) + Endings(isEnding, out[1..])
  }

  lemma {:induction false} EndingsAppend<F>(isEnding: F -> bool, a: seq<F>, b: seq<F>)
    ensures Endings(isEnding, a + b) == Endings(isEnding, a) + Endings(isEnding, b)
  {
    if a == [] {
      assert a + b == b;
    } else {
      TailAppend(a, b);
      EndingsAppend(isEnding, a[1..], b);
    }
  }

  /** Exactly one ending, with nothing behind it. */
  predicate EndsOnce<F>(isEnding: F -> bool, out: seq<F>) {
    out != [] && isEnding(out[|out| - 1]) && Endings(isEnding, out) == 1
  }

  /** One ending exactly when silent, else none. */
  predicate Kept<F>(isEnding: F -> bool, silent: bool, out: seq<F>) {
    if silent then EndsOnce(isEnding, out) else Endings(isEnding, out) == 0
  }

  lemma {:induction false} KeptAppend<F>(isEnding: F -> bool, silent: bool, a: seq<F>, b: seq<F>)
    requires Endings(isEnding, a) == 0 && Kept(isEnding, silent, b)
    ensures Kept(isEnding, silent, a + b)
  {
    EndingsAppend(isEnding, a, b);
  }

  /** The law each translator obeys: it goes silent exactly by emitting an ending last. */
  ghost predicate Lawful<S(!new), F>(h: Handler<S, F>, isEnding: F -> bool) {
    (forall s, data :: !h.silent(s) ==>
      Kept(isEnding, h.silent(h.dispatch(s, data).0), h.dispatch(s, data).1)) &&
    (forall s :: !h.silent(s) ==> h.silent(h.cut(s).0) && EndsOnce(isEnding, h.cut(s).1))
  }

  lemma {:induction false} PumpEnding<S(!new), F>(h: Handler<S, F>, isEnding: F -> bool, core: Core<S>, text: string)
    requires Lawful(h, isEnding) && !h.silent(core.inner)
    ensures Kept(isEnding, h.silent(Pump(h, core, text).core.inner), Pump(h, core, text).out)
    decreases |text|
  {
    var i := IndexOf(text, '\n');
    if i < |text| {
      var line, rest := text[..i], text[i + 1..];
      LineEnding(h, isEnding, core, StripCr(line));
      var next, out := PumpLine(h, core, text, line, rest);
      if !h.silent(next.inner) {
        PumpEnding(h, isEnding, next, rest);
        TurnEnding(h, isEnding, out, Pump(h, next, rest));
      }
    }
  }

  lemma {:induction false} TurnEnding<S, F>(h: Handler<S, F>, isEnding: F -> bool, out: seq<F>, last: Pumped<S, F>)
    requires Endings(isEnding, out) == 0 && Kept(isEnding, h.silent(last.core.inner), last.out)
    ensures Kept(isEnding, h.silent(last.core.inner), Resume(last, out).out)
  {
    KeptAppend(isEnding, h.silent(last.core.inner), out, last.out);
  }

  lemma {:induction false} LineEnding<S(!new), F>(h: Handler<S, F>, isEnding: F -> bool, core: Core<S>, line: string)
    requires Lawful(h, isEnding) && !h.silent(core.inner)
    ensures Kept(isEnding, h.silent(Line(h, core, line).0.inner), Line(h, core, line).1)
  {
  }

  /** For every stream and every split: one terminal frame, and nothing after it. */
  lemma {:induction false} OneEnding<S(!new), F>(h: Handler<S, F>, isEnding: F -> bool, decoder: Decoder,
      st: Framing<S>, chunks: seq<seq<Byte>>)
    requires Lawful(h, isEnding) && Settled(h, st) && !h.silent(st.core.inner)
    ensures EndsOnce(isEnding, Transcript(h, decoder, st, chunks))
  {
    FeedAllIsFeed(h, decoder, st, chunks);
    PumpEnding(h, isEnding, st.core, st.buffer + Decode(decoder, st.decoderState, Concat(chunks)).1);
    var (last, out) := FeedAll(h, decoder, st, chunks);
    if h.silent(last.core.inner) {
      assert out + [] == out;
    } else {
      KeptAppend(isEnding, true, out, h.cut(last.core.inner).1);
    }
  }

  // ---------------------------------------------------------------- what the framing means

  /** The payloads of the events a text completes: the joined `data:` lines between blank lines. */
  function Payloads(text: string, eventData: seq<string>): seq<string>
    decreases |text|
  {
    var i := IndexOf(text, '\n');
    if i == |text| then []
    else
      var line, rest := StripCr(text[..i]), text[i + 1..];
      if line == "" then (if eventData != [] then [Join(eventData, "\n")] else []) + Payloads(rest, [])
      else if IsDataLine(line) then Payloads(rest, eventData + [TrimStart(line[5..])])
      else Payloads(rest, eventData)
  }

  /** Dispatch payloads one by one until the translator goes silent. */
  function Run<S, F>(h: Handler<S, F>, s: S, payloads: seq<string>): (S, seq<F>)
    decreases |payloads|
  {
    if payloads == [] || h.silent(s) then (s, [])
    else
      var (next, out) := h.dispatch(s, payloads[0]);
      var (last, rest) := Run(h, next, payloads[1..]);
      (last, out + rest)
  }

  /** Pumping a text is dispatching its payloads. */
  lemma {:induction false} PumpIsRun<S, F>(h: Handler<S, F>, core: Core<S>, text: string)
    requires !h.silent(core.inner)
    ensures var p := Pump(h, core, text);
            (p.core.inner, p.out) == Run(h, core.inner, Payloads(text, core.eventData))
    decreases |text|
  {
    var i := IndexOf(text, '\n');
    if i < |text| {
      var line, rest := StripCr(text[..i]), text[i + 1..];
      var (next, out) := Line(h, core, line);
      if line == "" && core.eventData != [] {
        var payloads := Payloads(text, core.eventData);
        assert payloads[0] == Join(core.eventData, "\n") && payloads[1..] == Payloads(rest, []);
        if h.silent(next.inner) {
          assert out + [] == out;
        } else {
          PumpIsRun(h, next, rest);
        }
      } else {
        PumpIsRun(h, next, rest);
        assert [] + Pump(h, next, rest).out == Pump(h, next, rest).out;
        assert line == "" ==> [] + Payloads(rest, []) == Payloads(rest, []);
      }
    }
  }

  /** The framing refined: any split of the bytes is a run over the payloads of the decoded text. */
  lemma {:induction false} TranscriptIsRun<S, F>(h: Handler<S, F>, decoder: Decoder, st: Framing<S>,
      chunks: seq<seq<Byte>>)
    requires !h.silent(st.core.inner) && st.buffer == "" && st.core.eventData == []
    ensures var text := Decode(decoder, st.decoderState, Concat(chunks)).1;
            var (inner, out) := Run(h, st.core.inner, Payloads(text, []));
            Transcript(h, decoder, st, chunks) == out + Finish(h, inner).1
  {
    FeedAllIsFeed(h, decoder, st, chunks);
    var (d, text) := Decode(decoder, st.decoderState, Concat(chunks));
    assert "" + text == text;
    PumpIsRun(h, st.core, text);
  }
}
