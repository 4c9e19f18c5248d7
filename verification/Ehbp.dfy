/** The encrypted-body protocol's framing, on the server's side; the cipher is left abstract. */
module Ehbp {
  import opened Js
  import opened Octets

  // ---------------------------------------------------------------- the request

  datatype Opened =
    | TooShort
    | LengthMismatch
    | NotDecrypted
    | Plain(plaintext: seq<Octet>, exportedSecret: seq<Octet>, requestEnc: seq<Octet>)

  /** The key encapsulation: decoding the header, opening what was sealed to this key, exporting a secret. */
  datatype Suite = Suite(
    fromHex: string -> seq<Octet>,
    open: (seq<Octet>, seq<Octet>) -> Option<seq<Octet>>,
    exported: seq<Octet> -> seq<Octet>)

  function OpenRequest(suite: Suite, encapKeyHex: string, body: seq<Octet>): Opened {
    var requestEnc := suite.fromHex(encapKeyHex);
    if |body| < 4 then TooShort
    else
      var len := FromU32(body[..4]);
      if |body| < 4 + len then LengthMismatch
      else
        match suite.open(requestEnc, body[4..4 + len])
        case None => NotDecrypted
        case Some(plaintext) => Plain(plaintext, suite.exported(requestEnc), requestEnc)
  }

  /** A frame: the length of what it carries, then that. */
  function Frame(sealed: seq<Octet>): (frame: seq<Octet>)
    requires |sealed| < TWO_32
    ensures |frame| == 4 + |sealed|
  {
    U32(|sealed|) + sealed
  }

  /** The bytes begin with a whole frame that carries `sealed`. */
  ghost predicate Begins(body: seq<Octet>, sealed: seq<Octet>) {
    |sealed| < TWO_32 && Frame(sealed) <= body
  }

  lemma {:induction false} FrameStarts(body: seq<Octet>, sealed: seq<Octet>)
    requires Begins(body, sealed)
    ensures |body| >= 4 + |sealed| && FromU32(body[..4]) == |sealed| && body[4..4 + |sealed|] == sealed
  {
    var frame := Frame(sealed);
    assert body[..|frame|] == frame;
    assert body[..4] == frame[..4] == U32(|sealed|);
    assert frame[4..] == sealed && body[4..4 + |sealed|] == frame[4..];
    U32RoundTrip(|sealed|);
  }

  lemma {:induction false} StartsFrame(body: seq<Octet>)
    requires |body| >= 4 && |body| >= 4 + FromU32(body[..4])
    ensures Begins(body, body[4..4 + FromU32(body[..4])])
  {
    U32Unique(body[..4]);
    var len := FromU32(body[..4]);
    assert body[..4 + len] == body[..4] + body[4..4 + len];
  }

  /**
    * A request is tried exactly when its body begins with a whole frame, and then what is tried is just what
    * that frame carries, whatever follows it.
    */
  lemma {:induction false} OpensWhatWasSealed(suite: Suite, encapKeyHex: string, body: seq<Octet>)
    ensures var result := OpenRequest(suite, encapKeyHex, body);
            result.TooShort? || result.LengthMismatch? <==> !exists sealed :: Begins(body, sealed)
    ensures forall sealed :: Begins(body, sealed) ==>
      OpenRequest(suite, encapKeyHex, body) ==
        match suite.open(suite.fromHex(encapKeyHex), sealed)
        case None => NotDecrypted
        case Some(plaintext) =>
          Plain(plaintext, suite.exported(suite.fromHex(encapKeyHex)), suite.fromHex(encapKeyHex))
  {
    if |body| >= 4 && |body| >= 4 + FromU32(body[..4]) { StartsFrame(body); }
    forall sealed | Begins(body, sealed)
      ensures |body| >= 4 && FromU32(body[..4]) == |sealed| && |body| >= 4 + |sealed| && body[4..4 + |sealed|] == sealed
    {
      FrameStarts(body, sealed);
    }
  }

  // ---------------------------------------------------------------- the response

  /** The frames of some ciphertexts, one after another. */
  function Frames(sealed: seq<seq<Octet>>): seq<Octet>
    requires forall i :: 0 <= i < |sealed| ==> |sealed[i]| < TWO_32
  {
    if sealed == [] then [] else Frame(sealed[0]) + Frames(sealed[1..])
  }

  /** A reader of length-prefixed frames, to the end of the bytes. */
  function ReadFrames(bytes: seq<Octet>): Option<seq<seq<Octet>>>
    decreases |bytes|
  {
    if bytes == [] then Some([])
    else if |bytes| < 4 || |bytes| < 4 + FromU32(bytes[..4]) then None
    else
      var len := FromU32(bytes[..4]);
      match ReadFrames(bytes[4 + len..])
      case None => None
      case Some(rest) => Some([bytes[4..4 + len]] + rest)
  }

  lemma {:induction false} ReadsFirst(first: seq<Octet>, rest: seq<Octet>)
    requires |first| < TWO_32
    ensures ReadFrames(Frame(first) + rest) ==
            match ReadFrames(rest)
            case None => None
            case Some(more) => Some([first] + more)
  {
    var bytes := Frame(first) + rest;
    FrameStarts(bytes, first);
    assert bytes[4 + |first|..] == rest;
  }

  /** The reader gets back the ciphertexts, one for one. */
  lemma {:induction false} FramesReadBack(sealed: seq<seq<Octet>>)
    requires forall i :: 0 <= i < |sealed| ==> |sealed[i]| < TWO_32
    ensures ReadFrames(Frames(sealed)) == Some(sealed)
    decreases |sealed|
  {
    if sealed != [] {
      FramesReadBack(sealed[1..]);
      ReadsFirst(sealed[0], Frames(sealed[1..]));
      assert [sealed[0]] + sealed[1..] == sealed;
    }
  }

  lemma {:induction false} FramesCons(first: seq<Octet>, rest: seq<seq<Octet>>)
    requires |first| < TWO_32 && forall i :: 0 <= i < |rest| ==> |rest[i]| < TWO_32
    ensures var all := [first] + rest;
            (forall i :: 0 <= i < |all| ==> |all[i]| < TWO_32) && Frames(all) == Frame(first) + Frames(rest)
  {
    var all := [first] + rest;
    assert all[1..] == rest;
  }

  /** And no other bytes read as them. */
  lemma {:induction false} ReadOnlyFromFrames(bytes: seq<Octet>)
    requires ReadFrames(bytes).Some?
    ensures var sealed := ReadFrames(bytes).value;
            (forall i :: 0 <= i < |sealed| ==> |sealed[i]| < TWO_32) && Frames(sealed) == bytes
    decreases |bytes|
  {
    if bytes != [] {
      var len := FromU32(bytes[..4]);
      var first, rest := bytes[4..4 + len], bytes[4 + len..];
      ReadOnlyFromFrames(rest);
      StartsFrame(bytes);
      assert bytes == Frame(first) + rest by { assert bytes[..4 + len] == Frame(first); }
      FramesCons(first, ReadFrames(rest).value);
    }
  }

  /** One call of `encrypt`: the sequence number it took when it began, and its chunk. */
  datatype Call = Call(number: nat, chunk: seq<Octet>)

  /** `responseEncryptor`: one key for the response; a call may end after later ones have begun. */
  class ResponseEncryptor {
    const seal: (nat, seq<Octet>) -> seq<Octet>
    var next: nat
    ghost var calls: seq<Call>

    ghost predicate Valid()
      reads this
    {
      next == |calls| && forall k :: 0 <= k < |calls| ==> calls[k].number == k
    }

    constructor (seal: (nat, seq<Octet>) -> seq<Octet>)
      ensures Valid() && calls == [] && this.seal == seal
    {
      this.seal, next, calls := seal, 0, [];
    }

    /** `seq++`, taken before anything is awaited. */
    method Begin(chunk: seq<Octet>) returns (call: Call)
      requires Valid()
      modifies this
      ensures Valid() && calls == old(calls) + [call] && call == Call(|old(calls)|, chunk)
    {
      call := Call(next, chunk);
      next, calls := next + 1, calls + [call];
    }

    /** The call's frame; none for a ciphertext whose length does not fit the prefix. */
    method End(call: Call) returns (frame: Option<seq<Octet>>)
      ensures var sealed := seal(call.number, call.chunk);
              frame == if |sealed| < TWO_32 then Some(Frame(sealed)) else None
    {
      var ct := seal(call.number, call.chunk);
      if |ct| >= TWO_32 { return None; }
      var buffer := new Octet[4 + |ct|](_ => 0);
      var prefix := U32(|ct|);
      forall i | 0 <= i < 4 { buffer[i] := prefix[i]; }
      forall i | 0 <= i < |ct| { buffer[4 + i] := ct[i]; }
      assert buffer[..] == Frame(ct);
      return Some(buffer[..]);
    }
  }

  /** Calls beginning and ending in any order; an end names the call by when it began. */
  datatype Event = Began(chunk: seq<Octet>) | Ended(call: nat)

  /** The calls of a history, as `Begin` numbers them, `next` being the first number free. */
  function Calls(events: seq<Event>, next: nat): seq<Call> {
    if events == [] then []
    else
      match events[0]
      case Began(chunk) => [Call(next, chunk)] + Calls(events[1..], next + 1)
      case Ended(_) => Calls(events[1..], next)
  }

  /** The chunks in the order their calls began. */
  function Chunks(events: seq<Event>): seq<seq<Octet>> {
    if events == [] then []
    else (if events[0].Began? then [events[0].chunk] else []) + Chunks(events[1..])
  }

  /** Call `k` seals with number `k`, however calls overlap: no key meets a number twice. */
  lemma {:induction false} CallsAreNumbered(events: seq<Event>, next: nat)
    ensures var calls := Calls(events, next);
            |calls| == |Chunks(events)| &&
            forall k :: 0 <= k < |calls| ==> calls[k] == Call(next + k, Chunks(events)[k])
    decreases |events|
  {
    if events != [] {
      CallsAreNumbered(events[1..], if events[0].Began? then next + 1 else next);
      if events[0].Began? {
        var calls, chunks := Calls(events, next), Chunks(events);
        assert forall k :: 0 < k < |calls| ==>
          calls[k] == Calls(events[1..], next + 1)[k - 1] && chunks[k] == Chunks(events[1..])[k - 1];
      }
    }
  }

  function Sealed(seal: (nat, seq<Octet>) -> seq<Octet>, calls: seq<Call>): (sealed: seq<seq<Octet>>)
    ensures |sealed| == |calls|
    ensures forall k :: 0 <= k < |calls| ==> sealed[k] == seal(calls[k].number, calls[k].chunk)
  {
    if calls == [] then [] else [seal(calls[0].number, calls[0].chunk)] + Sealed(seal, calls[1..])
  }

  /**
    * A response whose frames are written in call order is read back as the chunks sealed under numbers
    * 0, 1, 2 and on, in the order their calls began, provided each of its ciphertexts fits a frame.
    */
  lemma {:induction false} ResponseReadsBack(seal: (nat, seq<Octet>) -> seq<Octet>, events: seq<Event>)
    requires forall k :: 0 <= k < |Chunks(events)| ==> |seal(k, Chunks(events)[k])| < TWO_32
    ensures var calls := Calls(events, 0);
            (forall i :: 0 <= i < |Sealed(seal, calls)| ==> |Sealed(seal, calls)[i]| < TWO_32) &&
            var sealed := ReadFrames(Frames(Sealed(seal, calls)));
            sealed.Some? && |sealed.value| == |Chunks(events)| &&
            forall k :: 0 <= k < |Chunks(events)| ==> sealed.value[k] == seal(k, Chunks(events)[k])
  {
    var calls, chunks := Calls(events, 0), Chunks(events);
    var sealed := Sealed(seal, calls);
    CallsAreNumbered(events, 0);
    forall k | 0 <= k < |chunks| ensures sealed[k] == seal(k, chunks[k]) {
      assert calls[k] == Call(k, chunks[k]);
    }
    FramesReadBack(sealed);
  }
}
