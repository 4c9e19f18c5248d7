/** The browser verifier's byte helpers, and the structure whose signature it checks. */
module Cbor {
  import opened Js
  import opened Octets

  // ---------------------------------------------------------------- concatenation and hex

  function TotalLength(parts: seq<seq<Octet>>): nat {
    if parts == [] then 0 else |parts[0]| + TotalLength(parts[1..])
  }

  lemma {:induction false} ConcatLength(parts: seq<seq<Octet>>)
    ensures |Concat(parts)| == TotalLength(parts)
  {
    if parts != [] { ConcatLength(parts[1..]); }
  }

  method ConcatBytes(arrs: seq<seq<Octet>>) returns (bytes: seq<Octet>)
    ensures bytes == Concat(arrs)
  {
    var out := new Octet[TotalLength(arrs)](_ => 0);
    ConcatLength(arrs);
    var o := 0;
    for k := 0 to |arrs|
      invariant 0 <= o <= out.Length && o + |Concat(arrs[k..])| == out.Length
      invariant out[..o] + Concat(arrs[k..]) == Concat(arrs)
    {
      var a := arrs[k];
      assert arrs[k..][1..] == arrs[k + 1..];
      ghost var before := out[..o];
      forall i | 0 <= i < |a| { out[o + i] := a[i]; }
      assert out[..o + |a|] == before + a;
      Assoc(before, a, Concat(arrs[k + 1..]));
      o := o + |a|;
    }
    assert out[..o] == out[..];
    bytes := out[..];
  }

  function HexDigit(n: nat): (c: char)
    requires n < 16
  {
    if n < 10 then ('0' as int + n) as char else ('a' as int + n - 10) as char
  }

  /** `bytesToHex` */
  function ToHex(bytes: seq<Octet>): (h: string)
    ensures |h| == 2 * |bytes|
  {
    if bytes == [] then "" else [HexDigit(bytes[0] / 16), HexDigit(bytes[0] % 16)] + ToHex(bytes[1..])
  }

  function HexValue(c: char): Option<nat> {
    if '0' <= c <= '9' then Some((c as int - '0' as int) as nat)
    else if 'a' <= c <= 'f' then Some((c as int - 'a' as int + 10) as nat)
    else if 'A' <= c <= 'F' then Some((c as int - 'A' as int + 10) as nat)
    else None
  }

  /** The value of the hex digits a string begins with; none when it begins with none. */
  function Digits(s: string, sofar: Option<nat>): Option<nat> {
    if s == "" || HexValue(s[0]).None? then sofar
    else Digits(s[1..], Some((if sofar.Some? then sofar.value else 0) * 16 + HexValue(s[0]).value))
  }

  /** `parseInt(s, 16)`; none for NaN. */
  function ParseHex(s: string): Option<int> {
    var t := TrimStart(s);
    var negative := t != "" && t[0] == '-';
    var u := if t != "" && (t[0] == '-' || t[0] == '+') then t[1..] else t;
    var v := if "0x" <= u || "0X" <= u then u[2..] else u;
    match Digits(v, None)
    case None => None
    case Some(n) => Some(if negative then 0 - n as int else n)
  }

  /** What assigning a number to a `Uint8Array` element stores; NaN stores 0. */
  function Stored(n: Option<int>): Octet {
    if n.None? then 0 else n.value % 0x100
  }

  /** `hexToBytes`: a last odd character is not read. */
  function FromHex(h: string): (bytes: seq<Octet>)
    ensures |bytes| == |h| / 2
  {
    if |h| < 2 then [] else [Stored(ParseHex(h[..2]))] + FromHex(h[2..])
  }

  method HexToBytes(h: string) returns (bytes: seq<Octet>)
    ensures bytes == FromHex(h)
    ensures |bytes| == |h| / 2 && forall i :: 0 <= i < |h| / 2 ==> PairReads(h[2 * i], h[2 * i + 1], bytes[i])
  {
    PairsAreRead(h);
    var out := new Octet[|h| / 2](_ => 0);
    for i := 0 to out.Length
      invariant out[..i] + FromHex(h[i * 2..]) == FromHex(h)
    {
      ghost var before := out[..i];
      var pair := h[i * 2..i * 2 + 2];
      out[i] := Stored(ParseHex(pair));
      assert h[i * 2..][..2] == pair && h[i * 2..][2..] == h[(i + 1) * 2..];
      assert out[..i + 1] == before + [out[i]];
      Assoc(before, [out[i]], FromHex(h[(i + 1) * 2..]));
    }
    assert out[..out.Length] == out[..] && FromHex(h[out.Length * 2..]) == [];
    bytes := out[..];
  }

  // What a pair of characters is read as, by the characters.

  predicate IsNibble(c: char, n: nat) {
    n < 16 && (c == "0123456789abcdef"[n] || c == "0123456789ABCDEF"[n])
  }

  predicate NoNibble(c: char) {
    forall n: nat :: n < 16 ==> !IsNibble(c, n)
  }

  /**
    * Two hex digits are their number; of one digit in front it is that digit, the rest being cut off; of one
    * behind a space or a plus that digit, and behind a minus what is left of 256; and of none nought.
    */
  ghost predicate PairReads(a: char, b: char, octet: Octet) {
    (forall m: nat, n: nat :: IsNibble(a, m) && IsNibble(b, n) ==> octet == 16 * m + n) &&
    (forall m: nat :: IsNibble(a, m) && NoNibble(b) ==> octet == m) &&
    (forall n: nat :: NoNibble(a) && IsNibble(b, n) ==>
       octet == if IsSpace(a) || a == '+' then n else if a == '-' then (256 - n) % 256 else 0) &&
    (NoNibble(a) && NoNibble(b) ==> octet == 0)
  }

  lemma {:induction false} NibbleIs(c: char)
    ensures forall n: nat :: IsNibble(c, n) <==> HexValue(c) == Some(n)
    ensures NoNibble(c) <==> HexValue(c).None?
  {
    forall n: nat ensures IsNibble(c, n) <==> HexValue(c) == Some(n) {
      if n < 16 { NibbleAt(n); }
    }
    if HexValue(c).Some? { assert IsNibble(c, HexValue(c).value); }
  }

  lemma {:induction false} NibbleAt(n: nat)
    requires n < 16
    ensures "0123456789abcdef"[n] == HexDigit(n)
    ensures "0123456789ABCDEF"[n] == if n < 10 then HexDigit(n) else ('A' as int + n - 10) as char
  {
  }

  lemma {:induction false} DigitsOf(s: string)
    requires |s| <= 2
    ensures s == "" ==> Digits(s, None) == None
    ensures |s| == 1 ==> Digits(s, None) == HexValue(s[0])
    ensures |s| == 2 ==>
      Digits(s, None) ==
      if HexValue(s[0]).None? || HexValue(s[1]).None? then HexValue(s[0])
      else Some(16 * HexValue(s[0]).value + HexValue(s[1]).value)
  {
    if |s| == 2 && HexValue(s[0]).Some? {
      var b, first := s[1], HexValue(s[0]);
      assert s[1..] == [b] && [b][1..] == "";
      assert Digits(s, None) == Digits([b], first);
      assert HexValue(b).Some? ==> Digits([b], first) == Digits("", Some(first.value * 16 + HexValue(b).value));
    }
  }

  /** What is left of a pair once the space, the sign or the prefix in front is gone. */
  lemma {:induction false} PairIsCut(a: char, b: char)
    ensures HexValue(a).Some? && !(a == '0' && (b == 'x' || b == 'X')) ==> ParseHex([a, b]) == Digits([a, b], None)
    ensures a == '0' && (b == 'x' || b == 'X') ==> ParseHex([a, b]) == None
    ensures IsSpace(a) || a == '+' ==> ParseHex([a, b]) == HexValue(b)
    ensures a == '-' ==> ParseHex([a, b]) == if HexValue(b).None? then None else Some(0 - HexValue(b).value)
    ensures HexValue(a).None? && !IsSpace(a) && a != '+' && a != '-' ==> ParseHex([a, b]) == None
  {
    var s := [a, b];
    DigitsOf(s);
    DigitsOf([b]);
    DigitsOf("");
    assert s[1..] == [b] && [b][1..] == "" && s[2..] == "";
    if IsSpace(a) { SpaceIsCut(a, b); }
  }

  lemma {:induction false} SpaceIsCut(a: char, b: char)
    requires IsSpace(a)
    ensures ParseHex([a, b]) == HexValue(b)
  {
    DigitsOf([b]);
    DigitsOf("");
    assert [a, b][1..] == [b] && [b][1..] == "" && TrimStart("") == "";
    assert TrimStart([a, b]) == TrimStart([b]);
  }

  /** What a pair is worth, by the values of its two characters. */
  function PairWorth(a: char, m: Option<nat>, n: Option<nat>): int {
    if m.Some? then (if n.Some? then 16 * m.value + n.value else m.value)
    else if n.None? then 0
    else if IsSpace(a) || a == '+' then n.value
    else if a == '-' then (256 - n.value) % 256 else 0
  }

  lemma {:induction false} PairValue(a: char, b: char)
    ensures Stored(ParseHex([a, b])) == PairWorth(a, HexValue(a), HexValue(b))
  {
    if HexValue(a).Some? { DigitInFront(a, b); } else { NoDigitInFront(a, b); }
  }

  lemma {:induction false} DigitInFront(a: char, b: char)
    requires HexValue(a).Some?
    ensures Stored(ParseHex([a, b])) == PairWorth(a, HexValue(a), HexValue(b))
  {
    PairIsCut(a, b);
    DigitsOf([a, b]);
  }

  lemma {:induction false} NoDigitInFront(a: char, b: char)
    requires HexValue(a).None?
    ensures Stored(ParseHex([a, b])) == PairWorth(a, HexValue(a), HexValue(b))
  {
    PairIsCut(a, b);
  }

  lemma {:induction false} PairIsRead(a: char, b: char)
    ensures PairReads(a, b, Stored(ParseHex([a, b])))
  {
    NibbleIs(a);
    NibbleIs(b);
    PairValue(a, b);
  }

  /** Every byte is what its pair of characters is read as. */
  lemma {:induction false} PairsAreRead(h: string)
    ensures forall i :: 0 <= i < |h| / 2 ==> PairReads(h[2 * i], h[2 * i + 1], FromHex(h)[i])
  {
    forall i | 0 <= i < |h| / 2 ensures PairReads(h[2 * i], h[2 * i + 1], FromHex(h)[i]) {
      PairAt(h, i, 2 * i);
    }
  }

  lemma {:induction false} PairAt(h: string, i: nat, at: nat)
    requires at == i + i && at + 1 < |h|
    ensures i < |h| / 2 && PairReads(h[at], h[at + 1], FromHex(h)[i])
    decreases i
  {
    var rest := h[2..];
    if i == 0 {
      PairIsRead(h[0], h[1]);
      assert h[..2] == [h[0], h[1]];
    } else {
      PairAt(rest, i - 1, at - 2);
      assert rest[at - 2] == h[at] && rest[at - 1] == h[at + 1];
      LaterByte(h, rest, i);
    }
  }

  lemma {:induction false} LaterByte(h: string, rest: string, i: nat)
    requires 0 < i < |h| / 2 && rest == h[2..]
    ensures i - 1 < |rest| / 2 && FromHex(h)[i] == FromHex(rest)[i - 1]
  {
  }

  predicate AllHex(h: string) {
    forall i :: 0 <= i < |h| ==> HexValue(h[i]).Some?
  }

  lemma {:induction false} ParsePair(a: char, b: char)
    requires HexValue(a).Some? && HexValue(b).Some?
    ensures ParseHex([a, b]) == Some(HexValue(a).value * 16 + HexValue(b).value)
  {
    var s := [a, b];
    assert TrimStart(s) == s;
    assert !("0x" <= s) && !("0X" <= s) by { assert HexValue('x').None? && HexValue('X').None?; assert s[1] == b; }
    assert s[1..] == [b] && [b][1..] == "";
    var n := HexValue(a).value;
    assert Digits([b], Some(n)) == Digits("", Some(n * 16 + HexValue(b).value));
    assert Digits(s, None) == Digits([b], Some(n));
  }

  lemma {:induction false} PairFromHex(b: Octet)
    ensures Stored(ParseHex([HexDigit(b / 16), HexDigit(b % 16)])) == b
  {
    ParsePair(HexDigit(b / 16), HexDigit(b % 16));
  }

  /** Every byte string comes back from its hex form. */
  lemma {:induction false} BytesFromHex(bytes: seq<Octet>)
    ensures FromHex(ToHex(bytes)) == bytes
    decreases |bytes|
  {
    if bytes != [] {
      var b, h := bytes[0], ToHex(bytes);
      PairFromHex(b);
      assert h[..2] == [HexDigit(b / 16), HexDigit(b % 16)] && h[2..] == ToHex(bytes[1..]);
      BytesFromHex(bytes[1..]);
      assert bytes == [bytes[0]] + bytes[1..];
    }
  }

  lemma {:induction false} LowerDigit(c: char)
    ensures HexValue(LowerChar(c)).Some? <==> HexValue(c).Some?
    ensures HexValue(c).Some? ==> HexValue(c).value < 16 && HexDigit(HexValue(c).value) == LowerChar(c)
  {
  }

  lemma {:induction false} DigitIsHex(n: nat)
    requires n < 16
    ensures HexValue(HexDigit(n)) == Some(n)
  {
  }

  lemma {:induction false} NoByteIsOther(a: char, b: char, byte: Octet)
    requires HexDigit(byte / 16) == LowerChar(a) && HexDigit(byte % 16) == LowerChar(b)
    ensures HexValue(a).Some? && HexValue(b).Some?
  {
    LowerDigit(a);
    LowerDigit(b);
    DigitIsHex(byte / 16);
    DigitIsHex(byte % 16);
  }

  lemma {:induction false} ByteOfPair(a: char, b: char)
    requires HexValue(a).Some? && HexValue(b).Some?
    ensures var byte := Stored(ParseHex([a, b]));
            HexDigit(byte / 16) == LowerChar(a) && HexDigit(byte % 16) == LowerChar(b)
  {
    LowerDigit(a);
    LowerDigit(b);
    ParsePair(a, b);
    Nibbles(HexValue(a).value, HexValue(b).value);
  }

  lemma {:induction false} Nibbles(high: nat, low: nat)
    requires high < 16 && low < 16
    ensures var byte := Stored(Some(high * 16 + low)); byte / 16 == high && byte % 16 == low
  {
  }

  /** Two characters come back, in lower case, exactly when both are hex digits. */
  lemma {:induction false} PairFromByte(a: char, b: char)
    ensures var byte := Stored(ParseHex([a, b]));
            HexDigit(byte / 16) == LowerChar(a) && HexDigit(byte % 16) == LowerChar(b) <==>
            HexValue(a).Some? && HexValue(b).Some?
  {
    var byte := Stored(ParseHex([a, b]));
    if HexValue(a).Some? && HexValue(b).Some? {
      ByteOfPair(a, b);
    } else if HexDigit(byte / 16) == LowerChar(a) && HexDigit(byte % 16) == LowerChar(b) {
      NoByteIsOther(a, b, byte);
    }
  }

  lemma {:induction false} LowerPair(h: string)
    requires |h| >= 2
    ensures Lower(h) == [LowerChar(h[0]), LowerChar(h[1])] + Lower(h[2..])
    ensures AllHex(h) <==> HexValue(h[0]).Some? && HexValue(h[1]).Some? && AllHex(h[2..])
  {
    assert h[1..][1..] == h[2..];
    assert forall i :: 2 <= i < |h| ==> h[i] == h[2..][i - 2];
  }

  lemma {:induction false} PairsEqual(a: char, b: char, s: string, c: char, d: char, t: string)
    ensures [a, b] + s == [c, d] + t <==> a == c && b == d && s == t
  {
    var left, right := [a, b] + s, [c, d] + t;
    assert left[2..] == s && right[2..] == t && left[0] == a && left[1] == b && right[0] == c && right[1] == d;
  }

  /** A hex string comes back, in lower case, exactly when it is hex digits, two for each byte. */
  lemma {:induction false} HexFromBytes(h: string)
    ensures ToHex(FromHex(h)) == Lower(h) <==> |h| % 2 == 0 && AllHex(h)
    decreases |h|
  {
    if |h| >= 2 {
      HexFromBytes(h[2..]);
      assert h[..2] == [h[0], h[1]];
      var byte: int := Stored(ParseHex([h[0], h[1]]));
      var first, rest := FromHex(h)[0], FromHex(h)[1..];
      assert first == byte && rest == FromHex(h[2..]);
      LowerPair(h);
      PairFromByte(h[0], h[1]);
      PairsEqual(HexDigit(byte / 16), HexDigit(byte % 16), ToHex(rest), LowerChar(h[0]), LowerChar(h[1]), Lower(h[2..]));
    }
  }

  // ---------------------------------------------------------------- heads (section 3 of RFC 8949)

  /** `cborHead`; the four-byte form is of the length's low 32 bits. */
  function Head(major: nat, len: nat): (head: seq<Octet>)
    requires major < 8
    ensures |head| == if len < 24 then 1 else if len < 0x100 then 2 else if len < 0x1_0000 then 3 else 5
  {
    var m := major * 32;
    if len < 24 then [m + len]
    else if len < 0x100 then [m + 24, len]
    else if len < 0x1_0000 then [m + 25, len / 0x100, len % 0x100]
    else [m + 26] + U32(len % TWO_32)
  }

  /** A head as the standard reads it: the major type, the argument, and how many bytes it took. */
  function ReadHead(bytes: seq<Octet>): Option<(nat, nat, nat)> {
    if bytes == [] then None
    else
      var major, info := bytes[0] / 32, bytes[0] % 32;
      if info < 24 then Some((major, info, 1))
      else if info == 24 && |bytes| >= 2 then Some((major, bytes[1], 2))
      else if info == 25 && |bytes| >= 3 then Some((major, Shifted(bytes[1], bytes[2]), 3))
      else if info == 26 && |bytes| >= 5 then Some((major, FromU32(bytes[1..5]), 5))
      else if info == 27 && |bytes| >= 9 then Some((major, FromU32(bytes[1..5]) * TWO_32 + FromU32(bytes[5..9]), 9))
      else None
  }

  lemma {:induction false} InitialByte(major: nat, info: nat)
    requires major < 8 && info < 32
    ensures (major * 32 + info) / 32 == major && (major * 32 + info) % 32 == info
  {
  }

  lemma {:induction false} ShortHeadReadsBack(major: nat, len: nat, rest: seq<Octet>)
    requires major < 8 && len < 0x1_0000
    ensures ReadHead(Head(major, len) + rest) == Some((major, len, |Head(major, len)|))
  {
    var bytes := Head(major, len) + rest;
    if len < 24 {
      InitialByte(major, len);
    } else if len < 0x100 {
      InitialByte(major, 24);
      assert bytes[0] == major * 32 + 24 && bytes[1] == len;
    } else {
      InitialByte(major, 25);
      assert bytes[0] == major * 32 + 25 && bytes[1] == len / 0x100 && bytes[2] == len % 0x100;
    }
  }

  lemma {:induction false} LongHeadReads(major: nat, len: nat, rest: seq<Octet>)
    requires major < 8 && len >= 0x1_0000
    ensures ReadHead(Head(major, len) + rest) == Some((major, len % TWO_32, 5)) && |Head(major, len)| == 5
  {
    var bytes := Head(major, len) + rest;
    InitialByte(major, 26);
    assert bytes[0] == major * 32 + 26;
    assert bytes[1..5] == U32(len % TWO_32);
    U32RoundTrip(len % TWO_32);
  }

  /** The head is read back, whatever follows it, exactly when the length fits in 32 bits. */
  lemma {:induction false} HeadReadsBack(major: nat, len: nat, rest: seq<Octet>)
    requires major < 8
    ensures ReadHead(Head(major, len) + rest) == Some((major, len, |Head(major, len)|)) <==> len < TWO_32
  {
    if len < 0x1_0000 {
      ShortHeadReadsBack(major, len, rest);
    } else {
      LongHeadReads(major, len, rest);
      WrapsBeyond(len);
    }
  }

  lemma {:induction false} WrapsBeyond(len: nat)
    ensures len % TWO_32 == len <==> len < TWO_32
  {
  }

  /** What a head of each size can say. */
  lemma {:induction false} HeadSays(other: seq<Octet>)
    requires ReadHead(other).Some?
    ensures var (major, len, taken) := ReadHead(other).value;
            taken <= |other| && (taken == 1 || taken == 2 || taken == 3 || taken == 5 || taken == 9) &&
            (taken == 1 ==> len < 24) && (taken == 2 ==> len < 0x100) && (taken == 3 ==> len < 0x1_0000)
  {
  }

  /** Section 4.2.1 of RFC 8949: no other bytes that read as this head are fewer. */
  lemma {:induction false} HeadIsShortest(major: nat, len: nat, other: seq<Octet>)
    requires major < 8 && len < TWO_32
    requires ReadHead(other).Some? && ReadHead(other).value.0 == major && ReadHead(other).value.1 == len
    ensures |Head(major, len)| <= ReadHead(other).value.2 <= |other|
    ensures ReadHead(other).value.2 == |Head(major, len)| ==> Head(major, len) <= other
  {
    HeadSays(other);
    if ReadHead(other).value.2 == |Head(major, len)| { SameHead(other); }
  }

  /** The bytes a reader takes for a head that is no longer than it must be are those `cborHead` writes. */
  lemma {:induction false} SameHead(other: seq<Octet>)
    requires ReadHead(other).Some? && ReadHead(other).value.0 < 8 && ReadHead(other).value.1 < TWO_32
    requires ReadHead(other).value.2 == |Head(ReadHead(other).value.0, ReadHead(other).value.1)|
    ensures Head(ReadHead(other).value.0, ReadHead(other).value.1) <= other
  {
    var (major, len, taken) := ReadHead(other).value;
    HeadSays(other);
    if taken == 5 {
      LongHeadSame(other, major, len);
    } else {
      ShortHeadSame(other, major, len, taken);
    }
  }

  lemma {:induction false} LongHeadRead(other: seq<Octet>, major: nat, len: nat)
    requires ReadHead(other) == Some((major, len, 5))
    ensures |other| >= 5 && other[0] == major * 32 + 26 && FromU32(other[1..5]) == len
  {
    var b: int := other[0];
    assert b == b / 32 * 32 + b % 32;
  }

  lemma {:induction false} LongHeadSame(other: seq<Octet>, major: nat, len: nat)
    requires major < 8 && 0x1_0000 <= len < TWO_32 && ReadHead(other) == Some((major, len, 5))
    ensures Head(major, len) <= other
  {
    LongHeadRead(other, major, len);
    var four := other[1..5];
    U32Unique(four);
    assert len % TWO_32 == len && U32(len) == four;
    assert [other[0]] + four == other[..5];
  }

  lemma {:induction false} ShortHeadSame(other: seq<Octet>, major: nat, len: nat, taken: nat)
    requires major < 8 && len < 0x1_0000 && taken == |Head(major, len)| && ReadHead(other) == Some((major, len, taken))
    ensures Head(major, len) <= other
  {
    var b: int := other[0];
    assert b == b / 32 * 32 + b % 32;
    if taken == 3 {
      var high: int, low: int := other[1], other[2];
      assert Shifted(high, low) / 0x100 == high && Shifted(high, low) % 0x100 == low;
    }
  }

  // ---------------------------------------------------------------- Sig_structure (section 4.4 of RFC 9052)

  const CONTEXT: seq<Octet> := [0x53, 0x69, 0x67, 0x6e, 0x61, 0x74, 0x75, 0x72, 0x65, 0x31]

  const BYTES := 2
  const TEXT := 3

  /** A byte or text string: its head and its content. */
  function Item(major: nat, content: seq<Octet>): seq<Octet>
    requires major < 8
  {
    Head(major, |content|) + content
  }

  /** `encodeSigStructure`: an array of the context, the protected header, no external data, and the payload. */
  function SigStructure(protected: seq<Octet>, payload: seq<Octet>): seq<Octet> {
    [0x84] + (Item(TEXT, CONTEXT) + (Item(BYTES, protected) + ([0x40] + Item(BYTES, payload))))
  }

  lemma {:induction false} ConcatCons(first: seq<Octet>, rest: seq<seq<Octet>>)
    ensures Concat([first] + rest) == first + Concat(rest)
  {
    assert ([first] + rest)[1..] == rest;
  }

  lemma {:induction false} ConcatItem(major: nat, content: seq<Octet>, rest: seq<seq<Octet>>)
    requires major < 8
    ensures Concat([Head(major, |content|), content] + rest) == Item(major, content) + Concat(rest)
  {
    ConcatCons(content, rest);
    ConcatCons(Head(major, |content|), [content] + rest);
    assert [Head(major, |content|)] + ([content] + rest) == [Head(major, |content|), content] + rest;
    Assoc(Head(major, |content|), content, Concat(rest));
  }

  lemma {:induction false} PartsAreStructure(protected: seq<Octet>, payload: seq<Octet>)
    ensures Concat([[0x84], Head(TEXT, |CONTEXT|), CONTEXT, Head(BYTES, |protected|), protected, [0x40],
                    Head(BYTES, |payload|), payload]) == SigStructure(protected, payload)
  {
    var three := [Head(BYTES, |payload|), payload];
    assert three + [] == three && Item(BYTES, payload) + [] == Item(BYTES, payload);
    ConcatItem(BYTES, payload, []);
    var two := [[0x40]] + three;
    ConcatCons([0x40], three);
    ConcatItem(BYTES, protected, two);
    var one := [Head(BYTES, |protected|), protected] + two;
    ConcatItem(TEXT, CONTEXT, one);
    ConcatCons([0x84], [Head(TEXT, |CONTEXT|), CONTEXT] + one);
    assert [[0x84]] + ([Head(TEXT, |CONTEXT|), CONTEXT] + one) ==
      [[0x84], Head(TEXT, |CONTEXT|), CONTEXT, Head(BYTES, |protected|), protected, [0x40], Head(BYTES, |payload|), payload];
  }

  method EncodeSigStructure(protected: seq<Octet>, payload: seq<Octet>) returns (bytes: seq<Octet>)
    ensures bytes == SigStructure(protected, payload)
  {
    var parts := [
      [0x84], Head(TEXT, |CONTEXT|), CONTEXT, Head(BYTES, |protected|), protected, [0x40], Head(BYTES, |payload|), payload];
    bytes := ConcatBytes(parts);
    PartsAreStructure(protected, payload);
  }

  /** The content of the string the bytes begin with, and what follows it. */
  function ReadItem(major: nat, bytes: seq<Octet>): Option<(seq<Octet>, seq<Octet>)> {
    match ReadHead(bytes)
    case None => None
    case Some((m, len, taken)) =>
      if m == major && taken + len <= |bytes| then Some((bytes[taken..taken + len], bytes[taken + len..])) else None
  }

  /** The octets of an ASCII text. */
  function Ascii(text: string): seq<int> {
    seq(|text|, i requires 0 <= i < |text| => text[i] as int)
  }

  /**
    * A reader of the structure: the protected header and the payload, if the bytes are just an array of four
    * of the text "Signature1", a byte string, an empty byte string and a byte string.
    */
  function ReadSigStructure(bytes: seq<Octet>): Option<(seq<Octet>, seq<Octet>)> {
    if bytes == [] || bytes[0] != 4 * 32 + 4 then None
    else
      match ReadItem(3, bytes[1..])
      case None => None
      case Some((context, afterContext)) =>
        match ReadItem(2, afterContext)
        case None => None
        case Some((protected, afterProtected)) =>
          match ReadItem(2, afterProtected)
          case None => None
          case Some((external, afterExternal)) =>
            match ReadItem(2, afterExternal)
            case None => None
            case Some((payload, rest)) =>
              if context == Ascii("Signature1") && external == [] && rest == [] then Some((protected, payload)) else None
  }

  lemma {:induction false} ItemReadsBack(major: nat, content: seq<Octet>, rest: seq<Octet>)
    requires major < 8 && |content| < TWO_32
    ensures ReadItem(major, Item(major, content) + rest) == Some((content, rest))
  {
    var head := Head(major, |content|);
    HeadReadsBack(major, |content|, content + rest);
    Assoc(head, content, rest);
    var bytes := head + (content + rest);
    assert bytes[|head|..|head| + |content|] == content && bytes[|head| + |content|..] == rest;
  }

  lemma {:induction false} ContextIs()
    ensures CONTEXT == Ascii("Signature1")
  {
    var octets := Ascii("Signature1");
    assert |octets| == |CONTEXT| && octets[0] == 83 && octets[1] == 105 && octets[2] == 103 && octets[3] == 110;
    assert octets[4] == 97 && octets[5] == 116 && octets[6] == 117 && octets[7] == 114 && octets[8] == 101;
    assert octets[9] == 49;
  }

  /** Both strings are read back from the structure. */
  lemma {:induction false} SigStructureReadsBack(protected: seq<Octet>, payload: seq<Octet>)
    requires |protected| < TWO_32 && |payload| < TWO_32
    ensures ReadSigStructure(SigStructure(protected, payload)) == Some((protected, payload))
  {
    var last := Item(BYTES, payload);
    var external := [0x40] + last;
    ItemReadsBack(TEXT, CONTEXT, Item(BYTES, protected) + external);
    ItemReadsBack(BYTES, protected, external);
    ItemReadsBack(BYTES, [], last);
    assert Item(BYTES, []) == [0x40];
    ItemReadsBack(BYTES, payload, []);
    assert last + [] == last;
    var tail := Item(TEXT, CONTEXT) + (Item(BYTES, protected) + external);
    ContextIs();
    assert ([0x84] + tail)[1..] == tail;
  }

  /** What is signed for one header and payload is signed for no other. */
  lemma {:induction false} SigStructureIsInjective(
      protected: seq<Octet>, payload: seq<Octet>, otherProtected: seq<Octet>, otherPayload: seq<Octet>)
    requires |protected| < TWO_32 && |payload| < TWO_32 && |otherProtected| < TWO_32 && |otherPayload| < TWO_32
    ensures SigStructure(protected, payload) == SigStructure(otherProtected, otherPayload) <==>
            protected == otherProtected && payload == otherPayload
  {
    SigStructureReadsBack(protected, payload);
    SigStructureReadsBack(otherProtected, otherPayload);
  }
}
