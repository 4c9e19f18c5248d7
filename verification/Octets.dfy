/** Bytes as integers, and big-endian numbers of a fixed number of bytes. */
module Octets {
  type Octet = x: int | 0 <= x < 0x100

  const TWO_32 := 0x1_0000_0000

  function Shifted(high: nat, low: nat): nat {
    high * 0x100 + low
  }

  /** How many numbers so many bytes tell apart. */
  function Range(bytes: nat): (n: nat)
    ensures n > 0
  {
    if bytes == 0 then 1 else Range(bytes - 1) * 0x100
  }

  function BigEndian(n: nat, bytes: nat): (b: seq<Octet>)
    requires n < Range(bytes)
    ensures |b| == bytes
    decreases bytes, n
  {
    if bytes == 0 then [] else BigEndian(n / 0x100, bytes - 1) + [n % 0x100]
  }

  function FromBigEndian(b: seq<Octet>): (n: nat)
    ensures n < Range(|b|)
  {
    if b == [] then 0 else Shifted(FromBigEndian(b[..|b| - 1]), b[|b| - 1])
  }

  lemma {:induction false} BigEndianRoundTrip(n: nat, bytes: nat)
    requires n < Range(bytes)
    ensures FromBigEndian(BigEndian(n, bytes)) == n
    decreases bytes
  {
    if bytes > 0 {
      BigEndianRoundTrip(n / 0x100, bytes - 1);
      assert BigEndian(n, bytes)[..bytes - 1] == BigEndian(n / 0x100, bytes - 1);
    }
  }

  lemma {:induction false} BigEndianUnique(b: seq<Octet>)
    ensures BigEndian(FromBigEndian(b), |b|) == b
  {
    if b != [] {
      var front, last: int := b[..|b| - 1], b[|b| - 1];
      BigEndianUnique(front);
      var high := FromBigEndian(front);
      assert Shifted(high, last) / 0x100 == high && Shifted(high, last) % 0x100 == last;
    }
  }

  lemma {:induction false} Range4()
    ensures Range(4) == TWO_32
  {
    assert Range(1) == 0x100 && Range(2) == 0x1_0000 && Range(3) == 0x100_0000;
  }

  /** `writeUInt32BE` */
  function U32(n: nat): (bytes: seq<Octet>)
    requires n < TWO_32
    ensures |bytes| == 4
  {
    Range4();
    BigEndian(n, 4)
  }

  /** `readUInt32BE` */
  function FromU32(bytes: seq<Octet>): (n: nat)
    requires |bytes| == 4
    ensures n < TWO_32
  {
    Range4();
    FromBigEndian(bytes)
  }

  lemma {:induction false} U32RoundTrip(n: nat)
    requires n < TWO_32
    ensures FromU32(U32(n)) == n
  {
    Range4();
    BigEndianRoundTrip(n, 4);
  }

  lemma {:induction false} U32Unique(bytes: seq<Octet>)
    requires |bytes| == 4
    ensures U32(FromU32(bytes)) == bytes
  {
    Range4();
    BigEndianUnique(bytes);
  }
}
