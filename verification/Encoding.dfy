/** Byte strings, the fixed-width big-endian integers of the wire formats, and the
    length prefix every encoding of the daemon is built from. */
module Encoding {

  newtype byte = x: int | 0 <= x < 256

  type Bytes = seq<byte>

  const TWO_8: int := 0x100
  const TWO_16: int := 0x1_0000
  const TWO_24: int := 0x100_0000
  const TWO_32: int := 0x1_0000_0000
  const TWO_64: int := 0x1_0000_0000_0000_0000

  datatype Option<+T> = None | Some(value: T)

  /** A string constant of the source as the bytes Go stores for it. */
  function Ascii(s: string): (r: Bytes)
    ensures |r| == |s|
    ensures forall i :: 0 <= i < |s| ==> r[i] as int == s[i] as int % 256
  {
    seq(|s|, i requires 0 <= i < |s| => (s[i] as int % 256) as byte)
  }

  /** The four big-endian bytes of `uint32(n)`; the conversion truncates. */
  function U32(n: nat): (r: Bytes)
    ensures |r| == 4
  {
    var m := n % TWO_32;
    [(m / TWO_24) as byte, (m / TWO_16 % TWO_8) as byte, (m / TWO_8 % TWO_8) as byte, (m % TWO_8) as byte]
  }

  /** `binary.BigEndian.Uint32`. */
  function FromU32(b: Bytes): (n: nat)
    requires |b| == 4
    ensures n < TWO_32
  {
    b[0] as int * TWO_24 + b[1] as int * TWO_16 + b[2] as int * TWO_8 + b[3] as int
  }

  /** Appending a low byte and taking it off again. */
  lemma LowByte(q: nat, r: nat)
    requires r < TWO_8
    ensures (q * TWO_8 + r) / TWO_8 == q && (q * TWO_8 + r) % TWO_8 == r
  {
  }

  lemma U32RoundTrip(n: nat)
    ensures FromU32(U32(n)) == n % TWO_32
  {
    var m := n % TWO_32;
    assert m / TWO_16 == (m / TWO_24) * TWO_8 + m / TWO_16 % TWO_8 by {
      assert m / TWO_24 == (m / TWO_16) / TWO_8;
    }
    assert m / TWO_8 == (m / TWO_16) * TWO_8 + m / TWO_8 % TWO_8 by {
      assert m / TWO_16 == (m / TWO_8) / TWO_8;
    }
    assert m == (m / TWO_8) * TWO_8 + m % TWO_8;
  }

  lemma Shifts(n: nat)
    ensures n / TWO_16 == n / TWO_8 / TWO_8 && n / TWO_24 == n / TWO_16 / TWO_8
  {
  }

  lemma U32OfFromU32(b: Bytes)
    requires |b| == 4
    ensures U32(FromU32(b)) == b
  {
    var n3 := (b[0] as int * TWO_8 + b[1] as int) * TWO_8 + b[2] as int;
    var n := n3 * TWO_8 + b[3] as int;
    assert FromU32(b) == n && n % TWO_32 == n;
    LowByte(n3, b[3] as int);
    LowByte(b[0] as int * TWO_8 + b[1] as int, b[2] as int);
    LowByte(b[0] as int, b[1] as int);
    Shifts(n);
  }

  lemma U32Small(n: nat)
    requires n < TWO_32
    ensures FromU32(U32(n)) == n
  {
    U32RoundTrip(n);
  }

  /** The eight big-endian bytes of a `uint64`. */
  function U64(n: nat): (r: Bytes)
    ensures |r| == 8
  {
    U32(n / TWO_32) + U32(n)
  }

  lemma U32Injective(m: nat, n: nat)
    requires U32(m) == U32(n)
    ensures m % TWO_32 == n % TWO_32
  {
    U32RoundTrip(m);
    U32RoundTrip(n);
  }

  lemma SameWords(m: nat, n: nat)
    requires m < TWO_64 && n < TWO_64
    requires m / TWO_32 % TWO_32 == n / TWO_32 % TWO_32 && m % TWO_32 == n % TWO_32
    ensures m == n
  {
    assert m / TWO_32 < TWO_32 && n / TWO_32 < TWO_32;
  }

  lemma U64Injective(m: nat, n: nat)
    requires m < TWO_64 && n < TWO_64
    requires U64(m) == U64(n)
    ensures m == n
  {
    assert U32(m / TWO_32) == U64(m)[..4] == U64(n)[..4] == U32(n / TWO_32);
    assert U32(m) == U64(m)[4..] == U64(n)[4..] == U32(n);
    U32Injective(m / TWO_32, n / TWO_32);
    U32Injective(m, n);
    SameWords(m, n);
  }

  /** The number a string of bytes stands for, the most significant byte first. */
  function Numeral(b: Bytes): nat {
    if b == [] then 0 else Numeral(b[..|b| - 1]) * TWO_8 + b[|b| - 1] as nat
  }

  lemma NumeralAppend(a: Bytes, x: byte)
    ensures Numeral(a + [x]) == Numeral(a) * TWO_8 + x as nat
  {
    assert (a + [x])[..|a|] == a;
  }

  lemma NumeralConcat(a: Bytes, b: Bytes)
    requires |b| == 4
    ensures Numeral(a + b) == Numeral(a) * TWO_32 + FromU32(b)
  {
    NumeralAppend(a, b[0]);
    NumeralAppend(a + [b[0]], b[1]);
    NumeralAppend(a + [b[0]] + [b[1]], b[2]);
    NumeralAppend(a + [b[0]] + [b[1]] + [b[2]], b[3]);
    assert a + [b[0]] + [b[1]] + [b[2]] + [b[3]] == a + b;
  }

  /** Both words are big-endian: the bytes stand for the number, truncated to their width. */
  lemma BigEndian(n: nat)
    ensures Numeral(U32(n)) == n % TWO_32 && Numeral(U64(n)) == n % TWO_64
  {
    U32RoundTrip(n);
    U32RoundTrip(n / TWO_32);
    NumeralConcat([], U32(n));
    NumeralConcat([], U32(n / TWO_32));
    NumeralConcat(U32(n / TWO_32), U32(n));
    assert [] + U32(n) == U32(n) && [] + U32(n / TWO_32) == U32(n / TWO_32);
    WordsOf(n);
  }

  lemma U64Numeral(n: nat)
    requires n < TWO_64
    ensures Numeral(U64(n)) == n
  {
    BigEndian(n);
  }

  lemma WordsOf(n: nat)
    ensures n / TWO_32 % TWO_32 * TWO_32 + n % TWO_32 == n % TWO_64
  {
    var h, l := n / TWO_32, n % TWO_32;
    var hh, hl := h / TWO_32, h % TWO_32;
    assert n == (hh * TWO_32 + hl) * TWO_32 + l;
    assert n == hh * TWO_64 + (hl * TWO_32 + l);
    assert 0 <= hl * TWO_32 + l < TWO_64;
  }

  /** A value behind its length prefix. */
  function LP(v: Bytes): (r: Bytes)
    ensures |r| == 4 + |v|
  {
    U32(|v|) + v
  }

  /** Reads one length-prefixed value off the front: the value and the rest. */
  function TakeLP(b: Bytes): (r: Option<(Bytes, Bytes)>)
    ensures r.Some? ==> |r.value.0| < TWO_32 && |b| == 4 + |r.value.0| + |r.value.1|
  {
    if |b| < 4 then None
    else
      var n := FromU32(b[..4]);
      if |b| < 4 + n then None else Some((b[4..4 + n], b[4 + n..]))
  }

  lemma TakeLPOfLP(v: Bytes, rest: Bytes)
    requires |v| < TWO_32
    ensures TakeLP(LP(v) + rest) == Some((v, rest))
  {
    var b := LP(v) + rest;
    assert b[..4] == U32(|v|);
    U32RoundTrip(|v|);
    assert b[4..4 + |v|] == v;
    assert b[4 + |v|..] == rest;
  }

  lemma LPOfTakeLP(b: Bytes)
    requires TakeLP(b).Some?
    ensures b == LP(TakeLP(b).value.0) + TakeLP(b).value.1
  {
    U32OfFromU32(b[..4]);
    assert b == b[..4] + b[4..4 + FromU32(b[..4])] + b[4 + FromU32(b[..4])..];
  }
}
