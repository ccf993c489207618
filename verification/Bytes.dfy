/** Bytes and big-endian numbers, shared by the wire formats and the stream models. */
module Bytes {

  type Byte = i: int | 0 <= i < 256

  const U32: nat := 0x1_0000_0000

  /** 256 to the power k. */
  function Radix(k: nat): (r: nat)
    ensures r >= 1
  {
    if k == 0 then 1 else 256 * Radix(k - 1)
  }

  /** The k low-order bytes of v, most significant first. */
  function BigEndian(v: nat, k: nat): (b: seq<Byte>)
    ensures |b| == k
  {
    if k == 0 then [] else BigEndian(v / 256, k - 1) + [v % 256]
  }

  /** The number a big-endian byte string denotes. */
  function Value(b: seq<Byte>): nat {
    if b == [] then 0 else Value(b[..|b| - 1]) * 256 + b[|b| - 1]
  }

  lemma QuotientBelow(v: nat, r: nat)
    requires v < 256 * r
    ensures v / 256 < r
  {
  }

  lemma ValueOfSnoc(b: seq<Byte>, x: Byte)
    ensures Value(b + [x]) == Value(b) * 256 + x
  {
    assert (b + [x])[..|b|] == b;
  }

  lemma {:induction false} ValueOfBigEndian(v: nat, k: nat)
    requires v < Radix(k)
    ensures Value(BigEndian(v, k)) == v
  {
    if k > 0 {
      var q := v / 256;
      QuotientBelow(v, Radix(k - 1));
      ValueOfBigEndian(q, k - 1);
      ValueOfSnoc(BigEndian(q, k - 1), v % 256);
    }
  }

  lemma {:induction false} BigEndianOfValue(b: seq<Byte>)
    ensures Value(b) < Radix(|b|)
    ensures BigEndian(Value(b), |b|) == b
  {
    if b != [] {
      BigEndianOfValue(b[..|b| - 1]);
      assert b == b[..|b| - 1] + [b[|b| - 1]];
    }
  }

  lemma Radix4()
    ensures Radix(2) == 0x1_0000 && Radix(4) == U32
  {
  }

  lemma Assoc<T>(a: seq<T>, b: seq<T>, c: seq<T>)
    ensures (a + b) + c == a + (b + c)
  {
  }

  /** Every segment of s, in order, as one byte string. */
  function Concat<T>(s: seq<seq<T>>): seq<T> {
    if s == [] then [] else s[0] + Concat(s[1..])
  }

  lemma {:induction false} ConcatSplit<T>(a: seq<seq<T>>, b: seq<seq<T>>)
    ensures Concat(a + b) == Concat(a) + Concat(b)
  {
    if a == [] {
      assert a + b == b;
    } else {
      assert (a + b)[1..] == a[1..] + b;
      ConcatSplit(a[1..], b);
    }
  }

  lemma ConcatOne<T>(x: seq<T>)
    ensures Concat([x]) == x
  {
    assert [x][1..] == [];
  }
}
