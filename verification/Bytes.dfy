/** Byte strings, their big-endian value and the bytewise order used for hashes and storage keys. */
module Bytes {
  type Byte = b: int | 0 <= b < 256
  type Bytes = seq<Byte>

  const WORD_SIZE := 32

  /** A 32-byte word: a hash, a storage key or a storage value. */
  type Word = w: Bytes | |w| == WORD_SIZE witness seq(WORD_SIZE, _ => 0)

  function Pow256(n: nat): (p: nat)
    ensures p > 0
  {
    if n == 0 then 1 else 256 * Pow256(n - 1)
  }

  /** The unsigned integer written big-endian by `w`. */
  function Num(w: Bytes): nat {
    if |w| == 0 then 0 else w[0] * Pow256(|w| - 1) + Num(w[1..])
  }

  /** Bytewise comparison of two strings of one length: the first differing byte decides. */
  predicate LexLess(a: Bytes, b: Bytes)
    requires |a| == |b|
  {
    |a| > 0 && (a[0] < b[0] || (a[0] == b[0] && LexLess(a[1..], b[1..])))
  }

  lemma {:induction false} NumBound(w: Bytes)
    ensures Num(w) < Pow256(|w|)
  {
    if |w| > 0 {
      NumBound(w[1..]);
      assert w[0] * Pow256(|w| - 1) <= 255 * Pow256(|w| - 1) by { ScaleMonotone(w[0], 255, Pow256(|w| - 1)); }
    }
  }

  lemma ScaleMonotone(a: int, b: int, p: nat)
    requires a <= b
    ensures a * p <= b * p
  {
  }

  /** Byte order is numeric order. */
  lemma {:induction false} LexIsNumeric(a: Bytes, b: Bytes)
    requires |a| == |b|
    ensures LexLess(a, b) <==> Num(a) < Num(b)
    ensures a == b <==> Num(a) == Num(b)
  {
    if |a| > 0 {
      LexIsNumeric(a[1..], b[1..]);
      var p := Pow256(|a| - 1);
      NumBound(a[1..]);
      NumBound(b[1..]);
      assert a == [a[0]] + a[1..] && b == [b[0]] + b[1..];
      if a[0] < b[0] {
        HighByteDecides(a[0], b[0], Num(a[1..]), Num(b[1..]), p);
      } else if b[0] < a[0] {
        HighByteDecides(b[0], a[0], Num(b[1..]), Num(a[1..]), p);
      }
    }
  }

  lemma HighByteDecides(x: int, y: int, low: nat, low': nat, p: nat)
    requires x < y && low < p
    ensures x * p + low < y * p + low'
  {
    ScaleMonotone(x + 1, y, p);
    assert (x + 1) * p == x * p + p;
  }
}
