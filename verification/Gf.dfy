/** GF(2^8) as the cipher uses it. Sums are named so that proofs can treat them as symbols:
    the lemmas about sums know nothing of multiplication and the others nothing of sums. */
module Gf {
  type Byte = bv8

  function X2(a: Byte, b: Byte): Byte { a ^ b }
  function X3(a: Byte, b: Byte, c: Byte): Byte { a ^ b ^ c }
  function X4(a: Byte, b: Byte, c: Byte, d: Byte): Byte { a ^ b ^ c ^ d }
  function X5(a: Byte, b: Byte, c: Byte, d: Byte, e: Byte): Byte { a ^ b ^ c ^ d ^ e }

  /** Multiplication by x modulo x^8 + x^4 + x^3 + x + 1. */
  function M2(b: Byte): Byte { (b << 1) ^ ((b >> 7) * 0x1B) }
  function M4(b: Byte): Byte { M2(M2(b)) }
  function M8(b: Byte): Byte { M2(M4(b)) }

  lemma Linear2(b: Byte, c: Byte)
    ensures M2(X2(b, c)) == X2(M2(b), M2(c))
  {
  }

  lemma Pairs(a: Byte, b: Byte, c: Byte, d: Byte)
    ensures X4(a, b, c, d) == X2(X2(a, b), X2(c, d))
  {
  }

  lemma Linear4(b: Byte, c: Byte, d: Byte, e: Byte)
    ensures M2(X4(b, c, d, e)) == X4(M2(b), M2(c), M2(d), M2(e))
  {
    hide M2, X2, X4;
    Pairs(b, c, d, e); Pairs(M2(b), M2(c), M2(d), M2(e));
    Linear2(b, c); Linear2(d, e); Linear2(X2(b, c), X2(d, e));
  }

  /** One byte of a mixed column: the coefficients are 2, 3, 1, 1. */
  function Mixed(a: Byte, b: Byte, c: Byte, d: Byte): Byte { X5(M2(a), M2(b), b, c, d) }

  /** One byte of a column mixed twice: the coefficients are 5, 0, 4, 0. */
  function Twice(a: Byte, c: Byte): Byte { X3(M4(a), a, M4(c)) }

  lemma MixedSums(a: Byte, b: Byte, c: Byte, d: Byte, a2: Byte, b2: Byte, c2: Byte, d2: Byte)
    ensures X2(X5(a2, b2, b, c, d), X5(b2, c2, c, d, a)) == X4(a2, c2, a, b)
    ensures X3(X5(b2, c2, c, d, a), X5(c2, d2, d, a, b), X5(d2, a2, a, b, c)) == X3(a2, b2, a)
  {
  }

  lemma Regroup(p: Byte, q: Byte, v: Byte, w: Byte, x: Byte)
    ensures X5(p, q, v, w, x) == X2(X2(p, q), X3(v, w, x))
  {
  }

  lemma Cancels(a: Byte, a2: Byte, b2: Byte, a4: Byte, c4: Byte)
    ensures X2(X4(a4, c4, a2, b2), X3(a2, b2, a)) == X3(a4, a, c4)
  {
  }

  lemma MixedTwice(a: Byte, b: Byte, c: Byte, d: Byte)
    ensures Mixed(Mixed(a, b, c, d), Mixed(b, c, d, a), Mixed(c, d, a, b), Mixed(d, a, b, c)) == Twice(a, c)
  {
    hide M2, X2, X3, X4, X5;
    var u, v, w, x := Mixed(a, b, c, d), Mixed(b, c, d, a), Mixed(c, d, a, b), Mixed(d, a, b, c);
    MixedSums(a, b, c, d, M2(a), M2(b), M2(c), M2(d));
    Linear2(u, v);
    Linear4(M2(a), M2(c), a, b);
    Regroup(M2(u), M2(v), v, w, x);
    Cancels(a, M2(a), M2(b), M4(a), M4(c));
  }

  lemma TwiceSums(a: Byte, c: Byte, a4: Byte, c4: Byte)
    ensures X2(X3(a4, a, c4), X3(c4, c, a4)) == X2(a, c)
  {
  }

  lemma TwiceCancels(a: Byte, a4: Byte, c4: Byte, u4: Byte, v4: Byte)
    requires X2(u4, v4) == X2(a4, c4)
    ensures X3(u4, X3(a4, a, c4), v4) == a
  {
  }

  lemma TwiceTwice(a: Byte, c: Byte)
    ensures Twice(Twice(a, c), Twice(c, a)) == a
  {
    hide M2, X2, X3;
    var u, v := Twice(a, c), Twice(c, a);
    TwiceSums(a, c, M4(a), M4(c));
    Linear2(a, c); Linear2(M2(a), M2(c)); Linear2(u, v); Linear2(M2(u), M2(v));
    TwiceCancels(a, M4(a), M4(c), M4(u), M4(v));
  }

  /** One byte of an unmixed column: the coefficients are 14, 11, 13, 9. */
  function Unmixed(a: Byte, b: Byte, c: Byte, d: Byte): Byte {
    X4(X3(M8(a), M4(a), M2(a)), X3(M8(b), M2(b), b), X3(M8(c), M4(c), c), X2(M8(d), d))
  }

  lemma Triple(a: Byte, b: Byte, c: Byte)
    ensures X3(a, b, c) == X2(X2(a, b), c)
  {
  }

  lemma Linear3(a: Byte, b: Byte, c: Byte)
    ensures M2(X3(a, b, c)) == X3(M2(a), M2(b), M2(c))
  {
    hide M2, X2, X3;
    Triple(a, b, c); Triple(M2(a), M2(b), M2(c));
    Linear2(a, b); Linear2(X2(a, b), c);
  }

  lemma Exchange(a: Byte, b: Byte, c: Byte, d: Byte)
    ensures X2(X2(a, b), X2(c, d)) == X2(X2(a, d), X2(b, c))
  {
  }

  lemma Associate(a: Byte, b: Byte, c: Byte)
    ensures X3(a, c, b) == X2(X2(a, b), c)
    ensures X3(a, b, c) == X2(a, X2(b, c))
  {
  }

  lemma OddSums(a2: Byte, a4: Byte, a8: Byte, c: Byte, c4: Byte, c8: Byte)
    ensures X2(X3(a8, a2, c8), X3(c4, c, a4)) == X2(X3(a8, a4, a2), X3(c8, c4, c))
  {
    hide X2, X3;
    Triple(a8, a2, c8); Triple(c4, c, a4);
    Associate(a8, a2, a4); Associate(c8, c4, c);
    Exchange(X2(a8, a2), c8, X2(c4, c), a4);
  }

  lemma EvenSums(b: Byte, b2: Byte, b4: Byte, b8: Byte, d: Byte, d4: Byte, d8: Byte)
    ensures X3(X3(b8, b2, d8), X3(b4, b, d4), X3(d4, d, b4)) == X2(X3(b8, b2, b), X2(d8, d))
  {
  }

  lemma Split(p: Byte, q: Byte, r: Byte, s: Byte, t: Byte)
    ensures X5(p, q, r, s, t) == X2(X2(p, s), X3(q, r, t)) && X4(p, q, r, s) == X2(X2(p, r), X2(q, s))
  {
  }

  lemma UnmixedSums(a2: Byte, a4: Byte, a8: Byte, b: Byte, b2: Byte, b4: Byte, b8: Byte,
                    c: Byte, c4: Byte, c8: Byte, d: Byte, d4: Byte, d8: Byte)
    ensures X5(X3(a8, a2, c8), X3(b8, b2, d8), X3(b4, b, d4), X3(c4, c, a4), X3(d4, d, b4))
            == X4(X3(a8, a4, a2), X3(b8, b2, b), X3(c8, c4, c), X2(d8, d))
  {
    hide X2, X3, X4, X5;
    OddSums(a2, a4, a8, c, c4, c8);
    EvenSums(b, b2, b4, b8, d, d4, d8);
    Split(X3(a8, a2, c8), X3(b8, b2, d8), X3(b4, b, d4), X3(c4, c, a4), X3(d4, d, b4));
    Split(X3(a8, a4, a2), X3(b8, b2, b), X3(c8, c4, c), X2(d8, d), 0);
  }

  /** Unmixing is mixing after mixing twice. */
  lemma UnmixedIsMixed(a: Byte, b: Byte, c: Byte, d: Byte)
    ensures Unmixed(a, b, c, d) == Mixed(Twice(a, c), Twice(b, d), Twice(c, a), Twice(d, b))
  {
    hide M2, X2, X3, X4, X5;
    Linear3(M4(a), a, M4(c)); Linear3(M4(b), b, M4(d));
    UnmixedSums(M2(a), M4(a), M8(a), b, M2(b), M4(b), M8(b), c, M4(c), M8(c), d, M4(d), M8(d));
  }
}
