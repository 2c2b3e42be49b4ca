/** Bit strings, most significant bit first, and the reader that scans a buffer of bytes. */
module VlcBits {
  import opened Division
  import opened Powers

  type Bit = b: nat | b < 2

  /** `v` shifted right by `n`. */
  function High(v: nat, n: nat): nat { Quotient(v, Pow2(n)) }

  function Value(s: seq<Bit>): nat {
    if s == [] then 0 else 2 * Value(s[..|s| - 1]) + s[|s| - 1]
  }

  /** The `n` low bits of `v`. */
  function BitsOf(v: nat, n: nat): (s: seq<Bit>)
    ensures |s| == n
  {
    if n == 0 then [] else BitsOf(v / 2, n - 1) + [v % 2]
  }

  lemma {:induction false} ValueOfBitsOf(v: nat, n: nat)
    requires v < Pow2(n)
    ensures Value(BitsOf(v, n)) == v
  {
    if n > 0 {
      ValueOfBitsOf(v / 2, n - 1);
      assert BitsOf(v, n)[..n - 1] == BitsOf(v / 2, n - 1);
    }
  }

  lemma {:induction false} ValueBound(s: seq<Bit>)
    ensures Value(s) < Pow2(|s|)
  {
    if s != [] {
      ValueBound(s[..|s| - 1]);
    }
  }

  lemma Shift(p: nat, v: nat, f: nat, x: nat)
    ensures 2 * (p * v + f) + x == (2 * p) * v + (2 * f + x)
  {
  }

  lemma {:induction false} ValueOfConcat(s: seq<Bit>, t: seq<Bit>)
    ensures Value(s + t) == Pow2(|t|) * Value(s) + Value(t)
  {
    if t == [] {
      assert s + t == s;
    } else {
      var front := t[..|t| - 1];
      ValueOfConcat(s, front);
      assert (s + t)[..|s + t| - 1] == s + front;
      Shift(Pow2(|front|), Value(s), Value(front), t[|t| - 1]);
    }
  }

  /** The bits of a buffer: of every element only the low eight count. */
  function BitAt(buffer: seq<int>, p: nat): Bit
    requires p < 8 * |buffer|
  {
    (buffer[p / 8] / Pow2(7 - p % 8)) % 2
  }

  function Stream(buffer: seq<int>): (s: seq<Bit>)
    ensures |s| == 8 * |buffer|
    ensures forall p :: 0 <= p < |s| ==> s[p] == BitAt(buffer, p)
  {
    seq<Bit>(8 * |buffer|, p requires 0 <= p < 8 * |buffer| => BitAt(buffer, p))
  }

  /** The mask moves to the next lower bit. */
  function HalfMask(mask: nat, position: nat): (r: nat)
    requires mask == Pow2(position)
    ensures r == mask / 2 && (position > 0 ==> r == Pow2(position - 1))
  {
    mask / 2
  }

  /** Bitwise and with a mask that has a single bit. */
  function AndMask(b: int, mask: nat): nat
    requires mask > 0
  {
    if (b / mask) % 2 == 1 then mask else 0
  }

  /** The position of the next bit, kept as a byte index, a bit number and that bit's mask. */
  class BitReader {
    var bytecount: nat
    var bitposition: int
    var mask: nat

    predicate Valid()
      reads this
    {
      0 <= bitposition < 8 && mask == Pow2(bitposition)
    }

    function Pos(): nat
      requires Valid()
      reads this
    {
      8 * bytecount + (7 - bitposition)
    }

    constructor ()
      ensures Valid() && Pos() == 0
    {
      bytecount, bitposition, mask := 0, 7, 0x80;
      new;
      SmallPowers();
    }

    /** Back to the first bit; this is the branch of the source that `init` selects. */
    method Rewind() returns (v: nat)
      modifies this
      ensures Valid() && Pos() == 0 && v == 0
    {
      SmallPowers();
      bytecount, bitposition, mask := 0, 7, 0x80;
      v := 0;
    }

    /** The value of the next `n` bits; the position moves past them only on `flush`. */
    method GetBits(n: nat, flush: bool, buffer: array<int>) returns (v: nat)
      requires Valid() && Pos() + n <= 8 * buffer.Length
      modifies this
      ensures Valid() && Pos() == old(Pos()) + (if flush then n else 0)
      ensures v == Value(Stream(buffer[..])[old(Pos())..old(Pos()) + n])
    {
      hide BitAt, AndMask;
      var tmpByte, tmpPosition, tmpMask := bytecount, bitposition, mask;
      ghost var s, start := Stream(buffer[..]), Pos();
      v := 0;
      var i := 0;
      while i < n
        invariant i <= n && 0 <= tmpPosition < 8 && tmpMask == Pow2(tmpPosition)
        invariant 8 * tmpByte + (7 - tmpPosition) == start + i
        invariant v == Value(s[start..start + i])
        invariant Valid() && Pos() == start
      {
        NextBit(buffer[..], tmpByte, tmpPosition);
        ghost var seen := s[start..start + i + 1];
        assert seen[..i] == s[start..start + i];
        var temp := AndMask(buffer[tmpByte], tmpMask) / Pow2(tmpPosition);
        assert temp == s[start + i];
        v := 2 * v + temp;
        tmpMask := HalfMask(tmpMask, tmpPosition);
        tmpPosition := tmpPosition - 1;
        if tmpPosition == -1 {
          SmallPowers();
          tmpPosition, tmpByte, tmpMask := 7, tmpByte + 1, 0x80;
        }
        i := i + 1;
      }
      if flush {
        bytecount, bitposition, mask := tmpByte, tmpPosition, tmpMask;
      }
    }
  }

  lemma DivSelf(m: nat)
    requires m > 0
    ensures m / m == 1 && 0 / m == 0
  {
  }

  /** Masking the byte and shifting the result down yields the bit itself. */
  lemma NextBit(buffer: seq<int>, byte: nat, position: nat)
    requires byte < |buffer| && position < 8
    ensures AndMask(buffer[byte], Pow2(position)) / Pow2(position) == BitAt(buffer, 8 * byte + (7 - position))
  {
    var p := 8 * byte + (7 - position);
    assert p / 8 == byte && p % 8 == 7 - position;
    DivSelf(Pow2(position));
  }
}
