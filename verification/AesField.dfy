/** Column mixing through the product table, and why unmixing undoes it. */
module AesField {
  import opened AesTables
  import opened Gf

  datatype Col = Col(a: AesTables.Byte, b: AesTables.Byte, c: AesTables.Byte, d: AesTables.Byte)

  function MixCol(c: Col): Col {
    Col(X4(GfMul(c.a).by2, GfMul(c.b).by3, c.c, c.d),
        X4(c.a, GfMul(c.b).by2, GfMul(c.c).by3, c.d),
        X4(c.a, c.b, GfMul(c.c).by2, GfMul(c.d).by3),
        X4(GfMul(c.a).by3, c.b, c.c, GfMul(c.d).by2))
  }

  function InvMixCol(c: Col): Col {
    Col(X4(GfMul(c.a).by14, GfMul(c.b).by11, GfMul(c.c).by13, GfMul(c.d).by9),
        X4(GfMul(c.a).by9, GfMul(c.b).by14, GfMul(c.c).by11, GfMul(c.d).by13),
        X4(GfMul(c.a).by13, GfMul(c.b).by9, GfMul(c.c).by14, GfMul(c.d).by11),
        X4(GfMul(c.a).by11, GfMul(c.b).by13, GfMul(c.c).by9, GfMul(c.d).by14))
  }

  /** Every entry of the product table is the product it stands for. */
  lemma TableIsGf(b: Gf.Byte)
    ensures GfMul(b) == P(M2(b), X2(M2(b), b), X2(M8(b), b), X3(M8(b), M2(b), b), X3(M8(b), M4(b), b), X3(M8(b), M4(b), M2(b)))
  {
  }

  /** The two substitution tables are inverse permutations of the bytes. */
  lemma SboxInverse(b: AesTables.Byte)
    ensures InvSbox(Sbox(b)) == b && Sbox(InvSbox(b)) == b
  {
    InvSboxUndoes(b);
    InvSboxUndone(b);
    hide Sbox, InvSbox;
  }

  lemma InvSboxUndoes(b: AesTables.Byte)
    ensures InvSbox(Sbox(b)) == b
  {
  }

  lemma InvSboxUndone(b: AesTables.Byte)
    ensures Sbox(InvSbox(b)) == b
  {
  }

  lemma Rotate(p: Gf.Byte, q: Gf.Byte, r: Gf.Byte, s: Gf.Byte)
    ensures X4(p, q, r, s) == X4(s, p, q, r)
  {
  }

  lemma Flatten(a2: Gf.Byte, b2: Gf.Byte, b: Gf.Byte, c: Gf.Byte, d: Gf.Byte)
    ensures X4(a2, X2(b2, b), c, d) == X5(a2, b2, b, c, d)
  {
  }

  lemma MixColIs(c: Col)
    ensures MixCol(c) == Col(Mixed(c.a, c.b, c.c, c.d), Mixed(c.b, c.c, c.d, c.a), Mixed(c.c, c.d, c.a, c.b), Mixed(c.d, c.a, c.b, c.c))
  {
    hide GfMul, M2, X2, X3, X4, X5;
    TableIsGf(c.a); TableIsGf(c.b); TableIsGf(c.c); TableIsGf(c.d);
    Rotate(M2(c.b), X2(M2(c.c), c.c), c.d, c.a);
    Rotate(M2(c.c), X2(M2(c.d), c.d), c.a, c.b);
    Rotate(c.b, M2(c.c), X2(M2(c.d), c.d), c.a);
    Rotate(X2(M2(c.a), c.a), c.b, c.c, M2(c.d));
    Flatten(M2(c.a), M2(c.b), c.b, c.c, c.d);
    Flatten(M2(c.b), M2(c.c), c.c, c.d, c.a);
    Flatten(M2(c.c), M2(c.d), c.d, c.a, c.b);
    Flatten(M2(c.d), M2(c.a), c.a, c.b, c.c);
  }

  lemma InvMixColIs(c: Col)
    ensures InvMixCol(c) ==
      Col(Unmixed(c.a, c.b, c.c, c.d), Unmixed(c.b, c.c, c.d, c.a), Unmixed(c.c, c.d, c.a, c.b), Unmixed(c.d, c.a, c.b, c.c))
  {
    hide GfMul, M2, X2, X3, X4, X5;
    TableIsGf(c.a); TableIsGf(c.b); TableIsGf(c.c); TableIsGf(c.d);
    Rotate(GfMul(c.b).by14, GfMul(c.c).by11, GfMul(c.d).by13, GfMul(c.a).by9);
    Rotate(GfMul(c.c).by14, GfMul(c.d).by11, GfMul(c.a).by13, GfMul(c.b).by9);
    Rotate(GfMul(c.b).by9, GfMul(c.c).by14, GfMul(c.d).by11, GfMul(c.a).by13);
    Rotate(GfMul(c.a).by11, GfMul(c.b).by13, GfMul(c.c).by9, GfMul(c.d).by14);
  }

  function TwiceCol(c: Col): Col { Col(Twice(c.a, c.c), Twice(c.b, c.d), Twice(c.c, c.a), Twice(c.d, c.b)) }

  lemma MixTwice(c: Col)
    ensures MixCol(MixCol(c)) == TwiceCol(c) && TwiceCol(TwiceCol(c)) == c
  {
    hide MixCol, Mixed, Twice;
    MixColIs(c); MixColIs(MixCol(c));
    MixedTwice(c.a, c.b, c.c, c.d); MixedTwice(c.b, c.c, c.d, c.a);
    MixedTwice(c.c, c.d, c.a, c.b); MixedTwice(c.d, c.a, c.b, c.c);
    TwiceTwice(c.a, c.c); TwiceTwice(c.b, c.d); TwiceTwice(c.c, c.a); TwiceTwice(c.d, c.b);
  }

  lemma InvMixIsMix(c: Col)
    ensures InvMixCol(c) == MixCol(TwiceCol(c))
  {
    hide MixCol, InvMixCol, Mixed, Unmixed, Twice;
    InvMixColIs(c); MixColIs(TwiceCol(c));
    UnmixedIsMixed(c.a, c.b, c.c, c.d); UnmixedIsMixed(c.b, c.c, c.d, c.a);
    UnmixedIsMixed(c.c, c.d, c.a, c.b); UnmixedIsMixed(c.d, c.a, c.b, c.c);
  }

  /** Mixing four times is the identity, so unmixing undoes mixing, in either order. */
  lemma MixAndUnmix(c: Col)
    ensures InvMixCol(MixCol(c)) == c && MixCol(InvMixCol(c)) == c
  {
    hide MixCol, InvMixCol, TwiceCol;
    InvMixIsMix(c); InvMixIsMix(MixCol(c));
    MixTwice(c); MixTwice(MixCol(c)); MixTwice(MixCol(MixCol(c))); MixTwice(TwiceCol(c));
  }
}
