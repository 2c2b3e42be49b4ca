/** The AC code table is a prefix code: a code word selects its entry whatever follows. */
module VlcCodes {
  import opened Options
  import opened VlcTables
  import opened Powers
  import opened VlcBits
  import opened VlcDecoder
  import opened Division

  /** The next m bits are the top of the next n. */
  lemma PeekPrefix(s: seq<Bit>, p: nat, m: nat, n: nat)
    requires m <= n && Has(s, p, n)
    ensures Peek(s, p, m) == High(Peek(s, p, n), n - m)
  {
    var front, rest := s[p..p + m], s[p + m..p + n];
    assert s[p..p + n] == front + rest;
    ValueOfConcat(front, rest);
    ValueBound(rest);
    DivUnique(Value(front + rest), Pow2(n - m), Value(front), Value(rest));
  }

  /** A code that fills the top of a 16-bit window selects one entry, whatever follows it. */
  lemma CodesArePrefixFree(c: nat, d: nat)
    requires c < 65536 && d < 65536 && AcEntryOf(c).Some?
    requires var n := 16 - AcEntryOf(c).value.len; High(c, n) == High(d, n)
    ensures AcEntryOf(d) == AcEntryOf(c)
  {
    SmallPowers();
    if c >= 1024 {
      ShortCodes(c, d);
    } else {
      LongCodes(c, d);
    }
  }

  lemma ShortCodes(c: nat, d: nat)
    requires 1024 <= c < 65536 && d < 65536
    requires var n := 16 - AcEntryOf(c).value.len; High(c, n) == High(d, n)
    ensures AcEntryOf(d) == AcEntryOf(c)
  {
    SmallPowers();
    var len := AcEntryOf(c).value.len;
    PowSum(8, 8 - len);
    DivDiv(c, 256, Pow2(8 - len));
    DivDiv(d, 256, Pow2(8 - len));
    ByteCodes(c / 256, d / 256);
  }

  lemma ByteCodes(c: nat, d: nat)
    requires 4 <= c < 256 && d < 256
    requires var n := Dct0a(c - 4).len; n <= 8 && High(c, 8 - n) == High(d, 8 - n)
    ensures 4 <= d && Dct0a(d - 4) == Dct0a(c - 4)
  {
    var n := Dct0a(c - 4).len;
    LengthsOfBytes(c);
    hide Dct0a, High;
    if n <= 4 {
      ByteCodes4(c, d);
    } else if n <= 6 {
      ByteCodes6(c, d);
    } else {
      ByteCodes8(c, d);
    }
  }

  lemma LengthsOfBytes(c: nat)
    requires 4 <= c < 256
    ensures 2 <= Dct0a(c - 4).len <= 8
  {
  }

  lemma ByteCodes4(c: nat, d: nat)
    requires 4 <= c < 256 && d < 256
    requires var n := Dct0a(c - 4).len; 2 <= n <= 4 && High(c, 8 - n) == High(d, 8 - n)
    ensures 4 <= d && Dct0a(d - 4) == Dct0a(c - 4)
  {
    SmallPowers();
  }

  lemma ByteCodes6(c: nat, d: nat)
    requires 4 <= c < 256 && d < 256
    requires var n := Dct0a(c - 4).len; 5 <= n <= 6 && High(c, 8 - n) == High(d, 8 - n)
    ensures 4 <= d && Dct0a(d - 4) == Dct0a(c - 4)
  {
    SmallPowers();
  }

  lemma ByteCodes8(c: nat, d: nat)
    requires 4 <= c < 256 && d < 256
    requires var n := Dct0a(c - 4).len; 7 <= n <= 8 && High(c, 8 - n) == High(d, 8 - n)
    ensures 4 <= d && Dct0a(d - 4) == Dct0a(c - 4)
  {
    SmallPowers();
  }

  lemma LongCodes(c: nat, d: nat)
    requires c < 1024 && d < 65536 && AcEntryOf(c).Some?
    requires var n := 16 - AcEntryOf(c).value.len; High(c, n) == High(d, n)
    ensures AcEntryOf(d) == AcEntryOf(c)
  {
    SmallPowers();
    if c >= 512 {
      TenBitCodes(c, d);
    } else {
      SameIndex(c, d);
      hide Dct2, Dct3, Dct4, Dct5, Dct6, Dct1a, Dct0a;
    }
  }

  lemma TenBitCodes(c: nat, d: nat)
    requires 512 <= c < 1024 && d < 65536
    requires var n := 16 - Dct1a(c / 64 - 8).len; n >= 0 && High(c, n) == High(d, n)
    ensures 512 <= d < 1024 && Dct1a(d / 64 - 8) == Dct1a(c / 64 - 8)
  {
    SmallPowers();
    var len := Dct1a(c / 64 - 8).len;
    if len == 9 {
      assert c / 128 == d / 128;
      assert c / 128 == c / 64 / 2 && d / 128 == d / 64 / 2;
    } else {
      assert c / 64 == d / 64;
    }
  }

  /** Below 512 the length of the code is fixed by the table it is in. */
  lemma SameIndex(c: nat, d: nat)
    requires 16 <= c < 512
    requires var n := 16 - AcEntryOf(c).value.len; High(c, n) == High(d, n)
    ensures if c >= 256 then c / 16 == d / 16 else if c >= 128 then c / 8 == d / 8
            else if c >= 64 then c / 4 == d / 4 else if c >= 32 then c / 2 == d / 2 else c == d
  {
    SmallPowers();
  }
}
