/** Encoding a block with the code book of the standard, and decoding what was encoded. */
module VlcRoundTrip {
  import opened Options
  import opened VlcTables
  import opened Powers
  import opened VlcBits
  import opened VlcDecoder
  import opened VlcCodes
  import opened VlcCodeBook
  import Division

  /** How an encoder may write one AC event: by its code, or the longer one if it has two, and
      a sign; or by an escape. */
  datatype Symbol = Code(run: nat, magnitude: nat, long: bool, negative: bool) | Escape(run: nat, level: int)

  predicate SymbolOk(y: Symbol) {
    match y
    case Code(run, magnitude, long, _) => CodeOf(run, magnitude, long).Some?
    case Escape(run, level) => run < 64 && -2047 <= level <= 2047 && level != 0
  }

  /** A sign bit of one stands for a negative level. */
  function WithSign(magnitude: int, negative: bool): int { if negative then -magnitude else magnitude }

  function Level(y: Symbol): int {
    match y case Code(_, magnitude, _, negative) => WithSign(magnitude, negative) case Escape(_, level) => level
  }

  const ESCAPE: seq<Bit> := [0, 0, 0, 0, 0, 1]
  const END_OF_BLOCK: seq<Bit> := [0, 1, 1, 0]

  /** Twelve-bit two's complement. */
  function Field12(level: int): nat
    requires -2047 <= level <= 2047
  {
    if level < 0 then level + 4096 else level
  }

  function SymbolBits(y: Symbol): seq<Bit>
    requires SymbolOk(y)
  {
    match y
    case Code(run, magnitude, long, negative) =>
      var (code, len) := CodeOf(run, magnitude, long).value;
      BitsOf(code, len) + [if negative then 1 else 0]
    case Escape(run, level) => ESCAPE + BitsOf(run, 6) + BitsOf(Field12(level), 12)
  }

  ghost predicate SymbolsOk(ys: seq<Symbol>) { forall k :: 0 <= k < |ys| ==> SymbolOk(ys[k]) }

  function Encode(ys: seq<Symbol>): seq<Bit>
    requires SymbolsOk(ys)
  {
    if ys == [] then [] else SymbolBits(ys[0]) + Encode(ys[1..])
  }

  /** The scan position after the symbols, starting at `i`. */
  function After(i: nat, ys: seq<Symbol>): (r: nat)
    requires SymbolsOk(ys)
    ensures r >= i + |ys|
    decreases |ys|
  {
    if ys == [] then i else After(i + ys[0].run + 1, ys[1..])
  }

  /** The block with every level written at its place of the scan. */
  function PutAll(block: seq<int>, lx: nat, i: nat, ys: seq<Symbol>): (r: seq<int>)
    requires SymbolsOk(ys) && BlockOk(block, lx) && After(i, ys) <= 64
    ensures |r| == |block|
    decreases |ys|
  {
    if ys == [] then block
    else PutAll(Put(block, lx, i + ys[0].run, Level(ys[0])), lx, i + ys[0].run + 1, ys[1..])
  }

  // ---- One symbol ----

  lemma PeekIs(s: seq<Bit>, p: nat, v: nat, n: nat)
    requires Has(s, p, n) && v < Pow2(n) && s[p..p + n] == BitsOf(v, n)
    ensures Peek(s, p, n) == v
  {
    ValueOfBitsOf(v, n);
  }

  /** `e` stands in the stream at `p`. */
  predicate At(s: seq<Bit>, p: nat, e: seq<Bit>) {
    p + |e| <= |s| && s[p..p + |e|] == e
  }

  lemma AtParts(s: seq<Bit>, p: nat, d: seq<Bit>, e: seq<Bit>)
    requires At(s, p, d + e)
    ensures At(s, p, d) && At(s, p + |d|, e)
  {
    assert s[p..p + |d|] == s[p..p + |d + e|][..|d|];
    assert s[p + |d|..p + |d| + |e|] == s[p..p + |d + e|][|d|..];
  }

  lemma SignDecodes(s: seq<Bit>, q: nat, e: AcEntry, negative: bool)
    requires At(s, q, [if negative then 1 else 0]) && e.run < 64
    ensures AcRest(s, q, e) == Event(e.run, WithSign(e.level, negative), q + 1)
  {
    var bit := if negative then 1 else 0;
    assert BitsOf(bit, 1) == [bit] && Pow2(1) == 2;
    PeekIs(s, q, bit, 1);
  }

  lemma CodeIsRead(s: seq<Bit>, p: nat, run: nat, level: nat, long: bool)
    requires CodeOf(run, level, long).Some? && Has(s, p, 16)
    requires var (code, len) := CodeOf(run, level, long).value; At(s, p, BitsOf(code, len))
    ensures var (_, len) := CodeOf(run, level, long).value;
      2 <= len <= 16 && AcNext(s, p) == AcRest(s, p + len, A(run, level, len))
  {
    hide CodeOf, AcEntryOf, AcRest, Peek;
    var (code, len) := CodeOf(run, level, long).value;
    CodeFits(run, level, long);
    PeekIs(s, p, code, len);
    PeekPrefix(s, p, len, 16);
    assert Peek(s, p, 16) < 65536 by { SmallPowers(); }
    CodeSelects(run, level, long, Peek(s, p, 16));
  }

  lemma CodeDecodes(s: seq<Bit>, p: nat, y: Symbol)
    requires SymbolOk(y) && y.Code? && Has(s, p, 16) && At(s, p, SymbolBits(y))
    ensures AcNext(s, p) == Event(y.run, Level(y), p + |SymbolBits(y)|)
  {
    hide CodeOf, AcRest, AcNext, Peek, BitsOf;
    var (code, len) := CodeOf(y.run, y.magnitude, y.long).value;
    AtParts(s, p, BitsOf(code, len), [if y.negative then 1 else 0]);
    CodeFits(y.run, y.magnitude, y.long);
    CodeIsRead(s, p, y.run, y.magnitude, y.long);
    SignDecodes(s, p + len, A(y.run, y.magnitude, len), y.negative);
  }

  lemma EscapeEntry(x: nat)
    requires 1024 <= x < 2048
    ensures AcEntryOf(x) == Some(A(65, 0, 6))
  {
  }

  lemma FieldsDecode(s: seq<Bit>, q: nat, run: nat, level: int)
    requires run < 64 && -2047 <= level <= 2047 && level != 0
    requires At(s, q, BitsOf(run, 6)) && At(s, q + 6, BitsOf(Field12(level), 12))
    ensures AcRest(s, q, A(65, 0, 6)) == Event(run, level, q + 18)
  {
    hide Pow2, Value, BitsOf;
    assert run < Pow2(6) && Field12(level) < Pow2(12) by { SmallPowers(); }
    PeekIs(s, q, run, 6);
    PeekIs(s, q + 6, Field12(level), 12);
    hide Peek;
  }

  lemma EscapeIsRead(s: seq<Bit>, p: nat)
    requires Has(s, p, 16) && At(s, p, ESCAPE)
    ensures Peek(s, p, 16) < 65536 && AcEntryOf(Peek(s, p, 16)) == Some(A(65, 0, 6))
  {
    SmallPowers();
    EscapeValue();
    PeekPrefix(s, p, 6, 16);
    hide Pow2, AcEntryOf;
    EscapeEntry(Peek(s, p, 16));
  }

  /** An escape with one of the two levels that may not be escaped ends the block. */
  lemma ForbiddenEscapeStops(s: seq<Bit>, p: nat, run: nat, field: nat)
    requires run < 64 && field in {0, 2048} && Has(s, p, 24)
    requires At(s, p, ESCAPE + BitsOf(run, 6) + BitsOf(field, 12))
    ensures AcNext(s, p) == Stop(p + 24)
  {
    AtParts(s, p, ESCAPE + BitsOf(run, 6), BitsOf(field, 12));
    AtParts(s, p, ESCAPE, BitsOf(run, 6));
    EscapeIsRead(s, p);
    hide AcEntryOf, Pow2, Value, BitsOf;
    assert field < Pow2(12) by { SmallPowers(); }
    PeekIs(s, p + 12, field, 12);
    hide Peek;
  }

  /** Twelve zeros begin no code: the block ends where it is. */
  lemma NoCodeStops(s: seq<Bit>, p: nat)
    requires Has(s, p, 16) && forall i :: p <= i < p + 12 ==> s[i] == 0
    ensures AcNext(s, p) == Stop(p)
  {
    assert s[p..p + 12] == BitsOf(0, 12) by { ZeroBits(12); }
    assert 0 < Pow2(12);
    PeekIs(s, p, 0, 12);
    PeekPrefix(s, p, 12, 16);
    SmallPowers();
    hide Peek, Pow2;
  }

  lemma {:induction false} ZeroBits(n: nat)
    ensures forall i :: 0 <= i < n ==> BitsOf(0, n)[i] == 0
  {
    if n > 0 { ZeroBits(n - 1); }
  }

  lemma EscapeDecodes(s: seq<Bit>, p: nat, y: Symbol)
    requires SymbolOk(y) && y.Escape? && Has(s, p, 16) && At(s, p, SymbolBits(y))
    ensures AcNext(s, p) == Event(y.run, y.level, p + |SymbolBits(y)|)
  {
    AtParts(s, p, ESCAPE + BitsOf(y.run, 6), BitsOf(Field12(y.level), 12));
    AtParts(s, p, ESCAPE, BitsOf(y.run, 6));
    EscapeIsRead(s, p);
    FieldsDecode(s, p + 6, y.run, y.level);
    hide AcRest, AcEntryOf, Peek;
  }

  lemma EscapeValue()
    ensures Value(ESCAPE) == 1
  {
    assert ESCAPE == BitsOf(1, 6);
    SmallPowers();
    ValueOfBitsOf(1, 6);
  }

  lemma SymbolDecodes(s: seq<Bit>, p: nat, y: Symbol)
    requires SymbolOk(y) && Has(s, p, 16) && At(s, p, SymbolBits(y))
    ensures AcNext(s, p) == Event(y.run, Level(y), p + |SymbolBits(y)|)
  {
    hide AcNext, AcEntryOf;
    match y
    case Code(_, _, _, _) => CodeDecodes(s, p, y);
    case Escape(_, _) => EscapeDecodes(s, p, y);
  }

  lemma EndDecodes(s: seq<Bit>, p: nat)
    requires Has(s, p, 16) && s[p..p + 4] == END_OF_BLOCK
    ensures AcNext(s, p) == Stop(p + 4)
  {
    assert END_OF_BLOCK == BitsOf(6, 4);
    SmallPowers();
    PeekIs(s, p, 6, 4);
    PeekPrefix(s, p, 4, 16);
    hide Pow2;
    EndEntry(Peek(s, p, 16));
  }

  lemma EndEntry(x: nat)
    requires 6 * 4096 <= x < 7 * 4096
    ensures AcEntryOf(x) == Some(A(64, 0, 4))
  {
  }

  // ---- All symbols ----

  /** Decoding writes exactly the encoded levels at their places and stops right after the
      end-of-block code. The decoder looks 16 bits ahead, hence the twelve bits of slack. */
  lemma {:induction false} AcRoundTrip(s: seq<Bit>, p: nat, i: nat, ys: seq<Symbol>, block: seq<int>, lx: nat)
    requires SymbolsOk(ys) && BlockOk(block, lx) && After(i, ys) <= 64
    requires At(s, p, Encode(ys) + END_OF_BLOCK) && p + |Encode(ys)| + 16 <= |s|
    ensures AcDecode(s, p, i, block, lx) == Decoded(PutAll(block, lx, i, ys), p + |Encode(ys)| + 4)
    decreases |ys|
  {
    hide AcNext, SymbolBits, SymbolOk, Put;
    if ys == [] {
      assert [] + END_OF_BLOCK == END_OF_BLOCK;
      EndDecodes(s, p);
    } else {
      var y, rest := ys[0], ys[1..];
      var bits := SymbolBits(y);
      assert Encode(ys) + END_OF_BLOCK == bits + (Encode(rest) + END_OF_BLOCK);
      AtParts(s, p, bits, Encode(rest) + END_OF_BLOCK);
      SymbolDecodes(s, p, y);
      AcRoundTrip(s, p + |bits|, i + y.run + 1, rest, Put(block, lx, i + y.run, Level(y)), lx);
    }
  }

  // ---- DC ----

  /** The number of bits of a magnitude. */
  function SizeOf(m: nat): nat { if m == 0 then 0 else 1 + SizeOf(m / 2) }

  lemma {:induction false} SizeBounds(m: nat)
    ensures m < Pow2(SizeOf(m)) && (m > 0 ==> SizeOf(m) > 0 && Pow2(SizeOf(m) - 1) <= m)
  {
    if m > 0 {
      SizeBounds(m / 2);
    }
  }

  lemma {:induction false} SizeIsSmall(m: nat, n: nat)
    requires m < Pow2(n)
    ensures SizeOf(m) <= n
  {
    if n > 0 && m > 0 {
      SizeIsSmall(m / 2, n - 1);
    }
  }

  /** The code of each size class; its length comes second. */
  function DcCode(size: nat, chrom: bool): (nat, nat)
    requires size <= 11
  {
    if chrom then
      match size
      case 0 => (0, 2) case 1 => (1, 2) case 2 => (2, 2) case 3 => (6, 3) case 4 => (14, 4) case 5 => (30, 5)
      case 6 => (62, 6) case 7 => (126, 7) case 8 => (254, 8) case 9 => (510, 9) case 10 => (1022, 10) case _ => (1023, 10)
    else
      match size
      case 0 => (4, 3) case 1 => (0, 2) case 2 => (1, 2) case 3 => (5, 3) case 4 => (6, 3) case 5 => (14, 4)
      case 6 => (30, 5) case 7 => (62, 6) case 8 => (126, 7) case 9 => (254, 8) case 10 => (510, 9) case _ => (511, 9)
  }

  /** Negative values are stored one's complement in `size` bits. */
  function DcField(dc: int): int {
    if dc > 0 then dc else dc + Pow2(SizeOf(Magnitude(dc))) - 1
  }

  function Magnitude(v: int): nat { if v < 0 then -v else v }

  lemma DcFieldDecodes(dc: int)
    requires dc != 0
    ensures var size := SizeOf(Magnitude(dc)); size > 0 && 0 <= DcField(dc) < Pow2(size) && DcValue(DcField(dc), size) == dc
  {
    SizeBounds(Magnitude(dc));
    var size := SizeOf(Magnitude(dc));
    var half := Pow2(size - 1);
    assert Pow2(size) == 2 * half;
    if dc > 0 {
      Division.DivUnique(dc, half, 1, dc - half);
    } else {
      Division.DivUnique(DcField(dc), half, 0, DcField(dc));
    }
  }

  function DcBits(dc: int, chrom: bool): seq<Bit>
    requires -2047 <= dc <= 2047
  {
    SmallPowers();
    SizeIsSmall(Magnitude(dc), 11);
    var size := SizeOf(Magnitude(dc));
    var (code, len) := DcCode(size, chrom);
    if size == 0 then BitsOf(code, len) else DcFieldDecodes(dc); BitsOf(code, len) + BitsOf(DcField(dc), size)
  }

  /** Any ten bits that begin with the code of a size class select that class. */
  lemma DcTables(c: nat, size: nat, chrom: bool)
    requires size <= 11 && c < 1024
    requires var (code, len) := DcCode(size, chrom); High(c, 10 - len) == code
    ensures DcEntryOf(c, chrom) == D(size, DcCode(size, chrom).1)
  {
    SmallPowers();
  }

  lemma DcSelectedIs(s: seq<Bit>, p: nat, chrom: bool)
    requires Has(s, p, 10)
    ensures Peek(s, p, 10) < 1024 && DcSelected(s, p, chrom) == DcEntryOf(Peek(s, p, 10), chrom)
  {
    PeekPrefix(s, p, 5, 10);
    PeekPrefix(s, p, 9, 10);
    SmallPowers();
    hide Pow2, Peek, DcLum0, DcLum1, DcChrom0, DcChrom1;
  }

  /** The look-ups find the size class of the code, whatever follows it. */
  lemma DcCodeIsRead(s: seq<Bit>, p: nat, size: nat, chrom: bool)
    requires size <= 11 && Has(s, p, 10)
    requires var (code, len) := DcCode(size, chrom); At(s, p, BitsOf(code, len))
    ensures DcSelected(s, p, chrom) == D(size, DcCode(size, chrom).1)
  {
    var (code, len) := DcCode(size, chrom);
    assert code < Pow2(len) && len <= 10 by { SmallPowers(); }
    PeekIs(s, p, code, len);
    PeekPrefix(s, p, len, 10);
    DcSelectedIs(s, p, chrom);
    hide Pow2, Peek, DcSelected, DcEntryOf;
    DcTables(Peek(s, p, 10), size, chrom);
  }

  lemma DcSizeFits(dc: int)
    requires -2047 <= dc <= 2047
    ensures SizeOf(Magnitude(dc)) <= 11
  {
    SmallPowers();
    SizeIsSmall(Magnitude(dc), 11);
  }

  /** A DC value of up to eleven bits is decoded exactly, and exactly its bits are used. */
  lemma DcRoundTrip(s: seq<Bit>, p: nat, dc: int, chrom: bool)
    requires -2047 <= dc <= 2047 && At(s, p, DcBits(dc, chrom)) && p + |DcBits(dc, chrom)| + 10 <= |s|
    ensures DcDecode(s, p, chrom) == Dc(dc, p + |DcBits(dc, chrom)|)
  {
    hide Pow2, Peek, DcField, DcValue, DcCode, DcSelected, SizeOf;
    DcSizeFits(dc);
    var size := SizeOf(Magnitude(dc));
    var (code, len) := DcCode(size, chrom);
    if size > 0 {
      NonZero(dc);
      DcFieldDecodes(dc);
      AtParts(s, p, BitsOf(code, len), BitsOf(DcField(dc), size));
      PeekIs(s, p + len, DcField(dc), size);
      DcCodeIsRead(s, p, size, chrom);
    } else {
      DcCodeIsRead(s, p, size, chrom);
      assert dc == 0 by { NonZero(dc); }
    }
  }

  lemma NonZero(dc: int)
    ensures dc == 0 <==> SizeOf(Magnitude(dc)) == 0
  {
  }

  // ---- The whole block ----

  function EncodeBlock(dc: int, comp: int, ys: seq<Symbol>): seq<Bit>
    requires -2047 <= dc <= 2047 && SymbolsOk(ys)
  {
    DcBits(dc, comp != 0) + (Encode(ys) + END_OF_BLOCK)
  }

  /** Round trip: for every DC value, every component and every list of events that fits in
      the 64 coefficients, however each event was coded, decoding writes exactly these
      coefficients and consumes exactly the encoded bits. */
  lemma BlockRoundTrip(dc: int, comp: int, ys: seq<Symbol>, tail: seq<Bit>, block: seq<int>, lx: nat)
    requires -2047 <= dc <= 2047 && SymbolsOk(ys) && BlockOk(block, lx) && After(1, ys) <= 64 && |tail| >= 12
    ensures var bits := EncodeBlock(dc, comp, ys);
            Decode(bits + tail, block, comp, lx) == Decoded(PutAll(block[0 := dc], lx, 1, ys), |bits|)
  {
    hide AcDecode, DcDecode, Encode, DcBits;
    var d, a := DcBits(dc, comp != 0), Encode(ys) + END_OF_BLOCK;
    var s := d + a + tail;
    assert At(s, 0, d + a);
    AtParts(s, 0, d, a);
    DcRoundTrip(s, 0, dc, comp != 0);
    AcRoundTrip(s, |d|, 1, ys, block[0 := dc], lx);
  }

  // ---- What was written ----

  /** The place after (row, column) in the zig-zag scan of an 8 x 8 block: up and to the right
      on one diagonal, down and to the left on the next, along the border between them. */
  function NextPlace(row: nat, column: nat): (nat, nat) {
    if (row + column) % 2 == 0 then
      if column == 7 then (row + 1, column) else if row == 0 then (row, column + 1) else (row - 1, column + 1)
    else
      if row == 7 then (row, column + 1) else if column == 0 then (row + 1, column) else (row + 1, column - 1)
  }

  function Scan(i: nat): (nat, nat) {
    if i == 0 then (0, 0) else NextPlace(Scan(i - 1).0, Scan(i - 1).1)
  }

  predicate IsPlace(z: nat, place: (nat, nat)) { place.0 < 8 && place.1 < 8 && z == 8 * place.0 + place.1 }

  /** The number of the next cell. */
  function NextCell(z: nat): nat
    requires z < 63
  {
    var row, column := z / 8, z % 8;
    if (row + column) % 2 == 0 then
      if column == 7 then z + 8 else if row == 0 then z + 1 else z - 7
    else
      if row == 7 then z + 1 else if column == 0 then z + 8 else z + 7
  }

  lemma NextCellIs(z: nat, place: (nat, nat))
    requires z < 63 && IsPlace(z, place)
    ensures IsPlace(NextCell(z), NextPlace(place.0, place.1))
  {
    Division.DivUnique(z, 8, place.0, place.1);
  }

  lemma LowStep(i: nat)
    requires i < 32
    ensures ZigZag(i) < 63 && ZigZag(i + 1) == NextCell(ZigZag(i))
  {
  }

  lemma MiddleStep(i: nat)
    requires 32 <= i < 48
    ensures ZigZag(i) < 63 && ZigZag(i + 1) == NextCell(ZigZag(i))
  {
  }

  lemma HighStep(i: nat)
    requires 48 <= i < 63
    ensures ZigZag(i) < 63 && ZigZag(i + 1) == NextCell(ZigZag(i))
  {
  }

  lemma ScanStarts()
    ensures IsPlace(ZigZag(0), Scan(0))
  {
  }

  /** The table is the scan. */
  lemma {:induction false} ZigZagIsScan(i: nat)
    requires i < 64
    ensures IsPlace(ZigZag(i), Scan(i))
  {
    hide ZigZag, NextPlace, NextCell, IsPlace;
    if i == 0 {
      ScanStarts();
    } else {
      ZigZagIsScan(i - 1);
      if i <= 32 { LowStep(i - 1); } else if i <= 48 { MiddleStep(i - 1); } else { HighStep(i - 1); }
      NextCellIs(ZigZag(i - 1), Scan(i - 1));
    }
  }

  /** Where place `i` of the scan lies in a picture `lx` samples wide. */
  function Spot(i: nat, lx: nat): nat { Scan(i).0 * lx + Scan(i).1 }

  lemma SpotIsCell(i: nat, lx: nat)
    requires i < 64
    ensures Spot(i, lx) == Cell(i, lx)
  {
    ZigZagIsScan(i);
    hide ZigZag, Scan;
    Division.DivUnique(8 * Scan(i).0 + Scan(i).1, 8, Scan(i).0, Scan(i).1);
  }

  lemma ZigZagIsInjective(i: nat, j: nat)
    requires i < 64 && j < 64 && ZigZag(i) == ZigZag(j)
    ensures i == j
  {
  }

  lemma CellIsInjective(i: nat, j: nat, lx: nat)
    requires i < 64 && j < 64 && lx >= 8 && Cell(i, lx) == Cell(j, lx)
    ensures i == j
  {
    CellInBlock(i, lx); CellInBlock(j, lx);
    hide ZigZag;
    var r, c, r', c' := ZigZag(i) / 8, ZigZag(i) % 8, ZigZag(j) / 8, ZigZag(j) % 8;
    Division.DivUnique(r * lx + c, lx, r, c);
    Division.DivUnique(r' * lx + c', lx, r', c');
    ZigZagIsInjective(i, j);
  }

  /** The scan position of symbol k. */
  function Place(i: nat, ys: seq<Symbol>, k: nat): nat
    requires SymbolsOk(ys) && k < |ys|
    decreases k
  {
    if k == 0 then i + ys[0].run else Place(i + ys[0].run + 1, ys[1..], k - 1)
  }

  lemma {:induction false} PlacesAscend(i: nat, ys: seq<Symbol>, k: nat)
    requires SymbolsOk(ys) && k < |ys|
    ensures i <= Place(i, ys, k) < After(i, ys)
    decreases k
  {
    if k > 0 {
      PlacesAscend(i + ys[0].run + 1, ys[1..], k - 1);
    }
  }

  /** No event is placed in cell `j` of the block. */
  ghost predicate MissesCell(i: nat, ys: seq<Symbol>, lx: nat, j: int)
    requires SymbolsOk(ys)
  {
    forall k :: 0 <= k < |ys| ==> Place(i, ys, k) < 64 && Cell(Place(i, ys, k), lx) != j
  }

  lemma {:induction false} UntouchedCells(block: seq<int>, lx: nat, i: nat, ys: seq<Symbol>, j: nat)
    requires SymbolsOk(ys) && BlockOk(block, lx) && lx >= 8 && After(i, ys) <= 64 && j < |block|
    requires MissesCell(i, ys, lx, j)
    ensures PutAll(block, lx, i, ys)[j] == block[j]
    decreases |ys|
  {
    hide Level, Cell;
    if ys != [] {
      var i', rest := i + ys[0].run + 1, ys[1..];
      assert Place(i, ys, 0) == i + ys[0].run;
      CellInBlock(i + ys[0].run, lx);
      var put := Put(block, lx, i + ys[0].run, Level(ys[0]));
      forall k | 0 <= k < |rest|
        ensures Place(i', rest, k) < 64 && Cell(Place(i', rest, k), lx) != j
      {
        assert Place(i, ys, k + 1) == Place(i', rest, k);
      }
      UntouchedCells(put, lx, i', rest, j);
    }
  }

  /** The first event's level stays where it is put. */
  lemma FirstLevelStays(put: seq<int>, lx: nat, i: nat, rest: seq<Symbol>, at: nat)
    requires SymbolsOk(rest) && BlockOk(put, lx) && lx >= 8 && IsBefore(at, i) && After(i, rest) <= 64
    ensures Cell(at, lx) < |put| && PutAll(put, lx, i, rest)[Cell(at, lx)] == put[Cell(at, lx)]
  {
    CellInBlock(at, lx);
    hide Level, Cell, SymbolOk, Place, PutAll, After;
    forall m | 0 <= m < |rest|
      ensures Place(i, rest, m) < 64 && Cell(Place(i, rest, m), lx) != Cell(at, lx)
    {
      PlacesAscend(i, rest, m);
      if Cell(Place(i, rest, m), lx) == Cell(at, lx) { CellIsInjective(Place(i, rest, m), at, lx); }
    }
    UntouchedCells(put, lx, i, rest, Cell(at, lx));
  }

  predicate IsBefore(at: nat, i: nat) { at < 64 && at < i }

  lemma PutIsThere(block: seq<int>, lx: nat, at: nat, v: int)
    requires BlockOk(block, lx) && at < 64
    ensures Cell(at, lx) < |block| && BlockOk(Put(block, lx, at, v), lx) && Put(block, lx, at, v)[Cell(at, lx)] == v
  {
    CellInBlock(at, lx);
    hide Cell;
  }

  /** The first event, and those after it. */
  lemma FirstAndRest(block: seq<int>, lx: nat, i: nat, ys: seq<Symbol>, k: nat)
    requires SymbolsOk(ys) && BlockOk(block, lx) && After(i, ys) <= 64 && k < |ys|
    ensures var at, rest := i + ys[0].run, ys[1..];
      && at < 64 && SymbolsOk(rest) && After(at + 1, rest) == After(i, ys)
      && PutAll(block, lx, i, ys) == PutAll(Put(block, lx, at, Level(ys[0])), lx, at + 1, rest)
      && Place(i, ys, k) == if k == 0 then at else Place(at + 1, rest, k - 1)
  {
    hide Put, Level, SymbolOk;
  }

  /** Every event's level stands at its own place of the scan. */
  lemma {:induction false} LevelsAreWritten(block: seq<int>, lx: nat, i: nat, ys: seq<Symbol>, k: nat)
    requires SymbolsOk(ys) && BlockOk(block, lx) && lx >= 8 && After(i, ys) <= 64 && k < |ys|
    ensures i <= Place(i, ys, k) < 64
    ensures Cell(Place(i, ys, k), lx) < |block| && PutAll(block, lx, i, ys)[Cell(Place(i, ys, k), lx)] == Level(ys[k])
    decreases k
  {
    hide Level, Cell, SymbolsOk, Put, PutAll, Place, After;
    PlacesAscend(i, ys, k);
    FirstAndRest(block, lx, i, ys, k);
    var at, rest := i + ys[0].run, ys[1..];
    var put := Put(block, lx, at, Level(ys[0]));
    PutIsThere(block, lx, at, Level(ys[0]));
    if k == 0 {
      FirstLevelStays(put, lx, at + 1, rest, at);
    } else {
      LevelsAreWritten(put, lx, at + 1, rest, k - 1);
    }
  }

  lemma CellsAreExact(dc: int, comp: int, ys: seq<Symbol>, tail: seq<Bit>, block: seq<int>, lx: nat)
    requires -2047 <= dc <= 2047 && SymbolsOk(ys) && BlockOk(block, lx) && lx >= 8 && After(1, ys) <= 64 && |tail| >= 12
    ensures var bits := EncodeBlock(dc, comp, ys); var r := Decode(bits + tail, block, comp, lx);
            && r.Decoded? && r.pos == |bits| && |r.block| == |block| && r.block[0] == dc
            && (forall k :: 0 <= k < |ys| ==>
                  (Place(1, ys, k) < 64 && Cell(Place(1, ys, k), lx) < |block|
                   && r.block[Cell(Place(1, ys, k), lx)] == Level(ys[k])))
            && (forall j :: 0 < j < |block| && MissesCell(1, ys, lx, j) ==> r.block[j] == block[j])
  {
    BlockRoundTrip(dc, comp, ys, tail, block, lx);
    hide Decode, EncodeBlock, Level, After, Cell, SymbolOk;
    var start := block[0 := dc];
    forall k | 0 <= k < |ys|
      ensures Place(1, ys, k) < 64 && Cell(Place(1, ys, k), lx) < |block| && Cell(Place(1, ys, k), lx) != 0
      ensures PutAll(start, lx, 1, ys)[Cell(Place(1, ys, k), lx)] == Level(ys[k])
    {
      LevelsAreWritten(start, lx, 1, ys, k);
      NotTheFirstCell(Place(1, ys, k), lx);
    }
    UntouchedCells(start, lx, 1, ys, 0);
    forall j | 0 < j < |block| && MissesCell(1, ys, lx, j)
      ensures PutAll(start, lx, 1, ys)[j] == block[j]
    {
      UntouchedCells(start, lx, 1, ys, j);
    }
  }

  /** No event is placed at `j` in the picture. */
  ghost predicate Misses(ys: seq<Symbol>, lx: nat, j: int)
    requires SymbolsOk(ys)
  {
    forall k :: 0 <= k < |ys| ==> Spot(Place(1, ys, k), lx) != j
  }

  lemma MissesIs(ys: seq<Symbol>, lx: nat, j: int)
    requires SymbolsOk(ys) && After(1, ys) <= 64 && Misses(ys, lx, j)
    ensures MissesCell(1, ys, lx, j)
  {
    hide After, Place, Cell, Spot;
    forall k | 0 <= k < |ys|
      ensures Place(1, ys, k) < 64 && Cell(Place(1, ys, k), lx) != j
    {
      PlacesAscend(1, ys, k);
      SpotIsCell(Place(1, ys, k), lx);
    }
  }

  /** The decoded block sample by sample: the DC value, every level where the scan puts it, and
      the rest as it was. */
  lemma DecodedBlockIsExact(dc: int, comp: int, ys: seq<Symbol>, tail: seq<Bit>, block: seq<int>, lx: nat)
    requires -2047 <= dc <= 2047 && SymbolsOk(ys) && BlockOk(block, lx) && lx >= 8 && After(1, ys) <= 64 && |tail| >= 12
    ensures var bits := EncodeBlock(dc, comp, ys); var r := Decode(bits + tail, block, comp, lx);
            && r.Decoded? && r.pos == |bits| && |r.block| == |block| && r.block[0] == dc
            && (forall k :: 0 <= k < |ys| ==>
                  Spot(Place(1, ys, k), lx) < |block| && r.block[Spot(Place(1, ys, k), lx)] == Level(ys[k]))
            && (forall j :: 0 < j < |block| && Misses(ys, lx, j) ==> r.block[j] == block[j])
  {
    hide Decode, EncodeBlock, Level, After, Cell, Spot, SymbolOk, Place, Misses, MissesCell;
    CellsAreExact(dc, comp, ys, tail, block, lx);
    var r := Decode(EncodeBlock(dc, comp, ys) + tail, block, comp, lx);
    forall k | 0 <= k < |ys|
      ensures Spot(Place(1, ys, k), lx) < |block| && r.block[Spot(Place(1, ys, k), lx)] == Level(ys[k])
    {
      SpotIsCell(Place(1, ys, k), lx);
    }
    forall j | 0 < j < |block| && Misses(ys, lx, j)
      ensures r.block[j] == block[j]
    {
      MissesIs(ys, lx, j);
    }
  }

  lemma NotTheFirstCell(i: nat, lx: nat)
    requires 0 < i < 64 && lx >= 8
    ensures Cell(i, lx) != 0
  {
    assert Cell(0, lx) == 0;
    if Cell(i, lx) == 0 {
      CellIsInjective(0, i, lx);
    }
  }
}
