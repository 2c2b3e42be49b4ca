/** The variable length decoder of one block: DC coefficient, then (run, level) codes until
    the end of block, with what it reads and writes as a function of the bit stream. */
module VlcDecoder {
  import opened Options
  import opened VlcTables
  import opened Powers
  import opened VlcBits

  datatype Outcome = Overrun | Decoded(block: seq<int>, pos: nat)

  datatype DcOutcome = DcOverrun | Dc(val: int, pos: nat)

  function Has(s: seq<Bit>, p: nat, n: nat): bool { p + n <= |s| }

  function Peek(s: seq<Bit>, p: nat, n: nat): (v: nat)
    requires Has(s, p, n)
    ensures v < Pow2(n)
  {
    ValueBound(s[p..p + n]);
    Value(s[p..p + n])
  }

  /** The entry selected by the next ten bits (nine for luminance, five for short codes). */
  function DcEntryOf(code: nat, chrom: bool): DcEntry
    requires code < 1024
  {
    if code / 32 < 31 then if chrom then DcChrom0(code / 32) else DcLum0(code / 32)
    else if chrom then DcChrom1(code - 0x3E0)
    else DcLum1(code / 2 - 0x1F0)
  }

  /** A magnitude with its top bit clear stands for a negative value. */
  function DcValue(v: nat, size: nat): int
    requires size > 0
  {
    if (v / Pow2(size - 1)) % 2 == 0 then v - (Pow2(size) - 1) else v
  }

  function DcWidth(s: seq<Bit>, p: nat, chrom: bool): nat
    requires Has(s, p, 5)
  {
    if Peek(s, p, 5) < 31 then 5 else if chrom then 10 else 9
  }

  function DcDecode(s: seq<Bit>, p: nat, chrom: bool): DcOutcome {
    if !Has(s, p, 5) then DcOverrun
    else
      var n := DcWidth(s, p, chrom);
      if !Has(s, p, n) then DcOverrun
      else
        var e := DcSelected(s, p, chrom);
        if e.size == 0 then Dc(0, p + e.len)
        else if !Has(s, p + e.len, e.size) then DcOverrun
        else Dc(DcValue(Peek(s, p + e.len, e.size), e.size), p + e.len + e.size)
  }

  /** The source's own sequence of look-ups, on 5 and then 9 or 10 bits. */
  function DcSelected(s: seq<Bit>, p: nat, chrom: bool): (e: DcEntry)
    requires Has(s, p, 5) && Has(s, p, DcWidth(s, p, chrom))
    ensures e.len <= DcWidth(s, p, chrom)
  {
    SmallPowers();
    var code := Peek(s, p, 5);
    if code < 31 then if chrom then DcChrom0(code) else DcLum0(code)
    else
      var n := DcWidth(s, p, chrom);
      LongCode(s, p, n);
      if chrom then DcChrom1(Peek(s, p, 10) - 0x3E0) else DcLum1(Peek(s, p, 9) - 0x1F0)
  }

  /** Five ones in front put a longer code in the last thirty-second of its range. */
  lemma LongCode(s: seq<Bit>, p: nat, n: nat)
    requires n >= 5 && Has(s, p, n) && Peek(s, p, 5) == 31
    ensures 31 * Pow2(n - 5) <= Peek(s, p, n) < 32 * Pow2(n - 5)
  {
    assert s[p..p + n] == s[p..p + 5] + s[p + 5..p + n];
    ValueOfConcat(s[p..p + 5], s[p + 5..p + n]);
    ValueBound(s[p + 5..p + n]);
  }

  function AcEntryOf(code: nat): (e: Option<AcEntry>)
    requires code < 65536
    ensures e.Some? ==> 2 <= e.value.len <= 16
  {
    if code >= 1024 then Some(Dct0a(code / 256 - 4))
    else if code >= 512 then Some(Dct1a(code / 64 - 8))
    else if code >= 256 then Some(Dct2(code / 16 - 16))
    else if code >= 128 then Some(Dct3(code / 8 - 16))
    else if code >= 64 then Some(Dct4(code / 4 - 16))
    else if code >= 32 then Some(Dct5(code / 2 - 16))
    else if code >= 16 then Some(Dct6(code - 16))
    else None
  }

  /** Where a coefficient goes in a picture `lx` samples wide. */
  function Cell(i: nat, lx: nat): nat
    requires i < 64
  {
    (ZigZag(i) / 8) * lx + ZigZag(i) % 8
  }

  lemma CellInBlock(i: nat, lx: nat)
    requires i < 64
    ensures ZigZag(i) < 64 && Cell(i, lx) < 7 * lx + 8
  {
    var row := ZigZag(i) / 8;
    assert row <= 7;
    assert row * lx <= 7 * lx;
  }

  predicate BlockOk(block: seq<int>, lx: nat) { 7 * lx + 8 <= |block| }

  function Put(block: seq<int>, lx: nat, i: nat, v: int): (r: seq<int>)
    requires BlockOk(block, lx) && i < 64
    ensures |r| == |block|
  {
    CellInBlock(i, lx);
    block[Cell(i, lx) := v]
  }

  function Signed(level: int, negative: bool): int { if negative then -level else level }

  /** What one AC code says: stop here, or skip `run` coefficients and set the next one. */
  datatype AcSymbol = Short | Stop(pos: nat) | Event(run: nat, level: int, pos: nat)

  function AcNext(s: seq<Bit>, p: nat): AcSymbol {
    SmallPowers();
    if !Has(s, p, 16) then Short
    else match AcEntryOf(Peek(s, p, 16))
      case None => Stop(p)
      case Some(e) => AcRest(s, p + e.len, e)
  }

  /** After the code itself: a sign bit, or the two fields of an escape. */
  function AcRest(s: seq<Bit>, q: nat, e: AcEntry): AcSymbol {
    if e.run == 64 then Stop(q)
    else if e.run == 65 then
      if !Has(s, q, 18) then Short
      else
        var run, val := Peek(s, q, 6), Peek(s, q + 6, 12);
        if val % 2048 == 0 then Stop(q + 18)
        else Event(run, if val >= 2048 then -(4096 - val) else val, q + 18)
    else if !Has(s, q, 1) then Short
    else Event(e.run, Signed(e.level, Peek(s, q, 1) == 1), q + 1)
  }

  /** The AC part from position `p`, the next coefficient being number `i` of the scan. */
  function AcDecode(s: seq<Bit>, p: nat, i: nat, block: seq<int>, lx: nat): Outcome
    requires BlockOk(block, lx) && i <= 64
    decreases 64 - i
  {
    match AcNext(s, p)
    case Short => Overrun
    case Stop(q) => Decoded(block, q)
    case Event(run, level, q) =>
      if i + run >= 64 then Decoded(block, q)
      else AcDecode(s, q, i + run + 1, Put(block, lx, i + run, level), lx)
  }

  function Decode(s: seq<Bit>, block: seq<int>, comp: int, lx: nat): Outcome
    requires BlockOk(block, lx)
  {
    match DcDecode(s, 0, comp != 0)
    case DcOverrun => Overrun
    case Dc(val, pos) => AcDecode(s, pos, 1, block[0 := val], lx)
  }

  class Ivlc {
    const reader: BitReader

    constructor ()
      ensures fresh(reader) && reader.Valid()
    {
      reader := new BitReader();
    }

    /** The look-ups of the size class: a peek at five bits, then at nine or ten. */
    method GetDcEntry(chrom: bool, buffer: array<int>) returns (e: DcEntry)
      requires reader.Valid()
      requires var s, p := Stream(buffer[..]), reader.Pos(); Has(s, p, 5) && Has(s, p, DcWidth(s, p, chrom))
      modifies reader
      ensures reader.Valid()
      ensures var s, p := Stream(buffer[..]), old(reader.Pos());
              e == DcSelected(s, p, chrom) && reader.Pos() == p + e.len
    {
      hide Value, BitAt, DcLum0, DcLum1, DcChrom0, DcChrom1;
      ghost var s, p := Stream(buffer[..]), reader.Pos();
      var code := reader.GetBits(5, false, buffer);
      assert code == Peek(s, p, 5);
      SmallPowers();
      if code < 31 {
        e := if chrom then DcChrom0(code) else DcLum0(code);
      } else if chrom {
        LongCode(s, p, 10);
        code := reader.GetBits(10, false, buffer);
        e := DcChrom1(code - 0x3E0);
      } else {
        LongCode(s, p, 9);
        code := reader.GetBits(9, false, buffer);
        e := DcLum1(code - 0x1F0);
      }
      assert e == DcSelected(s, p, chrom);
      var skipped := reader.GetBits(e.len, true, buffer);
    }

    method GetDC(chrom: bool, buffer: array<int>) returns (val: int)
      requires reader.Valid() && DcDecode(Stream(buffer[..]), reader.Pos(), chrom).Dc?
      modifies reader
      ensures reader.Valid()
      ensures Dc(val, reader.Pos()) == DcDecode(Stream(buffer[..]), old(reader.Pos()), chrom)
    {
      hide Value, BitAt, DcSelected, DcWidth;
      var e := GetDcEntry(chrom, buffer);
      if e.size == 0 {
        val := 0;
      } else {
        val := reader.GetBits(e.size, true, buffer);
        if (val / Pow2(e.size - 1)) % 2 == 0 {
          val := val - (Pow2(e.size) - 1);
        }
      }
    }

    /** One pass of the AC loop up to the bounds test. */
    method GetAC(buffer: array<int>) returns (symbol: AcSymbol)
      requires reader.Valid() && !AcNext(Stream(buffer[..]), reader.Pos()).Short?
      modifies reader
      ensures reader.Valid() && symbol == AcNext(Stream(buffer[..]), old(reader.Pos()))
      ensures symbol.pos == reader.Pos()
    {
      hide Value, BitAt, AcEntryOf;
      ghost var s, p := Stream(buffer[..]), reader.Pos();
      SmallPowers();
      var code := reader.GetBits(16, false, buffer);
      assert code == Peek(s, p, 16);
      var entry := AcEntryOf(code);
      if entry.None? { return Stop(reader.Pos()); }
      var tab := entry.value;
      var skipped := reader.GetBits(tab.len, true, buffer);
      if tab.run == 64 { return Stop(reader.Pos()); }
      var run, val, sign;
      if tab.run == 65 {
        run := reader.GetBits(6, true, buffer);
        val := reader.GetBits(12, true, buffer);
        if val % 2048 == 0 { return Stop(reader.Pos()); }
        sign := val >= 2048;
        if sign { val := 4096 - val; }
      } else {
        run, val := tab.run, tab.level;
        var bit := reader.GetBits(1, true, buffer);
        sign := bit == 1;
      }
      symbol := Event(run, Signed(val, sign), reader.Pos());
    }

    method PutCoefficient(block: array<int>, lx: nat, i: nat, level: int)
      requires BlockOk(block[..], lx) && i < 64
      modifies block
      ensures block[..] == Put(old(block[..]), lx, i, level)
    {
      hide ZigZag;
      CellInBlock(i, lx);
      var temp := ZigZag(i) / 8;
      var temp2 := ZigZag(i) - temp * 8;
      block[temp * lx + temp2] := level;
    }

    /** The stream must hold the bits that the source looks at; it has no test of its own. */
    method IvlcFunc(block: array<int>, comp: int, lx: nat, buffer: array<int>)
      requires block != buffer && BlockOk(block[..], lx)
      requires Decode(Stream(buffer[..]), block[..], comp, lx).Decoded?
      modifies block, reader
      ensures reader.Valid()
      ensures Decoded(block[..], reader.Pos()) == Decode(Stream(buffer[..]), old(block[..]), comp, lx)
    {
      hide AcNext, DcDecode, Put, BitAt;
      ghost var s := Stream(buffer[..]);
      ghost var result := Decode(s, block[..], comp, lx);
      var rewound := reader.Rewind();
      var dc;
      if comp == 0 {
        dc := GetDC(false, buffer);
      } else {
        dc := GetDC(true, buffer);
      }
      block[0] := dc;
      var i := 1;
      while true
        invariant 1 <= i <= 64 && reader.Valid() && BlockOk(block[..], lx) && s == Stream(buffer[..])
        invariant AcDecode(s, reader.Pos(), i, block[..], lx) == result
        decreases 64 - i
      {
        var symbol := GetAC(buffer);
        if symbol.Stop? { return; }
        i := i + symbol.run;
        if i >= 64 { return; }
        PutCoefficient(block, lx, i, symbol.level);
        i := i + 1;
      }
    }
  }
}
