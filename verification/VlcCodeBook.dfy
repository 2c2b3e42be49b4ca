/** The code book of the AC events, from the side of an encoder: Table B-15 of ISO/IEC 13818-2,
    event by event. The decoder's tables are shown to be this book read backwards. */
module VlcCodeBook {
  import opened Options
  import opened VlcTables
  import opened Powers
  import opened VlcBits
  import opened VlcDecoder
  import Division

  /** The code of each level without a run; its length comes second. */
  function Run0Code(level: nat): Option<(nat, nat)> {
    match level
    case 1 => Some((0x2, 2)) case 2 => Some((0x6, 3)) case 3 => Some((0x7, 4)) case 4 => Some((0x1C, 5))
    case 5 => Some((0x1D, 5)) case 6 => Some((0x5, 6)) case 7 => Some((0x4, 6)) case 8 => Some((0x7B, 7))
    case 9 => Some((0x7C, 7)) case 10 => Some((0x23, 8)) case 11 => Some((0x22, 8)) case 12 => Some((0xFA, 8))
    case 13 => Some((0xFB, 8)) case 14 => Some((0xFE, 8)) case 15 => Some((0xFF, 8)) case 16 => Some((0x1F, 14))
    case 17 => Some((0x1E, 14)) case 18 => Some((0x1D, 14)) case 19 => Some((0x1C, 14)) case 20 => Some((0x1B, 14))
    case 21 => Some((0x1A, 14)) case 22 => Some((0x19, 14)) case 23 => Some((0x18, 14)) case 24 => Some((0x17, 14))
    case 25 => Some((0x16, 14)) case 26 => Some((0x15, 14)) case 27 => Some((0x14, 14)) case 28 => Some((0x13, 14))
    case 29 => Some((0x12, 14)) case 30 => Some((0x11, 14)) case 31 => Some((0x10, 14)) case 32 => Some((0x18, 15))
    case 33 => Some((0x17, 15)) case 34 => Some((0x16, 15)) case 35 => Some((0x15, 15)) case 36 => Some((0x14, 15))
    case 37 => Some((0x13, 15)) case 38 => Some((0x12, 15)) case 39 => Some((0x11, 15)) case 40 => Some((0x10, 15)) case _ => None
  }

  /** After a run of one. */
  function Run1Code(level: nat): Option<(nat, nat)> {
    match level
    case 1 => Some((0x2, 3)) case 2 => Some((0x6, 5)) case 3 => Some((0x79, 7)) case 4 => Some((0x27, 8))
    case 5 => Some((0x20, 8)) case 6 => Some((0x16, 13)) case 7 => Some((0x15, 13)) case 8 => Some((0x1F, 15))
    case 9 => Some((0x1E, 15)) case 10 => Some((0x1D, 15)) case 11 => Some((0x1C, 15)) case 12 => Some((0x1B, 15))
    case 13 => Some((0x1A, 15)) case 14 => Some((0x19, 15)) case 15 => Some((0x13, 16)) case 16 => Some((0x12, 16))
    case 17 => Some((0x11, 16)) case 18 => Some((0x10, 16)) case _ => None
  }

  /** Of level one, by run. */
  function Level1Code(run: nat): Option<(nat, nat)> {
    match run
    case 2 => Some((0x5, 5)) case 3 => Some((0x7, 5)) case 4 => Some((0x6, 6)) case 5 => Some((0x7, 6))
    case 6 => Some((0x6, 7)) case 7 => Some((0x4, 7)) case 8 => Some((0x5, 7)) case 9 => Some((0x78, 7))
    case 10 => Some((0x7A, 7)) case 11 => Some((0x21, 8)) case 12 => Some((0x25, 8)) case 13 => Some((0x24, 8))
    case 14 => Some((0x5, 9)) case 15 => Some((0x7, 9)) case 16 => Some((0xD, 10)) case 17 => Some((0x1F, 12))
    case 18 => Some((0x1A, 12)) case 19 => Some((0x19, 12)) case 20 => Some((0x17, 12)) case 21 => Some((0x16, 12))
    case 22 => Some((0x1F, 13)) case 23 => Some((0x1E, 13)) case 24 => Some((0x1D, 13)) case 25 => Some((0x1C, 13))
    case 26 => Some((0x1B, 13)) case 27 => Some((0x1F, 16)) case 28 => Some((0x1E, 16)) case 29 => Some((0x1D, 16))
    case 30 => Some((0x1C, 16)) case 31 => Some((0x1B, 16)) case _ => None
  }

  /** Of level two, by run. */
  function Level2Code(run: nat): Option<(nat, nat)> {
    match run
    case 2 => Some((0x7, 7)) case 3 => Some((0x26, 8)) case 4 => Some((0xFD, 8)) case 5 => Some((0x4, 9))
    case 6 => Some((0x1E, 12)) case 7 => Some((0x15, 12)) case 8 => Some((0x11, 12)) case 9 => Some((0x11, 13))
    case 10 => Some((0x10, 13)) case 11 => Some((0x1A, 16)) case 12 => Some((0x19, 16)) case 13 => Some((0x18, 16))
    case 14 => Some((0x17, 16)) case 15 => Some((0x16, 16)) case 16 => Some((0x15, 16)) case _ => None
  }

  /** Of level three, by run. */
  function Level3Code(run: nat): Option<(nat, nat)> {
    match run
    case 2 => Some((0xFC, 8)) case 3 => Some((0x1C, 12)) case 4 => Some((0x12, 12)) case 5 => Some((0x12, 13))
    case 6 => Some((0x14, 16)) case _ => None
  }

  /** The code of an event, if it has one. */
  function AcCode(run: nat, level: nat): Option<(nat, nat)> {
    if run == 0 then Run0Code(level)
    else if run == 1 then Run1Code(level)
    else if level == 1 then Level1Code(run)
    else if level == 2 then Level2Code(run)
    else if level == 3 then Level3Code(run)
    else if run == 2 && level == 4 then Some((0xC, 10))
    else if run == 2 && level == 5 then Some((0x14, 13))
    else if run == 3 && level == 4 then Some((0x13, 13))
    else None
  }

  /** The decoder shares its tables of long codes with Table B-14, and so takes a second code
      for these events. */
  function LongCode(run: nat, level: nat): Option<(nat, nat)> {
    if run == 0 then
      match level
      case 8 => Some((0x1D, 12)) case 9 => Some((0x18, 12)) case 10 => Some((0x13, 12)) case 11 => Some((0x10, 12))
      case 12 => Some((0x1A, 13)) case 13 => Some((0x19, 13)) case 14 => Some((0x18, 13)) case 15 => Some((0x17, 13)) case _ => None
    else if run == 1 && level == 5 then Some((0x1B, 12))
    else if run == 2 && level == 4 then Some((0x14, 12))
    else None
  }

  /** A code of twelve bits or more is an index into the table for its length. */
  function LongEntry(code: nat, len: nat): AcEntry
    requires 16 <= code < 32 && 12 <= len <= 16
  {
    match len
    case 12 => Dct2(code - 16) case 13 => Dct3(code - 16) case 14 => Dct4(code - 16)
    case 15 => Dct5(code - 16) case _ => Dct6(code - 16)
  }

  /** The entry for the first byte of a window, and for its first ten bits. */
  function ByteEntry(i: nat): AcEntry
    requires 4 <= i < 256
  {
    Dct0a(i - 4)
  }

  function TenEntry(i: nat): AcEntry
    requires 8 <= i < 16
  {
    Dct1a(i - 8)
  }

  /** The tables have `e` at every index that begins with the code. */
  ghost predicate InTables(code: nat, len: nat, e: AcEntry) {
    if len >= 12 then 16 <= code < 32 && len <= 16 && LongEntry(code, len) == e
    else if len >= 9 then len <= 10 && 0 < code && forall i :: 8 <= i < 16 && High(i, 10 - len) == code ==> TenEntry(i) == e
    else 2 <= len && forall i :: 4 <= i < 256 && High(i, 8 - len) == code ==> ByteEntry(i) == e
  }

  /** The code itself lies in the range of its table. */
  predicate InRange(code: nat, len: nat) {
    if len >= 12 then 16 <= code < 32 && len <= 16
    else if len >= 9 then len <= 10 && 8 <= code * Pow2(10 - len) < 16 && (code + 1) * Pow2(10 - len) <= 16
    else 2 <= len && 4 <= code * Pow2(8 - len) && (code + 1) * Pow2(8 - len) <= 256
  }

  lemma Run0Selects(level: nat)
    requires Run0Code(level).Some?
    ensures var (code, len) := Run0Code(level).value; InTables(code, len, A(0, level, len)) && InRange(code, len)
  {
    SmallPowers();
  }

  lemma Run1Selects(level: nat)
    requires Run1Code(level).Some?
    ensures var (code, len) := Run1Code(level).value; InTables(code, len, A(1, level, len)) && InRange(code, len)
  {
    SmallPowers();
  }

  lemma Level1Selects(run: nat)
    requires Level1Code(run).Some?
    ensures var (code, len) := Level1Code(run).value; InTables(code, len, A(run, 1, len)) && InRange(code, len)
  {
    SmallPowers();
  }

  lemma Level2Selects(run: nat)
    requires Level2Code(run).Some?
    ensures var (code, len) := Level2Code(run).value; InTables(code, len, A(run, 2, len)) && InRange(code, len)
  {
    SmallPowers();
  }

  lemma OthersSelect(run: nat, level: nat)
    requires run >= 2 && level >= 3 && AcCode(run, level).Some?
    ensures var (code, len) := AcCode(run, level).value; InTables(code, len, A(run, level, len)) && InRange(code, len)
  {
    SmallPowers();
  }

  lemma LongSelects(run: nat, level: nat)
    requires LongCode(run, level).Some?
    ensures var (code, len) := LongCode(run, level).value; InTables(code, len, A(run, level, len)) && InRange(code, len)
  {
    SmallPowers();
  }

  /** An encoder may use the book, or the second code where there is one. */
  function CodeOf(run: nat, level: nat, long: bool): Option<(nat, nat)> {
    if long then LongCode(run, level) else AcCode(run, level)
  }

  lemma BookIsInTables(run: nat, level: nat, long: bool)
    requires CodeOf(run, level, long).Some?
    ensures var (code, len) := CodeOf(run, level, long).value; InTables(code, len, A(run, level, len)) && InRange(code, len)
  {
    hide InTables, InRange, Run0Code, Run1Code, Level1Code, Level2Code, Level3Code, LongCode;
    if long { LongSelects(run, level); }
    else if run == 0 { Run0Selects(level); }
    else if run == 1 { Run1Selects(level); }
    else if level == 1 { Level1Selects(run); }
    else if level == 2 { Level2Selects(run); }
    else if level == 0 { }
    else { OthersSelect(run, level); }
  }

  /** A window of sixteen bits whose top bits are a code of that length. */
  lemma TopSplits(c: nat, len: nat, m: nat)
    requires c < 65536 && len <= m <= 16
    ensures High(c, 16 - len) == High(High(c, 16 - m), m - len)
  {
    PowSum(16 - m, m - len);
    Division.DivDiv(c, Pow2(16 - m), Pow2(m - len));
  }

  lemma LongWindow(c: nat, code: nat, len: nat)
    requires c < 65536 && 12 <= len <= 16 && 16 <= code < 32 && High(c, 16 - len) == code
    ensures AcEntryOf(c) == Some(LongEntry(code, len))
  {
    SmallPowers();
  }

  lemma TenWindow(c: nat)
    requires c < 65536 && 8 <= High(c, 6) < 16
    ensures AcEntryOf(c) == Some(TenEntry(High(c, 6)))
  {
    SmallPowers();
  }

  lemma ByteWindow(c: nat)
    requires c < 65536 && 4 <= High(c, 8)
    ensures High(c, 8) < 256 && AcEntryOf(c) == Some(ByteEntry(High(c, 8)))
  {
    SmallPowers();
  }

  lemma StaysIn(v: nat, n: nat, code: nat, low: nat, high: nat)
    requires High(v, n) == code && low <= code * Pow2(n) && (code + 1) * Pow2(n) <= high
    ensures low <= v < high
  {
    assert v == Pow2(n) * Division.Quotient(v, Pow2(n)) + v % Pow2(n);
  }

  lemma TenSelects(c: nat, code: nat, len: nat, e: AcEntry)
    requires c < 65536 && 9 <= len < 12 && InTables(code, len, e) && InRange(code, len) && High(c, 16 - len) == code
    ensures AcEntryOf(c) == Some(e)
  {
    hide AcEntryOf, High, TenEntry, Pow2;
    TopSplits(c, len, 10);
    StaysIn(High(c, 6), 10 - len, code, 8, 16);
    TenWindow(c);
  }

  lemma ByteSelects(c: nat, code: nat, len: nat, e: AcEntry)
    requires c < 65536 && len < 9 && InTables(code, len, e) && InRange(code, len) && High(c, 16 - len) == code
    ensures AcEntryOf(c) == Some(e)
  {
    hide AcEntryOf, High, ByteEntry, Pow2;
    TopSplits(c, len, 8);
    StaysIn(High(c, 8), 8 - len, code, 4, 256);
    ByteWindow(c);
  }

  /** Whatever follows the code of an event, the decoder's tables select that event. */
  lemma CodeSelects(run: nat, level: nat, long: bool, c: nat)
    requires CodeOf(run, level, long).Some? && c < 65536
    requires var (code, len) := CodeOf(run, level, long).value; len <= 16 && High(c, 16 - len) == code
    ensures AcEntryOf(c) == Some(A(run, level, CodeOf(run, level, long).value.1))
  {
    var (code, len) := CodeOf(run, level, long).value;
    BookIsInTables(run, level, long);
    hide CodeOf, AcEntryOf, High, Pow2, LongEntry;
    if len >= 12 {
      LongWindow(c, code, len);
    } else if len >= 9 {
      TenSelects(c, code, len, A(run, level, len));
    } else {
      ByteSelects(c, code, len, A(run, level, len));
    }
  }

  /** The codes fit their lengths and the events their fields. */
  lemma CodeFits(run: nat, level: nat, long: bool)
    requires CodeOf(run, level, long).Some?
    ensures var (code, len) := CodeOf(run, level, long).value; 2 <= len <= 16 && code < Pow2(len) && run < 32 && level <= 40
  {
    BookIsInTables(run, level, long);
    EventIsSmall(run, level, long);
    var (code, len) := CodeOf(run, level, long).value;
    hide CodeOf, InTables;
    SmallPowers();
    if len >= 12 {
      PowMono(12, len);
    } else if len >= 9 {
      PowSum(len, 10 - len);
      Fits(code, Pow2(len), Pow2(10 - len));
    } else {
      PowSum(len, 8 - len);
      Fits(code, Pow2(len), Pow2(8 - len));
    }
  }

  lemma EventIsSmall(run: nat, level: nat, long: bool)
    requires CodeOf(run, level, long).Some?
    ensures run < 32 && 0 < level <= 40
  {
  }

  lemma Fits(code: nat, a: nat, b: nat)
    requires (code + 1) * b <= a * b && 0 < b
    ensures code < a
  {
    if code >= a { Division.MulMono(a, code, b); }
  }
}
