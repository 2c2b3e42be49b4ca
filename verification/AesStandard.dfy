/** The cipher as FIPS 197 describes it, byte by byte: its tables from the arithmetic of
    GF(2^8), its steps by row and column, and its key schedule by the bytes of the words. */
module AesStandard {
  import opened AesTables
  import opened AesInverses
  import opened AesField
  import opened Aes
  import opened AesCipher
  import opened AesKeySchedule
  import Gf

  // ---- The substitution table ----

  /** Section 5.1.1: bit i of the result is the sum of bits i, i + 4, i + 5, i + 6 and i + 7
      and of bit i of 63. */
  function Affine(b: Byte): Byte {
    b ^ ((b << 1) | (b >> 7)) ^ ((b << 2) | (b >> 6)) ^ ((b << 3) | (b >> 5)) ^ ((b << 4) | (b >> 4)) ^ 0x63
  }

  lemma SboxOfLow(b: Byte, i: Byte)
    requires Times(b, i) == 1 && b < 0x80
    ensures Sbox(b) == Affine(i)
  {
  }

  lemma SboxOfHigh(b: Byte, i: Byte)
    requires Times(b, i) == 1 && b >= 0x80
    ensures Sbox(b) == Affine(i)
  {
  }

  /** The table entry of a byte is the affine map of its inverse, and of zero for zero. */
  lemma SboxIsInverse(b: Byte)
    ensures Sbox(0) == 0x63 == Affine(0)
    ensures b != 0 ==> exists i :: Times(b, i) == 1
    ensures forall i :: Times(b, i) == 1 ==> Sbox(b) == Affine(i)
  {
    assert Sbox(0) == 0x63;
    hide Sbox, Times, Affine;
    if b != 0 { HasInverse(b); }
    forall i | Times(b, i) == 1
      ensures Sbox(b) == Affine(i)
    {
      if b < 0x80 { SboxOfLow(b, i); } else { SboxOfHigh(b, i); }
    }
  }

  // ---- The steps of a round, by row and column ----

  type Four = i: nat | i < 4

  function InCol(c: Col, r: Four): Byte { match r case 0 => c.a case 1 => c.b case 2 => c.c case _ => c.d }

  function ColOf(s: State, c: Four): Col { match c case 0 => s.c0 case 1 => s.c1 case 2 => s.c2 case _ => s.c3 }

  /** Row `r`, column `c` of the state. */
  function Cell(s: State, r: Four, c: Four): Byte { InCol(ColOf(s, c), r) }

  /** Byte `r` of a word, from the top. */
  function ByteOf(w: Word, r: Four): Byte {
    match r
    case 0 => (w >> 24) as bv8
    case 1 => ((w >> 16) & 0xFF) as bv8
    case 2 => ((w >> 8) & 0xFF) as bv8
    case _ => (w & 0xFF) as bv8
  }

  lemma BlockIsByColumns(b: Block, s: State, r: Four, c: Four)
    ensures Cell(StateOf(b), r, c) == b[r + 4 * c] && BlockOf(s)[r + 4 * c] == Cell(s, r, c)
  {
    ColumnOfBlock(b, c);
    ColumnOfBlock(BlockOf(s), c);
    hide StateOf, ColOf, BlockOf;
  }

  lemma ColumnOfBlock(b: Block, c: Four)
    ensures ColOf(StateOf(b), c) == Col(b[4 * c], b[4 * c + 1], b[4 * c + 2], b[4 * c + 3])
  {
  }

  lemma SubBytesIs(s: State, r: Four, c: Four)
    ensures Cell(SubBytes(s), r, c) == Sbox(Cell(s, r, c))
  {
    hide Sbox;
  }

  lemma ShiftRowsIs(s: State, r: Four, c: Four)
    ensures Cell(ShiftRows(s), r, c) == Cell(s, r, (c + r) % 4)
  {
  }

  /** A mixed byte: twice its own row, three times the next, and the other two. */
  lemma MixColIs(c: Col, r: Four)
    ensures InCol(MixCol(c), r) ==
      Gf.X4(Times(InCol(c, r), 2), Times(InCol(c, (r + 1) % 4), 3), InCol(c, (r + 2) % 4), InCol(c, (r + 3) % 4))
  {
    hide Times, Gf.M2, MixCol, Gf.X5, Gf.X4, Gf.X2, InCol;
    MixedRow(c, r);
    var p, q := InCol(c, r), InCol(c, (r + 1) % 4);
    SmallTimes(p); SmallTimes(q);
    FlatSum(Gf.M2(p), Gf.M2(q), q, InCol(c, (r + 2) % 4), InCol(c, (r + 3) % 4));
  }

  lemma MixedRow(c: Col, r: Four)
    ensures InCol(MixCol(c), r) == Gf.Mixed(InCol(c, r), InCol(c, (r + 1) % 4), InCol(c, (r + 2) % 4), InCol(c, (r + 3) % 4))
  {
    hide Gf.Mixed, MixCol;
    AesField.MixColIs(c);
  }

  lemma SmallTimes(b: Byte)
    ensures Times(b, 2) == Gf.M2(b) && Times(b, 3) == Gf.X2(Gf.M2(b), b)
  {
  }

  lemma FlatSum(a2: Byte, b2: Byte, b: Byte, c: Byte, d: Byte)
    ensures Gf.X5(a2, b2, b, c, d) == Gf.X4(a2, Gf.X2(b2, b), c, d)
  {
  }

  lemma MixColumnsIs(s: State, r: Four, c: Four)
    ensures Cell(MixColumns(s), r, c) ==
      Gf.X4(Times(Cell(s, r, c), 2), Times(Cell(s, (r + 1) % 4, c), 3), Cell(s, (r + 2) % 4, c), Cell(s, (r + 3) % 4, c))
  {
    hide MixCol, Times, Gf.X4;
    MixColIs(ColOf(s, c), r);
  }

  /** Column `c` of the key of round `n` is word 4 n + c, top byte first. */
  lemma AddRoundKeyIs(s: State, w: seq<Word>, n: nat, r: Four, c: Four)
    requires 4 * n + 4 <= |w|
    ensures Cell(AddRoundKey(s, w, n), r, c) == Gf.X2(Cell(s, r, c), ByteOf(w[4 * n + c], r))
  {
    hide WordCol, ByteOf, Gf.X2, AddRoundKey, ColOf, AddCol, InCol;
    KeyColumn(s, w, n, c);
    AddColIs(ColOf(s, c), WordCol(w[4 * n + c]), r);
    WordColIs(w[4 * n + c], r);
  }

  lemma AddColIs(c: Col, k: Col, r: Four)
    ensures InCol(AddCol(c, k), r) == Gf.X2(InCol(c, r), InCol(k, r))
  {
    hide Gf.X2;
  }

  lemma KeyColumn(s: State, w: seq<Word>, n: nat, c: Four)
    requires 4 * n + 4 <= |w|
    ensures ColOf(AddRoundKey(s, w, n), c) == AddCol(ColOf(s, c), WordCol(w[4 * n + c]))
  {
    hide AddCol, WordCol;
  }

  lemma WordColIs(w: Word, r: Four)
    ensures InCol(WordCol(w), r) == ByteOf(w, r)
  {
  }

  // ---- The whole cipher ----

  /** What a round makes of row `r`, column `c`: substituted, shifted, mixed, and with its key. */
  lemma RoundIs(s: State, w: seq<Word>, n: nat, r: Four, c: Four)
    requires 4 * n + 4 <= |w|
    ensures Cell(Round(s, w, n), r, c) == Gf.X2(RoundSum(s, r, c), ByteOf(w[4 * n + c], r))
  {
    hide SubBytes, ShiftRows, MixColumns, AddRoundKey, Sbox, Times, Cell, ByteOf, Gf.X2, Gf.X4;
    var u := ShiftRows(SubBytes(s));
    AddRoundKeyIs(MixColumns(u), w, n, r, c);
    MixColumnsIs(u, r, c);
    forall i: Four
      ensures Cell(u, i, c) == Shifted(s, i, c)
    {
      ShiftedIs(s, i, c);
    }
    hide Shifted;
  }

  /** The substituted byte that the shift brings to row `r`, column `c`. */
  function Shifted(s: State, r: Four, c: Four): Byte { Sbox(Cell(s, r, (c + r) % 4)) }

  lemma ShiftedIs(s: State, r: Four, c: Four)
    ensures Cell(ShiftRows(SubBytes(s)), r, c) == Shifted(s, r, c)
  {
    hide SubBytes, ShiftRows, Sbox, Cell;
    ShiftRowsIs(SubBytes(s), r, c);
    SubBytesIs(s, r, (c + r) % 4);
  }

  function RoundSum(s: State, r: Four, c: Four): Byte {
    Gf.X4(Times(Shifted(s, r, c), 2), Times(Shifted(s, (r + 1) % 4, c), 3), Shifted(s, (r + 2) % 4, c), Shifted(s, (r + 3) % 4, c))
  }

  /** The first key is added to the block. */
  ghost predicate BeginsAt(b: Block, w: seq<Word>, s: State, r: Four, c: Four)
    requires 4 <= |w|
  {
    Cell(s, r, c) == Gf.X2(b[r + 4 * c], ByteOf(w[c], r))
  }

  /** Round `n` makes state n of the one before it. */
  ghost predicate RoundAt(t: seq<State>, w: seq<Word>, n: nat, r: Four, c: Four)
    requires 0 < n < |t| && 4 * n + 4 <= |w|
  {
    Cell(t[n], r, c) == Gf.X2(RoundSum(t[n - 1], r, c), ByteOf(w[4 * n + c], r))
  }

  /** The last round, with key `n`, does not mix. */
  ghost predicate EndsAt(s: State, w: seq<Word>, n: nat, out: Block, r: Four, c: Four)
    requires 4 * n + 4 <= |w|
  {
    out[r + 4 * c] == Gf.X2(Shifted(s, r, c), ByteOf(w[4 * n + c], r))
  }

  /** Section 5.1 byte by byte: `t` holds the state after the first key and after each full
      round, and `out` comes from the last of them. */
  ghost predicate IsCipher(b: Block, w: seq<Word>, nr: nat, t: seq<State>, out: Block) {
    && 0 < nr == |t| && 4 * nr + 4 <= |w|
    && (forall r: Four, c: Four :: BeginsAt(b, w, t[0], r, c))
    && (forall n: nat, r: Four, c: Four :: 0 < n < nr ==> RoundAt(t, w, n, r, c))
    && Finishes(t[nr - 1], w, nr, out)
  }

  ghost predicate Finishes(s: State, w: seq<Word>, n: nat, out: Block)
    requires 4 * n + 4 <= |w|
  {
    forall r: Four, c: Four :: EndsAt(s, w, n, out, r, c)
  }

  function StatesOf(s: State, w: seq<Word>, nr: nat): (t: seq<State>)
    requires 4 * nr + 4 <= |w|
    ensures |t| == nr && forall n :: 0 <= n < nr ==> t[n] == Rounds(s, w, n)
  {
    seq<State>(nr, n requires 0 <= n < nr => Rounds(s, w, n))
  }

  lemma Begins(b: Block, w: seq<Word>, r: Four, c: Four)
    requires 4 <= |w|
    ensures BeginsAt(b, w, AddRoundKey(StateOf(b), w, 0), r, c)
  {
    hide AddRoundKey, Cell, ByteOf, Gf.X2, StateOf, BlockOf;
    AddRoundKeyIs(StateOf(b), w, 0, r, c);
    BlockIsByColumns(b, StateOf(b), r, c);
  }

  lemma Ends(s: State, w: seq<Word>, nr: nat, r: Four, c: Four)
    requires 4 * nr + 4 <= |w|
    ensures EndsAt(s, w, nr, BlockOf(LastRound(s, w, nr)), r, c)
  {
    hide AddRoundKey, Cell, ByteOf, Gf.X2, Shifted, StateOf, BlockOf, SubBytes, ShiftRows;
    AddRoundKeyIs(ShiftRows(SubBytes(s)), w, nr, r, c);
    ShiftedIs(s, r, c);
    BlockIsByColumns(BlockOf(LastRound(s, w, nr)), LastRound(s, w, nr), r, c);
  }

  lemma Goes(s: State, w: seq<Word>, nr: nat, n: nat, r: Four, c: Four)
    requires 0 < n < nr && 4 * nr + 4 <= |w|
    ensures RoundAt(StatesOf(s, w, nr), w, n, r, c)
  {
    hide Round, Cell, ByteOf, Gf.X2, RoundSum, AddRoundKey;
    RoundIs(Rounds(s, w, n - 1), w, n, r, c);
  }

  lemma EncryptIs(b: Block, w: seq<Word>, nr: nat)
    requires 0 < nr && 4 * nr + 4 <= |w|
    ensures IsCipher(b, w, nr, StatesOf(StateOf(b), w, nr), BlockOf(EncryptRounds(StateOf(b), w, nr)))
  {
    var t := StatesOf(StateOf(b), w, nr);
    assert t[0] == AddRoundKey(StateOf(b), w, 0);
    hide LastRound, AddRoundKey, Rounds, StateOf, BlockOf, BeginsAt, RoundAt, EndsAt;
    forall r: Four, c: Four
      ensures BeginsAt(b, w, t[0], r, c)
    {
      Begins(b, w, r, c);
    }
    var last := t[nr - 1];
    forall r: Four, c: Four
      ensures EndsAt(last, w, nr, BlockOf(EncryptRounds(StateOf(b), w, nr)), r, c)
    {
      Ends(last, w, nr, r, c);
    }
    forall n: nat, r: Four, c: Four | 0 < n < nr
      ensures RoundAt(t, w, n, r, c)
    {
      Goes(StateOf(b), w, nr, n, r, c);
    }
  }

  /** The driver computes the cipher of the standard; for the three key sizes it has, with
      six rounds more than the key has words. */
  lemma EncryptIsStandard(b: Block, w: seq<Word>, keysize: int)
    requires |w| >= KeyWords(EncryptNr(keysize))
    ensures exists t :: IsCipher(b, w, EncryptNr(keysize), t, Encrypt(b, w, keysize))
    ensures keysize in {128, 192, 256} ==> EncryptNr(keysize) == keysize / 32 + 6
  {
    hide IsCipher, EncryptRounds, StateOf, BlockOf, StatesOf;
    EncryptIs(b, w, EncryptNr(keysize));
    assert IsCipher(b, w, EncryptNr(keysize), StatesOf(StateOf(b), w, EncryptNr(keysize)), Encrypt(b, w, keysize));
  }

  // ---- The key schedule ----

  lemma XorBytes(a: Word, b: Word, r: Four)
    ensures ByteOf(Xor(a, b), r) == Gf.X2(ByteOf(a, r), ByteOf(b, r))
  {
    match r
    case 0 => XorByte0(a, b);
    case 1 => XorByte1(a, b);
    case 2 => XorByte2(a, b);
    case _ => XorByte3(a, b);
  }

  lemma XorByte0(a: Word, b: Word)
    ensures ByteOf(Xor(a, b), 0) == Gf.X2(ByteOf(a, 0), ByteOf(b, 0))
  {
  }

  lemma XorByte1(a: Word, b: Word)
    ensures ByteOf(Xor(a, b), 1) == Gf.X2(ByteOf(a, 1), ByteOf(b, 1))
  {
  }

  lemma XorByte2(a: Word, b: Word)
    ensures ByteOf(Xor(a, b), 2) == Gf.X2(ByteOf(a, 2), ByteOf(b, 2))
  {
  }

  lemma XorByte3(a: Word, b: Word)
    ensures ByteOf(Xor(a, b), 3) == Gf.X2(ByteOf(a, 3), ByteOf(b, 3))
  {
  }

  lemma RotWordBytes(w: Word, r: Four)
    ensures ByteOf(RotWord(w), r) == ByteOf(w, (r + 1) % 4)
  {
  }

  function Sum4(a: Word, b: Word, c: Word, d: Word): Word { d + (c << 8) + (b << 16) + (a << 24) }

  lemma SumBytes(a: Word, b: Word, c: Word, d: Word, r: Four)
    requires a < 256 && b < 256 && c < 256 && d < 256
    ensures ByteOf(Sum4(a, b, c, d), r) == (match r case 0 => a case 1 => b case 2 => c case _ => d) as bv8
  {
  }

  lemma SubByteIs(w: Word, b: Byte)
    requires (w & 0xFF) as bv8 == b
    ensures SubByte(w) < 256 && SubByte(w) as bv8 == Sbox(b)
  {
    hide Sbox;
  }

  lemma LowBytes(w: Word)
    ensures (w & 0xFF) as bv8 == ByteOf(w, 3) && ((w >> 8) & 0xFF) as bv8 == ByteOf(w, 2)
    ensures ((w >> 16) & 0xFF) as bv8 == ByteOf(w, 1) && ((w >> 24) & 0xFF) as bv8 == ByteOf(w, 0)
  {
  }

  lemma SubWordIs(w: Word)
    ensures SubWord(w) == Sum4(SubByte(w >> 24), SubByte(w >> 16), SubByte(w >> 8), SubByte(w))
  {
    hide SubByte;
  }

  lemma SubWordParts(w: Word) returns (a: Word, b: Word, c: Word, d: Word)
    ensures a < 256 && b < 256 && c < 256 && d < 256 && SubWord(w) == Sum4(a, b, c, d)
    ensures a as bv8 == Sbox(ByteOf(w, 0)) && b as bv8 == Sbox(ByteOf(w, 1))
    ensures c as bv8 == Sbox(ByteOf(w, 2)) && d as bv8 == Sbox(ByteOf(w, 3))
  {
    hide *;
    LowBytes(w);
    SubByteIs(w, ByteOf(w, 3)); SubByteIs(w >> 8, ByteOf(w, 2)); SubByteIs(w >> 16, ByteOf(w, 1)); SubByteIs(w >> 24, ByteOf(w, 0));
    SubWordIs(w);
    a, b, c, d := SubByte(w >> 24), SubByte(w >> 16), SubByte(w >> 8), SubByte(w);
  }

  lemma SubWordBytes(w: Word, r: Four)
    ensures ByteOf(SubWord(w), r) == Sbox(ByteOf(w, r))
  {
    hide Sbox, ByteOf, SubWord, Sum4;
    var a, b, c, d := SubWordParts(w);
    SumBytes(a, b, c, d, r);
  }

  /** x to the power k in GF(2^8). */
  function Power(k: nat): Byte { if k == 0 then 1 else Gf.M2(Power(k - 1)) }

  function Top(b: Byte): Word { (b as Word) << 24 }

  lemma NextRcon(k: nat, b: Byte)
    requires k + 1 < |RCON| && RCON[k] == Top(b)
    ensures RCON[k + 1] == Top(Gf.M2(b))
  {
    RconIsPower(k);
    BackDown(b);
    hide Gf.M2;
  }

  lemma BackDown(b: Byte)
    ensures (Top(b) >> 24) as bv8 == b
  {
  }

  lemma FirstRcon()
    ensures RCON[0] == Top(1) && |RCON| == 15
  {
  }

  lemma {:induction false} RconIs(k: nat)
    requires k < 15
    ensures |RCON| == 15 && RCON[k] == Top(Power(k))
  {
    FirstRcon();
    hide Gf.M2, Top;
    if k > 0 {
      RconIs(k - 1);
      NextRcon(k - 1, Power(k - 1));
    }
  }

  lemma TopByte(b: Byte, r: Four)
    ensures ByteOf(Top(b), r) == if r == 0 then b else 0
  {
  }

  /** The number of the constant that word i takes. */
  lemma RconIndex(i: nat, nk: nat)
    requires nk in {4, 6, 8} && 0 < i < 60
    ensures 0 <= (i - 1) / nk < 15 && (i % nk == 0 ==> (i - 1) / nk == i / nk - 1)
  {
  }

  lemma KeyBytes(key: seq<Byte>, w: seq<Word>, nk: nat, n: nat, i: nat, r: Four)
    requires IsSchedule(key, w, nk, n) && i < nk
    ensures ByteOf(w[i], r) == key[4 * i + r]
  {
    hide ByteOf, Pack, Xor, Temp;
    PackBytes(key[4 * i], key[4 * i + 1], key[4 * i + 2], key[4 * i + 3], r);
  }

  lemma PackBytes(a: Byte, b: Byte, c: Byte, d: Byte, r: Four)
    ensures ByteOf(Pack(a, b, c, d), r) == match r case 0 => a case 1 => b case 2 => c case _ => d
  {
  }

  /** What is added to the word nk places before, from the word before. */
  lemma TempBytes(prev: Word, i: nat, nk: nat, r: Four)
    requires nk in {4, 6, 8} && nk <= i < 60
    ensures i % nk == 0 ==>
      ByteOf(Temp(prev, i, nk), r) == Gf.X2(Sbox(ByteOf(prev, (r + 1) % 4)), if r == 0 then Power(i / nk - 1) else 0)
    ensures nk == 8 && i % 8 == 4 ==> ByteOf(Temp(prev, i, nk), r) == Sbox(ByteOf(prev, r))
    ensures i % nk != 0 && !(nk == 8 && i % 8 == 4) ==> Temp(prev, i, nk) == prev
  {
    hide ByteOf, Xor, SubWord, RotWord, Sbox, Gf.X2, Power, Top;
    SubWordBytes(prev, r);
    if i % nk == 0 {
      RconIndex(i, nk);
      RconIs((i - 1) / nk);
      XorBytes(SubWord(RotWord(prev)), Rcon(i, nk), r);
      SubWordBytes(RotWord(prev), r);
      RotWordBytes(prev, r);
      TopByte(Power((i - 1) / nk), r);
    }
  }

  /** Section 5.2 byte by byte. */
  lemma ScheduleIsStandard(key: seq<Byte>, w: seq<Word>, nk: nat, n: nat, i: nat, r: Four)
    requires IsSchedule(key, w, nk, n) && i < n
    ensures i < nk ==> ByteOf(w[i], r) == key[4 * i + r]
    ensures i >= nk && i % nk == 0 ==>
      ByteOf(w[i], r) == Gf.X2(ByteOf(w[i - nk], r), Gf.X2(Sbox(ByteOf(w[i - 1], (r + 1) % 4)), if r == 0 then Power(i / nk - 1) else 0))
    ensures i >= nk && nk == 8 && i % 8 == 4 ==> ByteOf(w[i], r) == Gf.X2(ByteOf(w[i - nk], r), Sbox(ByteOf(w[i - 1], r)))
    ensures i >= nk && i % nk != 0 && !(nk == 8 && i % 8 == 4) ==> ByteOf(w[i], r) == Gf.X2(ByteOf(w[i - nk], r), ByteOf(w[i - 1], r))
  {
    hide ByteOf, Pack, Xor, SubWord, RotWord, Sbox, Gf.X2, Power;
    if i < nk {
      KeyBytes(key, w, nk, n, i, r);
    } else {
      var prev := w[i - 1];
      assert w[i] == Xor(w[i - nk], Temp(prev, i, nk));
      XorBytes(w[i - nk], Temp(prev, i, nk), r);
      TempBytes(prev, i, nk, r);
      hide Temp, IsSchedule;
    }
  }
}
