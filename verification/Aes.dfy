/** The rounds of the block cipher on values: what each step does to a 4 x 4 state, and why
    the decryption rounds undo the encryption rounds. */
module Aes {
  import opened AesTables
  import opened AesField
  import Gf

  type Word = bv32

  /** Four columns; `state[r][c]` in the source is row r of column c. */
  datatype State = State(c0: Col, c1: Col, c2: Col, c3: Col)

  function SubCol(c: Col): Col { Col(Sbox(c.a), Sbox(c.b), Sbox(c.c), Sbox(c.d)) }
  function InvSubCol(c: Col): Col { Col(InvSbox(c.a), InvSbox(c.b), InvSbox(c.c), InvSbox(c.d)) }

  function SubBytes(s: State): State { State(SubCol(s.c0), SubCol(s.c1), SubCol(s.c2), SubCol(s.c3)) }
  function InvSubBytes(s: State): State { State(InvSubCol(s.c0), InvSubCol(s.c1), InvSubCol(s.c2), InvSubCol(s.c3)) }

  /** Row r moves r places to the left. */
  function ShiftRows(s: State): State {
    State(Col(s.c0.a, s.c1.b, s.c2.c, s.c3.d), Col(s.c1.a, s.c2.b, s.c3.c, s.c0.d),
          Col(s.c2.a, s.c3.b, s.c0.c, s.c1.d), Col(s.c3.a, s.c0.b, s.c1.c, s.c2.d))
  }

  function InvShiftRows(s: State): State {
    State(Col(s.c0.a, s.c3.b, s.c2.c, s.c1.d), Col(s.c1.a, s.c0.b, s.c3.c, s.c2.d),
          Col(s.c2.a, s.c1.b, s.c0.c, s.c3.d), Col(s.c3.a, s.c2.b, s.c1.c, s.c0.d))
  }

  function MixColumns(s: State): State { State(MixCol(s.c0), MixCol(s.c1), MixCol(s.c2), MixCol(s.c3)) }
  function InvMixColumns(s: State): State { State(InvMixCol(s.c0), InvMixCol(s.c1), InvMixCol(s.c2), InvMixCol(s.c3)) }

  /** The bytes of a key word, most significant first. */
  function WordCol(w: Word): Col {
    Col(((w >> 24) & 0xFF) as bv8, ((w >> 16) & 0xFF) as bv8, ((w >> 8) & 0xFF) as bv8, (w & 0xFF) as bv8)
  }

  function AddCol(c: Col, k: Col): Col {
    Col(Gf.X2(c.a, k.a), Gf.X2(c.b, k.b), Gf.X2(c.c, k.c), Gf.X2(c.d, k.d))
  }

  /** Adds the four key words of round `r`. */
  function AddRoundKey(s: State, w: seq<Word>, r: nat): State
    requires 4 * r + 4 <= |w|
  {
    State(AddCol(s.c0, WordCol(w[4 * r])), AddCol(s.c1, WordCol(w[4 * r + 1])),
          AddCol(s.c2, WordCol(w[4 * r + 2])), AddCol(s.c3, WordCol(w[4 * r + 3])))
  }

  // ---- Every step has an inverse ----

  lemma SubColInverse(c: Col)
    ensures InvSubCol(SubCol(c)) == c && SubCol(InvSubCol(c)) == c
  {
    hide Sbox, InvSbox;
    SboxInverse(c.a); SboxInverse(c.b); SboxInverse(c.c); SboxInverse(c.d);
  }

  lemma SubBytesInverse(s: State)
    ensures InvSubBytes(SubBytes(s)) == s && SubBytes(InvSubBytes(s)) == s
  {
    hide SubCol, InvSubCol;
    SubColInverse(s.c0); SubColInverse(s.c1); SubColInverse(s.c2); SubColInverse(s.c3);
  }

  lemma ShiftRowsInverse(s: State)
    ensures InvShiftRows(ShiftRows(s)) == s && ShiftRows(InvShiftRows(s)) == s
  {
  }

  lemma MixColumnsInverse(s: State)
    ensures InvMixColumns(MixColumns(s)) == s && MixColumns(InvMixColumns(s)) == s
  {
    hide MixCol, InvMixCol;
    MixAndUnmix(s.c0); MixAndUnmix(s.c1); MixAndUnmix(s.c2); MixAndUnmix(s.c3);
  }

  lemma AddByteTwice(b: Byte, k: Byte)
    ensures Gf.X2(Gf.X2(b, k), k) == b
  {
  }

  lemma AddColTwice(c: Col, k: Col)
    ensures AddCol(AddCol(c, k), k) == c
  {
    hide Gf.X2;
    AddByteTwice(c.a, k.a); AddByteTwice(c.b, k.b); AddByteTwice(c.c, k.c); AddByteTwice(c.d, k.d);
  }

  lemma AddRoundKeyTwice(s: State, w: seq<Word>, r: nat)
    requires 4 * r + 4 <= |w|
    ensures AddRoundKey(AddRoundKey(s, w, r), w, r) == s
  {
    hide AddCol, WordCol;
    AddColTwice(s.c0, WordCol(w[4 * r])); AddColTwice(s.c1, WordCol(w[4 * r + 1]));
    AddColTwice(s.c2, WordCol(w[4 * r + 2])); AddColTwice(s.c3, WordCol(w[4 * r + 3]));
  }

  // ---- Rounds ----

  function Round(s: State, w: seq<Word>, r: nat): State
    requires 4 * r + 4 <= |w|
  {
    AddRoundKey(MixColumns(ShiftRows(SubBytes(s))), w, r)
  }

  function LastRound(s: State, w: seq<Word>, r: nat): State
    requires 4 * r + 4 <= |w|
  {
    AddRoundKey(ShiftRows(SubBytes(s)), w, r)
  }

  /** The first key and `n` rounds. */
  function Rounds(s: State, w: seq<Word>, n: nat): State
    requires 4 * n + 4 <= |w|
  {
    if n == 0 then AddRoundKey(s, w, 0) else Round(Rounds(s, w, n - 1), w, n)
  }

  function EncryptRounds(s: State, w: seq<Word>, nr: nat): State
    requires 0 < nr && 4 * nr + 4 <= |w|
  {
    LastRound(Rounds(s, w, nr - 1), w, nr)
  }

  function InvRound(s: State, w: seq<Word>, r: nat): State
    requires 4 * r + 4 <= |w|
  {
    InvMixColumns(AddRoundKey(InvSubBytes(InvShiftRows(s)), w, r))
  }

  /** Rounds r, r - 1, ..., 1 of decryption and the last key. */
  function InvRounds(s: State, w: seq<Word>, r: nat): State
    requires 4 * r + 4 <= |w|
    decreases r
  {
    if r == 0 then AddRoundKey(InvSubBytes(InvShiftRows(s)), w, 0)
    else InvRounds(InvRound(s, w, r), w, r - 1)
  }

  function DecryptRounds(s: State, w: seq<Word>, nr: nat): State
    requires 0 < nr && 4 * nr + 4 <= |w|
  {
    InvRounds(AddRoundKey(s, w, nr), w, nr - 1)
  }

  lemma {:induction false} InvRoundsUndo(s: State, w: seq<Word>, r: nat)
    requires 4 * r + 4 <= |w|
    ensures InvRounds(ShiftRows(SubBytes(Rounds(s, w, r))), w, r) == s
  {
    hide SubBytes, InvSubBytes, ShiftRows, InvShiftRows, MixColumns, InvMixColumns, AddRoundKey;
    var t := Rounds(s, w, r);
    ShiftRowsInverse(SubBytes(t));
    SubBytesInverse(t);
    if r == 0 {
      AddRoundKeyTwice(s, w, 0);
    } else {
      var u := ShiftRows(SubBytes(Rounds(s, w, r - 1)));
      AddRoundKeyTwice(MixColumns(u), w, r);
      MixColumnsInverse(u);
      InvRoundsUndo(s, w, r - 1);
    }
  }

  /** Decryption undoes encryption with the same number of rounds, whatever the key words. */
  lemma DecryptUndoesEncrypt(s: State, w: seq<Word>, nr: nat)
    requires 0 < nr && 4 * nr + 4 <= |w|
    ensures DecryptRounds(EncryptRounds(s, w, nr), w, nr) == s
  {
    hide SubBytes, ShiftRows, AddRoundKey, Rounds, InvRounds;
    AddRoundKeyTwice(ShiftRows(SubBytes(Rounds(s, w, nr - 1))), w, nr);
    InvRoundsUndo(s, w, nr - 1);
  }

  lemma {:induction false} RoundsUndo(s: State, w: seq<Word>, r: nat)
    requires 4 * r + 4 <= |w|
    ensures ShiftRows(SubBytes(Rounds(InvRounds(s, w, r), w, r))) == s
    decreases r
  {
    hide SubBytes, InvSubBytes, ShiftRows, InvShiftRows, MixColumns, InvMixColumns, AddRoundKey;
    ShiftRowsInverse(s);
    SubBytesInverse(InvShiftRows(s));
    var t := InvSubBytes(InvShiftRows(s));
    if r == 0 {
      AddRoundKeyTwice(t, w, 0);
    } else {
      RoundsUndo(InvRound(s, w, r), w, r - 1);
      MixColumnsInverse(AddRoundKey(t, w, r));
      AddRoundKeyTwice(t, w, r);
    }
  }

  /** And the other way round, so both are bijections on blocks. */
  lemma EncryptUndoesDecrypt(s: State, w: seq<Word>, nr: nat)
    requires 0 < nr && 4 * nr + 4 <= |w|
    ensures EncryptRounds(DecryptRounds(s, w, nr), w, nr) == s
  {
    hide SubBytes, ShiftRows, AddRoundKey, Rounds, InvRounds;
    RoundsUndo(AddRoundKey(s, w, nr), w, nr - 1);
    AddRoundKeyTwice(s, w, nr);
  }
}
