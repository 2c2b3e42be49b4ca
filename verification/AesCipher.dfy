/** The cipher as the program calls it: which number of rounds each driver takes for a key
    size, and when decryption therefore undoes encryption. */
module AesCipher {
  import opened AesTables
  import opened AesField
  import opened Aes
  import Gf

  type Block = b: seq<Byte> | |b| == 16 witness [0, 0, 0, 0, 0, 0, 0, 0, 0, 0, 0, 0, 0, 0, 0, 0]

  /** The longest schedule, for 14 rounds. */
  const MAX_WORDS: nat := 60

  function StateOf(b: Block): State {
    State(Col(b[0], b[1], b[2], b[3]), Col(b[4], b[5], b[6], b[7]),
          Col(b[8], b[9], b[10], b[11]), Col(b[12], b[13], b[14], b[15]))
  }

  function BlockOf(s: State): (b: Block)
    ensures StateOf(b) == s
  {
    [s.c0.a, s.c0.b, s.c0.c, s.c0.d, s.c1.a, s.c1.b, s.c1.c, s.c1.d,
     s.c2.a, s.c2.b, s.c2.c, s.c2.d, s.c3.a, s.c3.b, s.c3.c, s.c3.d]
  }

  lemma BlockOfStateOf(b: Block)
    ensures BlockOf(StateOf(b)) == b
  {
  }

  /** The encryption driver tests for inequality, the decryption driver for order. */
  function EncryptNr(keysize: int): nat {
    if keysize != 128 then if keysize != 192 then 14 else 12 else 10
  }

  function DecryptNr(keysize: int): nat {
    if keysize > 128 then if keysize > 192 then 14 else 12 else 10
  }

  /** The words of a schedule for `nr` rounds. */
  function KeyWords(nr: nat): nat { 4 * nr + 4 }

  function Encrypt(b: Block, w: seq<Word>, keysize: int): Block
    requires |w| >= KeyWords(EncryptNr(keysize))
  {
    BlockOf(EncryptRounds(StateOf(b), w, EncryptNr(keysize)))
  }

  function Decrypt(b: Block, w: seq<Word>, keysize: int): Block
    requires |w| >= KeyWords(DecryptNr(keysize))
  {
    BlockOf(DecryptRounds(StateOf(b), w, DecryptNr(keysize)))
  }

  // ---- When decryption undoes encryption ----

  lemma {:induction false} RoundsUseFirstKeys(s: State, w: seq<Word>, v: seq<Word>, n: nat)
    requires 4 * n + 4 <= |w| && 4 * n + 4 <= |v| && w[..4 * n + 4] == v[..4 * n + 4]
    ensures Rounds(s, w, n) == Rounds(s, v, n)
  {
    hide SubBytes, ShiftRows, MixColumns, AddCol, WordCol;
    assert forall i :: 0 <= i < 4 * n + 4 ==> w[i] == w[..4 * n + 4][i] == v[i];
    if n > 0 {
      assert w[..4 * (n - 1) + 4] == v[..4 * (n - 1) + 4];
      RoundsUseFirstKeys(s, w, v, n - 1);
    }
  }

  lemma LastBytesDiffer(b: Byte)
    ensures Gf.X2(b, WordCol(0).d) != Gf.X2(b, WordCol(1).d)
  {
  }

  lemma AddColDiffers(c: Col, k: Word, k': Word)
    requires k == 0 && k' == 1
    ensures AddCol(c, WordCol(k)) != AddCol(c, WordCol(k'))
  {
    hide WordCol, Gf.X2;
    LastBytesDiffer(c.d);
  }

  lemma SameEncryption(s: State, w: seq<Word>, v: seq<Word>, n: nat)
    requires 0 < n && 4 * n + 4 <= |w| && 4 * n + 4 <= |v| && w[..4 * n + 4] == v[..4 * n + 4]
    ensures EncryptRounds(s, w, n) == EncryptRounds(s, v, n)
  {
    hide AddCol, WordCol, SubBytes, ShiftRows, Rounds;
    assert forall i :: 0 <= i < 4 * n + 4 ==> w[i] == w[..4 * n + 4][i] == v[i];
    assert w[..4 * (n - 1) + 4] == v[..4 * (n - 1) + 4];
    RoundsUseFirstKeys(s, w, v, n - 1);
  }

  lemma EncryptionsDiffer(s: State, w: seq<Word>, v: seq<Word>)
    requires |w| == MAX_WORDS && w[56] == 0 && v == w[56 := 1]
    ensures EncryptRounds(s, w, 14) != EncryptRounds(s, v, 14)
  {
    assert w[..56] == v[..56];
    RoundsUseFirstKeys(s, w, v, 13);
    AddColDiffers(ShiftRows(SubBytes(Rounds(s, w, 13))).c0, w[56], v[56]);
    hide AddCol, WordCol, SubBytes, ShiftRows, Rounds;
  }

  /** Decryption that stops short sees the same keys in both arrays and so cannot undo both
      encryptions: it is injective. */
  lemma ShortDecryptionFails(s: State, w: seq<Word>, v: seq<Word>, nd: nat)
    requires 0 < nd < 14 && |w| == |v| == MAX_WORDS && w[..56] == v[..56]
    requires EncryptRounds(s, w, 14) != EncryptRounds(s, v, 14)
    ensures DecryptRounds(EncryptRounds(s, w, 14), w, nd) != s || DecryptRounds(EncryptRounds(s, v, 14), v, nd) != s
  {
    hide EncryptRounds, DecryptRounds;
    EncryptUndoesDecrypt(EncryptRounds(s, w, 14), w, nd);
    EncryptUndoesDecrypt(EncryptRounds(s, v, 14), v, nd);
    assert w[..4 * nd + 4] == w[..56][..4 * nd + 4] == v[..4 * nd + 4];
    SameEncryption(s, w, v, nd);
  }

  /** Decryption recovers every block under every key array exactly for the key sizes 128
      and 192 and those above 192. */
  lemma RoundTripIff(keysize: int)
    ensures (forall b: Block, w: seq<Word> :: |w| >= KeyWords(EncryptNr(keysize)) && |w| >= KeyWords(DecryptNr(keysize)) ==>
               Decrypt(Encrypt(b, w, keysize), w, keysize) == b)
        <==> keysize == 128 || keysize >= 192
  {
    hide EncryptRounds, DecryptRounds, StateOf, BlockOf;
    var ne, nd := EncryptNr(keysize), DecryptNr(keysize);
    if ne == nd {
      forall b: Block, w: seq<Word> | |w| >= KeyWords(ne)
        ensures Decrypt(Encrypt(b, w, keysize), w, keysize) == b
      {
        DecryptUndoesEncrypt(StateOf(b), w, ne);
        BlockOfStateOf(b);
      }
    } else {
      var b: Block := [0, 0, 0, 0, 0, 0, 0, 0, 0, 0, 0, 0, 0, 0, 0, 0];
      var w := seq<Word>(MAX_WORDS, i => 0);
      var v := w[56 := 1];
      EncryptionsDiffer(StateOf(b), w, v);
      ShortDecryptionFails(StateOf(b), w, v, nd);
      assert Decrypt(Encrypt(b, w, keysize), w, keysize) != b || Decrypt(Encrypt(b, v, keysize), v, keysize) != b;
    }
  }
}
