/** The encryption and decryption drivers over byte buffers. */
module AesDrivers {
  import opened AesTables
  import opened AesField
  import opened Aes
  import opened AesCipher
  import opened AesInPlace

  method LoadColumn(input: array<Byte>, state: array2<Byte>, j: nat)
    requires input.Length >= 16 && Is4x4(state) && j < 4
    modifies state
    ensures forall i :: 0 <= i < 4 ==> state[i, j] == input[4 * j + i]
    ensures OtherColumns(state, j)
  {
    state[0, j] := input[4 * j];
    state[1, j] := input[4 * j + 1];
    state[2, j] := input[4 * j + 2];
    state[3, j] := input[4 * j + 3];
  }

  method Load(input: array<Byte>, state: array2<Byte>)
    requires input.Length >= 16 && Is4x4(state)
    modifies state
    ensures View(state) == StateOf(input[..16])
  {
    LoadColumn(input, state, 0);
    LoadColumn(input, state, 1);
    LoadColumn(input, state, 2);
    LoadColumn(input, state, 3);
  }

  method StoreColumn(state: array2<Byte>, output: array<Byte>, j: nat)
    requires output.Length >= 16 && Is4x4(state) && j < 4
    modifies output
    ensures forall i :: 0 <= i < 4 ==> output[4 * j + i] == state[i, j]
    ensures forall k :: 0 <= k < output.Length && !(4 * j <= k < 4 * j + 4) ==> output[k] == old(output[k])
  {
    output[4 * j] := state[0, j];
    output[4 * j + 1] := state[1, j];
    output[4 * j + 2] := state[2, j];
    output[4 * j + 3] := state[3, j];
  }

  method Store(state: array2<Byte>, output: array<Byte>)
    requires output.Length >= 16 && Is4x4(state)
    modifies output
    ensures output[..16] == BlockOf(View(state)) && output[16..] == old(output[16..])
  {
    StoreColumn(state, output, 0);
    StoreColumn(state, output, 1);
    StoreColumn(state, output, 2);
    StoreColumn(state, output, 3);
    assert forall i :: 0 <= i < 4 ==> output[i] == state[i, 0] && output[4 + i] == state[i, 1];
    assert forall i :: 0 <= i < 4 ==> output[8 + i] == state[i, 2] && output[12 + i] == state[i, 3];
  }

  method RoundIn(state: array2<Byte>, w: array<Word>, r: nat)
    requires Is4x4(state) && 4 * r + 4 <= w.Length
    modifies state
    ensures View(state) == Round(old(View(state)), w[..], r)
  {
    hide SubBytes, ShiftRows, MixColumns, AddRoundKey, View;
    SubBytesIn(state); ShiftRowsIn(state); MixColumnsIn(state); AddRoundKeyIn(state, w, r);
  }

  method LastRoundIn(state: array2<Byte>, w: array<Word>, r: nat)
    requires Is4x4(state) && 4 * r + 4 <= w.Length
    modifies state
    ensures View(state) == LastRound(old(View(state)), w[..], r)
  {
    hide SubBytes, ShiftRows, AddRoundKey, View;
    SubBytesIn(state); ShiftRowsIn(state); AddRoundKeyIn(state, w, r);
  }

  method InvRoundIn(state: array2<Byte>, w: array<Word>, r: nat)
    requires Is4x4(state) && 4 * r + 4 <= w.Length
    modifies state
    ensures View(state) == InvRound(old(View(state)), w[..], r)
  {
    hide InvSubBytes, InvShiftRows, InvMixColumns, AddRoundKey, View;
    InvShiftRowsIn(state); InvSubBytesIn(state); AddRoundKeyIn(state, w, r); InvMixColumnsIn(state);
  }

  method LastInvRoundIn(state: array2<Byte>, w: array<Word>)
    requires Is4x4(state) && 4 <= w.Length
    modifies state
    ensures View(state) == InvRounds(old(View(state)), w[..], 0)
  {
    hide InvSubBytes, InvShiftRows, AddRoundKey, View;
    InvShiftRowsIn(state); InvSubBytesIn(state); AddRoundKeyIn(state, w, 0);
  }

  /** Nine rounds that every key size has. */
  method NineRoundsIn(state: array2<Byte>, w: array<Word>)
    requires Is4x4(state) && w.Length >= KeyWords(9)
    modifies state
    ensures View(state) == Rounds(old(View(state)), w[..], 9)
  {
    hide Round, AddRoundKey, View;
    ghost var s := View(state);
    AddRoundKeyIn(state, w, 0);
    RoundIn(state, w, 1);
    assert View(state) == Rounds(s, w[..], 1);
    RoundIn(state, w, 2);
    assert View(state) == Rounds(s, w[..], 2);
    RoundIn(state, w, 3);
    assert View(state) == Rounds(s, w[..], 3);
    RoundIn(state, w, 4);
    assert View(state) == Rounds(s, w[..], 4);
    RoundIn(state, w, 5);
    assert View(state) == Rounds(s, w[..], 5);
    RoundIn(state, w, 6);
    assert View(state) == Rounds(s, w[..], 6);
    RoundIn(state, w, 7);
    assert View(state) == Rounds(s, w[..], 7);
    RoundIn(state, w, 8);
    assert View(state) == Rounds(s, w[..], 8);
    RoundIn(state, w, 9);
    assert View(state) == Rounds(s, w[..], 9);
  }

  method NineInvRoundsIn(state: array2<Byte>, w: array<Word>)
    requires Is4x4(state) && w.Length >= KeyWords(9)
    modifies state
    ensures View(state) == InvRounds(old(View(state)), w[..], 9)
  {
    hide InvRound, AddRoundKey, InvSubBytes, InvShiftRows, View;
    InvRoundIn(state, w, 9);
    InvRoundIn(state, w, 8);
    InvRoundIn(state, w, 7);
    InvRoundIn(state, w, 6);
    InvRoundIn(state, w, 5);
    InvRoundIn(state, w, 4);
    InvRoundIn(state, w, 3);
    InvRoundIn(state, w, 2);
    InvRoundIn(state, w, 1);
    LastInvRoundIn(state, w);
  }

  /** Input and output may be the same buffer. */
  method AesEncrypt(input: array<Byte>, output: array<Byte>, key: array<Word>, keysize: int)
    requires input.Length >= 16 && output.Length >= 16 && key.Length >= KeyWords(EncryptNr(keysize))
    modifies output
    ensures output[..16] == Encrypt(old(input[..16]), key[..], keysize)
    ensures output[16..] == old(output[16..])
  {
    hide LastRound, Round, StateOf, BlockOf, View;
    var state := new Byte[4, 4];
    Load(input, state);
    ghost var s := View(state);
    NineRoundsIn(state, key);
    if keysize != 128 {
      RoundIn(state, key, 10);
      assert View(state) == Rounds(s, key[..], 10);
      RoundIn(state, key, 11);
      assert View(state) == Rounds(s, key[..], 11);
      if keysize != 192 {
        RoundIn(state, key, 12);
        assert View(state) == Rounds(s, key[..], 12);
        RoundIn(state, key, 13);
        assert View(state) == Rounds(s, key[..], 13);
        LastRoundIn(state, key, 14);
      } else {
        LastRoundIn(state, key, 12);
      }
    } else {
      LastRoundIn(state, key, 10);
    }
    Store(state, output);
  }

  method AesDecrypt(input: array<Byte>, output: array<Byte>, key: array<Word>, keysize: int)
    requires input.Length >= 16 && output.Length >= 16 && key.Length >= KeyWords(DecryptNr(keysize))
    modifies output
    ensures output[..16] == Decrypt(old(input[..16]), key[..], keysize)
    ensures output[16..] == old(output[16..])
  {
    hide InvRound, AddRoundKey, StateOf, BlockOf, View;
    var state := new Byte[4, 4];
    Load(input, state);
    if keysize > 128 {
      if keysize > 192 {
        AddRoundKeyIn(state, key, 14);
        InvRoundIn(state, key, 13);
        InvRoundIn(state, key, 12);
      } else {
        AddRoundKeyIn(state, key, 12);
      }
      InvRoundIn(state, key, 11);
      InvRoundIn(state, key, 10);
    } else {
      AddRoundKeyIn(state, key, 10);
    }
    NineInvRoundsIn(state, key);
    Store(state, output);
  }
}
