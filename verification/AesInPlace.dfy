/** The round steps as the program runs them: on one 4 x 4 array, overwritten in place. */
module AesInPlace {
  import opened AesTables
  import opened AesField
  import opened Aes
  import opened AesCipher
  import Gf

  predicate Is4x4(state: array2<Byte>) { state.Length0 == 4 && state.Length1 == 4 }

  function View(state: array2<Byte>): State
    requires Is4x4(state)
    reads state
  {
    State(Col(state[0, 0], state[1, 0], state[2, 0], state[3, 0]), Col(state[0, 1], state[1, 1], state[2, 1], state[3, 1]),
          Col(state[0, 2], state[1, 2], state[2, 2], state[3, 2]), Col(state[0, 3], state[1, 3], state[2, 3], state[3, 3]))
  }

  twostate predicate OtherRows(state: array2<Byte>, i: int)
    requires Is4x4(state)
    reads state
  {
    forall k, j :: 0 <= k < 4 && 0 <= j < 4 && k != i ==> state[k, j] == old(state[k, j])
  }

  twostate predicate OtherColumns(state: array2<Byte>, j: int)
    requires Is4x4(state)
    reads state
  {
    forall i, k :: 0 <= i < 4 && 0 <= k < 4 && k != j ==> state[i, k] == old(state[i, k])
  }

  method SubRowIn(state: array2<Byte>, i: nat)
    requires Is4x4(state) && i < 4
    modifies state
    ensures forall j :: 0 <= j < 4 ==> state[i, j] == Sbox(old(state[i, j]))
    ensures OtherRows(state, i)
  {
    hide Sbox;
    state[i, 0] := Sbox(state[i, 0]);
    state[i, 1] := Sbox(state[i, 1]);
    state[i, 2] := Sbox(state[i, 2]);
    state[i, 3] := Sbox(state[i, 3]);
  }

  method SubBytesIn(state: array2<Byte>)
    requires Is4x4(state)
    modifies state
    ensures View(state) == SubBytes(old(View(state)))
  {
    hide Sbox;
    SubRowIn(state, 0);
    SubRowIn(state, 1);
    SubRowIn(state, 2);
    SubRowIn(state, 3);
  }

  method InvSubRowIn(state: array2<Byte>, i: nat)
    requires Is4x4(state) && i < 4
    modifies state
    ensures forall j :: 0 <= j < 4 ==> state[i, j] == InvSbox(old(state[i, j]))
    ensures OtherRows(state, i)
  {
    hide InvSbox;
    state[i, 0] := InvSbox(state[i, 0]);
    state[i, 1] := InvSbox(state[i, 1]);
    state[i, 2] := InvSbox(state[i, 2]);
    state[i, 3] := InvSbox(state[i, 3]);
  }

  method InvSubBytesIn(state: array2<Byte>)
    requires Is4x4(state)
    modifies state
    ensures View(state) == InvSubBytes(old(View(state)))
  {
    hide InvSbox;
    InvSubRowIn(state, 0);
    InvSubRowIn(state, 1);
    InvSubRowIn(state, 2);
    InvSubRowIn(state, 3);
  }

  /** Row 1 to the left by one. */
  method RotateRow1(state: array2<Byte>)
    requires Is4x4(state)
    modifies state
    ensures state[1, 0] == old(state[1, 1]) && state[1, 1] == old(state[1, 2]) && state[1, 2] == old(state[1, 3]) && state[1, 3] == old(state[1, 0])
    ensures OtherRows(state, 1)
  {
    var t := state[1, 0];
    state[1, 0] := state[1, 1];
    state[1, 1] := state[1, 2];
    state[1, 2] := state[1, 3];
    state[1, 3] := t;
  }

  /** Row 2 by two. */
  method RotateRow2(state: array2<Byte>)
    requires Is4x4(state)
    modifies state
    ensures state[2, 0] == old(state[2, 2]) && state[2, 1] == old(state[2, 3]) && state[2, 2] == old(state[2, 0]) && state[2, 3] == old(state[2, 1])
    ensures OtherRows(state, 2)
  {
    var t := state[2, 0];
    state[2, 0] := state[2, 2];
    state[2, 2] := t;
    t := state[2, 1];
    state[2, 1] := state[2, 3];
    state[2, 3] := t;
  }

  /** Row 3 to the left by three. */
  method RotateRow3(state: array2<Byte>)
    requires Is4x4(state)
    modifies state
    ensures state[3, 0] == old(state[3, 3]) && state[3, 1] == old(state[3, 0]) && state[3, 2] == old(state[3, 1]) && state[3, 3] == old(state[3, 2])
    ensures OtherRows(state, 3)
  {
    var t := state[3, 0];
    state[3, 0] := state[3, 3];
    state[3, 3] := state[3, 2];
    state[3, 2] := state[3, 1];
    state[3, 1] := t;
  }

  /** Row 1 to the right by one. */
  method InvRotateRow1(state: array2<Byte>)
    requires Is4x4(state)
    modifies state
    ensures state[1, 0] == old(state[1, 3]) && state[1, 1] == old(state[1, 0]) && state[1, 2] == old(state[1, 1]) && state[1, 3] == old(state[1, 2])
    ensures OtherRows(state, 1)
  {
    var t := state[1, 3];
    state[1, 3] := state[1, 2];
    state[1, 2] := state[1, 1];
    state[1, 1] := state[1, 0];
    state[1, 0] := t;
  }

  /** Row 2 by two, from the other end. */
  method InvRotateRow2(state: array2<Byte>)
    requires Is4x4(state)
    modifies state
    ensures state[2, 0] == old(state[2, 2]) && state[2, 1] == old(state[2, 3]) && state[2, 2] == old(state[2, 0]) && state[2, 3] == old(state[2, 1])
    ensures OtherRows(state, 2)
  {
    var t := state[2, 3];
    state[2, 3] := state[2, 1];
    state[2, 1] := t;
    t := state[2, 2];
    state[2, 2] := state[2, 0];
    state[2, 0] := t;
  }

  /** Row 3 to the right by three. */
  method InvRotateRow3(state: array2<Byte>)
    requires Is4x4(state)
    modifies state
    ensures state[3, 0] == old(state[3, 1]) && state[3, 1] == old(state[3, 2]) && state[3, 2] == old(state[3, 3]) && state[3, 3] == old(state[3, 0])
    ensures OtherRows(state, 3)
  {
    var t := state[3, 3];
    state[3, 3] := state[3, 0];
    state[3, 0] := state[3, 1];
    state[3, 1] := state[3, 2];
    state[3, 2] := t;
  }

  method ShiftRowsIn(state: array2<Byte>)
    requires Is4x4(state)
    modifies state
    ensures View(state) == ShiftRows(old(View(state)))
  {
    RotateRow1(state);
    RotateRow2(state);
    RotateRow3(state);
  }

  method InvShiftRowsIn(state: array2<Byte>)
    requires Is4x4(state)
    modifies state
    ensures View(state) == InvShiftRows(old(View(state)))
  {
    InvRotateRow1(state);
    InvRotateRow2(state);
    InvRotateRow3(state);
  }

  /** One entry of a column: an assignment and three accumulations. */
  method AccumulateIn(state: array2<Byte>, i: nat, j: nat, p: Byte, q: Byte, r: Byte, s: Byte)
    requires Is4x4(state) && i < 4 && j < 4
    modifies state
    ensures state[i, j] == Gf.X4(p, q, r, s)
    ensures forall k, l :: 0 <= k < 4 && 0 <= l < 4 && (k != i || l != j) ==> state[k, l] == old(state[k, l])
  {
    state[i, j] := p;
    state[i, j] := state[i, j] ^ q;
    state[i, j] := state[i, j] ^ r;
    state[i, j] := state[i, j] ^ s;
  }

  /** One column, computed from a copy of itself. */
  method MixColumnIn(state: array2<Byte>, j: nat)
    requires Is4x4(state) && j < 4
    modifies state
    ensures Col(state[0, j], state[1, j], state[2, j], state[3, j])
         == MixCol(old(Col(state[0, j], state[1, j], state[2, j], state[3, j])))
    ensures OtherColumns(state, j)
  {
    hide GfMul, Gf.X4;
    var col := Col(state[0, j], state[1, j], state[2, j], state[3, j]);
    AccumulateIn(state, 0, j, GfMul(col.a).by2, GfMul(col.b).by3, col.c, col.d);
    AccumulateIn(state, 1, j, col.a, GfMul(col.b).by2, GfMul(col.c).by3, col.d);
    AccumulateIn(state, 2, j, col.a, col.b, GfMul(col.c).by2, GfMul(col.d).by3);
    AccumulateIn(state, 3, j, GfMul(col.a).by3, col.b, col.c, GfMul(col.d).by2);
  }

  method MixColumnsIn(state: array2<Byte>)
    requires Is4x4(state)
    modifies state
    ensures View(state) == MixColumns(old(View(state)))
  {
    hide MixCol;
    MixColumnIn(state, 0);
    MixColumnIn(state, 1);
    MixColumnIn(state, 2);
    MixColumnIn(state, 3);
  }

  /** One column, computed from a copy of itself. */
  method InvMixColumnIn(state: array2<Byte>, j: nat)
    requires Is4x4(state) && j < 4
    modifies state
    ensures Col(state[0, j], state[1, j], state[2, j], state[3, j])
         == InvMixCol(old(Col(state[0, j], state[1, j], state[2, j], state[3, j])))
    ensures OtherColumns(state, j)
  {
    hide GfMul, Gf.X4;
    var col := Col(state[0, j], state[1, j], state[2, j], state[3, j]);
    AccumulateIn(state, 0, j, GfMul(col.a).by14, GfMul(col.b).by11, GfMul(col.c).by13, GfMul(col.d).by9);
    AccumulateIn(state, 1, j, GfMul(col.a).by9, GfMul(col.b).by14, GfMul(col.c).by11, GfMul(col.d).by13);
    AccumulateIn(state, 2, j, GfMul(col.a).by13, GfMul(col.b).by9, GfMul(col.c).by14, GfMul(col.d).by11);
    AccumulateIn(state, 3, j, GfMul(col.a).by11, GfMul(col.b).by13, GfMul(col.c).by9, GfMul(col.d).by14);
  }

  method InvMixColumnsIn(state: array2<Byte>)
    requires Is4x4(state)
    modifies state
    ensures View(state) == InvMixColumns(old(View(state)))
  {
    hide InvMixCol;
    InvMixColumnIn(state, 0);
    InvMixColumnIn(state, 1);
    InvMixColumnIn(state, 2);
    InvMixColumnIn(state, 3);
  }

  /** Adds one key word to one column. */
  method AddKeyColumnIn(state: array2<Byte>, key: Word, j: nat)
    requires Is4x4(state) && j < 4
    modifies state
    ensures Col(state[0, j], state[1, j], state[2, j], state[3, j])
         == AddCol(old(Col(state[0, j], state[1, j], state[2, j], state[3, j])), WordCol(key))
    ensures OtherColumns(state, j)
  {
    var subkey := WordCol(key);
    hide WordCol;
    state[0, j] := state[0, j] ^ subkey.a;
    state[1, j] := state[1, j] ^ subkey.b;
    state[2, j] := state[2, j] ^ subkey.c;
    state[3, j] := state[3, j] ^ subkey.d;
  }

  /** `w` is the whole key array; the source passes a pointer to word 4 * r of it. */
  method AddRoundKeyIn(state: array2<Byte>, w: array<Word>, r: nat)
    requires Is4x4(state) && 4 * r + 4 <= w.Length
    modifies state
    ensures View(state) == AddRoundKey(old(View(state)), w[..], r)
  {
    hide AddCol, WordCol;
    AddKeyColumnIn(state, w[4 * r], 0);
    AddKeyColumnIn(state, w[4 * r + 1], 1);
    AddKeyColumnIn(state, w[4 * r + 2], 2);
    AddKeyColumnIn(state, w[4 * r + 3], 3);
  }
}
