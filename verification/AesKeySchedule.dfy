/** Key expansion, and why the key can be read back from any window of its schedule. */
module AesKeySchedule {
  import opened AesTables
  import Gf

  type Word = bv32

  function RotWord(w: Word): Word { (w << 8) | (w >> 24) }

  function SubByte(w: Word): Word { Sbox((w & 0xFF) as bv8) as Word }

  /** The sum of four substituted bytes, each in its own place. */
  function SubWord(w: Word): Word {
    SubByte(w) + (SubByte(w >> 8) << 8) + (SubByte(w >> 16) << 16) + (SubByte(w >> 24) << 24)
  }

  const RCON: seq<Word> := [0x01000000, 0x02000000, 0x04000000, 0x08000000, 0x10000000, 0x20000000,
                            0x40000000, 0x80000000, 0x1b000000, 0x36000000, 0x6c000000, 0xd8000000,
                            0xab000000, 0x4d000000, 0x9a000000]

  /** The round constants are the powers of x in the top byte. */
  lemma RconIsPower(k: nat)
    requires k + 1 < |RCON|
    ensures RCON[k] & 0x00FF_FFFF == 0 && RCON[k + 1] == (Gf.M2((RCON[k] >> 24) as bv8) as Word) << 24
  {
  }

  function Xor(a: Word, b: Word): Word { a ^ b }

  function Pack(a: Byte, b: Byte, c: Byte, d: Byte): Word {
    ((a as Word) << 24) | ((b as Word) << 16) | ((c as Word) << 8) | (d as Word)
  }

  lemma PackIsInjective(a: Byte, b: Byte, c: Byte, d: Byte, a': Byte, b': Byte, c': Byte, d': Byte)
    requires Pack(a, b, c, d) == Pack(a', b', c', d')
    ensures a == a' && b == b' && c == c' && d == d'
  {
  }

  predicate KeySize(nk: nat, n: nat) {
    (nk == 4 && n == 44) || (nk == 6 && n == 52) || (nk == 8 && n == 60)
  }

  lemma RconInRange(i: nat, nk: nat)
    requires 4 <= nk && 0 < i < 60
    ensures 0 <= (i - 1) / nk < 15
  {
    var q := (i - 1) / nk;
    assert i - 1 == nk * q + (i - 1) % nk;
    assert q >= 15 ==> nk * q >= 4 * 15;
  }

  function Rcon(i: nat, nk: nat): Word
    requires 4 <= nk && 0 < i < 60
  {
    RconInRange(i, nk);
    RCON[(i - 1) / nk]
  }

  /** What is added to word i - nk to make word i, from the word before it. */
  function Temp(prev: Word, i: nat, nk: nat): Word
    requires 4 <= nk && 0 < i < 60
  {
    if i % nk == 0 then Xor(SubWord(RotWord(prev)), Rcon(i, nk))
    else if nk > 6 && i % nk == 4 then SubWord(prev)
    else prev
  }

  ghost predicate Expands(w: seq<Word>, nk: nat, n: nat) {
    && KeySize(nk, n) && n <= |w|
    && forall i :: nk <= i < n ==> w[i] == Xor(w[i - nk], Temp(w[i - 1], i, nk))
  }

  /** `w` is the schedule of the key bytes. */
  ghost predicate IsSchedule(key: seq<Byte>, w: seq<Word>, nk: nat, n: nat) {
    && Expands(w, nk, n) && 4 * nk <= |key|
    && forall i :: 0 <= i < nk ==> w[i] == Pack(key[4 * i], key[4 * i + 1], key[4 * i + 2], key[4 * i + 3])
  }

  function Nk(keysize: int): nat
    requires keysize in {128, 192, 256}
  {
    keysize / 32
  }

  function ScheduleWords(keysize: int): nat
    requires keysize in {128, 192, 256}
  {
    if keysize == 128 then 44 else if keysize == 192 then 52 else 60
  }

  method LoadKey(key: array<Byte>, w: array<Word>, nk: nat)
    requires 4 * nk <= key.Length && nk <= w.Length
    modifies w
    ensures forall i :: 0 <= i < nk ==> w[i] == Pack(key[4 * i], key[4 * i + 1], key[4 * i + 2], key[4 * i + 3])
  {
    hide Pack;
    var idx := 0;
    while idx < nk
      invariant idx <= nk
      invariant forall i :: 0 <= i < idx ==> w[i] == Pack(key[4 * i], key[4 * i + 1], key[4 * i + 2], key[4 * i + 3])
    {
      w[idx] := Pack(key[4 * idx], key[4 * idx + 1], key[4 * idx + 2], key[4 * idx + 3]);
      idx := idx + 1;
    }
  }

  method ExpandKey(w: array<Word>, nk: nat, n: nat)
    requires KeySize(nk, n) && n <= w.Length
    modifies w
    ensures Expands(w[..], nk, n) && w[..nk] == old(w[..nk])
  {
    hide Xor, SubWord, RotWord, Rcon;
    var idx := nk;
    while idx < n
      invariant nk <= idx <= n
      invariant forall i :: 0 <= i < nk ==> w[i] == old(w[i])
      invariant forall i :: nk <= i < idx ==> w[i] == Xor(w[i - nk], Temp(w[i - 1], i, nk))
    {
      var temp := w[idx - 1];
      if idx % nk == 0 {
        temp := Xor(SubWord(RotWord(temp)), Rcon(idx, nk));
      } else if nk > 6 && idx % nk == 4 {
        temp := SubWord(temp);
      }
      assert temp == Temp(w[idx - 1], idx, nk);
      hide Temp;
      w[idx] := Xor(w[idx - nk], temp);
      idx := idx + 1;
    }
  }

  /** Any other key size leaves the schedule as it was. */
  method AesKeySetup(key: array<Byte>, w: array<Word>, keysize: int)
    requires keysize in {128, 192, 256} ==> key.Length >= 4 * Nk(keysize) && w.Length >= ScheduleWords(keysize)
    modifies w
    ensures keysize in {128, 192, 256} ==> IsSchedule(key[..], w[..], Nk(keysize), ScheduleWords(keysize))
    ensures keysize !in {128, 192, 256} ==> w[..] == old(w[..])
  {
    hide Pack, Xor, Temp;
    var nb, nr, nk := 4, 0, 0;
    match keysize {
      case 128 => nr, nk := 10, 4;
      case 192 => nr, nk := 12, 6;
      case 256 => nr, nk := 14, 8;
      case _ => return;
    }
    LoadKey(key, w, nk);
    ghost var loaded := w[..nk];
    ExpandKey(w, nk, nb * (nr + 1));
    assert forall i :: 0 <= i < nk ==> w[i] == loaded[i];
  }

  lemma XorCancels(a: Word, b: Word, t: Word)
    requires Xor(a, t) == Xor(b, t)
    ensures a == b
  {
  }

  /** Two schedules that agree on `nk` consecutive words agree on all words before them. */
  lemma {:induction false} WindowDetermines(w: seq<Word>, v: seq<Word>, nk: nat, n: nat, i: nat, k: nat)
    requires Expands(w, nk, n) && Expands(v, nk, n) && i + nk <= n && k < i + nk
    requires forall j :: i <= j < i + nk ==> w[j] == v[j]
    ensures w[k] == v[k]
    decreases i
  {
    hide Xor, Temp;
    if k < i {
      var j := i - 1 + nk;
      assert w[j] == Xor(w[i - 1], Temp(w[j - 1], j, nk));
      assert v[j] == Xor(v[i - 1], Temp(v[j - 1], j, nk));
      XorCancels(w[i - 1], v[i - 1], Temp(w[j - 1], j, nk));
      WindowDetermines(w, v, nk, n, i - 1, k);
    }
  }

  /** No two keys share nk consecutive words of their schedules, wherever they are. */
  lemma KeyIsDetermined(key: seq<Byte>, key': seq<Byte>, w: seq<Word>, v: seq<Word>, nk: nat, n: nat, i: nat)
    requires IsSchedule(key, w, nk, n) && IsSchedule(key', v, nk, n) && i + nk <= n
    requires w[i..i + nk] == v[i..i + nk]
    ensures key[..4 * nk] == key'[..4 * nk]
  {
    hide Pack, Xor, Temp;
    forall j | i <= j < i + nk
      ensures w[j] == v[j]
    {
      assert w[j] == w[i..i + nk][j - i];
    }
    forall q | 0 <= q < nk
      ensures key[4 * q] == key'[4 * q] && key[4 * q + 1] == key'[4 * q + 1]
      ensures key[4 * q + 2] == key'[4 * q + 2] && key[4 * q + 3] == key'[4 * q + 3]
    {
      WindowDetermines(w, v, nk, n, i, q);
      PackIsInjective(key[4 * q], key[4 * q + 1], key[4 * q + 2], key[4 * q + 3],
        key'[4 * q], key'[4 * q + 1], key'[4 * q + 2], key'[4 * q + 3]);
    }
    forall p | 0 <= p < 4 * nk
      ensures key[p] == key'[p]
    {
      assert p == 4 * (p / 4) + p % 4 && p / 4 < nk;
    }
  }
}
