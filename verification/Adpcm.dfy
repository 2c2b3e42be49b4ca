/** The adaptive state of the two-band decoder: its quantizer scale factors and predictor
    coefficients stay in range whatever is received. */
module Adpcm {
  function Mul(a: int, b: int): int { a * b }

  /** Arithmetic shift to the right. */
  function Shr(v: int, n: nat): int
    decreases n
  {
    if n == 0 then v else Shr(v, n - 1) / 2
  }

  lemma ShrBy7And8(v: int)
    ensures Shr(v, 7) == v / 128 && Shr(v, 8) == v / 256
  {
    assert Shr(v, 2) == v / 4;
    assert Shr(v, 4) == v / 16;
    assert Shr(v, 6) == v / 64;
  }

  function Qq4(i: nat): int
    requires i < 16
  {
    match i
    case 0 => 0 case 1 => -20456 case 2 => -12896 case 3 => -8968
    case 4 => -6288 case 5 => -4240 case 6 => -2584 case 7 => -1200
    case 8 => 20456 case 9 => 12896 case 10 => 8968 case 11 => 6288
    case 12 => 4240 case 13 => 2584 case 14 => 1200 case _ => 0
  }

  function Qq2(i: nat): int
    requires i < 4
  {
    match i case 0 => -7408 case 1 => -1616 case 2 => 7408 case _ => 1616
  }

  function Wl(i: nat): int
    requires i < 16
  {
    match i
    case 0 => -60 case 1 => 3042 case 2 => 1198 case 3 => 538
    case 4 => 334 case 5 => 172 case 6 => 58 case 7 => -30
    case 8 => 3042 case 9 => 1198 case 10 => 538 case 11 => 334
    case 12 => 172 case 13 => 58 case 14 => -30 case _ => -60
  }

  function Wh(i: nat): int
    requires i < 4
  {
    match i case 0 => 798 case 1 => -214 case 2 => 798 case _ => -214
  }

  function Ilb(i: nat): (r: nat)
    requires i < 32
    ensures 2048 <= r <= 4008
  {
    match i
    case 0 => 2048 case 1 => 2093 case 2 => 2139 case 3 => 2186 case 4 => 2233 case 5 => 2282 case 6 => 2332 case 7 => 2383
    case 8 => 2435 case 9 => 2489 case 10 => 2543 case 11 => 2599 case 12 => 2656 case 13 => 2714 case 14 => 2774 case 15 => 2834
    case 16 => 2896 case 17 => 2960 case 18 => 3025 case 19 => 3091 case 20 => 3158 case 21 => 3228 case 22 => 3298 case 23 => 3371
    case 24 => 3444 case 25 => 3520 case 26 => 3597 case 27 => 3676 case 28 => 3756 case 29 => 3838 case 30 => 3922 case _ => 4008
  }

  function Clamp(v: int, low: int, high: int): int
    requires low <= high
  {
    if v < low then low else if v > high then high else v
  }

  function Logscl(il: nat, nbl: int): int
    requires il < 64
  {
    Clamp(Shr(nbl * 127, 7) + Wl(il / 4), 0, 18432)
  }

  function Logsch(ih: nat, nbh: int): int
    requires ih < 4
  {
    Clamp(Shr(nbh * 127, 7) + Wh(ih), 0, 22528)
  }

  /** The shift amount must not be negative, so `nb` may not be too large for the band. */
  function Scalel(nb: nat, shiftConstant: nat): int
    requires nb / 2048 <= shiftConstant + 1
  {
    8 * Shr(Ilb((nb / 64) % 32), shiftConstant + 1 - nb / 2048)
  }

  function Uppol2(al1: int, al2: int, plt: int, plt1: int, plt2: int): (r: int)
    ensures -12288 <= r <= 12288
  {
    var wd2 := Shr(if Mul(plt, plt1) >= 0 then -(4 * al1) else 4 * al1, 7);
    var wd4 := if Mul(plt, plt2) >= 0 then wd2 + 128 else wd2 - 128;
    Clamp(wd4 + Shr(127 * al2, 7), -12288, 12288)
  }

  function Uppol1(al1: int, apl2: int, plt: int, plt1: int): int
    requires apl2 <= 15360
  {
    var apl1 := Shr(al1 * 255, 8) + if Mul(plt, plt1) >= 0 then 192 else -192;
    Clamp(apl1, -(15360 - apl2), 15360 - apl2)
  }

  /** A zero-section coefficient leaks by 1/256 and moves by 128 towards the sign of the
      product, unless the new difference is zero. */
  function Coefficient(dlt: int, d: int, b: int): int {
    Shr(255 * b, 8) + if dlt == 0 then 0 else if Mul(dlt, d) >= 0 then 128 else -128
  }

  // ---- One sub-band ----

  datatype Band = Band(nb: int, det: int, al1: int, al2: int, plt1: int, plt2: int, rlt1: int, rlt2: int,
    b: seq<int>, d: seq<int>)

  function Dot(b: seq<int>, d: seq<int>, n: nat): int
    requires n <= |b| && n <= |d|
  {
    if n == 0 then 0 else Dot(b, d, n - 1) + Mul(b[n - 1], d[n - 1])
  }

  predicate Shaped(s: Band) { |s.b| == 6 && |s.d| == 6 }

  function Zeros(s: Band): int
    requires Shaped(s)
  {
    Shr(Dot(s.b, s.d, 6), 14)
  }

  function Poles(s: Band): int { Shr(Mul(s.al1, 2 * s.rlt1) + Mul(s.al2, 2 * s.rlt2), 15) }

  /** The delay line keeps its third tap: the source moves every other one. */
  function Delay(dlt: int, d: seq<int>): (r: seq<int>)
    requires |d| == 6
    ensures |r| == 6
  {
    [dlt, d[0], d[2], d[2], d[3], d[4]]
  }

  function Coefficients(dlt: int, d: seq<int>, b: seq<int>): (r: seq<int>)
    requires |d| == |b|
    ensures |r| == |b| && forall i :: 0 <= i < |b| ==> r[i] == Coefficient(dlt, d[i], b[i])
  {
    seq<int>(|b|, i requires 0 <= i < |b| => Coefficient(dlt, d[i], b[i]))
  }

  /** Everything after the quantized difference `dlt` and the new scale of a band. */
  function Adapt(s: Band, dlt: int, nb: int, det: int): Band
    requires Shaped(s)
  {
    var plt := dlt + Zeros(s);
    var al2 := Uppol2(s.al1, s.al2, plt, s.plt1, s.plt2);
    Band(nb, det, Uppol1(s.al1, al2, plt, s.plt1), al2, plt, s.plt1, Poles(s) + Zeros(s) + dlt, s.rlt1,
         Coefficients(dlt, s.d, s.b), Delay(dlt, s.d))
  }

  function LowStep(s: Band, ilr: nat): Band
    requires Shaped(s) && ilr < 64
  {
    var nb := Logscl(ilr, s.nb);
    Adapt(s, Shr(Mul(s.det, Qq4(ilr / 4)), 15), nb, Scalel(nb, 8))
  }

  function HighStep(s: Band, ih: nat): Band
    requires Shaped(s) && ih < 4
  {
    var nb := Logsch(ih, s.nb);
    Adapt(s, Shr(Mul(s.det, Qq2(ih)), 15), nb, Scalel(nb, 10))
  }

  // ---- The state in place ----

  class SubBand {
    var nb: int
    var det: int
    var al1: int
    var al2: int
    var plt1: int
    var plt2: int
    var rlt1: int
    var rlt2: int
    const b: array<int>
    const d: array<int>

    predicate Valid() { b.Length == 6 && d.Length == 6 && b != d }

    ghost function View(): Band
      reads this, b, d
    {
      Band(nb, det, al1, al2, plt1, plt2, rlt1, rlt2, b[..], d[..])
    }

    constructor (minimalScale: int)
      ensures Valid() && fresh(b) && fresh(d)
      ensures View() == Band(0, minimalScale, 0, 0, 0, 0, 0, 0, [0, 0, 0, 0, 0, 0], [0, 0, 0, 0, 0, 0])
    {
      nb, det, al1, al2, plt1, plt2, rlt1, rlt2 := 0, minimalScale, 0, 0, 0, 0, 0, 0;
      b, d := new int[6](i => 0), new int[6](i => 0);
    }

    method FilterZeros() returns (z: int)
      requires Valid()
      ensures z == Zeros(View())
    {
      hide Mul, Shr;
      var zl, i := 0, 0;
      while i < 6
        invariant i <= 6 && zl == Dot(b[..], d[..], i)
      {
        zl := zl + Mul(b[i], d[i]);
        i := i + 1;
      }
      z := Shr(zl, 14);
    }

    method FilterPoles() returns (p: int)
      ensures p == Poles(View())
    {
      hide Mul, Shr;
      var pl := Mul(al1, 2 * rlt1);
      pl := pl + Mul(al2, 2 * rlt2);
      p := Shr(pl, 15);
    }

    method Upzero(dlt: int)
      requires Valid()
      modifies b, d
      ensures b[..] == Coefficients(dlt, old(d[..]), old(b[..])) && d[..] == Delay(dlt, old(d[..]))
    {
      hide Mul, Shr;
      var i := 0;
      while i < 6
        invariant i <= 6 && d[..] == old(d[..])
        invariant forall k :: 0 <= k < i ==> b[k] == Coefficient(dlt, old(d[k]), old(b[k]))
        invariant forall k :: i <= k < 6 ==> b[k] == old(b[k])
      {
        var wd3 := Shr(255 * b[i], 8);
        if dlt == 0 {
          b[i] := wd3;
        } else {
          var wd2 := if Mul(dlt, d[i]) >= 0 then 128 else -128;
          b[i] := wd2 + wd3;
        }
        i := i + 1;
      }
      d[5] := d[4];
      d[4] := d[3];
      d[3] := d[2];
      d[1] := d[0];
      d[0] := dlt;
    }

    /** The lower and the upper half of the decoder after their first lines. */
    method AdaptIn(dlt: int, newNb: int, newDet: int)
      requires Valid()
      modifies this, b, d
      ensures View() == Adapt(old(View()), dlt, newNb, newDet)
    {
      hide Mul, Zeros, Poles, Coefficients, Delay, Uppol1, Uppol2;
      ghost var s := View();
      var z := FilterZeros();
      var p := FilterPoles();
      var plt := dlt + z;
      Upzero(dlt);
      assert b[..] == Coefficients(dlt, s.d, s.b) && d[..] == Delay(dlt, s.d);
      var apl2 := Uppol2(al1, al2, plt, plt1, plt2);
      var apl1 := Uppol1(al1, apl2, plt, plt1);
      al1, al2, rlt2, rlt1, plt2, plt1 := apl1, apl2, rlt1, p + z + dlt, plt1, plt;
      nb, det := newNb, newDet;
    }
  }

  class Decoder {
    const low: SubBand
    const high: SubBand

    predicate Valid() {
      low != high && low.Valid() && high.Valid() && {low.b, low.d} !! {high.b, high.d}
    }

    constructor ()
      ensures Valid() && low.View() == Reset(32) && high.View() == Reset(8)
    {
      low := new SubBand(32);
      high := new SubBand(8);
    }

    method DecodeLow(ilr: nat)
      requires low.Valid() && ilr < 64
      modifies low, low.b, low.d
      ensures low.View() == LowStep(old(low.View()), ilr)
    {
      hide Mul, Qq4, Shr, Scalel, Logscl, Adapt;
      var dlt := Shr(Mul(low.det, Qq4(ilr / 4)), 15);
      var nb := Logscl(ilr, low.nb);
      LowShiftIsLegal(ilr, low.nb);
      low.AdaptIn(dlt, nb, Scalel(nb, 8));
    }

    method DecodeHigh(ih: nat)
      requires high.Valid() && ih < 4
      modifies high, high.b, high.d
      ensures high.View() == HighStep(old(high.View()), ih)
    {
      hide Mul, Qq2, Shr, Scalel, Logsch, Adapt;
      var dlt := Shr(Mul(high.det, Qq2(ih)), 15);
      var nb := Logsch(ih, high.nb);
      HighShiftIsLegal(ih, high.nb);
      high.AdaptIn(dlt, nb, Scalel(nb, 10));
    }

    method Decode(input: nat)
      requires Valid() && input < 256
      modifies low, low.b, low.d, high, high.b, high.d
      ensures low.View() == LowStep(old(low.View()), input % 64)
      ensures high.View() == HighStep(old(high.View()), input / 64)
    {
      DecodeLow(input % 64);
      DecodeHigh(input / 64);
    }
  }

  lemma LowShiftIsLegal(ilr: nat, nb: int)
    requires ilr < 64
    ensures 0 <= Logscl(ilr, nb) <= 18432 && Logscl(ilr, nb) / 2048 <= 9
  {
  }

  lemma HighShiftIsLegal(ih: nat, nb: int)
    requires ih < 4
    ensures 0 <= Logsch(ih, nb) <= 22528 && Logsch(ih, nb) / 2048 <= 11
  {
  }

  function Reset(minimalScale: int): Band {
    Band(0, minimalScale, 0, 0, 0, 0, 0, 0, [0, 0, 0, 0, 0, 0], [0, 0, 0, 0, 0, 0])
  }

  // ---- Bounds ----

  ghost predicate PredictorOk(s: Band) {
    && Shaped(s)
    && -12288 <= s.al2 <= 12288 && -(15360 - s.al2) <= s.al1 <= 15360 - s.al2
    && forall i :: 0 <= i < 6 ==> -32768 <= s.b[i] <= 32768
  }

  /** The scale factor is the one that belongs to the logarithmic scale. */
  ghost predicate LowOk(s: Band) {
    PredictorOk(s) && 0 <= s.nb <= 18432 && s.det == Scalel(s.nb, 8) && 32 <= s.det <= 16384
  }

  ghost predicate HighOk(s: Band) {
    PredictorOk(s) && 0 <= s.nb <= 22528 && s.det == Scalel(s.nb, 10) && 8 <= s.det <= 16384
  }

  lemma ShrBounds(v: nat, n: nat)
    requires 2048 <= v <= 4008 && n <= 11
    ensures 1 <= Shr(v, n) <= 4008 && (n <= 9 ==> 4 <= Shr(v, n)) && (n >= 1 ==> Shr(v, n) <= 2004) && Shr(v, 0) == v
  {
    assert Shr(v, 3) == v / 8;
    assert Shr(v, 6) == v / 64;
    assert Shr(v, 9) == v / 512;
    assert Shr(v, 11) == v / 2048;
  }

  /** At the top of its range a scale has no fraction, so the largest factor is 16384. */
  lemma ScaleBounds(nb: nat, shiftConstant: nat)
    requires shiftConstant <= 10 && nb <= 2048 * (shiftConstant + 1)
    ensures nb / 2048 <= shiftConstant + 1 && 8 <= Scalel(nb, shiftConstant) <= 16384
    ensures shiftConstant <= 8 ==> 32 <= Scalel(nb, shiftConstant)
  {
    ShrBounds(Ilb((nb / 64) % 32), shiftConstant + 1 - nb / 2048);
    if nb / 2048 == shiftConstant + 1 {
      assert nb == 2048 * (shiftConstant + 1);
      assert nb / 64 == 32 * (shiftConstant + 1) && (nb / 64) % 32 == 0;
      assert Ilb(0) == 2048;
    }
    hide Shr, Ilb;
  }

  lemma CoefficientBounds(dlt: int, d: int, b: int)
    requires -32768 <= b <= 32768
    ensures -32768 <= Coefficient(dlt, d, b) <= 32768
  {
    ShrBy7And8(255 * b);
    hide Shr;
  }

  lemma AdaptKeepsPredictor(s: Band, dlt: int, nb: int, det: int)
    requires PredictorOk(s)
    ensures PredictorOk(Adapt(s, dlt, nb, det))
  {
    hide Shr, Zeros, Poles, Coefficient;
    forall i | 0 <= i < 6
      ensures -32768 <= Coefficients(dlt, s.d, s.b)[i] <= 32768
    {
      CoefficientBounds(dlt, s.d[i], s.b[i]);
    }
  }

  lemma LowStepKeepsBounds(s: Band, ilr: nat)
    requires LowOk(s) && ilr < 64
    ensures LowOk(LowStep(s, ilr))
  {
    LowShiftIsLegal(ilr, s.nb);
    ScaleBounds(Logscl(ilr, s.nb), 8);
    hide Shr, Scalel, Logscl, Adapt, PredictorOk;
    var dlt, nb := Shr(Mul(s.det, Qq4(ilr / 4)), 15), Logscl(ilr, s.nb);
    assert Shaped(s) by { OkIsShaped(s); }
    AdaptHas(s, dlt, nb, Scalel(nb, 8));
    AdaptKeepsPredictor(s, dlt, nb, Scalel(nb, 8));
  }

  lemma HighStepKeepsBounds(s: Band, ih: nat)
    requires HighOk(s) && ih < 4
    ensures HighOk(HighStep(s, ih))
  {
    HighShiftIsLegal(ih, s.nb);
    ScaleBounds(Logsch(ih, s.nb), 10);
    hide Shr, Scalel, Logsch, Adapt, PredictorOk;
    var dlt, nb := Shr(Mul(s.det, Qq2(ih)), 15), Logsch(ih, s.nb);
    assert Shaped(s) by { OkIsShaped(s); }
    AdaptHas(s, dlt, nb, Scalel(nb, 10));
    AdaptKeepsPredictor(s, dlt, nb, Scalel(nb, 10));
  }

  lemma OkIsShaped(s: Band)
    requires PredictorOk(s)
    ensures Shaped(s)
  {
  }

  lemma AdaptHas(s: Band, dlt: int, nb: int, det: int)
    requires Shaped(s)
    ensures Adapt(s, dlt, nb, det).nb == nb && Adapt(s, dlt, nb, det).det == det
  {
  }

  ghost predicate Received(inputs: seq<nat>) {
    forall k :: 0 <= k < |inputs| ==> inputs[k] < 256
  }

  /** The lower band after a sequence of received words. */
  function LowAfter(inputs: seq<nat>): (r: Band)
    requires Received(inputs)
    ensures Shaped(r)
  {
    if inputs == [] then Reset(32)
    else LowStep(LowAfter(inputs[..|inputs| - 1]), inputs[|inputs| - 1] % 64)
  }

  function HighAfter(inputs: seq<nat>): (r: Band)
    requires Received(inputs)
    ensures Shaped(r)
  {
    if inputs == [] then Reset(8)
    else HighStep(HighAfter(inputs[..|inputs| - 1]), inputs[|inputs| - 1] / 64)
  }

  lemma ResetIsBounded()
    ensures LowOk(Reset(32)) && HighOk(Reset(8))
  {
    ScaleBounds(0, 8); ScaleBounds(0, 10);
    ResetScales();
  }

  /** Every sequence of received words keeps both bands in range. */
  lemma {:induction false} StateStaysBounded(inputs: seq<nat>)
    requires Received(inputs)
    ensures LowOk(LowAfter(inputs)) && HighOk(HighAfter(inputs))
  {
    hide LowOk, HighOk, LowStep, HighStep;
    if inputs == [] {
      ResetIsBounded();
    } else {
      var front, input := inputs[..|inputs| - 1], inputs[|inputs| - 1];
      StateStaysBounded(front);
      LowStepKeepsBounds(LowAfter(front), input % 64);
      HighStepKeepsBounds(HighAfter(front), input / 64);
    }
  }

  lemma ResetScales()
    ensures Scalel(0, 8) == 32 && Scalel(0, 10) == 8
  {
    hide Shr;
    assert Ilb(0) == 2048;
    ShrBy7And8(2048);
    ShrSum(2048, 8, 1);
    ShrSum(2048, 8, 3);
    ShrOfEight();
  }

  lemma ShrOfEight()
    ensures Shr(8, 1) == 4 && Shr(8, 3) == 1
  {
  }

  lemma {:induction false} ShrSum(v: int, a: nat, b: nat)
    ensures Shr(v, a + b) == Shr(Shr(v, a), b)
  {
    if b > 0 {
      ShrSum(v, a, b - 1);
    }
  }
}
