/** The audio decoder as a filter over time: what its registers hold in terms of the signals of
    the past, what it predicts from them, how its coefficients follow the signs of the signals,
    and what its tables stand for. */
module AdpcmSignals {
  import opened Adpcm
  import opened Powers
  import Division

  // ---- Shifts are divisions ----

  lemma HalfOf(v: int, m: nat)
    requires 0 < m
    ensures v / m / 2 == v / (2 * m)
  {
    var q, r := v / m, v % m;
    assert v == m * q + r;
    var h, b := q / 2, q % 2;
    assert m * q == m * (2 * h + b) == (2 * m) * h + m * b;
    FloorIs(v, 2 * m, h, m * b + r);
  }

  lemma FloorIs(v: int, m: nat, q: int, r: int)
    requires v == m * q + r && 0 <= r < m
    ensures v / m == q
  {
    var d := v / m - q;
    assert v == m * (v / m) + v % m;
    assert m * (v / m) == m * q + m * d;
    assert d >= 1 ==> m * d >= m;
    assert d <= -1 ==> m * d + m <= 0;
  }

  lemma {:induction false} ShrIs(v: int, n: nat)
    ensures Shr(v, n) == v / Pow2(n)
  {
    if n > 0 {
      ShrIs(v, n - 1);
      HalfOf(v, Pow2(n - 1));
    }
  }

  lemma Shifts(v: int)
    ensures Shr(v, 7) == v / 128 && Shr(v, 8) == v / 256 && Shr(v, 14) == v / 16384 && Shr(v, 15) == v / 32768
  {
    SmallPowers();
    assert Pow2(14) == 4 * Pow2(12) && Pow2(15) == 2 * Pow2(14);
    ShrIs(v, 7); ShrIs(v, 8); ShrIs(v, 14); ShrIs(v, 15);
  }

  // ---- One band over time ----

  /** The states of a band from reset on, and the quantized difference that led from each to
      the next. */
  ghost predicate IsTrace(ss: seq<Band>, dl: seq<int>) {
    && |ss| == |dl| + 1 && ss[0] == Reset(ss[0].det)
    && (forall k :: 0 <= k < |ss| ==> Shaped(ss[k]))
    && (forall k :: 0 <= k < |dl| ==> ss[k + 1] == Adapt(ss[k], dl[k], ss[k + 1].nb, ss[k + 1].det))
  }

  /** The difference at time `k`, and silence before time 0. */
  function D(dl: seq<int>, k: int): int { if 0 <= k < |dl| then dl[k] else 0 }

  /** The two predictions at time `k` from the last two differences and the last two outputs. */
  ghost function ZeroPart(ss: seq<Band>, dl: seq<int>, k: int): int {
    if 0 <= k < |ss| && |ss[k].b| == 6 then (ss[k].b[0] * D(dl, k - 1) + ss[k].b[1] * D(dl, k - 2)) / 16384 else 0
  }

  /** The difference with the zero part, whose sign steers the pole coefficients. */
  ghost function Partial(ss: seq<Band>, dl: seq<int>, k: int): int { D(dl, k) + if 0 <= k < |dl| then ZeroPart(ss, dl, k) else 0 }

  /** The reconstructed signal: difference, zero part, and pole part of the last two outputs. */
  ghost function Output(ss: seq<Band>, dl: seq<int>, k: int): int
    decreases if k < 0 then 0 else k + 1
  {
    if 0 <= k < |dl| && |ss| > k then
      Partial(ss, dl, k) + (2 * (ss[k].al1 * Output(ss, dl, k - 1) + ss[k].al2 * Output(ss, dl, k - 2))) / 32768
    else 0
  }

  /** The registers hold the last two of each signal. The delay line has two live taps: the
      others are zero for ever. */
  ghost predicate Remembers(ss: seq<Band>, dl: seq<int>, k: nat)
    requires k < |ss|
  {
    var s := ss[k];
    && s.d == [D(dl, k - 1), D(dl, k - 2), 0, 0, 0, 0]
    && s.plt1 == Partial(ss, dl, k - 1) && s.plt2 == Partial(ss, dl, k - 2)
    && s.rlt1 == Output(ss, dl, k - 1) && s.rlt2 == Output(ss, dl, k - 2)
  }

  lemma DotOfTwo(b: seq<int>, d: seq<int>)
    requires |b| == 6 && |d| == 6 && d[2] == d[3] == d[4] == d[5] == 0
    ensures Dot(b, d, 6) == b[0] * d[0] + b[1] * d[1]
  {
    assert Dot(b, d, 1) == Mul(b[0], d[0]) && Dot(b, d, 2) == Dot(b, d, 1) + Mul(b[1], d[1]);
    NoProduct(b[2]); NoProduct(b[3]); NoProduct(b[4]); NoProduct(b[5]);
    assert Dot(b, d, 3) == Dot(b, d, 2) + Mul(b[2], d[2]) && Dot(b, d, 4) == Dot(b, d, 3) + Mul(b[3], d[3]);
    assert Dot(b, d, 5) == Dot(b, d, 4) + Mul(b[4], d[4]) && Dot(b, d, 6) == Dot(b, d, 5) + Mul(b[5], d[5]);
  }

  lemma NoProduct(a: int)
    ensures Mul(a, 0) == 0
  {
  }

  lemma ZerosAre(s: Band)
    requires Shaped(s) && s.d[2] == s.d[3] == s.d[4] == s.d[5] == 0
    ensures Zeros(s) == (s.b[0] * s.d[0] + s.b[1] * s.d[1]) / 16384
  {
    DotOfTwo(s.b, s.d);
    Shifts(Dot(s.b, s.d, 6));
    hide Shr, Dot;
  }

  lemma PolesAre(s: Band)
    ensures Poles(s) == (2 * (s.al1 * s.rlt1 + s.al2 * s.rlt2)) / 32768
  {
    var sum := Mul(s.al1, 2 * s.rlt1) + Mul(s.al2, 2 * s.rlt2);
    Doubled(s.al1, s.rlt1); Doubled(s.al2, s.rlt2);
    Shifts(sum);
    hide Shr;
  }

  lemma Doubled(a: int, b: int)
    ensures a * (2 * b) == 2 * (a * b)
  {
  }

  /** What one step moves where. */
  lemma Moves(s: Band, dlt: int, nb: int, det: int)
    requires Shaped(s)
    ensures var s', z := Adapt(s, dlt, nb, det), Zeros(s);
      && s'.d == [dlt, s.d[0], s.d[2], s.d[2], s.d[3], s.d[4]]
      && s'.plt1 == dlt + z && s'.plt2 == s.plt1 && s'.rlt1 == dlt + z + Poles(s) && s'.rlt2 == s.rlt1
  {
    hide Zeros, Poles, Uppol1, Uppol2, Coefficients;
  }

  /** At every time the registers hold the signals of the two times before. */
  lemma {:induction false} HistoryIs(ss: seq<Band>, dl: seq<int>, k: nat)
    requires IsTrace(ss, dl) && k < |ss|
    ensures Remembers(ss, dl, k)
  {
    hide Adapt, Zeros, Poles, Reset;
    if k == 0 {
      StartsSilent(ss, dl);
    } else {
      HistoryIs(ss, dl, k - 1);
      assert ss[k - 1 + 1] == Adapt(ss[k - 1], dl[k - 1], ss[k].nb, ss[k].det);
      Moves(ss[k - 1], dl[k - 1], ss[k].nb, ss[k].det);
      ZerosAre(ss[k - 1]);
      PolesAre(ss[k - 1]);
      OneMore(ss, dl, k - 1);
      hide IsTrace, ZeroPart, Partial, Output;
    }
  }

  lemma StartsSilent(ss: seq<Band>, dl: seq<int>)
    requires IsTrace(ss, dl)
    ensures Remembers(ss, dl, 0)
  {
  }

  /** The signals of one more time, in terms of the registers. */
  lemma OneMore(ss: seq<Band>, dl: seq<int>, k: nat)
    requires IsTrace(ss, dl) && k < |dl| && Remembers(ss, dl, k)
    ensures var s, z := ss[k], (ss[k].b[0] * ss[k].d[0] + ss[k].b[1] * ss[k].d[1]) / 16384;
      Partial(ss, dl, k) == dl[k] + z
      && Output(ss, dl, k) == dl[k] + z + (2 * (s.al1 * s.rlt1 + s.al2 * s.rlt2)) / 32768
  {
    hide Adapt;
  }

  // ---- How the coefficients follow ----

  predicate SameSign(a: int, b: int) { (a >= 0 && b >= 0) || (a <= 0 && b <= 0) }

  lemma SignOf(a: int, b: int)
    ensures Mul(a, b) >= 0 <==> SameSign(a, b)
  {
    if a > 0 && b < 0 { assert Mul(a, b) < 0; }
    if a < 0 && b > 0 { assert Mul(a, b) < 0; }
  }

  /** `v` limited to `bound` on either side. */
  function Limit(v: int, bound: int): int { if v > bound then bound else if v < -bound then -bound else v }

  lemma SecondPoleIs(al1: int, al2: int, p: int, p1: int, p2: int)
    ensures Uppol2(al1, al2, p, p1, p2) ==
      Limit((if SameSign(p, p1) then -4 * al1 else 4 * al1) / 128 + (if SameSign(p, p2) then 128 else -128) + 127 * al2 / 128, 12288)
  {
    SignOf(p, p1); SignOf(p, p2);
    Shifts(-(4 * al1)); Shifts(4 * al1); Shifts(127 * al2);
    hide Shr, Mul, SameSign;
  }

  lemma FirstPoleIs(al1: int, al2: int, p: int, p1: int)
    requires al2 <= 15360
    ensures Uppol1(al1, al2, p, p1) == Limit(255 * al1 / 256 + (if SameSign(p, p1) then 192 else -192), 15360 - al2)
  {
    SignOf(p, p1);
    Shifts(al1 * 255);
    hide Shr, Mul, SameSign;
  }

  lemma ZeroCoefficientIs(dlt: int, d: int, b: int)
    ensures Coefficient(dlt, d, b) == 255 * b / 256 + if dlt == 0 then 0 else if SameSign(dlt, d) then 128 else -128
  {
    SignOf(dlt, d);
    Shifts(255 * b);
    hide Shr, Mul, SameSign;
  }

  /** The coefficients of `s'` after difference `dlt`, with partial signals p, p1 and p2 and the
      differences `d` before it. */
  predicate Follows(s: Band, s': Band, dlt: int, d: seq<int>, p: int, p1: int, p2: int)
    requires Shaped(s) && Shaped(s') && |d| == 6
  {
    && s'.al2 == Limit((if SameSign(p, p1) then -4 * s.al1 else 4 * s.al1) / 128 + (if SameSign(p, p2) then 128 else -128) + 127 * s.al2 / 128, 12288)
    && s'.al1 == Limit(255 * s.al1 / 256 + (if SameSign(p, p1) then 192 else -192), 15360 - s'.al2)
    && forall i :: 0 <= i < 6 ==>
         s'.b[i] == 255 * s.b[i] / 256 + if dlt == 0 then 0 else if SameSign(dlt, d[i]) then 128 else -128
  }

  lemma AdaptsBy(s: Band, dlt: int, nb: int, det: int)
    requires Shaped(s)
    ensures var s', p := Adapt(s, dlt, nb, det), dlt + Zeros(s);
      && s'.al2 == Uppol2(s.al1, s.al2, p, s.plt1, s.plt2) && s'.al1 == Uppol1(s.al1, s'.al2, p, s.plt1)
      && Shaped(s') && forall i :: 0 <= i < 6 ==> s'.b[i] == Coefficient(dlt, s.d[i], s.b[i])
  {
    hide Zeros, Uppol1, Uppol2, Coefficient, Poles;
  }

  lemma AdaptFollows(s: Band, dlt: int, nb: int, det: int)
    requires Shaped(s)
    ensures var s' := Adapt(s, dlt, nb, det); Shaped(s') && Follows(s, s', dlt, s.d, dlt + Zeros(s), s.plt1, s.plt2)
  {
    hide Adapt, Zeros, Uppol1, Uppol2, Coefficient, Limit, SameSign;
    AdaptsBy(s, dlt, nb, det);
    var s', p := Adapt(s, dlt, nb, det), dlt + Zeros(s);
    SecondPoleIs(s.al1, s.al2, p, s.plt1, s.plt2);
    FirstPoleIs(s.al1, s'.al2, p, s.plt1);
    forall i | 0 <= i < 6
      ensures s'.b[i] == 255 * s.b[i] / 256 + if dlt == 0 then 0 else if SameSign(dlt, s.d[i]) then 128 else -128
    {
      ZeroCoefficientIs(dlt, s.d[i], s.b[i]);
    }
  }

  /** The pole coefficients leak and step with the signs of the last three partial signals, the
      zero coefficients with the signs of the last differences. */
  lemma CoefficientsFollow(ss: seq<Band>, dl: seq<int>, k: nat)
    requires IsTrace(ss, dl) && k < |dl|
    ensures Shaped(ss[k]) && Shaped(ss[k + 1])
    ensures Follows(ss[k], ss[k + 1], dl[k], [D(dl, k - 1), D(dl, k - 2), 0, 0, 0, 0],
              Partial(ss, dl, k), Partial(ss, dl, k - 1), Partial(ss, dl, k - 2))
  {
    hide Adapt, Zeros, Follows, Reset;
    var s := ss[k];
    HistoryIs(ss, dl, k);
    assert ss[k + 1] == Adapt(s, dl[k], ss[k + 1].nb, ss[k + 1].det);
    OneMore(ss, dl, k);
    ZerosAre(s);
    AdaptFollows(s, dl[k], ss[k + 1].nb, ss[k + 1].det);
    hide IsTrace, Partial, Output;
  }

  // ---- The two bands ----

  ghost function LowTrace(inputs: seq<nat>): (ss: seq<Band>)
    requires Received(inputs)
    ensures |ss| == |inputs| + 1 && forall k :: 0 <= k < |ss| ==> ss[k] == LowAfter(inputs[..k])
  {
    seq<Band>(|inputs| + 1, k requires 0 <= k <= |inputs| => LowAfter(inputs[..k]))
  }

  ghost function HighTrace(inputs: seq<nat>): (ss: seq<Band>)
    requires Received(inputs)
    ensures |ss| == |inputs| + 1 && forall k :: 0 <= k < |ss| ==> ss[k] == HighAfter(inputs[..k])
  {
    seq<Band>(|inputs| + 1, k requires 0 <= k <= |inputs| => HighAfter(inputs[..k]))
  }

  /** The quantized differences: the scale times the level of the received code. The lower band
      takes the upper four of its six bits, the upper band its two. */
  ghost function LowDiffs(inputs: seq<nat>): (dl: seq<int>)
    requires Received(inputs)
    ensures |dl| == |inputs|
    ensures forall k :: 0 <= k < |dl| ==> dl[k] == LowAfter(inputs[..k]).det * LowerLevel(inputs[k] / 4 % 16) / 32768
  {
    seq<int>(|inputs|, k requires 0 <= k < |inputs| => LowAfter(inputs[..k]).det * LowerLevel(inputs[k] / 4 % 16) / 32768)
  }

  ghost function HighDiffs(inputs: seq<nat>): (dl: seq<int>)
    requires Received(inputs)
    ensures |dl| == |inputs|
    ensures forall k :: 0 <= k < |dl| ==> dl[k] == HighAfter(inputs[..k]).det * UpperLevel(inputs[k] / 64) / 32768
  {
    seq<int>(|inputs|, k requires 0 <= k < |inputs| => HighAfter(inputs[..k]).det * UpperLevel(inputs[k] / 64) / 32768)
  }

  lemma LowDifferenceIs(det: int, i: nat)
    requires i < 16
    ensures Shr(Mul(det, Qq4(i)), 15) == det * LowerLevel(i) / 32768
  {
    LowerTablesAre(i);
    Shifts(Mul(det, Qq4(i)));
    hide Shr, Qq4, LowerLevel;
  }

  lemma LowScaleIs(il: nat, nb: int)
    requires il < 64
    ensures Logscl(il, nb) == Within(127 * nb / 128 + STEPS[Rank(il / 4)], 18432)
  {
    LowerTablesAre(il / 4);
    Shifts(nb * 127);
    hide Shr, Qq4, Wl, Rank;
  }

  lemma UpperFour(input: nat)
    requires input < 256
    ensures input % 64 < 64 && input % 64 / 4 == input / 4 % 16
  {
  }

  lemma LowStepIs(s: Band, input: nat)
    requires Shaped(s) && input < 256
    ensures var s' := LowStep(s, input % 64);
      && s' == Adapt(s, s.det * LowerLevel(input / 4 % 16) / 32768, s'.nb, s'.det)
      && s'.nb == Within(127 * s.nb / 128 + STEPS[Rank(input / 4 % 16)], 18432) && s'.det == Scalel(s'.nb, 8)
  {
    var il := input % 64;
    hide Shr, Mul, Qq4, Wl, Scalel, Adapt, LowerLevel, Rank, Within, Logscl;
    UpperFour(input);
    LowShiftIsLegal(il, s.nb);
    LowDifferenceIs(s.det, il / 4);
    LowScaleIs(il, s.nb);
    var nb := Logscl(il, s.nb);
    AdaptHas(s, s.det * LowerLevel(il / 4) / 32768, nb, Scalel(nb, 8));
  }

  lemma HighDifferenceIs(det: int, i: nat)
    requires i < 4
    ensures Shr(Mul(det, Qq2(i)), 15) == det * UpperLevel(i) / 32768
  {
    UpperTablesAre(i);
    Shifts(Mul(det, Qq2(i)));
    hide Shr, Qq2, UpperLevel;
  }

  lemma HighScaleIs(ih: nat, nb: int)
    requires ih < 4
    ensures Logsch(ih, nb) == Within(127 * nb / 128 + (if ih % 2 == 0 then 798 else -214), 22528)
  {
    UpperTablesAre(ih);
    Shifts(nb * 127);
    hide Shr, Qq2, Wh;
  }

  lemma HighStepIs(s: Band, input: nat)
    requires Shaped(s) && input < 256
    ensures var s' := HighStep(s, input / 64);
      && s' == Adapt(s, s.det * UpperLevel(input / 64) / 32768, s'.nb, s'.det)
      && s'.nb == Within(127 * s.nb / 128 + (if input / 64 % 2 == 0 then 798 else -214), 22528) && s'.det == Scalel(s'.nb, 10)
  {
    var ih := input / 64;
    HighShiftIsLegal(ih, s.nb);
    hide Shr, Mul, Qq2, Wh, Scalel, Adapt, UpperLevel, Within, Logsch;
    HighDifferenceIs(s.det, ih);
    HighScaleIs(ih, s.nb);
    var nb := Logsch(ih, s.nb);
    AdaptHas(s, s.det * UpperLevel(ih) / 32768, nb, Scalel(nb, 10));
  }

  function Within(v: int, top: nat): nat { if v < 0 then 0 else if v > top then top else v }

  lemma OneMoreWord(inputs: seq<nat>, k: nat)
    requires Received(inputs) && k < |inputs|
    ensures LowAfter(inputs[..k + 1]) == LowStep(LowAfter(inputs[..k]), inputs[k] % 64)
    ensures HighAfter(inputs[..k + 1]) == HighStep(HighAfter(inputs[..k]), inputs[k] / 64)
  {
    hide LowStep, HighStep;
    assert inputs[..k + 1][..k] == inputs[..k] && inputs[..k + 1][k] == inputs[k];
  }

  lemma LowCycle(inputs: seq<nat>, k: nat)
    requires Received(inputs) && k < |inputs|
    ensures var s, s' := LowAfter(inputs[..k]), LowAfter(inputs[..k + 1]);
      && s' == Adapt(s, LowDiffs(inputs)[k], s'.nb, s'.det)
      && s'.nb == Within(127 * s.nb / 128 + STEPS[Rank(inputs[k] / 4 % 16)], 18432) && s'.det == Scalel(s'.nb, 8)
  {
    hide LowAfter, LowStep, Adapt, LowerLevel, Rank, Within, Scalel;
    OneMoreWord(inputs, k);
    LowStepIs(LowAfter(inputs[..k]), inputs[k]);
  }

  lemma HighCycle(inputs: seq<nat>, k: nat)
    requires Received(inputs) && k < |inputs|
    ensures var s, s' := HighAfter(inputs[..k]), HighAfter(inputs[..k + 1]);
      && s' == Adapt(s, HighDiffs(inputs)[k], s'.nb, s'.det)
      && s'.nb == Within(127 * s.nb / 128 + (if inputs[k] / 64 % 2 == 0 then 798 else -214), 22528) && s'.det == Scalel(s'.nb, 10)
  {
    hide HighAfter, HighStep, Adapt, UpperLevel, Within, Scalel;
    OneMoreWord(inputs, k);
    HighStepIs(HighAfter(inputs[..k]), inputs[k]);
  }

  lemma IsTraceIf(ss: seq<Band>, dl: seq<int>, det: int)
    requires |ss| == |dl| + 1 && ss[0] == Reset(det)
    requires forall k :: 0 <= k < |ss| ==> Shaped(ss[k])
    requires forall k :: 0 <= k < |dl| ==> ss[k + 1] == Adapt(ss[k], dl[k], ss[k + 1].nb, ss[k + 1].det)
    ensures IsTrace(ss, dl) && ss[0].det == det
  {
    hide Adapt;
  }

  lemma LowIsTrace(inputs: seq<nat>)
    requires Received(inputs)
    ensures IsTrace(LowTrace(inputs), LowDiffs(inputs)) && LowTrace(inputs)[0].det == 32
  {
    hide Adapt, IsTrace, LowDiffs, LowTrace, Within, LowStep, Reset, LowerLevel, Rank, Scalel;
    var ss, dl := LowTrace(inputs), LowDiffs(inputs);
    assert inputs[..0] == [];
    forall k | 0 <= k < |dl|
      ensures ss[k + 1] == Adapt(ss[k], dl[k], ss[k + 1].nb, ss[k + 1].det)
    {
      LowCycle(inputs, k);
    }
    IsTraceIf(ss, dl, 32);
  }

  lemma HighIsTrace(inputs: seq<nat>)
    requires Received(inputs)
    ensures IsTrace(HighTrace(inputs), HighDiffs(inputs)) && HighTrace(inputs)[0].det == 8
  {
    hide Adapt, IsTrace, HighDiffs, HighTrace, Within, HighStep, Reset, UpperLevel, Scalel;
    var ss, dl := HighTrace(inputs), HighDiffs(inputs);
    assert inputs[..0] == [];
    forall k | 0 <= k < |dl|
      ensures ss[k + 1] == Adapt(ss[k], dl[k], ss[k + 1].nb, ss[k + 1].det)
    {
      HighCycle(inputs, k);
    }
    IsTraceIf(ss, dl, 8);
  }

  const ZEROS: seq<int> := [0, 0, 0, 0, 0, 0]

  /** Every sequence of received words drives both bands as `HistoryIs` and `CoefficientsFollow`
      describe; `LowCycle` and `HighCycle` say how the scales follow. */
  lemma BandsAreTraces(inputs: seq<nat>)
    requires Received(inputs)
    ensures IsTrace(LowTrace(inputs), LowDiffs(inputs)) && LowTrace(inputs)[0] == Band(0, 32, 0, 0, 0, 0, 0, 0, ZEROS, ZEROS)
    ensures IsTrace(HighTrace(inputs), HighDiffs(inputs)) && HighTrace(inputs)[0] == Band(0, 8, 0, 0, 0, 0, 0, 0, ZEROS, ZEROS)
  {
    assert inputs[..0] == [];
    hide IsTrace, LowDiffs, HighDiffs;
    LowIsTrace(inputs);
    HighIsTrace(inputs);
  }

  /** The scale factor: the mantissa of the low eleven bits of `nb`, as many places to the right
      as the rest of `nb` falls short. */
  lemma ScaleIs(nb: nat, shift: nat)
    requires nb / 2048 <= shift + 1
    ensures Scalel(nb, shift) == 8 * (Ilb(nb % 2048 / 64) / Pow2(shift + 1 - nb / 2048))
  {
    hide Shr, Ilb, Pow2;
    FiveBits(nb);
    ShrIs(Ilb(nb / 64 % 32), shift + 1 - nb / 2048);
  }

  lemma FiveBits(nb: nat)
    ensures nb / 64 % 32 == nb % 2048 / 64
  {
  }

  lemma MantissasGrow(i: nat, j: nat)
    requires i <= j < 32
    ensures Ilb(i) <= Ilb(j) < 4096 <= 2 * Ilb(i)
  {
  }

  lemma DivGrows(a: nat, b: nat, m: nat)
    requires a <= b && 0 < m
    ensures a / m <= b / m
  {
    assert a == m * (a / m) + a % m && b == m * (b / m) + b % m;
    assert m * (b / m + 1) == m * (b / m) + m;
    if a / m > b / m { Division.MulMono(b / m + 1, a / m, m); }
  }

  /** The scale grows with its logarithm. */
  lemma {:induction false} ScaleGrows(nb: nat, nb': nat, shift: nat)
    requires nb <= nb' && nb' / 2048 <= shift + 1
    ensures nb / 2048 <= shift + 1 && Scalel(nb, shift) <= Scalel(nb', shift)
    decreases nb' - nb
  {
    var e, e' := nb / 2048, nb' / 2048;
    DivGrows(nb, nb', 2048);
    ScaleIs(nb, shift); ScaleIs(nb', shift);
    var m, m' := Ilb(nb % 2048 / 64), Ilb(nb' % 2048 / 64);
    if e == e' {
      DivGrows(nb % 2048, nb' % 2048, 64);
      MantissasGrow(nb % 2048 / 64, nb' % 2048 / 64);
      DivGrows(m, m', Pow2(shift + 1 - e));
    } else {
      MantissasGrow(0, nb % 2048 / 64);
      MantissasGrow(0, nb' % 2048 / 64);
      DivGrows(m, 2 * m', Pow2(shift + 1 - e));
      PowMono(shift + 1 - e', shift - e);
      hide Ilb, Scalel;
      Octaves(m', shift + 1 - e', shift + 1 - e);
    }
  }

  /** Fewer places to the right by at least one make up for a factor of two. */
  lemma Octaves(v: nat, n: nat, n': nat)
    requires n < n'
    ensures 2 * v / Pow2(n') <= v / Pow2(n)
  {
    PowMono(n, n' - 1);
    var a, b := Pow2(n), Pow2(n' - 1);
    assert Pow2(n') == 2 * b;
    HalfDivided(v, b);
    SmallerDivisor(v, a, b);
  }

  lemma HalfDivided(v: nat, b: nat)
    requires 0 < b
    ensures 2 * v / (2 * b) == v / b
  {
    var q, r := v / b, v % b;
    assert v == b * q + r;
    assert 2 * v == (2 * b) * q + 2 * r;
    FloorIs(2 * v, 2 * b, q, 2 * r);
  }

  lemma SmallerDivisor(v: nat, a: nat, b: nat)
    requires 0 < a <= b
    ensures v / b <= v / a
  {
    assert v == a * (v / a) + v % a && v == b * (v / b) + v % b;
    assert a * (v / a + 1) == a * (v / a) + a;
    Division.MulMono(a, b, v / a + 1);
    if v / b > v / a { Division.MulMono(v / a + 1, v / b, b); }
  }

  // ---- The tables ----

  /** The magnitudes of the lower quantizer in increasing order, and what each adds to the scale. */
  const LEVELS: seq<int> := [0, 1200, 2584, 4240, 6288, 8968, 12896, 20456]
  const STEPS: seq<int> := [-60, -30, 58, 172, 334, 538, 1198, 3042]

  /** Codes run from the largest magnitude down, the negative ones first; 0 and 15 are zero. */
  function Rank(i: nat): (r: nat)
    requires i < 16
    ensures r < 8
  {
    if i == 0 || i == 15 then 0 else if i < 8 then 8 - i else 15 - i
  }

  function LowerLevel(i: nat): int
    requires i < 16
  {
    if i < 8 then -LEVELS[Rank(i)] else LEVELS[Rank(i)]
  }

  lemma LowerTablesAre(i: nat)
    requires i < 16
    ensures Qq4(i) == LowerLevel(i) && Wl(i) == STEPS[Rank(i)]
  {
  }

  /** The upper quantizer has two magnitudes, the larger one first; it raises the scale. */
  function UpperLevel(i: nat): int
    requires i < 4
  {
    var magnitude := if i % 2 == 0 then 7408 else 1616;
    if i < 2 then -magnitude else magnitude
  }

  lemma UpperTablesAre(i: nat)
    requires i < 4
    ensures Qq2(i) == UpperLevel(i) && Wh(i) == if i % 2 == 0 then 798 else -214
  {
  }

  /** Larger differences raise the scale more. */
  lemma LevelsAndStepsGrow(r: nat)
    requires r + 1 < 8
    ensures LEVELS[r] < LEVELS[r + 1] && STEPS[r] < STEPS[r + 1]
  {
  }

  function Square(v: nat): nat { v * v }

  /** v to the power 32. */
  function Power32(v: nat): nat { Square(Square(Square(Square(Square(v))))) }

  /** `v` is 2048 times the 32nd root of `p`, rounded to the nearest integer. */
  predicate Rounds(v: nat, p: nat)
    requires v > 0
  {
    Power32(2 * v - 1) <= Power32(4096) * p < Power32(2 * v + 1)
  }

  lemma Mantissas0()
    ensures Rounds(2048, 1) && Rounds(2093, 2) && Rounds(2139, 4) && Rounds(2186, 8)
  {
  }

  lemma Mantissas4()
    ensures Rounds(2233, 16) && Rounds(2282, 32) && Rounds(2332, 64) && Rounds(2383, 128)
  {
  }

  lemma Mantissas8()
    ensures Rounds(2435, 256) && Rounds(2489, 512) && Rounds(2543, 1024) && Rounds(2599, 2048)
    ensures Rounds(2656, 4096) && Rounds(2714, 8192) && Rounds(2774, 16384) && Rounds(2834, 32768)
  {
  }

  lemma Mantissas16()
    ensures Rounds(2896, 65536) && Rounds(2960, 131072) && Rounds(3025, 262144) && Rounds(3091, 524288)
    ensures Rounds(3158, 1048576) && Rounds(3228, 2097152) && Rounds(3298, 4194304) && Rounds(3371, 8388608)
  {
  }

  lemma Mantissas24()
    ensures Rounds(3444, 16777216) && Rounds(3520, 33554432) && Rounds(3597, 67108864) && Rounds(3676, 134217728)
    ensures Rounds(3756, 268435456) && Rounds(3838, 536870912) && Rounds(3922, 1073741824) && Rounds(4008, 2147483648)
  {
  }

  lemma PowersAre(i: nat)
    requires i < 32
    ensures Pow2(i) == match i
      case 0 => 1 case 1 => 2 case 2 => 4 case 3 => 8 case 4 => 16 case 5 => 32 case 6 => 64 case 7 => 128
      case 8 => 256 case 9 => 512 case 10 => 1024 case 11 => 2048 case 12 => 4096 case 13 => 8192 case 14 => 16384 case 15 => 32768
      case 16 => 65536 case 17 => 131072 case 18 => 262144 case 19 => 524288 case 20 => 1048576 case 21 => 2097152 case 22 => 4194304 case 23 => 8388608
      case 24 => 16777216 case 25 => 33554432 case 26 => 67108864 case 27 => 134217728 case 28 => 268435456 case 29 => 536870912 case 30 => 1073741824 case _ => 2147483648
  {
    SmallPowers();
    PowSum(16, 8);
    assert Pow2(24) == 16777216;
  }

  /** Entry i of the mantissa table is 2048 * 2^(i / 32), rounded. */
  lemma MantissaIsPower(i: nat)
    requires i < 32
    ensures Rounds(Ilb(i), Pow2(i))
  {
    hide Rounds, Pow2;
    Mantissas0(); Mantissas4(); Mantissas8(); Mantissas16(); Mantissas24();
    PowersAre(i);
  }
}
