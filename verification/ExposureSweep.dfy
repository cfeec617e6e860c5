/** Log-spaced sweep values over the useful part of an integer control's range. */
module ExposureSweep {
  import opened Arithmetic
  import opened Controls

  const SWEEP_POINTS: nat := 4

  function SweepLow(info: ControlInfo): real {
    var a, b := info.minimum as real, (info.maximum as real) / 512.0;
    if a >= b then a else b
  }

  function SweepHigh(info: ControlInfo): real { (info.maximum as real) / 4.0 }

  predicate Sweepable(info: ControlInfo) {
    info.maximum > 0 && 0.0 < SweepLow(info) <= SweepHigh(info)
  }

  /** llround of a positive number: to nearest, halves up. */
  function Round(x: real): int { (x + 0.5).Floor }

  /** Down to the control's step, counted from its minimum. */
  function Snap(info: ControlInfo, v: int): int {
    if info.step > 1 then info.minimum + (v - info.minimum) / info.step * info.step else v
  }

  function GridPoint(info: ControlInfo, k: int): int { info.minimum + k * info.step }

  ghost predicate OnGrid(info: ControlInfo, v: int) {
    info.step > 1 ==> exists k: nat :: v == GridPoint(info, k)
  }

  predicate StrictlyAscending(s: seq<int>) {
    forall j, k :: 0 <= j < k < |s| ==> s[j] < s[k]
  }

  /** `ratio` stands for the cube root of hi / lo, so ratio^i is pow(hi / lo, i / 3). */
  predicate IsSweepRatio(info: ControlInfo, ratio: real) {
    ratio > 0.0 && (Sweepable(info) ==> SweepLow(info) * ratio * ratio * ratio == SweepHigh(info))
  }

  function Point(info: ControlInfo, ratio: real, i: nat): real {
    if i == 0 then SweepLow(info) else Point(info, ratio, i - 1) * ratio
  }

  lemma RatioAtLeastOne(lo: real, hi: real, r: real)
    requires 0.0 < lo <= hi && r > 0.0 && lo * r * r * r == hi
    ensures r >= 1.0
  {
    if r < 1.0 {
      Shrinks(lo, r);
      Shrinks(lo * r, r);
      Shrinks(lo * r * r, r);
      assert false;
    }
  }

  lemma Shrinks(x: real, r: real)
    requires x > 0.0 && 0.0 < r < 1.0
    ensures 0.0 < x * r < x
  {
    assert x * (1.0 - r) > 0.0;
  }

  lemma Grows(x: real, r: real)
    requires x > 0.0 && r >= 1.0
    ensures x * r >= x
  {
    assert x * (r - 1.0) >= 0.0;
  }

  lemma ThreeFactors(lo: real, hi: real, r: real)
    requires 0.0 < lo <= hi && r > 0.0 && lo * r * r * r == hi
    ensures lo <= lo * r <= lo * r * r <= hi
  {
    RatioAtLeastOne(lo, hi, r);
    Grows(lo, r);
    Grows(lo * r, r);
    Grows(lo * r * r, r);
  }

  lemma FourPoints(info: ControlInfo, ratio: real)
    ensures var lo := SweepLow(info);
      && Point(info, ratio, 0) == lo && Point(info, ratio, 1) == lo * ratio
      && Point(info, ratio, 2) == lo * ratio * ratio && Point(info, ratio, 3) == lo * ratio * ratio * ratio
  {
    hide SweepLow;
    var one, two, three := 1, 2, 3;
    assert Point(info, ratio, one) == Point(info, ratio, 0) * ratio;
    assert Point(info, ratio, two) == Point(info, ratio, one) * ratio;
    assert Point(info, ratio, three) == Point(info, ratio, two) * ratio;
  }

  /** The points rise from lo to hi. */
  lemma PointsRise(info: ControlInfo, ratio: real, i: nat)
    requires Sweepable(info) && IsSweepRatio(info, ratio) && i < SWEEP_POINTS
    ensures SweepLow(info) <= Point(info, ratio, i) <= SweepHigh(info)
    ensures i > 0 ==> Point(info, ratio, i - 1) <= Point(info, ratio, i)
    ensures i == SWEEP_POINTS - 1 ==> Point(info, ratio, i) == SweepHigh(info)
  {
    hide SweepLow, SweepHigh, Point;
    ThreeFactors(SweepLow(info), SweepHigh(info), ratio);
    FourPoints(info, ratio);
  }

  lemma RoundMonotone(x: real, y: real)
    requires x <= y
    ensures Round(x) <= Round(y)
  {
  }

  /** A point of the sweep rounds into the control's range. */
  lemma RoundInRange(info: ControlInfo, x: real)
    requires Sweepable(info) && SweepLow(info) <= x <= SweepHigh(info)
    ensures info.minimum <= Round(x) <= info.maximum
  {
    assert info.minimum as real <= x;
    assert x + 0.5 <= (info.maximum as real) / 4.0 + 0.5 < info.maximum as real + 1.0;
  }

  lemma SnapInRange(info: ControlInfo, v: int)
    requires info.minimum <= v <= info.maximum
    ensures info.minimum <= Snap(info, v) <= v && OnGrid(info, Snap(info, v))
  {
    if info.step > 1 {
      DivisionBounds(v - info.minimum, info.step);
      assert Snap(info, v) == GridPoint(info, (v - info.minimum) / info.step);
    }
  }

  lemma SnapMonotone(info: ControlInfo, v: int, w: int)
    requires info.minimum <= v <= w
    ensures Snap(info, v) <= Snap(info, w)
  {
    if info.step > 1 {
      QuotientMonotone(v - info.minimum, w - info.minimum, info.step);
    }
  }

  lemma QuotientMonotone(a: nat, b: nat, d: int)
    requires a <= b && d > 1
    ensures a / d * d <= b / d * d
  {
    DivisionBounds(a, d);
    DivisionBounds(b, d);
    if a / d > b / d {
      MulLe(b / d + 1, a / d, d);
      MulStep(b / d, d);
    }
  }

  function Clamp(info: ControlInfo, v: int): int {
    var capped := if v < info.maximum then v else info.maximum;
    if capped > info.minimum then capped else info.minimum
  }

  /** The i-th value before deduplication: the clamp at the end of the loop body never fires. */
  lemma ClampNeverFires(info: ControlInfo, ratio: real, i: nat)
    requires Sweepable(info) && IsSweepRatio(info, ratio) && i < SWEEP_POINTS
    ensures var v := Snap(info, Round(Point(info, ratio, i)));
      && Clamp(info, v) == v && info.minimum <= v <= info.maximum && OnGrid(info, v)
    ensures i > 0 ==> Snap(info, Round(Point(info, ratio, i - 1))) <= Snap(info, Round(Point(info, ratio, i)))
  {
    PointsRise(info, ratio, i);
    RoundInRange(info, Point(info, ratio, i));
    SnapInRange(info, Round(Point(info, ratio, i)));
    if i > 0 {
      PointsRise(info, ratio, i - 1);
      RoundInRange(info, Point(info, ratio, i - 1));
      RoundMonotone(Point(info, ratio, i - 1), Point(info, ratio, i));
      SnapMonotone(info, Round(Point(info, ratio, i - 1)), Round(Point(info, ratio, i)));
    }
  }

  function Extended(values: seq<int>, v: int): seq<int> {
    if |values| == 0 || values[|values| - 1] != v then values + [v] else values
  }

  /** The values of the first i points, without repetitions. */
  function FirstValues(info: ControlInfo, ratio: real, i: nat): seq<int> {
    if i == 0 then []
    else Extended(FirstValues(info, ratio, i - 1), Clamp(info, Snap(info, Round(Point(info, ratio, i - 1)))))
  }

  function SweepValues(info: ControlInfo, ratio: real): seq<int> {
    if Sweepable(info) then FirstValues(info, ratio, SWEEP_POINTS) else []
  }

  ghost predicate Swept(values: seq<int>, info: ControlInfo, ratio: real, i: nat) {
    && (i == 0 <==> |values| == 0) && |values| <= i && StrictlyAscending(values)
    && (forall k :: 0 <= k < |values| ==> info.minimum <= values[k] <= info.maximum && OnGrid(info, values[k]))
    && (i > 0 ==> values[0] == Snap(info, Round(SweepLow(info)))
                  && values[|values| - 1] == Snap(info, Round(Point(info, ratio, i - 1))))
  }

  lemma SweepStep(values: seq<int>, info: ControlInfo, ratio: real, i: nat)
    requires Sweepable(info) && IsSweepRatio(info, ratio) && i < SWEEP_POINTS && Swept(values, info, ratio, i)
    ensures Swept(Extended(values, Clamp(info, Snap(info, Round(Point(info, ratio, i))))), info, ratio, i + 1)
  {
    ClampNeverFires(info, ratio, i);
    FourPoints(info, ratio);
    hide Sweepable, IsSweepRatio, SweepLow, Snap, Round, OnGrid, Point;
  }

  lemma {:induction false} FirstValuesAreSwept(info: ControlInfo, ratio: real, i: nat)
    requires Sweepable(info) && IsSweepRatio(info, ratio) && i <= SWEEP_POINTS
    ensures Swept(FirstValues(info, ratio, i), info, ratio, i)
  {
    hide Sweepable, IsSweepRatio, SweepLow, Snap, Round, OnGrid, Point, Clamp, Extended;
    if i > 0 {
      FirstValuesAreSwept(info, ratio, i - 1);
      SweepStep(FirstValues(info, ratio, i - 1), info, ratio, i - 1);
    }
  }

  /** Empty exactly when no part of the range is useful; otherwise strictly ascending on the step
      grid within the range, from the snapped low end to the snapped high end. */
  ghost predicate CoversRange(values: seq<int>, info: ControlInfo) {
    && (|values| == 0 <==> info.maximum <= 0 || 4 * info.minimum > info.maximum)
    && StrictlyAscending(values) && |values| <= SWEEP_POINTS
    && (forall k :: 0 <= k < |values| ==> info.minimum <= values[k] <= info.maximum && OnGrid(info, values[k]))
    && (|values| > 0 ==>
          && values[0] == Snap(info, Round(SweepLow(info)))
          && values[|values| - 1] == Snap(info, Round(SweepHigh(info))))
  }

  lemma SweepCoversRange(info: ControlInfo, ratio: real)
    requires IsSweepRatio(info, ratio)
    ensures CoversRange(SweepValues(info, ratio), info)
  {
    hide Snap, Round, OnGrid, Point, IsSweepRatio, FirstValues;
    if Sweepable(info) {
      FirstValuesAreSwept(info, ratio, SWEEP_POINTS);
      PointsRise(info, ratio, SWEEP_POINTS - 1);
    }
  }

  /** One value per point, less the repetitions. */
  method DeriveSweepValues(info: ControlInfo, ratio: real) returns (values: seq<int>)
    requires IsSweepRatio(info, ratio)
    ensures values == SweepValues(info, ratio) && CoversRange(values, info)
  {
    hide Point, Snap, Round, Clamp, FirstValues, CoversRange;
    SweepCoversRange(info, ratio);
    values := [];
    if info.maximum <= 0 {
      return;
    }
    var lo, hi := SweepLow(info), SweepHigh(info);
    if lo <= 0.0 || lo > hi {
      return;
    }
    FirstPoint(info, ratio);
    var i, x := 0, lo;
    while i < SWEEP_POINTS
      invariant 0 <= i <= SWEEP_POINTS && x == Point(info, ratio, i)
      invariant values == FirstValues(info, ratio, i)
    {
      PointStep(info, ratio, i);
      var v := Clamp(info, Snap(info, Round(x)));
      if values == [] || values[|values| - 1] != v {
        values := values + [v];
      }
      i, x := i + 1, x * ratio;
    }
  }

  lemma FirstPoint(info: ControlInfo, ratio: real)
    ensures Point(info, ratio, 0) == SweepLow(info) && FirstValues(info, ratio, 0) == []
  {
  }

  lemma PointStep(info: ControlInfo, ratio: real, i: nat)
    ensures Point(info, ratio, i + 1) == Point(info, ratio, i) * ratio
    ensures FirstValues(info, ratio, i + 1) ==
      Extended(FirstValues(info, ratio, i), Clamp(info, Snap(info, Round(Point(info, ratio, i)))))
  {
  }

  // ---- the sweep in numbers --------------------------------------------------------------------------

  /** Rounding moves a value by at most a half, snapping down by less than a step. */
  lemma RoundThenSnap(info: ControlInfo, x: real)
    requires info.minimum <= Round(x)
    ensures (Round(x) as real) - 0.5 <= x < Round(x) as real + 0.5
    ensures var v := Snap(info, Round(x));
      if info.step > 1 then v <= Round(x) < v + info.step && (v - info.minimum) % info.step == 0 else v == Round(x)
  {
    if info.step > 1 {
      hide Round;
      DivisionBounds(Round(x) - info.minimum, info.step);
      var k := (Round(x) - info.minimum) / info.step;
      MultipleHasNoRest(k, info.step);
    }
  }

  lemma MultipleHasNoRest(k: int, d: int)
    requires d > 0
    ensures k * d % d == 0
  {
    var q, r := k * d / d, k * d % d;
    assert (k - q) * d == r;
    if k > q {
      MulLe(1, k - q, d);
    } else if k < q {
      MulLe(1, q - k, d);
    }
  }

  /** The low end is the larger of the minimum and a 512th of the maximum, the high end a quarter of the
      maximum; without a step the first and last value are these, rounded. */
  lemma SweepEndsInNumbers(info: ControlInfo, ratio: real)
    requires IsSweepRatio(info, ratio) && |SweepValues(info, ratio)| > 0 && info.step <= 1
    ensures var values, max := SweepValues(info, ratio), info.maximum;
      && -2 < 4 * values[|values| - 1] - max <= 2
      && if 512 * info.minimum <= max then -256 < 512 * values[0] - max <= 256 else values[0] == info.minimum
  {
    hide FirstValues, Point, IsSweepRatio, StrictlyAscending, OnGrid;
    SweepCoversRange(info, ratio);
  }

  /** The two inner points are the geometric means between the ends. */
  lemma PointsAreGeometric(info: ControlInfo, ratio: real)
    requires Sweepable(info) && IsSweepRatio(info, ratio)
    ensures var lo, hi := SweepLow(info), SweepHigh(info);
      var one, two := Point(info, ratio, 1), Point(info, ratio, 2);
      && one * one == lo * two && two * two == one * hi
  {
    FourPoints(info, ratio);
    hide SweepLow, SweepHigh, Point;
    var lo, one := SweepLow(info), SweepLow(info) * ratio;
    var two := one * ratio;
    assert one * one == lo * ratio * one == lo * (one * ratio);
    assert two * two == one * ratio * two == one * (two * ratio);
  }

  /** Every one of the four points is in the list, and nothing else is. */
  lemma {:induction false} PointsAreSwept(info: ControlInfo, ratio: real, n: nat, v: int)
    requires Sweepable(info) && IsSweepRatio(info, ratio) && n <= 4
    ensures v in FirstValues(info, ratio, n) <==>
      exists i: nat :: i < n && v == Snap(info, Round(Point(info, ratio, i)))
  {
    hide Sweepable, IsSweepRatio, SweepLow, Snap, Round, Point, Clamp;
    if n > 0 {
      PointsAreSwept(info, ratio, n - 1, v);
      ClampNeverFires(info, ratio, n - 1);
      FirstValuesAreSwept(info, ratio, n - 1);
      ExtendedHolds(FirstValues(info, ratio, n - 1), Snap(info, Round(Point(info, ratio, n - 1))), v);
    }
  }

  lemma ExtendedHolds(values: seq<int>, w: int, v: int)
    ensures v in Extended(values, w) <==> v in values || v == w
  {
    if |values| > 0 && values[|values| - 1] == w {
      assert w in values;
    }
  }
}
