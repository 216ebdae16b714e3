/**
 * The static helpers of WrappedFloat that reason about arcs of the circle: whether a value
 * lies strictly inside an arc (`withinRange`), clamping a value to an arc (`limitValue`) and
 * the length two arcs share (`rangeOverlap`). All of them read only wrapped values.
 *
 * Each is paired with a reference definition in terms of `Forward`, the distance travelled
 * upwards round the circle from one point to another.
 */
module WrappedRanges {
  import opened RealArith
  import opened Wrappers
  import opened WrappedFloats

  /** How far one goes upwards round a circle of length `interval` to get from `from` to `to`. */
  function Forward(from: real, to: real, interval: real): (d: real)
    requires interval > 0.0 && Abs(to - from) < interval
    ensures 0.0 <= d < interval
    ensures d == to - from || d == to - from + interval
  {
    if to >= from then to - from else to - from + interval
  }

  /** Two points of one window are less than an interval apart. */
  predicate InWindowOf(w: Wrapped, x: real)
  {
    w.lowerBound <= x < w.upperBound
  }

  /**
   * `withinRange(lowerBound, upperBound)`: strictly inside the arc that starts at `lower` and
   * runs upwards to `upper`, wrapping round when `lower` is above `upper`.
   */
  predicate WithinRange(v: Wrapped, lower: Wrapped, upper: Wrapped)
  {
    (lower.wrapped < upper.wrapped && v.wrapped > lower.wrapped && v.wrapped < upper.wrapped)
      || (lower.wrapped > upper.wrapped && (v.wrapped > lower.wrapped || v.wrapped < upper.wrapped))
  }

  /** The reference reading of `withinRange`: the open arc from `lower` upwards to `upper`. */
  lemma WithinRangeIsOpenArc(v: Wrapped, lower: Wrapped, upper: Wrapped)
    requires v.Valid() && lower.Valid() && upper.Valid() && SameBounds(v, lower) && SameBounds(v, upper)
    ensures var i := v.Interval();
      WithinRange(v, lower, upper) <==> 0.0 < Forward(lower.wrapped, v.wrapped, i) < Forward(lower.wrapped, upper.wrapped, i)
  {
  }

  /** The endpoints are never inside, and an arc from a point to itself is empty. */
  lemma WithinRangeStrict(v: Wrapped, lower: Wrapped, upper: Wrapped)
    ensures !WithinRange(lower, lower, upper) && !WithinRange(upper, lower, upper)
    ensures lower.wrapped == upper.wrapped ==> !WithinRange(v, lower, upper)
  {
  }

  /** The documented examples on [0, 10): (9; 3, 7) no, (5; 3, 7) yes, (9; 7, 3) yes, (5; 7, 3) no. */
  lemma WithinRangeExamples(nine: Wrapped, five: Wrapped, three: Wrapped, seven: Wrapped)
    requires nine.wrapped == 9.0 && five.wrapped == 5.0 && three.wrapped == 3.0 && seven.wrapped == 7.0
    ensures !WithinRange(nine, three, seven) && WithinRange(five, three, seven)
    ensures WithinRange(nine, seven, three) && !WithinRange(five, seven, three)
  {
  }

  /**
   * The result of `limitValue`: the limited value, and the status code it writes through its
   * pointer, or `None` when it leaves the status unwritten.
   */
  datatype Limited = Limited(value: real, status: Option<int>)

  /** The closed arc from `lower` upwards to `upper` contains `x`. */
  predicate InClosedArc(x: real, lower: Wrapped, upper: Wrapped)
    requires lower.Valid() && upper.Valid() && SameBounds(lower, upper) && InWindowOf(lower, x)
  {
    Forward(lower.wrapped, x, lower.Interval()) <= Forward(lower.wrapped, upper.wrapped, lower.Interval())
  }

  /**
   * `limitValue(valueToLimit, min, max, status)`. When `min` and `max` coincide nothing is
   * limited and no status is written; a value strictly inside the arc is kept (status 0);
   * otherwise the nearer endpoint by shortest difference is returned, `min` with status 1 when
   * it is strictly nearer and `max` with status 2 otherwise.
   */
  function LimitValue(v: Wrapped, min: Wrapped, max: Wrapped): (r: Limited)
    requires v.Valid() && min.Valid() && max.Valid()
    requires BoundsMatch(min, max) && BoundsMatch(v, min) && BoundsMatch(v, max)
    ensures min.wrapped == max.wrapped ==> r == Limited(v.wrapped, None)
    ensures r.status == Some(0) <==> min.wrapped != max.wrapped && WithinRange(v, min, max)
    ensures r.status == Some(0) ==> r.value == v.wrapped
    ensures r.status == Some(1) ==> r.value == min.wrapped
    ensures r.status == Some(2) ==> r.value == max.wrapped
    ensures r.status == Some(1) ==> Abs(MinDifference(v, min)) < Abs(MinDifference(v, max))
    ensures r.status == Some(2) ==> Abs(MinDifference(v, max)) <= Abs(MinDifference(v, min))
    ensures min.wrapped != max.wrapped && !WithinRange(v, min, max) ==>
      r == if Abs(MinDifference(v, min)) < Abs(MinDifference(v, max)) then Limited(min.wrapped, Some(1))
        else Limited(max.wrapped, Some(2))
    ensures SameBounds(v, min) && SameBounds(v, max) && min.wrapped != max.wrapped ==>
      InWindowOf(v, r.value) && InClosedArc(r.value, min, max)
  {
    if min.wrapped == max.wrapped then Limited(v.wrapped, None)
    else if !WithinRange(v, min, max) then
      if Abs(MinDifference(v, min)) < Abs(MinDifference(v, max)) then Limited(min.wrapped, Some(1))
      else Limited(max.wrapped, Some(2))
    else Limited(v.wrapped, Some(0))
  }

  /** `limitValue` leaves a value alone exactly when it already lies on the closed arc. */
  lemma LimitValueFixesClosedArc(v: Wrapped, min: Wrapped, max: Wrapped)
    requires v.Valid() && min.Valid() && max.Valid() && SameBounds(v, min) && SameBounds(v, max)
    requires min.wrapped != max.wrapped
    ensures LimitValue(v, min, max).value == v.wrapped <==> InClosedArc(v.wrapped, min, max)
  {
    WithinRangeIsOpenArc(v, min, max);
    MinDifferenceZeroIffEqual(v, min);
    MinDifferenceZeroIffEqual(v, max);
  }

  /** Limiting a limited value again changes nothing. */
  lemma LimitValueIdempotent(v: Wrapped, min: Wrapped, max: Wrapped)
    requires v.Valid() && min.Valid() && max.Valid() && SameBounds(v, min) && SameBounds(v, max)
    ensures var once := LimitValue(v, min, max).value;
      InWindowOf(v, once) && LimitValue(v.(wrapped := once), min, max).value == once
  {
    var once := LimitValue(v, min, max).value;
    if min.wrapped != max.wrapped {
      LimitValueFixesClosedArc(v.(wrapped := once), min, max);
    }
  }

  /**
   * The documented examples hold for the bounds 0 to 10: (5; 1, 4) gives 4, (9; 1, 3) gives 1
   * and (9; 2, 1) gives 9. The values may have made any number of revolutions.
   */
  lemma LimitValueExamples(five: Wrapped, nine: Wrapped, one: Wrapped, two: Wrapped, three: Wrapped, four: Wrapped)
    requires forall w :: w in [five, nine, one, two, three, four] ==> w.lowerBound == 0.0 && w.upperBound == 10.0
    requires five.wrapped == 5.0 && nine.wrapped == 9.0 && one.wrapped == 1.0
    requires two.wrapped == 2.0 && three.wrapped == 3.0 && four.wrapped == 4.0
    ensures LimitValue(five, one, four) == Limited(4.0, Some(2))
    ensures LimitValue(nine, one, three) == Limited(1.0, Some(1))
    ensures LimitValue(nine, two, one) == Limited(9.0, Some(0))
  {
    assert five in [five, nine, one, two, three, four] && nine in [five, nine, one, two, three, four];
    assert one in [five, nine, one, two, three, four] && two in [five, nine, one, two, three, four];
    assert three in [five, nine, one, two, three, four] && four in [five, nine, one, two, three, four];
  }

  /**
   * The same second example with the bounds -10 to 10 that the documentation names gives 3,
   * not 1: the way round from 9 to 1 is no longer the short one.
   */
  lemma LimitValueExampleOtherBounds(nine: Wrapped, one: Wrapped, three: Wrapped)
    requires forall w :: w in [nine, one, three] ==> w.lowerBound == -10.0 && w.upperBound == 10.0
    requires nine.wrapped == 9.0 && one.wrapped == 1.0 && three.wrapped == 3.0
    ensures LimitValue(nine, one, three) == Limited(3.0, Some(2))
  {
    assert nine in [nine, one, three] && one in [nine, one, three] && three in [nine, one, three];
  }

  /** The scalar `limitValue`, which first wraps `min` and `max` to the bounds of the value. */
  function LimitValueTo(v: Wrapped, min: real, max: real): (r: Limited)
    requires v.Valid()
    ensures var lo, hi := WithSameBounds(v, min), WithSameBounds(v, max);
      SameBounds(v, lo) && SameBounds(v, hi) && lo.Unwrapped() == min && hi.Unwrapped() == max
    ensures var lo, hi := WithSameBounds(v, min), WithSameBounds(v, max);
      lo.wrapped == hi.wrapped ==> r == Limited(v.wrapped, None)
    ensures var lo, hi := WithSameBounds(v, min), WithSameBounds(v, max);
      lo.wrapped != hi.wrapped && WithinRange(v, lo, hi) ==> r == Limited(v.wrapped, Some(0))
    ensures var lo, hi := WithSameBounds(v, min), WithSameBounds(v, max);
      lo.wrapped != hi.wrapped && !WithinRange(v, lo, hi) ==>
        r == if Abs(MinDifference(v, lo)) < Abs(MinDifference(v, hi)) then Limited(lo.wrapped, Some(1))
          else Limited(hi.wrapped, Some(2))
    ensures var lo, hi := WithSameBounds(v, min), WithSameBounds(v, max);
      lo.wrapped != hi.wrapped ==> InWindowOf(v, r.value) && InClosedArc(r.value, lo, hi)
  {
    var lo, hi := WithSameBounds(v, min), WithSameBounds(v, max);
    LimitValue(v, lo, hi)
  }

  /**
   * The length two arcs share, measured from the start of the first: the first arc covers
   * [0, lengthA), the second starts `start` further on and covers `lengthB`, wrapping round past
   * the end of the circle when it is long enough.
   */
  function ArcOverlap(lengthA: real, start: real, lengthB: real, interval: real): (r: real)
    requires 0.0 <= lengthA < interval && 0.0 <= start < interval && 0.0 <= lengthB < interval
    ensures 0.0 <= r <= lengthA && r <= lengthB
  {
    if start + lengthB < interval then Max(0.0, Min(lengthA, start + lengthB) - start)
    else Max(0.0, lengthA - start) + Min(lengthA, start + lengthB - interval)
  }

  /** An arc overlaps itself completely. */
  lemma ArcOverlapSelf(length: real, interval: real)
    requires 0.0 <= length < interval
    ensures ArcOverlap(length, 0.0, length, interval) == length
  {
  }

  /** An arc that starts after the first one ends and does not reach round to it shares nothing. */
  lemma ArcOverlapDisjoint(lengthA: real, start: real, lengthB: real, interval: real)
    requires 0.0 <= lengthA < interval && 0.0 <= start < interval && 0.0 <= lengthB < interval
    requires lengthA <= start && start + lengthB <= interval
    ensures ArcOverlap(lengthA, start, lengthB, interval) == 0.0
  {
  }

  /** Measured from the second arc instead, the shared length is the same. */
  lemma ArcOverlapSymmetric(lengthA: real, start: real, lengthB: real, interval: real)
    requires 0.0 <= lengthA < interval && 0.0 <= start < interval && 0.0 <= lengthB < interval
    ensures ArcOverlap(lengthA, start, lengthB, interval)
      == ArcOverlap(lengthB, Forward(start, 0.0, interval), lengthA, interval)
  {
  }

  /** The preconditions of `rangeOverlap`: four values whose bounds agree pairwise in a chain. */
  predicate OverlapArgs(lowerA: Wrapped, upperA: Wrapped, lowerB: Wrapped, upperB: Wrapped)
  {
    lowerA.Valid() && upperA.Valid() && lowerB.Valid() && upperB.Valid()
      && BoundsMatch(lowerA, upperA) && BoundsMatch(upperA, lowerB) && BoundsMatch(lowerB, upperB)
  }

  /** All four values have exactly the same bounds. */
  predicate OverlapSameBounds(lowerA: Wrapped, upperA: Wrapped, lowerB: Wrapped, upperB: Wrapped)
  {
    SameBounds(lowerA, upperA) && SameBounds(lowerA, lowerB) && SameBounds(lowerA, upperB)
  }

  /**
   * `rangeOverlap` as written. The three other endpoints are shifted so that the first arc
   * starts at the window's lower bound `origin`; when the second arc wraps round, the two
   * pieces are added with `origin` standing in for zero, which is right only when `origin` is 0.
   */
  function RangeOverlapAsWritten(lowerA: Wrapped, upperA: Wrapped, lowerB: Wrapped, upperB: Wrapped): (r: real)
    requires OverlapArgs(lowerA, upperA, lowerB, upperB)
    ensures OverlapSameBounds(lowerA, upperA, lowerB, upperB) ==>
      var i, o := lowerA.Interval(), lowerA.lowerBound;
      r == OverlapFormulaAsWritten(o, o + Forward(lowerA.wrapped, upperA.wrapped, i),
        o + Forward(lowerA.wrapped, lowerB.wrapped, i), o + Forward(lowerA.wrapped, upperB.wrapped, i))
  {
    var origin := lowerA.lowerBound;
    var upperAShifted, lowerBShifted, upperBShifted := Shifted(lowerA, upperA), Shifted(lowerA, lowerB), Shifted(lowerA, upperB);
    if OverlapSameBounds(lowerA, upperA, lowerB, upperB) then
      AsWrittenOfShifted(lowerA, upperA, lowerB, upperB, upperAShifted, lowerBShifted, upperBShifted);
      OverlapFormulaAsWritten(origin, upperAShifted, lowerBShifted, upperBShifted)
    else OverlapFormulaAsWritten(origin, upperAShifted, lowerBShifted, upperBShifted)
  }

  /** The as-written formula over shifted endpoints, in terms of the forward distances from the first arc's start. */
  lemma AsWrittenOfShifted(lowerA: Wrapped, upperA: Wrapped, lowerB: Wrapped, upperB: Wrapped,
                           ua: real, lb: real, ub: real)
    requires lowerA.Valid() && upperA.Valid() && lowerB.Valid() && upperB.Valid()
    requires OverlapSameBounds(lowerA, upperA, lowerB, upperB)
    requires var i, o := lowerA.Interval(), lowerA.lowerBound;
      ua == o + Forward(lowerA.wrapped, upperA.wrapped, i) && lb == o + Forward(lowerA.wrapped, lowerB.wrapped, i)
        && ub == o + Forward(lowerA.wrapped, upperB.wrapped, i)
    ensures var i, o := lowerA.Interval(), lowerA.lowerBound;
      OverlapFormulaAsWritten(o, ua, lb, ub) == OverlapFormulaAsWritten(o, o + Forward(lowerA.wrapped, upperA.wrapped, i),
        o + Forward(lowerA.wrapped, lowerB.wrapped, i), o + Forward(lowerA.wrapped, upperB.wrapped, i))
  {
  }

  /** The branch formula of `rangeOverlap` as written, over the shifted endpoints. */
  function OverlapFormulaAsWritten(origin: real, upperAShifted: real, lowerBShifted: real, upperBShifted: real): real
  {
    if upperBShifted < lowerBShifted then
      Min(upperBShifted, upperAShifted) + Max(origin, upperAShifted - lowerBShifted)
    else Max(0.0, Min(upperAShifted, upperBShifted) - Max(origin, lowerBShifted))
  }

  /**
   * `rangeOverlap` with the wrapping branch measured from `origin`: the piece from the start
   * of the window up to the nearer upper end, plus the piece from the second arc's start up
   * to the first arc's end, if any. The rest of the model uses this definition.
   */
  function RangeOverlap(lowerA: Wrapped, upperA: Wrapped, lowerB: Wrapped, upperB: Wrapped): (r: real)
    requires OverlapArgs(lowerA, upperA, lowerB, upperB)
    ensures OverlapSameBounds(lowerA, upperA, lowerB, upperB) ==>
      var i := lowerA.Interval();
      r == ArcOverlap(Forward(lowerA.wrapped, upperA.wrapped, i), Forward(lowerA.wrapped, lowerB.wrapped, i),
        Forward(lowerB.wrapped, upperB.wrapped, i), i)
  {
    var origin := lowerA.lowerBound;
    var upperAShifted, lowerBShifted, upperBShifted := Shifted(lowerA, upperA), Shifted(lowerA, lowerB), Shifted(lowerA, upperB);
    if OverlapSameBounds(lowerA, upperA, lowerB, upperB) then
      OverlapOfShifted(lowerA, upperA, lowerB, upperB, upperAShifted, lowerBShifted, upperBShifted);
      OverlapFormula(origin, upperAShifted, lowerBShifted, upperBShifted)
    else OverlapFormula(origin, upperAShifted, lowerBShifted, upperBShifted)
  }

  /** The corrected branch formula over the shifted endpoints. */
  function OverlapFormula(origin: real, upperAShifted: real, lowerBShifted: real, upperBShifted: real): real
  {
    if upperBShifted < lowerBShifted then
      (Min(upperBShifted, upperAShifted) - origin) + Max(0.0, upperAShifted - lowerBShifted)
    else Max(0.0, Min(upperAShifted, upperBShifted) - Max(origin, lowerBShifted))
  }

  /**
   * A point shifted down by the first arc's offset from the window's lower bound, as
   * `(p - offset).getWrappedValue()` computes it with the scalar `operator-`. The shift is
   * wrapped by the corrected `Wrap`, so `RangeOverlapAsWritten` is the source as written except
   * at the edge of `wrapValue` that `WrapAsWrittenEdge` describes.
   */
  function Shifted(lowerA: Wrapped, p: Wrapped): (r: real)
    requires lowerA.Valid() && p.Valid()
    ensures SameBounds(lowerA, p) ==>
      r == lowerA.lowerBound + Forward(lowerA.wrapped, p.wrapped, lowerA.Interval())
  {
    if SameBounds(lowerA, p) then
      ShiftToForward(lowerA, p);
      SubScalar(p, lowerA.wrapped - lowerA.lowerBound).wrapped
    else SubScalar(p, lowerA.wrapped - lowerA.lowerBound).wrapped
  }

  /** Shifting a point down by the first arc's offset leaves it at its forward distance from `origin`. */
  lemma ShiftToForward(lowerA: Wrapped, p: Wrapped)
    requires lowerA.Valid() && p.Valid() && SameBounds(lowerA, p)
    ensures SubScalar(p, lowerA.wrapped - lowerA.lowerBound).wrapped
      == lowerA.lowerBound + Forward(lowerA.wrapped, p.wrapped, lowerA.Interval())
  {
    var i := lowerA.Interval();
    var offset := lowerA.wrapped - lowerA.lowerBound;
    var d := Forward(lowerA.wrapped, p.wrapped, i);
    var k: int := if d == p.wrapped - lowerA.wrapped then -p.revolutions else 1 - p.revolutions;
    RevolutionsAdd(i, p.revolutions, k);
    assert p.Unwrapped() - offset + i * (k as real) == lowerA.lowerBound + d;
    SubScalarLands(p, offset, lowerA.lowerBound + d, k);
  }

  /** The forward distance to a third point goes through the second, less a turn if it passes one. */
  lemma ForwardChain(a: real, b: real, c: real, lo: real, i: real)
    requires i > 0.0 && lo <= a < lo + i && lo <= b < lo + i && lo <= c < lo + i
    ensures var s := Forward(a, b, i) + Forward(b, c, i);
      Forward(a, c, i) == if s < i then s else s - i
  {
  }

  /** With the shifted endpoints at their forward distances, the formula is `ArcOverlap`. */
  lemma OverlapOfShifted(lowerA: Wrapped, upperA: Wrapped, lowerB: Wrapped, upperB: Wrapped,
                         ua: real, lb: real, ub: real)
    requires lowerA.Valid() && upperA.Valid() && lowerB.Valid() && upperB.Valid()
    requires OverlapSameBounds(lowerA, upperA, lowerB, upperB)
    requires var i, o := lowerA.Interval(), lowerA.lowerBound;
      ua == o + Forward(lowerA.wrapped, upperA.wrapped, i) && lb == o + Forward(lowerA.wrapped, lowerB.wrapped, i)
        && ub == o + Forward(lowerA.wrapped, upperB.wrapped, i)
    ensures var i := lowerA.Interval();
      OverlapFormula(lowerA.lowerBound, ua, lb, ub)
        == ArcOverlap(Forward(lowerA.wrapped, upperA.wrapped, i), Forward(lowerA.wrapped, lowerB.wrapped, i),
             Forward(lowerB.wrapped, upperB.wrapped, i), i)
  {
    ForwardChain(lowerA.wrapped, lowerB.wrapped, upperB.wrapped, lowerA.lowerBound, lowerA.Interval());
  }

  /** The arc from `lower` to `upper` overlaps itself by its whole length. */
  lemma RangeOverlapSelf(lower: Wrapped, upper: Wrapped)
    requires lower.Valid() && upper.Valid() && SameBounds(lower, upper)
    ensures RangeOverlap(lower, upper, lower, upper) == Forward(lower.wrapped, upper.wrapped, lower.Interval())
  {
    ArcOverlapSelf(Forward(lower.wrapped, upper.wrapped, lower.Interval()), lower.Interval());
  }

  /** The shared length is never negative and never longer than either arc. */
  lemma RangeOverlapBounds(lowerA: Wrapped, upperA: Wrapped, lowerB: Wrapped, upperB: Wrapped)
    requires OverlapArgs(lowerA, upperA, lowerB, upperB) && OverlapSameBounds(lowerA, upperA, lowerB, upperB)
    ensures var r, i := RangeOverlap(lowerA, upperA, lowerB, upperB), lowerA.Interval();
      0.0 <= r <= Forward(lowerA.wrapped, upperA.wrapped, i) && r <= Forward(lowerB.wrapped, upperB.wrapped, i)
  {
  }

  /** Arcs that do not meet share nothing. */
  lemma RangeOverlapDisjoint(lowerA: Wrapped, upperA: Wrapped, lowerB: Wrapped, upperB: Wrapped)
    requires OverlapArgs(lowerA, upperA, lowerB, upperB) && OverlapSameBounds(lowerA, upperA, lowerB, upperB)
    requires var i := lowerA.Interval();
      Forward(lowerA.wrapped, upperA.wrapped, i) <= Forward(lowerA.wrapped, lowerB.wrapped, i)
        && Forward(lowerA.wrapped, lowerB.wrapped, i) + Forward(lowerB.wrapped, upperB.wrapped, i) <= i
    ensures RangeOverlap(lowerA, upperA, lowerB, upperB) == 0.0
  {
    var i := lowerA.Interval();
    ArcOverlapDisjoint(Forward(lowerA.wrapped, upperA.wrapped, i), Forward(lowerA.wrapped, lowerB.wrapped, i),
      Forward(lowerB.wrapped, upperB.wrapped, i), i);
  }

  /** The overlap of A with B is the overlap of B with A. */
  lemma RangeOverlapSymmetric(lowerA: Wrapped, upperA: Wrapped, lowerB: Wrapped, upperB: Wrapped)
    requires OverlapArgs(lowerA, upperA, lowerB, upperB) && OverlapSameBounds(lowerA, upperA, lowerB, upperB)
    ensures OverlapArgs(lowerB, upperB, lowerA, upperA)
    ensures RangeOverlap(lowerA, upperA, lowerB, upperB) == RangeOverlap(lowerB, upperB, lowerA, upperA)
  {
    assert OverlapArgs(lowerB, upperB, lowerA, upperA) && OverlapSameBounds(lowerB, upperB, lowerA, upperA);
    var ab, ba := RangeOverlap(lowerA, upperA, lowerB, upperB), RangeOverlap(lowerB, upperB, lowerA, upperA);
    assert lowerB.Interval() == lowerA.Interval();
    SymmetricArcs(lowerA, upperA, lowerB, upperB, ab, ba);
  }

  /** The arithmetic of `RangeOverlapSymmetric`, over the reference values of the two overlaps. */
  lemma SymmetricArcs(lowerA: Wrapped, upperA: Wrapped, lowerB: Wrapped, upperB: Wrapped, ab: real, ba: real)
    requires lowerA.Valid() && upperA.Valid() && lowerB.Valid() && upperB.Valid()
    requires OverlapSameBounds(lowerA, upperA, lowerB, upperB)
    requires var i := lowerA.Interval();
      ab == ArcOverlap(Forward(lowerA.wrapped, upperA.wrapped, i), Forward(lowerA.wrapped, lowerB.wrapped, i),
        Forward(lowerB.wrapped, upperB.wrapped, i), i)
        && ba == ArcOverlap(Forward(lowerB.wrapped, upperB.wrapped, i), Forward(lowerB.wrapped, lowerA.wrapped, i),
          Forward(lowerA.wrapped, upperA.wrapped, i), i)
    ensures ab == ba
  {
    var i := lowerA.Interval();
    var s := Forward(lowerA.wrapped, lowerB.wrapped, i);
    assert Forward(lowerB.wrapped, lowerA.wrapped, i) == Forward(s, 0.0, i);
    ArcOverlapSymmetric(Forward(lowerA.wrapped, upperA.wrapped, i), s, Forward(lowerB.wrapped, upperB.wrapped, i), i);
  }

  /** With the window starting at 0 the as-written function is the corrected one. */
  lemma RangeOverlapAsWrittenAtZero(lowerA: Wrapped, upperA: Wrapped, lowerB: Wrapped, upperB: Wrapped)
    requires OverlapArgs(lowerA, upperA, lowerB, upperB) && lowerA.lowerBound == 0.0
    ensures RangeOverlapAsWritten(lowerA, upperA, lowerB, upperB) == RangeOverlap(lowerA, upperA, lowerB, upperB)
  {
  }

  /**
   * On [-10, 10), the arc from -10 to 0 and the arc from 5 round to -5 share the 5 units from
   * -10 to -5; the as-written function gives -10.
   */
  lemma RangeOverlapAsWrittenCounterexample(lowerA: Wrapped, upperA: Wrapped, lowerB: Wrapped, upperB: Wrapped)
    requires lowerA.Valid() && upperA.Valid() && lowerB.Valid() && upperB.Valid()
    requires lowerA.lowerBound == -10.0 && lowerA.upperBound == 10.0 && OverlapSameBounds(lowerA, upperA, lowerB, upperB)
    requires lowerA.wrapped == -10.0 && upperA.wrapped == 0.0 && lowerB.wrapped == 5.0 && upperB.wrapped == -5.0
    ensures OverlapArgs(lowerA, upperA, lowerB, upperB)
    ensures RangeOverlapAsWritten(lowerA, upperA, lowerB, upperB) == -10.0
    ensures RangeOverlap(lowerA, upperA, lowerB, upperB) == 5.0
  {
    assert OverlapArgs(lowerA, upperA, lowerB, upperB);
    AsWrittenOnExample(lowerA, upperA, lowerB, upperB);
    CorrectedOnExample(lowerA, upperA, lowerB, upperB);
  }

  /** The as-written function on the counterexample's points. */
  lemma AsWrittenOnExample(lowerA: Wrapped, upperA: Wrapped, lowerB: Wrapped, upperB: Wrapped)
    requires OverlapArgs(lowerA, upperA, lowerB, upperB)
    requires lowerA.lowerBound == -10.0 && lowerA.upperBound == 10.0 && OverlapSameBounds(lowerA, upperA, lowerB, upperB)
    requires lowerA.wrapped == -10.0 && upperA.wrapped == 0.0 && lowerB.wrapped == 5.0 && upperB.wrapped == -5.0
    ensures RangeOverlapAsWritten(lowerA, upperA, lowerB, upperB) == -10.0
  {
    AsWrittenExample(-10.0, RangeOverlapAsWritten(lowerA, upperA, lowerB, upperB));
  }

  /** The corrected function on the counterexample's points. */
  lemma CorrectedOnExample(lowerA: Wrapped, upperA: Wrapped, lowerB: Wrapped, upperB: Wrapped)
    requires OverlapArgs(lowerA, upperA, lowerB, upperB)
    requires lowerA.lowerBound == -10.0 && lowerA.upperBound == 10.0 && OverlapSameBounds(lowerA, upperA, lowerB, upperB)
    requires lowerA.wrapped == -10.0 && upperA.wrapped == 0.0 && lowerB.wrapped == 5.0 && upperB.wrapped == -5.0
    ensures RangeOverlap(lowerA, upperA, lowerB, upperB) == 5.0
  {
    CorrectedExample(RangeOverlap(lowerA, upperA, lowerB, upperB));
  }

  /** The as-written formula on the counterexample's endpoints, with `origin` the lower bound -10. */
  lemma AsWrittenExample(origin: real, asWritten: real)
    requires origin == -10.0
    requires asWritten == OverlapFormulaAsWritten(origin, origin + Forward(-10.0, 0.0, 20.0),
      origin + Forward(-10.0, 5.0, 20.0), origin + Forward(-10.0, -5.0, 20.0))
    ensures asWritten == -10.0
  {
  }

  /** The corrected reference overlap on the counterexample's arcs. */
  lemma CorrectedExample(corrected: real)
    requires corrected == ArcOverlap(Forward(-10.0, 0.0, 20.0), Forward(-10.0, 5.0, 20.0), Forward(5.0, -5.0, 20.0), 20.0)
    ensures corrected == 5.0
  {
  }
}
