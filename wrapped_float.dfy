/**
 * A float that wraps around a half-open window [lowerBound, upperBound), such as an angle,
 * together with the number of whole revolutions it has made. The datatype `Wrapped` is the
 * value a `WrappedFloat` object holds; the object's operators that return a new value are
 * functions on it, and the operators that change the object in place are the methods of the
 * class `WrappedFloat` at the end of this module.
 */
module WrappedFloats {
  import opened RealArith

  /** Largest difference between two bounds that the bound assertions accept. */
  const EPSILON: real := 0.00000001

  /** `M_PI` and `M_TWOPI`. */
  const PI: real := 3.14159265358979323846
  const TWO_PI: real := 6.28318530717958647692

  datatype Wrapped = Wrapped(wrapped: real, revolutions: int, lowerBound: real, upperBound: real)
  {
    /** The constructor's assertion: the window is not empty. */
    predicate HasBounds()
    {
      lowerBound < upperBound
    }

    /** What every object satisfies: its wrapped value lies in its window. */
    predicate Valid()
    {
      HasBounds() && lowerBound <= wrapped < upperBound
    }

    function Interval(): real
    {
      upperBound - lowerBound
    }

    /** `getUnwrappedValue`: the wrapped value plus the whole revolutions made. */
    function Unwrapped(): real
    {
      wrapped + Interval() * (revolutions as real)
    }
  }

  /** `assertBoundsEqual(a, b)` passes: both bounds agree up to `EPSILON`. */
  predicate BoundsMatch(a: Wrapped, b: Wrapped)
  {
    CompareFloatClose(a.lowerBound, b.lowerBound, EPSILON)
      && CompareFloatClose(a.upperBound, b.upperBound, EPSILON)
  }

  predicate SameBounds(a: Wrapped, b: Wrapped)
  {
    a.lowerBound == b.lowerBound && a.upperBound == b.upperBound
  }

  /** The lower end of the window in units of revolutions, `floor((old - lower) / interval)`. */
  function RevolutionStep(w: Wrapped): int
    requires w.HasBounds()
  {
    FloorDiv(w.wrapped - w.lowerBound, w.Interval())
  }

  /**
   * The wrapped value `wrapValue` computes as written: a value below the window is brought
   * up with `upper + fmodf(value - upper, interval)`, one at or above it is brought down with
   * `lower + fmodf(value - lower, interval)`.
   */
  function ResidueAsWritten(w: Wrapped): real
    requires w.HasBounds()
  {
    var v := w.wrapped;
    if v < w.lowerBound then w.upperBound + Fmod(v - w.upperBound, w.Interval())
    else if v >= w.upperBound then w.lowerBound + Fmod(v - w.lowerBound, w.Interval())
    else v
  }

  /**
   * The same with its edge case corrected: a value below the window that is a whole number of
   * intervals away from the upper bound goes to the lower bound, not to the excluded upper one.
   */
  function Residue(w: Wrapped): real
    requires w.HasBounds()
  {
    var v := w.wrapped;
    if v < w.lowerBound then
      (var m := Fmod(v - w.upperBound, w.Interval()); if m == 0.0 then w.lowerBound else w.upperBound + m)
    else if v >= w.upperBound then w.lowerBound + Fmod(v - w.lowerBound, w.Interval())
    else v
  }

  /** `wrapValue` as written; the revolutions grow by `floor((value - lower) / interval)`. */
  function WrapAsWritten(w: Wrapped): Wrapped
    requires w.HasBounds()
  {
    w.(wrapped := ResidueAsWritten(w), revolutions := w.revolutions + RevolutionStep(w))
  }

  /**
   * `wrapValue` with the edge case corrected. The new value lies in the window and the
   * unwrapped value is kept. The rest of the model uses this definition.
   */
  function Wrap(w: Wrapped): (r: Wrapped)
    requires w.HasBounds()
    ensures r.Valid() && SameBounds(r, w)
    ensures r.Unwrapped() == w.Unwrapped()
    ensures w.Valid() ==> r == w
  {
    WrapPreservesValue(w);
    w.(wrapped := Residue(w), revolutions := w.revolutions + RevolutionStep(w))
  }

  /** `I * (a + b) == I * a + I * b` for whole numbers of revolutions. */
  lemma RevolutionsAdd(i: real, a: int, b: int)
    ensures i * ((a + b) as real) == i * (a as real) + i * (b as real)
  {
  }

  /** Taking `k` whole intervals off a value and adding `k` revolutions keeps the unwrapped value. */
  lemma Rebalance(w: Wrapped, wrapped: real, k: int)
    requires wrapped + (k as real) * w.Interval() == w.wrapped
    ensures w.(wrapped := wrapped, revolutions := w.revolutions + k).Unwrapped() == w.Unwrapped()
  {
    RevolutionsAdd(w.Interval(), w.revolutions, k);
  }

  /** Below the window, `v - upper == n * I + m` with `-I < m <= 0`. */
  lemma BelowWindow(v: real, lo: real, up: real, m: real, n: int)
    requires lo < up && v < lo && v - up == (n as real) * (up - lo) + m && lo - up < m <= 0.0
    ensures m == 0.0 ==> FloorDiv(v - lo, up - lo) == n + 1 && lo + ((n + 1) as real) * (up - lo) == v
    ensures m != 0.0 ==> FloorDiv(v - lo, up - lo) == n && up + m + (n as real) * (up - lo) == v
  {
    var i := up - lo;
    if m == 0.0 {
      AddMul(n as real, 1.0, i);
      FloorDivUnique(v - lo, i, n + 1);
    } else {
      FloorDivUnique(v - lo, i, n);
    }
  }

  /** At or above the window, `v - lower == n * I + m` with `0 <= m < I`. */
  lemma AboveWindow(v: real, lo: real, up: real, m: real, n: int)
    requires lo < up && v - lo == (n as real) * (up - lo) + m && 0.0 <= m < up - lo
    ensures FloorDiv(v - lo, up - lo) == n && lo + m + (n as real) * (up - lo) == v
  {
    FloorDivUnique(v - lo, up - lo, n);
  }

  /** The heart of `wrapValue`: the new value is in the window and differs by whole intervals. */
  lemma WrapPreservesValue(w: Wrapped)
    requires w.HasBounds()
    ensures w.lowerBound <= Residue(w) < w.upperBound
    ensures w.(wrapped := Residue(w), revolutions := w.revolutions + RevolutionStep(w)).Unwrapped() == w.Unwrapped()
    ensures w.Valid() ==> Residue(w) == w.wrapped && RevolutionStep(w) == 0
  {
    if w.wrapped < w.lowerBound {
      WrapFromBelow(w);
    } else if w.wrapped >= w.upperBound {
      WrapFromAbove(w);
    } else {
      AboveWindow(w.wrapped, w.lowerBound, w.upperBound, w.wrapped - w.lowerBound, 0);
      Rebalance(w, Residue(w), 0);
    }
  }

  /** `WrapPreservesValue` for a value below the window. */
  lemma WrapFromBelow(w: Wrapped)
    requires w.HasBounds() && w.wrapped < w.lowerBound
    ensures w.lowerBound <= Residue(w) < w.upperBound
    ensures w.(wrapped := Residue(w), revolutions := w.revolutions + RevolutionStep(w)).Unwrapped() == w.Unwrapped()
  {
    var v, lo, up, i := w.wrapped, w.lowerBound, w.upperBound, w.Interval();
    var m := Fmod(v - up, i);
    var n := Trunc((v - up) / i);
    BelowWindow(v, lo, up, m, n);
    if m == 0.0 {
      Rebalance(w, Residue(w), n + 1);
    } else {
      Rebalance(w, Residue(w), n);
    }
  }

  /** `WrapPreservesValue` for a value at or above the window. */
  lemma WrapFromAbove(w: Wrapped)
    requires w.HasBounds() && w.wrapped >= w.upperBound
    ensures w.lowerBound <= Residue(w) < w.upperBound
    ensures w.(wrapped := Residue(w), revolutions := w.revolutions + RevolutionStep(w)).Unwrapped() == w.Unwrapped()
  {
    var v, lo, up, i := w.wrapped, w.lowerBound, w.upperBound, w.Interval();
    var m := Fmod(v - lo, i);
    var n := Trunc((v - lo) / i);
    AboveWindow(v, lo, up, m, n);
    Rebalance(w, Residue(w), n);
  }

  /**
   * The as-written `wrapValue` differs from the corrected one exactly at the edge case, where
   * it leaves the value ON the excluded upper bound and one interval too high overall.
   */
  lemma WrapAsWrittenEdge(w: Wrapped)
    requires w.HasBounds()
    ensures WrapAsWritten(w) != Wrap(w) <==>
      (w.wrapped < w.lowerBound && Fmod(w.wrapped - w.upperBound, w.Interval()) == 0.0)
    ensures WrapAsWritten(w) != Wrap(w) ==>
      WrapAsWritten(w).wrapped == w.upperBound
        && WrapAsWritten(w).Unwrapped() == w.Unwrapped() + w.Interval()
  {
    var r := Wrap(w);
    if w.wrapped < w.lowerBound && Fmod(w.wrapped - w.upperBound, w.Interval()) == 0.0 {
      assert r.wrapped == w.lowerBound;
      assert WrapAsWritten(w).wrapped == w.upperBound;
      assert WrapAsWritten(w).revolutions == r.revolutions;
      AddMul(r.revolutions as real, 1.0, w.Interval());
      assert WrapAsWritten(w).Unwrapped() == r.Unwrapped() + w.Interval();
    }
  }

  /** A concrete case: -10 in [0, 10) wraps to 10 and reads back as 0. */
  lemma WrapAsWrittenCounterexample()
    ensures WrapAsWritten(Wrapped(-10.0, 0, 0.0, 10.0)) == Wrapped(10.0, -1, 0.0, 10.0)
    ensures Wrap(Wrapped(-10.0, 0, 0.0, 10.0)) == Wrapped(0.0, -1, 0.0, 10.0)
    ensures Wrapped(-10.0, 0, 0.0, 10.0).Unwrapped() == -10.0
    ensures Wrapped(10.0, -1, 0.0, 10.0).Unwrapped() == 0.0
  {
    ExampleSteps();
    WrapAsWrittenOnExample();
    WrapOnExample();
    ExampleReadings();
  }

  /** What the counterexample's input and as-written result read back as. */
  lemma ExampleReadings()
    ensures Wrapped(-10.0, 0, 0.0, 10.0).Unwrapped() == -10.0
    ensures Wrapped(10.0, -1, 0.0, 10.0).Unwrapped() == 0.0
  {
  }

  /** The remainder and the revolution step of the counterexample. */
  lemma ExampleSteps()
    ensures Fmod(-20.0, 10.0) == 0.0
    ensures RevolutionStep(Wrapped(-10.0, 0, 0.0, 10.0)) == -1
  {
    assert (-20.0) / 10.0 == -2.0;
    assert Trunc(-2.0) == -2;
    FloorDivUnique(-10.0, 10.0, -1);
  }

  /** The as-written function on the counterexample. */
  lemma WrapAsWrittenOnExample()
    requires Fmod(-20.0, 10.0) == 0.0 && RevolutionStep(Wrapped(-10.0, 0, 0.0, 10.0)) == -1
    ensures WrapAsWritten(Wrapped(-10.0, 0, 0.0, 10.0)) == Wrapped(10.0, -1, 0.0, 10.0)
  {
  }

  /** The corrected function on the counterexample. */
  lemma WrapOnExample()
    requires Fmod(-20.0, 10.0) == 0.0 && RevolutionStep(Wrapped(-10.0, 0, 0.0, 10.0)) == -1
    ensures Wrap(Wrapped(-10.0, 0, 0.0, 10.0)) == Wrapped(0.0, -1, 0.0, 10.0)
  {
  }

  /** The constructor `WrappedFloat(value, lowerBound, upperBound)`. */
  function Make(value: real, lowerBound: real, upperBound: real): (r: Wrapped)
    requires lowerBound < upperBound
    ensures r.Valid() && r.lowerBound == lowerBound && r.upperBound == upperBound
    ensures r.Unwrapped() == value
    ensures lowerBound <= value < upperBound ==> r.wrapped == value && r.revolutions == 0
  {
    Wrap(Wrapped(value, 0, lowerBound, upperBound))
  }

  /** `withSameBounds(value)`. */
  function WithSameBounds(w: Wrapped, value: real): (r: Wrapped)
    requires w.HasBounds()
    ensures r.Valid() && SameBounds(r, w) && r.Unwrapped() == value
  {
    Make(value, w.lowerBound, w.upperBound)
  }

  /** `Angle(value)`: a value in radians wrapped to [0, 2 pi). */
  function Angle(value: real): (r: Wrapped)
    ensures r.Valid() && r.lowerBound == 0.0 && r.upperBound == TWO_PI && r.Unwrapped() == value
  {
    Make(value, 0.0, TWO_PI)
  }

  /** `Angle::fromDegrees`, taking `modm::toRadian` as multiplication by pi / 180. */
  function AngleFromDegrees(degrees: real): (r: Wrapped)
    ensures r.Valid() && r.lowerBound == 0.0 && r.upperBound == TWO_PI
    ensures r.Unwrapped() == degrees * PI / 180.0
  {
    Angle(degrees * PI / 180.0)
  }

  /** `operator==`: only the wrapped values are compared, revolutions are ignored. */
  predicate Equal(a: Wrapped, b: Wrapped)
    requires BoundsMatch(a, b)
  {
    a.wrapped == b.wrapped
  }

  /** `getNormalized`: the same wrapped value with the revolutions cleared. */
  function Normalized(w: Wrapped): (r: Wrapped)
    ensures SameBounds(r, w) && r.revolutions == 0 && r.Unwrapped() == w.wrapped
    ensures BoundsMatch(w, r) ==> Equal(w, r)
  {
    w.(revolutions := 0)
  }

  /** Replacing the wrapped value by `v` moves the unwrapped value by as much. */
  lemma ReplacedUnwrapped(a: Wrapped, v: real)
    ensures a.(wrapped := v).Unwrapped() == a.Unwrapped() + (v - a.wrapped)
  {
  }

  /** Carrying `b`'s revolutions over to a value `s` that holds `a`'s unwrapped value plus `b`'s wrapped one. */
  lemma CarryAdded(s: Wrapped, a: Wrapped, b: Wrapped)
    requires SameBounds(s, a) && s.Unwrapped() == a.Unwrapped() + b.wrapped
    ensures SameBounds(a, b) ==> s.(revolutions := s.revolutions + b.revolutions).Unwrapped() == a.Unwrapped() + b.Unwrapped()
  {
    RevolutionsAdd(s.Interval(), s.revolutions, b.revolutions);
  }

  /** The same for a value `s` that holds `a`'s unwrapped value minus `b`'s wrapped one. */
  lemma CarrySubtracted(s: Wrapped, a: Wrapped, b: Wrapped)
    requires SameBounds(s, a) && s.Unwrapped() == a.Unwrapped() - b.wrapped
    ensures SameBounds(a, b) ==> s.(revolutions := s.revolutions - b.revolutions).Unwrapped() == a.Unwrapped() - b.Unwrapped()
  {
    RevolutionsAdd(s.Interval(), s.revolutions - b.revolutions, b.revolutions);
  }

  /** `operator+=` on a WrappedFloat, and `operator+`, which applies it to a copy. */
  function Add(a: Wrapped, b: Wrapped): (r: Wrapped)
    requires a.Valid() && b.Valid() && BoundsMatch(a, b)
    ensures r.Valid() && SameBounds(r, a)
    ensures SameBounds(a, b) ==> r.Unwrapped() == a.Unwrapped() + b.Unwrapped()
  {
    var s := Wrap(a.(wrapped := a.wrapped + b.wrapped));
    ReplacedUnwrapped(a, a.wrapped + b.wrapped);
    CarryAdded(s, a, b);
    s.(revolutions := s.revolutions + b.revolutions)
  }

  /** `operator-=` on a WrappedFloat, and `operator-`, which applies it to a copy. */
  function Sub(a: Wrapped, b: Wrapped): (r: Wrapped)
    requires a.Valid() && b.Valid() && BoundsMatch(a, b)
    ensures r.Valid() && SameBounds(r, a)
    ensures SameBounds(a, b) ==> r.Unwrapped() == a.Unwrapped() - b.Unwrapped()
  {
    var s := Wrap(a.(wrapped := a.wrapped - b.wrapped));
    ReplacedUnwrapped(a, a.wrapped - b.wrapped);
    CarrySubtracted(s, a, b);
    s.(revolutions := s.revolutions - b.revolutions)
  }

  /**
   * `a += a` as written. The operand is the object itself, so the revolutions added after
   * `wrapValue` are the ones `wrapValue` has just updated: the carry is counted twice. The
   * sum is wrapped by the corrected `Wrap`, so at the edge `WrapAsWrittenEdge` describes this
   * follows `Wrap` rather than the source's wrapping.
   */
  function AddSelfAsWritten(a: Wrapped): (r: Wrapped)
    requires a.Valid()
    ensures r.Valid() && SameBounds(r, a) && r.wrapped == Add(a, a).wrapped
    ensures r.revolutions == Add(a, a).revolutions + (Add(a, a).revolutions - 2 * a.revolutions)
  {
    var s := Wrap(a.(wrapped := a.wrapped + a.wrapped));
    s.(revolutions := s.revolutions + s.revolutions)
  }

  /**
   * `a -= a` as written: the revolutions `wrapValue` has just updated are subtracted from
   * themselves. The difference is wrapped by the corrected `Wrap`: when it lies exactly a whole
   * number of intervals below the window (0 on [10, 20), say) the source stores the upper bound
   * where this stores the lower bound.
   */
  function SubSelfAsWritten(a: Wrapped): (r: Wrapped)
    requires a.Valid()
    ensures r.Valid() && SameBounds(r, a) && r.wrapped == Sub(a, a).wrapped
    ensures r.revolutions == 0 && r.Unwrapped() == r.wrapped
  {
    var s := Wrap(a.(wrapped := a.wrapped - a.wrapped));
    s.(revolutions := s.revolutions - s.revolutions)
  }

  /** `c` revolutions more than a value that reads back as `u` add `c` intervals to the reading. */
  lemma ExtraRevolutions(r: Wrapped, t: Wrapped, c: int, u: real)
    requires SameBounds(r, t) && r.wrapped == t.wrapped && r.revolutions == t.revolutions + c
    requires t.Unwrapped() == u
    ensures r.Unwrapped() == u + t.Interval() * (c as real)
  {
    RevolutionsAdd(t.Interval(), t.revolutions, c);
  }

  /** A value of the window [0, 10) that reads back as `u` has made `k` revolutions when `u` is in the `k`-th turn. */
  lemma RevolutionsOnTen(w: Wrapped, u: real, k: int)
    requires w.Valid() && w.lowerBound == 0.0 && w.upperBound == 10.0 && w.Unwrapped() == u
    requires 10.0 * (k as real) <= u < 10.0 * (k as real) + 10.0
    ensures w.revolutions == k
  {
  }

  /** On [0, 10), `a += a` with `a` at 6 reads back as 22, where adding a copy gives 12. */
  lemma AddSelfAsWrittenCounterexample(a: Wrapped)
    requires a.wrapped == 6.0 && a.revolutions == 0 && a.lowerBound == 0.0 && a.upperBound == 10.0
    ensures Add(a, a).Unwrapped() == 12.0
    ensures AddSelfAsWritten(a).Unwrapped() == 22.0
  {
    var t := Add(a, a);
    RevolutionsOnTen(t, 12.0, 1);
    ExtraRevolutions(AddSelfAsWritten(a), t, 1, 12.0);
  }

  /** On [5, 15), `a -= a` with `a` at 6 reads back as 10, where subtracting a copy gives 0. */
  lemma SubSelfAsWrittenCounterexample(a: Wrapped)
    requires a.wrapped == 6.0 && a.revolutions == 0 && a.lowerBound == 5.0 && a.upperBound == 15.0
    ensures Sub(a, a).Unwrapped() == 0.0
    ensures SubSelfAsWritten(a).Unwrapped() == 10.0
  {
    var t := Sub(a, a);
    assert t.wrapped + 10.0 * (t.revolutions as real) == 0.0 && 5.0 <= t.wrapped < 15.0;
    assert SubSelfAsWritten(a).wrapped == t.wrapped;
  }

  /** `operator+(float)` and `operator+=(float)`: the scalar is wrapped first. */
  function AddScalar(a: Wrapped, value: real): (r: Wrapped)
    requires a.Valid()
    ensures r.Valid() && SameBounds(r, a) && r.Unwrapped() == a.Unwrapped() + value
  {
    Add(a, WithSameBounds(a, value))
  }

  /** `operator-(float)` and `operator-=(float)`. */
  function SubScalar(a: Wrapped, value: real): (r: Wrapped)
    requires a.Valid()
    ensures r.Valid() && SameBounds(r, a) && r.Unwrapped() == a.Unwrapped() - value
  {
    Sub(a, WithSameBounds(a, value))
  }

  /**
   * `minDifference`: the signed shortest way round the circle from `a` to `b`. It is the
   * direct difference or that difference taken the other way round, so it differs from
   * `b - a` by at most one interval, and it is never longer than half a turn.
   */
  function MinDifference(a: Wrapped, b: Wrapped): (r: real)
    requires a.Valid() && b.Valid() && BoundsMatch(a, b)
    ensures var d := b.wrapped - a.wrapped;
      r == d || r == d + a.Interval() || r == d - a.Interval()
    ensures SameBounds(a, b) ==> 2.0 * Abs(r) <= a.Interval()
    ensures SameBounds(a, b) ==> Abs(r) <= Abs(b.wrapped - a.wrapped)
  {
    var interval := a.upperBound - a.lowerBound;
    var between := b.wrapped - a.wrapped;
    var around := between + (if between < 0.0 then interval else -interval);
    if Abs(between) < Abs(around) then between else around
  }

  /** `minDifference(float)`: the scalar is wrapped to the same bounds first. */
  function MinDifferenceTo(a: Wrapped, value: real): (r: real)
    requires a.Valid()
    ensures 2.0 * Abs(r) <= a.Interval()
    ensures var d := WithSameBounds(a, value).wrapped - a.wrapped;
      r == d || r == d + a.Interval() || r == d - a.Interval()
  {
    MinDifference(a, WithSameBounds(a, value))
  }

  /** On [0, 10), the shortest way from 9 to 1 is 2 forward over the bound, and back it is -2. */
  lemma MinDifferenceExample()
    ensures MinDifference(Wrapped(9.0, 0, 0.0, 10.0), Wrapped(1.0, 0, 0.0, 10.0)) == 2.0
    ensures MinDifference(Wrapped(1.0, 0, 0.0, 10.0), Wrapped(9.0, 0, 0.0, 10.0)) == -2.0
  {
  }

  /** The shortest way from `b` to `a` is the shortest way from `a` to `b` reversed. */
  lemma MinDifferenceAntisymmetric(a: Wrapped, b: Wrapped)
    requires a.Valid() && b.Valid() && SameBounds(a, b)
    ensures MinDifference(b, a) == -MinDifference(a, b)
  {
  }

  /** The shortest difference is zero exactly when the two compare equal. */
  lemma MinDifferenceZeroIffEqual(a: Wrapped, b: Wrapped)
    requires a.Valid() && b.Valid() && SameBounds(a, b)
    ensures MinDifference(a, b) == 0.0 <==> Equal(a, b)
  {
  }

  /**
   * A value in its window is determined by its unwrapped value: if that is `y + k` intervals
   * with `y` in the window, the wrapped value is `y` and the revolutions are `k`.
   */
  lemma CongruentInWindow(x: Wrapped, y: real, k: int)
    requires x.Valid() && x.lowerBound <= y < x.upperBound
    requires x.Unwrapped() == y + x.Interval() * (k as real)
    ensures x.wrapped == y && x.revolutions == k
  {
    RevolutionsAdd(x.Interval(), x.revolutions, k - x.revolutions);
    SameResidue(x.wrapped, y, x.lowerBound, x.Interval(), k - x.revolutions);
  }

  /*
   * Examples from the class documentation for the bounds 0 to 10: `10 + 1 == 1`,
   * `0 - 1 == 9` and `0 == 10`. The bounds are passed as parameters, or the value is any
   * value of that window with the unwrapped value named.
   */

  lemma TenPlusOneExample(lower: real, upper: real)
    requires lower == 0.0 && upper == 10.0
    ensures AddScalar(Make(upper, lower, upper), 1.0).wrapped == 1.0
  {
    AddScalarLands(Make(upper, lower, upper), 1.0, 1.0, 1);
  }

  lemma ZeroMinusOneExample(zero: Wrapped)
    requires zero.Valid() && zero.lowerBound == 0.0 && zero.upperBound == 10.0 && zero.Unwrapped() == 0.0
    ensures SubScalar(zero, 1.0).wrapped == 9.0
  {
    SubScalarLands(zero, 1.0, 9.0, 1);
  }

  /** Adding `delta` lands on the point of the window that is a whole number of intervals from the sum. */
  lemma AddScalarLands(a: Wrapped, delta: real, y: real, k: int)
    requires a.Valid() && a.lowerBound <= y < a.upperBound
    requires a.Unwrapped() + delta == y + a.Interval() * (k as real)
    ensures AddScalar(a, delta).wrapped == y
  {
    Lands(a, AddScalar(a, delta), delta, y, k);
  }

  /** Subtracting `delta` lands likewise, here on the point `k` intervals above the difference. */
  lemma SubScalarLands(a: Wrapped, delta: real, y: real, k: int)
    requires a.Valid() && a.lowerBound <= y < a.upperBound
    requires a.Unwrapped() - delta + a.Interval() * (k as real) == y
    ensures SubScalar(a, delta).wrapped == y
  {
    LandsBelow(a, SubScalar(a, delta), delta, y, k);
  }

  /** The arithmetic of `SubScalarLands`, over the contract of `SubScalar`. */
  lemma LandsBelow(a: Wrapped, r: Wrapped, delta: real, y: real, k: int)
    requires r.Valid() && SameBounds(r, a) && r.lowerBound <= y < r.upperBound
    requires r.Unwrapped() == a.Unwrapped() - delta
    requires a.Unwrapped() - delta + a.Interval() * (k as real) == y
    ensures r.wrapped == y
  {
    NegatedMultiple(a.Unwrapped(), delta, a.Interval(), k, y);
    CongruentInWindow(r, y, -k);
  }

  /** The arithmetic of the two lemmas above, over the contracts of the operations. */
  lemma Lands(a: Wrapped, r: Wrapped, delta: real, y: real, k: int)
    requires r.Valid() && SameBounds(r, a) && r.lowerBound <= y < r.upperBound
    requires r.Unwrapped() == a.Unwrapped() + delta
    requires a.Unwrapped() + delta == y + a.Interval() * (k as real)
    ensures r.wrapped == y
  {
    CongruentInWindow(r, y, k);
  }

  lemma ZeroEqualsTenExample(lower: real, upper: real)
    requires lower == 0.0 && upper == 10.0
    ensures var zero, ten := Make(lower, lower, upper), Make(upper, lower, upper);
      BoundsMatch(zero, ten) && Equal(zero, ten)
  {
    SameWrappedValue(Make(lower, lower, upper), Make(upper, lower, upper));
  }

  /** In the window [0, 10), the unwrapped values 0 and 10 have the same wrapped value. */
  lemma SameWrappedValue(zero: Wrapped, ten: Wrapped)
    requires zero.Valid() && zero.lowerBound == 0.0 && zero.upperBound == 10.0 && zero.Unwrapped() == 0.0
    requires ten.Valid() && SameBounds(zero, ten) && ten.Unwrapped() == 10.0
    ensures BoundsMatch(zero, ten) && Equal(zero, ten)
  {
    InWindowOfTen(zero, 0.0, 0);
    InWindowOfTen(ten, 0.0, 1);
  }

  /** In the window [0, 10), the unwrapped value `y + 10 k` with `y` in the window wraps to `y`. */
  lemma InWindowOfTen(x: Wrapped, y: real, k: int)
    requires x.Valid() && x.lowerBound == 0.0 && x.upperBound == 10.0 && 0.0 <= y < 10.0
    requires x.Unwrapped() == y + 10.0 * (k as real)
    ensures x.wrapped == y
  {
    CongruentInWindow(x, y, k);
  }

  /**
   * `minInterpolate(other, alpha)`: move from `a` towards `b` by the fraction `alpha` of the
   * shortest difference.
   */
  function MinInterpolate(a: Wrapped, b: Wrapped, alpha: real): (r: Wrapped)
    requires a.Valid() && b.Valid() && BoundsMatch(a, b)
    ensures r.Valid() && SameBounds(r, a)
    ensures r.Unwrapped() == a.Unwrapped() + MinDifference(a, b) * alpha
  {
    AddScalar(a, MinDifference(a, b) * alpha)
  }

  /** As documented, `alpha == 0` gives `a` itself. */
  lemma MinInterpolateStart(a: Wrapped, b: Wrapped)
    requires a.Valid() && b.Valid() && SameBounds(a, b)
    ensures MinInterpolate(a, b, 0.0) == a
  {
    var r := MinInterpolate(a, b, 0.0);
    assert r.Valid() && SameBounds(r, a);
    assert r.Unwrapped() == a.Unwrapped();
    SameUnwrapped(r, a);
  }

  /** Two values in the same window with the same unwrapped value are the same value. */
  lemma SameUnwrapped(x: Wrapped, y: Wrapped)
    requires x.Valid() && y.Valid() && SameBounds(x, y) && x.Unwrapped() == y.Unwrapped()
    ensures x == y
  {
    CongruentInWindow(x, y.wrapped, y.revolutions);
  }

  /** As documented, `alpha == 1` gives the other value (as a wrapped value). */
  lemma MinInterpolateEnd(a: Wrapped, b: Wrapped)
    requires a.Valid() && b.Valid() && SameBounds(a, b)
    ensures MinInterpolate(a, b, 1.0).wrapped == b.wrapped
  {
    InterpolatedToEnd(a, b, MinInterpolate(a, b, 1.0), MinDifference(a, b));
  }

  /** Moving `a` by a difference congruent to `b - a` lands on `b`. */
  lemma InterpolatedToEnd(a: Wrapped, b: Wrapped, r: Wrapped, md: real)
    requires a.Valid() && b.Valid() && SameBounds(a, b) && r.Valid() && SameBounds(r, a)
    requires r.Unwrapped() == a.Unwrapped() + md
    requires var d := b.wrapped - a.wrapped; md == d || md == d + a.Interval() || md == d - a.Interval()
    ensures r.wrapped == b.wrapped
  {
    var i := a.Interval();
    var j: int := if md == b.wrapped - a.wrapped then 0 else if md == b.wrapped - a.wrapped + i then 1 else -1;
    assert md == b.wrapped - a.wrapped + i * (j as real);
    OffsetRevolutions(r, b.wrapped, a.revolutions, j);
  }

  /** `CongruentInWindow` for an unwrapped value `y + base + j` intervals. */
  lemma OffsetRevolutions(x: Wrapped, y: real, base: int, j: int)
    requires x.Valid() && x.lowerBound <= y < x.upperBound
    requires x.Unwrapped() == y + x.Interval() * (base as real) + x.Interval() * (j as real)
    ensures x.wrapped == y
  {
    RevolutionsAdd(x.Interval(), base, j);
    CongruentInWindow(x, y, base + j);
  }

  /** `shiftBounds(shift)`: both bounds move by `shift` and the value is wrapped again. */
  function ShiftedBounds(w: Wrapped, shift: real): (r: Wrapped)
    requires w.HasBounds()
    ensures r.Valid() && r.lowerBound == w.lowerBound + shift && r.upperBound == w.upperBound + shift
    ensures r.Unwrapped() == w.Unwrapped()
  {
    Wrap(w.(lowerBound := w.lowerBound + shift, upperBound := w.upperBound + shift))
  }

  /** `setWrappedValue(value)`: revolutions already made are kept. */
  function WithWrappedValue(w: Wrapped, value: real): (r: Wrapped)
    requires w.HasBounds()
    ensures r.Valid() && SameBounds(r, w)
    ensures r.Unwrapped() == value + w.Interval() * (w.revolutions as real)
  {
    Wrap(w.(wrapped := value))
  }

  /** `setUnwrappedValue(value)`: the revolutions restart from zero. */
  function WithUnwrappedValue(w: Wrapped, value: real): (r: Wrapped)
    requires w.HasBounds()
    ensures r.Valid() && SameBounds(r, w) && r.Unwrapped() == value
  {
    Wrap(w.(wrapped := value, revolutions := 0))
  }

  /** A WrappedFloat object whose methods change it in place. */
  class WrappedFloat {
    var wrapped: real
    var revolutions: int
    var lowerBound: real
    var upperBound: real

    function Value(): Wrapped
      reads this
    {
      Wrapped(wrapped, revolutions, lowerBound, upperBound)
    }

    constructor (value: real, lower: real, upper: real)
      requires lower < upper
      ensures Value() == Make(value, lower, upper)
    {
      wrapped, revolutions, lowerBound, upperBound := value, 0, lower, upper;
      new;
      WrapValue();
    }

    method WrapValue()
      requires lowerBound < upperBound
      modifies this
      ensures Value() == Wrap(old(Value()))
    {
      var oldValue := wrapped;
      var interval := upperBound - lowerBound;
      if oldValue < lowerBound {
        var m := Fmod(oldValue - upperBound, interval);
        wrapped := if m == 0.0 then lowerBound else upperBound + m;
      } else if oldValue >= upperBound {
        wrapped := lowerBound + Fmod(oldValue - lowerBound, interval);
      }
      revolutions := revolutions + FloorDiv(oldValue - lowerBound, interval);
    }

    method AddAssign(other: Wrapped)
      requires Value().Valid() && other.Valid() && BoundsMatch(Value(), other)
      modifies this
      ensures Value() == Add(old(Value()), other)
    {
      wrapped := wrapped + other.wrapped;
      WrapValue();
      revolutions := revolutions + other.revolutions;
    }

    method SubAssign(other: Wrapped)
      requires Value().Valid() && other.Valid() && BoundsMatch(Value(), other)
      modifies this
      ensures Value() == Sub(old(Value()), other)
    {
      wrapped := wrapped - other.wrapped;
      WrapValue();
      revolutions := revolutions - other.revolutions;
    }

    /** `a += a`: the operand is this object, read again after `wrapValue` has changed it. */
    method AddAssignSelf()
      requires Value().Valid()
      modifies this
      ensures Value() == AddSelfAsWritten(old(Value()))
    {
      wrapped := wrapped + wrapped;
      WrapValue();
      revolutions := revolutions + revolutions;
    }

    /** `a -= a`, likewise. */
    method SubAssignSelf()
      requires Value().Valid()
      modifies this
      ensures Value() == SubSelfAsWritten(old(Value()))
    {
      wrapped := wrapped - wrapped;
      WrapValue();
      revolutions := revolutions - revolutions;
    }

    method AddAssignScalar(value: real)
      requires Value().Valid()
      modifies this
      ensures Value() == AddScalar(old(Value()), value)
    {
      AddAssign(WithSameBounds(Value(), value));
    }

    method SubAssignScalar(value: real)
      requires Value().Valid()
      modifies this
      ensures Value() == SubScalar(old(Value()), value)
    {
      SubAssign(WithSameBounds(Value(), value));
    }

    method ShiftBounds(shift: real)
      requires lowerBound < upperBound
      modifies this
      ensures Value() == ShiftedBounds(old(Value()), shift)
    {
      upperBound := upperBound + shift;
      lowerBound := lowerBound + shift;
      WrapValue();
    }

    method SetWrappedValue(value: real)
      requires lowerBound < upperBound
      modifies this
      ensures Value() == WithWrappedValue(old(Value()), value)
    {
      wrapped := value;
      WrapValue();
    }

    method SetUnwrappedValue(value: real)
      requires lowerBound < upperBound
      modifies this
      ensures Value() == WithUnwrappedValue(old(Value()), value)
    {
      wrapped := value;
      revolutions := 0;
      WrapValue();
    }
  }
}
