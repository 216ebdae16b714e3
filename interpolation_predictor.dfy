/**
 * `LinearInterpolationPredictorWrapped`: extrapolates a wrapped value along the slope of its
 * last two updates. Only the state and `getInterpolatedValue` are modelled; the constructor,
 * `update` and `reset` are declared in the header without a body.
 */
module InterpolationPredictors {
  import opened FixedWidth
  import opened WrappedFloats

  class LinearInterpolationPredictorWrapped {
    /** The timestamp of the last `update`, in milliseconds. */
    var lastUpdateCallTime: uint32
    /** The value given to the last `update`. */
    var previousValue: Wrapped
    /** The change per millisecond between the last two updates. */
    var slope: real

    /**
     * `getInterpolatedValue(currTime)`: `slope * (currTime - lastUpdateCallTime) + previous`,
     * with the time difference taken on `uint32_t`, wrapped into the previous value's window.
     * Being a function, it changes none of the fields.
     */
    function GetInterpolatedValue(currTime: uint32): (r: real)
      reads this
      requires previousValue.HasBounds()
      ensures previousValue.lowerBound <= r < previousValue.upperBound
      ensures WholeTurnsApart(slope * (Sub32(currTime, lastUpdateCallTime) as real) + previousValue.wrapped, r,
                              previousValue.upperBound - previousValue.lowerBound)
      ensures previousValue.Valid() && (currTime == lastUpdateCallTime || slope == 0.0)
              ==> r == previousValue.wrapped
    {
      var target := slope * (Sub32(currTime, lastUpdateCallTime) as real) + previousValue.wrapped;
      WrappedInto(target, previousValue.lowerBound, previousValue.upperBound)
    }
  }

  /** `WrappedFloat(value, lower, upper).getWrappedValue()`: the value brought into the window. */
  function WrappedInto(value: real, lower: real, upper: real): (r: real)
    requires lower < upper
    ensures lower <= r < upper && WholeTurnsApart(value, r, upper - lower)
    ensures lower <= value < upper ==> r == value
  {
    var m := Make(value, lower, upper);
    TurnsApart(m, value);
    m.wrapped
  }

  /** `x` and `y` differ by a whole number of turns of length `interval`. */
  predicate WholeTurnsApart(x: real, y: real, interval: real)
    requires interval > 0.0
  {
    ((x - y) / interval).Floor as real == (x - y) / interval
  }

  /** A wrapped value is a whole number of turns away from its unwrapped value. */
  lemma TurnsApart(w: Wrapped, value: real)
    requires w.HasBounds() && w.Unwrapped() == value
    ensures WholeTurnsApart(value, w.wrapped, w.Interval())
  {
    var i := w.Interval();
    assert w.Unwrapped() - w.wrapped == i * (w.revolutions as real);
    assert (w.Unwrapped() - w.wrapped) / i == w.revolutions as real;
  }

  /** Within one window, a value a whole number of turns from `x` is unique: the contract fixes the result. */
  lemma WholeTurnsApartUnique(x: real, r1: real, r2: real, lower: real, upper: real)
    requires lower < upper && lower <= r1 < upper && lower <= r2 < upper
    requires WholeTurnsApart(x, r1, upper - lower) && WholeTurnsApart(x, r2, upper - lower)
    ensures r1 == r2
  {
    var i := upper - lower;
    var k1, k2 := ((x - r1) / i).Floor, ((x - r2) / i).Floor;
    assert x - r1 == i * (k1 as real) && x - r2 == i * (k2 as real);
    assert r2 - r1 == i * (k1 as real) - i * (k2 as real);
    ShorterThanOneTurn(i, k1, k2, r2 - r1);
  }

  /** Two whole numbers of turns less than one turn apart are the same number. */
  lemma ShorterThanOneTurn(i: real, k1: int, k2: int, d: real)
    requires i > 0.0 && -i < d < i && d == i * (k1 as real) - i * (k2 as real)
    ensures k1 == k2
  {
    assert d == i * ((k1 - k2) as real);
    WholeTurnsLength(i, k1 - k2);
  }

  /** A positive (negative) whole number of turns is at least one turn up (down). */
  lemma WholeTurnsLength(i: real, k: int)
    requires i > 0.0
    ensures k >= 1 ==> i * (k as real) >= i
    ensures k <= -1 ==> i * (k as real) <= -i
  {
    assert i * (k as real) - i == i * ((k - 1) as real);
    assert i * (k as real) + i == i * ((k + 1) as real);
  }

  /** A query time earlier than the last update counts as almost 2^32 milliseconds later. */
  lemma EarlierTimeWrapsAround(currTime: uint32, lastUpdateCallTime: uint32)
    requires currTime < lastUpdateCallTime
    ensures Sub32(currTime, lastUpdateCallTime) as int >= UINT32_MODULUS - lastUpdateCallTime as int
    ensures Sub32(currTime, lastUpdateCallTime) as int + (lastUpdateCallTime as int - currTime as int) == UINT32_MODULUS
  {
  }
}
