/**
 * `Position`: a point in 3D space stored as a 3x1 column of coordinates, its accessors and
 * `interpolate`. The `+` and `*` operators `interpolate` uses are declared in the header only;
 * they are modelled as the componentwise sum and scaling.
 */
module Positions {
  import opened Matrices

  datatype Position = Position(coordinates: Vec3)
  {
    function X(): real
    {
      coordinates[0]
    }

    function Y(): real
    {
      coordinates[1]
    }

    function Z(): real
    {
      coordinates[2]
    }

    /** `operator+(Position)`, componentwise. */
    function Plus(other: Position): Position
    {
      Position([X() + other.X(), Y() + other.Y(), Z() + other.Z()])
    }

    /** `operator*(float)`, every coordinate scaled. */
    function Times(k: real): Position
    {
      Position([k * X(), k * Y(), k * Z()])
    }
  }

  /** `Position(x, y, z)`. */
  function FromXYZ(x: real, y: real, z: real): Position
  {
    Position([x, y, z])
  }

  /** `interpolate(a, b, t)`: `a * (1 - t) + b * t`. */
  function Interpolate(a: Position, b: Position, t: real): Position
  {
    a.Times(1.0 - t).Plus(b.Times(t))
  }

  /** The accessors return the coordinates a position was built from. */
  lemma AccessorsRoundTrip(x: real, y: real, z: real)
    ensures FromXYZ(x, y, z).X() == x && FromXYZ(x, y, z).Y() == y && FromXYZ(x, y, z).Z() == z
  {
  }

  /** Building a position from the coordinates `coordinates()` returns gives it back. */
  lemma CoordinatesRoundTrip(p: Position)
    ensures Position(p.coordinates) == p
    ensures FromXYZ(p.X(), p.Y(), p.Z()) == p
  {
    assert [p.X(), p.Y(), p.Z()] == p.coordinates;
  }

  /** Each coordinate of `interpolate(a, b, t)` is `a_i * (1 - t) + b_i * t`. */
  lemma InterpolateCoordinates(a: Position, b: Position, t: real)
    ensures Interpolate(a, b, t).X() == a.X() * (1.0 - t) + b.X() * t
    ensures Interpolate(a, b, t).Y() == a.Y() * (1.0 - t) + b.Y() * t
    ensures Interpolate(a, b, t).Z() == a.Z() * (1.0 - t) + b.Z() * t
  {
  }

  /** At t = 0 the interpolation is at `a`, at t = 1 at `b`. */
  lemma InterpolateEnds(a: Position, b: Position)
    ensures Interpolate(a, b, 0.0) == a
    ensures Interpolate(a, b, 1.0) == b
  {
    CoordinatesRoundTrip(a);
    CoordinatesRoundTrip(b);
  }

  /** Interpolating between a point and itself gives the point, for every t. */
  lemma InterpolateSame(a: Position, t: real)
    ensures Interpolate(a, a, t) == a
  {
    var r := Interpolate(a, a, t);
    assert r.X() == a.X() * (1.0 - t) + a.X() * t == a.X();
    assert r.Y() == a.Y() * (1.0 - t) + a.Y() * t == a.Y();
    assert r.Z() == a.Z() * (1.0 - t) + a.Z() * t == a.Z();
    CoordinatesRoundTrip(a);
    CoordinatesRoundTrip(r);
  }
}
