/**
 * `Orientation`: a rotation matrix built from roll, pitch and yaw (intrinsic Z-Y-X Euler
 * angles), the angle extractors that read them back, and `compose`, the matrix product.
 *
 * The trigonometric functions are parameters: a `Trig` value carries `sinf`, `cosf`, `asinf`
 * and `atan2`, and the lemmas state as preconditions only the identities they use.
 */
module Orientations {
  import opened Matrices

  const PI: real := 3.14159265358979323846

  datatype Trig = Trig(sin: real -> real, cos: real -> real, asin: real -> real,
                       atan2: (real, real) -> real)

  /** `k * x`, named so that it can appear in a trigger. */
  function Scale1(k: real, x: real): real
  {
    k * x
  }

  /** sin 0 = 0 and cos 0 = 1. */
  predicate ZeroAngle(t: Trig)
  {
    t.sin(0.0) == 0.0 && t.cos(0.0) == 1.0
  }

  /** sin² a + cos² a = 1. */
  predicate Pythagorean(t: Trig, a: real)
  {
    t.sin(a) * t.sin(a) + t.cos(a) * t.cos(a) == 1.0
  }

  /** asin undoes sin on [-π/2, π/2]. */
  ghost predicate AsinInvertsSin(t: Trig)
  {
    forall a {:trigger t.sin(a)} :: -PI / 2.0 <= a <= PI / 2.0 ==> t.asin(t.sin(a)) == a
  }

  /** atan2 depends only on the direction of its argument, not on a positive scale. */
  ghost predicate Atan2Homogeneous(t: Trig)
  {
    forall k, y, x {:trigger t.atan2(Scale1(k, y), Scale1(k, x))} ::
      k > 0.0 ==> t.atan2(Scale1(k, y), Scale1(k, x)) == t.atan2(y, x)
  }

  /** atan2(sin a, cos a) = a for a in (-π, π]. */
  ghost predicate Atan2InvertsCircle(t: Trig)
  {
    forall a {:trigger t.sin(a)} :: -PI < a <= PI ==> t.atan2(t.sin(a), t.cos(a)) == a
  }

  /** The convention `atan2(0, 0) = 0`. */
  predicate Atan2Origin(t: Trig)
  {
    t.atan2(0.0, 0.0) == 0.0
  }

  datatype Orientation = Orientation(matrix: Mat3)
  {
    /** `roll()`: atan2 of entries (2, 1) and (2, 2). */
    function Roll(t: Trig): real
    {
      t.atan2(matrix[7], matrix[8])
    }

    /** `pitch()`: asin of minus entry (2, 0). */
    function Pitch(t: Trig): real
    {
      t.asin(-matrix[6])
    }

    /** `yaw()`: atan2 of entries (1, 0) and (0, 0). */
    function Yaw(t: Trig): real
    {
      t.atan2(matrix[3], matrix[0])
    }

    /** `compose(other)`: this rotation's matrix times the other's. */
    function Compose(other: Orientation): Orientation
    {
      Orientation(Mul(matrix, other.matrix))
    }
  }

  /** `fromEulerAngles(roll, pitch, yaw)`, row-major: Rz(yaw) * Ry(pitch) * Rx(roll). */
  function FromEulerAngles(t: Trig, roll: real, pitch: real, yaw: real): Mat3
  {
    EulerMatrix(t.sin(roll), t.cos(roll), t.sin(pitch), t.cos(pitch), t.sin(yaw), t.cos(yaw))
  }

  /** The Euler rotation matrix `Rz(yaw) * Ry(pitch) * Rx(roll)` from the angles' sines and cosines. */
  function EulerMatrix(sr: real, cr: real, sp: real, cp: real, sy: real, cy: real): Mat3
  {
    [cy * cp, cy * sp * sr - sy * cr, cy * sp * cr + sy * sr,
     sy * cp, sy * sp * sr + cy * cr, sy * sp * cr - cy * sr,
     -sp, cp * sr, cp * cr]
  }

  /** `Orientation(roll, pitch, yaw)`. */
  function FromAngles(t: Trig, roll: real, pitch: real, yaw: real): Orientation
  {
    Orientation(FromEulerAngles(t, roll, pitch, yaw))
  }

  /** All three angles zero give the identity matrix, the rotation of `Transform::identity`. */
  lemma ZeroAnglesIdentity(t: Trig)
    requires ZeroAngle(t)
    ensures FromEulerAngles(t, 0.0, 0.0, 0.0) == Identity
  {
    var m := FromEulerAngles(t, 0.0, 0.0, 0.0);
    assert m[0] == 1.0 && m[1] == 0.0 && m[2] == 0.0 && m[3] == 0.0 && m[4] == 1.0
      && m[5] == 0.0 && m[6] == 0.0 && m[7] == 0.0 && m[8] == 1.0;
  }

  /** `pitch()` recovers the pitch angle when it lies in [-π/2, π/2]. */
  lemma PitchRecovered(t: Trig, roll: real, pitch: real, yaw: real)
    requires AsinInvertsSin(t) && -PI / 2.0 <= pitch <= PI / 2.0
    ensures FromAngles(t, roll, pitch, yaw).Pitch(t) == pitch
  {
    assert t.asin(t.sin(pitch)) == pitch;
  }

  /**
   * `roll()` and `yaw()` recover roll and yaw in (-π, π] when cos(pitch) > 0: both atan2
   * arguments carry that positive factor.
   */
  lemma RollYawRecovered(t: Trig, roll: real, pitch: real, yaw: real)
    requires Atan2Homogeneous(t) && Atan2InvertsCircle(t)
    requires t.cos(pitch) > 0.0 && -PI < roll <= PI && -PI < yaw <= PI
    ensures FromAngles(t, roll, pitch, yaw).Roll(t) == roll
    ensures FromAngles(t, roll, pitch, yaw).Yaw(t) == yaw
  {
    var cp := t.cos(pitch);
    var m := FromEulerAngles(t, roll, pitch, yaw);
    assert m[7] == Scale1(cp, t.sin(roll)) && m[8] == Scale1(cp, t.cos(roll));
    assert t.atan2(Scale1(cp, t.sin(roll)), Scale1(cp, t.cos(roll))) == t.atan2(t.sin(roll), t.cos(roll));
    assert t.atan2(t.sin(roll), t.cos(roll)) == roll;
    assert m[3] == Scale1(cp, t.sin(yaw)) && m[0] == Scale1(cp, t.cos(yaw));
    assert t.atan2(Scale1(cp, t.sin(yaw)), Scale1(cp, t.cos(yaw))) == t.atan2(t.sin(yaw), t.cos(yaw));
    assert t.atan2(t.sin(yaw), t.cos(yaw)) == yaw;
  }

  /** At a vertical pitch, roll and yaw are gimbal-locked and `roll()` reports 0. */
  lemma GimbalLockRollZero(t: Trig, roll: real, pitch: real, yaw: real)
    requires Atan2Origin(t) && t.cos(pitch) == 0.0
    ensures FromAngles(t, roll, pitch, yaw).Roll(t) == 0.0
  {
    var m := FromEulerAngles(t, roll, pitch, yaw);
    assert m[7] == 0.0 && m[8] == 0.0;
  }

  /** `compose` is associative. */
  lemma ComposeAssociative(a: Orientation, b: Orientation, c: Orientation)
    ensures a.Compose(b).Compose(c) == a.Compose(b.Compose(c))
  {
    MulAssociative(a.matrix, b.matrix, c.matrix);
  }

  /** The zero-angle orientation is a unit for `compose` on both sides. */
  lemma ComposeIdentity(t: Trig, a: Orientation)
    requires ZeroAngle(t)
    ensures FromAngles(t, 0.0, 0.0, 0.0).Compose(a) == a
    ensures a.Compose(FromAngles(t, 0.0, 0.0, 0.0)) == a
  {
    ZeroAnglesIdentity(t);
    MulIdentity(a.matrix);
  }

  /** `a * b`, kept as a term of its own so that the identities below match by name. */
  function Times(a: real, b: real): real
  {
    a * b
  }

  /** sin² + cos² = 1 for the three angles' sines and cosines. */
  predicate UnitCircle(sr: real, cr: real, sp: real, cp: real, sy: real, cy: real)
  {
    sr * sr + cr * cr == 1.0 && sp * sp + cp * cp == 1.0 && sy * sy + cy * cy == 1.0
  }

  /** The entries of `m` are those of the Euler matrix with these sines and cosines. */
  predicate EulerEntries(m: Mat3, sr: real, cr: real, sp: real, cp: real, sy: real, cy: real)
  {
    m[0] == cy * cp && m[1] == cy * sp * sr - sy * cr && m[2] == cy * sp * cr + sy * sr
    && m[3] == sy * cp && m[4] == sy * sp * sr + cy * cr && m[5] == sy * sp * cr - cy * sr
    && m[6] == -sp && m[7] == cp * sr && m[8] == cp * cr
  }

  /** The rows of the Euler matrix are unit vectors, pairwise orthogonal, written over reals. */
  lemma RowIdentities(sr: real, cr: real, sp: real, cp: real, sy: real, cy: real)
    requires UnitCircle(sr, cr, sp, cp, sy, cy)
    ensures Times(cy * cp, cy * cp) + Times(cy * sp * sr - sy * cr, cy * sp * sr - sy * cr)
            + Times(cy * sp * cr + sy * sr, cy * sp * cr + sy * sr) == 1.0
    ensures Times(sy * cp, sy * cp) + Times(sy * sp * sr + cy * cr, sy * sp * sr + cy * cr)
            + Times(sy * sp * cr - cy * sr, sy * sp * cr - cy * sr) == 1.0
    ensures Times(-sp, -sp) + Times(cp * sr, cp * sr) + Times(cp * cr, cp * cr) == 1.0
    ensures Times(cy * cp, sy * cp) + Times(cy * sp * sr - sy * cr, sy * sp * sr + cy * cr)
            + Times(cy * sp * cr + sy * sr, sy * sp * cr - cy * sr) == 0.0
    ensures Times(cy * cp, -sp) + Times(cy * sp * sr - sy * cr, cp * sr)
            + Times(cy * sp * cr + sy * sr, cp * cr) == 0.0
    ensures Times(sy * cp, -sp) + Times(sy * sp * sr + cy * cr, cp * sr)
            + Times(sy * sp * cr - cy * sr, cp * cr) == 0.0
  {
  }

  /** The columns of the Euler matrix are unit vectors, pairwise orthogonal, written over reals. */
  lemma ColumnIdentities(sr: real, cr: real, sp: real, cp: real, sy: real, cy: real)
    requires UnitCircle(sr, cr, sp, cp, sy, cy)
    ensures Times(cy * cp, cy * cp) + Times(sy * cp, sy * cp) + Times(-sp, -sp) == 1.0
    ensures Times(cy * sp * sr - sy * cr, cy * sp * sr - sy * cr) + Times(sy * sp * sr + cy * cr, sy * sp * sr + cy * cr)
            + Times(cp * sr, cp * sr) == 1.0
    ensures Times(cy * sp * cr + sy * sr, cy * sp * cr + sy * sr) + Times(sy * sp * cr - cy * sr, sy * sp * cr - cy * sr)
            + Times(cp * cr, cp * cr) == 1.0
    ensures Times(cy * cp, cy * sp * sr - sy * cr) + Times(sy * cp, sy * sp * sr + cy * cr)
            + Times(-sp, cp * sr) == 0.0
    ensures Times(cy * cp, cy * sp * cr + sy * sr) + Times(sy * cp, sy * sp * cr - cy * sr)
            + Times(-sp, cp * cr) == 0.0
    ensures Times(cy * sp * sr - sy * cr, cy * sp * cr + sy * sr) + Times(sy * sp * sr + cy * cr, sy * sp * cr - cy * sr)
            + Times(cp * sr, cp * cr) == 0.0
  {
  }

  /** A dot product of three entries equals the one of the values they stand for. */
  lemma Link(a0: real, a1: real, a2: real, b0: real, b1: real, b2: real,
             x0: real, x1: real, x2: real, y0: real, y1: real, y2: real, v: real)
    requires a0 == x0 && a1 == x1 && a2 == x2 && b0 == y0 && b1 == y1 && b2 == y2
    requires Times(x0, y0) + Times(x1, y1) + Times(x2, y2) == v
    ensures a0 * b0 + a1 * b1 + a2 * b2 == v
  {
  }

  lemma EulerRowsOrthonormal(m: Mat3, sr: real, cr: real, sp: real, cp: real, sy: real, cy: real)
    requires EulerEntries(m, sr, cr, sp, cp, sy, cy) && UnitCircle(sr, cr, sp, cp, sy, cy)
    ensures OrthonormalRows(m)
  {
    EulerRowDot00(m, sr, cr, sp, cp, sy, cy);
    EulerRowDot11(m, sr, cr, sp, cp, sy, cy);
    EulerRowDot22(m, sr, cr, sp, cp, sy, cy);
    EulerRowDot01(m, sr, cr, sp, cp, sy, cy);
    EulerRowDot02(m, sr, cr, sp, cp, sy, cy);
    EulerRowDot12(m, sr, cr, sp, cp, sy, cy);
  }

  /** Row 0 of the Euler matrix is a unit vector. */
  lemma EulerRowDot00(m: Mat3, sr: real, cr: real, sp: real, cp: real, sy: real, cy: real)
    requires EulerEntries(m, sr, cr, sp, cp, sy, cy) && UnitCircle(sr, cr, sp, cp, sy, cy)
    ensures RowDot(m, 0, 0) == 1.0
  {
    RowIdentities(sr, cr, sp, cp, sy, cy);
    Link(m[0], m[1], m[2], m[0], m[1], m[2],
      cy * cp, cy * sp * sr - sy * cr, cy * sp * cr + sy * sr,
      cy * cp, cy * sp * sr - sy * cr, cy * sp * cr + sy * sr, 1.0);
  }

  /** Row 1 of the Euler matrix is a unit vector. */
  lemma EulerRowDot11(m: Mat3, sr: real, cr: real, sp: real, cp: real, sy: real, cy: real)
    requires EulerEntries(m, sr, cr, sp, cp, sy, cy) && UnitCircle(sr, cr, sp, cp, sy, cy)
    ensures RowDot(m, 1, 1) == 1.0
  {
    RowIdentities(sr, cr, sp, cp, sy, cy);
    Link(m[3], m[4], m[5], m[3], m[4], m[5],
      sy * cp, sy * sp * sr + cy * cr, sy * sp * cr - cy * sr,
      sy * cp, sy * sp * sr + cy * cr, sy * sp * cr - cy * sr, 1.0);
  }

  /** Row 2 of the Euler matrix is a unit vector. */
  lemma EulerRowDot22(m: Mat3, sr: real, cr: real, sp: real, cp: real, sy: real, cy: real)
    requires EulerEntries(m, sr, cr, sp, cp, sy, cy) && UnitCircle(sr, cr, sp, cp, sy, cy)
    ensures RowDot(m, 2, 2) == 1.0
  {
    RowIdentities(sr, cr, sp, cp, sy, cy);
    Link(m[6], m[7], m[8], m[6], m[7], m[8],
      -sp, cp * sr, cp * cr,
      -sp, cp * sr, cp * cr, 1.0);
  }

  /** Rows 0 and 1 of the Euler matrix are orthogonal. */
  lemma EulerRowDot01(m: Mat3, sr: real, cr: real, sp: real, cp: real, sy: real, cy: real)
    requires EulerEntries(m, sr, cr, sp, cp, sy, cy) && UnitCircle(sr, cr, sp, cp, sy, cy)
    ensures RowDot(m, 0, 1) == 0.0
  {
    RowIdentities(sr, cr, sp, cp, sy, cy);
    Link(m[0], m[1], m[2], m[3], m[4], m[5],
      cy * cp, cy * sp * sr - sy * cr, cy * sp * cr + sy * sr,
      sy * cp, sy * sp * sr + cy * cr, sy * sp * cr - cy * sr, 0.0);
  }

  /** Rows 0 and 2 of the Euler matrix are orthogonal. */
  lemma EulerRowDot02(m: Mat3, sr: real, cr: real, sp: real, cp: real, sy: real, cy: real)
    requires EulerEntries(m, sr, cr, sp, cp, sy, cy) && UnitCircle(sr, cr, sp, cp, sy, cy)
    ensures RowDot(m, 0, 2) == 0.0
  {
    RowIdentities(sr, cr, sp, cp, sy, cy);
    Link(m[0], m[1], m[2], m[6], m[7], m[8],
      cy * cp, cy * sp * sr - sy * cr, cy * sp * cr + sy * sr,
      -sp, cp * sr, cp * cr, 0.0);
  }

  /** Rows 1 and 2 of the Euler matrix are orthogonal. */
  lemma EulerRowDot12(m: Mat3, sr: real, cr: real, sp: real, cp: real, sy: real, cy: real)
    requires EulerEntries(m, sr, cr, sp, cp, sy, cy) && UnitCircle(sr, cr, sp, cp, sy, cy)
    ensures RowDot(m, 1, 2) == 0.0
  {
    RowIdentities(sr, cr, sp, cp, sy, cy);
    Link(m[3], m[4], m[5], m[6], m[7], m[8],
      sy * cp, sy * sp * sr + cy * cr, sy * sp * cr - cy * sr,
      -sp, cp * sr, cp * cr, 0.0);
  }

  lemma EulerColumnsOrthonormal(m: Mat3, sr: real, cr: real, sp: real, cp: real, sy: real, cy: real)
    requires EulerEntries(m, sr, cr, sp, cp, sy, cy) && UnitCircle(sr, cr, sp, cp, sy, cy)
    ensures OrthonormalColumns(m)
  {
    EulerColumnDot00(m, sr, cr, sp, cp, sy, cy);
    EulerColumnDot11(m, sr, cr, sp, cp, sy, cy);
    EulerColumnDot22(m, sr, cr, sp, cp, sy, cy);
    EulerColumnDot01(m, sr, cr, sp, cp, sy, cy);
    EulerColumnDot02(m, sr, cr, sp, cp, sy, cy);
    EulerColumnDot12(m, sr, cr, sp, cp, sy, cy);
  }

  /** Column 0 of the Euler matrix is a unit vector. */
  lemma EulerColumnDot00(m: Mat3, sr: real, cr: real, sp: real, cp: real, sy: real, cy: real)
    requires EulerEntries(m, sr, cr, sp, cp, sy, cy) && UnitCircle(sr, cr, sp, cp, sy, cy)
    ensures ColumnDot(m, 0, 0) == 1.0
  {
    ColumnIdentities(sr, cr, sp, cp, sy, cy);
    Link(m[0], m[3], m[6], m[0], m[3], m[6],
      cy * cp, sy * cp, -sp,
      cy * cp, sy * cp, -sp, 1.0);
  }

  /** Column 1 of the Euler matrix is a unit vector. */
  lemma EulerColumnDot11(m: Mat3, sr: real, cr: real, sp: real, cp: real, sy: real, cy: real)
    requires EulerEntries(m, sr, cr, sp, cp, sy, cy) && UnitCircle(sr, cr, sp, cp, sy, cy)
    ensures ColumnDot(m, 1, 1) == 1.0
  {
    ColumnIdentities(sr, cr, sp, cp, sy, cy);
    Link(m[1], m[4], m[7], m[1], m[4], m[7],
      cy * sp * sr - sy * cr, sy * sp * sr + cy * cr, cp * sr,
      cy * sp * sr - sy * cr, sy * sp * sr + cy * cr, cp * sr, 1.0);
  }

  /** Column 2 of the Euler matrix is a unit vector. */
  lemma EulerColumnDot22(m: Mat3, sr: real, cr: real, sp: real, cp: real, sy: real, cy: real)
    requires EulerEntries(m, sr, cr, sp, cp, sy, cy) && UnitCircle(sr, cr, sp, cp, sy, cy)
    ensures ColumnDot(m, 2, 2) == 1.0
  {
    ColumnIdentities(sr, cr, sp, cp, sy, cy);
    Link(m[2], m[5], m[8], m[2], m[5], m[8],
      cy * sp * cr + sy * sr, sy * sp * cr - cy * sr, cp * cr,
      cy * sp * cr + sy * sr, sy * sp * cr - cy * sr, cp * cr, 1.0);
  }

  /** Columns 0 and 1 of the Euler matrix are orthogonal. */
  lemma EulerColumnDot01(m: Mat3, sr: real, cr: real, sp: real, cp: real, sy: real, cy: real)
    requires EulerEntries(m, sr, cr, sp, cp, sy, cy) && UnitCircle(sr, cr, sp, cp, sy, cy)
    ensures ColumnDot(m, 0, 1) == 0.0
  {
    ColumnIdentities(sr, cr, sp, cp, sy, cy);
    Link(m[0], m[3], m[6], m[1], m[4], m[7],
      cy * cp, sy * cp, -sp,
      cy * sp * sr - sy * cr, sy * sp * sr + cy * cr, cp * sr, 0.0);
  }

  /** Columns 0 and 2 of the Euler matrix are orthogonal. */
  lemma EulerColumnDot02(m: Mat3, sr: real, cr: real, sp: real, cp: real, sy: real, cy: real)
    requires EulerEntries(m, sr, cr, sp, cp, sy, cy) && UnitCircle(sr, cr, sp, cp, sy, cy)
    ensures ColumnDot(m, 0, 2) == 0.0
  {
    ColumnIdentities(sr, cr, sp, cp, sy, cy);
    Link(m[0], m[3], m[6], m[2], m[5], m[8],
      cy * cp, sy * cp, -sp,
      cy * sp * cr + sy * sr, sy * sp * cr - cy * sr, cp * cr, 0.0);
  }

  /** Columns 1 and 2 of the Euler matrix are orthogonal. */
  lemma EulerColumnDot12(m: Mat3, sr: real, cr: real, sp: real, cp: real, sy: real, cy: real)
    requires EulerEntries(m, sr, cr, sp, cp, sy, cy) && UnitCircle(sr, cr, sp, cp, sy, cy)
    ensures ColumnDot(m, 1, 2) == 0.0
  {
    ColumnIdentities(sr, cr, sp, cp, sy, cy);
    Link(m[1], m[4], m[7], m[2], m[5], m[8],
      cy * sp * sr - sy * cr, sy * sp * sr + cy * cr, cp * sr,
      cy * sp * cr + sy * sr, sy * sp * cr - cy * sr, cp * cr, 0.0);
  }

  /** Row `i` of `m` dotted with row `j`. */
  function RowDot(m: Mat3, i: nat, j: nat): real
    requires i < 3 && j < 3
  {
    m[3 * i] * m[3 * j] + m[3 * i + 1] * m[3 * j + 1] + m[3 * i + 2] * m[3 * j + 2]
  }

  /** Column `i` of `m` dotted with column `j`. */
  function ColumnDot(m: Mat3, i: nat, j: nat): real
    requires i < 3 && j < 3
  {
    m[i] * m[j] + m[3 + i] * m[3 + j] + m[6 + i] * m[6 + j]
  }

  /** The rows of `m` are orthonormal. */
  predicate OrthonormalRows(m: Mat3)
  {
    RowDot(m, 0, 0) == 1.0 && RowDot(m, 1, 1) == 1.0 && RowDot(m, 2, 2) == 1.0
    && RowDot(m, 0, 1) == 0.0 && RowDot(m, 0, 2) == 0.0 && RowDot(m, 1, 2) == 0.0
  }

  /** The columns of `m` are orthonormal. */
  predicate OrthonormalColumns(m: Mat3)
  {
    ColumnDot(m, 0, 0) == 1.0 && ColumnDot(m, 1, 1) == 1.0 && ColumnDot(m, 2, 2) == 1.0
    && ColumnDot(m, 0, 1) == 0.0 && ColumnDot(m, 0, 2) == 0.0 && ColumnDot(m, 1, 2) == 0.0
  }

  /** Orthonormal rows make the transpose a right inverse. */
  lemma RightInverse(m: Mat3)
    requires OrthonormalRows(m)
    ensures Mul(m, Transpose(m)) == Identity
  {
    var p := Mul(m, Transpose(m));
    RightProductRow0(m);
    RightProductRow1(m);
    RightProductRow2(m);
    assert p[0] == 1.0 && p[1] == 0.0 && p[2] == 0.0;
    assert p[3] == 0.0 && p[4] == 1.0 && p[5] == 0.0;
    assert p[6] == 0.0 && p[7] == 0.0 && p[8] == 1.0;
  }

  /** Orthonormal columns make the transpose a left inverse. */
  lemma LeftInverse(m: Mat3)
    requires OrthonormalColumns(m)
    ensures Mul(Transpose(m), m) == Identity
  {
    var q := Mul(Transpose(m), m);
    LeftProductRow0(m);
    LeftProductRow1(m);
    LeftProductRow2(m);
    assert q[0] == 1.0 && q[1] == 0.0 && q[2] == 0.0;
    assert q[3] == 0.0 && q[4] == 1.0 && q[5] == 0.0;
    assert q[6] == 0.0 && q[7] == 0.0 && q[8] == 1.0;
  }

  /** Row 0 of `m` times its transpose holds the dot products of rows 0 and each other. */
  lemma RightProductRow0(m: Mat3)
    ensures var p := Mul(m, Transpose(m));
      p[0] == RowDot(m, 0, 0) && p[1] == RowDot(m, 0, 1) && p[2] == RowDot(m, 0, 2)
  {
  }

  /** Row 1 of `m` times its transpose holds the dot products of rows 1 and each other. */
  lemma RightProductRow1(m: Mat3)
    ensures var p := Mul(m, Transpose(m));
      p[3] == RowDot(m, 0, 1) && p[4] == RowDot(m, 1, 1) && p[5] == RowDot(m, 1, 2)
  {
  }

  /** Row 2 of `m` times its transpose holds the dot products of rows 2 and each other. */
  lemma RightProductRow2(m: Mat3)
    ensures var p := Mul(m, Transpose(m));
      p[6] == RowDot(m, 0, 2) && p[7] == RowDot(m, 1, 2) && p[8] == RowDot(m, 2, 2)
  {
  }

  /** Row 0 of the transpose of `m` times `m` holds the dot products of columns 0 and each other. */
  lemma LeftProductRow0(m: Mat3)
    ensures var p := Mul(Transpose(m), m);
      p[0] == ColumnDot(m, 0, 0) && p[1] == ColumnDot(m, 0, 1) && p[2] == ColumnDot(m, 0, 2)
  {
  }

  /** Row 1 of the transpose of `m` times `m` holds the dot products of columns 1 and each other. */
  lemma LeftProductRow1(m: Mat3)
    ensures var p := Mul(Transpose(m), m);
      p[3] == ColumnDot(m, 0, 1) && p[4] == ColumnDot(m, 1, 1) && p[5] == ColumnDot(m, 1, 2)
  {
  }

  /** Row 2 of the transpose of `m` times `m` holds the dot products of columns 2 and each other. */
  lemma LeftProductRow2(m: Mat3)
    ensures var p := Mul(Transpose(m), m);
      p[6] == ColumnDot(m, 0, 2) && p[7] == ColumnDot(m, 1, 2) && p[8] == ColumnDot(m, 2, 2)
  {
  }

  /**
   * The transpose of an Euler rotation matrix is its inverse on both sides, which is what
   * caching `tRotation` as the inverse rotation relies on.
   */
  lemma TransposeIsInverse(t: Trig, roll: real, pitch: real, yaw: real)
    requires Pythagorean(t, roll) && Pythagorean(t, pitch) && Pythagorean(t, yaw)
    ensures var r := FromEulerAngles(t, roll, pitch, yaw);
            Mul(r, Transpose(r)) == Identity && Mul(Transpose(r), r) == Identity
  {
    var r := FromEulerAngles(t, roll, pitch, yaw);
    EulerOrthonormal(t, roll, pitch, yaw);
    RightInverse(r);
    LeftInverse(r);
  }

  /** The rows and the columns of an Euler rotation matrix are orthonormal. */
  lemma EulerOrthonormal(t: Trig, roll: real, pitch: real, yaw: real)
    requires Pythagorean(t, roll) && Pythagorean(t, pitch) && Pythagorean(t, yaw)
    ensures OrthonormalRows(FromEulerAngles(t, roll, pitch, yaw)) && OrthonormalColumns(FromEulerAngles(t, roll, pitch, yaw))
  {
    EulerMatrixOrthonormal(t.sin(roll), t.cos(roll), t.sin(pitch), t.cos(pitch), t.sin(yaw), t.cos(yaw));
  }

  /** The same over the sines and cosines themselves. */
  lemma EulerMatrixOrthonormal(sr: real, cr: real, sp: real, cp: real, sy: real, cy: real)
    requires UnitCircle(sr, cr, sp, cp, sy, cy)
    ensures OrthonormalRows(EulerMatrix(sr, cr, sp, cp, sy, cy)) && OrthonormalColumns(EulerMatrix(sr, cr, sp, cp, sy, cy))
  {
    var m := EulerMatrix(sr, cr, sp, cp, sy, cy);
    assert EulerEntries(m, sr, cr, sp, cp, sy, cy);
    EulerRowsOrthonormal(m, sr, cr, sp, cp, sy, cy);
    EulerColumnsOrthonormal(m, sr, cr, sp, cp, sy, cy);
  }

}
