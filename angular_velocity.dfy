/**
 * `AngularVelocity`: a 3x3 skew-symmetric matrix built from roll, pitch and yaw rates
 * (radians per second), and the getters that read the rates back out of it.
 */
module AngularVelocities {
  import opened Matrices

  datatype AngularVelocity = AngularVelocity(matrix: Mat3)
  {
    /** `getRollVelocity()` as written: entry (0, 2), which holds the pitch rate. */
    function RollVelocityAsWritten(): real
    {
      At(matrix, 0, 2)
    }

    /** `getPitchVelocity()` as written: minus entry (1, 2), which holds the roll rate. */
    function PitchVelocityAsWritten(): real
    {
      -At(matrix, 1, 2)
    }

    /** The roll rate `wx`, stored at entry (2, 1) and negated at entry (1, 2). */
    function RollVelocity(): real
    {
      -At(matrix, 1, 2)
    }

    /** The pitch rate `wy`, stored at entry (0, 2) and negated at entry (2, 0). */
    function PitchVelocity(): real
    {
      At(matrix, 0, 2)
    }

    /** `getYawVelocity()`: minus entry (0, 1), the yaw rate `wz`. */
    function YawVelocity(): real
    {
      -At(matrix, 0, 1)
    }
  }

  /** A matrix is skew-symmetric: its transpose is its negation, so its diagonal is zero. */
  predicate IsSkew(m: Mat3)
  {
    forall i: nat, j: nat :: i < 3 && j < 3 ==> At(m, i, j) == -At(m, j, i)
  }

  /** `skewMatFromAngVel(wx, wy, wz)`: the cross-product matrix of the rate vector. */
  function SkewMatFromAngVel(wx: real, wy: real, wz: real): (m: Mat3)
    ensures IsSkew(m)
    ensures forall i: nat :: i < 3 ==> At(m, i, i) == 0.0
  {
    var m: Mat3 := [0.0, -wz, wy, wz, 0.0, -wx, -wy, wx, 0.0];
    SkewFromEntries(m);
    m
  }

  /** The six entry equations of a skew-symmetric matrix give every `(i, j)` pair. */
  lemma SkewFromEntries(m: Mat3)
    requires m[0] == 0.0 && m[4] == 0.0 && m[8] == 0.0 && m[1] == -m[3] && m[2] == -m[6] && m[5] == -m[7]
    ensures IsSkew(m)
    ensures forall i: nat :: i < 3 ==> At(m, i, i) == 0.0
  {
    forall i: nat, j: nat | i < 3 && j < 3
      ensures At(m, i, j) == -At(m, j, i)
    {
      assert i == 0 || i == 1 || i == 2;
      assert j == 0 || j == 1 || j == 2;
    }
    forall i: nat | i < 3
      ensures At(m, i, i) == 0.0
    {
      assert i == 0 || i == 1 || i == 2;
    }
  }

  /** `AngularVelocity(rollVel, pitchVel, yawVel)`. */
  function FromRates(rollVel: real, pitchVel: real, yawVel: real): AngularVelocity
  {
    AngularVelocity(SkewMatFromAngVel(rollVel, pitchVel, yawVel))
  }

  /** No rotation gives the zero matrix. */
  lemma SkewOfZero()
    ensures SkewMatFromAngVel(0.0, 0.0, 0.0) == Zero
  {
  }

  /** The skew matrix is linear in the rate vector. */
  lemma SkewLinear(wx: real, wy: real, wz: real, vx: real, vy: real, vz: real, k: real)
    ensures SkewMatFromAngVel(wx + vx, wy + vy, wz + vz)
            == Add(SkewMatFromAngVel(wx, wy, wz), SkewMatFromAngVel(vx, vy, vz))
    ensures SkewMatFromAngVel(k * wx, k * wy, k * wz) == Scale(k, SkewMatFromAngVel(wx, wy, wz))
  {
    var s, t := SkewMatFromAngVel(wx + vx, wy + vy, wz + vz), Add(SkewMatFromAngVel(wx, wy, wz), SkewMatFromAngVel(vx, vy, vz));
    assert s[0] == t[0] && s[1] == t[1] && s[2] == t[2] && s[3] == t[3] && s[4] == t[4]
      && s[5] == t[5] && s[6] == t[6] && s[7] == t[7] && s[8] == t[8];
    var u, v := SkewMatFromAngVel(k * wx, k * wy, k * wz), Scale(k, SkewMatFromAngVel(wx, wy, wz));
    assert u[0] == v[0] && u[1] == v[1] && u[2] == v[2] && u[3] == v[3] && u[4] == v[4]
      && u[5] == v[5] && u[6] == v[6] && u[7] == v[7] && u[8] == v[8];
  }

  /** Reading back the rates a velocity was built from. */
  lemma RatesRoundTrip(rollVel: real, pitchVel: real, yawVel: real)
    ensures FromRates(rollVel, pitchVel, yawVel).RollVelocity() == rollVel
    ensures FromRates(rollVel, pitchVel, yawVel).PitchVelocity() == pitchVel
    ensures FromRates(rollVel, pitchVel, yawVel).YawVelocity() == yawVel
  {
  }

  /**
   * The matrix constructors take any skew-symmetric matrix, and that matrix is the one
   * built back from the rates read out of it.
   */
  lemma SkewMatrixRoundTrip(m: Mat3)
    requires IsSkew(m)
    ensures FromRates(AngularVelocity(m).RollVelocity(), AngularVelocity(m).PitchVelocity(),
                      AngularVelocity(m).YawVelocity()).matrix == m
  {
    assert At(m, 0, 0) == -At(m, 0, 0) && At(m, 1, 1) == -At(m, 1, 1) && At(m, 2, 2) == -At(m, 2, 2);
    assert At(m, 1, 0) == -At(m, 0, 1) && At(m, 2, 0) == -At(m, 0, 2) && At(m, 2, 1) == -At(m, 1, 2);
    var r := FromRates(AngularVelocity(m).RollVelocity(), AngularVelocity(m).PitchVelocity(),
                       AngularVelocity(m).YawVelocity()).matrix;
    assert r[0] == m[0] && r[1] == m[1] && r[2] == m[2] && r[3] == m[3] && r[4] == m[4]
      && r[5] == m[5] && r[6] == m[6] && r[7] == m[7] && r[8] == m[8];
  }

  /** The getters as written return the pitch rate for roll and the roll rate for pitch. */
  lemma GettersAsWrittenSwapped(rollVel: real, pitchVel: real, yawVel: real)
    ensures FromRates(rollVel, pitchVel, yawVel).RollVelocityAsWritten() == pitchVel
    ensures FromRates(rollVel, pitchVel, yawVel).PitchVelocityAsWritten() == rollVel
  {
  }

  /** A pure roll at one radian per second reads back a roll rate of zero. */
  lemma GettersAsWrittenCounterexample()
    ensures FromRates(1.0, 0.0, 0.0).RollVelocityAsWritten() == 0.0
    ensures FromRates(1.0, 0.0, 0.0).PitchVelocityAsWritten() == 1.0
  {
  }
}
