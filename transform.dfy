/**
 * `Transform`: a frame-to-frame transformation with translation, translational velocity and
 * acceleration, a rotation matrix with its cached transpose, an angular-velocity skew matrix,
 * and a cached `dynamic` flag saying whether any derivative is non-zero.
 *
 * The header's inline mutators are modelled as methods of the class `Transform`; each is
 * specified by a function on `TransformState`, the value of all the fields, and the cache
 * properties are proved about those functions.
 */
module Transforms {
  import opened RealArith
  import opened Matrices
  import opened AngularVelocities
  import opened Orientations
  import opened Positions

  /** The tolerance `checkDynamic` passes to `compareFloatClose`. */
  const DYNAMIC_EPSILON: real := 0.00001

  /** `DynamicPosition`: a position with its velocity and acceleration. */
  datatype DynamicPosition = DynamicPosition(position: Vec3, velocity: Vec3, acceleration: Vec3)

  /** `DynamicOrientation`: a rotation matrix with its angular-velocity skew matrix. */
  datatype DynamicOrientation = DynamicOrientation(orientation: Mat3, angularVelocity: Mat3)

  predicate NearZero(x: real)
  {
    CompareFloatClose(x, 0.0, DYNAMIC_EPSILON)
  }

  predicate AllNearZero(v: Vec3)
  {
    NearZero(v[0]) && NearZero(v[1]) && NearZero(v[2])
  }

  /** The three rotation rates of an angular-velocity matrix are close to zero. */
  predicate RatesNearZero(angVel: Mat3)
  {
    var w := AngularVelocity(angVel);
    NearZero(w.RollVelocity()) && NearZero(w.PitchVelocity()) && NearZero(w.YawVelocity())
  }

  /** What `checkDynamic` computes: some velocity, acceleration or rate is not close to zero. */
  predicate DynamicFormula(transVel: Vec3, transAcc: Vec3, angVel: Mat3)
  {
    !AllNearZero(transVel) || !AllNearZero(transAcc) || !RatesNearZero(angVel)
  }

  /** Some reading is at least `DYNAMIC_EPSILON` away from zero, stated reading by reading. */
  predicate SomeReadingMoves(transVel: Vec3, transAcc: Vec3, angVel: Mat3)
  {
    (exists i :: 0 <= i < 3 && Abs(transVel[i]) >= DYNAMIC_EPSILON)
    || (exists i :: 0 <= i < 3 && Abs(transAcc[i]) >= DYNAMIC_EPSILON)
    || Abs(-At(angVel, 1, 2)) >= DYNAMIC_EPSILON || Abs(At(angVel, 0, 2)) >= DYNAMIC_EPSILON
    || Abs(-At(angVel, 0, 1)) >= DYNAMIC_EPSILON
  }

  /** The values of all of a `Transform`'s fields. */
  datatype TransformState = TransformState(
    dynamic: bool, translation: Vec3, transVel: Vec3, transAcc: Vec3,
    rotation: Mat3, tRotation: Mat3, angVel: Mat3)
  {
    /** `tRotation` holds the transpose of `rotation`. */
    predicate RotationCached()
    {
      tRotation == Transpose(rotation)
    }

    /** `dynamic` agrees with what `checkDynamic` would compute now. */
    predicate DynamicCached()
    {
      dynamic == DynamicFormula(transVel, transAcc, angVel)
    }

    predicate Valid()
    {
      RotationCached() && DynamicCached()
    }
  }

  /** The state after `checkDynamic()`. */
  function Refreshed(s: TransformState): (r: TransformState)
    ensures r.DynamicCached()
    ensures r.(dynamic := s.dynamic) == s
  {
    s.(dynamic := DynamicFormula(s.transVel, s.transAcc, s.angVel))
  }

  /** The state after `updateTranslation(Position)` and `updateTranslation(x, y, z)`. */
  function WithTranslation(s: TransformState, translation: Vec3): TransformState
  {
    s.(translation := translation)
  }

  /** The state after `updateTranslation(DynamicPosition)` as written, without `checkDynamic`. */
  function WithDynamicTranslationAsWritten(s: TransformState, p: DynamicPosition): TransformState
  {
    s.(translation := p.position, transVel := p.velocity, transAcc := p.acceleration)
  }

  /** `updateTranslation(DynamicPosition)` refreshing `dynamic`, as the other derivative setters do. */
  function WithDynamicTranslation(s: TransformState, p: DynamicPosition): TransformState
  {
    Refreshed(WithDynamicTranslationAsWritten(s, p))
  }

  /** The state after `updateRotation(Orientation)` and `updateRotation(roll, pitch, yaw)`. */
  function WithRotation(s: TransformState, rotation: Mat3): TransformState
  {
    s.(rotation := rotation, tRotation := Transpose(rotation))
  }

  /** The state after `updateRotation(DynamicOrientation)` as written, without `checkDynamic`. */
  function WithDynamicRotationAsWritten(s: TransformState, o: DynamicOrientation): TransformState
  {
    s.(rotation := o.orientation, tRotation := Transpose(o.orientation), angVel := o.angularVelocity)
  }

  /** `updateRotation(DynamicOrientation)` refreshing `dynamic`. */
  function WithDynamicRotation(s: TransformState, o: DynamicOrientation): TransformState
  {
    Refreshed(WithDynamicRotationAsWritten(s, o))
  }

  /** The state after `updateVelocity` (every overload). */
  function WithVelocity(s: TransformState, v: Vec3): TransformState
  {
    Refreshed(s.(transVel := v))
  }

  /** The state after the `Vector` overloads of `updateAcceleration` as written: they set `transVel`. */
  function WithAccelerationAsWritten(s: TransformState, a: Vec3): TransformState
  {
    Refreshed(s.(transVel := a))
  }

  /** The state after `updateAcceleration(ax, ay, az)`, and what every overload is documented to do. */
  function WithAcceleration(s: TransformState, a: Vec3): TransformState
  {
    Refreshed(s.(transAcc := a))
  }

  /** The state after `updateAngularVelocity` (every overload). */
  function WithAngularVelocity(s: TransformState, vr: real, vp: real, vy: real): TransformState
  {
    Refreshed(s.(angVel := SkewMatFromAngVel(vr, vp, vy)))
  }

  /** `checkDynamic`'s flag is set exactly when some reading moves by at least the tolerance. */
  lemma DynamicMeansSomeReadingMoves(transVel: Vec3, transAcc: Vec3, angVel: Mat3)
    ensures DynamicFormula(transVel, transAcc, angVel) <==> SomeReadingMoves(transVel, transAcc, angVel)
  {
    if !AllNearZero(transVel) {
      var i :| 0 <= i < 3 && !NearZero(transVel[i]);
      assert transVel[i] - 0.0 == transVel[i];
    }
    if !AllNearZero(transAcc) {
      var i :| 0 <= i < 3 && !NearZero(transAcc[i]);
      assert transAcc[i] - 0.0 == transAcc[i];
    }
  }

  /** Every update with a `checkDynamic` call, and every rotation update, keeps both caches. */
  lemma UpdatesPreserveValid(s: TransformState, translation: Vec3, rotation: Mat3, v: Vec3,
                             p: DynamicPosition, o: DynamicOrientation, vr: real, vp: real, vy: real)
    requires s.Valid()
    ensures WithTranslation(s, translation).Valid()
    ensures WithRotation(s, rotation).Valid()
    ensures WithVelocity(s, v).Valid()
    ensures WithAcceleration(s, v).Valid()
    ensures WithAngularVelocity(s, vr, vp, vy).Valid()
    ensures WithDynamicTranslation(s, p).Valid()
    ensures WithDynamicRotation(s, o).Valid()
  {
  }

  /** Every `updateRotation` overload leaves `tRotation` the transpose of `rotation`, even as written. */
  lemma RotationUpdatesCacheTranspose(s: TransformState, rotation: Mat3, o: DynamicOrientation)
    ensures WithRotation(s, rotation).RotationCached()
    ensures WithDynamicRotationAsWritten(s, o).RotationCached()
    ensures WithDynamicRotation(s, o).RotationCached()
  {
  }

  /**
   * `updateVelocity` sets `transVel` and nothing else but `dynamic`, which afterwards holds
   * exactly when some reading moves.
   */
  lemma VelocityUpdate(s: TransformState, v: Vec3)
    ensures WithVelocity(s, v).transVel == v
    ensures WithVelocity(s, v) == s.(transVel := v, dynamic := WithVelocity(s, v).dynamic)
    ensures WithVelocity(s, v).dynamic <==> SomeReadingMoves(v, s.transAcc, s.angVel)
  {
    DynamicMeansSomeReadingMoves(v, s.transAcc, s.angVel);
  }

  /** `updateAcceleration` as documented sets `transAcc` and leaves `transVel` alone. */
  lemma AccelerationUpdate(s: TransformState, a: Vec3)
    ensures WithAcceleration(s, a).transAcc == a
    ensures WithAcceleration(s, a) == s.(transAcc := a, dynamic := WithAcceleration(s, a).dynamic)
    ensures WithAcceleration(s, a).dynamic <==> SomeReadingMoves(s.transVel, a, s.angVel)
  {
    DynamicMeansSomeReadingMoves(s.transVel, a, s.angVel);
  }

  /** The `Vector` overloads as written overwrite the velocity and keep the old acceleration. */
  lemma AccelerationAsWrittenOverwritesVelocity(s: TransformState, a: Vec3)
    ensures WithAccelerationAsWritten(s, a).transVel == a
    ensures WithAccelerationAsWritten(s, a).transAcc == s.transAcc
  {
  }

  /** `updateAngularVelocity` stores a skew-symmetric matrix holding the three rates. */
  lemma AngularVelocityUpdate(s: TransformState, vr: real, vp: real, vy: real)
    ensures IsSkew(WithAngularVelocity(s, vr, vp, vy).angVel)
    ensures AngularVelocity(WithAngularVelocity(s, vr, vp, vy).angVel).RollVelocity() == vr
    ensures AngularVelocity(WithAngularVelocity(s, vr, vp, vy).angVel).PitchVelocity() == vp
    ensures AngularVelocity(WithAngularVelocity(s, vr, vp, vy).angVel).YawVelocity() == vy
    ensures WithAngularVelocity(s, vr, vp, vy).dynamic
            <==> SomeReadingMoves(s.transVel, s.transAcc, SkewMatFromAngVel(vr, vp, vy))
  {
    DynamicMeansSomeReadingMoves(s.transVel, s.transAcc, SkewMatFromAngVel(vr, vp, vy));
  }

  /** A transform at rest: zero translation, derivatives and rotation rates, identity rotation. */
  const AtRest: TransformState :=
    TransformState(false, [0.0, 0.0, 0.0], [0.0, 0.0, 0.0], [0.0, 0.0, 0.0], Identity, Identity, Zero)

  /** Setting a moving dynamic position on a transform at rest leaves `dynamic` false. */
  lemma DynamicTranslationAsWrittenStale()
    ensures AtRest.Valid()
    ensures var r := WithDynamicTranslationAsWritten(AtRest, DynamicPosition([0.0, 0.0, 0.0], [1.0, 0.0, 0.0], [0.0, 0.0, 0.0]));
            !r.dynamic && !r.DynamicCached()
  {
    assert Transpose(Identity) == Identity;
    var r := WithDynamicTranslationAsWritten(AtRest, DynamicPosition([0.0, 0.0, 0.0], [1.0, 0.0, 0.0], [0.0, 0.0, 0.0]));
    assert !NearZero(r.transVel[0]);
  }

  /** Setting a spinning dynamic orientation on a transform at rest leaves `dynamic` false. */
  lemma DynamicRotationAsWrittenStale()
    ensures AtRest.Valid()
    ensures var r := WithDynamicRotationAsWritten(AtRest, DynamicOrientation(Identity, SkewMatFromAngVel(0.0, 0.0, 1.0)));
            !r.dynamic && !r.DynamicCached()
  {
    assert Transpose(Identity) == Identity;
    var r := WithDynamicRotationAsWritten(AtRest, DynamicOrientation(Identity, SkewMatFromAngVel(0.0, 0.0, 1.0)));
    assert !NearZero(AngularVelocity(r.angVel).YawVelocity());
  }

  /** The corrected dynamic setters leave `dynamic` true in the same two situations. */
  lemma DynamicSettersRefresh()
    ensures WithDynamicTranslation(AtRest, DynamicPosition([0.0, 0.0, 0.0], [1.0, 0.0, 0.0], [0.0, 0.0, 0.0])).dynamic
    ensures WithDynamicRotation(AtRest, DynamicOrientation(Identity, SkewMatFromAngVel(0.0, 0.0, 1.0))).dynamic
  {
    var r := WithDynamicTranslationAsWritten(AtRest, DynamicPosition([0.0, 0.0, 0.0], [1.0, 0.0, 0.0], [0.0, 0.0, 0.0]));
    assert !NearZero(r.transVel[0]);
    var q := WithDynamicRotationAsWritten(AtRest, DynamicOrientation(Identity, SkewMatFromAngVel(0.0, 0.0, 1.0)));
    assert !NearZero(AngularVelocity(q.angVel).YawVelocity());
  }

  class Transform {
    var dynamic: bool
    var translation: Vec3
    var transVel: Vec3
    var transAcc: Vec3
    var rotation: Mat3
    var tRotation: Mat3
    var angVel: Mat3

    function State(): TransformState
      reads this
    {
      TransformState(dynamic, translation, transVel, transAcc, rotation, tRotation, angVel)
    }

    /**
     * A transform from its translation with derivatives and its rotation with angular
     * velocity, with both caches computed.
     */
    constructor (p: DynamicPosition, o: DynamicOrientation)
      ensures State() == Refreshed(TransformState(true, p.position, p.velocity, p.acceleration,
                                                  o.orientation, Transpose(o.orientation), o.angularVelocity))
      ensures State().Valid()
    {
      dynamic := true;
      translation, transVel, transAcc := p.position, p.velocity, p.acceleration;
      rotation, angVel := o.orientation, o.angularVelocity;
      tRotation := Transpose(o.orientation);
      new;
      CheckDynamic();
    }

    /** `checkDynamic()`: clears `dynamic`, then ORs in each group of readings. */
    method CheckDynamic()
      modifies this
      ensures State() == Refreshed(old(State()))
    {
      dynamic := false;
      dynamic := dynamic || !(NearZero(transVel[0]) && NearZero(transVel[1]) && NearZero(transVel[2]));
      dynamic := dynamic || !(NearZero(transAcc[0]) && NearZero(transAcc[1]) && NearZero(transAcc[2]));
      var w := AngularVelocity(angVel);
      dynamic := dynamic || !(NearZero(w.RollVelocity()) && NearZero(w.PitchVelocity()) && NearZero(w.YawVelocity()));
    }

    /** `updateTranslation(Position)`. */
    method UpdateTranslation(p: Position)
      modifies this
      ensures State() == WithTranslation(old(State()), p.coordinates)
    {
      translation := p.coordinates;
    }

    /** `updateTranslation(x, y, z)`: afterwards `getX/getY/getZ` return x, y and z. */
    method UpdateTranslationXYZ(x: real, y: real, z: real)
      modifies this
      ensures State() == WithTranslation(old(State()), [x, y, z])
      ensures GetX() == x && GetY() == y && GetZ() == z
    {
      translation := [x, y, z];
    }

    /** `updateTranslation(DynamicPosition)` as written. */
    method UpdateTranslationDynamicAsWritten(p: DynamicPosition)
      modifies this
      ensures State() == WithDynamicTranslationAsWritten(old(State()), p)
    {
      translation, transVel, transAcc := p.position, p.velocity, p.acceleration;
    }

    /** `updateTranslation(DynamicPosition)` followed by `checkDynamic()`. */
    method UpdateTranslationDynamic(p: DynamicPosition)
      modifies this
      ensures State() == WithDynamicTranslation(old(State()), p)
    {
      translation, transVel, transAcc := p.position, p.velocity, p.acceleration;
      CheckDynamic();
    }

    /** `updateRotation(Orientation)`. */
    method UpdateRotation(o: Orientation)
      modifies this
      ensures State() == WithRotation(old(State()), o.matrix)
    {
      rotation := o.matrix;
      tRotation := Transpose(rotation);
    }

    /** `updateRotation(roll, pitch, yaw)`. */
    method UpdateRotationEuler(t: Trig, roll: real, pitch: real, yaw: real)
      modifies this
      ensures State() == WithRotation(old(State()), FromEulerAngles(t, roll, pitch, yaw))
    {
      rotation := FromAngles(t, roll, pitch, yaw).matrix;
      tRotation := Transpose(rotation);
    }

    /** `updateRotation(DynamicOrientation)` as written. */
    method UpdateRotationDynamicAsWritten(o: DynamicOrientation)
      modifies this
      ensures State() == WithDynamicRotationAsWritten(old(State()), o)
    {
      rotation := o.orientation;
      tRotation := Transpose(rotation);
      angVel := o.angularVelocity;
    }

    /** `updateRotation(DynamicOrientation)` followed by `checkDynamic()`. */
    method UpdateRotationDynamic(o: DynamicOrientation)
      modifies this
      ensures State() == WithDynamicRotation(old(State()), o)
    {
      rotation := o.orientation;
      tRotation := Transpose(rotation);
      angVel := o.angularVelocity;
      CheckDynamic();
    }

    /** `updateVelocity(Vector)`. */
    method UpdateVelocity(v: Vec3)
      modifies this
      ensures State() == WithVelocity(old(State()), v)
    {
      transVel := v;
      CheckDynamic();
    }

    /** `updateVelocity(vx, vy, vz)`. */
    method UpdateVelocityXYZ(vx: real, vy: real, vz: real)
      modifies this
      ensures State() == WithVelocity(old(State()), [vx, vy, vz])
    {
      transVel := [vx, vy, vz];
      CheckDynamic();
    }

    /** The `Vector` overloads of `updateAcceleration` as written. */
    method UpdateAccelerationAsWritten(a: Vec3)
      modifies this
      ensures State() == WithAccelerationAsWritten(old(State()), a)
    {
      transVel := a;
      CheckDynamic();
    }

    /** `updateAcceleration(Vector)` as documented. */
    method UpdateAcceleration(a: Vec3)
      modifies this
      ensures State() == WithAcceleration(old(State()), a)
    {
      transAcc := a;
      CheckDynamic();
    }

    /** `updateAcceleration(ax, ay, az)`. */
    method UpdateAccelerationXYZ(ax: real, ay: real, az: real)
      modifies this
      ensures State() == WithAcceleration(old(State()), [ax, ay, az])
    {
      transAcc := [ax, ay, az];
      CheckDynamic();
    }

    /** `updateAngularVelocity(Vector)` and `updateAngularVelocity(Position&&)`. */
    method UpdateAngularVelocity(v: Vec3)
      modifies this
      ensures State() == WithAngularVelocity(old(State()), v[0], v[1], v[2])
    {
      angVel := SkewMatFromAngVel(v[0], v[1], v[2]);
      CheckDynamic();
    }

    /** `updateAngularVelocity(vr, vp, vy)`. */
    method UpdateAngularVelocityXYZ(vr: real, vp: real, vy: real)
      modifies this
      ensures State() == WithAngularVelocity(old(State()), vr, vp, vy)
    {
      angVel := SkewMatFromAngVel(vr, vp, vy);
      CheckDynamic();
    }

    function GetTranslation(): Position
      reads this
    {
      Position(translation)
    }

    function GetVelocity(): Vec3
      reads this
    {
      transVel
    }

    function GetAcceleration(): Vec3
      reads this
    {
      transAcc
    }

    /** `getDynamicTranslation`: the position, velocity and acceleration the single getters return. */
    function GetDynamicTranslation(): (p: DynamicPosition)
      reads this
      ensures p.position == GetTranslation().coordinates
      ensures p.velocity == GetVelocity() && p.acceleration == GetAcceleration()
    {
      DynamicPosition(translation, transVel, transAcc)
    }

    function GetRotation(): Orientation
      reads this
    {
      Orientation(rotation)
    }

    /** `getDynamicOrientation`: the rotation `getRotation` returns, with the angular velocity. */
    function GetDynamicOrientation(): (o: DynamicOrientation)
      reads this
      ensures o.orientation == GetRotation().matrix && o.angularVelocity == angVel
    {
      DynamicOrientation(rotation, angVel)
    }

    /** `getX`: the coordinate `getTranslation().x()` reads. */
    function GetX(): (c: real)
      reads this
      ensures c == GetTranslation().X()
    {
      translation[0]
    }

    /** `getY`: the coordinate `getTranslation().y()` reads. */
    function GetY(): (c: real)
      reads this
      ensures c == GetTranslation().Y()
    {
      translation[1]
    }

    /** `getZ`: the coordinate `getTranslation().z()` reads. */
    function GetZ(): (c: real)
      reads this
      ensures c == GetTranslation().Z()
    {
      translation[2]
    }

    function GetXVel(): real
      reads this
    {
      transVel[0]
    }

    function GetYVel(): real
      reads this
    {
      transVel[1]
    }

    function GetZVel(): real
      reads this
    {
      transVel[2]
    }

    function GetXAcc(): real
      reads this
    {
      transAcc[0]
    }

    function GetYAcc(): real
      reads this
    {
      transAcc[1]
    }

    function GetZAcc(): real
      reads this
    {
      transAcc[2]
    }

    /** `isDynamic`: on a consistent transform, whether some velocity, acceleration or rate is at least the tolerance away from zero. */
    function IsDynamic(): (d: bool)
      reads this
      ensures State().Valid() ==> (d <==> SomeReadingMoves(transVel, transAcc, angVel))
    {
      DynamicMeansSomeReadingMoves(transVel, transAcc, angVel);
      dynamic
    }
  }
}
