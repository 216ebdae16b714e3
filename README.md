# Taproot core, modelled in Dafny

This project models the core of Taproot, the control library for RoboMaster robots, together with
the parts of the 2019-2020 robot project and the test project's build scripts that use it. It
covers:

- `WrappedFloat`, a value kept in a window `[lowerBound, upperBound)`: wrapping, arithmetic,
  `minDifference`, `minInterpolate`, `limitValue`, `withinRange` and `rangeOverlap`; the
  `Angle` window `[0, 2π)` (`wrapped_float.dfy`, `wrapped_float_ranges.dfy`).
- The transform library: 3x3 matrices, angular velocities and their skew matrices, orientations
  built from Euler angles, positions, and the `Transform` object. The object keeps a translation, a
  rotation with its cached transpose, velocities and accelerations, and a `dynamic` flag
  (`matrices.dfy`, `angular_velocity.dfy`, `orientation.dfy`, `position.dfy`, `transform.dfy`).
- The wrapped linear interpolation predictor and the ballistic projection formula
  (`interpolation_predictor.dfy`, `ballistics.dfy`).
- The referee-system serial decoder. It covers the little-endian field decoding, every integer
  message decoder, the received-damage tracker, the robot-id team mapping, the robot-to-robot
  message handlers, the graphic-message wait times and the operator-blind rule
  (`byte_codec.dfy`, `ref_serial_data.dfy`, `damage_tracker.dfy`, `ref_serial.dfy`).
- `SequentialCommand` and `CalibrateCommand` from the command framework
  (`sequential_command.dfy`, `calibrate_command.dfy`).
- The DJI motor transmit handler's motor stores and frame routing (`dji_motor_tx_handler.dfy`).
- The SH1107 display's bit-matrix rotation (`sh1107_rotation.dfy`).
- The hosted motor simulator (`motor_sim.dfy`).
- The SCons build-argument parser (`parse_args.dfy`).
- Shared helpers: `Option`, real arithmetic, and fixed-width integers with explicit
  wrap-around (`wrappers.dfy`, `real_arith.dfy`, `fixed_width.dfy`).

The code's form is kept:
- Objects whose methods update fields are classes with `modifies` clauses.
- Fixed-size buffers and the display matrices are arrays.
- Loops are `while`/`for` loops with invariants.
- Each method is tied to a specification function, and the properties are proved about that
  function.

Floats are exact reals, so there is no rounding. Integer widths are written out: `uint32_t`
subtraction wraps, conversions to `int16_t` keep the value modulo 2^16, and the C++ `%` truncates toward zero. The clock,
the serial and CAN drivers, sub-commands, subsystems and trigonometric functions are not called.
Their answers are parameters.

Where a natural contract could not be proved of the code as written, the model keeps that code
under an `AsWritten` name, proves a counterexample about it, and builds the rest on the corrected
definition. These cases are listed under "Findings".

## Model

| member | source | states |
|---|---|---|
| WrappedFloats.Wrap | src/tap/algorithms/wrapped_float.cpp:124-136 | wrapping puts the value in `[lowerBound, upperBound)`, keeps the bounds and the unwrapped value, and leaves a value already in the window alone |
| WrappedFloats.WrapPreservesValue | src/tap/algorithms/wrapped_float.cpp:124-136 | the wrapped residue lies in the window, the revolution step `floor((v - lower) / interval)` exactly makes up for the change, and both are trivial inside the window |
| WrappedFloats.WrapAsWritten | src/tap/algorithms/wrapped_float.cpp:124-136 | `wrapValue` as written, with the `fmodf` branches and the `floor` revolution step; `WrapAsWrittenEdge` states exactly where it leaves the window |
| WrappedFloats.WrapAsWrittenEdge | src/tap/algorithms/wrapped_float.cpp:127-130 | the source's wrap differs from the corrected one exactly when the value is below the window by a whole number of intervals; it then stores `upperBound` and reads one interval too high |
| WrappedFloats.WrapAsWrittenCounterexample | src/tap/algorithms/wrapped_float.cpp:127-135 | -10 in [0, 10) with 0 revolutions wraps to 10 with -1 revolutions (unwrapped 0, not -10); the corrected wrap gives 0 with -1 revolutions |
| WrappedFloats.Make | src/tap/algorithms/wrapped_float.cpp:26-34 | the constructor gives a value in the window with the given bounds whose unwrapped value is the argument; an argument inside the window is stored as is |
| WrappedFloats.Wrapped.Unwrapped | src/tap/algorithms/wrapped_float.hpp:282-285 | `getUnwrappedValue`: the wrapped value plus the interval times the revolutions; `Wrap` and every operator keep it (their contracts) |
| WrappedFloats.WithSameBounds | src/tap/algorithms/wrapped_float.hpp:56-59 | a new valid value with the same bounds whose unwrapped value is the argument |
| WrappedFloats.Angle | src/tap/algorithms/wrapped_float.hpp:387-391 | an angle is a value wrapped to `[0, 2 pi)` whose unwrapped value is the argument |
| WrappedFloats.AngleFromDegrees | src/tap/algorithms/wrapped_float.hpp:392-395 | an angle in `[0, 2 pi)` whose unwrapped value is `degrees * pi / 180` |
| WrappedFloats.Normalized | src/tap/algorithms/wrapped_float.hpp:311-316 | same bounds and wrapped value, zero revolutions, and equal to the original under `operator==` |
| WrappedFloats.Add | src/tap/algorithms/wrapped_float.cpp:43-68 | `+=` and `+` give a valid value with the left operand's bounds whose unwrapped value is the sum of the unwrapped values |
| WrappedFloats.Sub | src/tap/algorithms/wrapped_float.cpp:52-77 | `-=` and `-` give a valid value whose unwrapped value is the difference of the unwrapped values |
| WrappedFloats.AddSelfAsWritten | src/tap/algorithms/wrapped_float.cpp:43-50 | `a += a` as written: the wrapped value is that of `a + a`, but the carry of `wrapValue` is counted twice in the revolutions; the sum is wrapped by the corrected `Wrap`, so at the `wrapValue` edge it follows that rather than line 129 |
| WrappedFloats.SubSelfAsWritten | src/tap/algorithms/wrapped_float.cpp:52-59 | `a -= a` as written: the wrapped value is that of `a - a`, the revolutions become 0, so the reading is the wrapped value; the difference is wrapped by the corrected `Wrap`, so on a window such as [10, 20), where the source stores 20, this stores 10 |
| WrappedFloats.AddSelfAsWrittenCounterexample | src/tap/algorithms/wrapped_float.cpp:47-49 | on [0, 10) with `a` at 6, `a + a` reads 12 but `a += a` reads 22 |
| WrappedFloats.SubSelfAsWrittenCounterexample | src/tap/algorithms/wrapped_float.cpp:56-58 | on [5, 15) with `a` at 6, `a - a` reads 0 but `a -= a` reads 10 |
| WrappedFloats.AddScalar | src/tap/algorithms/wrapped_float.cpp:79-86 | adding a float moves the unwrapped value by exactly that float and stays in the window |
| WrappedFloats.SubScalar | src/tap/algorithms/wrapped_float.cpp:81-91 | subtracting a float moves the unwrapped value down by exactly that float and stays in the window |
| WrappedFloats.MinDifference | src/tap/algorithms/wrapped_float.cpp:93-103 | the result is the direct difference of the wrapped values or that difference one interval round the other way, at most half an interval in magnitude and never longer than the direct difference |
| WrappedFloats.MinDifferenceExample | src/tap/algorithms/wrapped_float.cpp:93-103 | on [0, 10), the shortest way from 9 to 1 is +2 (over the bound) and from 1 to 9 is -2 |
| WrappedFloats.MinDifferenceTo | src/tap/algorithms/wrapped_float.cpp:105-108 | the float overload wraps the float first and then has the same properties |
| WrappedFloats.MinDifferenceAntisymmetric | src/tap/algorithms/wrapped_float.cpp:93-103 | the shortest difference from b to a is minus the one from a to b |
| WrappedFloats.MinDifferenceZeroIffEqual | src/tap/algorithms/wrapped_float.hpp:60-71 | the shortest difference is zero exactly when `operator==` holds |
| WrappedFloats.Equal | src/tap/algorithms/wrapped_float.cpp:36-41 | `operator==` compares the wrapped values only; `MinDifferenceZeroIffEqual` proves it holds exactly when the shortest difference is 0 |
| WrappedFloats.CongruentInWindow | src/tap/algorithms/wrapped_float.hpp:282-285 | a value in the window whose unwrapped value is `y + k` intervals, y in the window, is y with k revolutions |
| WrappedFloats.TenPlusOneExample | src/tap/algorithms/wrapped_float.hpp:41-42 | in [0, 10), 10 + 1 wraps to 1 |
| WrappedFloats.ZeroMinusOneExample | src/tap/algorithms/wrapped_float.hpp:43 | in [0, 10), 0 - 1 wraps to 9 |
| WrappedFloats.ZeroEqualsTenExample | src/tap/algorithms/wrapped_float.hpp:44 | in [0, 10), 0 and 10 compare equal |
| WrappedFloats.SameWrappedValue | src/tap/algorithms/wrapped_float.hpp:44 | any two values of [0, 10) with unwrapped values 0 and 10 compare equal |
| WrappedFloats.InWindowOfTen | src/tap/algorithms/wrapped_float.hpp:41-44 | in [0, 10) an unwrapped value `y + 10 k` with y in the window has wrapped value y |
| WrappedFloats.AddScalarLands | src/tap/algorithms/wrapped_float.cpp:79 | `+= delta` lands on the point of the window a whole number of intervals from the sum |
| WrappedFloats.SubScalarLands | src/tap/algorithms/wrapped_float.cpp:81 | `-= delta` lands on the point of the window a whole number of intervals from the difference |
| WrappedFloats.MinInterpolate | src/tap/algorithms/wrapped_float.cpp:110-115 | the result has the bounds of `this` and moves the unwrapped value by `alpha` times the shortest difference |
| WrappedFloats.MinInterpolateStart | src/tap/algorithms/wrapped_float.hpp:170-178 | `alpha == 0` gives `this` itself |
| WrappedFloats.MinInterpolateEnd | src/tap/algorithms/wrapped_float.hpp:170-178 | `alpha == 1` gives the other value's wrapped value |
| WrappedFloats.ShiftedBounds | src/tap/algorithms/wrapped_float.cpp:117-122 | both bounds move by the shift, the value is wrapped into the new window and the unwrapped value is kept |
| WrappedFloats.WithWrappedValue | src/tap/algorithms/wrapped_float.hpp:295-299 | the new value is wrapped into the window and the revolutions already made are added to it |
| WrappedFloats.WithUnwrappedValue | src/tap/algorithms/wrapped_float.hpp:304-309 | the revolutions restart at zero, so the unwrapped value becomes the argument |
| WrappedFloats.WrappedFloat.constructor | src/tap/algorithms/wrapped_float.cpp:26-34 | the new object holds `Make(value, lower, upper)` |
| WrappedFloats.WrappedFloat.WrapValue | src/tap/algorithms/wrapped_float.cpp:124-136 | the object's new state is the corrected wrap of its old state |
| WrappedFloats.WrappedFloat.AddAssign | src/tap/algorithms/wrapped_float.cpp:43-50 | `a += b` for an operand `b` that is not the object itself: the new state is `Add` of the old state and the operand |
| WrappedFloats.WrappedFloat.SubAssign | src/tap/algorithms/wrapped_float.cpp:52-59 | `a -= b` for an operand `b` that is not the object itself: the new state is `Sub` of the old state and the operand |
| WrappedFloats.WrappedFloat.AddAssignSelf | src/tap/algorithms/wrapped_float.cpp:43-50 | `a += a` on the object itself: the new state is `AddSelfAsWritten` of the old one |
| WrappedFloats.WrappedFloat.SubAssignSelf | src/tap/algorithms/wrapped_float.cpp:52-59 | `a -= a` on the object itself: the new state is `SubSelfAsWritten` of the old one |
| WrappedFloats.WrappedFloat.AddAssignScalar | src/tap/algorithms/wrapped_float.cpp:79 | the object's new state is `AddScalar` of the old state |
| WrappedFloats.WrappedFloat.SubAssignScalar | src/tap/algorithms/wrapped_float.cpp:81 | the object's new state is `SubScalar` of the old state |
| WrappedFloats.WrappedFloat.ShiftBounds | src/tap/algorithms/wrapped_float.cpp:117-122 | the object's new state is `ShiftedBounds` of the old state |
| WrappedFloats.WrappedFloat.SetWrappedValue | src/tap/algorithms/wrapped_float.hpp:295-299 | the object's new state is `WithWrappedValue` of the old state |
| WrappedFloats.WrappedFloat.SetUnwrappedValue | src/tap/algorithms/wrapped_float.hpp:304-309 | the object's new state is `WithUnwrappedValue` of the old state |
| WrappedRanges.Forward | src/tap/algorithms/wrapped_float.cpp:206-211 | the upward distance round the circle between two points of a window, in `[0, interval)` and differing from the direct difference by at most one interval |
| WrappedRanges.WithinRange | src/tap/algorithms/wrapped_float.cpp:186-194 | `withinRange`, the two-case comparison of wrapped values; `WithinRangeIsOpenArc` proves it is the open arc upwards from lower to upper |
| WrappedRanges.WithinRangeIsOpenArc | src/tap/algorithms/wrapped_float.cpp:186-194 | `withinRange` holds exactly when the value lies strictly inside the arc going upwards from the lower to the upper value |
| WrappedRanges.WithinRangeStrict | src/tap/algorithms/wrapped_float.cpp:186-194 | neither endpoint is within its own range, and a range from a point to itself contains nothing |
| WrappedRanges.WithinRangeExamples | src/tap/algorithms/wrapped_float.hpp:245-250 | the four documented cases on [0, 10): (9; 3, 7) false, (5; 3, 7) true, (9; 7, 3) true, (5; 7, 3) false |
| WrappedRanges.LimitValue | src/tap/algorithms/wrapped_float.cpp:149-184 | equal limits return the value with no status; status 0 exactly when the value is strictly inside the range, then the value itself; a value off the range with distinct limits gives `min` with status 1 when its shortest difference to `min` is strictly smaller, and `max` with status 2 otherwise; the result always lies on the closed arc |
| WrappedRanges.LimitValueFixesClosedArc | src/tap/algorithms/wrapped_float.cpp:149-184 | the value comes back unchanged exactly when it already lies on the closed arc from min to max |
| WrappedRanges.LimitValueIdempotent | src/tap/algorithms/wrapped_float.cpp:149-184 | limiting an already limited value changes nothing |
| WrappedRanges.LimitValueExamples | src/tap/algorithms/wrapped_float.hpp:194-199 | on [0, 10): (5; 1, 4) gives 4 with status 2, (9; 1, 3) gives 1 with status 1, (9; 2, 1) gives 9 with status 0 |
| WrappedRanges.LimitValueExampleOtherBounds | src/tap/algorithms/wrapped_float.hpp:194-199 | on the documented window [-10, 10), (9; 1, 3) gives 3 with status 2, not the documented 1 (9 is nearer to 3 there) |
| WrappedRanges.LimitValueTo | src/tap/algorithms/wrapped_float.cpp:138-147 | the float overload wraps min and max to the value's bounds (`lo` and `hi`, reading back as min and max); then equal limits give the value with no status, a value strictly inside gives itself with status 0, and any other value gives `lo` with status 1 when strictly nearer by shortest difference, else `hi` with status 2; the result lies on the closed arc |
| WrappedRanges.ArcOverlap | src/tap/algorithms/wrapped_float.hpp:259-270 | the reference overlap of two arcs of a circle: never negative and never longer than either arc |
| WrappedRanges.ArcOverlapSelf | src/tap/algorithms/wrapped_float.hpp:259-270 | an arc overlaps itself by its whole length |
| WrappedRanges.ArcOverlapDisjoint | src/tap/algorithms/wrapped_float.hpp:259-270 | an arc that starts after the first ends and does not reach round to it shares nothing |
| WrappedRanges.ArcOverlapSymmetric | src/tap/algorithms/wrapped_float.hpp:259-270 | measured from the second arc, the overlap is the same |
| WrappedRanges.RangeOverlapAsWritten | src/tap/algorithms/wrapped_float.cpp:196-221 | the source's formula over the endpoints shifted by the first arc's offset, which mixes `origin` into lengths; the shifts go through the corrected `Wrap`, so it is the code as written except at the `wrapValue` edge |
| WrappedRanges.RangeOverlap | src/tap/algorithms/wrapped_float.cpp:196-221 | the corrected `rangeOverlap` equals the reference overlap `ArcOverlap` of the two arcs |
| WrappedRanges.Shifted | src/tap/algorithms/wrapped_float.cpp:209-211 | an endpoint shifted down by the first arc's offset sits at its upward distance from the lower bound of the window |
| WrappedRanges.RangeOverlapSelf | src/tap/algorithms/wrapped_float.cpp:196-221 | a range overlaps itself by its whole length |
| WrappedRanges.RangeOverlapBounds | src/tap/algorithms/wrapped_float.cpp:196-221 | the overlap is never negative and never longer than either range |
| WrappedRanges.RangeOverlapDisjoint | src/tap/algorithms/wrapped_float.cpp:196-221 | ranges that do not meet overlap by zero |
| WrappedRanges.RangeOverlapSymmetric | src/tap/algorithms/wrapped_float.cpp:196-221 | the overlap of A with B is the overlap of B with A |
| WrappedRanges.RangeOverlapAsWrittenAtZero | src/tap/algorithms/wrapped_float.cpp:206-220 | with the window starting at 0 the source's formula is the corrected one |
| WrappedRanges.RangeOverlapAsWrittenCounterexample | src/tap/algorithms/wrapped_float.cpp:206-220 | on [-10, 10), arcs [-10, 0) and [5, -5) overlap by 5 but the source's formula gives -10 |
| Matrices.Mul | src/tap/algorithms/transforms/orientation.hpp:47-50 | each entry of the product is the dot product of a row of the left matrix with a column of the right one |
| Matrices.Transpose | src/tap/algorithms/transforms/transform.hpp:290-294 | entry (i, j) of the transpose is entry (j, i) of the matrix |
| Matrices.MulAssociative | src/tap/algorithms/transforms/orientation.hpp:47-50 | the 3x3 product is associative |
| Matrices.MulIdentity | src/tap/algorithms/transforms/orientation.hpp:47-50 | the identity matrix is a unit of the product on both sides |
| Matrices.TransposeInvolutive | src/tap/algorithms/transforms/transform.hpp:290-294 | transposing twice gives the matrix back |
| AngularVelocities.SkewMatFromAngVel | src/tap/algorithms/transforms/angular_velocity.hpp:63-69 | the matrix built from the rates is skew-symmetric with a zero diagonal |
| AngularVelocities.FromRates | src/tap/algorithms/transforms/angular_velocity.hpp:30-33 | the constructor from three rates stores their skew matrix; `RatesRoundTrip` reads the rates back |
| AngularVelocities.AngularVelocity.RollVelocityAsWritten | src/tap/algorithms/transforms/angular_velocity.hpp:49 | `getRollVelocity` as written: entry (0, 2) |
| AngularVelocities.AngularVelocity.PitchVelocityAsWritten | src/tap/algorithms/transforms/angular_velocity.hpp:54 | `getPitchVelocity` as written: minus entry (1, 2) |
| AngularVelocities.AngularVelocity.RollVelocity | src/tap/algorithms/transforms/angular_velocity.hpp:49-54 | the roll getter corrected: minus entry (1, 2), where `skewMatFromAngVel` stores minus `wx` |
| AngularVelocities.AngularVelocity.PitchVelocity | src/tap/algorithms/transforms/angular_velocity.hpp:49-54 | the pitch getter corrected: entry (0, 2), where `skewMatFromAngVel` stores `wy` |
| AngularVelocities.AngularVelocity.YawVelocity | src/tap/algorithms/transforms/angular_velocity.hpp:59 | `getYawVelocity`: minus entry (0, 1), where `skewMatFromAngVel` stores minus `wz` |
| AngularVelocities.SkewOfZero | src/tap/algorithms/transforms/angular_velocity.hpp:66-69 | zero rates give the zero matrix |
| AngularVelocities.SkewLinear | src/tap/algorithms/transforms/angular_velocity.hpp:66-69 | the skew matrix is linear in the rate vector: sums go to sums and scalings to scalings |
| AngularVelocities.RatesRoundTrip | src/tap/algorithms/transforms/angular_velocity.hpp:30-59 | the roll, pitch and yaw rates given to the constructor are read back by the (corrected) getters |
| AngularVelocities.SkewMatrixRoundTrip | src/tap/algorithms/transforms/angular_velocity.hpp:42-69 | a skew-symmetric matrix is rebuilt exactly from the three rates read out of it |
| AngularVelocities.GettersAsWrittenSwapped | src/tap/algorithms/transforms/angular_velocity.hpp:49-54 | as written, `getRollVelocity` returns the pitch rate and `getPitchVelocity` the roll rate |
| AngularVelocities.GettersAsWrittenCounterexample | src/tap/algorithms/transforms/angular_velocity.hpp:49-54 | a pure roll of 1 rad/s reads back as roll 0 and pitch 1 |
| Orientations.ZeroAnglesIdentity | src/tap/algorithms/transforms/orientation.hpp:69-81 | zero Euler angles give the identity rotation |
| Orientations.FromAngles | src/tap/algorithms/transforms/orientation.hpp:31-34 | `Orientation(roll, pitch, yaw)` holds the matrix `FromEulerAngles` gives; `PitchRecovered` and `RollYawRecovered` read the angles back, and `EulerRowsOrthonormal` and `EulerColumnsOrthonormal` make it a rotation |
| Orientations.FromEulerAngles | src/tap/algorithms/transforms/orientation.hpp:69-81 | `fromEulerAngles` is `EulerMatrix` of the sines and cosines of the three angles; `EulerRowsOrthonormal` and `EulerColumnsOrthonormal` prove it a rotation |
| Orientations.EulerMatrix | src/tap/algorithms/transforms/orientation.hpp:69-81 | the nine entries `Rz(yaw) * Ry(pitch) * Rx(roll)` in row-major order; `EulerMatrixOrthonormal` proves its rows and columns orthonormal |
| Orientations.Orientation.Roll | src/tap/algorithms/transforms/orientation.hpp:52-58 | `roll()`: atan2 of entries (2, 1) and (2, 2); `RollYawRecovered` and `GimbalLockRollZero` state what it returns |
| Orientations.Orientation.Pitch | src/tap/algorithms/transforms/orientation.hpp:60 | `pitch()`: asin of minus entry (2, 0); `PitchRecovered` states what it returns |
| Orientations.Orientation.Yaw | src/tap/algorithms/transforms/orientation.hpp:62 | `yaw()`: atan2 of entries (1, 0) and (0, 0); `RollYawRecovered` states what it returns |
| Orientations.Orientation.Compose | src/tap/algorithms/transforms/orientation.hpp:47-50 | `compose`: the product of the two matrices; `ComposeAssociative` and `ComposeIdentity` state its laws |
| Orientations.PitchRecovered | src/tap/algorithms/transforms/orientation.hpp:60-81 | `pitch()` of the rotation built from angles gives back a pitch in `[-pi/2, pi/2]` |
| Orientations.RollYawRecovered | src/tap/algorithms/transforms/orientation.hpp:52-81 | away from gimbal lock, `roll()` and `yaw()` give back angles in `(-pi, pi]` |
| Orientations.GimbalLockRollZero | src/tap/algorithms/transforms/orientation.hpp:52-58 | at a vertical pitch, roll reads as 0, as documented |
| Orientations.ComposeAssociative | src/tap/algorithms/transforms/orientation.hpp:47-50 | composition of orientations is associative |
| Orientations.ComposeIdentity | src/tap/algorithms/transforms/orientation.hpp:47-50 | the zero-angle orientation is a unit of composition on both sides |
| Orientations.EulerRowsOrthonormal | src/tap/algorithms/transforms/orientation.hpp:69-81 | the rows of the Euler rotation matrix are orthonormal |
| Orientations.EulerColumnsOrthonormal | src/tap/algorithms/transforms/orientation.hpp:69-81 | the columns of the Euler rotation matrix are orthonormal |
| Orientations.RightInverse | src/tap/algorithms/transforms/transform.hpp:290-294 | a matrix with orthonormal rows times its transpose is the identity |
| Orientations.LeftInverse | src/tap/algorithms/transforms/transform.hpp:290-294 | the transpose of a matrix with orthonormal columns times the matrix is the identity |
| Orientations.TransposeIsInverse | src/tap/algorithms/transforms/transform.hpp:315-319 | the cached transpose of an Euler rotation is its inverse on both sides |
| Positions.AccessorsRoundTrip | src/tap/algorithms/transforms/position.hpp:34-51 | `x()`, `y()` and `z()` read back the constructor's arguments |
| Positions.FromXYZ | src/tap/algorithms/transforms/position.hpp:34 | the constructor from three coordinates; `AccessorsRoundTrip` reads them back |
| Positions.Position.X | src/tap/algorithms/transforms/position.hpp:47 | `x()`: the first coordinate |
| Positions.Position.Y | src/tap/algorithms/transforms/position.hpp:49 | `y()`: the second coordinate |
| Positions.Position.Z | src/tap/algorithms/transforms/position.hpp:51 | `z()`: the third coordinate |
| Positions.Position.Plus | src/tap/algorithms/transforms/position.hpp:60 | `operator+(Position)`, declared only, taken as the componentwise sum |
| Positions.Position.Times | src/tap/algorithms/transforms/position.hpp:62 | `operator*(float)`, declared only, taken as every coordinate scaled |
| Positions.Interpolate | src/tap/algorithms/transforms/position.hpp:70-73 | `a * (1 - t) + b * t`; `InterpolateCoordinates`, `InterpolateEnds` and `InterpolateSame` state its properties |
| Positions.CoordinatesRoundTrip | src/tap/algorithms/transforms/position.hpp:41-68 | a position rebuilt from its coordinates, or from its three accessors, is the same position |
| Positions.InterpolateCoordinates | src/tap/algorithms/transforms/position.hpp:70-73 | each coordinate of `interpolate(a, b, t)` is `a * (1 - t) + b * t` |
| Positions.InterpolateEnds | src/tap/algorithms/transforms/position.hpp:70-73 | `t = 0` gives a and `t = 1` gives b |
| Positions.InterpolateSame | src/tap/algorithms/transforms/position.hpp:70-73 | interpolating between a point and itself gives the point |
| Transforms.Refreshed | src/tap/algorithms/transforms/transform.hpp:636-652 | after `checkDynamic` the flag agrees with the readings and every other field is unchanged |
| Transforms.DynamicMeansSomeReadingMoves | src/tap/algorithms/transforms/transform.hpp:636-652 | the flag formula holds exactly when some velocity, acceleration or angular rate is at least the tolerance away from zero |
| Transforms.UpdatesPreserveValid | src/tap/algorithms/transforms/transform.hpp:234-454 | every corrected setter keeps both caches (transpose and dynamic flag) consistent |
| Transforms.RotationUpdatesCacheTranspose | src/tap/algorithms/transforms/transform.hpp:290-343 | every rotation setter leaves `tRotation` the transpose of `rotation` |
| Transforms.VelocityUpdate | src/tap/algorithms/transforms/transform.hpp:350-378 | setting the velocity changes only the velocity and the flag, which then reports whether anything moves |
| Transforms.AccelerationUpdate | src/tap/algorithms/transforms/transform.hpp:409-413 | setting the acceleration changes only the acceleration and the flag, which then reports whether anything moves |
| Transforms.AccelerationAsWrittenOverwritesVelocity | src/tap/algorithms/transforms/transform.hpp:385-400 | the `Vector` overloads of `updateAcceleration` as written store the acceleration in the velocity and leave the acceleration unchanged |
| Transforms.AngularVelocityUpdate | src/tap/algorithms/transforms/transform.hpp:420-454 | setting the angular velocity stores the skew matrix of the rates, which reads back the same rates, and refreshes the flag |
| Transforms.DynamicTranslationAsWrittenStale | src/tap/algorithms/transforms/transform.hpp:266-283 | the `DynamicPosition` setter as written can leave a transform with a non-zero velocity flagged as not dynamic |
| Transforms.DynamicRotationAsWrittenStale | src/tap/algorithms/transforms/transform.hpp:326-343 | the `DynamicOrientation` setter as written can leave a transform with a non-zero angular rate flagged as not dynamic |
| Transforms.DynamicSettersRefresh | src/tap/algorithms/transforms/transform.hpp:266-343 | the corrected dynamic setters flag the same two transforms as dynamic |
| Transforms.Transform.constructor | src/tap/algorithms/transforms/transform.hpp:119-120 | a transform from a dynamic position and orientation holds their values, the transposed rotation and a refreshed flag |
| Transforms.Transform.CheckDynamic | src/tap/algorithms/transforms/transform.hpp:636-652 | the new state is `Refreshed` of the old state |
| Transforms.Transform.UpdateTranslation | src/tap/algorithms/transforms/transform.hpp:234-247 | only the translation changes |
| Transforms.Transform.UpdateTranslationXYZ | src/tap/algorithms/transforms/transform.hpp:256-259 | only the translation changes, and `getX/Y/Z` read back the arguments |
| Transforms.Transform.UpdateTranslationDynamicAsWritten | src/tap/algorithms/transforms/transform.hpp:266-283 | position, velocity and acceleration are replaced and the flag is left as it was |
| Transforms.Transform.UpdateTranslationDynamic | src/tap/algorithms/transforms/transform.hpp:266-283 | position, velocity and acceleration are replaced and the flag is refreshed |
| Transforms.Transform.UpdateRotation | src/tap/algorithms/transforms/transform.hpp:290-305 | the rotation and its transpose are replaced |
| Transforms.Transform.UpdateRotationEuler | src/tap/algorithms/transforms/transform.hpp:315-319 | the rotation becomes the Euler matrix of the angles, with its transpose |
| Transforms.Transform.UpdateRotationDynamicAsWritten | src/tap/algorithms/transforms/transform.hpp:326-343 | rotation, transpose and angular velocity are replaced and the flag is left as it was |
| Transforms.Transform.UpdateRotationDynamic | src/tap/algorithms/transforms/transform.hpp:326-343 | rotation, transpose and angular velocity are replaced and the flag is refreshed |
| Transforms.Transform.UpdateVelocity | src/tap/algorithms/transforms/transform.hpp:350-365 | the velocity is replaced and the flag refreshed |
| Transforms.Transform.UpdateVelocityXYZ | src/tap/algorithms/transforms/transform.hpp:374-378 | the velocity is replaced and the flag refreshed |
| Transforms.Transform.UpdateAccelerationAsWritten | src/tap/algorithms/transforms/transform.hpp:385-400 | the velocity is overwritten with the acceleration and the flag refreshed |
| Transforms.Transform.UpdateAcceleration | src/tap/algorithms/transforms/transform.hpp:385-400 | the acceleration is replaced and the flag refreshed |
| Transforms.Transform.UpdateAccelerationXYZ | src/tap/algorithms/transforms/transform.hpp:409-413 | the acceleration is replaced and the flag refreshed |
| Transforms.Transform.UpdateAngularVelocity | src/tap/algorithms/transforms/transform.hpp:420-441 | the angular velocity becomes the skew matrix of the vector's three components and the flag is refreshed |
| Transforms.Transform.UpdateAngularVelocityXYZ | src/tap/algorithms/transforms/transform.hpp:450-454 | the angular velocity becomes the skew matrix of the rates and the flag is refreshed |
| Transforms.WithTranslation | src/tap/algorithms/transforms/transform.hpp:234-259 | the state after a translation update: only the translation changes |
| Transforms.WithDynamicTranslationAsWritten | src/tap/algorithms/transforms/transform.hpp:266-283 | the state after `updateTranslation(DynamicPosition)` as written: position, velocity and acceleration replaced, `dynamic` kept |
| Transforms.WithDynamicTranslation | src/tap/algorithms/transforms/transform.hpp:266-283 | the same followed by `checkDynamic`; `UpdatesPreserveValid` proves it keeps both caches |
| Transforms.WithRotation | src/tap/algorithms/transforms/transform.hpp:290-319 | the state after a rotation update: the rotation and its cached transpose |
| Transforms.WithDynamicRotationAsWritten | src/tap/algorithms/transforms/transform.hpp:326-343 | the state after `updateRotation(DynamicOrientation)` as written: rotation, transpose and angular velocity replaced, `dynamic` kept |
| Transforms.WithDynamicRotation | src/tap/algorithms/transforms/transform.hpp:326-343 | the same followed by `checkDynamic`; `UpdatesPreserveValid` proves it keeps both caches |
| Transforms.WithVelocity | src/tap/algorithms/transforms/transform.hpp:350-378 | the state after a velocity update: the velocity replaced, then `checkDynamic` |
| Transforms.WithAccelerationAsWritten | src/tap/algorithms/transforms/transform.hpp:385-400 | the state after a `Vector` acceleration update as written: the velocity replaced, then `checkDynamic` |
| Transforms.WithAcceleration | src/tap/algorithms/transforms/transform.hpp:409-413 | the state after an acceleration update: the acceleration replaced, then `checkDynamic` |
| Transforms.WithAngularVelocity | src/tap/algorithms/transforms/transform.hpp:420-454 | the state after an angular-velocity update: the skew matrix of the rates, then `checkDynamic` |
| Transforms.Transform.GetTranslation | src/tap/algorithms/transforms/transform.hpp:497 | `getTranslation`: the translation as a `Position` |
| Transforms.Transform.GetVelocity | src/tap/algorithms/transforms/transform.hpp:499 | `getVelocity`: the velocity |
| Transforms.Transform.GetAcceleration | src/tap/algorithms/transforms/transform.hpp:501 | `getAcceleration`: the acceleration |
| Transforms.Transform.GetDynamicTranslation | src/tap/algorithms/transforms/transform.hpp:503-506 | its position, velocity and acceleration are what `getTranslation`, `getVelocity` and `getAcceleration` return |
| Transforms.Transform.GetRotation | src/tap/algorithms/transforms/transform.hpp:508 | `getRotation`: the rotation as an `Orientation` |
| Transforms.Transform.GetDynamicOrientation | src/tap/algorithms/transforms/transform.hpp:515-518 | its orientation is what `getRotation` returns, with the angular-velocity matrix |
| Transforms.Transform.GetX | src/tap/algorithms/transforms/transform.hpp:553 | `getX()` is `getTranslation().x()` |
| Transforms.Transform.GetY | src/tap/algorithms/transforms/transform.hpp:558 | `getY()` is `getTranslation().y()` |
| Transforms.Transform.GetZ | src/tap/algorithms/transforms/transform.hpp:563 | `getZ()` is `getTranslation().z()` |
| Transforms.Transform.GetXVel | src/tap/algorithms/transforms/transform.hpp:568 | `getXVel`: the first velocity component |
| Transforms.Transform.GetYVel | src/tap/algorithms/transforms/transform.hpp:573 | `getYVel`: the second velocity component |
| Transforms.Transform.GetZVel | src/tap/algorithms/transforms/transform.hpp:578 | `getZVel`: the third velocity component |
| Transforms.Transform.GetXAcc | src/tap/algorithms/transforms/transform.hpp:583 | `getXAcc`: the first acceleration component |
| Transforms.Transform.GetYAcc | src/tap/algorithms/transforms/transform.hpp:588 | `getYAcc`: the second acceleration component |
| Transforms.Transform.GetZAcc | src/tap/algorithms/transforms/transform.hpp:593 | `getZAcc`: the third acceleration component |
| Transforms.Transform.IsDynamic | src/tap/algorithms/transforms/transform.hpp:598-601 | on a consistent transform, `isDynamic` is true exactly when some velocity, acceleration or rate is at least the tolerance away from zero |
| FixedWidth.Sub32 | src/tap/algorithms/linear_interpolation_predictor_wrapped.hpp:69 | `uint32_t` subtraction: the exact difference, or the difference plus 2^32 when it would be negative |
| FixedWidth.Add32 | src/tap/communication/serial/ref_serial.cpp:526 | `uint32_t` addition: the exact sum, or the sum less 2^32 when it overflows |
| FixedWidth.ToInt16 | src/tap/motor/motorsim/motor_sim.cpp:63 | a conversion to `int16_t` keeps the value modulo 2^16 and leaves a value that fits unchanged |
| InterpolationPredictors.LinearInterpolationPredictorWrapped.GetInterpolatedValue | src/tap/algorithms/linear_interpolation_predictor_wrapped.hpp:66-74 | the prediction lies in the previous value's window and is a whole number of intervals away from `slope * (currTime - lastUpdateCallTime) + previousValue`, the elapsed time taken on `uint32_t`; `WholeTurnsApartUnique` shows these two facts fix it; with no time elapsed or a zero slope it is the previous value |
| InterpolationPredictors.WrappedInto | src/tap/algorithms/linear_interpolation_predictor_wrapped.hpp:68-73 | `WrappedFloat(value, lower, upper).getWrappedValue()` lies in the window, a whole number of intervals from the value, and is the value itself when that is already inside |
| InterpolationPredictors.WholeTurnsApartUnique | src/tap/algorithms/linear_interpolation_predictor_wrapped.hpp:68-73 | two values of one window that are each a whole number of intervals from the same value are equal |
| InterpolationPredictors.EarlierTimeWrapsAround | src/tap/algorithms/linear_interpolation_predictor_wrapped.hpp:69 | a query time before the last update is taken as almost 2^32 ms after it |
| Ballistics.QuadraticKinematicProjection | src/tap/algorithms/ballistics.hpp:48-51 | `s + v dt + a dt^2 / 2`; the lemmas below state its behaviour at 0, without acceleration and over two steps |
| Ballistics.SecondOrderKinematicState.ProjectForward | src/tap/algorithms/ballistics.hpp:76-82 | the quadratic projection on each axis on its own |
| Ballistics.SecondOrderKinematicState.Advanced | src/tap/algorithms/ballistics.hpp:76-82 | the state reached after `dt`: projected position, velocity advanced by `a dt`, the same acceleration; `ProjectForwardComposes` projects from it |
| Ballistics.ProjectionAtZero | src/tap/algorithms/ballistics.hpp:48-51 | projecting by no time leaves the position |
| Ballistics.ProjectionWithoutAcceleration | src/tap/algorithms/ballistics.hpp:48-51 | without acceleration the projection is linear in time |
| Ballistics.ProjectionComposes | src/tap/algorithms/ballistics.hpp:48-51 | projecting by t1 and then by t2 from the reached state is projecting by t1 + t2 |
| Ballistics.ProjectForwardAtZero | src/tap/algorithms/ballistics.hpp:76-82 | a 3D state projected by no time is its position |
| Ballistics.ProjectForwardComposes | src/tap/algorithms/ballistics.hpp:76-82 | 3D projection composes over time on every axis |
| ByteCodec.Bits | src/tap/communication/serial/ref_serial.cpp:456-462 | a field of `width` bits cut out of a word is below `2^width` |
| ByteCodec.LE16 | src/tap/communication/serial/ref_serial.cpp:176 | `convertFromLittleEndian` into a `uint16_t`: two bytes, low byte first; `LE16RoundTrip` and `ToLE16RoundTrip` make it a bijection |
| ByteCodec.LE32 | src/tap/communication/serial/ref_serial.cpp:457-458 | the same into a `uint32_t`, from two 16-bit halves |
| ByteCodec.LE64 | src/tap/communication/serial/ref_serial.cpp:178-185 | the same into a `uint64_t`, each byte at its place |
| ByteCodec.LE16RoundTrip | src/tap/communication/serial/ref_serial.cpp:176 | decoding the two little-endian bytes of a `uint16_t` gives it back |
| ByteCodec.ToLE16RoundTrip | src/tap/communication/serial/ref_serial.cpp:176 | re-encoding a decoded `uint16_t` gives back the two bytes it was read from |
| ByteCodec.LE32RoundTrip | src/tap/communication/serial/ref_serial.cpp:457-458 | decoding the four little-endian bytes of a `uint32_t` gives it back |
| ByteCodec.ToLE32RoundTrip | src/tap/communication/serial/ref_serial.cpp:457-458 | re-encoding a decoded `uint32_t` gives back its four bytes |
| ByteCodec.LE64Halves | src/tap/communication/serial/ref_serial.cpp:178-185 | the 64-bit value assembled from bytes 0..7 is the low word plus 2^32 times the high word |
| ByteCodec.LE64RoundTrip | src/tap/communication/serial/ref_serial.cpp:178-185 | assembling the eight bytes of a `uint64_t` gives it back |
| ByteCodec.ToLE64RoundTrip | src/tap/communication/serial/ref_serial.cpp:178-185 | re-encoding an assembled `uint64_t` gives back its eight bytes |
| ByteCodec.LowNibble | src/tap/communication/serial/ref_serial.cpp:174 | `0xf & b` is below 16 |
| ByteCodec.HighNibble | src/tap/communication/serial/ref_serial.cpp:175 | `0xf & (b >> 4)` is below 16 |
| ByteCodec.NibblesRoundTrip | src/tap/communication/serial/ref_serial.cpp:174-175 | a byte is rebuilt from its two nibbles, and two nibbles are read back from the byte they make |
| RefSerialData.Role | src/tap/communication/serial/ref_serial_data.hpp:43-66 | every red or blue enumerator has a role number from 1 to 9 |
| RefSerialData.IsRed | src/tap/communication/serial/ref_serial_data.hpp:43-66 | one of the red enumerators |
| RefSerialData.IsBlue | src/tap/communication/serial/ref_serial_data.hpp:43-66 | one of the blue enumerators |
| RefSerialData.IsBlueTeam | src/tap/communication/serial/ref_serial_data.hpp:69 | `isBlueTeam`: the id is at least `BLUE_HERO`; `TeamsOfEnumerators` relates it to the enumerators |
| RefSerialData.Plus | src/tap/communication/serial/ref_serial_data.hpp:690-694 | `operator+` on robot ids adds modulo 2^16 |
| RefSerialData.Minus | src/tap/communication/serial/ref_serial_data.hpp:696-700 | `operator-` on robot ids subtracts modulo 2^16 |
| RefSerialData.PlusMinusInverse | src/tap/communication/serial/ref_serial_data.hpp:690-700 | subtracting then adding the same id, or adding then subtracting, gives the id back |
| RefSerialData.TeamsOfEnumerators | src/tap/communication/serial/ref_serial_data.hpp:68-69 | `isBlueTeam` is false for `INVALID` and every red enumerator and true for every blue one |
| RefSerialData.RedToBlue | src/tap/communication/serial/ref_serial.cpp:542-545 | `id - RED_HERO + BLUE_HERO` of a red robot is the blue robot of the same role, 100 higher |
| RefSerialData.BlueToRed | src/tap/communication/serial/ref_serial.cpp:538-541 | `id - BLUE_HERO + RED_HERO` of a blue robot is the red robot of the same role, 100 lower |
| RefSerialData.TeamMappingRoundTrip | src/tap/communication/serial/ref_serial.cpp:538-545 | mapping a red robot to blue and back gives the same robot |
| RefSerialData.SizeOf | src/tap/communication/serial/ref_serial_data.hpp:670-686 | every graphic message is longer than its frame header, command id and interactive header |
| RefSerialData.GetWaitTimeAfterGraphicSendMs | src/tap/communication/serial/ref_serial_data.hpp:670-686 | the wait in ms is `sizeof(T) * 1000 / 1000`, long enough to send the message at 1000 bytes per second |
| RefSerialData.WaitTimes | src/tap/communication/serial/ref_serial_data.hpp:670-686 | the waits for the seven message types: 17, 30, 128, 45, 90, 120 and 60 ms |
| DamageTracking.TotalDamage | src/tap/communication/serial/ref_serial.cpp:503-530 | the damage of a sequence of events is never negative and at least that of its last event |
| DamageTracking.TotalDamageSplit | src/tap/communication/serial/ref_serial.cpp:503-530 | the damage of a concatenation of events is the sum of the two totals |
| DamageTracking.NewEvent | src/tap/communication/serial/ref_serial.cpp:508 | the new event has the timestamp and the damage, cast to `uint16_t` |
| DamageTracking.RecordedAsWritten | src/tap/communication/serial/ref_serial.cpp:503-518 | as written, positive damage is appended and added; a full deque first loses its newest event; other damage changes nothing |
| DamageTracking.Recorded | src/tap/communication/serial/ref_serial.cpp:503-518 | corrected: positive damage is appended; a deque that is not full just grows; other damage changes nothing |
| DamageTracking.RecordedKeepsConsistent | src/tap/communication/serial/ref_serial.cpp:503-518 | the corrected recording keeps `receivedDps` equal to the damage of the tracked events and the deque within capacity |
| DamageTracking.RecordedAsWrittenDrifts | src/tap/communication/serial/ref_serial.cpp:510-514 | as written, recording into a full deque leaves `receivedDps` above the events' damage by the damage of the dropped event |
| DamageTracking.RecordedAsWrittenCounterexample | src/tap/communication/serial/ref_serial.cpp:510-514 | a full deque of 20 one-point events with total 20 is no longer consistent after one more point is recorded |
| DamageTracking.TotalOfOnes | src/tap/communication/serial/ref_serial.cpp:503-518 | n one-point events total n |
| DamageTracking.DroppedCount | src/tap/communication/serial/ref_serial.cpp:524-529 | the number of leading events the loop drops: every dropped event is older than a second, and the first kept one is not |
| DamageTracking.Expired | src/tap/communication/serial/ref_serial.cpp:525 | an event has left the window once the clock is past its timestamp plus 1000, the sum taken on `uint32_t` |
| DamageTracking.Updated | src/tap/communication/serial/ref_serial.cpp:520-530 | `updateReceivedDamage` keeps a suffix of the events whose first element is not expired |
| DamageTracking.UpdatedKeepsConsistent | src/tap/communication/serial/ref_serial.cpp:520-530 | taking the dropped events' damage off the total keeps the window consistent |
| DamageTracking.UpdatedIdempotent | src/tap/communication/serial/ref_serial.cpp:520-530 | a second update at the same time drops nothing more |
| RefSerials.RadarProgressOf | src/tap/communication/serial/ref_serial.cpp:434-448 | corrected: the six progress fields are the six payload bytes in order |
| RefSerials.RadarProgressReadsOnlyPayload | src/tap/communication/serial/ref_serial.cpp:434-448 | the corrected decoder depends only on the six payload bytes |
| RefSerials.RadarProgressAsWrittenReadsPastPayload | src/tap/communication/serial/ref_serial.cpp:441-445 | as written, two messages with the same six payload bytes decode differently, because byte 6 (past the payload) is read |
| RefSerials.RadarProgressAsWritten | src/tap/communication/serial/ref_serial.cpp:441-445 | `decodeToRadarProgress` as written: fields from bytes 1-4 and 6, `standard5` left as it was |
| RefSerials.SentryInfoAsWritten | src/tap/communication/serial/ref_serial.cpp:456-462 | as written, the three fields read bits 0-9, 11-14 and 14-17 and are within their widths |
| RefSerials.SentryInfoOf | src/tap/communication/serial/ref_serial.cpp:456-462 | corrected: the fields read bits 0-9, 11-14 and 15-18 and are within their widths |
| RefSerials.SentryInfoRoundTrip | src/tap/communication/serial/ref_serial.cpp:450-465 | a word packed from the three fields decodes back to them |
| RefSerials.SentryInfoAsWrittenCounterexample | src/tap/communication/serial/ref_serial.cpp:461-462 | with 8 projectile exchanges and no health exchanges the as-written decoder reports 1 health exchange |
| RefSerials.DartInfoRoundTrip | src/tap/communication/serial/ref_serial.cpp:267-279 | the last hit, hit count and target packed into a byte are read back by the dart-info bit fields |
| RefSerials.GameStatusRoundTrip | src/tap/communication/serial/ref_serial.cpp:168-187 | a game-status payload built from the fields decodes back to them |
| RefSerials.RefSerial.DecodeToGameStatus | src/tap/communication/serial/ref_serial.cpp:168-187 | accepted exactly for 11-byte payloads; then only the game type, stage, remaining time and unix time change, read from the payload; otherwise nothing changes |
| RefSerials.RefSerial.DecodeToGameResult | src/tap/communication/serial/ref_serial.cpp:189-197 | accepted exactly for 1-byte payloads; then only the winner changes |
| RefSerials.RefSerial.DecodeToAllRobotHP | src/tap/communication/serial/ref_serial.cpp:199-222 | accepted exactly for 32-byte payloads; then both teams' HP are read from the two 16-byte halves |
| RefSerials.RefSerial.DecodeToSiteEventData | src/tap/communication/serial/ref_serial.cpp:224-239 | accepted exactly for 4-byte payloads; then the site word and its dart-hit bit fields are stored |
| RefSerials.RefSerial.DecodeToProjectileSupplierAction | src/tap/communication/serial/ref_serial.cpp:241-252 | accepted exactly for 4-byte payloads; then the supplier action is read from bytes 1-3 |
| RefSerials.RefSerial.DecodeToWarningData | src/tap/communication/serial/ref_serial.cpp:254-265 | accepted exactly for 3-byte payloads; then the warning and the time it arrived are stored |
| RefSerials.RefSerial.DecodeToDartInfo | src/tap/communication/serial/ref_serial.cpp:267-279 | accepted exactly for 3-byte payloads; then the dart fields are read from their bit ranges |
| RefSerials.RefSerial.ProcessReceivedDamage | src/tap/communication/serial/ref_serial.cpp:503-518 | the tracker and `receivedDps` become the corrected `Recorded` window, everything else unchanged |
| RefSerials.RefSerial.ProcessReceivedDamageAsWritten | src/tap/communication/serial/ref_serial.cpp:503-518 | the tracker and `receivedDps` become the as-written window |
| RefSerials.RefSerial.UpdateReceivedDamage | src/tap/communication/serial/ref_serial.cpp:520-530 | the loop leaves the tracker and `receivedDps` as `Updated` of the old window |
| RefSerials.RefSerial.DecodeToRobotStatus | src/tap/communication/serial/ref_serial.cpp:281-303 | accepted exactly for 13-byte payloads; then the status fields are read, the HP drop since the last status is recorded as damage through the corrected `Recorded`, not the drifting as-written recording of ref_serial.cpp:510-514, and the previous HP becomes the current HP |
| RefSerials.RefSerial.DecodeToPowerAndHeat | src/tap/communication/serial/ref_serial.cpp:305-316 | accepted exactly for 16-byte payloads; then the power buffer and the three heats are read |
| RefSerials.RefSerial.DecodeToRobotBuffs | src/tap/communication/serial/ref_serial.cpp:330-345 | accepted exactly for 7-byte payloads; then the buffs and the energy byte are read |
| RefSerials.RefSerial.DecodeToAerialEnergyStatus | src/tap/communication/serial/ref_serial.cpp:347-356 | accepted exactly for 2-byte payloads; then the 2-bit state and the remaining time are read |
| RefSerials.RefSerial.DecodeToDamageStatus | src/tap/communication/serial/ref_serial.cpp:358-367 | accepted exactly for 1-byte payloads; then the armor id and damage type are the two nibbles |
| RefSerials.RefSerial.DecodeToProjectileLaunch | src/tap/communication/serial/ref_serial.cpp:369-381 | accepted exactly for 7-byte payloads; then the launch fields and the time are stored |
| RefSerials.RefSerial.DecodeToBulletsRemain | src/tap/communication/serial/ref_serial.cpp:383-393 | accepted exactly for 6-byte payloads; then the three counts are read |
| RefSerials.RefSerial.DecodeToRFIDStatus | src/tap/communication/serial/ref_serial.cpp:395-403 | accepted exactly for 4-byte payloads; then the RFID word is read |
| RefSerials.RefSerial.DecodeToDartStation | src/tap/communication/serial/ref_serial.cpp:405-415 | accepted exactly for 6-byte payloads; then the 2-bit state and two times are read |
| RefSerials.RefSerial.DecodeToRadarProgressAsWritten | src/tap/communication/serial/ref_serial.cpp:434-448 | accepted exactly for 6-byte payloads; then the progress is decoded as written |
| RefSerials.RefSerial.DecodeToRadarProgress | src/tap/communication/serial/ref_serial.cpp:434-448 | accepted exactly for 6-byte payloads; then the progress is the six payload bytes |
| RefSerials.RefSerial.DecodeToSentryInfoAsWritten | src/tap/communication/serial/ref_serial.cpp:450-465 | accepted exactly for 4-byte payloads; then the sentry fields are decoded as written |
| RefSerials.RefSerial.DecodeToSentryInfo | src/tap/communication/serial/ref_serial.cpp:450-465 | accepted exactly for 4-byte payloads; then the sentry fields are decoded from disjoint bit ranges |
| RefSerials.RefSerial.DecodeToRadarInfo | src/tap/communication/serial/ref_serial.cpp:467-478 | accepted exactly for 1-byte payloads; then bits 0-1 and bit 2 are read |
| RefSerials.RefSerial.HandleRobotToRobotCommunication | src/tap/communication/serial/ref_serial.cpp:480-501 | a message is accepted exactly when it holds an interactive header, and the handler registered for its id runs, if there is one |
| RefSerials.RefSerial.AttachRobotToRobotMessageHandler | src/tap/communication/serial/ref_serial.cpp:550-561 | an error exactly for an id already taken or outside 0x0200..0x02FF; otherwise the handler is added and every later message with that id is dispatched to it |
| RefSerials.RefSerial.GetRobotIdBasedOnCurrentRobotTeam | src/tap/communication/serial/ref_serial.cpp:532-548 | an invalid id, or an id on our own team, is returned as is; otherwise the id is moved to our team keeping its role |
| RefSerials.RefSerial.BlindTime | src/tap/communication/serial/ref_serial_data.hpp:362-364 | 5000 ms when our robot is the offender, else 2000 ms |
| RefSerials.RefSerial.OperatorBlinded | src/tap/communication/serial/ref_serial.cpp:563-574 | blinded exactly when data is arriving, a warning was received, and no more than the blind time has passed since |
| SequentialCommands.RequirementsAreUnion | src/tap/control/sequential_command.hpp:44-57 | a subsystem bit is required by the sequence exactly when some sub-command requires it |
| SequentialCommands.Step | src/tap/control/sequential_command.hpp:73-95 | one `execute` moves to the next sub-command or stays, and never past the end |
| SequentialCommands.StepInitializesOnlyWhenReady | src/tap/control/sequential_command.hpp:77-83 | a sub-command is initialized exactly when it was not yet initialized and reports ready |
| SequentialCommands.StepEndsExactlyWhenFinished | src/tap/control/sequential_command.hpp:84-94 | the sub-command executes exactly when it is initialized or ready; it is ended (not interrupted) and the sequence advances exactly when it executed and is finished, and the next one starts uninitialized |
| SequentialCommands.RunCompletes | src/tap/control/sequential_command.hpp:73-105 | when every sub-command is ready and finishes at once, the calls are initialize, execute, end for each in turn and the sequence ends finished |
| SequentialCommands.SequentialCommand.constructor | src/tap/control/sequential_command.hpp:44-57 | the sequence starts at sub-command 0 with the union of all sub-command requirements |
| SequentialCommands.SequentialCommand.GetName | src/tap/control/sequential_command.hpp:59-63 | the name of the current sub-command, or the empty string once the sequence is finished |
| SequentialCommands.SequentialCommand.IsReady | src/tap/control/sequential_command.hpp:65 | the sequence is ready exactly when its first sub-command is |
| SequentialCommands.SequentialCommand.Initialize | src/tap/control/sequential_command.hpp:67-71 | the sequence restarts at sub-command 0, not yet initialized |
| SequentialCommands.SequentialCommand.Execute | src/tap/control/sequential_command.hpp:73-95 | the new progress and the calls made on sub-commands are those of `Step` |
| SequentialCommands.SequentialCommand.End | src/tap/control/sequential_command.hpp:97-103 | ending calls `end(interrupted)` on the current sub-command, or nothing once finished |
| SequentialCommands.SequentialCommand.IsFinished | src/tap/control/sequential_command.hpp:105 | every sub-command has been run; `RunCompletes` shows a run reaches it |
| CalibrateCommands.CalibrateCommand.IsReady | src/tap/control/setpoint/commands/calibrate_command.cpp:35 | ready exactly when the subsystem is online |
| CalibrateCommands.CalibrateCommand.Initialize | src/tap/control/setpoint/commands/calibrate_command.cpp:38 | after `initialize` the command is not finished |
| CalibrateCommands.CalibrateCommand.Execute | src/tap/control/setpoint/commands/calibrate_command.cpp:40 | the command is finished exactly when this calibration attempt succeeded |
| CalibrateCommands.CalibrateCommand.End | src/tap/control/setpoint/commands/calibrate_command.cpp:42 | `end` changes nothing |
| CalibrateCommands.CalibrateCommand.IsFinished | src/tap/control/setpoint/commands/calibrate_command.cpp:44 | whether the last calibration attempt succeeded; `Initialize` clears it and `Execute` sets it |
| DjiMotorTx.NormalizedIndex16 | mcb-2019-2020-project/src/aruwlib/motor/dji_motor_tx_handler.cpp:19 | the `int16_t` index is the normalized id whenever that fits in 16 bits |
| DjiMotorTx.AddAccessesAsWritten | mcb-2019-2020-project/src/aruwlib/motor/dji_motor_tx_handler.cpp:19-24 | as written, the slot at the unchecked index is read before the bounds are checked |
| DjiMotorTx.AddAccessesInBounds | mcb-2019-2020-project/src/aruwlib/motor/dji_motor_tx_handler.cpp:19-24 | corrected: every slot access of `addMotorToManager` is within the store |
| DjiMotorTx.AddAccessesAsWrittenOutOfRange | mcb-2019-2020-project/src/aruwlib/motor/dji_motor_tx_handler.cpp:19-21 | as written, ids 0x200 and 0x209 read slots -1 and 8, outside the 8-slot store |
| DjiMotorTx.AddAccessesAgreeInBounds | mcb-2019-2020-project/src/aruwlib/motor/dji_motor_tx_handler.cpp:19-24 | for an in-bounds index the as-written and corrected accesses are the same |
| DjiMotorTx.Added | mcb-2019-2020-project/src/aruwlib/motor/dji_motor_tx_handler.cpp:17-25 | adding succeeds exactly when the index is in bounds and the slot empty; then the motor is in its slot; no other slot changes; a failed add changes nothing |
| DjiMotorTx.NormalizedIndex32 | mcb-2019-2020-project/src/aruwlib/motor/dji_motor_tx_handler.cpp:113 | the `uint32_t` index is the normalized id for ids from 0x201 |
| DjiMotorTx.Removed | mcb-2019-2020-project/src/aruwlib/motor/dji_motor_tx_handler.cpp:111-124 | removing reports an error exactly when the slot is empty; the slot ends empty; no other slot changes |
| DjiMotorTx.NormalizedIndicesAgree | mcb-2019-2020-project/src/aruwlib/motor/dji_motor_tx_handler.cpp:19-113 | for an in-bounds index both normalizations agree |
| DjiMotorTx.AddThenRemove | mcb-2019-2020-project/src/aruwlib/motor/dji_motor_tx_handler.cpp:17-124 | removing a motor just added succeeds and restores the store |
| DjiMotorTx.RemoveTwice | mcb-2019-2020-project/src/aruwlib/motor/dji_motor_tx_handler.cpp:111-124 | removing the same motor twice reports an error the second time and changes nothing |
| DjiMotorTx.Routed | mcb-2019-2020-project/src/aruwlib/motor/dji_motor_tx_handler.cpp:82-96 | every motor routed to the low frame has `identifier - 0x200`, as a `uint32_t`, at most 4, and every motor routed to the high frame does not |
| DjiMotorTx.RoutingPartitions | mcb-2019-2020-project/src/aruwlib/motor/dji_motor_tx_handler.cpp:82-96 | the motors of the low and high frames together are exactly the motors present in the store |
| DjiMotorTx.RoutingOfMotorIds | mcb-2019-2020-project/src/aruwlib/motor/dji_motor_tx_handler.cpp:87 | of the ids 0x201..0x208, exactly 0x201..0x204 go to the low frame |
| DjiMotorTx.DjiMotorTxHandler.constructor | mcb-2019-2020-project/src/aruwlib/motor/dji_motor_tx_handler.cpp:17-40 | both stores start empty |
| DjiMotorTx.DjiMotorTxHandler.AddMotorToStore | mcb-2019-2020-project/src/aruwlib/motor/dji_motor_tx_handler.cpp:17-25 | the result and the new store are those of `Added` |
| DjiMotorTx.DjiMotorTxHandler.AddMotorToManager | mcb-2019-2020-project/src/aruwlib/motor/dji_motor_tx_handler.cpp:27-40 | the motor's bus store is updated as `Added`, the other bus store is unchanged, and a successful add is read back by the getter |
| DjiMotorTx.DjiMotorTxHandler.RemoveFromStore | mcb-2019-2020-project/src/aruwlib/motor/dji_motor_tx_handler.cpp:111-124 | the result and the new store are those of `Removed` |
| DjiMotorTx.DjiMotorTxHandler.RemoveFromMotorManager | mcb-2019-2020-project/src/aruwlib/motor/dji_motor_tx_handler.cpp:99-109 | the motor's bus store is updated as `Removed` and the other bus store is unchanged |
| DjiMotorTx.DjiMotorTxHandler.ZeroTxMessage | mcb-2019-2020-project/src/aruwlib/motor/dji_motor_tx_handler.cpp:126-132 | the first `length` bytes become zero and the rest of the buffer is unchanged |
| DjiMotorTx.DjiMotorTxHandler.SerializeMotorStoreSendData | mcb-2019-2020-project/src/aruwlib/motor/dji_motor_tx_handler.cpp:77-97 | the loop routes the present motors in slot order to the low and high frames, together exactly the present motors |
| DjiMotorTx.DjiMotorTxHandler.GetMotorData | mcb-2019-2020-project/src/aruwlib/motor/dji_motor_tx_handler.cpp:134-142 | the getter returns the motor stored in that bus's slot |
| Sh1107Rotation.ColumnPrefixBit | src/tap/display/sh1107_impl.hpp:32-38 | after n steps of the inner loop, bit c of `temp[i]` is bit i of `box[7 - c]`, if that byte was visited |
| Sh1107Rotation.RotatedBoxBit | src/tap/display/sh1107_impl.hpp:28-41 | the rotated box has bit `7 - j` of byte i equal to bit i of byte j: a quarter turn of the 8x8 bit block |
| Sh1107Rotation.FourTurns | src/tap/display/sh1107_impl.hpp:28-41 | four rotations give the block back |
| Sh1107Rotation.RotateBox | src/tap/display/sh1107_impl.hpp:28-41 | the first 8 bytes become the rotated block and the rest are unchanged |
| Sh1107Rotation.GatherColumns | src/tap/display/sh1107_impl.hpp:30-38 | the nested loop leaves a new 8-byte `temp` equal to the rotated block, the box itself untouched |
| Sh1107Rotation.TargetBytes | src/tap/display/sh1107_impl.hpp:53-57 | the 8 bytes gathered from the source matrix for one block |
| Sh1107Rotation.TurnedPixel | src/tap/display/sh1107_impl.hpp:49-66 | bit `row % 8` of the turned byte at page `row / 8`, column x, is the source pixel at row x, column row |
| Sh1107Rotation.CopyTurnedBlocks | src/tap/display/sh1107_impl.hpp:49-66 | every cell of a full block inside the height and width becomes its turned byte and every other cell is unchanged |
| Sh1107Rotation.CopyTurnedBlock | src/tap/display/sh1107_impl.hpp:53-64 | one block: the eight cells `rotatedMatrix[i][8j..8j+7]` become their turned bytes and every other cell is unchanged |
| Sh1107Rotation.GatherTarget | src/tap/display/sh1107_impl.hpp:53-57 | a new 8-byte array holding byte `matrix[j][8i + 7 - k]` at each k |
| Sh1107Rotation.MirrorPages | src/tap/display/sh1107_impl.hpp:68-76 | on each page inside the height, columns below the width are swapped end for end; everything else is unchanged |
| Sh1107Rotation.RotateMatrix | src/tap/display/sh1107_impl.hpp:43-77 | the whole result cell by cell; when the width is a multiple of 8, the pixel at (row, c) is the source pixel at (width - 1 - c, row), a quarter turn |
| MotorSims.LimitValInt | src/tap/motor/motorsim/motor_sim.cpp:40-43 | the value clamped to `[min, max]`, unchanged inside it |
| MotorSims.LimitValReal | src/tap/motor/motorsim/motor_sim.cpp:45 | the float value clamped to `[min, max]`, unchanged inside it |
| MotorSims.TruncRem | src/tap/motor/motorsim/motor_sim.cpp:56-57 | the C++ `%`: smaller than the divisor in magnitude, of the dividend's sign, and congruent to it |
| MotorSims.TruncRemOfNegative | src/tap/motor/motorsim/motor_sim.cpp:56-57 | a negative dividend not divisible by the divisor leaves a negative remainder |
| MotorSims.EncoderGoesNegative | src/tap/motor/motorsim/motor_sim.cpp:56-57 | from 0, -60 rpm for 1 ms moves an 8192-count encoder to -8 |
| MotorSims.Speed | src/tap/motor/motorsim/motor_sim.cpp:55 | the speed `update` computes from the load and the current |
| MotorSims.NextEncoder | src/tap/motor/motorsim/motor_sim.cpp:57-58 | the encoder count after `dt` ms stays within one revolution either way |
| MotorSims.Current | src/tap/motor/motorsim/motor_sim.cpp:61 | the current is at most `maxCurrent` in magnitude and in proportion to the input |
| MotorSims.EncoderReadingWraps | src/tap/motor/motorsim/motor_sim.cpp:63 | a count of 40000 reads back from `getEnc` as 40000 - 2^16 |
| MotorSims.MotorSim.constructor | src/tap/motor/motorsim/motor_sim.cpp:31 | the motor starts with encoder, speed and input zero |
| MotorSims.MotorSim.Reset | src/tap/motor/motorsim/motor_sim.cpp:33-38 | encoder, speed and input become zero; the load and the time are kept |
| MotorSims.MotorSim.SetMotorInput | src/tap/motor/motorsim/motor_sim.cpp:40-43 | the input is clamped to the configured magnitude; nothing else changes |
| MotorSims.MotorSim.GetMaxTorque | src/tap/motor/motorsim/motor_sim.cpp:67 | the maximum torque is never negative |
| MotorSims.MotorSim.SetLoad | src/tap/motor/motorsim/motor_sim.cpp:45 | the load is clamped to plus or minus the maximum torque; nothing else changes |
| MotorSims.MotorSim.GetCurrent | src/tap/motor/motorsim/motor_sim.cpp:61 | the current is the input's share of the maximum current, and never exceeds that maximum in magnitude |
| MotorSims.MotorSim.Update | src/tap/motor/motorsim/motor_sim.cpp:47-59 | the speed comes from the load and the current, the encoder moves by the turn made since the last update (a `uint32_t` difference) and stays within one revolution, and the time is recorded |
| MotorSims.MotorSim.GetEnc | src/tap/motor/motorsim/motor_sim.cpp:63 | the count converted to `int16_t`: congruent to it modulo 2^16, equal to it whenever it fits, and so always within one revolution for an encoder of at most 2^15 steps |
| MotorSims.CurrentBound | src/tap/motor/motorsim/motor_sim.cpp:61 | a fraction of at most one of a non-negative maximum is at most that maximum |
| BuildArgs.TargetEnv | test-project/build_tools/parse_args.py:57-64 | a target maps to `tests`, `sim` or `hardware` exactly when it is in that list, and to nothing otherwise |
| BuildArgs.HelpIsNoTarget | test-project/build_tools/parse_args.py:54-64 | `help` is in none of the target lists |
| BuildArgs.ChosenProfile | test-project/build_tools/parse_args.py:69-71 | the `profile` option if given, else `debug` for tests and `release` otherwise |
| BuildArgs.DefaultProfilesValid | test-project/build_tools/parse_args.py:69-73 | the default profiles are valid ones |
| BuildArgs.ChosenProfiling | test-project/build_tools/parse_args.py:75 | the `profiling` option if given, else `false` |
| BuildArgs.ParsedArgs | test-project/build_tools/parse_args.py:69-82 | the returned dictionary has exactly the three settings, plus `TEST` when a test filter is given, with the chosen values |
| BuildArgs.SConsArguments.constructor | test-project/build_tools/parse_args.py:41 | the options dictionary as given |
| BuildArgs.SConsArguments.ParseArgs | test-project/build_tools/parse_args.py:41-82 | more than one target or none raises, `help` exits with 0 and an unknown target raises, all leaving the options alone; an accepted target writes the chosen profile back, then raises for a bad profile or profiling switch, else returns the dictionary, whose values are then all valid |
| BuildArgs.SConsArguments.ParseOptions | test-project/build_tools/parse_args.py:69-82 | the profile is written back before it is checked; then the profile and the profiling switch are validated in that order |

## Left out

- IEEE-754 behaviour (rounding, `-0.0`, NaN, infinities) is not modelled: floats are exact reals.
- `sinf`, `cosf`, `asinf` and `atan2f` are not computed. They are uninterpreted functions in a `Trig` value, and each lemma states the identities it needs (sin² + cos² = 1, `asin` inverts `sin` on `[-π/2, π/2]`, `atan2` of a positive multiple, `atan2(0, 0) = 0`) as requirements.
- The `Transform` constructors other than the dynamic-position one, `apply`, `compose`, `composeStatic`, `getInverse`, `projectForward` and the bodies of `getRoll`/`getPitch`/`getYaw` and their velocities: their bodies are in `transform.cpp`, which is not part of this model. The modelled constructor computes both caches, as the header's use of them implies.
- `Transforms.Transform.CheckDynamic`: reads the three angular rates through the corrected `AngularVelocity` getters, because `Transform`'s own rate getters are in `transform.cpp`. All three rates are tested, so swapping two of them does not change the result.
- `LinearInterpolationPredictorWrapped`'s constructor, `update` and `reset`: they are only declared in the header.
- `computeTravelTime` and `findTargetProjectileIntersection`: the ballistics solvers are only declared in the header.
- `decodeToRobotPosition` and `decodeToGroundPositions`, and every float field of the other decoders (bullet speed, yaw and similar): they reinterpret bytes as IEEE floats.
- `messageReceiveCallback`: the dispatch on message type (the type constants are not part of this model), the frame header and CRC checks, the offline timeout and the transmission semaphore.
- `getRefSerialReceivingData` and the millisecond clock: they are parameters of the members that read them.
- `RefSerials.RefSerial.HandleRobotToRobotCommunication`: the handler is identified by its key, and the call into it is not modelled.
- Unshown constants and helpers, modelled by their evident meaning:
  - `DPS_TRACKER_DEQUE_SIZE` is 20;
  - the receive buffer holds 256 bytes;
  - the serial frame header is 5 bytes;
  - a CAN bus has 8 motor slots;
  - `DJI_MOTOR_NORMALIZED_ID(id)` is `id - 0x201`;
  - `limitVal` clamps to `[min, max]`;
  - `compareFloatClose(a, b, eps)` is `|a - b| < eps`;
  - `abs` in `minDifference` is the float absolute value;
  - `convertFromLittleEndian` assembles bytes low byte first;
  - `tap::algorithms::fromEulerAngles`, which the `Orientation(roll, pitch, yaw)` constructor calls, is taken to be the static `Orientation::fromEulerAngles` formula of orientation.hpp:69-81.
- `processCanSendData` and the CAN driver: the transmit handler is modelled up to the two frames each bus's motors are routed to.
- A motor's own `serializeCanSendData`: motors appear in the frames as the routed values, compared by value rather than by pointer identity.
- The SH1107 driver's SPI transfers, `updateNonblocking`, `setInvert` and `initializeBlocking`: they are I/O.
- `MotorSim::getInput` and `MotorSim::getRPM`: plain getters, and `getRPM`'s `int16_t` cast of the float speed is not modelled.
- `parse_args`: the usage text printed for `help` and the text of each exception message. An exception is a `Raised` outcome with its kind.
- Sub-commands and subsystems: they appear only through their answers (`isReady`, `isFinished`, `isOnline`, `calibrateHere`). A null sub-command, which the constructor treats as fatal, cannot occur because sub-commands are values.
- The IMU drivers, the display menus, the mock headers and the build scripts other than `parse_args.py`: they are drivers, user interface or tooling with no logic in this model's scope.
- `DjiMotorTx.DjiMotorTxHandler.RemoveFromMotorManager`, `DjiMotorTx.DjiMotorTxHandler.GetMotorData`: require the normalized index to be in bounds, because the source indexes the store without a check. `GetMotorData` takes that normalized index (`DJI_MOTOR_NORMALIZED_ID(motorId)`) from its caller rather than the `MotorId`.
- `DjiMotorTx.AddThenRemove`: requires the normalized id below 0x8000, because the `int16_t` index used by `add` and the `uint32_t` index used by `remove` differ from id 0x8201 upwards.
- `RefSerials.RefSerial.OperatorBlinded`: states the exact condition only when the clock reading is not below the warning time; earlier readings wrap around on `uint32_t` and are only bounded by the general `ensures`.
- `WrappedFloats.WrappedFloat.AddAssign`, `WrappedFloats.WrappedFloat.SubAssign`: the operand is a value, so they model `a += b` and `a -= b` for an operand that is not the object itself. The self-aliased calls `a += a` and `a -= a` are the separate methods `AddAssignSelf` and `SubAssignSelf` (see Findings).
- `MotorSims.ValidConfig`, and through it `MotorSims.MotorSim.constructor`, `MotorSims.Speed`, `MotorSims.NextEncoder`, `MotorSims.Current` and every `MotorSim` method: require `maxencoder > 0` and `maxInputMag > 0` (divisors of `%` and `/`), `currentLim != 0` (a divisor), and `maxCurrent >= 0` and `kt >= 0` (so that the clamping ranges of `setMotorInput` and `setLoad` are not inverted). The source checks none of these; a configuration that breaks them is not modelled.
- `WrappedRanges.RangeOverlap`, and the lemmas about it: the corrected overlap measures from the window's lower bound where the code uses 0. The as-written formula agrees with it when the window starts at 0 (`RangeOverlapAsWrittenAtZero`).

The `limitValue` documentation gives its examples for the window `[-10, 10)`. There, the code returns 3 for value 9 and arc (1, 3), not the documented 1 (`LimitValueExampleOtherBounds`). All the documented examples hold for the window `[0, 10)` (`LimitValueExamples`). The model follows the code.

## Findings

| source | as written | input that shows it | evidently intended | confidence | as-written member | corrected member |
|---|---|---|---|---|---|---|
| src/tap/algorithms/wrapped_float.cpp:127-135 | a value below the window whose distance to the upper bound is a whole number of intervals wraps to `upper + fmodf(…) = upperBound`, outside `[lower, upper)` | window `[0, 10)`, value -10: wrapped 10 with revolutions -1, unwrapped value 0 instead of -10 | the wrapped value is `lowerBound` and the unwrapped value is kept | not executed | WrappedFloats.WrapAsWrittenCounterexample | WrappedFloats.WrapPreservesValue |
| src/tap/algorithms/wrapped_float.cpp:206-220 | `rangeOverlap` measures arc lengths from the window's origin rather than its lower bound | window `[-10, 10)`, arcs `[-10, 0)` and `[5, -5)`: result -10 | the overlap length, 5 here, never negative, and symmetric | not executed | WrappedRanges.RangeOverlapAsWrittenCounterexample | WrappedRanges.RangeOverlap, WrappedRanges.RangeOverlapSymmetric |
| src/tap/algorithms/wrapped_float.cpp:43-59 | `operator+=` and `operator-=` read `other.revolutions` after `wrapValue` has updated `this->revolutions`; when `other` is the object itself the carry is counted twice, or the revolutions cancel | window `[0, 10)`, `a` at 6: `a += a` reads 22; window `[5, 15)`, `a` at 6: `a -= a` reads 10 | `a += a` reads `2a` and `a -= a` reads 0, as for a copy of `a` | not executed | WrappedFloats.AddSelfAsWrittenCounterexample, WrappedFloats.SubSelfAsWrittenCounterexample | WrappedFloats.WrappedFloat.AddAssign, WrappedFloats.WrappedFloat.SubAssign |
| src/tap/algorithms/transforms/angular_velocity.hpp:49-54 | `getRollVelocity` reads the entry holding the pitch rate and `getPitchVelocity` the one holding the roll rate | rates (1, 0, 0): roll velocity 0, pitch velocity 1 | each getter returns the rate it is named after | not executed | AngularVelocities.GettersAsWrittenCounterexample | AngularVelocities.RatesRoundTrip |
| src/tap/algorithms/transforms/transform.hpp:385-400 | the `Vector` overloads of `updateAcceleration` assign the velocity | any acceleration `a`: the velocity becomes `a` and the acceleration is unchanged | the acceleration becomes `a` and the velocity is unchanged | not executed | Transforms.AccelerationAsWrittenOverwritesVelocity | Transforms.AccelerationUpdate |
| src/tap/algorithms/transforms/transform.hpp:266-283 | `updateTranslation(DynamicPosition)` replaces the velocity and acceleration without recomputing `dynamic` | a transform at rest given velocity (1, 0, 0): `dynamic` stays false | `dynamic` agrees with the new readings | not executed | Transforms.DynamicTranslationAsWrittenStale | Transforms.DynamicSettersRefresh |
| src/tap/algorithms/transforms/transform.hpp:326-343 | `updateRotation(DynamicOrientation)` replaces the angular velocity without recomputing `dynamic` | a transform at rest given yaw rate 1: `dynamic` stays false | `dynamic` agrees with the new readings | not executed | Transforms.DynamicRotationAsWrittenStale | Transforms.DynamicSettersRefresh |
| src/tap/communication/serial/ref_serial.cpp:441-445 | `decodeToRadarProgress` checks a 6-byte payload, then reads every field one byte late: `data[0]` is skipped, hero, engineer, standard3 and standard4 come from bytes 1-4, the sentry from `data[6]` (past the payload), `data[5]` is not read and `standard5` is never written | two buffers equal in bytes 0-5 that differ in byte 6 decode differently | the six fields are bytes 0-5, in order | not executed | RefSerials.RadarProgressAsWrittenReadsPastPayload | RefSerials.RadarProgressReadsOnlyPayload |
| src/tap/communication/serial/ref_serial.cpp:510-514 | when the damage tracker is full, its newest event is dropped (`removeBack`; events are appended at the back and expire from the front) without subtracting its damage from `receivedDps` | a full tracker of one-damage events, then one more damage of 1: the total no longer equals the sum of the events | the total always equals the sum of the tracked events | not executed | DamageTracking.RecordedAsWrittenCounterexample | DamageTracking.RecordedKeepsConsistent |
| src/tap/communication/serial/ref_serial.cpp:460-462 | the remote health exchanges are taken from bits 14-17, overlapping bit 14 of the projectile exchanges in bits 11-14 | word 0x4000 (8 projectile exchanges, no health exchanges): one health exchange | the health exchanges are bits 15-18 | not executed | RefSerials.SentryInfoAsWrittenCounterexample | RefSerials.SentryInfoRoundTrip |
| mcb-2019-2020-project/src/aruwlib/motor/dji_motor_tx_handler.cpp:19-23 | `addMotorToManager` reads the slot at the normalized index before checking that the index is in bounds | motor ids 0x200 and 0x209: slots -1 and 8 of an 8-slot store are read | the bounds are checked before any slot is read | not executed | DjiMotorTx.AddAccessesAsWrittenOutOfRange | DjiMotorTx.AddAccessesInBounds |
