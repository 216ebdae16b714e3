/**
 * The kinematic projection of the ballistics header: position under constant acceleration,
 * per axis and for a 3D state.
 */
module Ballistics {
  /** `modm::Vector3f`. */
  datatype Vector3f = Vector3f(x: real, y: real, z: real)

  /** `quadraticKinematicProjection(dt, s, v, a)`: `s + v dt + a dt^2 / 2`, `powf(dt, 2)` as `dt * dt`. */
  function QuadraticKinematicProjection(dt: real, s: real, v: real, a: real): real
  {
    s + v * dt + 0.5 * a * (dt * dt)
  }

  /** Projecting by no time leaves the position where it is. */
  lemma ProjectionAtZero(s: real, v: real, a: real)
    ensures QuadraticKinematicProjection(0.0, s, v, a) == s
  {
  }

  /** Without acceleration the motion is linear, backwards in time as well as forwards. */
  lemma ProjectionWithoutAcceleration(dt: real, s: real, v: real)
    ensures QuadraticKinematicProjection(dt, s, v, 0.0) == s + v * dt
  {
  }

  /**
   * Projecting by `t1` and then by `t2` from the state reached, whose velocity is `v + a t1`,
   * is projecting by `t1 + t2`.
   */
  lemma ProjectionComposes(t1: real, t2: real, s: real, v: real, a: real)
    ensures QuadraticKinematicProjection(t2, QuadraticKinematicProjection(t1, s, v, a), v + a * t1, a)
            == QuadraticKinematicProjection(t1 + t2, s, v, a)
  {
    var p := QuadraticKinematicProjection(t1, s, v, a);
    calc {
      QuadraticKinematicProjection(t2, p, v + a * t1, a);
      == p + (v + a * t1) * t2 + 0.5 * a * (t2 * t2);
      == s + v * t1 + 0.5 * a * (t1 * t1) + v * t2 + a * (t1 * t2) + 0.5 * a * (t2 * t2);
      == s + v * (t1 + t2) + 0.5 * a * ((t1 + t2) * (t1 + t2));
    }
  }

  /** `SecondOrderKinematicState`: position, velocity and acceleration of an object. */
  datatype SecondOrderKinematicState = SecondOrderKinematicState(
    position: Vector3f, velocity: Vector3f, acceleration: Vector3f)
  {
    /** `projectForward(dt)`: the quadratic projection on each axis on its own. */
    function ProjectForward(dt: real): Vector3f
    {
      Vector3f(QuadraticKinematicProjection(dt, position.x, velocity.x, acceleration.x),
               QuadraticKinematicProjection(dt, position.y, velocity.y, acceleration.y),
               QuadraticKinematicProjection(dt, position.z, velocity.z, acceleration.z))
    }

    /** The state reached after `dt`: projected position, velocity advanced by `a dt`. */
    function Advanced(dt: real): SecondOrderKinematicState
    {
      SecondOrderKinematicState(
        ProjectForward(dt),
        Vector3f(velocity.x + acceleration.x * dt, velocity.y + acceleration.y * dt,
                 velocity.z + acceleration.z * dt),
        acceleration)
    }
  }

  /** Projecting a 3D state by no time gives its position. */
  lemma ProjectForwardAtZero(k: SecondOrderKinematicState)
    ensures k.ProjectForward(0.0) == k.position
  {
  }

  /** Projecting a 3D state forward composes over time on every axis. */
  lemma ProjectForwardComposes(k: SecondOrderKinematicState, t1: real, t2: real)
    ensures k.Advanced(t1).ProjectForward(t2) == k.ProjectForward(t1 + t2)
  {
    var l, r := k.Advanced(t1).ProjectForward(t2), k.ProjectForward(t1 + t2);
    assert l.x == r.x by {
      ProjectionComposes(t1, t2, k.position.x, k.velocity.x, k.acceleration.x);
    }
    assert l.y == r.y by {
      ProjectionComposes(t1, t2, k.position.y, k.velocity.y, k.acceleration.y);
    }
    assert l.z == r.z by {
      ProjectionComposes(t1, t2, k.position.z, k.velocity.z, k.acceleration.z);
    }
  }
}
