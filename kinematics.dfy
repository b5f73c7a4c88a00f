/**
 * Closed-form particle kinematics.
 *
 * A particle does not integrate its motion step by step: each axis stores a start
 * position, a start velocity and a constant acceleration, all referred to the time
 * `t0` at which the particle's descriptor was last written. The state at an arbitrary
 * moment is then evaluated algebraically. The setters re-solve the stored descriptor so
 * that the quantities that are NOT being set keep their current value (no jump).
 * Arithmetic is over `real`: the rounding of the C++ `qreal` (double) arithmetic is idealised.
 */
module Kinematics {

  /** One axis of a motion descriptor: position, velocity and acceleration at `t0`. */
  datatype Axis = Axis(pos: real, vel: real, acc: real)

  /** Seconds elapsed since the reference time `t0` (seconds) when the system clock
      reads `timeInt` milliseconds. */
  function Age(timeInt: int, t0: real): real
  {
    timeInt as real / 1000.0 - t0
  }

  /** Position after `t` seconds: x0 + s*t + a*t*t/2. */
  function PositionAt(m: Axis, t: real): real
  {
    m.pos + m.vel * t + 0.5 * m.acc * t * t
  }

  /** Velocity after `t` seconds: s + a*t. */
  function VelocityAt(m: Axis, t: real): real
  {
    m.vel + t * m.acc
  }

  /** The descriptor stored by setInstantaneousAX/AY: acceleration `a`, with position
      and velocity at age `t` unchanged. */
  function WithAcceleration(m: Axis, a: real, t: real): (r: Axis)
    ensures r.acc == a
    ensures VelocityAt(r, t) == VelocityAt(m, t)
    ensures PositionAt(r, t) == PositionAt(m, t)
  {
    var s := (m.vel + t * m.acc) - t * a;
    var e := m.pos + m.vel * t + 0.5 * m.acc * t * t;
    Axis(e - t * s - 0.5 * t * t * a, s, a)
  }

  /** The descriptor stored by setInstantaneousSX/SY: velocity `v` at age `t`, with the
      acceleration and the position at age `t` unchanged. */
  function WithVelocity(m: Axis, v: real, t: real): (r: Axis)
    ensures r.acc == m.acc
    ensures VelocityAt(r, t) == v
    ensures PositionAt(r, t) == PositionAt(m, t)
  {
    var s := v - t * m.acc;
    var e := m.pos + m.vel * t + 0.5 * m.acc * t * t;
    Axis(e - t * s - 0.5 * t * t * m.acc, s, m.acc)
  }

  /** The descriptor stored by setInstantaneousX/Y: position `x` at age `t`, with the
      stored velocity and acceleration (hence the current velocity) unchanged. */
  function WithPosition(m: Axis, x: real, t: real): (r: Axis)
    ensures r.vel == m.vel && r.acc == m.acc
    ensures PositionAt(r, t) == x
    ensures VelocityAt(r, t) == VelocityAt(m, t)
  {
    Axis(x - t * m.vel - 0.5 * t * t * m.acc, m.vel, m.acc)
  }

  /** Two descriptors with the same acceleration that agree on position and velocity at
      one age are the same descriptor. */
  lemma {:induction false} DescriptorDeterminedAt(m: Axis, n: Axis, t: real)
    requires m.acc == n.acc
    requires VelocityAt(m, t) == VelocityAt(n, t)
    requires PositionAt(m, t) == PositionAt(n, t)
    ensures m == n
  {
    assert m.vel == n.vel;
    assert m.pos + m.vel * t == n.pos + n.vel * t;
  }

  /** WithAcceleration is the only descriptor with acceleration `a` that is continuous
      with `m` at age `t`, so the setter is characterised by its continuity promise. */
  lemma {:induction false} WithAccelerationUnique(m: Axis, a: real, t: real, r: Axis)
    ensures (r.acc == a && VelocityAt(r, t) == VelocityAt(m, t) && PositionAt(r, t) == PositionAt(m, t))
            <==> r == WithAcceleration(m, a, t)
  {
    if r.acc == a && VelocityAt(r, t) == VelocityAt(m, t) && PositionAt(r, t) == PositionAt(m, t) {
      DescriptorDeterminedAt(r, WithAcceleration(m, a, t), t);
    }
  }

  /** WithVelocity is the only descriptor keeping the acceleration and the current
      position of `m` whose current velocity is `v`. */
  lemma {:induction false} WithVelocityUnique(m: Axis, v: real, t: real, r: Axis)
    ensures (r.acc == m.acc && VelocityAt(r, t) == v && PositionAt(r, t) == PositionAt(m, t))
            <==> r == WithVelocity(m, v, t)
  {
    if r.acc == m.acc && VelocityAt(r, t) == v && PositionAt(r, t) == PositionAt(m, t) {
      DescriptorDeterminedAt(r, WithVelocity(m, v, t), t);
    }
  }

  /** Setting the acceleration back to its previous value, at the same age, restores
      the original descriptor. */
  lemma {:induction false} WithAccelerationUndo(m: Axis, a: real, t: real)
    ensures WithAcceleration(WithAcceleration(m, a, t), m.acc, t) == m
  {
    var r := WithAcceleration(m, a, t);
    DescriptorDeterminedAt(WithAcceleration(r, m.acc, t), m, t);
  }

  /** Setting the current velocity to the value it already has changes nothing. */
  lemma {:induction false} WithVelocityOfCurrentIsIdentity(m: Axis, t: real)
    ensures WithVelocity(m, VelocityAt(m, t), t) == m
  {
    DescriptorDeterminedAt(WithVelocity(m, VelocityAt(m, t), t), m, t);
  }

  /** Setting the current position to the value it already has changes nothing. */
  lemma {:induction false} WithPositionOfCurrentIsIdentity(m: Axis, t: real)
    ensures WithPosition(m, PositionAt(m, t), t) == m
  {
    DescriptorDeterminedAt(WithPosition(m, PositionAt(m, t), t), m, t);
  }

  /** Between affector applications a particle moves as a point mass under constant
      acceleration: evaluating at a later age equals re-basing the descriptor at the
      earlier age and evaluating the difference. */
  lemma {:induction false} RebaseConsistent(m: Axis, t: real, u: real)
    ensures PositionAt(Axis(PositionAt(m, t), VelocityAt(m, t), m.acc), u) == PositionAt(m, t + u)
    ensures VelocityAt(Axis(PositionAt(m, t), VelocityAt(m, t), m.acc), u) == VelocityAt(m, t + u)
  {
    assert (t + u) * (t + u) == t * t + 2.0 * t * u + u * u;
  }
}
