/**
 * A platform or hazard that moves on its own: a countdown restarts every
 * `cycleTime` seconds; in line-cycle mode each restart reverses the
 * direction, in infinite mode the direction never changes. The rigidbody's
 * velocity is the normalized direction times the speed; normalization is the
 * engine's, so the model records the direction the velocity was set from.
 */
module Movers {
  import opened Engine

  datatype Mode = Infinite | LineCycle

  /** The direction and the countdown. */
  datatype Mover = Mover(direction: Vec2, aiTimer: real)

  /** Whether the frame from `m` of `dt` seconds ends the cycle. */
  predicate Expires(m: Mover, dt: real)
  {
    m.aiTimer - dt <= 0.0
  }

  /** One frame: the countdown runs; at expiry it restarts and a line cycle reverses. */
  function Tick(m: Mover, dt: real, mode: Mode, cycleTime: real): (r: Mover)
    ensures !Expires(m, dt) ==> r == Mover(m.direction, m.aiTimer - dt)
    ensures Expires(m, dt) ==> r.aiTimer == cycleTime
    ensures Expires(m, dt) && mode == LineCycle ==> r.direction == m.direction.Neg()
    ensures mode == Infinite ==> r.direction == m.direction
  {
    var t := m.aiTimer - dt;
    if t > 0.0 then Mover(m.direction, t)
    else if mode == LineCycle then Mover(m.direction.Neg(), cycleTime)
    else Mover(m.direction, cycleTime)
  }

  /** A run of frames: the final state and the number of expiries. */
  function Run(m: Mover, dts: seq<real>, mode: Mode, cycleTime: real): (Mover, nat)
    decreases |dts|
  {
    if dts == [] then (m, 0)
    else
      var rest := Run(Tick(m, dts[0], mode, cycleTime), dts[1..], mode, cycleTime);
      (rest.0, rest.1 + if Expires(m, dts[0]) then 1 else 0)
  }

  /**
   * After any run a line cycle has reversed once per expiry, so it points the
   * original way exactly after an even number of them; an infinite mover never turns.
   */
  lemma {:induction false} RunDirection(m: Mover, dts: seq<real>, mode: Mode, cycleTime: real)
    ensures mode == Infinite ==> Run(m, dts, mode, cycleTime).0.direction == m.direction
    ensures mode == LineCycle ==>
      Run(m, dts, mode, cycleTime).0.direction ==
        if Run(m, dts, mode, cycleTime).1 % 2 == 0 then m.direction else m.direction.Neg()
    decreases |dts|
  {
    if dts != [] {
      var next := Tick(m, dts[0], mode, cycleTime);
      RunDirection(next, dts[1..], mode, cycleTime);
      assert next.direction.Neg() == m.direction || next.direction == m.direction;
    }
  }

  /** A timer started at the cycle time, with positive frame times, stays within (0, cycleTime]. */
  lemma {:induction false} RunTimerBounded(m: Mover, dts: seq<real>, mode: Mode, cycleTime: real)
    requires 0.0 < m.aiTimer <= cycleTime
    requires forall i :: 0 <= i < |dts| ==> dts[i] > 0.0
    ensures 0.0 < Run(m, dts, mode, cycleTime).0.aiTimer <= cycleTime
    decreases |dts|
  {
    if dts != [] {
      RunTimerBounded(Tick(m, dts[0], mode, cycleTime), dts[1..], mode, cycleTime);
    }
  }

  class MovingObject {
    var direction: Vec2
    const moveSpeed: real
    var aiTimer: real
    const mode: Mode
    const cycleTime: real
    /** The direction the rigidbody's velocity was last set from (times `moveSpeed`, normalized). */
    var velocityDirection: Vec2

    function State(): Mover
      reads this
    {
      Mover(direction, aiTimer)
    }

    /** The velocity follows the current direction. */
    ghost predicate InStep()
      reads this
    {
      velocityDirection == direction
    }

    constructor (direction: Vec2, moveSpeed: real, aiTimer: real, mode: Mode, cycleTime: real)
      ensures State() == Mover(direction, aiTimer) && this.moveSpeed == moveSpeed
      ensures this.mode == mode && this.cycleTime == cycleTime
    {
      this.direction := direction;
      this.moveSpeed := moveSpeed;
      this.aiTimer := aiTimer;
      this.mode := mode;
      this.cycleTime := cycleTime;
      velocityDirection := Zero2;
    }

    /** The velocity is set and the countdown starts at the cycle time. */
    method Awake()
      modifies `velocityDirection, `aiTimer
      ensures InStep() && aiTimer == cycleTime && direction == old(direction)
    {
      SetVelocity();
      aiTimer := cycleTime;
    }

    /** The velocity is reassigned only when the cycle ends. */
    method Update(dt: real)
      modifies `direction, `aiTimer, `velocityDirection
      ensures State() == Tick(old(State()), dt, mode, cycleTime)
      ensures Expires(old(State()), dt) ==> InStep()
      ensures !Expires(old(State()), dt) ==> velocityDirection == old(velocityDirection)
      ensures old(InStep()) ==> InStep()
    {
      aiTimer := aiTimer - dt;
      if aiTimer <= 0.0 {
        if mode == LineCycle {
          direction := direction.Neg();
        }
        SetVelocity();
        aiTimer := cycleTime;
      }
    }

    method SetVelocity()
      modifies `velocityDirection
      ensures InStep()
    {
      velocityDirection := direction;
    }
  }
}
