/**
 * A cloud of toxic gas: it grows to its maximum size, lingers there for a
 * fixed time and is then destroyed; while the player is inside it the
 * player's health decays faster.
 */
module Gas {
  import opened Engine
  import opened Health

  /** Size and lingering timer of a gas cloud. */
  datatype Cloud = Cloud(curSize: real, aiTimer: real)

  /**
   * One frame of `dt` seconds: below the maximum the cloud grows and the
   * timer stands still; at the maximum only the timer runs, and reaching the
   * duration requests destruction. The size is then clamped to the maximum.
   */
  function Tick(c: Cloud, dt: real, maxSize: real, growSpeed: real): (r: Cloud)
    ensures r.curSize <= maxSize
    ensures c.curSize < maxSize ==>
      r.aiTimer == c.aiTimer
      && r.curSize == (if c.curSize + dt * growSpeed > maxSize then maxSize else c.curSize + dt * growSpeed)
    ensures c.curSize >= maxSize ==> r.curSize == maxSize && r.aiTimer == c.aiTimer + dt
  {
    var grown := if c.curSize < maxSize then Cloud(c.curSize + dt * growSpeed, c.aiTimer)
                 else Cloud(c.curSize, c.aiTimer + dt);
    if grown.curSize > maxSize then Cloud(maxSize, grown.aiTimer) else grown
  }

  /** Whether the tick from `c` requests destruction. */
  predicate Expires(c: Cloud, dt: real, maxSize: real, duration: real)
  {
    c.curSize >= maxSize && c.aiTimer + dt >= duration
  }

  /** The cloud after a run of frames. */
  function Run(c: Cloud, dts: seq<real>, maxSize: real, growSpeed: real): Cloud
    decreases |dts|
  {
    if dts == [] then c else Run(Tick(c, dts[0], maxSize, growSpeed), dts[1..], maxSize, growSpeed)
  }

  /** Never above the maximum, and the timer has only run once the maximum was reached. */
  ghost predicate Settled(c: Cloud, maxSize: real)
  {
    c.curSize <= maxSize && (c.aiTimer != 0.0 ==> c.curSize == maxSize)
  }

  /** A fresh cloud: size zero, timer zero. */
  const Start: Cloud := Cloud(0.0, 0.0)

  /** Every tick keeps a settled cloud settled. */
  lemma TickSettled(c: Cloud, dt: real, maxSize: real, growSpeed: real)
    requires Settled(c, maxSize)
    ensures Settled(Tick(c, dt, maxSize, growSpeed), maxSize)
  {
  }

  /**
   * Over any run from a fresh cloud the size stays within the maximum and the
   * timer stays at zero until the cloud is at its maximum size.
   */
  lemma {:induction false} RunSettled(c: Cloud, dts: seq<real>, maxSize: real, growSpeed: real)
    requires Settled(c, maxSize) || (c == Start && dts != [])
    ensures Settled(Run(c, dts, maxSize, growSpeed), maxSize)
    decreases |dts|
  {
    if dts != [] {
      var next := Tick(c, dts[0], maxSize, growSpeed);
      if Settled(c, maxSize) {
        TickSettled(c, dts[0], maxSize, growSpeed);
      }
      assert Settled(next, maxSize);
      RunSettled(next, dts[1..], maxSize, growSpeed);
    }
  }

  /** At its maximum the cloud stays at its maximum, whatever the frame times. */
  lemma {:induction false} RunStaysFull(c: Cloud, dts: seq<real>, maxSize: real, growSpeed: real)
    requires c.curSize == maxSize
    ensures Run(c, dts, maxSize, growSpeed).curSize == maxSize
    decreases |dts|
  {
    if dts != [] {
      RunStaysFull(Tick(c, dts[0], maxSize, growSpeed), dts[1..], maxSize, growSpeed);
    }
  }

  class ToxicGas {
    const decayAccel: real
    const maxSize: real
    const growSpeed: real
    const durationAfterMaxSize: real
    var curSize: real
    var aiTimer: real
    /** Both components of the transform's local scale. */
    var scale: real
    const gameObject: GameObject
    /** How many times OnDestroyEvent was raised. */
    var destroyEvents: nat

    function State(): Cloud
      reads this
    {
      Cloud(curSize, aiTimer)
    }

    constructor (decayAccel: real, maxSize: real, growSpeed: real, durationAfterMaxSize: real,
                 scale: real, gameObject: GameObject)
      ensures this.decayAccel == decayAccel && this.maxSize == maxSize && this.growSpeed == growSpeed
      ensures this.durationAfterMaxSize == durationAfterMaxSize && this.gameObject == gameObject
      ensures State() == Start && this.scale == scale && destroyEvents == 0
    {
      this.decayAccel := decayAccel;
      this.maxSize := maxSize;
      this.growSpeed := growSpeed;
      this.durationAfterMaxSize := durationAfterMaxSize;
      this.gameObject := gameObject;
      this.scale := scale;
      curSize, aiTimer := 0.0, 0.0;
      destroyEvents := 0;
    }

    /** The cloud starts invisible. */
    method Awake()
      modifies `scale
      ensures scale == 0.0
    {
      scale := 0.0;
    }

    method Update(dt: real)
      modifies `curSize, `aiTimer, `scale, gameObject
      ensures State() == Tick(old(State()), dt, maxSize, growSpeed)
      ensures scale == curSize && curSize <= maxSize
      ensures gameObject.destroyed == (old(gameObject.destroyed) || Expires(old(State()), dt, maxSize, durationAfterMaxSize))
      ensures gameObject.active == old(gameObject.active) && gameObject.position == old(gameObject.position)
    {
      if curSize < maxSize {
        curSize := curSize + dt * growSpeed;
      } else {
        aiTimer := aiTimer + dt;
        if aiTimer >= durationAfterMaxSize {
          gameObject.Destroy();
        }
      }
      if curSize > maxSize {
        curSize := maxSize;
      }
      scale := curSize;
    }

    /** Destruction raises OnDestroyEvent once. */
    method OnDestroy()
      modifies `destroyEvents
      ensures destroyEvents == old(destroyEvents) + 1
    {
      destroyEvents := destroyEvents + 1;
    }

    /** The player inside the gas decays `decayAccel` times faster. */
    method OnTriggerEnter2D(tag: string, health: HealthManager)
      modifies health`decaySpeed
      ensures tag == PlayerTag ==> health.decaySpeed == health.baseDecaySpeed * decayAccel
      ensures tag != PlayerTag ==> health.decaySpeed == old(health.decaySpeed)
    {
      if tag == PlayerTag {
        health.ChangeDecaySpeed(decayAccel);
      }
    }

    /** Leaving the gas puts the decay back to its base speed. */
    method OnTriggerExit2D(tag: string, health: HealthManager)
      modifies health`decaySpeed
      ensures tag == PlayerTag ==> health.decaySpeed == health.baseDecaySpeed
      ensures tag != PlayerTag ==> health.decaySpeed == old(health.decaySpeed)
    {
      if tag == PlayerTag {
        health.ChangeDecaySpeed(1.0);
      }
    }
  }
}
