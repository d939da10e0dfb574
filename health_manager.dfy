/**
 * The player's health: a time budget that decays while the player idles, a
 * damage count whose segments eat into that budget, the three kinds of
 * death, and respawning at the most recently added checkpoint.
 */
module Health {
  import opened Engine
  import opened HealthDisplay

  /** Names the animator is asked about or told. */
  const PlayerIdle: string := "Player Idle"
  const DeathMelt: string := "deathMelt"
  const DeathBreak: string := "deathBreak"
  const DeathExt: string := "deathExt"
  const OnRespawn: string := "onRespawn"

  /** The two quantities that make up the player's health. */
  datatype Vitals = Vitals(timeLeft: real, dmgTaken: int)

  /** The vitals after one `Update` tick (`idle`: the animator is in the idle state). */
  function Decayed(v: Vitals, idle: bool, drainDisabled: bool, dt: real, decaySpeed: real): Vitals
  {
    if idle && v.timeLeft > 0.0 && !drainDisabled then Vitals(v.timeLeft - dt * decaySpeed, v.dmgTaken)
    else v
  }

  /** An `Update` tick asks for a melt death: idle with no time left. */
  predicate Melts(v: Vitals, idle: bool)
  {
    idle && v.timeLeft <= 0.0
  }

  /** The vitals after `TakeDamage(amt)`: the damage is added, unclamped. */
  function Hit(v: Vitals, amt: int): Vitals
  {
    Vitals(v.timeLeft, v.dmgTaken + amt)
  }

  /** The damaged segments cover the time left: a break death. */
  predicate Breaks(v: Vitals, timePerHealth: real)
  {
    v.dmgTaken as real * timePerHealth >= v.timeLeft
  }

  /**
   * The time left after `ExpendFuel(amt)`: a non-negative amount is spent
   * from the budget; a negative one (the default is -1) empties the budget and
   * then subtracts the amount again, leaving exactly `-amt`.
   */
  function FuelLeft(timeLeft: real, amt: real): (r: real)
    ensures amt >= 0.0 ==> r == timeLeft - amt
    ensures amt < 0.0 ==> r == -amt && r > 0.0
  {
    (if amt < 0.0 then 0.0 else timeLeft) - amt
  }

  /** No checkpoint appears twice in the list. */
  ghost predicate NoDuplicates(s: seq<GameObject>)
  {
    forall i, j :: 0 <= i < j < |s| ==> s[i] != s[j]
  }

  /** The checkpoint list after `AddCheckpoint(c)`: appended only when absent. */
  function WithCheckpoint(list: seq<GameObject>, c: GameObject): (r: seq<GameObject>)
    ensures c in r
    ensures list <= r && |r| <= |list| + 1
    ensures forall x :: x in r ==> x in list || x == c
    ensures NoDuplicates(list) ==> NoDuplicates(r)
  {
    if c in list then list else list + [c]
  }

  // ----- Runs of several calls, for the lemmas below -----

  /** The vitals and the number of melt requests after idle ticks of lengths `dts`. */
  function IdleRun(v: Vitals, drainDisabled: bool, decaySpeed: real, dts: seq<real>): (Vitals, nat)
    decreases |dts|
  {
    if dts == [] then (v, 0)
    else
      var rest := IdleRun(Decayed(v, true, drainDisabled, dts[0], decaySpeed), drainDisabled, decaySpeed, dts[1..]);
      (rest.0, rest.1 + if Melts(v, true) then 1 else 0)
  }

  /** The vitals after `TakeDamage` with each amount of `amts` in turn. */
  function HitAll(v: Vitals, amts: seq<int>): Vitals
    decreases |amts|
  {
    if amts == [] then v else HitAll(Hit(v, amts[0]), amts[1..])
  }

  /** For each `TakeDamage` call of the run, whether it issues a break death. */
  function BreakSignals(v: Vitals, amts: seq<int>, timePerHealth: real): seq<bool>
    decreases |amts|
  {
    if amts == [] then []
    else
      var w := Hit(v, amts[0]);
      [Breaks(w, timePerHealth)] + BreakSignals(w, amts[1..], timePerHealth)
  }

  function Sum(amts: seq<int>): int
    decreases |amts|
  {
    if amts == [] then 0 else amts[0] + Sum(amts[1..])
  }

  /** The checkpoint list after `AddCheckpoint` with each of `cs` in turn. */
  function AddAll(list: seq<GameObject>, cs: seq<GameObject>): seq<GameObject>
    decreases |cs|
  {
    if cs == [] then list else AddAll(WithCheckpoint(list, cs[0]), cs[1..])
  }

  // ----- Properties -----

  /**
   * With no time left, every idle tick changes nothing and asks for the melt
   * death again: melting is a level, not an edge.
   */
  lemma {:induction false} ExhaustedMeltsEveryTick(v: Vitals, drainDisabled: bool, decaySpeed: real, dts: seq<real>)
    requires v.timeLeft <= 0.0
    ensures IdleRun(v, drainDisabled, decaySpeed, dts) == (v, |dts|)
    decreases |dts|
  {
    if dts != [] {
      assert Decayed(v, true, drainDisabled, dts[0], decaySpeed) == v;
      ExhaustedMeltsEveryTick(v, drainDisabled, decaySpeed, dts[1..]);
    }
  }

  /** Idle ticks never add time and never touch the damage count. */
  lemma {:induction false} IdleRunNeverGains(v: Vitals, drainDisabled: bool, decaySpeed: real, dts: seq<real>)
    requires decaySpeed >= 0.0
    requires forall i :: 0 <= i < |dts| ==> dts[i] >= 0.0
    ensures IdleRun(v, drainDisabled, decaySpeed, dts).0.timeLeft <= v.timeLeft
    ensures IdleRun(v, drainDisabled, decaySpeed, dts).0.dmgTaken == v.dmgTaken
    decreases |dts|
  {
    if dts != [] {
      var w := Decayed(v, true, drainDisabled, dts[0], decaySpeed);
      assert dts[0] * decaySpeed >= 0.0;
      assert w.timeLeft <= v.timeLeft;
      IdleRunNeverGains(w, drainDisabled, decaySpeed, dts[1..]);
    }
  }

  /** No melt is requested while time is left: the first melt comes only once the budget is used up. */
  lemma {:induction false} NoMeltWhileDraining(v: Vitals, drainDisabled: bool, decaySpeed: real, dts: seq<real>)
    requires IdleRun(v, drainDisabled, decaySpeed, dts).0.timeLeft > 0.0
    requires decaySpeed >= 0.0
    requires forall i :: 0 <= i < |dts| ==> dts[i] >= 0.0
    ensures IdleRun(v, drainDisabled, decaySpeed, dts).1 == 0
    decreases |dts|
  {
    if dts != [] {
      var w := Decayed(v, true, drainDisabled, dts[0], decaySpeed);
      IdleRunNeverGains(w, drainDisabled, decaySpeed, dts[1..]);
      NoMeltWhileDraining(w, drainDisabled, decaySpeed, dts[1..]);
    }
  }

  /** Damage is recorded in full, without clamping, and leaves the time budget alone. */
  lemma {:induction false} HitAllAddsUp(v: Vitals, amts: seq<int>)
    ensures HitAll(v, amts) == Vitals(v.timeLeft, v.dmgTaken + Sum(amts))
    decreases |amts|
  {
    if amts != [] {
      HitAllAddsUp(Hit(v, amts[0]), amts[1..]);
    }
  }

  /** Non-negative hits never lower the damage count. */
  lemma {:induction false} DamageNeverDecreases(v: Vitals, amts: seq<int>)
    requires forall i :: 0 <= i < |amts| ==> amts[i] >= 0
    ensures HitAll(v, amts).dmgTaken >= v.dmgTaken
    decreases |amts|
  {
    if amts != [] {
      DamageNeverDecreases(Hit(v, amts[0]), amts[1..]);
    }
  }

  /**
   * Once the damage covers the time left, every further non-negative hit
   * issues the break death again (damage beyond death is still recorded).
   */
  lemma {:induction false} BreakPersists(v: Vitals, amts: seq<int>, timePerHealth: real)
    requires timePerHealth >= 0.0
    requires Breaks(v, timePerHealth)
    requires forall i :: 0 <= i < |amts| ==> amts[i] >= 0
    ensures |BreakSignals(v, amts, timePerHealth)| == |amts|
    ensures forall i :: 0 <= i < |amts| ==> BreakSignals(v, amts, timePerHealth)[i]
    decreases |amts|
  {
    if amts != [] {
      var w := Hit(v, amts[0]);
      assert (v.dmgTaken + amts[0]) as real * timePerHealth
          == v.dmgTaken as real * timePerHealth + amts[0] as real * timePerHealth;
      assert amts[0] as real * timePerHealth >= 0.0;
      assert Breaks(w, timePerHealth);
      BreakPersists(w, amts[1..], timePerHealth);
      var rest := BreakSignals(w, amts[1..], timePerHealth);
      assert BreakSignals(v, amts, timePerHealth) == [true] + rest;
    }
  }

  /**
   * One concrete scenario: a budget of 10 over 5 segments (2 per segment): four single hits leave
   * the player standing, the fifth (5 * 2 >= 10) breaks them.
   */
  lemma ScenarioFiveHits()
    ensures BreakSignals(Vitals(10.0, 0), [1, 1, 1, 1, 1], 10.0 / 5.0) == [false, false, false, false, true]
  {
    var t := 10.0 / 5.0;
    assert t == 2.0;
    var s4 := BreakSignals(Vitals(10.0, 4), [1], t);
    assert s4 == [true];
    var s3 := BreakSignals(Vitals(10.0, 3), [1, 1], t);
    assert [1, 1][1..] == [1];
    assert s3 == [false] + s4;
    var s2 := BreakSignals(Vitals(10.0, 2), [1, 1, 1], t);
    assert [1, 1, 1][1..] == [1, 1];
    assert s2 == [false] + s3;
    var s1 := BreakSignals(Vitals(10.0, 1), [1, 1, 1, 1], t);
    assert [1, 1, 1, 1][1..] == [1, 1, 1];
    assert s1 == [false] + s2;
    assert [1, 1, 1, 1, 1][1..] == [1, 1, 1, 1];
    assert BreakSignals(Vitals(10.0, 0), [1, 1, 1, 1, 1], t) == [false] + s1;
  }

  /**
   * Adding checkpoints keeps the list free of duplicates and holds exactly
   * the checkpoints seen so far.
   */
  lemma {:induction false} AddAllRegistersEach(list: seq<GameObject>, cs: seq<GameObject>)
    requires NoDuplicates(list)
    ensures NoDuplicates(AddAll(list, cs))
    ensures list <= AddAll(list, cs)
    ensures forall x :: x in AddAll(list, cs) <==> x in list || x in cs
    decreases |cs|
  {
    if cs != [] {
      var next := WithCheckpoint(list, cs[0]);
      AddAllRegistersEach(next, cs[1..]);
      forall x
        ensures x in AddAll(list, cs) <==> x in list || x in cs
      {
        assert x in cs <==> x == cs[0] || x in cs[1..];
      }
    }
  }

  /**
   * Adding a checkpoint that is already listed does not change the respawn
   * target: the target is the most recently added new checkpoint, not the
   * most recently touched one.
   */
  lemma {:induction false} ReAddingKeepsRespawnTarget(list: seq<GameObject>, cs: seq<GameObject>)
    requires |list| > 0
    requires forall i :: 0 <= i < |cs| ==> cs[i] in list
    ensures AddAll(list, cs) == list
    decreases |cs|
  {
    if cs != [] {
      assert WithCheckpoint(list, cs[0]) == list;
      ReAddingKeepsRespawnTarget(list, cs[1..]);
    }
  }

  class HealthManager {
    const anim: Animator
    const healthBar: HealthBar
    /** The player's own game object, moved on respawn. */
    const gameObject: GameObject
    /** The checkpoints available for respawn, identified by their game objects. */
    var checkpoints: seq<GameObject>

    const disableHealthDrain: bool
    const maxTime: real
    var decaySpeed: real
    var baseDecaySpeed: real
    const healthSegments: int

    /** The rigidbody's body type: Static freezes the player. */
    var bodyType: BodyType
    var timeLeft: real
    var timePerHealth: real
    var dmgTaken: int

    /** The inspector restricts the segment count to 1..100. */
    ghost predicate Valid()
    {
      1 <= healthSegments <= 100
    }

    function CurrentVitals(): Vitals
      reads this
    {
      Vitals(timeLeft, dmgTaken)
    }

    /** The inspector-set fields; everything else at its initial value. */
    constructor (anim: Animator, healthBar: HealthBar, gameObject: GameObject,
                 disableHealthDrain: bool, maxTime: real, decaySpeed: real, healthSegments: int)
      requires 1 <= healthSegments <= 100
      ensures Valid()
      ensures this.anim == anim && this.healthBar == healthBar && this.gameObject == gameObject
      ensures this.disableHealthDrain == disableHealthDrain && this.maxTime == maxTime
      ensures this.decaySpeed == decaySpeed && this.healthSegments == healthSegments
      ensures checkpoints == [] && bodyType == Dynamic && timeLeft == 0.0 && dmgTaken == 0
    {
      this.anim := anim;
      this.healthBar := healthBar;
      this.gameObject := gameObject;
      this.disableHealthDrain := disableHealthDrain;
      this.maxTime := maxTime;
      this.decaySpeed := decaySpeed;
      this.healthSegments := healthSegments;
      checkpoints := [];
      baseDecaySpeed := 0.0;
      bodyType := Dynamic;
      timeLeft := 0.0;
      timePerHealth := 0.0;
      dmgTaken := 0;
    }

    /** Full budget, the time one segment is worth, the base decay speed, and a fresh bar. */
    method Awake()
      requires Valid()
      modifies `timeLeft, `timePerHealth, `baseDecaySpeed, healthBar
      ensures timeLeft == maxTime
      ensures timePerHealth == maxTime / healthSegments as real
      ensures baseDecaySpeed == decaySpeed
      ensures healthBar.maxValue == maxTime && healthBar.value == maxTime
      ensures healthBar.segments == old(healthBar.segments) + Fresh(healthBar.prefabSprite, healthSegments)
    {
      timeLeft := maxTime;
      timePerHealth := maxTime / healthSegments as real;
      baseDecaySpeed := decaySpeed;
      healthBar.SetDefaults(maxTime, healthSegments);
    }

    /**
     * One frame. Only in the idle animation state does anything happen:
     * with time left the budget drains (unless draining is disabled) and the
     * bar follows it; with none left the melt death is issued again.
     */
    method Update(stateName: string, dt: real)
      modifies `timeLeft, `bodyType, anim, healthBar
      ensures CurrentVitals() == Decayed(old(CurrentVitals()), stateName == PlayerIdle, disableHealthDrain, dt, decaySpeed)
      ensures Melts(old(CurrentVitals()), stateName == PlayerIdle) ==>
        bodyType == Static && anim.bools == old(anim.bools)[DeathMelt := true] && anim.triggers == old(anim.triggers)
        && healthBar.value == old(healthBar.value)
      ensures !Melts(old(CurrentVitals()), stateName == PlayerIdle) ==>
        bodyType == old(bodyType) && anim.bools == old(anim.bools) && anim.triggers == old(anim.triggers)
      ensures stateName == PlayerIdle && old(timeLeft) > 0.0 ==> healthBar.value == timeLeft
      ensures stateName != PlayerIdle ==> healthBar.value == old(healthBar.value)
      ensures healthBar.maxValue == old(healthBar.maxValue) && healthBar.segments == old(healthBar.segments)
    {
      if stateName == PlayerIdle {
        if timeLeft > 0.0 {
          if !disableHealthDrain {
            timeLeft := timeLeft - dt * decaySpeed;
          }
          healthBar.SetHealth(timeLeft);
        } else {
          Die(DeathMelt);
        }
      }
    }

    /** The decay speed becomes the base speed times `mult`; calls do not compound. */
    method ChangeDecaySpeed(mult: real)
      modifies `decaySpeed
      ensures decaySpeed == baseDecaySpeed * mult
    {
      decaySpeed := baseDecaySpeed * mult;
    }

    method ExpendFuel(amt: real)
      modifies `timeLeft
      ensures timeLeft == FuelLeft(old(timeLeft), amt)
    {
      if amt < 0.0 {
        timeLeft := 0.0;
      }
      timeLeft := timeLeft - amt;
    }

    /**
     * Adds the damage, breaks that many bar segments, and issues the break
     * death exactly when the damaged segments cover the time left.
     */
    method TakeDamage(amt: int)
      modifies `dmgTaken, `bodyType, anim, healthBar
      ensures TookDamage(this, amt)
    {
      dmgTaken := dmgTaken + amt;
      healthBar.SetDamagedHealth(dmgTaken);
      if dmgTaken as real * timePerHealth >= timeLeft {
        Die(DeathBreak);
      }
    }

    method AddCheckpoint(checkpoint: GameObject)
      modifies `checkpoints
      ensures checkpoints == WithCheckpoint(old(checkpoints), checkpoint)
    {
      if checkpoint !in checkpoints {
        checkpoints := checkpoints + [checkpoint];
      }
    }

    /**
     * Freezes the player and starts a death animation: the melt death sets a
     * persistent flag (it is re-issued every frame), any other kind fires a
     * one-shot trigger. The default kind is `DeathExt`.
     */
    method Die(deathType: string)
      modifies `bodyType, anim
      ensures bodyType == Static
      ensures deathType == DeathMelt ==>
        anim.bools == old(anim.bools)[DeathMelt := true] && anim.triggers == old(anim.triggers)
      ensures deathType != DeathMelt ==>
        anim.triggers == old(anim.triggers) + [deathType] && anim.bools == old(anim.bools)
    {
      bodyType := Static;
      if deathType == DeathMelt {
        anim.SetBool(deathType, true);
      } else {
        anim.SetTrigger(deathType);
      }
    }

    /**
     * Moves the player to the last checkpoint of the list (its position plus
     * its collider offset, keeping the player's depth), clears the melt flag
     * and fires the respawn trigger. Health is not restored here. On an empty
     * list the source's list index throws: `thrown` and nothing changes.
     */
    method Respawn() returns (thrown: bool)
      modifies gameObject`position, anim
      ensures thrown <==> |checkpoints| == 0
      ensures thrown ==>
        && gameObject.position == old(gameObject.position)
        && anim.bools == old(anim.bools) && anim.triggers == old(anim.triggers)
      ensures !thrown ==>
        var target := checkpoints[|checkpoints| - 1];
        && gameObject.position == Vec3(old(target.position).x + target.colliderOffset.x,
                                       old(target.position).y + target.colliderOffset.y,
                                       old(gameObject.position).z)
        && anim.bools == old(anim.bools)[DeathMelt := false]
        && anim.triggers == old(anim.triggers) + [OnRespawn]
    {
      if |checkpoints| == 0 {
        return true;
      }
      var target := checkpoints[|checkpoints| - 1];
      var dest := Vec3(target.position.x + target.colliderOffset.x, target.position.y + target.colliderOffset.y, 0.0);
      gameObject.position := Vec3(dest.x, dest.y, gameObject.position.z);
      anim.SetBool(DeathMelt, false);
      anim.SetTrigger(OnRespawn);
      return false;
    }

    /** Full budget, no damage, a repaired bar, and the player unfrozen. */
    method RespawnFinish()
      modifies `timeLeft, `dmgTaken, `bodyType, healthBar
      ensures timeLeft == maxTime && dmgTaken == 0 && bodyType == Dynamic
      ensures healthBar.value == maxTime && healthBar.maxValue == old(healthBar.maxValue)
      ensures |healthBar.segments| == |old(healthBar.segments)| && AllNormal(healthBar.segments)
    {
      timeLeft := maxTime;
      dmgTaken := 0;
      healthBar.SetHealth(maxTime);
      healthBar.ResetDamagedHealth();
      bodyType := Dynamic;
    }
  }

  /** The health manager an event may reach: none when there is no player. */
  function Touched(health: HealthManager?): set<HealthManager>
  {
    if health == null then {} else {health}
  }

  /**
   * What one hit of `amt` does to a player: the damage grows by `amt`, the
   * bar breaks its first `dmgTaken` segments with its slider untouched, and
   * the break death (static body, one DeathBreak trigger) happens exactly
   * when the damaged segments cover the time left; otherwise body and
   * animator are as they were.
   */
  twostate predicate TookDamage(h: HealthManager, amt: int)
    reads h, h.anim, h.healthBar
  {
    && h.CurrentVitals() == Hit(old(h.CurrentVitals()), amt)
    && h.healthBar.segments == Damaged(old(h.healthBar.segments), h.dmgTaken)
    && h.healthBar.value == old(h.healthBar.value) && h.healthBar.maxValue == old(h.healthBar.maxValue)
    && (Breaks(h.CurrentVitals(), h.timePerHealth) ==>
          && h.bodyType == Static && h.anim.triggers == old(h.anim.triggers) + [DeathBreak]
          && h.anim.bools == old(h.anim.bools))
    && (!Breaks(h.CurrentVitals(), h.timePerHealth) ==>
          && h.bodyType == old(h.bodyType) && h.anim.triggers == old(h.anim.triggers)
          && h.anim.bools == old(h.anim.bools))
  }
}
