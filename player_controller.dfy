/**
 * The player's controller: horizontal movement with wall-stick prevention,
 * facing, jumping with a jump cut, and the burst-attack boost that costs fuel
 * and can be limited to once per stay in the air. Ground and wall contacts
 * come from the engine's overlap queries: the model takes the z angles of the
 * colliders they return and classifies them as the source does.
 */
module PlayerControl {
  import opened Engine
  import opened Health
  import opened Burst

  /** The keys read in one frame. */
  datatype Keys = Keys(left: bool, right: bool, spaceHeld: bool, spaceUp: bool, sDown: bool, escapeDown: bool)

  /** A force the boost hands to the rigidbody. */
  datatype Force =
    | Upward(speed: real)
    /** Along the (engine-normalized) velocity the player had. */
    | Along(velocity: Vec2, speed: real)

  /**
   * The horizontal input: -1 (A or left arrow), 1 (D or right arrow), 0; left
   * wins. The basic controller reads its keys the same way in its own file.
   */
  function InputDirection(k: Keys): (r: int)
    ensures r == -1 || r == 0 || r == 1
    ensures r == -1 <==> k.left
    ensures r == 1 <==> !k.left && k.right
  {
    if k.left then -1 else if k.right then 1 else 0
  }

  /** An Euler z angle folded so that angles just below 360 count as small positive ones. */
  function AdjustAngle(a: real): (r: real)
    ensures r == a || r == 360.0 - a
    ensures 0.0 <= a < 360.0 ==> 0.0 <= r < 270.0
  {
    if a >= 270.0 then 360.0 - a else a
  }

  /** A collider at `a` degrees is ground exactly when it is tilted by less than 90 degrees either way. */
  lemma GroundSlope(a: real)
    requires 0.0 <= a < 360.0
    ensures AdjustAngle(a) < 90.0 <==> a < 90.0 || a > 270.0
  {
  }

  /** A collider at `a` degrees is wall exactly when it is not level. */
  lemma WallSlope(a: real)
    requires 0.0 <= a < 360.0
    ensures AdjustAngle(a) > 0.0 <==> a != 0.0
  {
  }

  /** On ground: some collider under the ground check is ground (none when nothing overlaps). */
  predicate GroundFrom(angles: seq<real>)
  {
    exists i :: 0 <= i < |angles| && AdjustAngle(angles[i]) < 90.0
  }

  /** On a wall: some wall check hit a collider that counts as wall. */
  predicate WallFrom(hits: seq<Option<real>>)
  {
    exists i :: 0 <= i < |hits| && hits[i].Some? && AdjustAngle(hits[i].value) > 0.0
  }

  /** What `Move` changes: the rigidbody velocity, the facing direction and the scale x. */
  datatype Pose = Pose(velocity: Vec2, direction: int, scaleX: real)

  /**
   * The pose after a move with input `dir`. Pushing toward the facing side
   * against a wall in the air stops the horizontal motion and nothing else.
   * Otherwise input against the facing side flips the player, the horizontal
   * speed follows the input, and stopping on the ground outside an attack
   * also drops the vertical speed.
   */
  function Moved(p: Pose, dir: int, onWall: bool, onGround: bool, attacking: bool, moveSpeed: real): (r: Pose)
    ensures dir == p.direction && onWall && !onGround ==>
      r == Pose(Vec2(0.0, p.velocity.y), p.direction, p.scaleX)
    ensures !(dir == p.direction && onWall && !onGround) ==>
      && r.velocity.x == dir as real * moveSpeed
      && r.velocity.y == (if dir == 0 && onGround && !attacking then 0.0 else p.velocity.y)
      && (p.direction == -dir ==> r.direction == -p.direction && r.scaleX == -p.scaleX)
      && (p.direction != -dir ==> r.direction == p.direction && r.scaleX == p.scaleX)
    ensures p.direction == 1 || p.direction == -1 ==> r.direction == 1 || r.direction == -1
    ensures (p.direction == 1 || p.direction == -1) && (dir == 1 || dir == -1)
            && !(dir == p.direction && onWall && !onGround) ==>
      r.direction == dir
  {
    if dir == p.direction && onWall && !onGround then Pose(Vec2(0.0, p.velocity.y), p.direction, p.scaleX)
    else
      var flip := p.direction == -dir;
      Pose(Vec2(dir as real * moveSpeed, if dir == 0 && onGround && !attacking then 0.0 else p.velocity.y),
           if flip then -p.direction else p.direction,
           if flip then -p.scaleX else p.scaleX)
  }

  /** Letting go of the keys on the ground outside an attack brings the player to rest. */
  lemma StopsOnGround(p: Pose, onWall: bool, moveSpeed: real)
    ensures Moved(p, 0, onWall, true, false, moveSpeed).velocity == Zero2
  {
  }

  /**
   * The velocity after a jump: Space on the ground sets the jump speed, and
   * releasing Space while rising cuts the upward speed to 0; the horizontal
   * speed is kept.
   */
  function Jumped(v: Vec2, onGround: bool, k: Keys, jumpHeight: real): (r: Vec2)
    ensures r.x == v.x
    ensures !k.spaceUp ==> r.y == if onGround && k.spaceHeld then jumpHeight else v.y
    ensures k.spaceUp ==> r.y <= 0.0 && (r.y != 0.0 ==> r.y == if onGround && k.spaceHeld then jumpHeight else v.y)
  {
    var vy := if onGround && k.spaceHeld then jumpHeight else v.y;
    Vec2(v.x, if k.spaceUp && vy > 0.0 then 0.0 else vy)
  }

  class PlayerController {
    const health: HealthManager
    const attack: BurstAttack
    const moveSpeed: real
    const jumpHeight: real
    const fallMultiplier: real
    var direction: int
    var onGround: bool
    var onWall: bool
    const attackCost: real
    const boostSpeed: real
    const noMoveDuringBoost: bool
    const upBoostOnly: bool
    const oneTimeUseMidair: bool
    var canUseMidair: bool
    var velocity: Vec2
    /** The x component of the transform's local scale. */
    var scaleX: real
    /** Forces applied by boosts, in order. */
    var forces: seq<Force>
    /** How many times the pause menu was toggled. */
    var pauseToggles: nat

    function CurrentPose(): Pose
      reads this
    {
      Pose(velocity, direction, scaleX)
    }

    constructor (health: HealthManager, attack: BurstAttack, moveSpeed: real, jumpHeight: real,
                 fallMultiplier: real, attackCost: real, boostSpeed: real,
                 noMoveDuringBoost: bool, upBoostOnly: bool, oneTimeUseMidair: bool, scaleX: real)
      ensures this.health == health && this.attack == attack && this.moveSpeed == moveSpeed
      ensures this.jumpHeight == jumpHeight && this.fallMultiplier == fallMultiplier
      ensures this.attackCost == attackCost && this.boostSpeed == boostSpeed
      ensures this.noMoveDuringBoost == noMoveDuringBoost && this.upBoostOnly == upBoostOnly
      ensures this.oneTimeUseMidair == oneTimeUseMidair && this.scaleX == scaleX
      ensures !onGround && !onWall && !canUseMidair && forces == [] && pauseToggles == 0
    {
      this.health := health;
      this.attack := attack;
      this.moveSpeed := moveSpeed;
      this.jumpHeight := jumpHeight;
      this.fallMultiplier := fallMultiplier;
      this.attackCost := attackCost;
      this.boostSpeed := boostSpeed;
      this.noMoveDuringBoost := noMoveDuringBoost;
      this.upBoostOnly := upBoostOnly;
      this.oneTimeUseMidair := oneTimeUseMidair;
      this.scaleX := scaleX;
      direction := 0;
      onGround, onWall, canUseMidair := false, false, false;
      velocity := Zero2;
      forces := [];
      pauseToggles := 0;
    }

    /** The facing direction is the x of the transform's right vector, truncated to an int. */
    method Awake(rightX: real)
      requires -1.0 <= rightX <= 1.0
      modifies `direction
      ensures direction == Truncate(rightX)
      ensures -1 <= direction <= 1 && (direction != 0 <==> rightX == 1.0 || rightX == -1.0)
    {
      direction := Truncate(rightX);
    }

    /**
     * The physics step: ground and wall contact from the overlap queries, the
     * midair boost refreshed on the ground and otherwise kept, and the fast
     * fall while moving down.
     */
    method FixedUpdate(groundAngles: seq<real>, wallHits: seq<Option<real>>, gravityY: real, fixedDeltaTime: real)
      modifies `onGround, `onWall, `canUseMidair, `velocity
      ensures onGround == GroundFrom(groundAngles) && onWall == WallFrom(wallHits)
      ensures canUseMidair == (onGround || old(canUseMidair))
      ensures old(velocity).y < 0.0 ==>
        velocity == Vec2(old(velocity).x, old(velocity).y + (fallMultiplier - 1.0) * gravityY * fixedDeltaTime)
      ensures old(velocity).y >= 0.0 ==> velocity == old(velocity)
    {
      onGround := GroundFrom(groundAngles);
      onWall := CheckPlayerOnWall(wallHits);
      canUseMidair := onGround || canUseMidair;
      if velocity.y < 0.0 {
        velocity := Vec2(velocity.x, velocity.y + (fallMultiplier - 1.0) * gravityY * fixedDeltaTime);
      }
    }

    /** Scans the wall checks in order and stops at the first that hits wall. */
    method CheckPlayerOnWall(hits: seq<Option<real>>) returns (r: bool)
      ensures r == WallFrom(hits)
    {
      var i := 0;
      while i < |hits|
        invariant 0 <= i <= |hits|
        invariant forall j :: 0 <= j < i ==> !(hits[j].Some? && AdjustAngle(hits[j].value) > 0.0)
      {
        if hits[i].Some? {
          if AdjustAngle(hits[i].value) > 0.0 {
            return true;
          }
        }
        i := i + 1;
      }
      return false;
    }

    method FlipX()
      modifies `scaleX, `direction
      ensures scaleX == -old(scaleX) && direction == -old(direction)
    {
      scaleX := -scaleX;
      direction := -direction;
    }

    /** One move with the frame's keys, as `Moved` describes it. */
    method Move(k: Keys)
      modifies `scaleX, `direction, `velocity
      ensures CurrentPose() == Moved(old(CurrentPose()), InputDirection(k), onWall, onGround, attack.InProgress(), moveSpeed)
    {
      var dir := InputDirection(k);
      if dir == direction && onWall && !onGround {
        velocity := Vec2(0.0, velocity.y);
      } else {
        if direction == -dir {
          FlipX();
        }
        var vY := velocity.y;
        if dir == 0 && onGround && !attack.InProgress() {
          vY := 0.0;
        }
        velocity := Vec2(dir as real * moveSpeed, vY);
      }
    }

    /** Space on the ground jumps; releasing Space while rising cuts the jump. */
    method Jump(k: Keys)
      modifies `velocity
      ensures velocity == Jumped(old(velocity), onGround, k, jumpHeight)
    {
      if onGround && k.spaceHeld {
        velocity := Vec2(velocity.x, jumpHeight);
      }
      if k.spaceUp {
        if velocity.y > 0.0 {
          velocity := Vec2(velocity.x, 0.0);
        }
      }
    }

    /**
     * S boosts when a midair boost is available or boosts are unlimited: it
     * costs `attackCost` of fuel, starts the attack, uses up the midair boost,
     * stops the player and pushes it up or along its former velocity.
     */
    method Attack(k: Keys)
      modifies `canUseMidair, `velocity, `forces, health`timeLeft, attack.anim
      ensures var boost := k.sDown && (old(canUseMidair) || !oneTimeUseMidair);
        && (boost ==>
              && health.timeLeft == FuelLeft(old(health.timeLeft), attackCost)
              && attack.InProgress() && !canUseMidair && velocity == Zero2
              && attack.anim.bools == old(attack.anim.bools)[Burst.Active := true]
              && forces == old(forces) + [if upBoostOnly then Upward(boostSpeed) else Along(old(velocity), boostSpeed)])
        && (!boost ==>
              && health.timeLeft == old(health.timeLeft) && canUseMidair == old(canUseMidair)
              && velocity == old(velocity) && forces == old(forces)
              && attack.anim.bools == old(attack.anim.bools))
      ensures attack.anim.triggers == old(attack.anim.triggers)
    {
      if k.sDown && (canUseMidair || !oneTimeUseMidair) {
        health.ExpendFuel(attackCost);
        attack.Activate();
        canUseMidair := false;
        if upBoostOnly {
          forces := forces + [Upward(boostSpeed)];
        } else {
          forces := forces + [Along(velocity, boostSpeed)];
        }
        velocity := Zero2;
      }
    }

    /** The frame outside an attack: move, jump, then the boost check. */
    method MoveJumpAttack(k: Keys)
      requires !attack.InProgress()
      modifies `scaleX, `direction, `velocity, `canUseMidair, `forces, health`timeLeft, attack.anim
      ensures MovedJumpedBoosted(this, k)
      ensures attack.anim.triggers == old(attack.anim.triggers)
      ensures old(direction) == 1 || old(direction) == -1 ==> direction == 1 || direction == -1
    {
      Move(k);
      Jump(k);
      Attack(k);
    }

    /**
     * One frame: Escape toggles the pause menu; outside an attack the player
     * moves, jumps and may boost; during one only movement runs, and only
     * when movement during a boost is allowed.
     */
    method Update(k: Keys)
      modifies `scaleX, `direction, `velocity, `canUseMidair, `forces, `pauseToggles, health`timeLeft, attack.anim
      ensures pauseToggles == old(pauseToggles) + if k.escapeDown then 1 else 0
      ensures old(attack.InProgress()) ==>
        health.timeLeft == old(health.timeLeft) && forces == old(forces) && canUseMidair == old(canUseMidair)
        && attack.anim.bools == old(attack.anim.bools)
      ensures old(attack.InProgress()) && noMoveDuringBoost ==>
        velocity == old(velocity) && direction == old(direction) && scaleX == old(scaleX)
      ensures old(attack.InProgress()) && !noMoveDuringBoost ==>
        CurrentPose() == Moved(old(CurrentPose()), InputDirection(k), onWall, onGround, true, moveSpeed)
      ensures !old(attack.InProgress()) ==> MovedJumpedBoosted(this, k)
      ensures attack.anim.triggers == old(attack.anim.triggers)
      ensures old(direction) == 1 || old(direction) == -1 ==> direction == 1 || direction == -1
    {
      if k.escapeDown {
        pauseToggles := pauseToggles + 1;
      }
      if !attack.InProgress() {
        MoveJumpAttack(k);
      } else if attack.InProgress() && !noMoveDuringBoost {
        Move(k);
      }
    }
  }

  /**
   * A frame outside an attack: direction and scale are those of the move;
   * the velocity is the jump applied to the moved velocity, or zero when the
   * boost fires. The boost spends the attack cost, starts the attack, clears
   * the midair boost and pushes up or along the jumped velocity; without it
   * fuel, midair boost, forces and the attack animator are as they were.
   */
  twostate predicate MovedJumpedBoosted(c: PlayerController, k: Keys)
    reads c, c.health, c.attack.anim
  {
    var moved := Moved(old(c.CurrentPose()), InputDirection(k), c.onWall, c.onGround, false, c.moveSpeed);
    var boost := k.sDown && (old(c.canUseMidair) || !c.oneTimeUseMidair);
    && c.direction == moved.direction && c.scaleX == moved.scaleX
    && c.velocity == (if boost then Zero2 else Jumped(moved.velocity, c.onGround, k, c.jumpHeight))
    && (boost ==>
          && c.health.timeLeft == FuelLeft(old(c.health.timeLeft), c.attackCost) && c.attack.InProgress()
          && !c.canUseMidair && c.attack.anim.bools == old(c.attack.anim.bools)[Burst.Active := true]
          && c.forces == old(c.forces)
             + [if c.upBoostOnly then Upward(c.boostSpeed) else Along(Jumped(moved.velocity, c.onGround, k, c.jumpHeight), c.boostSpeed)])
    && (!boost ==>
          && c.health.timeLeft == old(c.health.timeLeft) && c.canUseMidair == old(c.canUseMidair)
          && c.forces == old(c.forces) && !c.attack.InProgress()
          && c.attack.anim.bools == old(c.attack.anim.bools))
  }
}
