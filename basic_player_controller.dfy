/**
 * The earlier variant of the player's controller: horizontal movement that
 * stops against a wall on the ground as well as in the air, facing, a jump
 * while Space is held on the ground, and a jump cut that caps the rising
 * speed at `jumpHeight / jumpReduction`. Ground and wall contacts are inputs.
 */
module BasicPlayerControl {
  import opened Engine

  /** The keys read in one frame. */
  datatype Keys = Keys(left: bool, right: bool, spaceHeld: bool, spaceUp: bool)

  /** The horizontal input: -1 (A or left arrow), 1 (D or right arrow), 0; left wins. */
  function InputDirection(k: Keys): (r: int)
    ensures r == -1 || r == 0 || r == 1
    ensures r == -1 <==> k.left
    ensures r == 1 <==> !k.left && k.right
  {
    if k.left then -1 else if k.right then 1 else 0
  }

  /** The vertical speed after the jump cut: capped at `cap`, never raised. */
  function JumpCut(vy: real, cap: real): (r: real)
    ensures r <= vy && r <= cap
    ensures r == vy || r == cap
  {
    if cap < vy then cap else vy
  }

  /** Cutting twice is cutting once. */
  lemma JumpCutIdempotent(vy: real, cap: real)
    ensures JumpCut(JumpCut(vy, cap), cap) == JumpCut(vy, cap)
  {
  }

  /** What `Move` changes: the rigidbody velocity, the facing direction and the scale x. */
  datatype Pose = Pose(velocity: Vec2, direction: int, scaleX: real)

  /**
   * The pose after a move with input `dir`. Pushing toward the facing side
   * against a wall stops the horizontal motion, on the ground or not.
   * Otherwise input against the facing side flips the player and the
   * horizontal speed follows the input. The vertical speed is kept either way.
   */
  function Moved(p: Pose, dir: int, onWall: bool, moveSpeed: real): (r: Pose)
    ensures r.velocity.y == p.velocity.y
    ensures dir == p.direction && onWall ==>
      r.velocity.x == 0.0 && r.direction == p.direction && r.scaleX == p.scaleX
    ensures !(dir == p.direction && onWall) ==>
      && r.velocity.x == dir as real * moveSpeed
      && (p.direction == -dir ==> r.direction == -p.direction && r.scaleX == -p.scaleX)
      && (p.direction != -dir ==> r.direction == p.direction && r.scaleX == p.scaleX)
    ensures p.direction == 1 || p.direction == -1 ==> r.direction == 1 || r.direction == -1
  {
    if dir == p.direction && onWall then Pose(Vec2(0.0, p.velocity.y), p.direction, p.scaleX)
    else
      var flip := p.direction == -dir;
      Pose(Vec2(dir as real * moveSpeed, p.velocity.y),
           if flip then -p.direction else p.direction,
           if flip then -p.scaleX else p.scaleX)
  }

  /**
   * The velocity after a jump: Space held on the ground sets the jump speed,
   * and releasing Space caps the vertical speed at `jumpHeight / jumpReduction`.
   * The horizontal speed is kept.
   */
  function Jumped(v: Vec2, onGround: bool, k: Keys, jumpHeight: real, jumpReduction: real): (r: Vec2)
    requires jumpReduction != 0.0
    ensures r.x == v.x
    ensures !k.spaceUp ==> r.y == if onGround && k.spaceHeld then jumpHeight else v.y
    ensures k.spaceUp ==> r.y <= jumpHeight / jumpReduction
                          && r.y <= (if onGround && k.spaceHeld then jumpHeight else v.y)
  {
    var vy := if onGround && k.spaceHeld then jumpHeight else v.y;
    Vec2(v.x, if k.spaceUp then JumpCut(vy, jumpHeight / jumpReduction) else vy)
  }

  class PlayerController {
    var direction: int
    const moveSpeed: real
    const jumpHeight: real
    const jumpReduction: real
    const fallMultiplier: real
    var onGround: bool
    var onWall: bool
    var velocity: Vec2
    /** The x component of the transform's local scale. */
    var scaleX: real

    function CurrentPose(): Pose
      reads this
    {
      Pose(velocity, direction, scaleX)
    }

    constructor (direction: int, moveSpeed: real, jumpHeight: real, jumpReduction: real,
                 fallMultiplier: real, scaleX: real)
      ensures this.direction == direction && this.moveSpeed == moveSpeed && this.jumpHeight == jumpHeight
      ensures this.jumpReduction == jumpReduction && this.fallMultiplier == fallMultiplier
      ensures this.scaleX == scaleX && !onGround && !onWall && velocity == Zero2
    {
      this.direction := direction;
      this.moveSpeed := moveSpeed;
      this.jumpHeight := jumpHeight;
      this.jumpReduction := jumpReduction;
      this.fallMultiplier := fallMultiplier;
      this.scaleX := scaleX;
      onGround, onWall := false, false;
      velocity := Zero2;
    }

    /** The facing direction is the x of the transform's right vector, truncated to an int. */
    method Awake(rightX: real)
      modifies `direction
      ensures direction == Truncate(rightX)
    {
      direction := Truncate(rightX);
    }

    /** One frame: move, then jump. */
    method Update(k: Keys)
      requires jumpReduction != 0.0
      modifies `scaleX, `direction, `velocity
      ensures var moved := Moved(old(CurrentPose()), InputDirection(k), onWall, moveSpeed);
        && direction == moved.direction && scaleX == moved.scaleX
        && velocity == Jumped(moved.velocity, onGround, k, jumpHeight, jumpReduction)
      ensures velocity.x == (if InputDirection(k) == old(direction) && onWall then 0.0
                             else InputDirection(k) as real * moveSpeed)
      ensures velocity.y == (var vy := if onGround && k.spaceHeld then jumpHeight else old(velocity).y;
                             if k.spaceUp then JumpCut(vy, jumpHeight / jumpReduction) else vy)
      ensures old(direction) == 1 || old(direction) == -1 ==> direction == 1 || direction == -1
    {
      Move(k);
      Jump(k);
    }

    /**
     * The physics step: contacts as the overlap queries report them, and the
     * fast fall while moving down.
     */
    method FixedUpdate(groundHit: bool, wallHit: bool, gravityY: real, fixedDeltaTime: real)
      modifies `onGround, `onWall, `velocity
      ensures onGround == groundHit && onWall == wallHit
      ensures old(velocity).y < 0.0 ==>
        velocity == Vec2(old(velocity).x, old(velocity).y + (fallMultiplier - 1.0) * gravityY * fixedDeltaTime)
      ensures old(velocity).y >= 0.0 ==> velocity == old(velocity)
    {
      onGround := groundHit;
      onWall := wallHit;
      if velocity.y < 0.0 {
        velocity := Vec2(velocity.x, velocity.y + (fallMultiplier - 1.0) * gravityY * fixedDeltaTime);
      }
    }

    /** One move with the frame's keys, as `Moved` describes it. */
    method Move(k: Keys)
      modifies `scaleX, `direction, `velocity
      ensures CurrentPose() == Moved(old(CurrentPose()), InputDirection(k), onWall, moveSpeed)
    {
      var dir := InputDirection(k);
      if dir == direction && onWall {
        velocity := Vec2(0.0, velocity.y);
      } else {
        if direction == -dir {
          FlipX();
        }
        velocity := Vec2(dir as real * moveSpeed, velocity.y);
      }
    }

    /**
     * Space held on the ground sets the jump speed; releasing Space caps the
     * vertical speed at `jumpHeight / jumpReduction`.
     */
    method Jump(k: Keys)
      requires jumpReduction != 0.0
      modifies `velocity
      ensures velocity == Jumped(old(velocity), onGround, k, jumpHeight, jumpReduction)
    {
      if onGround && k.spaceHeld {
        velocity := Vec2(velocity.x, jumpHeight);
      }
      if k.spaceUp {
        var jumpSpeed := jumpHeight / jumpReduction;
        if jumpSpeed < velocity.y {
          velocity := Vec2(velocity.x, jumpHeight / jumpReduction);
        }
      }
    }

    method FlipX()
      modifies `scaleX, `direction
      ensures scaleX == -old(scaleX) && direction == -old(direction)
    {
      scaleX := -scaleX;
      direction := -direction;
    }
  }

  /**
   * A player whose facing direction is 0 (a transform right vector that is
   * not exactly horizontal) matches "input against the facing side" with no
   * input at all: every idle frame off a wall flips its scale, and its
   * direction stays 0.
   */
  method IdleUnfacedFlips(p: PlayerController)
    requires p.direction == 0 && !p.onWall
    modifies p
    ensures p.direction == 0 && p.scaleX == -old(p.scaleX)
  {
    p.Move(Keys(false, false, false, false));
  }
}
