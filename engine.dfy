/**
 * Stand-ins for the game engine objects the scripts touch. The scripts only
 * set and read named animator parameters, move transforms, switch rigidbody
 * types and activate or destroy game objects; everything else the engine does
 * (rendering, physics, collision detection) is outside the model and reaches
 * the scripts as method parameters.
 */
module Engine {

  /** A two-component vector (Vector2). */
  datatype Vec2 = Vec2(x: real, y: real)
  {
    function Scale(k: real): Vec2 { Vec2(k * x, k * y) }
    function Neg(): Vec2 { Vec2(-x, -y) }
  }

  /** A three-component vector (Vector3). */
  datatype Vec3 = Vec3(x: real, y: real, z: real)

  const Zero2: Vec2 := Vec2(0.0, 0.0)

  datatype Option<T> = None | Some(value: T)

  /** The rigidbody body types the scripts switch between. */
  datatype BodyType = Dynamic | Static

  /** The tag the scripts compare colliders against. */
  const PlayerTag: string := "Player"

  /** Sign of `a.CompareTo(b)` for two floats: -1, 0 or 1. */
  function Compare(a: real, b: real): (r: int)
    ensures r == -1 || r == 0 || r == 1
    ensures r == -1 <==> a < b
    ensures r == 1 <==> a > b
  {
    if a < b then -1 else if a > b then 1 else 0
  }

  /** The C# cast `(int)x` of a float: truncation toward zero. */
  function Truncate(x: real): (r: int)
    ensures x >= 0.0 ==> 0.0 <= r as real <= x < r as real + 1.0
    ensures x < 0.0 ==> r as real - 1.0 < x <= r as real <= 0.0
  {
    if x >= 0.0 then x.Floor else -((-x).Floor)
  }

  /**
   * An Animator reduced to its parameters: named booleans, and the log of the
   * triggers fired so far (a trigger is a one-shot signal).
   */
  class Animator {
    var bools: map<string, bool>
    var triggers: seq<string>

    constructor ()
      ensures bools == map[] && triggers == []
    {
      bools := map[];
      triggers := [];
    }

    /** `GetBool`: an unset parameter reads as false. */
    function GetBool(name: string): bool
      reads this
    {
      name in bools && bools[name]
    }

    method SetBool(name: string, value: bool)
      modifies this
      ensures bools == old(bools)[name := value]
      ensures triggers == old(triggers)
      ensures GetBool(name) == value
    {
      bools := bools[name := value];
    }

    method SetTrigger(name: string)
      modifies this
      ensures triggers == old(triggers) + [name]
      ensures bools == old(bools)
    {
      triggers := triggers + [name];
    }
  }

  /**
   * A scene object: its transform position, the offset of its box collider,
   * whether it is active (`SetActive`) and whether `Destroy` was requested on it
   * (the engine destroys it at the end of the frame).
   */
  class GameObject {
    var position: Vec3
    const colliderOffset: Vec2
    var active: bool
    var destroyed: bool

    constructor (position: Vec3, colliderOffset: Vec2)
      ensures this.position == position && this.colliderOffset == colliderOffset
      ensures active && !destroyed
    {
      this.position := position;
      this.colliderOffset := colliderOffset;
      active := true;
      destroyed := false;
    }

    /** `Destroy(gameObject)`. */
    method Destroy()
      modifies this
      ensures destroyed
      ensures position == old(position) && active == old(active)
    {
      destroyed := true;
    }

    /** `gameObject.SetActive(value)`. */
    method SetActive(value: bool)
      modifies this
      ensures active == value
      ensures position == old(position) && destroyed == old(destroyed)
    {
      active := value;
    }
  }
}
