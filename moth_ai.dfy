/**
 * The moth enemy: it patrols along its move direction, turns around at the
 * bounds of its area, faces the player in range, and when hostile stands
 * still and releases toxic gas, keeping at most `maxToxicGas` clouds: at the
 * cap the oldest is destroyed before the new one is added. The moth is also
 * a breakable object.
 */
module Moth {
  import opened Engine
  import opened Breakables
  import opened Gas

  const Hostile: string := "Hostile"
  const Passive: string := "Passive"
  const PlayerInRange: string := "Player In Range"

  /** The horizontal orientation: local scale x, move direction and facing sign. */
  datatype Facing = Facing(scaleX: real, moveDirection: Vec2, faceDirection: int)

  /** Horizontally flipped: all three negate together, the vertical direction is kept. */
  function Flipped(f: Facing): (r: Facing)
    ensures r.scaleX == -f.scaleX && r.faceDirection == -f.faceDirection
    ensures r.moveDirection == Vec2(-f.moveDirection.x, f.moveDirection.y)
  {
    Facing(-f.scaleX, Vec2(-f.moveDirection.x, f.moveDirection.y), -f.faceDirection)
  }

  /** Two flips restore the original orientation. */
  lemma FlippedTwice(f: Facing)
    ensures Flipped(Flipped(f)) == f
  {
  }

  /** The position of the first occurrence of `g` in `s`. */
  function FirstIndex<T(==)>(s: seq<T>, g: T): (i: nat)
    requires g in s
    ensures i < |s| && s[i] == g && g !in s[..i]
  {
    if s[0] == g then 0
    else
      assert s[1..][..FirstIndex(s[1..], g)] == s[1..FirstIndex(s[1..], g) + 1];
      FirstIndex(s[1..], g) + 1
  }

  /**
   * `s` without its first occurrence of `g` (LinkedList.Remove): the
   * elements before and after that occurrence keep their order.
   */
  function Without<T(==)>(s: seq<T>, g: T): (r: seq<T>)
    ensures g !in s ==> r == s
    ensures g in s ==> r == s[..FirstIndex(s, g)] + s[FirstIndex(s, g) + 1..]
    ensures g in s ==> |r| == |s| - 1
    ensures multiset(r) == multiset(s) - multiset{g}
  {
    if g !in s then s
    else
      var i := FirstIndex(s, g);
      assert s == s[..i] + [g] + s[i + 1..];
      s[..i] + s[i + 1..]
  }

  /** The first occurrence is the only position holding `g` with no `g` before it. */
  lemma FirstIndexUnique<T>(s: seq<T>, g: T, i: nat)
    requires i < |s| && s[i] == g && g !in s[..i]
    ensures FirstIndex(s, g) == i
  {
  }

  /** A head holding `g` is the node unlinked. */
  lemma WithoutAtHead<T>(s: seq<T>, g: T)
    ensures Without([g] + s, g) == s
  {
    FirstIndexUnique([g] + s, g, 0);
    assert ([g] + s)[1..] == s;
  }

  /** A head not holding `g` stays, and the removal goes on in the tail. */
  lemma WithoutPastHead<T>(x: T, s: seq<T>, g: T)
    requires x != g && g in s
    ensures Without([x] + s, g) == [x] + Without(s, g)
  {
    var xs := [x] + s;
    var i := FirstIndex(s, g);
    assert xs[..i + 1] == [x] + s[..i];
    FirstIndexUnique(xs, g, i + 1);
    assert xs[i + 2..] == s[i + 1..];
    calc {
      Without(xs, g);
      xs[..i + 1] + xs[i + 2..];
      ([x] + s[..i]) + s[i + 1..];
      [x] + (s[..i] + s[i + 1..]);
      [x] + Without(s, g);
    }
  }

  /**
   * The list's own removal: scanning from the head, the first node holding
   * `g` is unlinked and every other node stays where it was.
   */
  lemma WithoutScan<T>(x: T, s: seq<T>, g: T)
    ensures Without([x] + s, g) == if x == g then s else [x] + Without(s, g)
  {
    if x == g {
      WithoutAtHead(s, g);
    } else if g in s {
      WithoutPastHead(x, s, g);
    } else {
      assert g !in [x] + s;
    }
  }

  /**
   * At the cap the oldest cloud is destroyed and the new one appended; once
   * the destroyed cloud's handler has run, the list holds the same number of
   * clouds, with the oldest gone and the newest last.
   */
  lemma {:induction false} SpawnAtCapKeepsCount<T>(list: seq<T>, tg: T)
    requires |list| > 0
    ensures Without(list + [tg], list[0]) == list[1..] + [tg]
    ensures |Without(list + [tg], list[0])| == |list|
  {
    assert (list + [tg])[0] == list[0];
    assert (list + [tg])[1..] == list[1..] + [tg];
  }

  class MothAI {
    /** The BreakableObject part: hitbox, animator, game object. */
    const body: BreakableObject
    var moveDirection: Vec2
    const moveSpeed: real
    var faceDirection: int
    var scaleX: real
    /** The colliders that bound the moth's area. */
    const bounds: seq<GameObject>
    const maxToxicGas: real
    /** The clouds released and not yet destroyed, oldest first. */
    var toxicGasList: seq<ToxicGas>
    var usingGas: bool
    var velocity: Vec2
    /** Gas-release coroutines waiting for the animator to leave the passive state. */
    var releases: nat

    function Orientation(): Facing
      reads this
    {
      Facing(scaleX, moveDirection, faceDirection)
    }

    constructor (body: BreakableObject, moveDirection: Vec2, moveSpeed: real, scaleX: real,
                 bounds: seq<GameObject>, maxToxicGas: real)
      ensures this.body == body && this.moveDirection == moveDirection && this.moveSpeed == moveSpeed
      ensures this.scaleX == scaleX && this.bounds == bounds && this.maxToxicGas == maxToxicGas
      ensures toxicGasList == [] && !usingGas && releases == 0
    {
      this.body := body;
      this.moveDirection := moveDirection;
      this.moveSpeed := moveSpeed;
      this.scaleX := scaleX;
      this.bounds := bounds;
      this.maxToxicGas := maxToxicGas;
      faceDirection := 0;
      toxicGasList := [];
      usingGas := false;
      velocity := Zero2;
      releases := 0;
    }

    /** The facing sign is the sign of the local scale. */
    method Awake()
      modifies `faceDirection
      ensures faceDirection == Compare(scaleX, 0.0)
      ensures scaleX != 0.0 ==> faceDirection == 1 || faceDirection == -1
    {
      faceDirection := Compare(scaleX, 0.0);
    }

    /**
     * One frame: a hostile moth stands still and starts a release when none
     * is running and no cloud is left; otherwise it patrols.
     */
    method Update(stateName: string)
      modifies `velocity, `usingGas, `releases
      ensures stateName == Hostile ==> velocity == Zero2
      ensures stateName != Hostile ==> velocity == moveDirection.Scale(moveSpeed)
      ensures stateName == Hostile && !old(usingGas) && |toxicGasList| == 0 ==>
        usingGas && releases == old(releases) + 1
      ensures !(stateName == Hostile && !old(usingGas) && |toxicGasList| == 0) ==>
        usingGas == old(usingGas) && releases == old(releases)
    {
      if stateName == Hostile {
        velocity := Zero2;
        if !usingGas && |toxicGasList| == 0 {
          StartRelease();
        }
      } else {
        velocity := moveDirection.Scale(moveSpeed);
      }
    }

    method FlipX()
      modifies `scaleX, `moveDirection, `faceDirection
      ensures Orientation() == Flipped(old(Orientation()))
    {
      scaleX := -scaleX;
      moveDirection := Vec2(-moveDirection.x, moveDirection.y);
      faceDirection := -faceDirection;
    }

    /**
     * Flips exactly when the side the player is on differs from the facing
     * sign; a moth facing left or right then faces the player.
     */
    method FacePlayer(playerX: real)
      modifies `scaleX, `moveDirection, `faceDirection
      ensures Compare(playerX, body.gameObject.position.x) != old(faceDirection) ==>
        Orientation() == Flipped(old(Orientation()))
      ensures Compare(playerX, body.gameObject.position.x) == old(faceDirection) ==>
        Orientation() == old(Orientation())
      ensures (old(faceDirection) == 1 || old(faceDirection) == -1) && playerX != body.gameObject.position.x ==>
        faceDirection == Compare(playerX, body.gameObject.position.x)
    {
      if Compare(playerX, body.gameObject.position.x) != faceDirection {
        FlipX();
      }
    }

    /** The synchronous start of a release coroutine: it marks the gas in use and waits. */
    method StartRelease()
      modifies `usingGas, `releases
      ensures usingGas && releases == old(releases) + 1
    {
      usingGas := true;
      releases := releases + 1;
    }

    /**
     * A later run of a waiting release. While passive it keeps waiting. In
     * any other state it ends; only in the hostile state does it release
     * `tg` (a newly created cloud): at the cap the oldest cloud is destroyed
     * first (on an empty list that lookup throws and the release stops with
     * the gas still in use); the new cloud goes last and the gas is free again.
     */
    method ResumeRelease(stateName: string, tg: ToxicGas) returns (thrown: bool)
      requires releases > 0
      requires tg !in toxicGasList
      modifies `toxicGasList, `usingGas, `releases
      modifies if |toxicGasList| > 0 then {toxicGasList[0].gameObject} else {}
      ensures stateName == Passive ==>
        !thrown && releases == old(releases) && toxicGasList == old(toxicGasList) && usingGas == old(usingGas)
      ensures stateName != Passive ==> releases == old(releases) - 1
      ensures stateName != Passive && stateName != Hostile ==>
        !thrown && toxicGasList == old(toxicGasList) && usingGas == old(usingGas)
      ensures stateName == Hostile ==>
        (thrown <==> |old(toxicGasList)| as real == maxToxicGas && |old(toxicGasList)| == 0)
      ensures stateName == Hostile && thrown ==> toxicGasList == old(toxicGasList) && usingGas == old(usingGas)
      ensures stateName == Hostile && !thrown ==> toxicGasList == old(toxicGasList) + [tg] && !usingGas
      ensures stateName == Hostile && !thrown && |old(toxicGasList)| as real == maxToxicGas ==>
        old(toxicGasList)[0].gameObject.destroyed
      ensures |old(toxicGasList)| > 0 ==>
        var h := old(toxicGasList)[0].gameObject;
        && h.position == old(h.position) && h.active == old(h.active)
        && h.destroyed == (old(h.destroyed) || (stateName == Hostile && !thrown && |old(toxicGasList)| as real == maxToxicGas))
    {
      thrown := false;
      if stateName == Passive {
        return;
      }
      releases := releases - 1;
      if stateName == Hostile {
        if |toxicGasList| as real == maxToxicGas {
          if |toxicGasList| == 0 {
            return true;
          }
          toxicGasList[0].gameObject.Destroy();
        }
        toxicGasList := toxicGasList + [tg];
        usingGas := false;
      }
    }

    /** The OnDestroyEvent handler a released cloud carries: it leaves the list. */
    method OnGasDestroyed(tg: ToxicGas)
      modifies `toxicGasList
      ensures toxicGasList == Without(old(toxicGasList), tg)
    {
      toxicGasList := Without(toxicGasList, tg);
    }

    /**
     * A player entering starts a release; a bound reverses the vertical
     * direction and, when moving horizontally, flips the moth.
     */
    method OnTriggerEnter2D(tag: string, other: GameObject)
      modifies body.anim, `usingGas, `releases, `scaleX, `moveDirection, `faceDirection
      ensures tag == PlayerTag ==>
        body.anim.bools == old(body.anim.bools)[PlayerInRange := true]
        && usingGas && releases == old(releases) + 1
      ensures tag != PlayerTag ==>
        body.anim.bools == old(body.anim.bools) && usingGas == old(usingGas) && releases == old(releases)
      ensures body.anim.triggers == old(body.anim.triggers)
      ensures other in bounds ==>
        && moveDirection.y == -old(moveDirection.y)
        && (old(moveDirection.x) != 0.0 ==>
              scaleX == -old(scaleX) && faceDirection == -old(faceDirection)
              && moveDirection.x == -old(moveDirection.x))
        && (old(moveDirection.x) == 0.0 ==>
              scaleX == old(scaleX) && faceDirection == old(faceDirection) && moveDirection.x == 0.0)
      ensures other !in bounds ==> Orientation() == old(Orientation())
    {
      if tag == PlayerTag {
        body.anim.SetBool(PlayerInRange, true);
        StartRelease();
      }
      if other in bounds {
        if moveDirection.x != 0.0 {
          FlipX();
        }
        moveDirection := Vec2(moveDirection.x, -moveDirection.y);
      }
    }

    /** While the player stays in range the moth keeps facing it. */
    method OnTriggerStay2D(tag: string, playerX: real)
      modifies `scaleX, `moveDirection, `faceDirection
      ensures tag != PlayerTag ==> Orientation() == old(Orientation())
      ensures tag == PlayerTag && (old(faceDirection) == 1 || old(faceDirection) == -1)
              && playerX != body.gameObject.position.x ==>
        faceDirection == Compare(playerX, body.gameObject.position.x)
    {
      if tag == PlayerTag {
        FacePlayer(playerX);
      }
    }

    method OnTriggerExit2D(tag: string)
      modifies body.anim
      ensures tag == PlayerTag ==> body.anim.bools == old(body.anim.bools)[PlayerInRange := false]
      ensures tag != PlayerTag ==> body.anim.bools == old(body.anim.bools)
      ensures body.anim.triggers == old(body.anim.triggers)
    {
      if tag == PlayerTag {
        body.anim.SetBool(PlayerInRange, false);
      }
    }
  }
}
