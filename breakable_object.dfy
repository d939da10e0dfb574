/** An object the player's burst attack breaks: it loses its hitbox and is deactivated, not destroyed. */
module Breakables {
  import opened Engine

  /** The parts of a breakable object that breaking changes. */
  datatype Parts = Parts(hitboxEnabled: bool, bools: map<string, bool>, active: bool)

  /** The broken state: hitbox off, the (unnamed) break flag set, the object inactive. */
  function Broken(p: Parts): (r: Parts)
    ensures !r.hitboxEnabled && !r.active
    ensures r.bools.Keys == p.bools.Keys + {""} && r.bools[""]
    ensures forall k :: k in p.bools && k != "" ==> r.bools[k] == p.bools[k]
  {
    Parts(false, p.bools["" := true], false)
  }

  /** Breaking an already broken object changes nothing. */
  lemma BreakIdempotent(p: Parts)
    ensures Broken(Broken(p)) == Broken(p)
  {
  }

  class BreakableObject {
    var hitboxEnabled: bool
    const anim: Animator
    const gameObject: GameObject

    function State(): Parts
      reads this, anim, gameObject
    {
      Parts(hitboxEnabled, anim.bools, gameObject.active)
    }

    constructor (hitboxEnabled: bool, anim: Animator, gameObject: GameObject)
      ensures this.hitboxEnabled == hitboxEnabled && this.anim == anim && this.gameObject == gameObject
    {
      this.hitboxEnabled := hitboxEnabled;
      this.anim := anim;
      this.gameObject := gameObject;
    }

    method Break()
      modifies `hitboxEnabled, anim, gameObject
      ensures State() == Broken(old(State()))
      ensures anim.triggers == old(anim.triggers)
      ensures gameObject.destroyed == old(gameObject.destroyed) && gameObject.position == old(gameObject.position)
    {
      hitboxEnabled := false;
      anim.SetBool("", true);
      BreakFinish();
    }

    /** The object is deactivated (destroying it is commented out in the source). */
    method BreakFinish()
      modifies gameObject
      ensures !gameObject.active
      ensures gameObject.destroyed == old(gameObject.destroyed) && gameObject.position == old(gameObject.position)
    {
      gameObject.SetActive(false);
    }
  }
}
