/** The player's area attack: an animator flag marks it in progress and a hitbox breaks what it touches. */
module Burst {
  import opened Engine
  import opened Breakables

  const Active: string := "Active"

  class BurstAttack {
    var hitboxEnabled: bool
    const anim: Animator

    /** The attack is in progress exactly while the animator's "Active" flag is set. */
    function InProgress(): bool
      reads anim
    {
      anim.GetBool(Active)
    }

    constructor (hitboxEnabled: bool, anim: Animator)
      ensures this.hitboxEnabled == hitboxEnabled && this.anim == anim
    {
      this.hitboxEnabled := hitboxEnabled;
      this.anim := anim;
    }

    method Awake()
      modifies `hitboxEnabled
      ensures !hitboxEnabled
    {
      hitboxEnabled := false;
    }

    /** Begins the attack (the sound effect is not modelled). */
    method Activate()
      modifies anim
      ensures InProgress() && anim.bools == old(anim.bools)[Active := true]
      ensures anim.triggers == old(anim.triggers)
    {
      anim.SetBool(Active, true);
    }

    /** Animation event at the climax: only the hitbox changes. */
    method EnableHitBox()
      modifies `hitboxEnabled
      ensures hitboxEnabled
    {
      hitboxEnabled := true;
    }

    /** Animation event at the end. */
    method Deactivate()
      modifies `hitboxEnabled, anim
      ensures !InProgress() && !hitboxEnabled
      ensures anim.bools == old(anim.bools)[Active := false] && anim.triggers == old(anim.triggers)
    {
      anim.SetBool(Active, false);
      hitboxEnabled := false;
    }

    /** A touched object with a BreakableObject component breaks; anything else is ignored. */
    method OnTriggerEnter2D(obj: BreakableObject?)
      modifies if obj == null then {} else {obj, obj.anim, obj.gameObject}
      ensures obj != null ==> obj.State() == Broken(old(obj.State()))
      ensures obj != null ==>
        && obj.anim.triggers == old(obj.anim.triggers)
        && obj.gameObject.destroyed == old(obj.gameObject.destroyed)
        && obj.gameObject.position == old(obj.gameObject.position)
    {
      if obj != null {
        obj.Break();
      }
    }
  }
}
