/** An object that damages the player on contact and may be destroyed by any contact. */
module Hazards {
  import opened Engine
  import opened Health
  import opened HealthDisplay

  class DamagingObject {
    const damage: int
    const destroyOnHit: bool
    /** Knockback is not implemented in the source; the flag has no effect. */
    const canKnockback: bool
    const gameObject: GameObject

    constructor (damage: int, destroyOnHit: bool, canKnockback: bool, gameObject: GameObject)
      ensures this.damage == damage && this.destroyOnHit == destroyOnHit
      ensures this.canKnockback == canKnockback && this.gameObject == gameObject
    {
      this.damage := damage;
      this.destroyOnHit := destroyOnHit;
      this.canKnockback := canKnockback;
      this.gameObject := gameObject;
    }

    /**
     * A contact with an object tagged `tag`; `health` is its HealthManager,
     * which a player-tagged object must have. The player takes the hit once,
     * with every effect of `TakeDamage`; no other contact touches a health
     * manager. The hazard is destroyed on any contact when `destroyOnHit`
     * is set. Only the damage, body type, animator and bar of the player can
     * change: its time budget, decay speeds and checkpoints are kept.
     */
    method OnContact(tag: string, health: HealthManager?)
      requires tag == PlayerTag ==> health != null
      modifies gameObject
      modifies if health == null then {} else {health.anim, health.healthBar}
      modifies Touched(health)`dmgTaken, Touched(health)`bodyType
      ensures tag == PlayerTag ==> TookDamage(health, damage)
      ensures tag != PlayerTag && health != null ==>
        && health.dmgTaken == old(health.dmgTaken) && health.bodyType == old(health.bodyType)
        && unchanged(health.anim, health.healthBar)
      ensures gameObject.destroyed == (old(gameObject.destroyed) || destroyOnHit)
      ensures gameObject.active == old(gameObject.active) && gameObject.position == old(gameObject.position)
    {
      if tag == PlayerTag {
        health.TakeDamage(damage);
      }
      if destroyOnHit {
        gameObject.Destroy();
      }
    }

    /** A trigger contact: the same rule as `OnContact`. */
    method OnTriggerEnter2D(tag: string, health: HealthManager?)
      requires tag == PlayerTag ==> health != null
      modifies gameObject
      modifies if health == null then {} else {health.anim, health.healthBar}
      modifies Touched(health)`dmgTaken, Touched(health)`bodyType
      ensures tag == PlayerTag ==> TookDamage(health, damage)
      ensures tag != PlayerTag && health != null ==>
        && health.dmgTaken == old(health.dmgTaken) && health.bodyType == old(health.bodyType)
        && unchanged(health.anim, health.healthBar)
      ensures gameObject.destroyed == (old(gameObject.destroyed) || destroyOnHit)
      ensures gameObject.active == old(gameObject.active) && gameObject.position == old(gameObject.position)
    {
      OnContact(tag, health);
    }

    /** A collision contact: the same rule as `OnContact`. */
    method OnCollisionEnter2D(tag: string, health: HealthManager?)
      requires tag == PlayerTag ==> health != null
      modifies gameObject
      modifies if health == null then {} else {health.anim, health.healthBar}
      modifies Touched(health)`dmgTaken, Touched(health)`bodyType
      ensures tag == PlayerTag ==> TookDamage(health, damage)
      ensures tag != PlayerTag && health != null ==>
        && health.dmgTaken == old(health.dmgTaken) && health.bodyType == old(health.bodyType)
        && unchanged(health.anim, health.healthBar)
      ensures gameObject.destroyed == (old(gameObject.destroyed) || destroyOnHit)
      ensures gameObject.active == old(gameObject.active) && gameObject.position == old(gameObject.position)
    {
      OnContact(tag, health);
    }
  }
}
