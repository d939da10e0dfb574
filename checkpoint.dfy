/**
 * A checkpoint the player can respawn at. Its `active` flag is the animator's
 * "Enabled" parameter. A preset checkpoint enables itself and registers with
 * the player on entry; interacting respawns the player first when the
 * checkpoint is active, and always registers it (the line that would enable
 * it on interaction is commented out in the source).
 */
module Checkpoints {
  import opened Engine
  import opened Health
  import opened Interaction

  const Enabled: string := "Enabled"
  const OnCheckpoint: string := "OnCheckpoint"

  class Checkpoint {
    /** The InteractableObject part of the checkpoint. */
    const range: InteractableObject
    const anim: Animator
    /** The checkpoint's game object: its respawn position and identity in the player's list. */
    const gameObject: GameObject
    const preset: bool

    /** The recorded player's animator is not the checkpoint's own. */
    ghost predicate Valid()
      reads this, range
    {
      range.Valid() && (range.player != null ==> range.player.anim != anim)
    }

    function Active(): bool
      reads anim
    {
      anim.GetBool(Enabled)
    }

    constructor (range: InteractableObject, anim: Animator, gameObject: GameObject, preset: bool)
      requires range.Valid() && range.player == null
      ensures Valid()
      ensures this.range == range && this.anim == anim && this.gameObject == gameObject && this.preset == preset
    {
      this.range := range;
      this.anim := anim;
      this.gameObject := gameObject;
      this.preset := preset;
    }

    method Awake()
      modifies range`textActive
      ensures !range.textActive
    {
      range.Awake();
    }

    /**
     * A player entering: the base handler runs, then a preset checkpoint
     * becomes enabled, shows the player on it and is registered with the
     * player. A non-preset checkpoint changes neither flag nor the list.
     */
    method OnTriggerEnter2D(tag: string, p: HealthManager)
      requires Valid() && p.anim != anim
      modifies range`textActive, range`player, range`playerInRange, anim, p`checkpoints
      ensures Valid()
      ensures tag == PlayerTag ==> range.textActive && range.player == p && range.playerInRange
      ensures tag == PlayerTag && preset ==>
        && anim.bools == old(anim.bools)[Enabled := true][OnCheckpoint := true]
        && Active()
        && p.checkpoints == WithCheckpoint(old(p.checkpoints), gameObject)
      ensures tag != PlayerTag || !preset ==>
        anim.bools == old(anim.bools) && p.checkpoints == old(p.checkpoints)
      ensures tag != PlayerTag ==>
        range.textActive == old(range.textActive) && range.player == old(range.player)
        && range.playerInRange == old(range.playerInRange)
      ensures anim.triggers == old(anim.triggers)
    {
      range.OnTriggerEnter2D(tag, p);
      if tag == PlayerTag && preset {
        anim.SetBool(Enabled, true);
        anim.SetBool(OnCheckpoint, true);
        p.AddCheckpoint(gameObject);
      }
    }

    method OnTriggerExit2D(tag: string)
      requires Valid()
      modifies range`textActive, range`playerInRange
      ensures Valid()
      ensures tag == PlayerTag ==> !range.textActive && !range.playerInRange
      ensures tag != PlayerTag ==>
        range.textActive == old(range.textActive) && range.playerInRange == old(range.playerInRange)
    {
      range.OnTriggerExit2D(tag);
    }

    /**
     * The interaction handler: an active checkpoint respawns the player
     * first; then the checkpoint is registered. If the respawn throws (the
     * player has no checkpoint yet) the handler stops there. The checkpoint's
     * own flags never change.
     */
    method OnInteract(p: HealthManager) returns (thrown: bool)
      requires p.anim != anim
      modifies p`checkpoints, p.gameObject`position, p.anim
      ensures Interacted(this, p, thrown)
    {
      thrown := false;
      if Active() {
        thrown := p.Respawn();
        if thrown {
          return;
        }
      }
      p.AddCheckpoint(gameObject);
    }

    /** One frame: the base update, then the interaction handler when it fires. */
    method Update(keyDown: bool) returns (interacted: bool, thrown: bool)
      requires Valid()
      modifies range`shownText
      modifies Touched(range.player)`checkpoints
      modifies if range.player == null then {} else {range.player.gameObject, range.player.anim}
      ensures Valid()
      ensures interacted <==> range.intTextInd >= 0 && keyDown && range.playerInRange
      ensures anim.bools == old(anim.bools)
      ensures !interacted ==> !thrown
      ensures !interacted && range.player != null ==>
        && range.player.checkpoints == old(range.player.checkpoints)
        && range.player.gameObject.position == old(range.player.gameObject.position)
        && range.player.anim.bools == old(range.player.anim.bools)
        && range.player.anim.triggers == old(range.player.anim.triggers)
      ensures interacted ==> range.player != null && Interacted(this, range.player, thrown)
      ensures range.player != null ==>
        var p := range.player;
        && p.timeLeft == old(p.timeLeft) && p.dmgTaken == old(p.dmgTaken)
        && p.decaySpeed == old(p.decaySpeed) && p.baseDecaySpeed == old(p.baseDecaySpeed)
        && p.timePerHealth == old(p.timePerHealth) && p.bodyType == old(p.bodyType)
    {
      interacted := range.Update(keyDown);
      thrown := false;
      if interacted {
        thrown := OnInteract(range.player);
      }
    }
  }

  /**
   * What an interaction at `c` does to the player `p`. An active checkpoint
   * respawns the player first: the move to the last checkpoint in the list
   * plus its collider offset, depth kept, the melt cleared and `onRespawn`
   * fired. The respawn throws exactly when the list is empty, and then
   * nothing else happens. Otherwise the checkpoint is registered. An
   * inactive checkpoint leaves the position and the animator alone, and the
   * checkpoint's own flags never change.
   */
  twostate predicate Interacted(c: Checkpoint, p: HealthManager, thrown: bool)
    reads c.anim, p, p.gameObject, p.anim
  {
    && c.anim.bools == old(c.anim.bools)
    && (thrown <==> old(c.Active()) && |old(p.checkpoints)| == 0)
    && (thrown ==>
          && p.checkpoints == old(p.checkpoints) && p.gameObject.position == old(p.gameObject.position)
          && p.anim.bools == old(p.anim.bools) && p.anim.triggers == old(p.anim.triggers))
    && (!thrown ==> p.checkpoints == WithCheckpoint(old(p.checkpoints), c.gameObject))
    && (old(c.Active()) && !thrown ==>
          var target := old(p.checkpoints)[|old(p.checkpoints)| - 1];
          && p.gameObject.position == Vec3(old(target.position).x + target.colliderOffset.x,
                                           old(target.position).y + target.colliderOffset.y,
                                           old(p.gameObject.position).z)
          && p.anim.bools == old(p.anim.bools)[DeathMelt := false]
          && p.anim.triggers == old(p.anim.triggers) + [OnRespawn])
    && (!old(c.Active()) ==>
          && p.gameObject.position == old(p.gameObject.position)
          && p.anim.bools == old(p.anim.bools) && p.anim.triggers == old(p.anim.triggers))
  }
}
