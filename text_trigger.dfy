/**
 * A range that shows a hint text: a permanent text is shown from the start
 * and never hidden; any other is shown only while the player is in range.
 */
module TextTriggers {
  import opened Engine
  import opened Health
  import opened Interaction

  class TextTrigger {
    /** The InteractableObject part of the trigger. */
    const range: InteractableObject
    /** Whether the trigger's own hint text object is active. */
    var textActive: bool
    const permanent: bool

    constructor (range: InteractableObject, textActive: bool, permanent: bool)
      ensures this.range == range && this.textActive == textActive && this.permanent == permanent
    {
      this.range := range;
      this.textActive := textActive;
      this.permanent := permanent;
    }

    method Awake()
      modifies `textActive, range`textActive
      ensures !range.textActive && textActive == permanent
    {
      range.Awake();
      textActive := permanent;
    }

    method OnTriggerEnter2D(tag: string, p: HealthManager)
      requires range.Valid()
      modifies `textActive, range`textActive, range`player, range`playerInRange
      ensures range.Valid()
      ensures tag == PlayerTag ==> range.textActive && range.player == p && range.playerInRange
      ensures tag == PlayerTag && !permanent ==> textActive
      ensures tag != PlayerTag || permanent ==> textActive == old(textActive)
      ensures tag != PlayerTag ==>
        range.textActive == old(range.textActive) && range.player == old(range.player)
        && range.playerInRange == old(range.playerInRange)
    {
      range.OnTriggerEnter2D(tag, p);
      if tag == PlayerTag && !permanent {
        textActive := true;
      }
    }

    method OnTriggerExit2D(tag: string)
      requires range.Valid()
      modifies `textActive, range`textActive, range`playerInRange
      ensures range.Valid()
      ensures tag == PlayerTag ==> !range.textActive && !range.playerInRange
      ensures tag == PlayerTag && !permanent ==> !textActive
      ensures tag != PlayerTag || permanent ==> textActive == old(textActive)
      ensures tag != PlayerTag ==>
        range.textActive == old(range.textActive) && range.playerInRange == old(range.playerInRange)
    {
      range.OnTriggerExit2D(tag);
      if tag == PlayerTag && !permanent {
        textActive := false;
      }
    }
  }
}
