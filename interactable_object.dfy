/**
 * The range and interaction state machine shared by checkpoints, text
 * triggers and level connectors: a player-tagged collider entering the
 * trigger shows the pop-up text and records the player; leaving hides the
 * text; pressing the interaction key while in range fires the interaction.
 * Subclasses subscribe further handlers; here they call these methods first.
 */
module Interaction {
  import opened Engine
  import opened Health

  class InteractableObject {
    /** The player last seen entering the range (kept after it leaves). */
    var player: HealthManager?
    var playerInRange: bool
    /** Whether the pop-up text object is active, and the text it displays. */
    var textActive: bool
    var shownText: string
    const intTextInd: int
    var intTexts: seq<string>

    /** Being in range implies a player was recorded. */
    ghost predicate Valid()
      reads this
    {
      playerInRange ==> player != null
    }

    /** Field initializers, with the text object as placed in the scene. */
    constructor (intTextInd: int, textActive: bool, shownText: string)
      ensures Valid()
      ensures player == null && !playerInRange
      ensures this.textActive == textActive && this.shownText == shownText
      ensures this.intTextInd == intTextInd && intTexts == []
    {
      player := null;
      playerInRange := false;
      this.textActive := textActive;
      this.shownText := shownText;
      this.intTextInd := intTextInd;
      intTexts := [];
    }

    /** The text starts hidden. */
    method Awake()
      modifies `textActive
      ensures !textActive
    {
      textActive := false;
    }

    /** The base enter-range handler. */
    method EnterRange(p: HealthManager)
      modifies `textActive, `player, `playerInRange
      ensures Valid()
      ensures textActive && player == p && playerInRange
    {
      textActive := true;
      player := p;
      playerInRange := true;
    }

    /** The base exit-range handler: the recorded player is kept. */
    method ExitRange()
      requires Valid()
      modifies `textActive, `playerInRange
      ensures Valid()
      ensures !textActive && !playerInRange
    {
      textActive := false;
      playerInRange := false;
    }

    /** Only a player-tagged collider enters the range; `p` is the player it belongs to. */
    method OnTriggerEnter2D(tag: string, p: HealthManager)
      requires Valid()
      modifies `textActive, `player, `playerInRange
      ensures Valid()
      ensures tag == PlayerTag ==> textActive && player == p && playerInRange
      ensures tag != PlayerTag ==>
        textActive == old(textActive) && player == old(player) && playerInRange == old(playerInRange)
    {
      if tag == PlayerTag {
        EnterRange(p);
      }
    }

    method OnTriggerExit2D(tag: string)
      requires Valid()
      modifies `textActive, `playerInRange
      ensures Valid()
      ensures tag == PlayerTag ==> !textActive && !playerInRange
      ensures tag != PlayerTag ==> textActive == old(textActive) && playerInRange == old(playerInRange)
    {
      if tag == PlayerTag {
        ExitRange();
      }
    }

    /**
     * One frame: the text shows entry `intTextInd` of `intTexts` when there
     * is one, and the interaction fires exactly when the key went down while
     * the player is in range. A negative index makes the list lookup throw,
     * which ends the frame before the key is looked at.
     */
    method Update(keyDown: bool) returns (interact: bool)
      requires Valid()
      modifies `shownText
      ensures interact <==> intTextInd >= 0 && keyDown && playerInRange
      ensures interact ==> player != null
      ensures 0 <= intTextInd < |intTexts| ==> shownText == intTexts[intTextInd]
      ensures !(0 <= intTextInd < |intTexts|) ==> shownText == old(shownText)
    {
      if |intTexts| > intTextInd {
        if intTextInd < 0 {
          return false;
        }
        shownText := intTexts[intTextInd];
      }
      interact := keyDown && playerInRange;
    }
  }
}
