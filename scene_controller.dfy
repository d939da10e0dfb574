/**
 * Scene bookkeeping: the name of the current scene, the game state pushed to
 * the game-state manager, the music track started for a scene, and the
 * progress tracking of each asynchronous load or unload.
 */
module Scenes {
  import opened Engine

  /**
   * The game states the scene controller pushes. The manager's own enum is
   * not in the repository; PAUSED is inferred from its `TogglePause` and is
   * never pushed by the code modelled here.
   */
  datatype GameState = PREGAME | RUNNING | PAUSED

  const MenuScene: string := "Menu"
  const PauseMenu: string := "Pause"
  const EndMenu: string := "Ending"

  /**
   * The game-state manager, reduced to its current state and the log of
   * `UpdateState` calls it received.
   */
  class GameStateManager {
    var currentState: GameState
    var updates: seq<GameState>

    constructor (initial: GameState)
      ensures currentState == initial && updates == []
    {
      currentState := initial;
      updates := [];
    }

    method UpdateState(s: GameState)
      modifies this
      ensures currentState == s && updates == old(updates) + [s]
    {
      currentState := s;
      updates := updates + [s];
    }
  }

  /** The state a load of `scene` leaves, starting from `current`. */
  function StateAfterLoad(scene: string, current: GameState): (r: GameState)
    ensures scene == MenuScene ==> r == PREGAME
    ensures scene == PauseMenu ==> r == current
    ensures scene != MenuScene && scene != PauseMenu ==> r == RUNNING
  {
    if scene == MenuScene then PREGAME
    else if scene != PauseMenu then RUNNING
    else current
  }

  /** The music track started when `scene` loads; None keeps the music playing. */
  function TrackFor(scene: string): (r: Option<nat>)
    ensures r.Some? <==> scene in {MenuScene, "Level 1", "Level 1E", "Level 2", "Level 3", EndMenu}
    ensures r == Some(0) <==> scene == MenuScene
    ensures r == Some(1) <==> scene == "Level 1" || scene == "Level 1E"
    ensures r == Some(2) <==> scene == "Level 2"
    ensures r == Some(3) <==> scene == "Level 3"
    ensures r == Some(4) <==> scene == EndMenu
    ensures r.Some? ==> r.value <= 4
  {
    match scene
    case "Menu" => Some(0)
    case "Level 1" => Some(1)
    case "Level 1E" => Some(1)
    case "Level 2" => Some(2)
    case "Level 3" => Some(3)
    case "Ending" => Some(4)
    case _ => None
  }

  /** What an asynchronous operation is doing to a scene. */
  datatype Direction = Loading | Unloading
  datatype Operation = Operation(direction: Direction, scene: string)

  /** The handle the engine returns: none (the scene cannot be found), unfinished or finished. */
  datatype Handle = NullHandle | InProgress | Finished

  class SceneController {
    var currentScene: string
    const gameState: GameStateManager
    /** The tracks started, in order. */
    var tracksPlayed: seq<nat>
    /** Operations whose progress is still being tracked. */
    var tracking: seq<Operation>
    /** Operations reported as impossible ("Unable to load/unload <scene>"). */
    var errors: seq<Operation>

    /** `currentScene` is null before the first load; it is modelled as "". */
    constructor (gameState: GameStateManager)
      ensures this.gameState == gameState
      ensures currentScene == "" && tracksPlayed == [] && tracking == [] && errors == []
    {
      this.gameState := gameState;
      currentScene := "";
      tracksPlayed := [];
      tracking := [];
      errors := [];
    }

    /**
     * The first run of the progress coroutine: a null handle is reported and
     * tracking ends; an unfinished one is tracked until `PollProgress` sees it done.
     */
    method StartProgress(op: Operation, handle: Handle)
      modifies `tracking, `errors
      ensures handle == NullHandle ==> errors == old(errors) + [op] && tracking == old(tracking)
      ensures handle == InProgress ==> tracking == old(tracking) + [op] && errors == old(errors)
      ensures handle == Finished ==> tracking == old(tracking) && errors == old(errors)
    {
      if handle == NullHandle {
        errors := errors + [op];
        return;
      }
      if handle == InProgress {
        tracking := tracking + [op];
      }
    }

    /** A later run of the `k`-th tracking coroutine: it ends once its operation is done. */
    method PollProgress(k: nat, isDone: bool)
      requires k < |tracking|
      modifies `tracking
      ensures isDone ==> tracking == old(tracking)[..k] + old(tracking)[k + 1..]
      ensures !isDone ==> tracking == old(tracking)
    {
      if isDone {
        tracking := tracking[..k] + tracking[k + 1..];
      }
    }

    /**
     * Starts loading `scene`, makes it the current scene whether or not the
     * load can happen, pushes the game state by scene and starts its track.
     */
    method LoadScene(scene: string, handle: Handle)
      modifies `currentScene, `tracksPlayed, `tracking, `errors, gameState
      ensures Loaded(this, scene, handle)
    {
      StartProgress(Operation(Loading, scene), handle);
      currentScene := scene;
      if scene == MenuScene {
        gameState.UpdateState(PREGAME);
      } else if scene != PauseMenu {
        gameState.UpdateState(RUNNING);
      }
      var track := TrackFor(scene);
      if track.Some? {
        tracksPlayed := tracksPlayed + [track.value];
      }
    }

    /** Loads the menu and ends in the pre-game state, which is pushed twice. */
    method LoadMainMenu(handle: Handle)
      modifies `currentScene, `tracksPlayed, `tracking, `errors, gameState
      ensures currentScene == MenuScene
      ensures gameState.currentState == PREGAME
      ensures gameState.updates == old(gameState.updates) + [PREGAME, PREGAME]
      ensures tracksPlayed == old(tracksPlayed) + [0]
      ensures handle == NullHandle ==>
        errors == old(errors) + [Operation(Loading, MenuScene)] && tracking == old(tracking)
      ensures handle == InProgress ==>
        tracking == old(tracking) + [Operation(Loading, MenuScene)] && errors == old(errors)
      ensures handle == Finished ==> tracking == old(tracking) && errors == old(errors)
    {
      LoadScene(MenuScene, handle);
      gameState.UpdateState(PREGAME);
    }

    /**
     * Starts unloading `scene`; the current scene becomes whatever the engine
     * reports as active right after the call.
     */
    method UnloadScene(scene: string, handle: Handle, activeSceneName: string)
      modifies `currentScene, `tracking, `errors
      ensures currentScene == activeSceneName
      ensures handle == NullHandle ==>
        errors == old(errors) + [Operation(Unloading, scene)] && tracking == old(tracking)
      ensures handle == InProgress ==>
        tracking == old(tracking) + [Operation(Unloading, scene)] && errors == old(errors)
      ensures handle == Finished ==> tracking == old(tracking) && errors == old(errors)
    {
      StartProgress(Operation(Unloading, scene), handle);
      currentScene := activeSceneName;
    }
  }

  /**
   * The whole effect of `LoadScene(scene, handle)` on `sc`: the scene is
   * current, the game state follows it (and is logged unless the scene is
   * the pause menu), the scene's track starts, and the load is tracked or
   * reported as impossible according to the handle.
   */
  twostate predicate Loaded(sc: SceneController, scene: string, handle: Handle)
    reads sc, sc.gameState
  {
    && sc.currentScene == scene
    && sc.gameState.currentState == StateAfterLoad(scene, old(sc.gameState.currentState))
    && sc.gameState.updates ==
       old(sc.gameState.updates) + (if scene == PauseMenu then [] else [sc.gameState.currentState])
    && sc.tracksPlayed ==
       old(sc.tracksPlayed) + (if TrackFor(scene).Some? then [TrackFor(scene).value] else [])
    && (handle == NullHandle ==>
          sc.errors == old(sc.errors) + [Operation(Loading, scene)] && sc.tracking == old(sc.tracking))
    && (handle == InProgress ==>
          sc.tracking == old(sc.tracking) + [Operation(Loading, scene)] && sc.errors == old(sc.errors))
    && (handle == Finished ==> sc.tracking == old(sc.tracking) && sc.errors == old(sc.errors))
  }
}
