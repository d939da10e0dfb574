/**
 * The save system: an append-only map from checkpoint id to the scene it was
 * activated in, a snapshot of the player (PlayerData), the rule deciding
 * whether a respawn needs a scene transition, the load that waits for the
 * scene and the player before restoring them, and the decisions made when
 * writing the snapshot to disk and reading it back.
 *
 * The dictionary is a `CheckpointMap` object: saving shares it with the
 * snapshot and loading shares the snapshot's back, so a later registration
 * is seen through both references, as in the source.
 */
module Saving {
  import opened Engine
  import opened Health
  import opened Scenes

  // ----- The checkpoint map as a value -----

  /** `id` registered in `scene`: added only when absent, never overwritten. */
  function Registered(m: map<int, string>, id: int, scene: string): (r: map<int, string>)
    ensures r.Keys == m.Keys + {id}
    ensures forall k :: k in m ==> r[k] == m[k]
    ensures id !in m ==> r[id] == scene
  {
    if id in m then m else m[id := scene]
  }

  /** Registering every id of `ids`, in order, in `scene`. */
  function RegisteredAll(m: map<int, string>, ids: seq<int>, scene: string): map<int, string>
    decreases |ids|
  {
    if ids == [] then m else RegisteredAll(Registered(m, ids[0], scene), ids[1..], scene)
  }

  /** Registering again is a no-op, whatever scene is current the second time. */
  lemma RegisteredIdempotent(m: map<int, string>, id: int, s0: string, s1: string)
    ensures Registered(Registered(m, id, s0), id, s1) == Registered(m, id, s0)
  {
  }

  /**
   * After any run of registrations the map has grown by exactly the ids
   * registered, and every entry it had is unchanged.
   */
  lemma {:induction false} RegisteredAllOnlyGrows(m: map<int, string>, ids: seq<int>, scene: string)
    ensures RegisteredAll(m, ids, scene).Keys == m.Keys + set i | i in ids
    ensures forall k :: k in m ==> RegisteredAll(m, ids, scene)[k] == m[k]
    decreases |ids|
  {
    if ids != [] {
      var m1 := Registered(m, ids[0], scene);
      RegisteredAllOnlyGrows(m1, ids[1..], scene);
      assert (set i | i in ids) == {ids[0]} + set i | i in ids[1..];
    }
  }

  /** The first scene recorded for an id is the one it keeps. */
  lemma {:induction false} RegisteredAllKeepsFirst(m: map<int, string>, ids: seq<int>, scene: string, id: int)
    requires id in m
    ensures id in RegisteredAll(m, ids, scene) && RegisteredAll(m, ids, scene)[id] == m[id]
    decreases |ids|
  {
    if ids != [] {
      RegisteredAllKeepsFirst(Registered(m, ids[0], scene), ids[1..], scene, id);
    }
  }

  // ----- Objects -----

  /** The `Dictionary<int, string>` of activated checkpoints, shared by reference. */
  class CheckpointMap {
    var entries: map<int, string>

    constructor (entries: map<int, string>)
      ensures this.entries == entries
    {
      this.entries := entries;
    }

    /** `Add` guarded by `ContainsKey`. */
    method Register(id: int, scene: string)
      modifies this
      ensures entries == Registered(old(entries), id, scene)
    {
      if id !in entries {
        entries := entries[id := scene];
      }
    }
  }

  /** The serialized snapshot as a value: what a save file holds. */
  datatype Record = Record(level: string, posX: real, posY: real, timeLeft: real, dmgTaken: int,
                           checkpoints: map<int, string>, lastCheckpoint: int)

  /** The player snapshot. A fresh one has a null level, modelled as "". */
  class PlayerData {
    var level: string
    var posX: real
    var posY: real
    var timeLeft: real
    var dmgTaken: int
    var activeCheckpoints: CheckpointMap
    var lastCheckpoint: int

    constructor ()
      ensures fresh(activeCheckpoints)
      ensures Snapshot() == Record("", 0.0, 0.0, 0.0, 0, map[], 0)
    {
      level := "";
      posX, posY, timeLeft := 0.0, 0.0, 0.0;
      dmgTaken := 0;
      activeCheckpoints := new CheckpointMap(map[]);
      lastCheckpoint := 0;
    }

    /** The snapshot read back from a save file: a new object with a map of its own. */
    constructor FromRecord(r: Record)
      ensures fresh(activeCheckpoints)
      ensures Snapshot() == r
    {
      level, posX, posY, timeLeft, dmgTaken := r.level, r.posX, r.posY, r.timeLeft, r.dmgTaken;
      activeCheckpoints := new CheckpointMap(r.checkpoints);
      lastCheckpoint := r.lastCheckpoint;
    }

    function Snapshot(): Record
      reads this, activeCheckpoints
    {
      Record(level, posX, posY, timeLeft, dmgTaken, activeCheckpoints.entries, lastCheckpoint)
    }
  }

  /**
   * Calls made on the linked player and on the checkpoints. `SetCheckpoint`,
   * `SetHealthBar` and `ReactivateAll` are not defined in the repository.
   * `RespawnPlayer` is `HealthManager.Respawn`, recorded rather than run
   * because its target is whatever `SetCheckpoint` selected.
   */
  datatype Call =
    | SetCheckpoint(id: int)
    | SetHealthBar(timeLeft: real, dmgTaken: int)
    | RespawnPlayer
    | ReactivateAll(ids: set<int>)

  /** A running load coroutine: the level it waits for and the checkpoint to restore at. */
  datatype PendingLoad = PendingLoad(level: string, checkpointID: int)

  /** The contents of the save file on disk. */
  datatype SaveFile = NoFile | Unreadable | Saved(record: Record)

  class SaveManager {
    var playerData: PlayerData?
    /** The player of the current scene, set by the player when it is created. */
    var player: HealthManager?
    var activeCheckpoints: CheckpointMap
    const firstLevelToLoad: string
    const checkpointStart: int
    const scenes: SceneController
    /** Calls made to collaborators, in order. */
    var calls: seq<Call>
    /** The load coroutines still waiting for their scene and player. */
    var pending: seq<PendingLoad>

    /** The snapshot and the manager hold the same checkpoint map. */
    ghost predicate Shared()
      reads this, playerData
    {
      playerData != null && playerData.activeCheckpoints == activeCheckpoints
    }

    constructor (firstLevelToLoad: string, checkpointStart: int, scenes: SceneController)
      ensures this.firstLevelToLoad == firstLevelToLoad && this.checkpointStart == checkpointStart
      ensures this.scenes == scenes
      ensures playerData == null && player == null && fresh(activeCheckpoints)
      ensures activeCheckpoints.entries == map[] && calls == [] && pending == []
    {
      this.firstLevelToLoad := firstLevelToLoad;
      this.checkpointStart := checkpointStart;
      this.scenes := scenes;
      playerData := null;
      player := null;
      activeCheckpoints := new CheckpointMap(map[]);
      calls := [];
      pending := [];
    }

    /** The public `player` field, assigned from outside. */
    method LinkPlayer(p: HealthManager?)
      modifies `player
      ensures player == p
    {
      player := p;
    }

    /**
     * Copies the player into the snapshot: the level only when one is given,
     * the position, time left and damage always, and the checkpoint map by
     * reference. `respawnPoint` is the player's respawn point, a member the
     * health manager here does not have.
     */
    method SavePlayerInfo(level: string, respawnPoint: int)
      requires playerData != null && player != null
      modifies playerData
      ensures Shared()
      ensures playerData.level == if level != "" then level else old(playerData.level)
      ensures playerData.posX == player.gameObject.position.x
      ensures playerData.posY == player.gameObject.position.y
      ensures playerData.timeLeft == player.timeLeft && playerData.dmgTaken == player.dmgTaken
      ensures playerData.lastCheckpoint == respawnPoint
    {
      if level != "" {
        playerData.level := level;
      }
      playerData.posX := player.gameObject.position.x;
      playerData.posY := player.gameObject.position.y;
      playerData.timeLeft := player.timeLeft;
      playerData.dmgTaken := player.dmgTaken;
      playerData.activeCheckpoints := activeCheckpoints;
      playerData.lastCheckpoint := respawnPoint;
    }

    /** Records `id` as activated in the current scene, unless it already is. */
    method SaveCheckpoint(id: int)
      modifies activeCheckpoints
      ensures activeCheckpoints.entries == Registered(old(activeCheckpoints.entries), id, scenes.currentScene)
      ensures Shared() ==> playerData.Snapshot().checkpoints == activeCheckpoints.entries
    {
      activeCheckpoints.Register(id, scenes.currentScene);
    }

    /** The synchronous start of the load coroutine: the scene load, then the wait. */
    method StartLoad(level: string, checkpointID: int, handle: Handle)
      modifies `pending, scenes`currentScene, scenes`tracksPlayed, scenes`tracking, scenes`errors, scenes.gameState
      ensures pending == old(pending) + [PendingLoad(level, checkpointID)]
      ensures Loaded(scenes, level, handle)
    {
      scenes.LoadScene(level, handle);
      pending := pending + [PendingLoad(level, checkpointID)];
    }

    /**
     * A later run of the `k`-th load coroutine. It keeps waiting until the
     * active scene is its level and a player is linked; then it takes the
     * snapshot's checkpoint map back, restores either the saved checkpoint and
     * health (id -1) or the given checkpoint followed by a respawn, and
     * reactivates every registered checkpoint last.
     */
    method ResumeLoad(k: nat, activeScene: string)
      requires k < |pending|
      requires activeScene == pending[k].level && player != null ==> playerData != null
      modifies `pending, `activeCheckpoints, `calls
      ensures activeScene != old(pending[k].level) || player == null ==>
        pending == old(pending) && activeCheckpoints == old(activeCheckpoints) && calls == old(calls)
      ensures activeScene == old(pending[k].level) && player != null ==>
        var id := old(pending[k].checkpointID);
        && pending == old(pending[..k] + pending[k + 1..])
        && Shared()
        && calls == old(calls)
           + (if id == -1
              then [SetCheckpoint(playerData.lastCheckpoint), SetHealthBar(playerData.timeLeft, playerData.dmgTaken)]
              else [SetCheckpoint(id), RespawnPlayer])
           + [ReactivateAll(activeCheckpoints.entries.Keys)]
    {
      var load := pending[k];
      if activeScene != load.level || player == null {
        return;
      }
      pending := pending[..k] + pending[k + 1..];
      activeCheckpoints := playerData.activeCheckpoints;
      if load.checkpointID == -1 {
        calls := calls + [SetCheckpoint(playerData.lastCheckpoint), SetHealthBar(playerData.timeLeft, playerData.dmgTaken)];
      } else {
        calls := calls + [SetCheckpoint(load.checkpointID), RespawnPlayer];
      }
      calls := calls + [ReactivateAll(activeCheckpoints.entries.Keys)];
    }

    /**
     * Id -1 starts a new game: a fresh snapshot and a load of the first level
     * at the starting checkpoint. Any other id loads the scene it was
     * registered in, and only if that is not the current scene. The result
     * says whether a load was started.
     */
    method LoadRespawn(checkpointID: int, handle: Handle) returns (transition: bool)
      requires checkpointID == -1 || checkpointID in activeCheckpoints.entries
      modifies `playerData, `pending
      modifies scenes`currentScene, scenes`tracksPlayed, scenes`tracking, scenes`errors, scenes.gameState
      ensures checkpointID == -1 ==>
        && transition && playerData != null && fresh(playerData)
        && playerData.Snapshot() == Record("", 0.0, 0.0, 0.0, 0, map[], 0)
        && pending == old(pending) + [PendingLoad(firstLevelToLoad, checkpointStart)]
        && Loaded(scenes, firstLevelToLoad, handle)
      ensures checkpointID != -1 ==>
        var level := old(activeCheckpoints.entries[checkpointID]);
        && playerData == old(playerData)
        && (transition <==> level != old(scenes.currentScene))
        && (transition ==>
              && pending == old(pending) + [PendingLoad(level, checkpointID)]
              && Loaded(scenes, level, handle))
        && (!transition ==> pending == old(pending) && unchanged(scenes, scenes.gameState))
    {
      if checkpointID == -1 {
        playerData := new PlayerData();
        StartLoad(firstLevelToLoad, checkpointStart, handle);
        return true;
      }
      var level := activeCheckpoints.entries[checkpointID];
      if level != scenes.currentScene {
        StartLoad(level, checkpointID, handle);
        return true;
      }
      return false;
    }

    /** Stores the position in the snapshot, then loads `level` restoring the saved checkpoint. */
    method LoadLevel(level: string, pos: Vec2, handle: Handle)
      requires playerData != null
      modifies playerData`posX, playerData`posY, `pending
      modifies scenes`currentScene, scenes`tracksPlayed, scenes`tracking, scenes`errors, scenes.gameState
      ensures playerData.posX == pos.x && playerData.posY == pos.y
      ensures playerData.level == old(playerData.level)
      ensures pending == old(pending) + [PendingLoad(level, -1)]
      ensures Loaded(scenes, level, handle)
    {
      playerData.posX := pos.x;
      playerData.posY := pos.y;
      StartLoad(level, -1, handle);
    }

    /** Reloads the saved level at the saved position, which stays as it was. */
    method LoadGame(handle: Handle)
      requires playerData != null
      modifies playerData`posX, playerData`posY, `pending
      modifies scenes`currentScene, scenes`tracksPlayed, scenes`tracking, scenes`errors, scenes.gameState
      ensures playerData.Snapshot() == old(playerData.Snapshot())
      ensures pending == old(pending) + [PendingLoad(playerData.level, -1)]
      ensures Loaded(scenes, playerData.level, handle)
    {
      LoadLevel(playerData.level, Vec2(playerData.posX, playerData.posY), handle);
    }

    /**
     * What is written at quit: when the game is running the snapshot is first
     * refreshed from the player at the current scene.
     */
    method SaveGameToDisk(respawnPoint: int) returns (file: SaveFile)
      requires playerData != null
      requires scenes.gameState.currentState == RUNNING ==> player != null
      modifies playerData
      ensures file == Saved(playerData.Snapshot())
      ensures scenes.gameState.currentState == RUNNING ==>
        && Shared()
        && file.record.level == (if scenes.currentScene != "" then scenes.currentScene else old(playerData.level))
        && file.record.posX == player.gameObject.position.x && file.record.posY == player.gameObject.position.y
        && file.record.timeLeft == player.timeLeft && file.record.dmgTaken == player.dmgTaken
        && file.record.checkpoints == activeCheckpoints.entries
        && file.record.lastCheckpoint == respawnPoint
      ensures scenes.gameState.currentState != RUNNING ==> playerData.Snapshot() == old(playerData.Snapshot())
    {
      if scenes.gameState.currentState == RUNNING {
        SavePlayerInfo(scenes.currentScene, respawnPoint);
      }
      file := Saved(playerData.Snapshot());
    }

    /**
     * Reads the save file: a missing file leaves the snapshot as it is, an
     * unreadable one gives a fresh snapshot, a readable one a new snapshot
     * equal to the saved one.
     */
    method LoadGameFromDisk(file: SaveFile)
      modifies `playerData
      ensures file == NoFile ==> playerData == old(playerData)
      ensures file == Unreadable ==>
        playerData != null && fresh(playerData) && playerData.Snapshot() == Record("", 0.0, 0.0, 0.0, 0, map[], 0)
      ensures file.Saved? ==> playerData != null && fresh(playerData) && playerData.Snapshot() == file.record
    {
      if file == Unreadable {
        playerData := new PlayerData();
      } else if file.Saved? {
        playerData := new PlayerData.FromRecord(file.record);
      }
    }

    /** At start-up the save file is read, then the main menu is loaded. */
    method Start(file: SaveFile, handle: Handle)
      modifies `playerData, scenes`currentScene, scenes`tracksPlayed, scenes`tracking, scenes`errors, scenes.gameState
      ensures file == NoFile ==> playerData == old(playerData)
      ensures file == Unreadable ==>
        playerData != null && fresh(playerData) && playerData.Snapshot() == Record("", 0.0, 0.0, 0.0, 0, map[], 0)
      ensures file.Saved? ==> playerData != null && fresh(playerData) && playerData.Snapshot() == file.record
      ensures scenes.currentScene == MenuScene && scenes.gameState.currentState == PREGAME
      ensures scenes.gameState.updates == old(scenes.gameState.updates) + [PREGAME, PREGAME]
      ensures scenes.tracksPlayed == old(scenes.tracksPlayed) + [0]
      ensures handle == NullHandle ==>
        scenes.errors == old(scenes.errors) + [Operation(Loading, MenuScene)] && scenes.tracking == old(scenes.tracking)
      ensures handle == InProgress ==>
        scenes.tracking == old(scenes.tracking) + [Operation(Loading, MenuScene)] && scenes.errors == old(scenes.errors)
      ensures handle == Finished ==> scenes.tracking == old(scenes.tracking) && scenes.errors == old(scenes.errors)
    {
      LoadGameFromDisk(file);
      scenes.LoadMainMenu(handle);
    }

    method OnApplicationQuit(respawnPoint: int) returns (file: SaveFile)
      requires playerData != null
      requires scenes.gameState.currentState == RUNNING ==> player != null
      modifies playerData
      ensures file == Saved(playerData.Snapshot())
      ensures scenes.gameState.currentState != RUNNING ==> file == Saved(old(playerData.Snapshot()))
    {
      file := SaveGameToDisk(respawnPoint);
    }
  }

  /** Writing a snapshot and reading the file back gives an equal snapshot. */
  method SaveThenLoad(m: SaveManager, respawnPoint: int)
    requires m.playerData != null
    requires m.scenes.gameState.currentState == RUNNING ==> m.player != null
    modifies m, m.playerData
    ensures m.playerData != null && m.playerData != old(m.playerData)
    ensures m.playerData.Snapshot() == old(m.playerData).Snapshot()
  {
    var file := m.SaveGameToDisk(respawnPoint);
    m.LoadGameFromDisk(file);
  }
}
