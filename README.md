# Candle platformer: player life-cycle and object bookkeeping in Dafny

This project models the bookkeeping that the MonoBehaviours of a small Unity 2D
platformer keep in their own fields, and proves properties of it. The player is
a candle. Its health is a time budget that drains while the player idles. Hits
break segments of the health bar. The candle dies by melting, by breaking or
externally, and respawns at the last checkpoint it registered.

Around that sit the save system, the scene controller, the interaction range
shared by checkpoints and hint texts, and several hazards:
- toxic gas that speeds up the decay;
- damaging objects;
- the burst attack, which breaks breakable objects;
- the moth enemy, which releases a capped number of gas clouds;
- moving platforms.

The project also models the two competing variants of the player controller,
as two separate classes.

One module per source file:

| module | source file |
|---|---|
| `Engine` | stand-ins for the engine: vectors, `CompareTo`, the `(int)` cast, an Animator reduced to named bools and a trigger log, and a GameObject reduced to position, collider offset, active and destroyed flags |
| `HealthDisplay` | Assets/Scripts/Player/HealthBar.cs |
| `Health` | Assets/Scripts/Player/HealthManager.cs |
| `Interaction` | Assets/Scripts/Environment/InteractableObject.cs |
| `Checkpoints` | Assets/Scripts/Environment/Checkpoint.cs |
| `TextTriggers` | Assets/Scripts/Environment/TextTrigger.cs |
| `Scenes` | Assets/Scripts/SceneController.cs |
| `Saving` | Assets/Scripts/SaveManager.cs |
| `Gas` | Assets/Scripts/Enemy/ToxicGas.cs |
| `Hazards` | Assets/Scripts/Environment/DamagingObject.cs |
| `Breakables` | Assets/Scripts/Environment/BreakableObject.cs |
| `Burst` | Assets/Scripts/Player/BurstAttack.cs |
| `Moth` | Assets/Scripts/Enemy/MothAI.cs |
| `Movers` | Assets/Scripts/Environment/MovingObject.cs |
| `PlayerControl` | Assets/Scripts/Player/PlayerController.cs |
| `BasicPlayerControl` | Assets/Scripts/PlayerController.cs |

## How the source is rendered

- **Components.** Each component is a `class`. Its constructor takes the
  inspector-set fields, and `Awake` is a separate method.
- **Engine state.** Animator parameters, transform positions, rigidbody
  velocity and body type, `SetActive` and `Destroy` are fields.
- **Engine-supplied values.** The current animator state name, key presses,
  `Time.deltaTime`, collider tags and overlap-query results are method
  parameters.
- **Floats** are `real`s.
- **Inheritance.** `Checkpoint` and `TextTrigger` extend `InteractableObject`,
  and `MothAI` extends `BreakableObject`. Each of these is modelled by
  composition: a `const range` or `const body` field holds the base part. The
  base handlers run first, because `base.Awake` subscribes first.
- **The player's checkpoint list** holds each checkpoint's `GameObject`
  (transform and collider offset). That is all `Respawn` reads from it.
- **The recorded player** of an interactable is its `HealthManager`. The
  source stores the `PlayerController` and fetches that component from it.
- **Coroutines** become a list of waiting operations plus an explicit resume
  step. This covers `LoadPlayerInfo`, `ReleaseToxicGas` and `SceneProgress`.
  The engine runs a coroutine up to its first `yield` inside `StartCoroutine`.
  The model's resume step may be called right away to cover that.
- **Exceptions.** Where the source throws (an index into an empty list, a
  negative list index), the model returns `thrown` and leaves the state as the
  aborted handler leaves it.
- **Null strings.** The source's null strings are `""`: the current scene
  before the first load, and the level of a fresh `PlayerData`.
- **The save dictionary** is a `CheckpointMap` object.
  `SaveManager.SavePlayerInfo` stores that same object into the snapshot, and
  the load takes the snapshot's object back, exactly as the source aliases
  the dictionary.
- **Collaborators the repository does not define** are recorded in a `calls`
  log: `HealthManager.SetCheckpoint`, `HealthManager.SetHealthBar` and
  `Checkpoint.ReactivateAll`. The `Respawn` that follows `SetCheckpoint` in
  the load is recorded in the same log. `HealthManager.Respawn` itself is
  modelled, but it moves the player to the checkpoint that `SetCheckpoint`
  selects, and that selection is not defined here.
  `GameStateManager` becomes a small class with a current state and a log of
  `UpdateState` calls.

Behaviour of the code worth noting, which the model keeps as written:

- `ExpendFuel()` with its default argument -1 leaves the time budget at 1
  (zero, minus -1), not negative (Assets/Scripts/Player/HealthManager.cs:62-67).
- Nothing stops the health from changing after a death. The melt death is
  issued again on every idle frame, and damage keeps accumulating after a
  break (Assets/Scripts/Player/HealthManager.cs:34-48 and
  Assets/Scripts/Player/HealthManager.cs:96-109).
- Interacting with a checkpoint never enables it: the line that would do so
  is commented out (Assets/Scripts/Environment/Checkpoint.cs:45). Only preset
  checkpoints ever become active.

## Model

| member | source | states |
|---|---|---|
| Engine.Compare | Assets/Scripts/Enemy/MothAI.cs:30 | `CompareTo` of two floats is -1, 0 or 1, and -1 / 1 exactly when the first is smaller / larger |
| Engine.Truncate | Assets/Scripts/Player/PlayerController.cs:55 | the `(int)` cast truncates toward zero: the result lies between 0 and x, less than one away from x |
| Engine.Animator.constructor | Assets/Scripts/Environment/Checkpoint.cs:19 | a fresh animator has no parameters set and no triggers fired |
| Engine.Animator.SetBool | Assets/Scripts/Environment/Checkpoint.cs:28 | sets one named bool, reads back as set, fires no trigger |
| Engine.Animator.SetTrigger | Assets/Scripts/Player/HealthManager.cs:107 | fires one trigger, appended to the trigger log; bools unchanged |
| Engine.GameObject.constructor | Assets/Scripts/Player/HealthManager.cs:118 | a scene object with its position and collider offset, active and not destroyed |
| Engine.GameObject.Destroy | Assets/Scripts/Environment/DamagingObject.cs:38 | marks the object destroyed, nothing else changes |
| Engine.GameObject.SetActive | Assets/Scripts/Environment/BreakableObject.cs:33 | sets the active flag, nothing else changes |
| HealthDisplay.Damaged | Assets/Scripts/Player/HealthBar.cs:59-66 | same number of segments; segment i is broken if i < dmg and otherwise keeps its sprite |
| HealthDisplay.Fresh | Assets/Scripts/Player/HealthBar.cs:42-48 | `numSegments` new segments (none when it is not positive), each showing the prefab's sprite |
| HealthDisplay.DamagedKeepsShowing | Assets/Scripts/Player/HealthBar.cs:59-66 | a bar showing d0 damage, damaged to d1 >= d0, shows exactly d1 broken segments |
| HealthDisplay.DamagedNeverRepairs | Assets/Scripts/Player/HealthBar.cs:59-66 | lowering the damage count repairs nothing: a bar showing d0 > 0 damage, asked for any d1 < d0, keeps a broken segment at or past d1 and so does not show d1 |
| HealthDisplay.FreshBarShowsDamage | Assets/Scripts/Player/HealthBar.cs:29-66 | a freshly built normal bar shows no damage, and after dmg >= 0 it shows exactly dmg |
| HealthDisplay.HealthBar.constructor | Assets/Scripts/Player/HealthBar.cs:12-18 | no segments yet, prefab sprite as given |
| HealthDisplay.HealthBar.SetDefaults | Assets/Scripts/Player/HealthBar.cs:29-48 | maximum and value become `health`; exactly `numSegments` new prefab segments are appended to the existing ones |
| HealthDisplay.HealthBar.SetHealth | Assets/Scripts/Player/HealthBar.cs:51-54 | only the value changes; maximum and segments are kept |
| HealthDisplay.HealthBar.SetDamagedHealth | Assets/Scripts/Player/HealthBar.cs:59-66 | the segments become `Damaged(old, dmg)`: the first min(dmg, count) break, the rest are untouched; count, maximum and value unchanged |
| HealthDisplay.HealthBar.ResetDamagedHealth | Assets/Scripts/Player/HealthBar.cs:71-75 | every segment shows the normal sprite; count, maximum and value unchanged |
| Health.FuelLeft | Assets/Scripts/Player/HealthManager.cs:62-67 | a non-negative amount is subtracted exactly; a negative one leaves exactly -amt (> 0) |
| Health.WithCheckpoint | Assets/Scripts/Player/HealthManager.cs:87-91 | the checkpoint is listed afterwards; the list only grows, by at most one, holds nothing new but it, and stays duplicate-free |
| Health.ExhaustedMeltsEveryTick | Assets/Scripts/Player/HealthManager.cs:36-47 | with no time left, a run of n idle frames changes nothing and requests the melt death n times |
| Health.IdleRunNeverGains | Assets/Scripts/Player/HealthManager.cs:38-42 | with non-negative frame times and decay speed, idle frames never raise the time left and never change the damage |
| Health.NoMeltWhileDraining | Assets/Scripts/Player/HealthManager.cs:38-47 | if time is still left at the end of a run, no melt death was requested during it |
| Health.HitAllAddsUp | Assets/Scripts/Player/HealthManager.cs:75 | a run of hits adds the sum of the amounts to the damage, unclamped, and leaves the time budget alone |
| Health.DamageNeverDecreases | Assets/Scripts/Player/HealthManager.cs:75 | non-negative hits never lower the damage count |
| Health.BreakPersists | Assets/Scripts/Player/HealthManager.cs:77-80 | once damage covers the time left, every further non-negative hit issues the break death again |
| Health.ScenarioFiveHits | Assets/Scripts/Player/HealthManager.cs:73-81 | one concrete scenario: 10 s over 5 segments, four single hits keep the player alive and the fifth breaks it |
| Health.AddAllRegistersEach | Assets/Scripts/Player/HealthManager.cs:87-91 | any run of additions keeps the list duplicate-free and holds exactly the old entries plus those added |
| Health.ReAddingKeepsRespawnTarget | Assets/Scripts/Player/HealthManager.cs:87-122 | re-adding listed checkpoints is a no-op, so the respawn target (last entry) stays the last new checkpoint |
| Health.HealthManager.constructor | Assets/Scripts/Player/HealthManager.cs:10-23 | inspector fields as given, with the segment count in the inspector's range 1..100; no checkpoints, no damage |
| Health.HealthManager.Awake | Assets/Scripts/Player/HealthManager.cs:25-32 | full budget, time per segment = maxTime / healthSegments, base decay speed remembered, bar set to maxTime with healthSegments new segments |
| Health.HealthManager.Update | Assets/Scripts/Player/HealthManager.cs:34-49 | outside the idle state nothing changes; idle with time left drains dt·decaySpeed unless draining is disabled and the bar follows; idle with none left freezes the body and sets the melt flag |
| Health.HealthManager.ChangeDecaySpeed | Assets/Scripts/Player/HealthManager.cs:54-57 | decay speed = base speed × mult: calls do not compound and mult 1 restores the base |
| Health.HealthManager.ExpendFuel | Assets/Scripts/Player/HealthManager.cs:62-67 | time left becomes `FuelLeft(old, amt)` |
| Health.HealthManager.TakeDamage | Assets/Scripts/Player/HealthManager.cs:73-81 | damage += amt; the bar breaks the first dmgTaken segments; the break death (static body, trigger) exactly when dmgTaken·timePerHealth >= timeLeft, otherwise nothing else changes |
| Health.HealthManager.AddCheckpoint | Assets/Scripts/Player/HealthManager.cs:87-91 | the list becomes `WithCheckpoint(old, c)` |
| Health.HealthManager.Die | Assets/Scripts/Player/HealthManager.cs:96-109 | always a static body; the melt death sets a persistent bool, every other kind fires a one-shot trigger of that name |
| Health.HealthManager.Respawn | Assets/Scripts/Player/HealthManager.cs:115-122 | throws exactly on an empty list; otherwise moves to the last checkpoint's position plus collider offset keeping z, clears the melt flag, fires onRespawn, and leaves health as it is |
| Health.HealthManager.RespawnFinish | Assets/Scripts/Player/HealthManager.cs:128-135 | full budget, no damage, bar full and all segments normal, dynamic body |
| Interaction.InteractableObject.constructor | Assets/Scripts/Environment/InteractableObject.cs:12-18 | no player recorded, not in range, no texts |
| Interaction.InteractableObject.Awake | Assets/Scripts/Environment/InteractableObject.cs:24-26 | the pop-up text starts hidden |
| Interaction.InteractableObject.EnterRange | Assets/Scripts/Environment/InteractableObject.cs:28-33 | text shown, player recorded, in range |
| Interaction.InteractableObject.ExitRange | Assets/Scripts/Environment/InteractableObject.cs:35-39 | text hidden, out of range, the recorded player kept |
| Interaction.InteractableObject.OnTriggerEnter2D | Assets/Scripts/Environment/InteractableObject.cs:53-59 | only a Player-tagged collider enters; any other changes nothing |
| Interaction.InteractableObject.OnTriggerExit2D | Assets/Scripts/Environment/InteractableObject.cs:61-67 | only a Player-tagged collider leaves; any other changes nothing |
| Interaction.InteractableObject.Update | Assets/Scripts/Environment/InteractableObject.cs:42-51 | the text shows entry intTextInd only when it exists; the interaction fires exactly when the key went down while in range (and never past a throwing negative index) |
| Checkpoints.Checkpoint.constructor | Assets/Scripts/Environment/Checkpoint.cs:10-13 | a checkpoint with its range, animator, object and preset flag, no player recorded |
| Checkpoints.Checkpoint.Awake | Assets/Scripts/Environment/Checkpoint.cs:15-17 | the base range starts with its text hidden |
| Checkpoints.Checkpoint.OnTriggerEnter2D | Assets/Scripts/Environment/Checkpoint.cs:22-32 | base enter first; a preset checkpoint sets Enabled and OnCheckpoint and is registered with the player; a non-preset one changes neither flag nor the player's list |
| Checkpoints.Checkpoint.OnTriggerExit2D | Assets/Scripts/Environment/InteractableObject.cs:61-67 | the base exit behaviour |
| Checkpoints.Checkpoint.OnInteract | Assets/Scripts/Environment/Checkpoint.cs:36-47 | `Interacted`: respawn first exactly when active (moved to the last checkpoint plus its offset with depth kept, melt cleared, `onRespawn` fired), throwing exactly on an empty list with nothing changed; then registered without duplicates; an inactive checkpoint leaves position and animator alone; the checkpoint's own flags never change |
| Checkpoints.Checkpoint.Update | Assets/Scripts/Environment/InteractableObject.cs:42-51 | the handler runs exactly when the interaction fires and then has its whole effect (`Interacted`); without it the player is untouched; time left, damage, decay speeds, time per segment and body type never change; the Enabled flag never changes, so a non-preset checkpoint never becomes active |
| TextTriggers.TextTrigger.constructor | Assets/Scripts/Environment/TextTrigger.cs:7-8 | a trigger with its range, own text and permanent flag |
| TextTriggers.TextTrigger.Awake | Assets/Scripts/Environment/TextTrigger.cs:10-14 | base text hidden; own text visible exactly when permanent |
| TextTriggers.TextTrigger.OnTriggerEnter2D | Assets/Scripts/Environment/TextTrigger.cs:16-20 | base enter applies; a non-permanent trigger shows its text; a permanent one never changes it |
| TextTriggers.TextTrigger.OnTriggerExit2D | Assets/Scripts/Environment/TextTrigger.cs:22-26 | base exit applies; a non-permanent trigger hides its text; a permanent one never changes it |
| Scenes.GameStateManager.constructor | Assets/Scripts/SceneController.cs:22 | the state as given, no updates pushed |
| Scenes.GameStateManager.UpdateState | Assets/Scripts/SceneController.cs:34-37 | the state becomes the one pushed, and the push is logged |
| Scenes.StateAfterLoad | Assets/Scripts/SceneController.cs:34-37 | Menu gives PREGAME, Pause keeps the state, any other scene gives RUNNING |
| Scenes.TrackFor | Assets/Scripts/SceneController.cs:40-62 | a track exactly for Menu, Level 1, Level 1E, Level 2, Level 3 and Ending, each pinned: 0 only for Menu, 1 for both Level 1 variants, 2 only for Level 2, 3 only for Level 3, 4 only for Ending |
| Scenes.SceneController.constructor | Assets/Scripts/SceneController.cs:11 | no current scene ("" for null), nothing played, tracked or reported |
| Scenes.SceneController.StartProgress | Assets/Scripts/SceneController.cs:78-91 | a null handle is reported as an error and not tracked; an unfinished one is tracked; a finished one ends at once |
| Scenes.SceneController.PollProgress | Assets/Scripts/SceneController.cs:86-90 | a tracked operation stops being tracked exactly when its handle is done |
| Scenes.SceneController.LoadScene | Assets/Scripts/SceneController.cs:28-63 | `Loaded`: current scene = scene, unconditionally; game state = `StateAfterLoad`, pushed unless Pause; the scene's track is started, other scenes leave the music alone; progress is tracked or reported |
| Scenes.SceneController.LoadMainMenu | Assets/Scripts/SceneController.cs:19-23 | Menu loaded, track 0, ending in PREGAME, pushed twice; the load is reported for a null handle, tracked for an unfinished one, and neither for a finished one |
| Scenes.SceneController.UnloadScene | Assets/Scripts/SceneController.cs:68-73 | current scene = the engine's active scene; progress tracked or reported as an unload |
| Saving.Registered | Assets/Scripts/SaveManager.cs:52-56 | the keys grow by exactly id; every existing entry keeps its scene; a new id gets the current scene |
| Saving.RegisteredIdempotent | Assets/Scripts/SaveManager.cs:54 | registering an id again changes nothing, whatever scene is current |
| Saving.RegisteredAllOnlyGrows | Assets/Scripts/SaveManager.cs:52-56 | after any run of registrations the keys are the old ones plus the ids registered, and old entries are unchanged |
| Saving.RegisteredAllKeepsFirst | Assets/Scripts/SaveManager.cs:54-55 | an id keeps the scene it was first registered in through any later registrations |
| Saving.CheckpointMap.constructor | Assets/Scripts/SaveManager.cs:17 | a dictionary with the given entries |
| Saving.CheckpointMap.Register | Assets/Scripts/SaveManager.cs:54-55 | the entries become `Registered(old, id, scene)` |
| Saving.PlayerData.constructor | Assets/Scripts/SaveManager.cs:191-204 | a fresh snapshot: no level, zero position, time and damage, its own empty map, checkpoint 0 |
| Saving.PlayerData.FromRecord | Assets/Scripts/SaveManager.cs:171 | a deserialized snapshot: a new object with its own map, equal to what was saved |
| Saving.SaveManager.constructor | Assets/Scripts/SaveManager.cs:14-19 | no snapshot, no player, an empty map, nothing pending |
| Saving.SaveManager.LinkPlayer | Assets/Scripts/SaveManager.cs:15 | the public player reference is set |
| Saving.SaveManager.SavePlayerInfo | Assets/Scripts/SaveManager.cs:33-47 | "" keeps the saved level, any other level replaces it; position, time left, damage and last checkpoint always copied; the map shared by reference |
| Saving.SaveManager.SaveCheckpoint | Assets/Scripts/SaveManager.cs:52-56 | the map becomes `Registered(old, id, currentScene)`, seen through the snapshot too while shared |
| Saving.SaveManager.StartLoad | Assets/Scripts/SaveManager.cs:65-73 | the level's scene load has its whole effect (`Loaded`: scene, game state and its log, track, tracking or error) and the coroutine waits |
| Saving.SaveManager.ResumeLoad | Assets/Scripts/SaveManager.cs:70-91 | nothing happens until the active scene is the level and a player exists; then the snapshot's map is taken back; id -1 records restoring the last checkpoint and health; any other id records setting that checkpoint and the respawn; the reactivation of all registered ids comes last |
| Saving.SaveManager.LoadRespawn | Assets/Scripts/SaveManager.cs:97-118 | -1: a fresh snapshot, the first level is `Loaded`, and its load waits at the starting checkpoint, returning true; an id: true and its recorded scene `Loaded` exactly when that scene is not the current one, otherwise false, nothing pending and the scene controller and game state entirely unchanged |
| Saving.SaveManager.LoadLevel | Assets/Scripts/SaveManager.cs:123-128 | the position is stored in the snapshot before the level is `Loaded` and its load (restoring the saved checkpoint) waits |
| Saving.SaveManager.LoadGame | Assets/Scripts/SaveManager.cs:133-136 | the saved level is `Loaded` again and the saved snapshot, position included, is unchanged |
| Saving.SaveManager.SaveGameToDisk | Assets/Scripts/SaveManager.cs:146-156 | only when RUNNING is the snapshot refreshed from the player: level = current scene, position, time left, damage, respawn point and the shared checkpoint map; otherwise it is unchanged; the file holds the snapshot |
| Saving.SaveManager.LoadGameFromDisk | Assets/Scripts/SaveManager.cs:162-181 | no file: the snapshot is untouched; an unreadable file: a fresh snapshot, no error escapes; a readable one: a new snapshot equal to the saved record |
| Saving.SaveManager.Start | Assets/Scripts/SaveManager.cs:22-26 | the save file is read (no file: snapshot kept; unreadable: a fresh empty snapshot; readable: a fresh snapshot equal to the saved one), then the menu is loaded: PREGAME pushed twice, the menu track, the load reported for a null handle, tracked for an unfinished one, and neither for a finished one |
| Saving.SaveManager.OnApplicationQuit | Assets/Scripts/SaveManager.cs:185-188 | quitting writes the snapshot; outside RUNNING it is written as it was |
| Saving.SaveThenLoad | Assets/Scripts/SaveManager.cs:146-181 | writing the snapshot and reading the file back gives a new snapshot equal to the written one |
| Gas.Tick | Assets/Scripts/Enemy/ToxicGas.cs:25-46 | the size never exceeds the maximum; below it the cloud grows by dt·growSpeed (clamped) with the timer stopped; at it only the timer runs |
| Gas.TickSettled | Assets/Scripts/Enemy/ToxicGas.cs:27-43 | a tick keeps the cloud within its maximum with the timer idle until the maximum is reached |
| Gas.RunSettled | Assets/Scripts/Enemy/ToxicGas.cs:20-46 | over any run from a fresh cloud the size stays within the maximum and the timer has not moved before the maximum |
| Gas.RunStaysFull | Assets/Scripts/Enemy/ToxicGas.cs:31-43 | a cloud at its maximum stays at its maximum |
| Gas.ToxicGas.constructor | Assets/Scripts/Enemy/ToxicGas.cs:11-16 | size and timer start at 0 |
| Gas.ToxicGas.Awake | Assets/Scripts/Enemy/ToxicGas.cs:20-23 | the cloud starts at scale 0 |
| Gas.ToxicGas.Update | Assets/Scripts/Enemy/ToxicGas.cs:25-46 | size and timer follow `Tick`; the scale equals the size; destruction is requested exactly when the timer reaches the duration at full size |
| Gas.ToxicGas.OnDestroy | Assets/Scripts/Enemy/ToxicGas.cs:48-51 | destruction raises OnDestroyEvent once |
| Gas.ToxicGas.OnTriggerEnter2D | Assets/Scripts/Enemy/ToxicGas.cs:53-59 | the player's decay speed becomes base × decayAccel; other tags change nothing |
| Gas.ToxicGas.OnTriggerExit2D | Assets/Scripts/Enemy/ToxicGas.cs:61-67 | the player's decay speed returns to the base speed; other tags change nothing |
| Hazards.DamagingObject.constructor | Assets/Scripts/Environment/DamagingObject.cs:10-12 | the inspector fields as given |
| Hazards.DamagingObject.OnContact | Assets/Scripts/Environment/DamagingObject.cs:24-39 | a player contact takes `damage` once with every effect of TakeDamage (damage, bar, break death or nothing); other contacts leave the health manager, its animator and bar untouched; only damage, body type, animator and bar can change; with destroyOnHit the hazard is destroyed on any contact; knockback has no effect |
| Hazards.DamagingObject.OnTriggerEnter2D | Assets/Scripts/Environment/DamagingObject.cs:14-17 | the whole contact rule of OnContact, TakeDamage's effects and frame included |
| Hazards.DamagingObject.OnCollisionEnter2D | Assets/Scripts/Environment/DamagingObject.cs:19-22 | the whole contact rule of OnContact, TakeDamage's effects and frame included |
| Breakables.Broken | Assets/Scripts/Environment/BreakableObject.cs:21-35 | hitbox off, object inactive, the "" flag set, every other flag kept |
| Breakables.BreakIdempotent | Assets/Scripts/Environment/BreakableObject.cs:21-35 | breaking a broken object leaves the same state |
| Breakables.BreakableObject.constructor | Assets/Scripts/Environment/BreakableObject.cs:10-11 | hitbox, animator and object as given |
| Breakables.BreakableObject.Break | Assets/Scripts/Environment/BreakableObject.cs:21-26 | the state becomes `Broken(old)`; the object is deactivated, not destroyed; no trigger fires |
| Breakables.BreakableObject.BreakFinish | Assets/Scripts/Environment/BreakableObject.cs:31-35 | the object is deactivated and not destroyed |
| Burst.BurstAttack.constructor | Assets/Scripts/Player/BurstAttack.cs:10-11 | hitbox and animator as given |
| Burst.BurstAttack.Awake | Assets/Scripts/Player/BurstAttack.cs:16-22 | the hitbox starts disabled |
| Burst.BurstAttack.Activate | Assets/Scripts/Player/BurstAttack.cs:27-31 | the Active flag is set, so the attack is in progress |
| Burst.BurstAttack.EnableHitBox | Assets/Scripts/Player/BurstAttack.cs:36-39 | only the hitbox is enabled |
| Burst.BurstAttack.Deactivate | Assets/Scripts/Player/BurstAttack.cs:44-48 | Active cleared (not in progress) and hitbox disabled |
| Burst.BurstAttack.OnTriggerEnter2D | Assets/Scripts/Player/BurstAttack.cs:50-57 | a touched breakable object is broken, deactivated but not destroyed, kept in place, with no trigger fired; other contacts do nothing |
| Moth.Flipped | Assets/Scripts/Enemy/MothAI.cs:126-134 | scale x, move direction x and facing sign negate together; vertical direction kept |
| Moth.FlippedTwice | Assets/Scripts/Enemy/MothAI.cs:126-134 | two flips restore the original orientation |
| Moth.FirstIndex | Assets/Scripts/Enemy/MothAI.cs:95 | the position of the first cloud equal to g: it holds g and no earlier position does |
| Moth.Without | Assets/Scripts/Enemy/MothAI.cs:95 | removing a listed cloud unlinks its first occurrence and keeps the order of the rest; the list is one shorter and loses exactly one occurrence (as multisets); an unlisted cloud changes nothing |
| Moth.FirstIndexUnique | Assets/Scripts/Enemy/MothAI.cs:95 | a position holding g with no g before it is the first occurrence |
| Moth.WithoutAtHead | Assets/Scripts/Enemy/MothAI.cs:95 | when the head holds g, the head is the node removed |
| Moth.WithoutPastHead | Assets/Scripts/Enemy/MothAI.cs:95 | when the head does not hold g and g is listed, the head stays and the removal happens in the tail |
| Moth.WithoutScan | Assets/Scripts/Enemy/MothAI.cs:95 | Without agrees with the linked list's scan from the head: a matching head is unlinked, otherwise the head stays and the scan continues |
| Moth.SpawnAtCapKeepsCount | Assets/Scripts/Enemy/MothAI.cs:86-96 | at the cap, once the destroyed oldest cloud leaves, the list is the rest plus the new cloud, of the same length |
| Moth.MothAI.constructor | Assets/Scripts/Enemy/MothAI.cs:11-21 | inspector fields as given; no clouds, gas not in use |
| Moth.MothAI.Awake | Assets/Scripts/Enemy/MothAI.cs:26-34 | the facing sign is the sign of the scale, ±1 for a non-zero scale |
| Moth.MothAI.Update | Assets/Scripts/Enemy/MothAI.cs:36-55 | hostile: velocity zero, and a release starts only when none is running and no cloud is left; otherwise velocity = moveSpeed·moveDirection |
| Moth.MothAI.FlipX | Assets/Scripts/Enemy/MothAI.cs:126-134 | the orientation becomes `Flipped(old)` |
| Moth.MothAI.FacePlayer | Assets/Scripts/Enemy/MothAI.cs:62-68 | flips exactly when the comparison of player x with moth x differs from the facing sign; a moth facing ±1 then faces the player |
| Moth.MothAI.StartRelease | Assets/Scripts/Enemy/MothAI.cs:73-75 | the gas is marked in use and the release waits |
| Moth.MothAI.ResumeRelease | Assets/Scripts/Enemy/MothAI.cs:78-99 | waits while passive; only when hostile is a cloud released: at the cap the oldest is destroyed first, the new one is appended last and the gas freed; otherwise (or when the lookup throws) the gas stays in use; the oldest cloud keeps its position and active flag and is destroyed only by the hostile release at the cap |
| Moth.MothAI.OnGasDestroyed | Assets/Scripts/Enemy/MothAI.cs:95 | the destroyed cloud leaves the list (`Without`) |
| Moth.MothAI.OnTriggerEnter2D | Assets/Scripts/Enemy/MothAI.cs:138-152 | the player sets Player In Range and starts a release; a bound always negates vertical direction and flips only when moving horizontally |
| Moth.MothAI.OnTriggerStay2D | Assets/Scripts/Enemy/MothAI.cs:154-160 | the player keeps the moth facing it; other tags change nothing |
| Moth.MothAI.OnTriggerExit2D | Assets/Scripts/Enemy/MothAI.cs:162-168 | the player clears Player In Range |
| Movers.Tick | Assets/Scripts/Environment/MovingObject.cs:34-49 | the timer drops by dt; at or below 0 it restarts at cycleTime and a line cycle reverses; an infinite mover never turns |
| Movers.RunDirection | Assets/Scripts/Environment/MovingObject.cs:39-44 | after any run a line cycle points its original way exactly after an even number of expiries; an infinite one never changes |
| Movers.RunTimerBounded | Assets/Scripts/Environment/MovingObject.cs:31-47 | with positive frame times the timer stays within (0, cycleTime] |
| Movers.MovingObject.constructor | Assets/Scripts/Environment/MovingObject.cs:12-24 | inspector fields as given |
| Movers.MovingObject.Awake | Assets/Scripts/Environment/MovingObject.cs:26-32 | velocity set from the direction, timer at cycleTime |
| Movers.MovingObject.Update | Assets/Scripts/Environment/MovingObject.cs:34-49 | direction and timer follow `Tick`; velocity reassigned only on expiry, so it keeps following the direction |
| Movers.MovingObject.SetVelocity | Assets/Scripts/Environment/MovingObject.cs:51-54 | the velocity follows the current direction |
| PlayerControl.InputDirection | Assets/Scripts/Player/PlayerController.cs:146-155 | -1 exactly with left input, 1 exactly with right and no left input, else 0 |
| PlayerControl.AdjustAngle | Assets/Scripts/Player/PlayerController.cs:131-138 | either a or 360 - a; for a in [0, 360) the result is in [0, 270) |
| PlayerControl.GroundSlope | Assets/Scripts/Player/PlayerController.cs:95-138 | a collider counts as ground exactly when tilted by less than 90 degrees either way |
| PlayerControl.WallSlope | Assets/Scripts/Player/PlayerController.cs:111-138 | a collider counts as wall exactly when it is not level |
| PlayerControl.PlayerController.constructor | Assets/Scripts/Player/PlayerController.cs:17-46 | inspector fields as given; not grounded, no boost yet |
| PlayerControl.PlayerController.Awake | Assets/Scripts/Player/PlayerController.cs:48-56 | direction = the truncated right-vector x, non-zero only for an exactly horizontal right vector |
| PlayerControl.PlayerController.FixedUpdate | Assets/Scripts/Player/PlayerController.cs:79-88 | contacts from the detectors; the midair boost refreshes on ground and is otherwise kept; fast fall while moving down |
| PlayerControl.PlayerController.CheckPlayerOnWall | Assets/Scripts/Player/PlayerController.cs:111-126 | true exactly when some wall check hit a collider that is not level |
| PlayerControl.PlayerController.FlipX | Assets/Scripts/Player/PlayerController.cs:217-223 | direction and scale x negate |
| PlayerControl.Moved | Assets/Scripts/Player/PlayerController.cs:144-173 | pushing the facing way against a wall in the air zeroes vx and keeps everything else; otherwise opposite input flips direction and scale, vx = dir·moveSpeed, and stopping on ground outside an attack zeroes vy; a ±1 direction stays ±1 and turns to a ±1 input |
| PlayerControl.StopsOnGround | Assets/Scripts/Player/PlayerController.cs:162-171 | no input on the ground outside an attack brings the player to rest (velocity 0) |
| PlayerControl.Jumped | Assets/Scripts/Player/PlayerController.cs:175-188 | vx kept; Space on ground sets vy = jumpHeight; releasing Space leaves vy at most 0, cutting a rise to exactly 0 |
| PlayerControl.PlayerController.Move | Assets/Scripts/Player/PlayerController.cs:144-173 | velocity, direction and scale become `Moved` of the old ones with the frame's input, contacts and attack flag |
| PlayerControl.PlayerController.Jump | Assets/Scripts/Player/PlayerController.cs:175-188 | the velocity becomes `Jumped` of the old velocity |
| PlayerControl.PlayerController.Attack | Assets/Scripts/Player/PlayerController.cs:190-212 | a boost exactly when S went down and (canUseMidair or not one-time): it spends attackCost, starts the attack, clears canUseMidair, stops the player and pushes up or along the old velocity; the Active flag is set on a boost and the attack animator is otherwise untouched; no trigger fires |
| PlayerControl.PlayerController.MoveJumpAttack | Assets/Scripts/Player/PlayerController.cs:67-72 | outside an attack (`MovedJumpedBoosted`): direction and scale are `Moved`'s, the velocity is 0 on a boost (fuel spent, Active set, midair boost cleared, force pushed along the jumped velocity or up) and otherwise `Jumped` of the moved velocity (fuel, forces, midair boost and attack animator unchanged); no trigger fires |
| PlayerControl.PlayerController.Update | Assets/Scripts/Player/PlayerController.cs:58-77 | Escape toggles pause; outside an attack direction and scale are `Moved`'s and the velocity is 0 on a boost (fuel spent, force pushed) and otherwise `Jumped` of the moved velocity (no fuel spent, no force); during an attack no fuel is spent, no boost happens, and the pose is `Moved`'s only when movement is allowed; the attack animator fires no trigger, its Active flag is set only by a boost |
| BasicPlayerControl.InputDirection | Assets/Scripts/PlayerController.cs:60-69 | -1 exactly with left input, 1 exactly with right and no left input, else 0 |
| BasicPlayerControl.JumpCut | Assets/Scripts/PlayerController.cs:91-96 | the vertical speed is capped at the cap and never raised |
| BasicPlayerControl.JumpCutIdempotent | Assets/Scripts/PlayerController.cs:91-96 | cutting twice is cutting once |
| BasicPlayerControl.PlayerController.constructor | Assets/Scripts/PlayerController.cs:12-30 | inspector fields as given |
| BasicPlayerControl.PlayerController.Awake | Assets/Scripts/PlayerController.cs:33-40 | direction = the truncated right-vector x |
| BasicPlayerControl.Moved | Assets/Scripts/PlayerController.cs:58-81 | facing the wall zeroes vx on ground or not and keeps the facing; otherwise opposite input flips direction and scale and vx = dir·moveSpeed; vy kept; a ±1 direction stays ±1 |
| BasicPlayerControl.Jumped | Assets/Scripts/PlayerController.cs:83-97 | vx kept; Space held on ground sets vy = jumpHeight; release leaves vy at most jumpHeight / jumpReduction and never raises it |
| BasicPlayerControl.PlayerController.Update | Assets/Scripts/PlayerController.cs:42-46 | moves then jumps: direction and scale are `Moved`'s, the velocity is `Jumped` of the moved velocity; vx follows the input unless pushing the facing way against a wall, vy is the jump speed or the old vy, cut on release |
| BasicPlayerControl.PlayerController.FixedUpdate | Assets/Scripts/PlayerController.cs:48-56 | contacts as detected; fast fall while moving down |
| BasicPlayerControl.PlayerController.Move | Assets/Scripts/PlayerController.cs:58-81 | velocity, direction and scale become `Moved` of the old ones with the frame's input and wall contact |
| BasicPlayerControl.PlayerController.Jump | Assets/Scripts/PlayerController.cs:83-97 | the velocity becomes `Jumped` of the old velocity |
| BasicPlayerControl.PlayerController.FlipX | Assets/Scripts/PlayerController.cs:100-106 | direction and scale x negate |
| BasicPlayerControl.IdleUnfacedFlips | Assets/Scripts/PlayerController.cs:58-81 | with direction 0 (a right vector that is not exactly horizontal) each idle frame off a wall flips the scale and the direction stays 0 |

## Left out

- Rendering, audio and UI are not modelled: `PlayPlayTrack` playback itself, `PlayEffect`, segment layout in `SetDefaults`, `AdjustScale` of the moth, and the progress percentage log. Track choices are recorded as a list.
- Physics is not modelled: `AddForce` is recorded as a force and not applied, vector normalization is the engine's (the moving object records the direction its velocity was set from), and the overlap queries arrive as inputs.
- Disk I/O and BinaryFormatter are not modelled: a save file is `NoFile`, `Unreadable` or `Saved(record)`, and a write yields the record.
- Saving.SaveManager.SaveGameToDisk: requires a snapshot to exist; quitting before any snapshot (serializing null) is not modelled because the formatter's behaviour on null is outside the source.
- Saving.SaveManager.OnApplicationQuit: the same requirement that a snapshot exists, inherited from SaveGameToDisk.
- Saving.SaveThenLoad: the same requirement that a snapshot exists, inherited from SaveGameToDisk.
- Saving.SaveManager.SavePlayerInfo: the player's `respawnPoint` is an input, because the repository's HealthManager has no such member.
- Saving.SaveManager.ResumeLoad: `SetCheckpoint`, `SetHealthBar` and `Checkpoint.ReactivateAll` are recorded as calls, because their code is not in the repository. `Respawn` is recorded too rather than run: the model does not say what moving the player, clearing the melt flag, firing onRespawn or throwing on an empty list does here, because the checkpoint it respawns at is the one the undefined `SetCheckpoint` selects.
- Saving.SaveManager.LoadRespawn: requires the id to be registered (the source's dictionary lookup throws otherwise).
- GameStateManager is not part of this model beyond its current state and `UpdateState`; `TogglePause` is recorded as a count in the advanced controller.
- Scenes.GameState: the manager's enum is not in the repository. PREGAME and RUNNING are the states it is used with; PAUSED is an assumption drawn from `TogglePause` and nothing modelled produces it.
- Coroutine scheduling is not modelled: the first synchronous step of each coroutine is the resume step run right after the start.
- Singletons (`Instance`, `DontDestroyOnLoad`) are not modelled: the collaborators are fields.
- BasicPlayerControl.PlayerController.Jump: requires `jumpReduction != 0`; the IEEE infinity a float division by zero gives is not modelled.
- BasicPlayerControl.Jumped: the same `jumpReduction != 0` requirement, for the same reason.
- BasicPlayerControl.PlayerController.Update: the same `jumpReduction != 0` requirement, inherited from Jump.
- Floating-point rounding is not modelled: floats are exact reals.
- 32-bit wrap-around of `dmgTaken` is not modelled; damage is an unbounded integer.
- Null references that the source would dereference (a player-tagged collider without a HealthManager, a missing snapshot when loading a level) are preconditions rather than modelled exceptions.
- Checkpoint activation by `ReactivateAll` is not modelled (its code is not in the repository), so "a non-preset checkpoint never becomes active" holds for the handlers modelled here.
- Terrain, ObjectGenerator, LevelConnector, PlayerAnimation, PlayerLife, AudioController, the menu scripts and the dialogue UI are not part of this model.
