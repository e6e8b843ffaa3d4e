# pydew-valley core in Dafny

This project models the core of pydew-valley, a farming game written in Python
with pygame, and proves properties of that model.

- **NPC movement and decisions** (`AIBehaviour`). An entity is either IDLE,
  counting down a duration, or MOVING along a path of tile centres. The
  behaviour calls five lists of callbacks at the start, abortion, completion
  and end of a movement and at the end of a scripted route. It plays scripted
  routes (waypoints alternating between walk legs and wait legs). It asks a
  pathfinder for paths. Each frame it walks along the path as far as its speed
  allows.
  `ai_model.dfy` gives one pure function per source method, from the old
  state to the new one. `ai_behaviour.dfy` is the class that updates its
  fields in place, with each method proved equal to its function.
  `ai_properties.dfy` holds the lemmas about the functions.
- **Sprite containers** (`groups.dfy`). `RenderLayer` is a list of sprites plus
  a persistent subset that `empty` keeps. `AllSprites` routes every sprite to
  the layer its `z` names. `PersistentSpriteGroup` is a pygame group that puts
  its persistent sprites back when it is emptied.
- **Plants and trees** (`objects.dfy`). A plant ages on watered soil up to its
  last animation frame. A tree loses health and apples when hit, pays out
  wood once and becomes a stump.
- **The player** (`player.dfy`). The inventory has per-resource defaults. The
  save file holds a compacted inventory. The keyboard handler toggles pause,
  opens a dialogue, steers, cycles tools and seeds, and uses tools.
- **The key-binding panel** (`descriptions.dfy`). It maps key codes to a
  symbol and to an image, lays out the rows, selects a row with the mouse and
  rebinds it.

Randomness, the pathfinder, the grid, the vector length, the dialogue manager,
the watering test and the behaviour trees are parameters. A call to a callback
or to a behaviour tree is recorded as an event in a `trace`. What a method
asks of the outside world (rewards, sounds, dialogue requests) is returned as
a list.

Behaviour of the code a reader may not expect:
- `exit_idle` runs the conditional behaviour tree even after a running script
  has taken its step (`ExitIdleRunsTreeDuringScript`).
- `create_path_to_tile` switches the entity to MOVING with no idle time left
  before it can still fail. This happens when the entity stands outside the
  grid and when the search returns nothing to walk (`CreatePathEmptyResult`,
  `CreatePathInvalidLocation`).
- `abort_path` does not clear `pf_path`.
- `stop_moving` steps a running script (ai_behaviour.py:113-114). So while a
  script runs, an abort, a completion or a collision does not leave the
  entity idle for 1 + r or 2 + 3r seconds. On a wait leg it idles for the
  waypoint's waiting duration (ai_behaviour.py:149-153,
  `AbortPathDuringWaitLeg`, `UpdateMovingCollisionDuringWaitLeg`). On a walk
  leg a new path starts and the entity ends MOVING (ai_behaviour.py:155-158,
  `ProgressScriptWalkLeg`).
- A frame reaches the end of the path only when it may walk strictly more
  than the distance left (`WalkArrivesIffEnoughDistance`). With exactly
  that distance, the loop reaches the last waypoint with
  `remaining_distance == 0` and stops before popping it
  (ai_behaviour.py:264-269). The path completes in the next frame.
- `Player.__init__` sets `tool_index` to the tool's value minus 1. Tool
  cycling adds back the first tool's id. The two agree only when the first
  tool's value is 1, and the enumeration is not part of this model.

## Model

| member | source | states |
|---|---|---|
| AIBehaviourModel.Spawned | src/npc/bases/ai_behaviour.py:24-28 | a new entity is IDLE for a duration in [1, 4), with no path, no script, no callbacks and no trees |
| AIBehaviour.AIBehaviour.constructor | src/npc/bases/ai_behaviour.py:17-43 | the new object's state is `Spawned` |
| AIBehaviour.AIBehaviour.SetConditionalBehaviourTree | src/npc/bases/ai_behaviour.py:49-51 | only the presence of the conditional tree changes |
| AIBehaviour.AIBehaviour.SetContinuousBehaviourTree | src/npc/bases/ai_behaviour.py:57-59 | only the presence of the continuous tree changes |
| AIBehaviour.AIBehaviour.OnStartMovingAlways | src/npc/bases/ai_behaviour.py:61-63 | the callback is appended to the start-moving list and nothing else changes |
| AIBehaviourModel.Firings | src/npc/bases/ai_behaviour.py:66-67 | calling a list of callbacks gives one event per callback, in list order |
| AIBehaviour.AIBehaviour.Fire | src/npc/bases/ai_behaviour.py:80-81 | the loop extends the trace by exactly `Firings` of the list |
| AIBehaviour.AIBehaviour.StartMoving | src/npc/bases/ai_behaviour.py:65-69 | fires the start-moving callbacks, as `StartMoving` |
| AIBehaviour.AIBehaviour.OnPathAbortion | src/npc/bases/ai_behaviour.py:71-73 | the callback is appended to the abortion list and nothing else changes |
| AIBehaviourModel.AbortPath | src/npc/bases/ai_behaviour.py:75-84 | the abortion callbacks fire before anything `stop_moving` adds; afterwards the abortion, completion and stop-moving lists are empty; waypoints, start-moving and finish lists, trees and position are kept |
| AIBehaviourProperties.AbortPathWithoutScript | src/npc/bases/ai_behaviour.py:75-84 | with no running script: IDLE, direction (0, 0), duration 1 + r in [1, 2), abortion then stop-moving callbacks, the three per-episode lists cleared, path unchanged |
| AIBehaviour.AIBehaviour.AbortPath | src/npc/bases/ai_behaviour.py:75-84 | the in-place update equals `AbortPath` of the old state |
| AIBehaviour.AIBehaviour.OnPathCompletion | src/npc/bases/ai_behaviour.py:86-88 | the callback is appended to the completion list and nothing else changes |
| AIBehaviourModel.CompletePath | src/npc/bases/ai_behaviour.py:90-99 | the completion callbacks fire before anything `stop_moving` adds; the three per-episode lists end empty; everything `Keeps` names is kept |
| AIBehaviourProperties.CompletePathWithoutScript | src/npc/bases/ai_behaviour.py:90-99 | with no running script: IDLE, direction (0, 0), duration 2 + 3r in [2, 5), completion then stop-moving callbacks |
| AIBehaviour.AIBehaviour.CompletePath | src/npc/bases/ai_behaviour.py:90-99 | the in-place update equals `CompletePath` of the old state |
| AIBehaviourModel.ExitIdle | src/npc/bases/ai_behaviour.py:101-106 | keeps the waypoints, the non-episode callback lists, the trees and the position, and only extends the trace |
| AIBehaviourProperties.ExitIdleRunsTreeDuringScript | src/npc/bases/ai_behaviour.py:101-106 | with a running script and a conditional tree, the tree runs right after the script step |
| AIBehaviour.AIBehaviour.ExitIdle | src/npc/bases/ai_behaviour.py:101-106 | the in-place update equals `ExitIdle` of the old state |
| AIBehaviour.AIBehaviour.OnStopMoving | src/npc/bases/ai_behaviour.py:108-110 | the callback is appended to the stop-moving list and nothing else changes |
| AIBehaviourModel.StopMoving | src/npc/bases/ai_behaviour.py:112-122 | the abortion, completion and stop-moving lists end empty; the start-moving and script-finish lists are unchanged |
| AIBehaviourProperties.StopMovingDoesNotLeak | src/npc/bases/ai_behaviour.py:112-122 | with no running script, after a stop a later abort calls no callback at all: the trace is unchanged |
| AIBehaviourProperties.QuietAbortPath | src/npc/bases/ai_behaviour.py:75-84 | with the per-episode lists empty, an abort calls no abortion, completion or stop-moving callback, whatever the script does |
| AIBehaviourProperties.QuietStopMoving | src/npc/bases/ai_behaviour.py:112-122 | with the per-episode lists empty, a stop calls no per-episode callback, whatever the script does |
| AIBehaviourProperties.QuietProgressScript | src/npc/bases/ai_behaviour.py:142-158 | with the per-episode lists empty, a script step calls no per-episode callback and leaves the lists empty |
| AIBehaviourProperties.AbortAfterStopIsQuiet | src/npc/bases/ai_behaviour.py:112-122 | whether or not a script runs, after a stop a later abort calls none of the per-episode callbacks registered before it (the script may still finish and call its finish callbacks) |
| AIBehaviour.AIBehaviour.StopMoving | src/npc/bases/ai_behaviour.py:112-122 | the in-place update equals `StopMoving` of the old state |
| AIBehaviour.AIBehaviour.OnScriptFinish | src/npc/bases/ai_behaviour.py:124-126 | the callback is appended to the script-finish list and nothing else changes |
| AIBehaviourModel.FinishScript | src/npc/bases/ai_behaviour.py:128-134 | the script stops running, the speed saved when it started is restored, and the finish callbacks fire in order |
| AIBehaviour.AIBehaviour.FinishScript | src/npc/bases/ai_behaviour.py:128-134 | the in-place update equals `FinishScript` of the old state |
| AIBehaviour.AIBehaviour.RunScript | src/npc/bases/ai_behaviour.py:136-140 | stores the script with the current speed saved and `running` set, then takes one step, as `RunScript` |
| AIBehaviourProperties.RunExhaustedScript | src/npc/bases/ai_behaviour.py:136-147 | a script with no waypoint left finishes at once: speed unchanged, not running, finish callbacks fired |
| AIBehaviourModel.ProgressScript | src/npc/bases/ai_behaviour.py:142-158 | keeps the waypoints, the non-episode lists, trees and position, never moves the cursor back, only extends the trace |
| AIBehaviourProperties.ProgressScriptFinishes | src/npc/bases/ai_behaviour.py:143-147 | an index past the end finishes the script (not running, previous speed, finish callbacks) and leaves state and path alone |
| AIBehaviourProperties.ProgressScriptWaitLeg | src/npc/bases/ai_behaviour.py:149-153 | a wait leg ends IDLE for the waypoint's waiting time with the next state MOVING and the cursor unchanged, even after aborting a running path |
| AIBehaviourProperties.ProgressScriptWalkLeg | src/npc/bases/ai_behaviour.py:154-158 | a walk leg requests a path to the waypoint, takes its speed, sets the next state to IDLE and moves the cursor by one |
| AIBehaviourProperties.ProgressScriptIndexStep | src/npc/bases/ai_behaviour.py:142-158 | the cursor moves by one exactly on a walk leg within range, and otherwise stays |
| AIBehaviour.AIBehaviour.ProgressScript | src/npc/bases/ai_behaviour.py:142-158 | the in-place update equals `ProgressScript` of the old state |
| PythonNumbers.Trunc | src/npc/bases/ai_behaviour.py:190 | Python's `int` on a float truncates toward zero: bounds for both signs (also used by `grow` in src/sprites/objects.py) |
| AIBehaviourModel.Centers | src/npc/bases/ai_behaviour.py:206 | each node becomes its tile centre (x + 0.5, y + 0.5), same length, same order |
| AIBehaviourModel.StoredPath | src/npc/bases/ai_behaviour.py:206 | the stored path is every raw node but the first, as tile centres |
| AIBehaviourModel.CreatePathToTile | src/npc/bases/ai_behaviour.py:160-212 | never touches the callback lists or the speed, and a True result means MOVING with a non-empty path |
| AIBehaviourModel.StartTile | src/npc/bases/ai_behaviour.py:179-190 | on the map the start tile is the tile holding the hitbox centre; at negative coordinates `int` truncates toward zero |
| AIBehaviourProperties.CreatePathUnwalkable | src/npc/bases/ai_behaviour.py:175-176 | an unwalkable target returns False and changes nothing |
| AIBehaviourProperties.CreatePathSuccess | src/npc/bases/ai_behaviour.py:184-212 | with a raw path of two or more nodes: True, MOVING with duration 0, the path is nodes 1.. as centres, start-moving callbacks fired |
| AIBehaviourProperties.CreatePathEmptyResult | src/npc/bases/ai_behaviour.py:184-209 | a raw path of at most one node returns False without firing anything, yet the entity is already MOVING with duration 0 and an empty path |
| AIBehaviourProperties.CreatePathInvalidLocation | src/npc/bases/ai_behaviour.py:184-195 | standing off the grid returns False with a warning, keeps the path, yet the entity is already MOVING |
| AIBehaviour.AIBehaviour.CreatePathToTile | src/npc/bases/ai_behaviour.py:160-212 | the in-place update and the result equal `CreatePathToTile` |
| AIBehaviourModel.CreateStepToCoord | src/npc/bases/ai_behaviour.py:214-216 | appends the pixel coordinate divided by the tile size, and nothing else changes |
| AIBehaviour.AIBehaviour.CreateStepToCoord | src/npc/bases/ai_behaviour.py:214-216 | the in-place update equals `CreateStepToCoord`, and the result is True |
| AIBehaviour.AIBehaviour.Move | src/npc/bases/ai_behaviour.py:218-239 | an idle entity counts down and one that is moving, or has just started, walks in the same frame, as `Move` |
| AIBehaviourProperties.MoveIdleCountsDown | src/npc/bases/ai_behaviour.py:241-245 | an idle entity whose countdown stays positive only has its duration reduced by dt |
| AIBehaviourProperties.MoveExtendsTrace | src/npc/bases/ai_behaviour.py:218-239 | a frame of movement only appends to what has been called |
| AIBehaviour.AIBehaviour.UpdateIdle | src/npc/bases/ai_behaviour.py:241-245 | the in-place update equals `UpdateIdle` |
| AIBehaviourModel.TilesToWalk | src/npc/bases/ai_behaviour.py:264 | the distance a frame allows is never negative, and is zero when the speed or dt is zero |
| AIBehaviourModel.WalkArrive | src/npc/bases/ai_behaviour.py:267-274 | reaching the last waypoint ends the walk where the entity stands |
| AIBehaviourModel.WalkAdvance | src/npc/bases/ai_behaviour.py:280-289 | a step that reaches the next waypoint continues from it with the distance reduced |
| AIBehaviourModel.WalkHalt | src/npc/bases/ai_behaviour.py:290-304 | a step that falls short moves proportionally toward the waypoint and ends with the rounded heading |
| AIBehaviourModel.WalkLeavesSuffix | src/npc/bases/ai_behaviour.py:266-297 | a walk that halts leaves a non-empty suffix of the path it started with |
| AIBehaviourModel.Left | src/npc/bases/ai_behaviour.py:266-289 | the distance the loop still has to cover, leg by leg, skipping a first waypoint already reached, is never negative |
| AIBehaviourModel.WalkArrivesIffEnoughDistance | src/npc/bases/ai_behaviour.py:264-297 | the loop reaches the end of the path if and only if the frame's distance is strictly greater than the distance left |
| AIBehaviourModel.Facing | src/npc/bases/ai_behaviour.py:304 | each facing coordinate is a whole number within 0.5 of the unit vector's, so a vector of length at most 1 faces one of the eight directions or none |
| AIBehaviourModel.StepAlong | src/npc/bases/ai_behaviour.py:255-312 | the trace only grows and the start-moving and script-finish callbacks stay; when the frame's distance is at most the distance left, state, script and trace are unchanged and the path left is a non-empty suffix of the old one |
| PythonNumbers.PyRound | src/npc/bases/ai_behaviour.py:304 | Python's `round`: within 0.5, ties to the even integer |
| AIBehaviour.AIBehaviour.FollowPath | src/npc/bases/ai_behaviour.py:266-304 | the loop's outcome (arrival point, or remaining path, position and heading) is `Walk` of its inputs |
| AIBehaviour.AIBehaviour.UpdateMoving | src/npc/bases/ai_behaviour.py:247-317 | the in-place update equals `UpdateMoving`: complete on an empty path, otherwise step along and abort on collision |
| AIBehaviourProperties.UpdateMovingEmptyPath | src/npc/bases/ai_behaviour.py:248-253 | with no running script, an empty path completes at once: IDLE, direction (0, 0), duration in [2, 5), completion then stop-moving callbacks |
| AIBehaviourProperties.StepAlongWithoutScript | src/npc/bases/ai_behaviour.py:255-312 | without a running script, the walked path is a suffix of the old one and the script is untouched |
| AIBehaviourProperties.UpdateMovingCollisionAborts | src/npc/bases/ai_behaviour.py:314-317 | with no running script, a collision ends the frame IDLE, direction (0, 0), duration 1 + r, per-episode lists empty |
| AIBehaviourProperties.AbortPathDuringWaitLeg | src/npc/bases/ai_behaviour.py:75-84 | during a running script due to wait, an abort ends IDLE, direction (0, 0), for the waypoint's waiting duration, with the next state MOVING and the cursor unchanged |
| AIBehaviourProperties.UpdateMovingCollisionDuringWaitLeg | src/npc/bases/ai_behaviour.py:112-153 | a collision in a frame that does not reach the path's end, while a script is due to wait, ends IDLE for the waypoint's waiting duration with the next leg a walk |
| AIBehaviourProperties.UpdateMovingCompletesIffEnoughDistance | src/npc/bases/ai_behaviour.py:264-274 | with no running script and no collision, the path is emptied exactly when the frame's distance exceeds the distance left, and the entity then ends IDLE, direction (0, 0), for [2, 5) seconds; otherwise state and script are kept |
| AIBehaviourProperties.UpdateMovingNeverLengthens | src/npc/bases/ai_behaviour.py:247-317 | without a running script, a frame never adds waypoints: the path left is a suffix of the old one |
| AIBehaviour.AIBehaviour.Update | src/npc/bases/ai_behaviour.py:319-323 | the in-place update equals `Update` |
| AIBehaviourProperties.UpdateRunsContinuousTreeFirst | src/npc/bases/ai_behaviour.py:319-321 | the continuous tree runs before anything the frame's movement calls |
| Groups.Without | src/groups.py:87-90 | the result holds exactly the elements not dropped, is no longer, and stays duplicate-free |
| Groups.RemoveFirst | src/groups.py:90 | `list.remove` shortens the list by one |
| Groups.Added | src/groups.py:78-80 | after adding, the sprite is present, the set of sprites grows by it alone, there are no duplicates, and adding a present sprite changes nothing |
| Groups.RemoveFirstWithout | src/groups.py:87-90 | in a duplicate-free list, removing one present sprite equals filtering it out |
| Groups.WithoutIgnoresAbsent | src/groups.py:106-107 | filtering depends only on which present sprites are dropped, so absent persistent sprites in the symmetric difference do nothing |
| Groups.WithoutCovered | src/groups.py:109-110 | dropping a superset of the elements leaves nothing |
| Groups.WithoutAll | src/groups.py:109-110 | removing every sprite of the list leaves it empty |
| Groups.WithoutNothing | src/groups.py:87-90 | removing no sprite keeps the list |
| Groups.RenderLayer.constructor | src/groups.py:52-56 | a new layer has its layer number and two empty lists |
| Groups.RenderLayer.Truthy | src/groups.py:58-59 | a layer is truthy exactly when its length is positive |
| Groups.RenderLayer.Len | src/groups.py:68-69 | zero exactly when the layer is empty, and for a duplicate-free layer the number of distinct sprites held |
| Groups.RenderLayer.Contains | src/groups.py:61-63 | true exactly when some position of the list holds the sprite, and then the layer is not empty |
| Groups.NoDupCard | src/groups.py:68-69 | a duplicate-free list holds as many distinct sprites as it is long |
| Groups.RenderLayer.Add | src/groups.py:78-80 | the list becomes `Added` of the old list |
| Groups.RenderLayer.AddPersistent | src/groups.py:82-85 | both lists become `Added` of the old ones, once each |
| Groups.RenderLayer.Remove | src/groups.py:87-90 | the list becomes the old one without the given sprites; absent ones are ignored |
| Groups.RenderLayer.Empty | src/groups.py:106-107 | a sprite is left exactly when it was there and is persistent, in its old order |
| Groups.RenderLayer.EmptyPersistent | src/groups.py:109-110 | the list ends empty and the persistent list is kept |
| Groups.TotalLengthUpdate | src/groups.py:134-135 | replacing one layer changes the total by the difference of that layer's lengths |
| Groups.TotalLengthZero | src/groups.py:134-135 | the total is zero exactly when every layer is empty |
| Groups.TotalLengthBounds | src/groups.py:134-135 | no layer holds more sprites than the total |
| Groups.AddAllTouchesOnlyRouted | src/groups.py:145-147 | adding leaves alone every layer no added sprite names |
| Groups.RemoveAllTouchesOnlyRouted | src/groups.py:153-155 | removing leaves alone every layer no removed sprite names |
| Groups.AddAllNoDup | src/groups.py:145-147 | adding keeps every layer free of duplicates |
| Groups.AddNewSpriteGrowsLength | src/groups.py:145-147 | adding a sprite that no layer holds grows the total length by one |
| Groups.AddPresentSpriteChangesNothing | src/groups.py:145-147 | adding a sprite already in its layer changes nothing |
| Groups.AllSprites.constructor | src/groups.py:117-121 | one fresh empty layer per layer number, then the given sprites added by `z` |
| Groups.AllSprites.Truthy | src/groups.py:123-124 | true exactly when the total length is positive |
| Groups.AllSprites.Len | src/groups.py:134-135 | zero exactly when every layer is empty, and at least the length of every layer |
| Groups.AllSprites.Contains | src/groups.py:126-129 | true exactly when some layer holds the sprite |
| Groups.AllSprites.Add | src/groups.py:145-147 | the layers become `AddAll` of the old layers; persistent lists unchanged |
| Groups.AllSprites.AddOne | src/groups.py:146-147 | one sprite changes only the layer its `z` names, which becomes `Added` of itself |
| Groups.AllSprites.AddPersistent | src/groups.py:149-151 | both the sprite lists and the persistent lists become `AddAll` of the old ones |
| Groups.AllSprites.AddPersistentOne | src/groups.py:150-151 | one persistent sprite changes only the layer its `z` names, in both of its lists |
| Groups.AllSprites.Remove | src/groups.py:153-155 | the layers become `RemoveAll` of the old layers; persistent lists unchanged |
| Groups.AllSprites.RemoveOne | src/groups.py:154-155 | one sprite is removed from the layer its `z` names and no other layer changes |
| Groups.AllSprites.Empty | src/groups.py:169-171 | every layer keeps exactly its persistent sprites that were present |
| Groups.AllSprites.EmptyOne | src/groups.py:170-171 | one layer keeps its persistent sprites and no other layer changes |
| Groups.AllSprites.EmptyPersistent | src/groups.py:173-175 | every layer ends empty, the total length is 0, persistent lists kept |
| Groups.AllSprites.EmptyPersistentOne | src/groups.py:174-175 | one layer ends empty and no other layer changes |
| Groups.PersistentSpriteGroup.constructor | src/groups.py:13-21 | the group holds the given sprites and no persistent ones |
| Groups.PersistentSpriteGroup.Add | src/groups.py:28 | the inherited `Group.add`: the sprites join the group |
| Groups.PersistentSpriteGroup.AddPersistent | src/groups.py:23-29 | the sprites join the group and are appended to the persistent list |
| Groups.PersistentSpriteGroup.Empty | src/groups.py:31-33 | the group ends holding exactly the persistent sprites |
| Groups.PersistentSpriteGroup.EmptyPersistent | src/groups.py:35-39 | the group ends empty |
| Objects.NewPlantSatisfiesInvariant | src/sprites/objects.py:24-27 | a new plant (age 0, not harvestable, frame 0) satisfies the growth invariant: age within [0, max age], harvestable only at max age, frame the whole part of the age |
| Objects.Plant.constructor | src/sprites/objects.py:12-27 | max age is len(frames) - 1 and the state is `NewPlant` on the plant layer |
| Objects.GrowDryChangesNothing | src/sprites/objects.py:29-30 | on dry soil, growing changes nothing |
| Objects.GrowWateredAge | src/sprites/objects.py:31-39 | watered: age becomes min(age + speed, max age), and the plant is harvestable iff it was or the sum reached max age |
| Objects.GrowKeepsInvariant | src/sprites/objects.py:29-41 | with speed >= 0 the age stays in [0, max age], harvestable implies max age, and the frame index stays in [0, len(frames) - 1] |
| Objects.GrowNeverDemotes | src/sprites/objects.py:33-35 | a plant on the main layer with a hitbox stays there |
| Objects.Plant.Grow | src/sprites/objects.py:29-43 | the in-place update equals `Grown` and keeps the invariant |
| Objects.FruitCount | src/sprites/objects.py:77-83 | at most one apple per position; all draws below 6 grow every apple, none below 6 grows none |
| Objects.Tree.CreateFruit | src/sprites/objects.py:77-83 | the loop adds exactly `FruitCount` apples |
| Objects.Tree.constructor | src/sprites/objects.py:46-64 | five health, not hit, alive, showing its surface, with the apples `create_fruit` grew |
| Objects.HitCostsOneHealth | src/sprites/objects.py:88-92 | a hit while the last one shows changes nothing; otherwise exactly one health less and `was_hit` set |
| Objects.HitTakesOneApple | src/sprites/objects.py:93-97 | a hit removes at most one apple and pays one apple exactly when one was left |
| Objects.HitWoodOnlyWhenFelled | src/sprites/objects.py:98-99 | five wood are paid iff the hit counts, takes the health below zero, and the tree is alive |
| Objects.Tree.Hit | src/sprites/objects.py:88-101 | the in-place update and the rewards paid equal `AfterHit` |
| Objects.Tree.Unhit | src/sprites/objects.py:66-75 | the in-place update equals `AfterUnhit`: below zero health it becomes a stump and dies |
| Objects.SpentPaysNothing | src/sprites/objects.py:66-99 | a dead tree, or a felled one waiting for its unhit, pays no more wood whatever happens next |
| Objects.WoodAtMostOnce | src/sprites/objects.py:66-99 | over any run of hits and unhits a tree pays its five wood at most once |
| Player.DefaultAmount | src/sprites/player.py:64-71 | the default is 5 exactly for resources from CORN_SEED on, 20 otherwise |
| Player.LoadedInventory | src/sprites/player.py:64-71 | every resource is present, with its saved amount if any, else its default |
| Player.LoadedMoney | src/sprites/player.py:72 | money defaults to 200 |
| Player.Player.constructor | src/sprites/player.py:57-72 | tool and seed default to the first ones, the indices are derived from them, inventory and money as loaded |
| Player.Player.Save | src/sprites/player.py:77-88 | the compacted inventory holds exactly the entries that differ from their kind's default, with equal amounts; the inventory itself is not changed |
| Player.SaveLoadRoundTrip | src/sprites/player.py:64-87 | loading the compacted inventory gives the full inventory back when `is_seed` agrees with `>= CORN_SEED` |
| Player.NextIndex | src/sprites/player.py:126 | the next index is in range and is the successor, or 0 after the last |
| Player.CyclingComesBack | src/sprites/player.py:125-127 | p presses walk the index forward by p, wrapping once, and `count` presses return to the start |
| Player.Axis | src/sprites/player.py:114-117 | a direction component is 1, -1 or 0 by which of the two keys is held |
| Player.InputKeepsConsistent | src/sprites/player.py:90-148 | every frame of input keeps both indices in range and tool and seed matching them |
| Player.ToolCycleInRange | src/sprites/player.py:125-127 | Q sets the tool index to (index + 1) mod tool count and the tool to match it |
| Player.SeedCycleInRange | src/sprites/player.py:138-140 | E sets the seed index to (index + 1) mod seed count and the seed to match it |
| Player.EscapeTogglesPause | src/sprites/player.py:99-104 | ESC with no tool in use and the player free toggles pause, zeroes the direction and does nothing else |
| Player.PausedIgnoresControls | src/sprites/player.py:113 | while paused, no key but the dialogue's SPACE, ESC and T has any effect |
| Player.Player.ApplyControls | src/sprites/player.py:113-148 | the update and the requests equal `Controls`: steering, tool switch, tool start with swing sound, seed switch, sowing, interaction, in that order |
| Player.Player.SwitchTool | src/sprites/player.py:125-127 | the update equals `ToolSwitched`: Q moves to the next tool index, wrapping, and the tool follows it |
| Player.Player.StartTool | src/sprites/player.py:130-133 | the update equals `ToolStarted`: SPACE starts the tool animation at frame 0 and stops the player |
| Player.Player.SwitchSeed | src/sprites/player.py:138-140 | the update equals `SeedSwitched`: E moves to the next seed index, wrapping, and the seed follows it |
| Player.Player.Input | src/sprites/player.py:90-148 | the update and the requests equal `AfterInput`, and the inventory and money are not touched |
| Descriptions.GetPath | src/GUI/descriptions.py:138-154 | the six special keys get their own image; None and every other key get generic.svg |
| Descriptions.GetPathSpecialImages | src/GUI/descriptions.py:142-154 | a key gets a non-generic image iff it is special, and no two special keys share an image |
| Descriptions.ValueToUnicode | src/GUI/descriptions.py:156-163 | a symbol exists iff the code is 48-57 or 97-122; digits map to "0"-"9" and letters to "A"-"Z" |
| Descriptions.OccursFrom | src/GUI/descriptions.py:136 | true iff the symbol occurs as a contiguous run at or after the start index |
| Descriptions.IsGeneric | src/GUI/descriptions.py:135-136 | true iff the symbol is a contiguous run of the listed characters |
| Descriptions.IsGenericAcceptsRuns | src/GUI/descriptions.py:135-136 | the empty symbol and a run such as "XYZ1" are generic |
| Descriptions.NoLowerCaseListed | src/GUI/descriptions.py:136 | no listed character is a lower-case letter |
| Descriptions.IsGenericRejectsLowerCase | src/GUI/descriptions.py:135-136 | a symbol with a lower-case letter anywhere is not generic |
| Descriptions.UnicodeSymbolsAreGeneric | src/GUI/descriptions.py:156-163 | every symbol `value_to_unicode` produces is generic |
| Descriptions.RowPos | src/GUI/descriptions.py:76 | the i-th row is at (10, 10 + 60 i) |
| Descriptions.RowsDoNotOverlap | src/GUI/descriptions.py:20 | rows 300 by 50 spaced 60 apart never overlap, so the mouse is over at most one |
| Descriptions.KeySetup.constructor | src/GUI/descriptions.py:11-25 | a row keeps name, key code, position and image, with no symbol yet |
| Descriptions.FirstHovered | src/GUI/descriptions.py:115-120 | the result is the lowest hovered row; None iff no row is hovered |
| Descriptions.KeybindsDescription.constructor | src/GUI/descriptions.py:55-58 | no rows and no selection |
| Descriptions.NewRow | src/GUI/descriptions.py:69-78 | a fresh row with the binding's name and code, the position of its index, its symbol and its image |
| Descriptions.KeybindsDescription.CreateKeybinds | src/GUI/descriptions.py:66-80 | one fresh row per binding, in order, the i-th at (10, 10 + 60 i), with the binding's name and code, its symbol and its image |
| Descriptions.KeybindsDescription.SelectKeySetup | src/GUI/descriptions.py:113-120 | a left click selects the first hovered row or clears the selection; other events keep it |
| Descriptions.KeybindsDescription.SetKey | src/GUI/descriptions.py:122-133 | with a row selected and a key pressed: the row takes the key's code and image, keeps the symbol only if generic, and the selection ends; otherwise nothing changes |

## Left out

- Callbacks and behaviour trees are identifiers recorded in a trace. What they do, and any re-entrant change they make to the entity, is not modelled.
- The A* search, `Grid.cleanup`, `Grid.node` and `walkable` are parameters of `World`. The end-node lookup, which can raise for a target off the grid, is not modelled.
- The sqrt-based distance is any non-negative function `norm`. Float rounding, pygame `Rect`/`Vector2` arithmetic and the hitbox-to-rect synchronisation in `move` are left out. Positions are exact reals, and the hitbox centre stands for the hitbox.
- `random.random` is a parameter r in [0, 1). In `update_moving`, the completion and the collision abort each take their own r.
- `check_collision` is the boolean parameter `colliding`.
- `AIBehaviourModel.ProgressScript`, `AIBehaviourModel.ExitIdle`: the script is held as a value, not as a shared `AIScriptedPath` object. Aliasing between an entity and whoever else holds the script is not modelled.
- Speeds are non-negative and `dt` is non-negative (`Speed`, `requires dt >= 0.0`). With a negative distance the loop in `update_moving` could divide by zero.
- `Entity.update` (src/sprites/entity.py) is not part of this model. `AIBehaviour.AIBehaviour.Update` runs the continuous tree and then `move`, the movement step `update(dt)` advances. Animation and anything else `Entity.update` does are left out.
- The `Layer`, `FarmingTool` and `InventoryResource` enumerations and `settings` are not part of this model. Their values are integers and parameters.
- `Groups.Sprite`: only a sprite's identity and its `z` are modelled. `z` is fixed while a sprite is grouped, and `AllSprites` requires every `z` to name a layer.
- `Groups.AllSprites.Truthy`: `__bool__` returns the first sprite, or False when there is none. The model counts every sprite object as true, so it gives a bool.
- The `draw`, `update` and `update_blocked` methods of the groups: rendering order and per-sprite updates are not modelled.
- `Groups.PersistentSpriteGroup`: pygame `Group` internals are not modelled. This includes the back-references from sprites to groups and the inherited `remove`. The group is a set.
- `Groups.RenderLayer.Empty`: the order in which the symmetric difference is removed is an arbitrary enumeration of the set. The result does not depend on it.
- `Objects.Plant.constructor`: requires a grow speed >= 0 and at least one frame, as every seed type has. The hitbox and the frame surfaces are reduced to flags and a frame index.
- `Objects.Tree.constructor`: the 300 ms timer is not modelled. `Unhit` is called directly, and the apple sprites are a count. Which apple `random.choice` removes is not modelled.
- src/sprites/base_classes.py is not part of this model.
- The tree's particle surface is `Flash`, and `generate_particle_surf` is not modelled.
- `Player.Player.Input`: the normalisation of the walking direction is not modelled. The direction is the raw pair of -1/0/1 values, which gives the same direction.
- `Player.Player.Input`: sounds, the dialogue manager, `use_tool` and `interact` are returned as requests, and their effects are left out.
- `Player.Player.Save`: `savefile.save` and `load_savefile` (file I/O and serialised key names) are left out. `Save` returns what would be written, and inventory keys are resource numbers.
- `Player.Player.constructor`: `tool_active` and `frame_index` belong to `Entity`, which is not part of this model. They start false and 0.
- The pause and settings menus, fonts and sounds of `Player` are not modelled.
- `Descriptions.KeybindsDescription.SetKey`: `event.unicode.upper()` is the event's `upper` field. Unicode case mapping is not modelled.
- `Descriptions.KeybindsDescription.SelectKeySetup`: the `offset` that `KeySetup.hover` stores on each row is not modelled. The panel offset and the mouse position are parameters.
- `save_data`, `import_data` (with its default bindings) and the loading and scaling of images (src/GUI/descriptions.py:82-104) are file I/O and are left out. `KeybindsDescription.__init__` starts with no rows, and `CreateKeybinds` takes the loaded bindings in dictionary order.
- `VolumeDescription` and the drawing methods of src/GUI/descriptions.py are UI and are not modelled.
