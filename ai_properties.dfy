/**
 * What the movement and decision state machine promises, proved about the
 * value-level model of src/npc/bases/ai_behaviour.py.
 */
module AIBehaviourProperties {
  import opened Wrappers
  import opened AIBehaviourModel

  /** Without a running script, `abort_path` leaves the entity idle for [1, 2) seconds; nothing else is called. */
  lemma AbortPathWithoutScript(w: World, s: Npc, r: real)
    requires 0.0 <= r < 1.0
    requires !ScriptRunning(s)
    ensures AbortPath(w, s, r) == s.(pfState := IDLE, direction := Still, pfStateDuration := 1.0 + r,
                                     trace := s.trace + Firings(OnPathAbortion, s.abortionFuncs)
                                                      + Firings(OnStopMoving, s.stopMovingFuncs),
                                     abortionFuncs := [], completionFuncs := [], stopMovingFuncs := [])
    ensures 1.0 <= AbortPath(w, s, r).pfStateDuration < 2.0
  {
    var idle := s.(pfState := IDLE, direction := Still, pfStateDuration := 1.0 + r * 1.0);
    var fired := Fire(idle, OnPathAbortion, idle.abortionFuncs);
    assert !ScriptRunning(fired);
    assert AbortPath(w, s, r) == StopMoving(w, fired, r);
  }

  /** Without a running script, `complete_path` leaves the entity idle for [2, 5) seconds. */
  lemma CompletePathWithoutScript(w: World, s: Npc, r: real)
    requires 0.0 <= r < 1.0
    requires !ScriptRunning(s)
    ensures CompletePath(w, s, r) == s.(pfState := IDLE, direction := Still, pfStateDuration := 2.0 + r * 3.0,
                                        trace := s.trace + Firings(OnPathCompletion, s.completionFuncs)
                                                         + Firings(OnStopMoving, s.stopMovingFuncs),
                                        abortionFuncs := [], completionFuncs := [], stopMovingFuncs := [])
    ensures 2.0 <= CompletePath(w, s, r).pfStateDuration < 5.0
  {
    var idle := s.(pfState := IDLE, direction := Still, pfStateDuration := 2.0 + r * 3.0);
    var fired := Fire(idle, OnPathCompletion, idle.completionFuncs);
    assert !ScriptRunning(fired);
    assert CompletePath(w, s, r) == StopMoving(w, fired, r);
  }

  /**
   * Callbacks registered for one movement episode never fire in the next:
   * after a stop, aborting again calls no abortion or stop-moving callback.
   */
  lemma StopMovingDoesNotLeak(w: World, s: Npc, r: real, r2: real)
    requires 0.0 <= r < 1.0 && 0.0 <= r2 < 1.0
    requires !ScriptRunning(s)
    ensures AbortPath(w, StopMoving(w, s, r), r2).trace == StopMoving(w, s, r).trace
  {
    var t := StopMoving(w, s, r);
    assert t.script == s.script;
    AbortPathWithoutScript(w, t, r2);
  }

  /** An event that calls a callback registered for one movement episode. */
  predicate EpisodeEvent(e: Event) {
    e.Fired? && (e.phase == OnPathAbortion || e.phase == OnPathCompletion || e.phase == OnStopMoving)
  }

  /** `after` extends `before` by events none of which calls a per-episode callback. */
  predicate QuietExtension(before: seq<Event>, after: seq<Event>) {
    before <= after && forall i :: |before| <= i < |after| ==> !EpisodeEvent(after[i])
  }

  /** The three per-episode callback lists are empty, as `stop_moving` leaves them. */
  predicate NoEpisodeLists(s: Npc) {
    s.abortionFuncs == [] && s.completionFuncs == [] && s.stopMovingFuncs == []
  }

  /** With the per-episode lists empty, `abort_path` calls no per-episode callback, whatever the script does. */
  lemma QuietAbortPath(w: World, s: Npc, r: real)
    requires 0.0 <= r < 1.0 && NoEpisodeLists(s)
    ensures QuietExtension(s.trace, AbortPath(w, s, r).trace)
    decreases 1, 0
  {
    var idle := s.(pfState := IDLE, direction := Still, pfStateDuration := 1.0 + r * 1.0);
    var fired := Fire(idle, OnPathAbortion, idle.abortionFuncs);
    assert fired.trace == s.trace;
    QuietStopMoving(w, fired, r);
  }

  /** With the per-episode lists empty, `stop_moving` calls no per-episode callback, whatever the script does. */
  lemma QuietStopMoving(w: World, s: Npc, r: real)
    requires 0.0 <= r < 1.0 && NoEpisodeLists(s)
    ensures QuietExtension(s.trace, StopMoving(w, s, r).trace)
    decreases Rank(s), 2
  {
    if ScriptRunning(s) {
      QuietProgressScript(w, s, r);
    }
  }

  /**
   * With the per-episode lists empty, a script step calls no per-episode
   * callback and leaves the lists empty: it only finishes the script, waits,
   * or starts a new path.
   */
  lemma QuietProgressScript(w: World, s: Npc, r: real)
    requires s.script.Some? && 0.0 <= r < 1.0 && NoEpisodeLists(s)
    ensures var t := ProgressScript(w, s, r);
      QuietExtension(s.trace, t.trace) && NoEpisodeLists(t)
    decreases Rank(s), 1
  {
    var sc := s.script.value;
    if sc.index < |sc.waypoints| && sc.nextState == IDLE && s.pfState == MOVING {
      QuietAbortPath(w, s, r);
    }
  }

  /**
   * Whether or not a script runs, after a stop a later abort calls none of
   * the abortion, completion or stop-moving callbacks: `stop_moving` cleared
   * all three lists, and nothing the abort runs refills them.
   */
  lemma AbortAfterStopIsQuiet(w: World, s: Npc, r: real, r2: real)
    requires 0.0 <= r < 1.0 && 0.0 <= r2 < 1.0
    ensures var t := StopMoving(w, s, r);
      QuietExtension(t.trace, AbortPath(w, t, r2).trace)
  {
    QuietAbortPath(w, StopMoving(w, s, r), r2);
  }

  /** An unwalkable target: `create_path_to_tile` returns False and the entity is untouched. */
  lemma CreatePathUnwalkable(w: World, s: Npc, coord: Tile, pfGrid: Option<Grid>)
    requires !pfGrid.GetOr(w.grid).walkable(coord.x, coord.y)
    ensures CreatePathToTile(w, s, coord, pfGrid) == (s, false)
  {
  }

  /**
   * A search that found a path of at least two nodes: the stored path is
   * every node but the first, as tile centres, and the start-moving callbacks
   * fire.
   */
  lemma CreatePathSuccess(w: World, s: Npc, coord: Tile, pfGrid: Option<Grid>)
    requires pfGrid.GetOr(w.grid).walkable(coord.x, coord.y)
    requires pfGrid.GetOr(w.grid).hasNode(StartTile(w, s.center).x, StartTile(w, s.center).y)
    requires |w.findPath(pfGrid.GetOr(w.grid), StartTile(w, s.center), coord)| >= 2
    ensures var (t, ok) := CreatePathToTile(w, s, coord, pfGrid);
      var raw := w.findPath(pfGrid.GetOr(w.grid), StartTile(w, s.center), coord);
      && ok
      && t.pfState == MOVING && t.pfStateDuration == 0.0
      && |t.pfPath| == |raw| - 1
      && (forall i :: 0 <= i < |t.pfPath| ==> t.pfPath[i] == TileCenter(raw[i + 1]))
      && t.trace == s.trace + Firings(OnStartMovingAlways, s.startMovingFuncs)
  {
  }

  /**
   * A search that found at most the entity's own tile: False, no start-moving
   * callback, but the entity has already been switched to MOVING.
   */
  lemma CreatePathEmptyResult(w: World, s: Npc, coord: Tile, pfGrid: Option<Grid>)
    requires pfGrid.GetOr(w.grid).walkable(coord.x, coord.y)
    requires pfGrid.GetOr(w.grid).hasNode(StartTile(w, s.center).x, StartTile(w, s.center).y)
    requires |w.findPath(pfGrid.GetOr(w.grid), StartTile(w, s.center), coord)| <= 1
    ensures var (t, ok) := CreatePathToTile(w, s, coord, pfGrid);
      && !ok
      && t == s.(pfState := MOVING, pfStateDuration := 0.0, pfPath := [])
  {
  }

  /**
   * The entity stands off the grid: False and a warning, the path is kept,
   * and again the entity has already been switched to MOVING.
   */
  lemma CreatePathInvalidLocation(w: World, s: Npc, coord: Tile, pfGrid: Option<Grid>)
    requires pfGrid.GetOr(w.grid).walkable(coord.x, coord.y)
    requires !pfGrid.GetOr(w.grid).hasNode(StartTile(w, s.center).x, StartTile(w, s.center).y)
    ensures var (t, ok) := CreatePathToTile(w, s, coord, pfGrid);
      && !ok
      && t == s.(pfState := MOVING, pfStateDuration := 0.0, trace := s.trace + [InvalidLocationWarning])
  {
  }

  /** Past the last waypoint: the script stops running, the saved speed is restored, finish callbacks fire. */
  lemma ProgressScriptFinishes(w: World, s: Npc, r: real)
    requires 0.0 <= r < 1.0
    requires s.script.Some? && s.script.value.index >= |s.script.value.waypoints|
    ensures var t := ProgressScript(w, s, r);
      && t.script == Some(s.script.value.(running := false))
      && t.speed == s.script.value.previousSpeed
      && t.trace == s.trace + Firings(OnScriptFinish, s.scriptFinishFuncs)
      && t.pfState == s.pfState && t.pfPath == s.pfPath
  {
  }

  /**
   * A wait leg: the entity ends idle for the waypoint's waiting time, the
   * next leg is a walk, and the cursor does not move, also when a running
   * path had to be aborted first.
   */
  lemma ProgressScriptWaitLeg(w: World, s: Npc, r: real)
    requires 0.0 <= r < 1.0
    requires s.script.Some? && s.script.value.index < |s.script.value.waypoints|
    requires s.script.value.nextState == IDLE
    ensures var t := ProgressScript(w, s, r);
      && t.pfState == IDLE
      && t.pfStateDuration == s.script.value.waypoints[s.script.value.index].waitingDuration
      && t.script == Some(s.script.value.(nextState := MOVING))
    decreases Rank(s)
  {
    if s.pfState == MOVING {
      var idle := s.(pfState := IDLE, direction := Still, pfStateDuration := 1.0 + r * 1.0);
      var fired := Fire(idle, OnPathAbortion, idle.abortionFuncs);
      assert AbortPath(w, s, r) == StopMoving(w, fired, r);
      if ScriptRunning(fired) {
        ProgressScriptWaitLeg(w, fired, r);
      }
    }
  }

  /** A walk leg: a path is requested, the waypoint's speed is taken and the cursor moves on by one. */
  lemma ProgressScriptWalkLeg(w: World, s: Npc, r: real)
    requires 0.0 <= r < 1.0
    requires s.script.Some? && s.script.value.index < |s.script.value.waypoints|
    requires s.script.value.nextState == MOVING
    ensures var t := ProgressScript(w, s, r);
      var waypoint := s.script.value.waypoints[s.script.value.index];
      var requested := CreatePathToTile(w, s, waypoint.pos, None).0;
      && t.speed == waypoint.speed
      && t.script == Some(s.script.value.(nextState := IDLE, index := s.script.value.index + 1))
      && t.pfState == requested.pfState && t.pfPath == requested.pfPath && t.trace == requested.trace
  {
  }

  /** The script cursor only ever moves forward, and by exactly one on a walk leg. */
  lemma ProgressScriptIndexStep(w: World, s: Npc, r: real)
    requires 0.0 <= r < 1.0
    requires s.script.Some?
    ensures var i := s.script.value.index;
      var j := ProgressScript(w, s, r).script.value.index;
      (j == i + 1 <==> i < |s.script.value.waypoints| && s.script.value.nextState == MOVING)
      && (j == i || j == i + 1)
  {
    var sc := s.script.value;
    if sc.index < |sc.waypoints| && sc.nextState == IDLE {
      ProgressScriptWaitLeg(w, s, r);
    }
  }

  /**
   * `run_script` on a script with no waypoint left finishes it at once: the
   * speed is unchanged and the finish callbacks fire.
   */
  lemma RunExhaustedScript(w: World, s: Npc, script: ScriptedPath, r: real)
    requires 0.0 <= r < 1.0
    requires script.index >= |script.waypoints|
    ensures var t := RunScript(w, s, script, r);
      && t.speed == s.speed
      && t.script == Some(script.(previousSpeed := s.speed, running := false))
      && t.trace == s.trace + Firings(OnScriptFinish, s.scriptFinishFuncs)
  {
  }

  /**
   * `exit_idle` as written: a running script takes its step AND the
   * conditional tree still runs afterwards.
   */
  lemma ExitIdleRunsTreeDuringScript(w: World, s: Npc, r: real)
    requires 0.0 <= r < 1.0
    requires ScriptRunning(s) && s.hasConditionalTree
    ensures ExitIdle(w, s, r).trace == ProgressScript(w, s, r).trace + [ConditionalTreeRun]
  {
  }

  /** An empty path completes at once: idle for [2, 5) seconds, completion then stop-moving callbacks. */
  lemma UpdateMovingEmptyPath(w: World, s: Npc, dt: real, rComplete: real, rAbort: real, colliding: bool)
    requires dt >= 0.0 && 0.0 <= rComplete < 1.0 && 0.0 <= rAbort < 1.0
    requires s.pfPath == [] && !ScriptRunning(s)
    ensures var t := UpdateMoving(w, s, dt, rComplete, rAbort, colliding);
      && t.pfState == IDLE && t.direction == Still
      && 2.0 <= t.pfStateDuration < 5.0
      && t.trace == s.trace + Firings(OnPathCompletion, s.completionFuncs) + Firings(OnStopMoving, s.stopMovingFuncs)
  {
    CompletePathWithoutScript(w, s, rComplete);
  }

  /** Without a running script, stepping along the path keeps the script and leaves a suffix of the path. */
  lemma StepAlongWithoutScript(w: World, s: Npc, remaining: real, rComplete: real)
    requires remaining >= 0.0 && 0.0 <= rComplete < 1.0
    requires s.pfPath != [] && !ScriptRunning(s)
    ensures var walked := StepAlong(w, s, remaining, rComplete);
      && walked.script == s.script
      && |walked.pfPath| <= |s.pfPath|
      && walked.pfPath == s.pfPath[|s.pfPath| - |walked.pfPath|..]
  {
    match Walk(w.norm, s.pfPath, ToTiles(w, s.center), remaining)
    case Arrived(at) =>
      CompletePathWithoutScript(w, s.(pfPath := []), rComplete);
      assert s.pfPath[|s.pfPath|..] == [];
    case Halted(path, at, facing) =>
      WalkLeavesSuffix(w.norm, s.pfPath, ToTiles(w, s.center), remaining);
  }

  /**
   * A collision after the step aborts: the entity ends idle for 1 + r
   * seconds, facing nowhere, with the per-episode callbacks gone.
   */
  lemma UpdateMovingCollisionAborts(w: World, s: Npc, dt: real, rComplete: real, rAbort: real)
    requires dt >= 0.0 && 0.0 <= rComplete < 1.0 && 0.0 <= rAbort < 1.0
    requires s.pfPath != [] && !ScriptRunning(s)
    ensures var t := UpdateMoving(w, s, dt, rComplete, rAbort, true);
      && t.pfState == IDLE && t.direction == Still
      && t.pfStateDuration == 1.0 + rAbort
      && t.abortionFuncs == [] && t.completionFuncs == [] && t.stopMovingFuncs == []
      && s.trace <= t.trace
  {
    var remaining := TilesToWalk(w, s.speed, dt);
    StepAlongWithoutScript(w, s, remaining, rComplete);
    AbortPathWithoutScript(w, StepAlong(w, s, remaining, rComplete), rAbort);
  }

  /**
   * Without a running script or a collision, a frame empties the path exactly
   * when the entity may walk strictly more than the distance left; it then
   * ends idle for [2, 5) seconds, facing nowhere, and otherwise keeps its
   * state and script.
   */
  lemma UpdateMovingCompletesIffEnoughDistance(w: World, s: Npc, dt: real, rComplete: real, rAbort: real)
    requires dt >= 0.0 && 0.0 <= rComplete < 1.0 && 0.0 <= rAbort < 1.0
    requires s.pfPath != [] && !ScriptRunning(s)
    ensures var t := UpdateMoving(w, s, dt, rComplete, rAbort, false);
      && (t.pfPath == [] <==> TilesToWalk(w, s.speed, dt) > Left(w.norm, s.pfPath, ToTiles(w, s.center)))
      && (t.pfPath == [] ==> t.pfState == IDLE && t.direction == Still && 2.0 <= t.pfStateDuration < 5.0)
      && (t.pfPath != [] ==> t.pfState == s.pfState && t.script == s.script)
  {
    var remaining := TilesToWalk(w, s.speed, dt);
    WalkArrivesIffEnoughDistance(w.norm, s.pfPath, ToTiles(w, s.center), remaining);
    if remaining > Left(w.norm, s.pfPath, ToTiles(w, s.center)) {
      CompletePathWithoutScript(w, s.(pfPath := []), rComplete);
    }
  }

  /**
   * An abort while a running script is due to wait does not idle for 1 + r
   * seconds: `stop_moving` steps the script, so the entity waits for the
   * waypoint's duration, facing nowhere, and the script turns to walking.
   */
  lemma AbortPathDuringWaitLeg(w: World, s: Npc, r: real)
    requires 0.0 <= r < 1.0
    requires ScriptRunning(s) && s.script.value.index < |s.script.value.waypoints|
    requires s.script.value.nextState == IDLE
    ensures var t := AbortPath(w, s, r);
      && t.pfState == IDLE && t.direction == Still
      && t.pfStateDuration == s.script.value.waypoints[s.script.value.index].waitingDuration
      && t.script == Some(s.script.value.(nextState := MOVING))
  {
    var idle := s.(pfState := IDLE, direction := Still, pfStateDuration := 1.0 + r * 1.0);
    var fired := Fire(idle, OnPathAbortion, idle.abortionFuncs);
    assert AbortPath(w, s, r) == StopMoving(w, fired, r);
    ProgressScriptWaitLeg(w, fired, r);
    assert ProgressScript(w, fired, r).direction == Still;
  }

  /**
   * A collision during a running script that is due to wait, in a frame that
   * does not reach the end of the path, leaves the entity idle for the
   * waypoint's waiting duration, with the script's next leg a walk.
   */
  lemma UpdateMovingCollisionDuringWaitLeg(w: World, s: Npc, dt: real, rComplete: real, rAbort: real)
    requires dt >= 0.0 && 0.0 <= rComplete < 1.0 && 0.0 <= rAbort < 1.0
    requires s.pfPath != [] && TilesToWalk(w, s.speed, dt) <= Left(w.norm, s.pfPath, ToTiles(w, s.center))
    requires ScriptRunning(s) && s.script.value.index < |s.script.value.waypoints|
    requires s.script.value.nextState == IDLE
    ensures var t := UpdateMoving(w, s, dt, rComplete, rAbort, true);
      && t.pfState == IDLE && t.direction == Still
      && t.pfStateDuration == s.script.value.waypoints[s.script.value.index].waitingDuration
      && t.script == Some(s.script.value.(nextState := MOVING))
  {
    var walked := StepAlong(w, s, TilesToWalk(w, s.speed, dt), rComplete);
    AbortPathDuringWaitLeg(w, walked, rAbort);
  }

  /** Without a running script, a frame of movement never lengthens the path: what is left is a suffix of it. */
  lemma UpdateMovingNeverLengthens(w: World, s: Npc, dt: real, rComplete: real, rAbort: real, colliding: bool)
    requires dt >= 0.0 && 0.0 <= rComplete < 1.0 && 0.0 <= rAbort < 1.0
    requires !ScriptRunning(s)
    ensures var t := UpdateMoving(w, s, dt, rComplete, rAbort, colliding);
      |t.pfPath| <= |s.pfPath| && t.pfPath == s.pfPath[|s.pfPath| - |t.pfPath|..]
  {
    if s.pfPath == [] {
      CompletePathWithoutScript(w, s, rComplete);
    } else {
      var remaining := TilesToWalk(w, s.speed, dt);
      StepAlongWithoutScript(w, s, remaining, rComplete);
      if colliding {
        AbortPathWithoutScript(w, StepAlong(w, s, remaining, rComplete), rAbort);
      }
    }
  }

  /** An idle entity whose countdown has not run out only counts down. */
  lemma MoveIdleCountsDown(w: World, s: Npc, dt: real, rComplete: real, rAbort: real, colliding: bool)
    requires dt >= 0.0 && 0.0 <= rComplete < 1.0 && 0.0 <= rAbort < 1.0
    requires s.pfState == IDLE && s.pfStateDuration - dt > 0.0
    ensures Move(w, s, dt, rComplete, rAbort, colliding) == s.(pfStateDuration := s.pfStateDuration - dt)
  {
  }

  /** A frame never forgets what was called before it. */
  lemma MoveExtendsTrace(w: World, s: Npc, dt: real, rComplete: real, rAbort: real, colliding: bool)
    requires dt >= 0.0 && 0.0 <= rComplete < 1.0 && 0.0 <= rAbort < 1.0
    ensures s.trace <= Move(w, s, dt, rComplete, rAbort, colliding).trace
  {
    var counted := if s.pfState == IDLE then UpdateIdle(w, s, dt, rAbort) else s;
    assert s.trace <= counted.trace;
    if counted.pfState == MOVING && counted.pfPath != [] {
      assert counted.trace <= StepAlong(w, counted, TilesToWalk(w, counted.speed, dt), rComplete).trace;
    }
  }

  /** `update` runs the continuous tree before anything the frame's movement calls. */
  lemma UpdateRunsContinuousTreeFirst(w: World, s: Npc, dt: real, rComplete: real, rAbort: real, colliding: bool)
    requires dt >= 0.0 && 0.0 <= rComplete < 1.0 && 0.0 <= rAbort < 1.0
    requires s.hasContinuousTree
    ensures s.trace + [ContinuousTreeRun] <= Update(w, s, dt, rComplete, rAbort, colliding).trace
  {
    MoveExtendsTrace(w, s.(trace := s.trace + [ContinuousTreeRun]), dt, rComplete, rAbort, colliding);
  }
}
