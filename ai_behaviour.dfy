/**
 * `AIBehaviour` (src/npc/bases/ai_behaviour.py) as a class whose methods
 * update its fields in place.  Every method is proved to take `Model()` to
 * what the matching function of AIBehaviourModel computes from the old
 * snapshot; the properties of those functions are in AIBehaviourProperties.
 */
module AIBehaviour {
  import opened Wrappers
  import opened AIBehaviourModel
  import opened PythonNumbers

  class AIBehaviour {
    const world: World

    var pfState: AIState
    var pfStateDuration: real
    var pfPath: seq<Point>
    var direction: Point
    var speed: Speed
    var center: Point
    var script: Option<ScriptedPath>

    var onStartMovingAlwaysFuncs: seq<CallbackId>
    var onPathAbortionFuncs: seq<CallbackId>
    var onPathCompletionFuncs: seq<CallbackId>
    var onStopMovingFuncs: seq<CallbackId>
    var onScriptFinishFuncs: seq<CallbackId>

    var hasConditionalTree: bool
    var hasContinuousTree: bool

    /** Every callback call and tree run so far. */
    var trace: seq<Event>

    function Model(): Npc
      reads this
    {
      Npc(pfState, pfStateDuration, pfPath, direction, speed, center, script,
          onStartMovingAlwaysFuncs, onPathAbortionFuncs, onPathCompletionFuncs,
          onStopMovingFuncs, onScriptFinishFuncs, hasConditionalTree, hasContinuousTree, trace)
    }

    /** `__init__`; the position, speed and direction belong to the entity the behaviour is mixed into. */
    constructor (world: World, center: Point, speed: Speed, direction: Point, r: real)
      requires 0.0 <= r < 1.0
      ensures this.world == world
      ensures Model() == Spawned(center, speed, direction, r)
    {
      this.world := world;
      this.center, this.speed, this.direction := center, speed, direction;
      pfState := IDLE;
      pfStateDuration := 1.0 + r * 3.0;
      pfPath := [];
      script := None;
      hasConditionalTree, hasContinuousTree := false, false;
      onStartMovingAlwaysFuncs, onPathAbortionFuncs, onPathCompletionFuncs := [], [], [];
      onStopMovingFuncs, onScriptFinishFuncs := [], [];
      trace := [];
    }

    /** The `conditional_behaviour_tree` setter: a tree or none. */
    method SetConditionalBehaviourTree(present: bool)
      modifies this
      ensures Model() == old(Model()).(hasConditionalTree := present)
    {
      hasConditionalTree := present;
    }

    /** The `continuous_behaviour_tree` setter: a tree or none. */
    method SetContinuousBehaviourTree(present: bool)
      modifies this
      ensures Model() == old(Model()).(hasContinuousTree := present)
    {
      hasContinuousTree := present;
    }

    /** Calls every callback of `funcs` in order. */
    method Fire(phase: Phase, funcs: seq<CallbackId>)
      modifies this`trace
      ensures trace == old(trace) + Firings(phase, funcs)
    {
      for i := 0 to |funcs|
        invariant trace == old(trace) + Firings(phase, funcs[..i])
      {
        FiringsAppend(phase, funcs, i);
        trace := trace + [Fired(phase, funcs[i])];
      }
      assert funcs[..|funcs|] == funcs;
    }

    method OnStartMovingAlways(func: CallbackId)
      modifies this
      ensures Model() == old(Model()).(startMovingFuncs := old(onStartMovingAlwaysFuncs) + [func])
    {
      onStartMovingAlwaysFuncs := onStartMovingAlwaysFuncs + [func];
    }

    method StartMoving()
      modifies this
      ensures Model() == AIBehaviourModel.StartMoving(old(Model()))
    {
      Fire(Phase.OnStartMovingAlways, onStartMovingAlwaysFuncs);
    }

    method OnPathAbortion(func: CallbackId)
      modifies this
      ensures Model() == old(Model()).(abortionFuncs := old(onPathAbortionFuncs) + [func])
    {
      onPathAbortionFuncs := onPathAbortionFuncs + [func];
    }

    method AbortPath(r: real)
      requires 0.0 <= r < 1.0
      modifies this
      ensures Model() == AIBehaviourModel.AbortPath(world, old(Model()), r)
      decreases 1, 0
    {
      ghost var idle := old(Model()).(pfState := IDLE, direction := Still, pfStateDuration := 1.0 + r * 1.0);
      pfState := IDLE;
      direction := Still;
      pfStateDuration := 1.0 + r * 1.0;
      Fire(Phase.OnPathAbortion, onPathAbortionFuncs);
      assert Model() == AIBehaviourModel.Fire(idle, Phase.OnPathAbortion, idle.abortionFuncs);
      StopMoving(r);
    }

    method OnPathCompletion(func: CallbackId)
      modifies this
      ensures Model() == old(Model()).(completionFuncs := old(onPathCompletionFuncs) + [func])
    {
      onPathCompletionFuncs := onPathCompletionFuncs + [func];
    }

    method CompletePath(r: real)
      requires 0.0 <= r < 1.0
      modifies this
      ensures Model() == AIBehaviourModel.CompletePath(world, old(Model()), r)
    {
      ghost var idle := old(Model()).(pfState := IDLE, direction := Still, pfStateDuration := 2.0 + r * 3.0);
      pfState := IDLE;
      direction := Still;
      pfStateDuration := 2.0 + r * 3.0;
      Fire(Phase.OnPathCompletion, onPathCompletionFuncs);
      assert Model() == AIBehaviourModel.Fire(idle, Phase.OnPathCompletion, idle.completionFuncs);
      StopMoving(r);
    }

    method ExitIdle(r: real)
      requires 0.0 <= r < 1.0
      modifies this
      ensures Model() == AIBehaviourModel.ExitIdle(world, old(Model()), r)
    {
      if script.Some? && script.value.running {
        ProgressScript(r);
      }
      if hasConditionalTree {
        trace := trace + [ConditionalTreeRun];
      }
    }

    method OnStopMoving(func: CallbackId)
      modifies this
      ensures Model() == old(Model()).(stopMovingFuncs := old(onStopMovingFuncs) + [func])
    {
      onStopMovingFuncs := onStopMovingFuncs + [func];
    }

    method StopMoving(r: real)
      requires 0.0 <= r < 1.0
      modifies this
      ensures Model() == AIBehaviourModel.StopMoving(world, old(Model()), r)
      decreases if pfState == MOVING then 1 else 0, 2
    {
      if script.Some? && script.value.running {
        ProgressScript(r);
      }
      Fire(Phase.OnStopMoving, onStopMovingFuncs);
      onPathAbortionFuncs := [];
      onPathCompletionFuncs := [];
      onStopMovingFuncs := [];
    }

    method OnScriptFinish(func: CallbackId)
      modifies this
      ensures Model() == old(Model()).(scriptFinishFuncs := old(onScriptFinishFuncs) + [func])
    {
      onScriptFinishFuncs := onScriptFinishFuncs + [func];
    }

    method FinishScript()
      requires script.Some?
      modifies this
      ensures Model() == AIBehaviourModel.FinishScript(old(Model()))
    {
      script := Some(script.value.(running := false));
      speed := script.value.previousSpeed;
      Fire(Phase.OnScriptFinish, onScriptFinishFuncs);
    }

    method RunScript(newScript: ScriptedPath, r: real)
      requires 0.0 <= r < 1.0
      modifies this
      ensures Model() == AIBehaviourModel.RunScript(world, old(Model()), newScript, r)
    {
      script := Some(newScript.(previousSpeed := speed, running := true));
      ProgressScript(r);
    }

    method ProgressScript(r: real)
      requires script.Some?
      requires 0.0 <= r < 1.0
      modifies this
      ensures Model() == AIBehaviourModel.ProgressScript(world, old(Model()), r)
      decreases if pfState == MOVING then 1 else 0, 1
    {
      var sc := script.value;
      if sc.index >= |sc.waypoints| {
        FinishScript();
        return;
      }
      var waypoint := sc.waypoints[sc.index];
      if sc.nextState == IDLE {
        if pfState == MOVING {
          AbortPath(r);
        }
        pfStateDuration := waypoint.waitingDuration;
        script := Some(script.value.(nextState := MOVING));
      } else {
        var created := CreatePathToTile(waypoint.pos, None);
        speed := waypoint.speed;
        script := Some(script.value.(nextState := IDLE, index := script.value.index + 1));
      }
    }

    method CreatePathToTile(coord: Tile, pfGrid: Option<Grid>) returns (created: bool)
      modifies this
      ensures (Model(), created) == AIBehaviourModel.CreatePathToTile(world, old(Model()), coord, pfGrid)
    {
      var grid := pfGrid.GetOr(world.grid);
      if !grid.walkable(coord.x, coord.y) {
        return false;
      }
      var start := Tile(Trunc(center.x / world.tileSize), Trunc(center.y / world.tileSize));
      pfState := MOVING;
      pfStateDuration := 0.0;
      if !grid.hasNode(start.x, start.y) {
        trace := trace + [InvalidLocationWarning];
        return false;
      }
      pfPath := StoredPath(world.findPath(grid, start, coord));
      if pfPath == [] {
        return false;
      }
      StartMoving();
      return true;
    }

    method CreateStepToCoord(coord: Point) returns (created: bool)
      modifies this
      ensures Model() == AIBehaviourModel.CreateStepToCoord(world, old(Model()), coord)
      ensures created
    {
      pfPath := pfPath + [Point(coord.x / world.tileSize, coord.y / world.tileSize)];
      return true;
    }

    method Move(dt: real, rComplete: real, rAbort: real, colliding: bool)
      requires dt >= 0.0
      requires 0.0 <= rComplete < 1.0 && 0.0 <= rAbort < 1.0
      modifies this
      ensures Model() == AIBehaviourModel.Move(world, old(Model()), dt, rComplete, rAbort, colliding)
    {
      if pfState == IDLE {
        UpdateIdle(dt, rAbort);
      }
      if pfState == MOVING {
        UpdateMoving(dt, rComplete, rAbort, colliding);
      }
    }

    method UpdateIdle(dt: real, r: real)
      requires 0.0 <= r < 1.0
      modifies this
      ensures Model() == AIBehaviourModel.UpdateIdle(world, old(Model()), dt, r)
    {
      pfStateDuration := pfStateDuration - dt;
      if pfStateDuration <= 0.0 {
        ExitIdle(r);
      }
    }

    /**
     * The `while remaining_distance` loop of `update_moving`, on the path,
     * position (in tiles) and distance it starts from: it reports whether the
     * last waypoint was reached and otherwise what is left of the path, where
     * the walk stopped and the heading taken if it stopped between waypoints.
     */
    method FollowPath(path0: seq<Point>, current0: Point, remaining0: real)
      returns (path: seq<Point>, current: Point, facing: Option<Point>, arrived: bool)
      requires path0 != [] && remaining0 >= 0.0
      ensures arrived ==> Walk(world.norm, path0, current0, remaining0) == Arrived(current)
      ensures !arrived ==> Walk(world.norm, path0, current0, remaining0) == Halted(path, current, facing)
    {
      path, current, facing, arrived := path0, current0, None, false;
      var nextPoint := path[0];
      var remaining := remaining0;
      ghost var walk := Walk(world.norm, path0, current0, remaining0);
      while remaining != 0.0
        invariant remaining >= 0.0
        invariant path != [] && nextPoint == path[0]
        invariant remaining == 0.0 ==> walk == Halted(path, current, facing)
        invariant remaining != 0.0 ==> walk == Walk(world.norm, path, current, remaining)
        invariant remaining != 0.0 ==> facing == None
        decreases |path|, if current == path[0] then 0 else 1, remaining != 0.0
      {
        ghost var path1, current1, remaining1 := path, current, remaining;
        if current == nextPoint {
          path := path[1..];
        }
        if path == [] {
          WalkArrive(world.norm, path1, current1, remaining1);
          arrived := true;
          return;
        }
        nextPoint := path[0];
        var dx := nextPoint.x - current.x;
        var dy := nextPoint.y - current.y;
        var distance := world.norm(dx, dy);
        if remaining >= distance {
          WalkAdvance(world.norm, path1, current1, remaining1, path, distance);
          current := nextPoint;
          remaining := remaining - distance;
        } else {
          WalkHalt(world.norm, path1, current1, remaining1, path, distance);
          facing := Some(Heading(current, nextPoint, distance));
          current := Toward(current, nextPoint, remaining, distance);
          remaining := 0.0;
        }
      }
    }

    /**
     * `update_moving`; `colliding` is what the collision check reports for
     * the hitbox at the position the loop ended on.
     */
    method UpdateMoving(dt: real, rComplete: real, rAbort: real, colliding: bool)
      requires dt >= 0.0
      requires 0.0 <= rComplete < 1.0 && 0.0 <= rAbort < 1.0
      modifies this
      ensures Model() == AIBehaviourModel.UpdateMoving(world, old(Model()), dt, rComplete, rAbort, colliding)
    {
      if pfPath == [] {
        CompletePath(rComplete);
        return;
      }
      ghost var s0 := Model();
      var remaining := TilesToWalk(world, speed, dt);
      var path, current, facing, arrived := FollowPath(pfPath, ToTiles(world, center), remaining);
      if arrived {
        pfPath := [];
        assert Model() == s0.(pfPath := []);
        CompletePath(rComplete);
      } else {
        pfPath := path;
        direction := facing.GetOr(direction);
      }
      center := ToPixels(world, current);
      assert Model() == StepAlong(world, s0, remaining, rComplete);
      if colliding {
        AbortPath(rAbort);
      }
    }

    /** `update`: the continuous tree, then the entity's own update, which moves it. */
    method Update(dt: real, rComplete: real, rAbort: real, colliding: bool)
      requires dt >= 0.0
      requires 0.0 <= rComplete < 1.0 && 0.0 <= rAbort < 1.0
      modifies this
      ensures Model() == AIBehaviourModel.Update(world, old(Model()), dt, rComplete, rAbort, colliding)
    {
      if hasContinuousTree {
        trace := trace + [ContinuousTreeRun];
      }
      Move(dt, rComplete, rAbort, colliding);
    }
  }
}
