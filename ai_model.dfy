/**
 * Value-level model of the NPC movement and decision state machine
 * (`AIBehaviour` in src/npc/bases/ai_behaviour.py).
 *
 * `Npc` is a snapshot of every attribute the behaviour reads or writes; each
 * function below is one method of the source, taking the snapshot before the
 * call to the snapshot after it.  The class in ai_behaviour.dfy updates the
 * same state in place and is proved equal to these functions.
 *
 * Callbacks are identified by numbers; calling one is recorded as an `Event`
 * in `trace`, and so are runs of the two behaviour trees.  Random draws are
 * parameters `r` in [0, 1); the pathfinder, the walkability test and the
 * Euclidean distance are carried by a `World` value.
 */
module AIBehaviourModel {
  import opened Wrappers
  import opened PythonNumbers

  type CallbackId = nat

  /** A strictly positive real: the scaled tile size in pixels. */
  type PositiveReal = x: real | x > 0.0 witness 1.0

  /** Movement speeds in pixels per second are never negative. */
  type Speed = x: real | x >= 0.0

  /** The length of a vector (dx, dy); all the model asks of it is that it is not negative. */
  type Norm = f: (real, real) -> real | forall dx: real, dy: real :: f(dx, dy) >= 0.0
    witness (dx: real, dy: real) => 0.0

  /** `AIState`: the two movement modes. */
  datatype AIState = IDLE | MOVING

  datatype Point = Point(x: real, y: real)

  datatype Tile = Tile(x: int, y: int)

  /**
   * The pathfinding grid: `walkable(x, y)` as the grid answers it, and
   * `hasNode(x, y)`, true when `node(x, y)` returns a node instead of raising
   * `IndexError`.
   */
  datatype Grid = Grid(walkable: (int, int) -> bool, hasNode: (int, int) -> bool)

  /**
   * What the behaviour consults but never changes: the scaled tile size, the
   * entity's own grid, the path finder (start and end node to the raw node
   * path, first node included) and the vector length.
   */
  datatype World = World(tileSize: PositiveReal, grid: Grid,
                         findPath: (Grid, Tile, Tile) -> seq<Tile>, norm: Norm)

  /** One stop of a scripted path: where to walk, how fast, and how long to wait. */
  datatype Waypoint = Waypoint(pos: Tile, speed: Speed, waitingDuration: real)

  /** A scripted path together with its playback cursor. */
  datatype ScriptedPath = ScriptedPath(waypoints: seq<Waypoint>, index: nat, nextState: AIState,
                                       running: bool, previousSpeed: Speed)

  /** The five callback lists. */
  datatype Phase = OnStartMovingAlways | OnPathAbortion | OnPathCompletion | OnStopMoving | OnScriptFinish

  /** What the behaviour does that is visible outside it. */
  datatype Event =
    | Fired(phase: Phase, id: CallbackId)
    | ConditionalTreeRun
    | ContinuousTreeRun
    | InvalidLocationWarning

  datatype Npc = Npc(
    pfState: AIState,
    pfStateDuration: real,
    pfPath: seq<Point>,
    direction: Point,
    speed: Speed,
    center: Point,               // centre of the hitbox, in pixels
    script: Option<ScriptedPath>,
    startMovingFuncs: seq<CallbackId>,
    abortionFuncs: seq<CallbackId>,
    completionFuncs: seq<CallbackId>,
    stopMovingFuncs: seq<CallbackId>,
    scriptFinishFuncs: seq<CallbackId>,
    hasConditionalTree: bool,
    hasContinuousTree: bool,
    trace: seq<Event>)

  const Still := Point(0.0, 0.0)

  // ---------------------------------------------------------------------------
  // Callbacks

  /** The events of calling every callback of `ids`, in list order. */
  function Firings(phase: Phase, ids: seq<CallbackId>): (es: seq<Event>)
    ensures |es| == |ids|
    ensures forall i :: 0 <= i < |ids| ==> es[i] == Fired(phase, ids[i])
  {
    if ids == [] then [] else [Fired(phase, ids[0])] + Firings(phase, ids[1..])
  }

  lemma FiringsAppend(phase: Phase, ids: seq<CallbackId>, i: nat)
    requires i < |ids|
    ensures Firings(phase, ids[..i + 1]) == Firings(phase, ids[..i]) + [Fired(phase, ids[i])]
  {
    var left := Firings(phase, ids[..i + 1]);
    var right := Firings(phase, ids[..i]) + [Fired(phase, ids[i])];
    assert |left| == |right|;
    forall k | 0 <= k < |left| ensures left[k] == right[k] {
    }
  }

  function Fire(s: Npc, phase: Phase, ids: seq<CallbackId>): Npc {
    s.(trace := s.trace + Firings(phase, ids))
  }

  predicate ScriptRunning(s: Npc) {
    s.script.Some? && s.script.value.running
  }

  /** What none of the transitions changes, and the trace only grows. */
  predicate Keeps(s: Npc, t: Npc) {
    && t.script.Some? == s.script.Some?
    && (s.script.Some? ==>
          t.script.value.waypoints == s.script.value.waypoints
          && t.script.value.index >= s.script.value.index)
    && t.startMovingFuncs == s.startMovingFuncs
    && t.scriptFinishFuncs == s.scriptFinishFuncs
    && t.hasConditionalTree == s.hasConditionalTree
    && t.hasContinuousTree == s.hasContinuousTree
    && t.center == s.center
    && s.trace <= t.trace
  }

  /** Termination measure of the abort / stop / progress recursion. */
  function Rank(s: Npc): nat {
    if s.pfState == MOVING then 1 else 0
  }

  // ---------------------------------------------------------------------------
  // Construction

  /** `__init__`: idle for 1 + 3r seconds with no path, no script and no callbacks. */
  function Spawned(center: Point, speed: Speed, direction: Point, r: real): (s: Npc)
    requires 0.0 <= r < 1.0
    ensures s.pfState == IDLE && 1.0 <= s.pfStateDuration < 4.0
    ensures s.pfPath == [] && s.script.None?
    ensures s.startMovingFuncs == s.abortionFuncs == s.completionFuncs == s.stopMovingFuncs == s.scriptFinishFuncs == []
    ensures !s.hasConditionalTree && !s.hasContinuousTree && s.trace == []
    ensures s.center == center && s.speed == speed && s.direction == direction
  {
    Npc(IDLE, 1.0 + r * 3.0, [], direction, speed, center, None,
        [], [], [], [], [], false, false, [])
  }

  // ---------------------------------------------------------------------------
  // Transitions

  function StartMoving(s: Npc): Npc {
    Fire(s, OnStartMovingAlways, s.startMovingFuncs)
  }

  /**
   * `abort_path`: idle for 1 + r seconds, facing nowhere, abortion callbacks,
   * then `stop_moving`.  The path itself is left as it is.
   */
  function AbortPath(w: World, s: Npc, r: real): (t: Npc)
    requires 0.0 <= r < 1.0
    ensures Keeps(s, t)
    ensures s.trace + Firings(OnPathAbortion, s.abortionFuncs) <= t.trace
    ensures t.abortionFuncs == [] && t.completionFuncs == [] && t.stopMovingFuncs == []
    decreases 1, 0
  {
    var idle := s.(pfState := IDLE, direction := Still, pfStateDuration := 1.0 + r * 1.0);
    StopMoving(w, Fire(idle, OnPathAbortion, idle.abortionFuncs), r)
  }

  /** `complete_path`: idle for 2 + 3r seconds, facing nowhere, completion callbacks, then `stop_moving`. */
  function CompletePath(w: World, s: Npc, r: real): (t: Npc)
    requires 0.0 <= r < 1.0
    ensures Keeps(s, t)
    ensures s.trace + Firings(OnPathCompletion, s.completionFuncs) <= t.trace
    ensures t.abortionFuncs == [] && t.completionFuncs == [] && t.stopMovingFuncs == []
  {
    var idle := s.(pfState := IDLE, direction := Still, pfStateDuration := 2.0 + r * 3.0);
    StopMoving(w, Fire(idle, OnPathCompletion, idle.completionFuncs), r)
  }

  /**
   * `stop_moving`: one script step if a script is running, then the
   * stop-moving callbacks, then the three per-episode lists are emptied.
   */
  function StopMoving(w: World, s: Npc, r: real): (t: Npc)
    requires 0.0 <= r < 1.0
    ensures Keeps(s, t)
    ensures t.abortionFuncs == [] && t.completionFuncs == [] && t.stopMovingFuncs == []
    decreases Rank(s), 2
  {
    var stepped := if ScriptRunning(s) then ProgressScript(w, s, r) else s;
    var fired := Fire(stepped, OnStopMoving, stepped.stopMovingFuncs);
    fired.(abortionFuncs := [], completionFuncs := [], stopMovingFuncs := [])
  }

  /** `finish_script`: the script stops running, the saved speed comes back, finish callbacks fire. */
  function FinishScript(s: Npc): (t: Npc)
    requires s.script.Some?
    ensures Keeps(s, t)
    ensures t.script == Some(s.script.value.(running := false))
    ensures t.speed == s.script.value.previousSpeed
    ensures t.trace == s.trace + Firings(OnScriptFinish, s.scriptFinishFuncs)
  {
    var sc := s.script.value;
    Fire(s.(script := Some(sc.(running := false)), speed := sc.previousSpeed),
         OnScriptFinish, s.scriptFinishFuncs)
  }

  /**
   * `_progress_script`: past the last waypoint the script finishes; a wait
   * leg aborts a running path and waits for the waypoint's duration; a walk
   * leg asks for a path to the waypoint, takes its speed and moves the cursor.
   */
  function ProgressScript(w: World, s: Npc, r: real): (t: Npc)
    requires s.script.Some?
    requires 0.0 <= r < 1.0
    ensures Keeps(s, t)
    decreases Rank(s), 1
  {
    var sc := s.script.value;
    if sc.index >= |sc.waypoints| then FinishScript(s)
    else
      var waypoint := sc.waypoints[sc.index];
      if sc.nextState == IDLE then
        var halted := if s.pfState == MOVING then AbortPath(w, s, r) else s;
        halted.(pfStateDuration := waypoint.waitingDuration,
                script := Some(halted.script.value.(nextState := MOVING)))
      else
        var requested := CreatePathToTile(w, s, waypoint.pos, None).0;
        requested.(speed := waypoint.speed,
                   script := Some(sc.(nextState := IDLE, index := sc.index + 1)))
  }

  /** `run_script`: take the script, remember the current speed, mark it running and take one step. */
  function RunScript(w: World, s: Npc, script: ScriptedPath, r: real): Npc
    requires 0.0 <= r < 1.0
  {
    ProgressScript(w, s.(script := Some(script.(previousSpeed := s.speed, running := true))), r)
  }

  /** `exit_idle`: a running script takes a step, and then the conditional tree runs if there is one. */
  function ExitIdle(w: World, s: Npc, r: real): (t: Npc)
    requires 0.0 <= r < 1.0
    ensures Keeps(s, t)
  {
    var stepped := if ScriptRunning(s) then ProgressScript(w, s, r) else s;
    if stepped.hasConditionalTree then stepped.(trace := stepped.trace + [ConditionalTreeRun])
    else stepped
  }

  // ---------------------------------------------------------------------------
  // Paths

  function TileCenter(t: Tile): Point {
    Point(t.x as real + 0.5, t.y as real + 0.5)
  }

  function Centers(tiles: seq<Tile>): (ps: seq<Point>)
    ensures |ps| == |tiles|
    ensures forall i :: 0 <= i < |tiles| ==> ps[i] == TileCenter(tiles[i])
  {
    if tiles == [] then [] else [TileCenter(tiles[0])] + Centers(tiles[1..])
  }

  /** The path kept from a raw search result: every node but the first, as tile centres. */
  function StoredPath(raw: seq<Tile>): (ps: seq<Point>)
    ensures |ps| == if raw == [] then 0 else |raw| - 1
    ensures forall i :: 0 <= i < |ps| ==> ps[i] == TileCenter(raw[i + 1])
  {
    if raw == [] then [] else Centers(raw[1..])
  }

  /**
   * The tile the hitbox centre is on, as `int` truncates the tile-space
   * coordinates: on the map it is the tile holding the centre; left of or
   * above the map, truncation toward zero picks the neighbour nearer the origin.
   */
  function StartTile(w: World, center: Point): (t: Tile)
    ensures var tx := center.x / w.tileSize;
      (0.0 <= tx ==> 0 <= t.x && t.x as real <= tx < t.x as real + 1.0)
      && (tx < 0.0 ==> t.x <= 0 && t.x as real - 1.0 < tx <= t.x as real)
    ensures var ty := center.y / w.tileSize;
      (0.0 <= ty ==> 0 <= t.y && t.y as real <= ty < t.y as real + 1.0)
      && (ty < 0.0 ==> t.y <= 0 && t.y as real - 1.0 < ty <= t.y as real)
  {
    Tile(Trunc(center.x / w.tileSize), Trunc(center.y / w.tileSize))
  }

  /**
   * `create_path_to_tile`: the new snapshot and whether a path was created.
   * An unwalkable target changes nothing.  Past that test the entity is
   * MOVING with no idle time left, even when it then fails because its own
   * tile is outside the grid or because the search found nothing to walk.
   */
  function CreatePathToTile(w: World, s: Npc, coord: Tile, pfGrid: Option<Grid>): (res: (Npc, bool))
    ensures Keeps(s, res.0)
    ensures res.0.abortionFuncs == s.abortionFuncs && res.0.completionFuncs == s.completionFuncs
    ensures res.0.stopMovingFuncs == s.stopMovingFuncs && res.0.speed == s.speed
    ensures res.1 ==> res.0.pfState == MOVING && res.0.pfPath != []
  {
    var grid := pfGrid.GetOr(w.grid);
    if !grid.walkable(coord.x, coord.y) then (s, false)
    else
      var start := StartTile(w, s.center);
      var moving := s.(pfState := MOVING, pfStateDuration := 0.0);
      if !grid.hasNode(start.x, start.y) then
        (moving.(trace := moving.trace + [InvalidLocationWarning]), false)
      else
        var stored := moving.(pfPath := StoredPath(w.findPath(grid, start, coord)));
        if stored.pfPath == [] then (stored, false) else (StartMoving(stored), true)
  }

  /** `create_step_to_coord`: one more waypoint, the pixel coordinate in tile units. */
  function CreateStepToCoord(w: World, s: Npc, coord: Point): (t: Npc)
    ensures t.pfPath == s.pfPath + [Point(coord.x / w.tileSize, coord.y / w.tileSize)]
    ensures t.(pfPath := s.pfPath) == s
  {
    s.(pfPath := s.pfPath + [Point(coord.x / w.tileSize, coord.y / w.tileSize)])
  }

  // ---------------------------------------------------------------------------
  // Per-frame movement

  /**
   * The facing direction: the unit vector with each coordinate rounded, so
   * every coordinate is a whole number within half a unit of the vector's,
   * and a vector of length at most one faces one of the eight directions or none.
   */
  function Facing(ux: real, uy: real): (d: Point)
    ensures d.x == d.x.Floor as real && d.y == d.y.Floor as real
    ensures ux - 0.5 <= d.x <= ux + 0.5 && uy - 0.5 <= d.y <= uy + 0.5
    ensures -1.0 <= ux <= 1.0 && -1.0 <= uy <= 1.0 ==> -1.0 <= d.x <= 1.0 && -1.0 <= d.y <= 1.0
  {
    Point(PyRound(ux) as real, PyRound(uy) as real)
  }

  /** How the movement loop of one frame ended. */
  datatype WalkResult =
    | Arrived(at: Point)                                        // the last waypoint was reached
    | Halted(path: seq<Point>, at: Point, facing: Option<Point>)  // the distance was used up

  /**
   * The `while remaining_distance` loop of `update_moving`, from its head:
   * drop a reached waypoint, stop if none is left, otherwise walk to the next
   * one or as far toward it as the remaining distance allows.
   */
  function Walk(norm: Norm, path: seq<Point>, current: Point, remaining: real): WalkResult
    requires path != [] && remaining >= 0.0
    decreases |path|, if current == path[0] then 0 else 1
  {
    if remaining == 0.0 then Halted(path, current, None)
    else
      var rest := if current == path[0] then path[1..] else path;
      if rest == [] then Arrived(current)
      else
        var next := rest[0];
        var dx := next.x - current.x;
        var dy := next.y - current.y;
        var distance := norm(dx, dy);
        if remaining >= distance then Walk(norm, rest, next, remaining - distance)
        else
          Halted(rest, Toward(current, next, remaining, distance), Some(Heading(current, next, distance)))
  }

  /** The point `remaining` along the way from `current` to `next`, which is `distance` away. */
  function Toward(current: Point, next: Point, remaining: real, distance: real): Point
    requires distance != 0.0
  {
    Point(current.x + (next.x - current.x) * remaining / distance,
          current.y + (next.y - current.y) * remaining / distance)
  }

  /** The rounded unit direction from `current` toward `next`, which is `distance` away. */
  function Heading(current: Point, next: Point, distance: real): Point
    requires distance != 0.0
  {
    Facing((next.x - current.x) / distance, (next.y - current.y) / distance)
  }

  /** The walk never adds waypoints: when it halts, what is left is a non-empty suffix of the path. */
  lemma {:induction false} WalkLeavesSuffix(norm: Norm, path: seq<Point>, current: Point, remaining: real)
    requires path != [] && remaining >= 0.0
    ensures var w := Walk(norm, path, current, remaining);
      w.Halted? ==> w.path != [] && |w.path| <= |path| && w.path == path[|path| - |w.path|..]
    decreases |path|, if current == path[0] then 0 else 1
  {
    if remaining != 0.0 {
      var rest := if current == path[0] then path[1..] else path;
      if rest != [] {
        var distance := norm(rest[0].x - current.x, rest[0].y - current.y);
        if remaining >= distance {
          WalkLeavesSuffix(norm, rest, rest[0], remaining - distance);
          var w := Walk(norm, rest, rest[0], remaining - distance);
          if w.Halted? && rest != path {
            assert rest[|rest| - |w.path|..] == path[|path| - |w.path|..];
          }
        }
      }
    }
  }

  /**
   * The distance the walking loop still has to cover from `current` to the
   * end of `path`, leg by leg; a first waypoint already reached counts nothing.
   */
  function Left(norm: Norm, path: seq<Point>, current: Point): (d: real)
    requires path != []
    ensures d >= 0.0
    decreases |path|, if current == path[0] then 0 else 1
  {
    var rest := if current == path[0] then path[1..] else path;
    if rest == [] then 0.0
    else norm(rest[0].x - current.x, rest[0].y - current.y) + Left(norm, rest, rest[0])
  }

  /**
   * The walk reaches the end of the path exactly when it has strictly more
   * than the distance left: with exactly that much, the loop runs out of
   * distance on the last waypoint before dropping it.
   */
  lemma {:induction false} WalkArrivesIffEnoughDistance(norm: Norm, path: seq<Point>, current: Point, remaining: real)
    requires path != [] && remaining >= 0.0
    ensures Walk(norm, path, current, remaining).Arrived? <==> remaining > Left(norm, path, current)
    decreases |path|, if current == path[0] then 0 else 1
  {
    if remaining != 0.0 {
      var rest := if current == path[0] then path[1..] else path;
      if rest != [] {
        var distance := norm(rest[0].x - current.x, rest[0].y - current.y);
        if remaining >= distance {
          WalkArrivesIffEnoughDistance(norm, rest, rest[0], remaining - distance);
        }
      }
    }
  }

  /** A round of the walking loop that reaches the next waypoint goes on from there. */
  lemma WalkAdvance(norm: Norm, path: seq<Point>, current: Point, remaining: real, rest: seq<Point>, distance: real)
    requires path != [] && remaining > 0.0
    requires rest == if current == path[0] then path[1..] else path
    requires rest != [] && distance == norm(rest[0].x - current.x, rest[0].y - current.y)
    requires remaining >= distance
    ensures Walk(norm, path, current, remaining) == Walk(norm, rest, rest[0], remaining - distance)
  {
  }

  /** A round of the walking loop that falls short of the next waypoint ends the walk. */
  lemma WalkHalt(norm: Norm, path: seq<Point>, current: Point, remaining: real, rest: seq<Point>, distance: real)
    requires path != [] && remaining > 0.0
    requires rest == if current == path[0] then path[1..] else path
    requires rest != [] && distance == norm(rest[0].x - current.x, rest[0].y - current.y)
    requires remaining < distance
    ensures Walk(norm, path, current, remaining)
         == Halted(rest, Toward(current, rest[0], remaining, distance), Some(Heading(current, rest[0], distance)))
  {
  }

  /** A round of the walking loop that finds no waypoint left arrives where it stands. */
  lemma WalkArrive(norm: Norm, path: seq<Point>, current: Point, remaining: real)
    requires path != [] && remaining > 0.0
    requires current == path[0] && path[1..] == []
    ensures Walk(norm, path, current, remaining) == Arrived(current)
  {
  }

  function ToTiles(w: World, p: Point): Point {
    Point(p.x / w.tileSize, p.y / w.tileSize)
  }

  function ToPixels(w: World, p: Point): Point {
    Point(p.x * w.tileSize, p.y * w.tileSize)
  }

  /** How many tiles a frame of `dt` seconds lets the entity walk: `speed * dt` pixels. */
  function TilesToWalk(w: World, speed: Speed, dt: real): (d: real)
    requires dt >= 0.0
    ensures d >= 0.0
    ensures speed == 0.0 || dt == 0.0 ==> d == 0.0
  {
    assert speed * dt >= 0.0;
    speed * dt / w.tileSize
  }

  /**
   * The part of `update_moving` before the collision test, for a non-empty
   * path: the loop walks `remaining` tiles along the path and the hitbox is
   * moved to where it ended; reaching the last waypoint completes the path
   * (from the hitbox position the frame started with).
   */
  function StepAlong(w: World, s: Npc, remaining: real, rComplete: real): (t: Npc)
    requires s.pfPath != []
    requires remaining >= 0.0 && 0.0 <= rComplete < 1.0
    ensures s.trace <= t.trace && t.script.Some? == s.script.Some?
    ensures t.startMovingFuncs == s.startMovingFuncs && t.scriptFinishFuncs == s.scriptFinishFuncs
    ensures remaining <= Left(w.norm, s.pfPath, ToTiles(w, s.center)) ==>
      && t.pfState == s.pfState && t.script == s.script && t.trace == s.trace
      && t.pfPath != [] && |t.pfPath| <= |s.pfPath| && t.pfPath == s.pfPath[|s.pfPath| - |t.pfPath|..]
  {
    WalkArrivesIffEnoughDistance(w.norm, s.pfPath, ToTiles(w, s.center), remaining);
    WalkLeavesSuffix(w.norm, s.pfPath, ToTiles(w, s.center), remaining);
    match Walk(w.norm, s.pfPath, ToTiles(w, s.center), remaining)
    case Arrived(at) =>
      CompletePath(w, s.(pfPath := []), rComplete).(center := ToPixels(w, at))
    case Halted(path, at, facing) =>
      s.(pfPath := path, direction := facing.GetOr(s.direction), center := ToPixels(w, at))
  }

  /**
   * `update_moving`: with no path left the path completes at once;
   * otherwise the entity steps along its path, and a collision where it
   * ended aborts the path.
   */
  function UpdateMoving(w: World, s: Npc, dt: real, rComplete: real, rAbort: real, colliding: bool): Npc
    requires dt >= 0.0
    requires 0.0 <= rComplete < 1.0 && 0.0 <= rAbort < 1.0
  {
    if s.pfPath == [] then CompletePath(w, s, rComplete)
    else
      var walked := StepAlong(w, s, TilesToWalk(w, s.speed, dt), rComplete);
      if colliding then AbortPath(w, walked, rAbort) else walked
  }

  /** `update_idle`: count the idle time down and leave idling when it runs out. */
  function UpdateIdle(w: World, s: Npc, dt: real, r: real): Npc
    requires 0.0 <= r < 1.0
  {
    var counted := s.(pfStateDuration := s.pfStateDuration - dt);
    if counted.pfStateDuration <= 0.0 then ExitIdle(w, counted, r) else counted
  }

  /**
   * `move`: an idle entity counts down; an entity that is (or has just
   * become) moving advances along its path in the same frame.
   */
  function Move(w: World, s: Npc, dt: real, rComplete: real, rAbort: real, colliding: bool): Npc
    requires dt >= 0.0
    requires 0.0 <= rComplete < 1.0 && 0.0 <= rAbort < 1.0
  {
    var counted := if s.pfState == IDLE then UpdateIdle(w, s, dt, rAbort) else s;
    if counted.pfState == MOVING then UpdateMoving(w, counted, dt, rComplete, rAbort, colliding)
    else counted
  }

  /** `update`: the continuous tree runs first, then the entity moves. */
  function Update(w: World, s: Npc, dt: real, rComplete: real, rAbort: real, colliding: bool): Npc
    requires dt >= 0.0
    requires 0.0 <= rComplete < 1.0 && 0.0 <= rAbort < 1.0
  {
    var decided := if s.hasContinuousTree then s.(trace := s.trace + [ContinuousTreeRun]) else s;
    Move(w, decided, dt, rComplete, rAbort, colliding)
  }
}
