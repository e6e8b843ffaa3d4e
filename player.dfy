/**
 * The player's inventory defaults and save compaction, and the keyboard
 * handling of `Player.input` (src/sprites/player.py).
 *
 * Inventory resources and farming tools are the integer values of their
 * enumerations.  The save file, the dialogue manager, sounds and the callbacks
 * `use_tool` and `interact` are outside the model: what is read from them is a
 * parameter, and what is asked of them is returned as a list of `Request`s.
 */
module Player {
  import opened Wrappers

  // ---------------------------------------------------------------------------
  // Inventory

  const NonSeedDefaultAmount := 20
  const SeedDefaultAmount := 5
  const DefaultMoney := 200

  /** The default amount `__init__` gives a resource: 5 from `CORN_SEED` on, 20 below. */
  function DefaultAmount(res: int, cornSeed: int): (n: int)
    ensures n == SeedDefaultAmount || n == NonSeedDefaultAmount
    ensures n == SeedDefaultAmount <==> res >= cornSeed
  {
    if res >= cornSeed then SeedDefaultAmount else NonSeedDefaultAmount
  }

  /** `_INV_DEFAULT_AMOUNTS[k.is_seed()]`: the default `save` compares against. */
  function SavedDefault(isSeed: bool): int {
    if isSeed then SeedDefaultAmount else NonSeedDefaultAmount
  }

  /** The inventory `__init__` builds: every resource, with its saved amount or else its default. */
  function LoadedInventory(resources: set<int>, saved: map<int, int>, cornSeed: int): (inv: map<int, int>)
    ensures inv.Keys == resources
    ensures forall r :: r in resources && r in saved ==> inv[r] == saved[r]
    ensures forall r :: r in resources && r !in saved ==> inv[r] == DefaultAmount(r, cornSeed)
  {
    map r | r in resources :: if r in saved then saved[r] else DefaultAmount(r, cornSeed)
  }

  /** `save_data.get("money", 200)`. */
  function LoadedMoney(saved: Option<int>): (money: int)
    ensures saved.None? ==> money == DefaultMoney
    ensures saved.Some? ==> money == saved.value
  {
    saved.GetOr(DefaultMoney)
  }

  /**
   * The compacted inventory `save` writes: the entries whose amount differs
   * from the default for their kind, all others dropped.
   */
  ghost predicate IsCompaction(inv: map<int, int>, isSeed: int -> bool, compacted: map<int, int>) {
    && compacted.Keys <= inv.Keys
    && (forall r :: r in inv ==> (r in compacted <==> inv[r] != SavedDefault(isSeed(r))))
    && (forall r :: r in compacted ==> compacted[r] == inv[r])
  }

  /**
   * Loading what `save` wrote gives the inventory back, provided `is_seed`
   * agrees with the `>= CORN_SEED` test `__init__` uses and the inventory
   * holds every resource.
   */
  lemma SaveLoadRoundTrip(inv: map<int, int>, resources: set<int>, cornSeed: int,
                          isSeed: int -> bool, compacted: map<int, int>)
    requires inv.Keys == resources
    requires forall r :: r in resources ==> (isSeed(r) <==> r >= cornSeed)
    requires IsCompaction(inv, isSeed, compacted)
    ensures LoadedInventory(resources, compacted, cornSeed) == inv
  {
    var loaded := LoadedInventory(resources, compacted, cornSeed);
    forall r | r in resources
      ensures loaded[r] == inv[r]
    {
      if r !in compacted {
        assert inv[r] == SavedDefault(isSeed(r));
      }
    }
  }

  // ---------------------------------------------------------------------------
  // Tool and seed cycling

  /** `(index + 1) % count`, Python's modulo for a positive count. */
  function NextIndex(index: int, count: nat): (next: int)
    requires count > 0
    ensures 0 <= next < count
    ensures 0 <= index < count - 1 ==> next == index + 1
    ensures index == count - 1 ==> next == 0
  {
    (index + 1) % count
  }

  /**
   * Up to `count` presses of the cycling key walk an index in range forward,
   * wrapping once past the last tool; `count` presses bring it back.
   */
  lemma {:induction false} CyclingComesBack(index: int, count: nat, presses: nat)
    requires count > 0 && 0 <= index < count && presses <= count
    ensures Cycle(index, count, presses) == if index + presses < count then index + presses else index + presses - count
    ensures presses == count ==> Cycle(index, count, presses) == index
    decreases presses
  {
    if presses > 0 {
      CyclingComesBack(index, count, presses - 1);
    }
  }

  /** The index after `presses` presses of the cycling key. */
  function Cycle(index: int, count: nat, presses: nat): int
    requires count > 0
  {
    if presses == 0 then index else NextIndex(Cycle(index, count, presses - 1), count)
  }

  // ---------------------------------------------------------------------------
  // Input

  datatype Key = SPACE | ESCAPE | T | Q | E | LCTRL | RETURN | LEFT | RIGHT | UP | DOWN

  /** This frame's keyboard: keys held down, and keys pressed since the last frame. */
  datatype Keyboard = Keyboard(held: set<Key>, pressed: set<Key>)

  /** What the dialogue manager says: whether a dialogue shows now, and whether it still does after one `advance`. */
  datatype Dialogue = Dialogue(showing: bool, showingAfterAdvance: bool)

  /** What `input` asks of the world outside the player. */
  datatype Request = AdvanceDialogue | OpenTestDialogue | PlaySwing | UseSeed | Interact

  /** The farming tool enumeration as `input` uses it. */
  datatype Tools = Tools(toolCount: nat, firstToolId: int, seedCount: nat, firstSeedId: int,
                         swinging: int -> bool)

  /** The walking direction before normalisation: -1, 0 or 1 per axis. */
  datatype Direction = Direction(x: int, y: int)

  datatype PlayerState = PlayerState(
    toolIndex: int, currentTool: int, seedIndex: int, currentSeed: int,
    paused: bool, blocked: bool, toolActive: bool, frameIndex: real,
    direction: Direction)

  function Axis(plus: bool, minus: bool): (d: int)
    ensures -1 <= d <= 1
    ensures plus && !minus ==> d == 1
    ensures minus && !plus ==> d == -1
    ensures plus == minus ==> d == 0
  {
    (if plus then 1 else 0) - (if minus then 1 else 0)
  }

  /**
   * `input`: SPACE advances a showing dialogue and nothing else happens;
   * otherwise, unless a tool is in use or the player is blocked, ESC toggles
   * the pause menu and T opens the test dialogue; and when the player is also
   * not paused the arrows set the direction, Q and E cycle the tool and the
   * seed, SPACE starts the tool, LCTRL sows a seed and RETURN interacts.
   */
  function AfterInput(tools: Tools, s: PlayerState, keys: Keyboard, dm: Dialogue): (PlayerState, seq<Request>)
    requires tools.toolCount > 0 && tools.seedCount > 0
  {
    if SPACE in keys.pressed && dm.showing then
      (if dm.showingAfterAdvance then s else s.(blocked := false), [AdvanceDialogue])
    else if !s.toolActive && !s.blocked && ESCAPE in keys.pressed then
      (s.(paused := !s.paused, direction := Direction(0, 0)), [])
    else if !s.toolActive && !s.blocked && T in keys.pressed then
      if dm.showing then (s, []) else (s.(blocked := true), [OpenTestDialogue])
    else if s.toolActive || s.blocked || s.paused then (s, [])
    else Controls(tools, s, keys)
  }

  /** The arrow keys held set the walking direction. */
  function Steered(s: PlayerState, keys: Keyboard): PlayerState {
    s.(direction := Direction(Axis(RIGHT in keys.held, LEFT in keys.held), Axis(DOWN in keys.held, UP in keys.held)))
  }

  /** Q moves to the next tool, wrapping after the last. */
  function ToolSwitched(tools: Tools, s: PlayerState, keys: Keyboard): PlayerState
    requires tools.toolCount > 0
  {
    if Q in keys.pressed then
      var i := NextIndex(s.toolIndex, tools.toolCount);
      s.(toolIndex := i, currentTool := i + tools.firstToolId)
    else s
  }

  /** SPACE starts the current tool's animation and stops the player. */
  function ToolStarted(s: PlayerState, keys: Keyboard): PlayerState {
    if SPACE in keys.pressed then s.(toolActive := true, frameIndex := 0.0, direction := Direction(0, 0)) else s
  }

  /** E moves to the next seed, wrapping after the last. */
  function SeedSwitched(tools: Tools, s: PlayerState, keys: Keyboard): PlayerState
    requires tools.seedCount > 0
  {
    if E in keys.pressed then
      var i := NextIndex(s.seedIndex, tools.seedCount);
      s.(seedIndex := i, currentSeed := i + tools.firstSeedId)
    else s
  }

  /** The swing sound (for a swinging tool), sowing and interaction, in that order. */
  function ControlRequests(tools: Tools, tool: int, keys: Keyboard): seq<Request> {
    (if SPACE in keys.pressed && tools.swinging(tool) then [PlaySwing] else [])
      + (if LCTRL in keys.pressed then [UseSeed] else [])
      + (if RETURN in keys.pressed then [Interact] else [])
  }

  /** The controls of a player who is free, not paused and not using a tool. */
  function Controls(tools: Tools, s: PlayerState, keys: Keyboard): (PlayerState, seq<Request>)
    requires tools.toolCount > 0 && tools.seedCount > 0
  {
    var switched := ToolSwitched(tools, Steered(s, keys), keys);
    (SeedSwitched(tools, ToolStarted(switched, keys), keys), ControlRequests(tools, switched.currentTool, keys))
  }

  /** Tool and seed agree with their indices, and the indices are in range. */
  predicate Consistent(tools: Tools, s: PlayerState) {
    && 0 <= s.toolIndex < tools.toolCount && s.currentTool == s.toolIndex + tools.firstToolId
    && 0 <= s.seedIndex < tools.seedCount && s.currentSeed == s.seedIndex + tools.firstSeedId
  }

  /** Every frame of input keeps the tool and seed consistent with their in-range indices. */
  lemma InputKeepsConsistent(tools: Tools, s: PlayerState, keys: Keyboard, dm: Dialogue)
    requires tools.toolCount > 0 && tools.seedCount > 0
    requires Consistent(tools, s)
    ensures Consistent(tools, AfterInput(tools, s, keys, dm).0)
  {
  }

  /** A Q press, whatever the index was before, leaves it in range and the tool matching it. */
  lemma ToolCycleInRange(tools: Tools, s: PlayerState, keys: Keyboard, dm: Dialogue)
    requires tools.toolCount > 0 && tools.seedCount > 0
    requires Q in keys.pressed && !(SPACE in keys.pressed && dm.showing)
    requires !s.toolActive && !s.blocked && !s.paused
    requires ESCAPE !in keys.pressed && T !in keys.pressed
    ensures var t := AfterInput(tools, s, keys, dm).0;
      && 0 <= t.toolIndex < tools.toolCount
      && t.currentTool == t.toolIndex + tools.firstToolId
      && t.toolIndex == (s.toolIndex + 1) % tools.toolCount
  {
  }

  /** An E press, whatever the index was before, leaves it in range and the seed matching it. */
  lemma SeedCycleInRange(tools: Tools, s: PlayerState, keys: Keyboard, dm: Dialogue)
    requires tools.toolCount > 0 && tools.seedCount > 0
    requires E in keys.pressed && !(SPACE in keys.pressed && dm.showing)
    requires !s.toolActive && !s.blocked && !s.paused
    requires ESCAPE !in keys.pressed && T !in keys.pressed
    ensures var t := AfterInput(tools, s, keys, dm).0;
      && 0 <= t.seedIndex < tools.seedCount
      && t.currentSeed == t.seedIndex + tools.firstSeedId
      && t.seedIndex == (s.seedIndex + 1) % tools.seedCount
  {
  }

  /** ESC with no tool in use and the player free toggles the pause, stops the player and does nothing else. */
  lemma EscapeTogglesPause(tools: Tools, s: PlayerState, keys: Keyboard, dm: Dialogue)
    requires tools.toolCount > 0 && tools.seedCount > 0
    requires ESCAPE in keys.pressed && !(SPACE in keys.pressed && dm.showing)
    requires !s.toolActive && !s.blocked
    ensures AfterInput(tools, s, keys, dm) == (s.(paused := !s.paused, direction := Direction(0, 0)), [])
  {
  }

  /** While paused, only ESC, T and the dialogue's SPACE do anything. */
  lemma PausedIgnoresControls(tools: Tools, s: PlayerState, keys: Keyboard, dm: Dialogue)
    requires tools.toolCount > 0 && tools.seedCount > 0
    requires s.paused && !(SPACE in keys.pressed && dm.showing)
    requires ESCAPE !in keys.pressed && T !in keys.pressed
    ensures AfterInput(tools, s, keys, dm) == (s, [])
  {
  }

  lemma NonEmptyHasMember(s: set<int>)
    requires s != {}
    ensures exists k :: k in s
  {
    if forall k :: k !in s {
      assert false;
    }
  }

  class Player {
    const tools: Tools
    var toolIndex: int
    var currentTool: int
    var seedIndex: int
    var currentSeed: int
    var paused: bool
    var blocked: bool
    var toolActive: bool
    var frameIndex: real
    var direction: Direction
    var inventory: map<int, int>
    var money: int

    function Model(): PlayerState
      reads this
    {
      PlayerState(toolIndex, currentTool, seedIndex, currentSeed, paused, blocked, toolActive, frameIndex, direction)
    }

    /**
     * `__init__`: tool, seed, inventory and money from the save data, each
     * with its default when missing.  `resources` are the members of
     * `InventoryResource`.
     */
    constructor(tools: Tools, resources: set<int>, cornSeed: int,
                savedTool: Option<int>, savedSeed: Option<int>,
                savedInventory: map<int, int>, savedMoney: Option<int>)
      ensures this.tools == tools
      ensures currentTool == savedTool.GetOr(tools.firstToolId) && toolIndex == currentTool - 1
      ensures currentSeed == savedSeed.GetOr(tools.firstSeedId) && seedIndex == currentSeed - tools.firstSeedId
      ensures inventory == LoadedInventory(resources, savedInventory, cornSeed)
      ensures money == LoadedMoney(savedMoney)
      ensures !paused && !blocked && !toolActive
    {
      this.tools := tools;
      paused := false;
      blocked := false;
      toolActive := false;
      frameIndex := 0.0;
      direction := Direction(0, 0);
      var tool := savedTool.GetOr(tools.firstToolId);
      currentTool := tool;
      toolIndex := tool - 1;
      var seed := savedSeed.GetOr(tools.firstSeedId);
      currentSeed := seed;
      seedIndex := seed - tools.firstSeedId;
      inventory := map r | r in resources :: if r in savedInventory then savedInventory[r] else DefaultAmount(r, cornSeed);
      money := savedMoney.GetOr(DefaultMoney);
    }

    /**
     * `save`: a copy of the inventory with every default amount removed, key
     * by key; the inventory itself is left alone.  What `savefile.save`
     * receives is returned.
     */
    method Save(isSeed: int -> bool) returns (tool: int, seed: int, savedMoney: int, compacted: map<int, int>)
      ensures tool == currentTool && seed == currentSeed && savedMoney == money
      ensures IsCompaction(inventory, isSeed, compacted)
    {
      var inv := inventory;
      compacted := inv;
      var keySet := inv.Keys;
      ghost var visited: set<int> := {};
      while keySet != {}
        invariant keySet + visited == inv.Keys && keySet !! visited
        invariant compacted.Keys <= inv.Keys
        invariant forall r :: r in compacted ==> compacted[r] == inv[r]
        invariant forall r :: r in keySet ==> r in compacted
        invariant forall r :: r in visited ==> (r in compacted <==> inv[r] != SavedDefault(isSeed(r)))
        decreases |keySet|
      {
        NonEmptyHasMember(keySet);
        var k :| k in keySet;
        if inv[k] == SavedDefault(isSeed(k)) {
          compacted := compacted - {k};
        }
        keySet := keySet - {k};
        visited := visited + {k};
      }
      tool, seed, savedMoney := currentTool, currentSeed, money;
    }

    /** `input` for one frame; the requests are made in the order returned. */
    method Input(keys: Keyboard, dm: Dialogue) returns (requests: seq<Request>)
      requires tools.toolCount > 0 && tools.seedCount > 0
      modifies this
      ensures Model() == AfterInput(tools, old(Model()), keys, dm).0
      ensures requests == AfterInput(tools, old(Model()), keys, dm).1
      ensures inventory == old(inventory) && money == old(money)
    {
      requests := [];
      if SPACE in keys.pressed && dm.showing {
        requests := [AdvanceDialogue];
        if !dm.showingAfterAdvance {
          blocked := false;
        }
        return;
      }
      if !toolActive && !blocked {
        if ESCAPE in keys.pressed {
          paused := !paused;
          direction := Direction(0, 0);
          return;
        }
        if T in keys.pressed {
          if !dm.showing {
            requests := [OpenTestDialogue];
            blocked := true;
          }
          return;
        }
      }
      if !toolActive && !blocked && !paused {
        requests := ApplyControls(keys);
      }
    }

    /** The part of `input` that runs when the player is free, not paused and not using a tool. */
    method ApplyControls(keys: Keyboard) returns (requests: seq<Request>)
      requires tools.toolCount > 0 && tools.seedCount > 0
      requires !toolActive && !blocked && !paused
      modifies this
      ensures Model() == Controls(tools, old(Model()), keys).0
      ensures requests == Controls(tools, old(Model()), keys).1
      ensures inventory == old(inventory) && money == old(money)
    {
      direction := Direction(Axis(RIGHT in keys.held, LEFT in keys.held), Axis(DOWN in keys.held, UP in keys.held));
      SwitchTool(keys);
      ghost var switched := Model();
      requests := if SPACE in keys.pressed && tools.swinging(currentTool) then [PlaySwing] else [];
      StartTool(keys);
      SwitchSeed(keys);
      if LCTRL in keys.pressed {
        requests := requests + [UseSeed];
      }
      if RETURN in keys.pressed {
        requests := requests + [Interact];
      }
      assert requests == ControlRequests(tools, switched.currentTool, keys);
    }

    /** Q: the next tool, wrapping after the last. */
    method SwitchTool(keys: Keyboard)
      requires tools.toolCount > 0
      modifies this`toolIndex, this`currentTool
      ensures Model() == ToolSwitched(tools, old(Model()), keys)
    {
      if Q in keys.pressed {
        toolIndex := NextIndex(toolIndex, tools.toolCount);
        currentTool := toolIndex + tools.firstToolId;
      }
    }

    /** SPACE: the tool animation starts and the player stops. */
    method StartTool(keys: Keyboard)
      modifies this`toolActive, this`frameIndex, this`direction
      ensures Model() == ToolStarted(old(Model()), keys)
    {
      if SPACE in keys.pressed {
        toolActive := true;
        frameIndex := 0.0;
        direction := Direction(0, 0);
      }
    }

    /** E: the next seed, wrapping after the last. */
    method SwitchSeed(keys: Keyboard)
      requires tools.seedCount > 0
      modifies this`seedIndex, this`currentSeed
      ensures Model() == SeedSwitched(tools, old(Model()), keys)
    {
      if E in keys.pressed {
        seedIndex := NextIndex(seedIndex, tools.seedCount);
        currentSeed := seedIndex + tools.firstSeedId;
      }
    }
  }
}
