/**
 * The two growing and choppable map objects of src/sprites/objects.py:
 * `Plant`, whose age grows on watered soil up to the last animation frame,
 * and `Tree`, whose hits take health and apples and pay out wood once.
 *
 * Each class keeps the attributes its methods update in place; the value
 * types `PlantState` and `TreeState` with the functions `Grown`, `AfterHit` and
 * `AfterUnhit` say what each method does, and the lemmas below are about them.
 * Images and rectangles are reduced to which frame or surface is shown and
 * whether a hitbox exists.
 */
module Objects {
  import opened PythonNumbers

  // ---------------------------------------------------------------------------
  // Plant

  /** What `grow` reads and writes. */
  datatype PlantState = PlantState(age: real, harvestable: bool, z: int, hasHitbox: bool, frame: int)

  /** The growth parameters fixed at construction, and the two render layers a plant moves between. */
  datatype PlantKind = PlantKind(growSpeed: real, maxAge: nat, plantLayer: int, mainLayer: int)

  /** A freshly planted seed: age 0, first frame, on the plant layer, no hitbox. */
  function NewPlant(kind: PlantKind): PlantState {
    PlantState(0.0, false, kind.plantLayer, false, 0)
  }

  /**
   * `grow`, given whether the soil under the plant is watered: the age grows
   * by the seed's speed; a whole age above zero moves the plant to the main
   * layer with a hitbox; reaching the last frame clamps the age and makes it
   * harvestable; the frame shown is the whole part of the age.
   */
  function Grown(kind: PlantKind, s: PlantState, watered: bool): PlantState {
    if !watered then s
    else
      var grown := s.age + kind.growSpeed;
      var placed := if Trunc(grown) > 0 then s.(z := kind.mainLayer, hasHitbox := true) else s;
      var clamped := if grown >= kind.maxAge as real then placed.(age := kind.maxAge as real, harvestable := true)
                     else placed.(age := grown);
      clamped.(frame := Trunc(clamped.age))
  }

  /** What a plant grown at a non-negative speed always satisfies. */
  predicate PlantInvariant(kind: PlantKind, s: PlantState) {
    && 0.0 <= s.age <= kind.maxAge as real
    && (s.harvestable ==> s.age == kind.maxAge as real)
    && s.frame == Trunc(s.age)
  }

  lemma NewPlantSatisfiesInvariant(kind: PlantKind)
    ensures PlantInvariant(kind, NewPlant(kind))
  {
  }

  /** Dry soil: nothing changes. */
  lemma GrowDryChangesNothing(kind: PlantKind, s: PlantState)
    ensures Grown(kind, s, false) == s
  {
  }

  /**
   * Watered: the age becomes min(age + speed, max age), the plant is
   * harvestable exactly when that minimum is the max age (or it already
   * was), and it never stops being harvestable.
   */
  lemma GrowWateredAge(kind: PlantKind, s: PlantState)
    ensures var t := Grown(kind, s, true);
      && t.age == (if s.age + kind.growSpeed <= kind.maxAge as real then s.age + kind.growSpeed else kind.maxAge as real)
      && (t.harvestable <==> s.harvestable || s.age + kind.growSpeed >= kind.maxAge as real)
      && (s.harvestable ==> t.harvestable)
  {
  }

  /**
   * With a non-negative grow speed, growing keeps the age within
   * [0, max age] and so the frame index within [0, len(frames) - 1].
   */
  lemma GrowKeepsInvariant(kind: PlantKind, s: PlantState, watered: bool)
    requires kind.growSpeed >= 0.0
    requires PlantInvariant(kind, s)
    ensures PlantInvariant(kind, Grown(kind, s, watered))
    ensures 0 <= Grown(kind, s, watered).frame <= kind.maxAge
  {
    var t := Grown(kind, s, watered);
    assert Trunc(t.age) as real <= t.age;
  }

  /** Once on the main layer with a hitbox, a plant stays there. */
  lemma GrowNeverDemotes(kind: PlantKind, s: PlantState, watered: bool)
    requires kind.growSpeed >= 0.0 && PlantInvariant(kind, s)
    requires s.z == kind.mainLayer && s.hasHitbox
    ensures Grown(kind, s, watered).z == kind.mainLayer && Grown(kind, s, watered).hasHitbox
  {
  }

  class Plant {
    const kind: PlantKind
    var age: real
    var harvestable: bool
    var z: int
    var hasHitbox: bool
    var frame: int

    function Model(): PlantState
      reads this
    {
      PlantState(age, harvestable, z, hasHitbox, frame)
    }

    ghost predicate Valid()
      reads this
    {
      kind.growSpeed >= 0.0 && PlantInvariant(kind, Model())
    }

    /** `__init__` with `len(frames) == frameCount`; `GROW_SPEED[seed_type]` is `growSpeed`. */
    constructor(growSpeed: real, frameCount: nat, plantLayer: int, mainLayer: int)
      requires frameCount >= 1 && growSpeed >= 0.0
      ensures kind == PlantKind(growSpeed, frameCount - 1, plantLayer, mainLayer)
      ensures Model() == NewPlant(kind)
      ensures Valid()
    {
      kind := PlantKind(growSpeed, frameCount - 1, plantLayer, mainLayer);
      age := 0.0;
      harvestable := false;
      z := plantLayer;
      hasHitbox := false;
      frame := 0;
    }

    /** `grow`; `watered` is what `check_watered` answers for the plant's centre. */
    method Grow(watered: bool)
      requires Valid()
      modifies this
      ensures Valid()
      ensures Model() == Grown(kind, old(Model()), watered)
    {
      if watered {
        age := age + kind.growSpeed;
        if Trunc(age) > 0 {
          z := kind.mainLayer;
          hasHitbox := true;
        }
        if age >= kind.maxAge as real {
          age := kind.maxAge as real;
          harvestable := true;
        }
        frame := Trunc(age);
      }
      GrowKeepsInvariant(kind, old(Model()), watered);
    }
  }

  // ---------------------------------------------------------------------------
  // Tree

  datatype Resource = APPLE | WOOD

  /** One `entity.add_resource(resource, amount)` call. */
  datatype Reward = Reward(resource: Resource, amount: nat)

  /** The surface a tree shows: its own, its stump, or the white flash of either after a hit. */
  datatype TreeImage = Surf | Stump | Flash(of: TreeImage)

  datatype TreeState = TreeState(health: int, wasHit: bool, alive: bool, apples: nat, image: TreeImage)

  /** How many of the apple positions grew an apple: a draw from 0..10 below 6 does. */
  function FruitCount(draws: seq<int>): (n: nat)
    ensures n <= |draws|
    ensures (forall i :: 0 <= i < |draws| ==> draws[i] < 6) ==> n == |draws|
    ensures (forall i :: 0 <= i < |draws| ==> draws[i] >= 6) ==> n == 0
  {
    if draws == [] then 0
    else FruitCount(draws[..|draws| - 1]) + (if draws[|draws| - 1] < 6 then 1 else 0)
  }

  /** `__init__`: five health, not hit, alive, with the apples `create_fruit` grew. */
  function NewTree(draws: seq<int>): TreeState {
    TreeState(5, false, true, FruitCount(draws), Surf)
  }

  /**
   * `hit`: ignored while the previous hit is still showing; otherwise one
   * health less, one apple shaken off (and paid out) if any is left, five
   * wood if that took the health below zero while the tree stands, and the
   * image flashes.
   */
  function AfterHit(s: TreeState): (TreeState, seq<Reward>) {
    if s.wasHit then (s, [])
    else
      var health := s.health - 1;
      var apple := if s.apples > 0 then [Reward(APPLE, 1)] else [];
      var wood := if health < 0 && s.alive then [Reward(WOOD, 5)] else [];
      (s.(wasHit := true, health := health, apples := if s.apples > 0 then s.apples - 1 else 0, image := Flash(s.image)),
       apple + wood)
  }

  /** `unhit`, run by the timer `hit` starts: a tree below zero health becomes a stump and dies. */
  function AfterUnhit(s: TreeState): TreeState {
    if s.health < 0 then s.(wasHit := false, image := Stump, alive := false)
    else if s.alive then s.(wasHit := false, image := Surf)
    else s.(wasHit := false)
  }

  /** A hit that is not ignored costs exactly one health and sets `was_hit`; an ignored one changes nothing. */
  lemma HitCostsOneHealth(s: TreeState)
    ensures s.wasHit ==> AfterHit(s) == (s, [])
    ensures !s.wasHit ==> AfterHit(s).0.health == s.health - 1 && AfterHit(s).0.wasHit
  {
  }

  /** Each hit takes at most one apple and pays one APPLE exactly when an apple was left. */
  lemma HitTakesOneApple(s: TreeState)
    requires !s.wasHit
    ensures var (t, rewards) := AfterHit(s);
      && t.apples == (if s.apples > 0 then s.apples - 1 else 0)
      && (Reward(APPLE, 1) in rewards <==> s.apples > 0)
  {
  }

  /** Wood is paid only by a standing tree whose health the hit took below zero. */
  lemma HitWoodOnlyWhenFelled(s: TreeState)
    ensures Reward(WOOD, 5) in AfterHit(s).1 <==> !s.wasHit && s.health - 1 < 0 && s.alive
  {
  }

  /** What a tree is asked to do: a hit, or the timer's unhit. */
  datatype TreeOp = HitOp | UnhitOp

  /** The wood a run of hits and unhits pays out, counted in five-wood rewards. */
  function WoodPaid(s: TreeState, ops: seq<TreeOp>): nat
    decreases |ops|
  {
    if ops == [] then 0
    else match ops[0]
      case HitOp =>
        var (t, rewards) := AfterHit(s);
        (if Reward(WOOD, 5) in rewards then 1 else 0) + WoodPaid(t, ops[1..])
      case UnhitOp => WoodPaid(AfterUnhit(s), ops[1..])
  }

  /** A tree that is dead, or felled and waiting for its unhit, pays no more wood. */
  predicate Spent(s: TreeState) {
    !s.alive || (s.wasHit && s.health < 0)
  }

  lemma {:induction false} SpentPaysNothing(s: TreeState, ops: seq<TreeOp>)
    requires Spent(s)
    ensures WoodPaid(s, ops) == 0
    decreases |ops|
  {
    if ops != [] {
      match ops[0]
      case HitOp => SpentPaysNothing(AfterHit(s).0, ops[1..]);
      case UnhitOp => SpentPaysNothing(AfterUnhit(s), ops[1..]);
    }
  }

  /** Whatever the order of hits and unhits, a tree pays out its five wood at most once. */
  lemma {:induction false} WoodAtMostOnce(s: TreeState, ops: seq<TreeOp>)
    ensures WoodPaid(s, ops) <= 1
    decreases |ops|
  {
    if ops != [] {
      match ops[0]
      case HitOp =>
        var (t, rewards) := AfterHit(s);
        if Reward(WOOD, 5) in rewards {
          SpentPaysNothing(t, ops[1..]);
        } else {
          WoodAtMostOnce(t, ops[1..]);
        }
      case UnhitOp => WoodAtMostOnce(AfterUnhit(s), ops[1..]);
    }
  }

  class Tree {
    var health: int
    var wasHit: bool
    var alive: bool
    var apples: nat
    var image: TreeImage

    function Model(): TreeState
      reads this
    {
      TreeState(health, wasHit, alive, apples, image)
    }

    /** `__init__`; `draws` are the `randint(0, 10)` draws of `create_fruit`, one per apple position. */
    constructor(draws: seq<int>)
      ensures Model() == NewTree(draws)
    {
      health := 5;
      wasHit := false;
      alive := true;
      image := Surf;
      apples := 0;
      new;
      CreateFruit(draws);
    }

    /** `create_fruit`: one apple per position whose draw is below 6. */
    method CreateFruit(draws: seq<int>)
      modifies this`apples
      ensures apples == old(apples) + FruitCount(draws)
    {
      for i := 0 to |draws|
        invariant apples == old(apples) + FruitCount(draws[..i])
      {
        assert draws[..i + 1][..i] == draws[..i];
        if draws[i] < 6 {
          apples := apples + 1;
        }
      }
      assert draws[..|draws|] == draws;
    }

    /** `hit`; `rewarded` are the `add_resource` calls it makes on the hitting entity, in order. */
    method Hit() returns (rewarded: seq<Reward>)
      modifies this
      ensures Model() == AfterHit(old(Model())).0
      ensures rewarded == AfterHit(old(Model())).1
    {
      rewarded := [];
      if wasHit {
        return;
      }
      wasHit := true;
      health := health - 1;
      if apples > 0 {
        apples := apples - 1;
        rewarded := rewarded + [Reward(APPLE, 1)];
      }
      if health < 0 && alive {
        rewarded := rewarded + [Reward(WOOD, 5)];
      }
      image := Flash(image);
    }

    /** `unhit`. */
    method Unhit()
      modifies this
      ensures Model() == AfterUnhit(old(Model()))
    {
      wasHit := false;
      if health < 0 {
        image := Stump;
        if alive {
          alive := false;
        }
      } else if health >= 0 && alive {
        image := Surf;
      }
    }
  }
}
