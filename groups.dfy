/**
 * The sprite containers of src/groups.py: `RenderLayer`, a list of sprites
 * with a persistent subset that survives `empty`; `AllSprites`, one render
 * layer per `Layer` value with every sprite routed to the layer its `z`
 * names; and `PersistentSpriteGroup`, pygame's unordered group with the same
 * persistent subset.
 *
 * The lists are fields of type `seq` that the methods reassign; the sprites
 * themselves are objects compared by identity, as Python compares them.
 */
module Groups {

  /** A sprite, as far as the containers look at it: its identity and its layer. */
  class Sprite {
    const z: int

    constructor(z: int)
      ensures this.z == z
    {
      this.z := z;
    }
  }

  // ---------------------------------------------------------------------------
  // List helpers

  predicate NoDup<T(==)>(s: seq<T>) {
    forall i, j :: 0 <= i < j < |s| ==> s[i] != s[j]
  }

  function Elems<T(==)>(s: seq<T>): set<T> {
    set x | x in s
  }

  /** `s` with every element of `gone` dropped, the others kept in order. */
  function Without<T(==)>(s: seq<T>, gone: set<T>): (r: seq<T>)
    ensures forall i :: 0 <= i < |r| ==> r[i] in s && r[i] !in gone
    ensures forall i :: 0 <= i < |s| && s[i] !in gone ==> s[i] in r
    ensures |r| <= |s|
    ensures NoDup(s) ==> NoDup(r)
  {
    if s == [] then []
    else if s[0] in gone then Without(s[1..], gone)
    else
      var rest := Without(s[1..], gone);
      assert NoDup(s) ==> s[0] !in s[1..];
      [s[0]] + rest
  }

  /** Python's `list.remove`: drops the first occurrence of `x`. */
  function RemoveFirst<T(==)>(s: seq<T>, x: T): (r: seq<T>)
    requires x in s
    ensures |r| == |s| - 1
  {
    if s[0] == x then s[1..] else [s[0]] + RemoveFirst(s[1..], x)
  }

  /** `RenderLayer.add` on the list: append unless already present. */
  function Added<T(==)>(s: seq<T>, x: T): (r: seq<T>)
    ensures x in r && Elems(r) == Elems(s) + {x}
    ensures NoDup(s) ==> NoDup(r)
    ensures x in s ==> r == s
  {
    if x in s then s else s + [x]
  }

  /** Removing a present element from a duplicate-free filtered list is filtering it out too. */
  lemma {:induction false} RemoveFirstWithout<T>(s: seq<T>, gone: set<T>, x: T)
    requires NoDup(s) && x in Without(s, gone)
    ensures RemoveFirst(Without(s, gone), x) == Without(s, gone + {x})
  {
    if s[0] in gone {
      RemoveFirstWithout(s[1..], gone, x);
    } else if s[0] == x {
      assert x !in s[1..];
      WithoutIgnoresAbsent(s[1..], gone, gone + {x});
    } else {
      RemoveFirstWithout(s[1..], gone, x);
    }
  }

  /** Filtering depends only on which elements of `s` are dropped. */
  lemma {:induction false} WithoutIgnoresAbsent<T>(s: seq<T>, gone: set<T>, gone': set<T>)
    requires forall x :: x in s ==> (x in gone <==> x in gone')
    ensures Without(s, gone) == Without(s, gone')
  {
    if s != [] {
      WithoutIgnoresAbsent(s[1..], gone, gone');
    }
  }

  /** Dropping everything leaves nothing. */
  lemma WithoutAll<T>(s: seq<T>)
    ensures Without(s, Elems(s)) == []
  {
    WithoutCovered(s, Elems(s));
  }

  lemma {:induction false} WithoutCovered<T>(s: seq<T>, gone: set<T>)
    requires forall i :: 0 <= i < |s| ==> s[i] in gone
    ensures Without(s, gone) == []
  {
    if s != [] {
      WithoutCovered(s[1..], gone);
    }
  }

  /** Dropping nothing keeps everything. */
  lemma WithoutNothing<T>(s: seq<T>)
    ensures Without(s, {}) == s
  {
  }

  /** A duplicate-free list holds as many distinct elements as it is long. */
  lemma {:induction false} NoDupCard<T>(s: seq<T>)
    ensures NoDup(s) ==> |Elems(s)| == |s|
  {
    if NoDup(s) && s != [] {
      var init := s[..|s| - 1];
      var last := s[|s| - 1];
      assert s == init + [last];
      assert NoDup(init);
      NoDupCard(init);
      assert last !in Elems(init);
      assert Elems(s) == Elems(init) + {last};
    }
  }

  lemma ElemsSnoc<T>(s: seq<T>, i: nat)
    requires i < |s|
    ensures Elems(s[..i + 1]) == Elems(s[..i]) + {s[i]}
  {
    assert s[..i + 1] == s[..i] + [s[i]];
  }

  // ---------------------------------------------------------------------------
  // RenderLayer

  class RenderLayer {
    const layer: int
    var spriteList: seq<Sprite>
    var persistentList: seq<Sprite>

    ghost predicate Valid()
      reads this
    {
      NoDup(spriteList) && NoDup(persistentList)
    }

    constructor(layer: int)
      ensures Valid()
      ensures this.layer == layer && spriteList == [] && persistentList == []
    {
      this.layer := layer;
      spriteList := [];
      persistentList := [];
    }

    /** `__len__`: the number of sprites held, zero exactly when the layer is empty. */
    function Len(): (n: nat)
      reads this
      ensures n == 0 <==> spriteList == []
      ensures Valid() ==> n == |Elems(spriteList)|
    {
      NoDupCard(spriteList);
      |spriteList|
    }

    /** `__bool__`: truth of the sprite list. */
    function Truthy(): (b: bool)
      reads this
      ensures b <==> Len() > 0
    {
      spriteList != []
    }

    /** `__contains__`: `True`, or a falsy `None`. */
    function Contains(sprite: Sprite): (b: bool)
      reads this
      ensures b <==> exists i :: 0 <= i < |spriteList| && spriteList[i] == sprite
      ensures b ==> Len() > 0
    {
      sprite in spriteList
    }

    /** `add`: appended unless already there; never a duplicate. */
    method Add(sprite: Sprite)
      requires Valid()
      modifies this`spriteList
      ensures Valid()
      ensures spriteList == Added(old(spriteList), sprite)
    {
      if !Contains(sprite) {
        spriteList := spriteList + [sprite];
      }
    }

    /** `add_persistent`: in both lists, once each. */
    method AddPersistent(sprite: Sprite)
      requires Valid()
      modifies this
      ensures Valid()
      ensures spriteList == Added(old(spriteList), sprite)
      ensures persistentList == Added(old(persistentList), sprite)
    {
      Add(sprite);
      if sprite !in persistentList {
        persistentList := persistentList + [sprite];
      }
    }

    /** `remove`: the given sprites that are present go, absent ones are ignored, the rest keep their order. */
    method Remove(sprites: seq<Sprite>)
      requires Valid()
      modifies this`spriteList
      ensures Valid()
      ensures spriteList == Without(old(spriteList), Elems(sprites))
    {
      WithoutNothing(spriteList);
      assert Elems(sprites[..0]) == {};
      for i := 0 to |sprites|
        invariant Valid()
        invariant spriteList == Without(old(spriteList), Elems(sprites[..i]))
      {
        var sprite := sprites[i];
        ElemsSnoc(sprites, i);
        if Contains(sprite) {
          RemoveFirstWithout(old(spriteList), Elems(sprites[..i]), sprite);
          spriteList := RemoveFirst(spriteList, sprite);
        } else {
          WithoutIgnoresAbsent(old(spriteList), Elems(sprites[..i]), Elems(sprites[..i + 1]));
        }
      }
      assert sprites[..|sprites|] == sprites;
    }

    /**
     * `empty`: removes the symmetric difference of the two lists, taken in
     * whatever order the set yields it.  What is left is exactly the current
     * sprites that are also persistent, in their previous order.
     */
    method Empty()
      requires Valid()
      modifies this`spriteList
      ensures Valid()
      ensures spriteList == Without(old(spriteList), Elems(old(spriteList)) - Elems(persistentList))
      ensures forall x :: x in spriteList <==> x in old(spriteList) && x in persistentList
    {
      var current, persistent := Elems(spriteList), Elems(persistentList);
      var pending := (current - persistent) + (persistent - current);
      ghost var difference := pending;
      var order: seq<Sprite> := [];
      while pending != {}
        invariant Elems(order) + pending == difference
        decreases |pending|
      {
        var sprite :| sprite in pending;
        order := order + [sprite];
        pending := pending - {sprite};
      }
      Remove(order);
      WithoutIgnoresAbsent(old(spriteList), difference, current - persistent);
    }

    /** `empty_persistent`: every sprite goes; the persistent list stays as it is. */
    method EmptyPersistent()
      requires Valid()
      modifies this`spriteList
      ensures Valid()
      ensures spriteList == []
    {
      Remove(spriteList);
      WithoutAll(old(spriteList));
    }
  }

  // ---------------------------------------------------------------------------
  // AllSprites: the layered lists as a value

  /** Every sprite names an existing layer. */
  predicate Routable(sprites: seq<Sprite>, layerCount: nat) {
    forall i :: 0 <= i < |sprites| ==> 0 <= sprites[i].z < layerCount
  }

  /** `AllSprites.add` (and, on the persistent lists, `add_persistent`): each sprite added to the layer its `z` names. */
  function AddAll(lists: seq<seq<Sprite>>, sprites: seq<Sprite>): (r: seq<seq<Sprite>>)
    requires Routable(sprites, |lists|)
    ensures |r| == |lists|
    decreases |sprites|
  {
    if sprites == [] then lists
    else
      var before := AddAll(lists, sprites[..|sprites| - 1]);
      var sprite := sprites[|sprites| - 1];
      before[sprite.z := Added(before[sprite.z], sprite)]
  }

  /** `AllSprites.remove`: each sprite removed from the layer its `z` names. */
  function RemoveAll(lists: seq<seq<Sprite>>, sprites: seq<Sprite>): (r: seq<seq<Sprite>>)
    requires Routable(sprites, |lists|)
    ensures |r| == |lists|
    decreases |sprites|
  {
    if sprites == [] then lists
    else
      var before := RemoveAll(lists, sprites[..|sprites| - 1]);
      var sprite := sprites[|sprites| - 1];
      before[sprite.z := Without(before[sprite.z], {sprite})]
  }

  /** Adding a prefix one sprite longer adds that sprite to its layer. */
  lemma AddAllStep(lists: seq<seq<Sprite>>, sprites: seq<Sprite>, i: nat)
    requires Routable(sprites, |lists|) && i < |sprites|
    ensures AddAll(lists, sprites[..i + 1])
         == AddAll(lists, sprites[..i])[sprites[i].z := Added(AddAll(lists, sprites[..i])[sprites[i].z], sprites[i])]
  {
    var longer := sprites[..i + 1];
    assert longer[..|longer| - 1] == sprites[..i];
    assert longer[|longer| - 1] == sprites[i];
  }

  /** Removing a prefix one sprite longer removes that sprite from its layer. */
  lemma RemoveAllStep(lists: seq<seq<Sprite>>, sprites: seq<Sprite>, i: nat)
    requires Routable(sprites, |lists|) && i < |sprites|
    ensures RemoveAll(lists, sprites[..i + 1])
         == RemoveAll(lists, sprites[..i])[sprites[i].z := Without(RemoveAll(lists, sprites[..i])[sprites[i].z], {sprites[i]})]
  {
    var longer := sprites[..i + 1];
    assert longer[..|longer| - 1] == sprites[..i];
    assert longer[|longer| - 1] == sprites[i];
  }

  /** `__len__`: the lengths of the layers added up. */
  function TotalLength(lists: seq<seq<Sprite>>): nat {
    if lists == [] then 0 else TotalLength(lists[..|lists| - 1]) + |lists[|lists| - 1]|
  }

  /** No layer holds more sprites than the total. */
  lemma {:induction false} TotalLengthBounds(lists: seq<seq<Sprite>>)
    ensures forall k :: 0 <= k < |lists| ==> |lists[k]| <= TotalLength(lists)
    decreases |lists|
  {
    if lists != [] {
      var n := |lists| - 1;
      TotalLengthBounds(lists[..n]);
      assert forall k :: 0 <= k < n ==> lists[..n][k] == lists[k];
    }
  }

  /** Replacing one layer changes the total by the difference of its lengths. */
  lemma {:induction false} TotalLengthUpdate(lists: seq<seq<Sprite>>, k: nat, l: seq<Sprite>)
    requires k < |lists|
    ensures TotalLength(lists[k := l]) == TotalLength(lists) - |lists[k]| + |l|
    decreases |lists|
  {
    var n := |lists| - 1;
    if k < n {
      assert lists[k := l][..n] == lists[..n][k := l];
      TotalLengthUpdate(lists[..n], k, l);
    } else {
      assert lists[k := l][..n] == lists[..n];
    }
  }

  /** The total is zero exactly when every layer is empty. */
  lemma {:induction false} TotalLengthZero(lists: seq<seq<Sprite>>)
    ensures TotalLength(lists) == 0 <==> forall k :: 0 <= k < |lists| ==> lists[k] == []
    decreases |lists|
  {
    if lists != [] {
      var n := |lists| - 1;
      TotalLengthZero(lists[..n]);
      assert forall k :: 0 <= k < n ==> lists[..n][k] == lists[k];
    }
  }

  /** Adding touches only the layers the added sprites name. */
  lemma {:induction false} AddAllTouchesOnlyRouted(lists: seq<seq<Sprite>>, sprites: seq<Sprite>, k: nat)
    requires Routable(sprites, |lists|) && k < |lists|
    requires forall i :: 0 <= i < |sprites| ==> sprites[i].z != k
    ensures AddAll(lists, sprites)[k] == lists[k]
    decreases |sprites|
  {
    if sprites != [] {
      AddAllTouchesOnlyRouted(lists, sprites[..|sprites| - 1], k);
    }
  }

  /** Removing touches only the layers the removed sprites name. */
  lemma {:induction false} RemoveAllTouchesOnlyRouted(lists: seq<seq<Sprite>>, sprites: seq<Sprite>, k: nat)
    requires Routable(sprites, |lists|) && k < |lists|
    requires forall i :: 0 <= i < |sprites| ==> sprites[i].z != k
    ensures RemoveAll(lists, sprites)[k] == lists[k]
    decreases |sprites|
  {
    if sprites != [] {
      RemoveAllTouchesOnlyRouted(lists, sprites[..|sprites| - 1], k);
    }
  }

  /** Adding keeps every layer free of duplicates. */
  lemma {:induction false} AddAllNoDup(lists: seq<seq<Sprite>>, sprites: seq<Sprite>)
    requires Routable(sprites, |lists|)
    requires forall k :: 0 <= k < |lists| ==> NoDup(lists[k])
    ensures forall k :: 0 <= k < |lists| ==> NoDup(AddAll(lists, sprites)[k])
    decreases |sprites|
  {
    if sprites != [] {
      AddAllNoDup(lists, sprites[..|sprites| - 1]);
    }
  }

  /** A sprite that no layer holds grows the total length by one when added. */
  lemma AddNewSpriteGrowsLength(lists: seq<seq<Sprite>>, sprite: Sprite)
    requires 0 <= sprite.z < |lists|
    requires forall k :: 0 <= k < |lists| ==> sprite !in lists[k]
    ensures TotalLength(AddAll(lists, [sprite])) == TotalLength(lists) + 1
  {
    assert [sprite][..0] == [];
    TotalLengthUpdate(lists, sprite.z, lists[sprite.z] + [sprite]);
  }

  /** Adding a sprite already in its layer changes nothing. */
  lemma AddPresentSpriteChangesNothing(lists: seq<seq<Sprite>>, sprite: Sprite)
    requires 0 <= sprite.z < |lists| && sprite in lists[sprite.z]
    ensures AddAll(lists, [sprite]) == lists
  {
    assert [sprite][..0] == [];
  }

  // ---------------------------------------------------------------------------
  // AllSprites

  class AllSprites {
    const layers: seq<RenderLayer>

    ghost predicate Valid()
      reads this, layers
    {
      && (forall i, j :: 0 <= i < j < |layers| ==> layers[i] != layers[j])
      && (forall k :: 0 <= k < |layers| ==> layers[k].Valid())
    }

    /** The sprite list of every layer, in layer order. */
    function Sprites(): (r: seq<seq<Sprite>>)
      reads this, layers
      ensures |r| == |layers|
      ensures forall k :: 0 <= k < |layers| ==> r[k] == layers[k].spriteList
    {
      seq(|layers|, k requires 0 <= k < |layers| reads layers => layers[k].spriteList)
    }

    /** The persistent list of every layer, in layer order. */
    function Persistent(): (r: seq<seq<Sprite>>)
      reads this, layers
      ensures |r| == |layers|
      ensures forall k :: 0 <= k < |layers| ==> r[k] == layers[k].persistentList
    {
      seq(|layers|, k requires 0 <= k < |layers| reads layers => layers[k].persistentList)
    }

    /** `__init__`: one empty layer per `Layer` value, then the given sprites added. */
    constructor(layerCount: nat, sprites: seq<Sprite>)
      requires Routable(sprites, layerCount)
      ensures Valid() && |layers| == layerCount
      ensures forall k :: 0 <= k < layerCount ==> layers[k].layer == k && fresh(layers[k])
      ensures Sprites() == AddAll(seq(layerCount, k => []), sprites)
      ensures Persistent() == seq(layerCount, k => [])
    {
      var made: seq<RenderLayer> := [];
      for i := 0 to layerCount
        invariant |made| == i
        invariant forall k :: 0 <= k < i ==> fresh(made[k]) && made[k].layer == k
        invariant forall k :: 0 <= k < i ==> made[k].Valid() && made[k].spriteList == [] && made[k].persistentList == []
        invariant forall k, l :: 0 <= k < l < i ==> made[k] != made[l]
      {
        var layer := new RenderLayer(i);
        made := made + [layer];
      }
      layers := made;
      new;
      assert Sprites() == seq(layerCount, k => []);
      Add(sprites);
    }

    /** `__len__`: the sum of the layers' lengths, zero exactly when every layer is empty. */
    function Len(): (n: nat)
      reads this, layers
      ensures n == 0 <==> forall k :: 0 <= k < |layers| ==> layers[k].spriteList == []
      ensures forall k :: 0 <= k < |layers| ==> |layers[k].spriteList| <= n
    {
      TotalLengthZero(Sprites());
      TotalLengthBounds(Sprites());
      TotalLength(Sprites())
    }

    /** `__bool__`: the first sprite of the first non-empty layer, or `False`. */
    function Truthy(): (b: bool)
      reads this, layers
      ensures b <==> Len() > 0
    {
      TotalLengthZero(Sprites());
      exists k :: 0 <= k < |layers| && layers[k].spriteList != []
    }

    /** `__contains__`: whether some layer holds the sprite. */
    method Contains(sprite: Sprite) returns (found: bool)
      ensures found <==> exists k :: 0 <= k < |layers| && sprite in layers[k].spriteList
    {
      for k := 0 to |layers|
        invariant forall l :: 0 <= l < k ==> sprite !in layers[l].spriteList
      {
        if layers[k].Contains(sprite) {
          return true;
        }
      }
      return false;
    }

    /** `add`: each sprite goes to `layers[sprite.z]`, nowhere else. */
    method Add(sprites: seq<Sprite>)
      requires Valid() && Routable(sprites, |layers|)
      modifies layers
      ensures Valid()
      ensures Sprites() == AddAll(old(Sprites()), sprites)
      ensures Persistent() == old(Persistent())
    {
      for i := 0 to |sprites|
        invariant Valid()
        invariant Sprites() == AddAll(old(Sprites()), sprites[..i])
        invariant Persistent() == old(Persistent())
      {
        AddAllStep(old(Sprites()), sprites, i);
        AddOne(sprites[i]);
      }
      assert sprites[..|sprites|] == sprites;
    }

    /** One round of `add`'s loop: `layers[sprite.z]`, no other layer. */
    method AddOne(sprite: Sprite)
      requires Valid() && 0 <= sprite.z < |layers|
      modifies layers
      ensures Valid()
      ensures Sprites() == old(Sprites())[sprite.z := Added(old(Sprites())[sprite.z], sprite)]
      ensures Persistent() == old(Persistent())
    {
      layers[sprite.z].Add(sprite);
    }

    /** `add_persistent`: each sprite goes to both lists of `layers[sprite.z]`. */
    method AddPersistent(sprites: seq<Sprite>)
      requires Valid() && Routable(sprites, |layers|)
      modifies layers
      ensures Valid()
      ensures Sprites() == AddAll(old(Sprites()), sprites)
      ensures Persistent() == AddAll(old(Persistent()), sprites)
    {
      for i := 0 to |sprites|
        invariant Valid()
        invariant Sprites() == AddAll(old(Sprites()), sprites[..i])
        invariant Persistent() == AddAll(old(Persistent()), sprites[..i])
      {
        AddAllStep(old(Sprites()), sprites, i);
        AddAllStep(old(Persistent()), sprites, i);
        AddPersistentOne(sprites[i]);
      }
      assert sprites[..|sprites|] == sprites;
    }

    /** One round of `add_persistent`'s loop: both lists of `layers[sprite.z]`, no other layer. */
    method AddPersistentOne(sprite: Sprite)
      requires Valid() && 0 <= sprite.z < |layers|
      modifies layers
      ensures Valid()
      ensures Sprites() == old(Sprites())[sprite.z := Added(old(Sprites())[sprite.z], sprite)]
      ensures Persistent() == old(Persistent())[sprite.z := Added(old(Persistent())[sprite.z], sprite)]
    {
      layers[sprite.z].AddPersistent(sprite);
    }

    /** `remove`: each sprite is removed from `layers[sprite.z]` only. */
    method Remove(sprites: seq<Sprite>)
      requires Valid() && Routable(sprites, |layers|)
      modifies layers
      ensures Valid()
      ensures Sprites() == RemoveAll(old(Sprites()), sprites)
      ensures Persistent() == old(Persistent())
    {
      for i := 0 to |sprites|
        invariant Valid()
        invariant Sprites() == RemoveAll(old(Sprites()), sprites[..i])
        invariant Persistent() == old(Persistent())
      {
        RemoveAllStep(old(Sprites()), sprites, i);
        RemoveOne(sprites[i]);
      }
      assert sprites[..|sprites|] == sprites;
    }

    /** One round of `remove`'s loop: `layers[sprite.z]`, no other layer. */
    method RemoveOne(sprite: Sprite)
      requires Valid() && 0 <= sprite.z < |layers|
      modifies layers
      ensures Valid()
      ensures Sprites() == old(Sprites())[sprite.z := Without(old(Sprites())[sprite.z], {sprite})]
      ensures Persistent() == old(Persistent())
    {
      layers[sprite.z].Remove([sprite]);
      assert Elems([sprite]) == {sprite};
    }

    /** `empty`: every layer keeps exactly its persistent sprites that are still there. */
    method Empty()
      requires Valid()
      modifies layers
      ensures Valid()
      ensures Persistent() == old(Persistent())
      ensures forall k :: 0 <= k < |layers| ==>
        Sprites()[k] == Without(old(Sprites())[k], Elems(old(Sprites())[k]) - Elems(Persistent()[k]))
    {
      for i := 0 to |layers|
        invariant Valid()
        invariant Persistent() == old(Persistent())
        invariant forall k :: 0 <= k < i ==>
          Sprites()[k] == Without(old(Sprites())[k], Elems(old(Sprites())[k]) - Elems(Persistent()[k]))
        invariant forall k :: i <= k < |layers| ==> Sprites()[k] == old(Sprites())[k]
      {
        EmptyOne(i);
      }
    }

    /** One round of `empty`'s loop: `layers[k]` keeps its persistent sprites, no other layer changes. */
    method EmptyOne(k: nat)
      requires Valid() && k < |layers|
      modifies layers
      ensures Valid()
      ensures Persistent() == old(Persistent())
      ensures Sprites() == old(Sprites())[k := Without(old(Sprites())[k], Elems(old(Sprites())[k]) - Elems(Persistent()[k]))]
    {
      layers[k].Empty();
    }

    /** `empty_persistent`: every layer loses every sprite. */
    method EmptyPersistent()
      requires Valid()
      modifies layers
      ensures Valid()
      ensures Persistent() == old(Persistent())
      ensures Len() == 0
      ensures forall k :: 0 <= k < |layers| ==> Sprites()[k] == []
    {
      for i := 0 to |layers|
        invariant Valid()
        invariant Persistent() == old(Persistent())
        invariant forall k :: 0 <= k < i ==> Sprites()[k] == []
      {
        EmptyPersistentOne(i);
      }
      TotalLengthZero(Sprites());
    }

    /** One round of `empty_persistent`'s loop: `layers[k]` loses every sprite, no other layer changes. */
    method EmptyPersistentOne(k: nat)
      requires Valid() && k < |layers|
      modifies layers
      ensures Valid()
      ensures Persistent() == old(Persistent())
      ensures Sprites() == old(Sprites())[k := []]
    {
      layers[k].EmptyPersistent();
    }
  }

  // ---------------------------------------------------------------------------
  // PersistentSpriteGroup

  /**
   * A pygame `Group` (an unordered collection of sprites) with a list of
   * persistent sprites that `empty` puts back.
   */
  class PersistentSpriteGroup {
    var members: set<Sprite>
    var persistent: seq<Sprite>

    constructor(sprites: seq<Sprite>)
      ensures members == Elems(sprites) && persistent == []
    {
      members := Elems(sprites);
      persistent := [];
    }

    /** The inherited `Group.add`. */
    method Add(sprites: seq<Sprite>)
      modifies this`members
      ensures members == old(members) + Elems(sprites)
    {
      members := members + Elems(sprites);
    }

    /** `add_persistent`: into the group, and appended to the persistent list (repeats kept). */
    method AddPersistent(sprites: seq<Sprite>)
      modifies this
      ensures members == old(members) + Elems(sprites)
      ensures persistent == old(persistent) + sprites
    {
      Add(sprites);
      persistent := persistent + sprites;
    }

    /** `empty`: the group ends holding exactly the persistent sprites, also those removed before. */
    method Empty()
      modifies this`members
      ensures members == Elems(persistent)
    {
      members := {};
      Add(persistent);
    }

    /** `empty_persistent`: the group ends empty; the persistent list is kept for the next `empty`. */
    method EmptyPersistent()
      modifies this`members
      ensures members == {}
    {
      members := {};
    }
  }
}
