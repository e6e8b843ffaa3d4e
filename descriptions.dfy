/**
 * The key-binding panel of the settings menu (src/GUI/descriptions.py):
 * the lookups from key codes to the symbol shown on a key and to its image, the
 * layout of the key rows, picking a row with the mouse and rebinding it.
 *
 * Key codes are pygame's integer key constants.  Images stand for themselves
 * by their file path; loading, scaling and drawing them is outside the model.
 */
module Descriptions {
  import opened Wrappers

  // ---------------------------------------------------------------------------
  // Lookups

  // pygame's key codes (SDL2 keycodes) of the keys that have their own image.
  const K_SPACE := 32
  const K_LCTRL := 0x4000_00E0
  const K_LEFT := 0x4000_0050
  const K_UP := 0x4000_0052
  const K_DOWN := 0x4000_0051
  const K_RIGHT := 0x4000_004F

  const GenericImage := "images/keys/generic.svg"

  /** The keys `get_path` shows with an image of their own. */
  const SpecialKeys: map<int, string> := map[
    K_SPACE := "images/keys/space.svg",
    K_LCTRL := "images/keys/lctrl.png",
    K_LEFT := "images/keys/left.png",
    K_UP := "images/keys/up.svg",
    K_DOWN := "images/keys/down.svg",
    K_RIGHT := "images/keys/right.svg"
  ]

  /** The characters `is_generic` accepts, in the order they are listed: letters, digits, punctuation. */
  const GenericSymbols := Letters + Digits + Punctuation
  const Letters := "ABCDEFGHIJKLMNOPQRSTUVWXYZ"
  const Digits := "1234567890"
  const Punctuation := "!@#$%^&*()_+-=[]{}|;':,.<>/?"

  /** `get_path`: the image of a key, the generic one for no key and for any key without its own. */
  function GetPath(key: Option<int>): (path: string)
    ensures key.Some? && key.value in SpecialKeys ==> path == SpecialKeys[key.value]
    ensures key.None? || key.value !in SpecialKeys ==> path == GenericImage
  {
    match key
    case None => GenericImage
    case Some(k) => if k in SpecialKeys then SpecialKeys[k] else GenericImage
  }

  /** Only the six special keys get an image other than the generic one, and no two of them share one. */
  lemma GetPathSpecialImages(k: int, j: int)
    ensures GetPath(Some(k)) != GenericImage <==> k in SpecialKeys
    ensures k in SpecialKeys && j in SpecialKeys && k != j ==> GetPath(Some(k)) != GetPath(Some(j))
  {
    if k in SpecialKeys {
      assert SpecialKeys[k] != GenericImage by {
        assert SpecialKeys[k][12] != GenericImage[12];
      }
    }
    if k in SpecialKeys && j in SpecialKeys && k != j {
      assert SpecialKeys[k][12] != SpecialKeys[j][12] || SpecialKeys[k][13] != SpecialKeys[j][13];
    }
  }

  /** `str(d)` for a single decimal digit. */
  function DigitString(d: int): string
    requires 0 <= d < 10
  {
    ["0123456789"[d]]
  }

  /**
   * `value_to_unicode`: the symbol shown on a key, its digit for the codes
   * of 0 to 9 and its capital letter for the codes of a to z; nothing else
   * has one.
   */
  function ValueToUnicode(value: Option<int>): (symbol: Option<string>)
    ensures symbol.Some? <==> value.Some? && (48 <= value.value < 58 || 97 <= value.value < 123)
    ensures symbol.Some? && value.value < 58 ==> symbol.value == [value.value as char] && '0' <= symbol.value[0] <= '9'
    ensures symbol.Some? && value.value >= 97 ==>
      symbol.value == [(value.value - 32) as char] && 'A' <= symbol.value[0] <= 'Z'
  {
    match value
    case None => None
    case Some(v) =>
      if 48 <= v < 58 then Some(DigitString(v - 48))
      else if 97 <= v < 123 then Some([(v - 32) as char])
      else None
  }

  /** `sub` occurs in `s` starting at index `i`. */
  predicate OccursAt(sub: string, s: string, i: int) {
    0 <= i && i + |sub| <= |s| && s[i..i + |sub|] == sub
  }

  /** Whether `sub` occurs in `s` as a contiguous run, starting at index `from` or later. */
  function OccursFrom(sub: string, s: string, from: nat): (b: bool)
    requires from <= |s|
    ensures b <==> exists i :: from <= i && OccursAt(sub, s, i)
    decreases |s| - from
  {
    if |s| - from < |sub| then false
    else if s[from..from + |sub|] == sub then assert OccursAt(sub, s, from); true
    else OccursFrom(sub, s, from + 1)
  }

  /** `is_generic`: Python's substring test of the symbol against the listed characters. */
  function IsGeneric(symbol: string): (b: bool)
    ensures b <==> exists i :: OccursAt(symbol, GenericSymbols, i)
  {
    OccursFrom(symbol, GenericSymbols, 0)
  }

  /** The empty symbol (the text of a key that types nothing) counts as generic, and so does any run of the listing. */
  lemma IsGenericAcceptsRuns()
    ensures IsGeneric("")
    ensures IsGeneric("XYZ1")
  {
    assert OccursAt("", GenericSymbols, 0);
    assert OccursAt("XYZ1", GenericSymbols, 23);
  }

  /** No listed character is a lower-case letter. */
  lemma NoLowerCaseListed(j: int)
    requires 0 <= j < |GenericSymbols|
    ensures !('a' <= GenericSymbols[j] <= 'z')
  {
  }

  /** A symbol with a lower-case letter anywhere in it is never generic: `set_key` relies on upper-casing first. */
  lemma IsGenericRejectsLowerCase(symbol: string, k: int)
    requires 0 <= k < |symbol| && 'a' <= symbol[k] <= 'z'
    ensures !IsGeneric(symbol)
  {
    if IsGeneric(symbol) {
      var i :| OccursAt(symbol, GenericSymbols, i);
      assert GenericSymbols[i + k] == GenericSymbols[i..i + |symbol|][k] == symbol[k];
      NoLowerCaseListed(i + k);
      assert false;
    }
  }

  /** Every symbol `value_to_unicode` produces would be kept by `set_key`. */
  lemma UnicodeSymbolsAreGeneric(value: Option<int>)
    requires ValueToUnicode(value).Some?
    ensures IsGeneric(ValueToUnicode(value).value)
  {
    var v := value.value;
    var symbol := ValueToUnicode(value).value;
    var i := if v >= 97 then v - 97 else if v == 48 then 35 else v - 49 + 26;
    assert GenericSymbols[i] == symbol[0];
    assert OccursAt(symbol, GenericSymbols, i);
  }

  // ---------------------------------------------------------------------------
  // Key rows

  datatype Pos = Pos(x: int, y: int)

  const RowWidth := 300
  const RowHeight := 50

  /** `KeySetup.hover`: the mouse, moved back by the panel's offset, lies in the row's rectangle (right and bottom edges excluded). */
  predicate Hovers(pos: Pos, offset: Pos, mouse: Pos) {
    var x, y := mouse.x - offset.x, mouse.y - offset.y;
    pos.x <= x < pos.x + RowWidth && pos.y <= y < pos.y + RowHeight
  }

  /** Where `create_keybinds` puts the row with index `index`. */
  function RowPos(index: int): (pos: Pos)
    ensures pos.x == 10 && pos.y == 10 + 60 * index
  {
    Pos(10, 10 + 60 * index)
  }

  /** The rows laid out by `create_keybinds` do not overlap: the mouse is over at most one of them. */
  lemma RowsDoNotOverlap(i: int, j: int, offset: Pos, mouse: Pos)
    requires Hovers(RowPos(i), offset, mouse) && Hovers(RowPos(j), offset, mouse)
    ensures i == j
  {
    var y := mouse.y - offset.y;
    assert 10 + 60 * i <= y < 60 + 60 * i;
    assert 10 + 60 * j <= y < 60 + 60 * j;
  }

  /** One row of the panel: a key's name, its bound key code, the symbol and image shown for it. */
  class KeySetup {
    const keyName: string
    const pos: Pos
    var keyValue: Option<int>
    var keySymbol: Option<string>
    var symbolImage: string

    constructor(keyName: string, keyValue: Option<int>, pos: Pos, symbolImage: string)
      ensures this.keyName == keyName && this.keyValue == keyValue && this.pos == pos
      ensures this.symbolImage == symbolImage && keySymbol.None?
    {
      this.keyName := keyName;
      this.keyValue := keyValue;
      this.pos := pos;
      this.symbolImage := symbolImage;
      keySymbol := None;
    }
  }

  /** The index of the first row the mouse is over, if any. */
  function FirstHovered(rows: seq<KeySetup>, offset: Pos, mouse: Pos): (r: Option<nat>)
    ensures r.Some? ==> r.value < |rows| && Hovers(rows[r.value].pos, offset, mouse)
    ensures r.Some? ==> forall k :: 0 <= k < r.value ==> !Hovers(rows[k].pos, offset, mouse)
    ensures r.None? <==> forall k :: 0 <= k < |rows| ==> !Hovers(rows[k].pos, offset, mouse)
  {
    if rows == [] then None
    else if Hovers(rows[0].pos, offset, mouse) then Some(0)
    else match FirstHovered(rows[1..], offset, mouse)
      case None => None
      case Some(k) => Some(k + 1)
  }

  /** `row` is what `create_keybinds` makes for the binding with index `index`. */
  predicate IsRowFor(row: KeySetup, binding: (string, Option<int>), index: int)
    reads row
  {
    && row.keyName == binding.0 && row.keyValue == binding.1
    && row.pos == RowPos(index)
    && row.keySymbol == ValueToUnicode(binding.1)
    && row.symbolImage == GetPath(binding.1)
  }

  /** One round of `create_keybinds`' loop: the row for the binding with index `index`. */
  method NewRow(binding: (string, Option<int>), index: int) returns (row: KeySetup)
    ensures fresh(row) && IsRowFor(row, binding, index)
  {
    var (keyName, keyValue) := binding;
    row := new KeySetup(keyName, keyValue, RowPos(index), GetPath(keyValue));
    row.keySymbol := ValueToUnicode(keyValue);
  }

  /** The events the panel reacts to: a key press with its upper-cased text, a mouse press, anything else. */
  datatype Event = KeyDown(key: int, upper: string) | MouseButtonDown | OtherEvent

  /** The key-binding panel: its rows and the row selected for rebinding. */
  class KeybindsDescription {
    var keysGroup: seq<KeySetup>
    var keySetup: KeySetup?

    constructor()
      ensures keysGroup == [] && keySetup == null
    {
      keysGroup := [];
      keySetup := null;
    }

    /**
     * `create_keybinds`: one row per binding, in the bindings' order, the
     * i-th at (10, 10 + 60 i), showing its key's symbol and image.
     */
    method CreateKeybinds(keybinds: seq<(string, Option<int>)>)
      modifies this
      ensures keySetup == old(keySetup)
      ensures |keysGroup| == |old(keysGroup)| + |keybinds|
      ensures keysGroup[..|old(keysGroup)|] == old(keysGroup)
      ensures forall row :: row in keysGroup[|old(keysGroup)|..] ==> fresh(row)
      ensures forall i :: 0 <= i < |keybinds| ==> IsRowFor(keysGroup[|old(keysGroup)| + i], keybinds[i], i)
    {
      var n0 := |keysGroup|;
      for index := 0 to |keybinds|
        invariant |keysGroup| == n0 + index
        invariant keysGroup[..n0] == old(keysGroup) && keySetup == old(keySetup)
        invariant forall row :: row in keysGroup[n0..] ==> fresh(row)
        invariant forall i :: 0 <= i < index ==> IsRowFor(keysGroup[n0 + i], keybinds[i], i)
      {
        var row := NewRow(keybinds[index], index);
        ghost var before := keysGroup;
        keysGroup := keysGroup + [row];
        assert keysGroup[n0..] == before[n0..] + [row];
      }
    }

    /**
     * `select_keySetup`: on a press of the left mouse button, selects the
     * first row under the mouse, or clears the selection when there is none;
     * any other event leaves the selection alone.
     */
    method SelectKeySetup(event: Event, leftPressed: bool, offset: Pos, mouse: Pos)
      modifies this
      ensures keysGroup == old(keysGroup)
      ensures !(event.MouseButtonDown? && leftPressed) ==> keySetup == old(keySetup)
      ensures event.MouseButtonDown? && leftPressed ==>
        match FirstHovered(keysGroup, offset, mouse)
        case None => keySetup == null
        case Some(i) => keySetup == keysGroup[i]
    {
      if event.MouseButtonDown? && leftPressed {
        for i := 0 to |keysGroup|
          invariant forall k :: 0 <= k < i ==> !Hovers(keysGroup[k].pos, offset, mouse)
        {
          if Hovers(keysGroup[i].pos, offset, mouse) {
            keySetup := keysGroup[i];
            return;
          }
        }
        keySetup := null;
      }
    }

    /**
     * `set_key`: when a row is selected and a key is pressed, binds the row to
     * that key, shows the key's text if it is generic and its image, and ends
     * the selection; otherwise nothing changes.
     */
    method SetKey(event: Event)
      modifies this, keySetup
      ensures keysGroup == old(keysGroup)
      ensures old(keySetup) == null || !event.KeyDown? ==> keySetup == old(keySetup)
      ensures old(keySetup) != null && !event.KeyDown? ==> unchanged(old(keySetup))
      ensures old(keySetup) != null && event.KeyDown? ==>
        && keySetup == null
        && old(keySetup).keyValue == Some(event.key)
        && old(keySetup).keySymbol == (if IsGeneric(event.upper) then Some(event.upper) else None)
        && old(keySetup).symbolImage == GetPath(Some(event.key))
    {
      if keySetup != null && event.KeyDown? {
        var symbol := event.upper;
        var path := GetPath(Some(event.key));
        keySetup.keySymbol := if IsGeneric(symbol) then Some(symbol) else None;
        keySetup.symbolImage := path;
        keySetup.keyValue := Some(event.key);
        keySetup := null;
      }
    }
  }
}
