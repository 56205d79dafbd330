/**
 * Chords of `src-tauri/src/utils/keyboard.rs`: a `+`-separated name string
 * parsed into a set of `inputbot` keys, and the test that all of them are
 * held.
 */
module Keyboard {
  import opened Wrappers
  import opened Text

  /** The `inputbot::KeybdKey` keys the program names; `OtherKey` stands for the rest. */
  datatype KeybdKey =
    | LControlKey | LShiftKey | LAltKey | RControlKey | RShiftKey | RAltKey | UpKey | DownKey
    | LeftKey | RightKey | HomeKey | EndKey | PageUpKey | PageDownKey | BackspaceKey | TabKey
    | EnterKey | EscapeKey | SpaceKey | DeleteKey | InsertKey | Numrow0Key | Numrow1Key
    | Numrow2Key | Numrow3Key | Numrow4Key | Numrow5Key | Numrow6Key | Numrow7Key | Numrow8Key
    | Numrow9Key | AKey | BKey | CKey | DKey | EKey | FKey | GKey | HKey | IKey | JKey | KKey
    | LKey | MKey | NKey | OKey | PKey | QKey | RKey | SKey | TKey | UKey | VKey | WKey | XKey
    | YKey | ZKey | F1Key | F2Key | F3Key | F4Key | F5Key | F6Key | F7Key | F8Key | F9Key
    | F10Key | F11Key | F12Key | F13Key | F14Key | F15Key | F16Key | F17Key | F18Key | F19Key
    | F20Key | F21Key | F22Key | F23Key | F24Key | NumLockKey | CapsLockKey | ScrollLockKey
    | SemicolonKey | EqualKey | MinusKey | PeriodKey | CommaKey | SlashKey | BackquoteKey
    | QuoteKey | BackslashKey | LBracketKey | RBracketKey | VolumeMuteKey | VolumeDownKey
    | VolumeUpKey | OtherKey(code: int)

  /** The table of `parse_key_chord`, indexed by a trimmed, lower-case segment. */
  function KeyOfName(lower: string): Option<KeybdKey> {
    match lower
    case "ctrl" => Some(LControlKey)
    case "shift" => Some(LShiftKey)
    case "alt" => Some(LAltKey)
    case "up" => Some(UpKey)
    case "down" => Some(DownKey)
    case "left" => Some(LeftKey)
    case "right" => Some(RightKey)
    case "home" => Some(HomeKey)
    case "end" => Some(EndKey)
    case "pageup" => Some(PageUpKey)
    case "pagedown" => Some(PageDownKey)
    case "backspace" => Some(BackspaceKey)
    case "tab" => Some(TabKey)
    case "enter" => Some(EnterKey)
    case "escape" => Some(EscapeKey)
    case "space" => Some(SpaceKey)
    case "delete" => Some(DeleteKey)
    case "insert" => Some(InsertKey)
    case "num0" => Some(Numrow0Key)
    case "num1" => Some(Numrow1Key)
    case "num2" => Some(Numrow2Key)
    case "num3" => Some(Numrow3Key)
    case "num4" => Some(Numrow4Key)
    case "num5" => Some(Numrow5Key)
    case "num6" => Some(Numrow6Key)
    case "num7" => Some(Numrow7Key)
    case "num8" => Some(Numrow8Key)
    case "num9" => Some(Numrow9Key)
    case "a" => Some(AKey)
    case "b" => Some(BKey)
    case "c" => Some(CKey)
    case "d" => Some(DKey)
    case "e" => Some(EKey)
    case "f" => Some(FKey)
    case "g" => Some(GKey)
    case "h" => Some(HKey)
    case "i" => Some(IKey)
    case "j" => Some(JKey)
    case "k" => Some(KKey)
    case "l" => Some(LKey)
    case "m" => Some(MKey)
    case "n" => Some(NKey)
    case "o" => Some(OKey)
    case "p" => Some(PKey)
    case "q" => Some(QKey)
    case "r" => Some(RKey)
    case "s" => Some(SKey)
    case "t" => Some(TKey)
    case "u" => Some(UKey)
    case "v" => Some(VKey)
    case "w" => Some(WKey)
    case "x" => Some(XKey)
    case "y" => Some(YKey)
    case "z" => Some(ZKey)
    case "f1" => Some(F1Key)
    case "f2" => Some(F2Key)
    case "f3" => Some(F3Key)
    case "f4" => Some(F4Key)
    case "f5" => Some(F5Key)
    case "f6" => Some(F6Key)
    case "f7" => Some(F7Key)
    case "f8" => Some(F8Key)
    case "f9" => Some(F9Key)
    case "f10" => Some(F10Key)
    case "f11" => Some(F11Key)
    case "f12" => Some(F12Key)
    case "f13" => Some(F13Key)
    case "f14" => Some(F14Key)
    case "f15" => Some(F15Key)
    case "f16" => Some(F16Key)
    case "f17" => Some(F17Key)
    case "f18" => Some(F18Key)
    case "f19" => Some(F19Key)
    case "f20" => Some(F20Key)
    case "f21" => Some(F21Key)
    case "f22" => Some(F22Key)
    case "f23" => Some(F23Key)
    case "f24" => Some(F24Key)
    case "numlock" => Some(NumLockKey)
    case "capslock" => Some(CapsLockKey)
    case "scrolllock" => Some(ScrollLockKey)
    case "semicolon" => Some(SemicolonKey)
    case "equal" => Some(EqualKey)
    case "minus" => Some(MinusKey)
    case "period" => Some(PeriodKey)
    case "comma" => Some(CommaKey)
    case "slash" => Some(SlashKey)
    case "backtick" => Some(BackquoteKey)
    case "quote" => Some(QuoteKey)
    case "backslash" => Some(BackslashKey)
    case "lbracket" => Some(LBracketKey)
    case "rbracket" => Some(RBracketKey)
    case "volumemute" => Some(VolumeMuteKey)
    case "volumedown" => Some(VolumeDownKey)
    case "volumeup" => Some(VolumeUpKey)
    case _ => None
  }

  /** The `+`-separated segments of a chord string, each trimmed and lower-cased. */
  function NormalizedSegments(chord: string): (names: seq<string>)
    ensures |names| == |Split(chord, '+')|
  {
    var parts := Split(chord, '+');
    seq(|parts|, i requires 0 <= i < |parts| => ToLower(Trim(parts[i])))
  }

  /** The keys that `table` gives the names; names it does not know are dropped. */
  function KeysOf(names: seq<string>, table: string -> Option<KeybdKey>): (keys: set<KeybdKey>)
    ensures forall k :: k in keys <==> exists i :: 0 <= i < |names| && table(names[i]) == Some(k)
  {
    if names == [] then {}
    else
      var rest := KeysOf(names[1..], table);
      assert forall i :: 1 <= i < |names| ==> names[i] == names[1..][i - 1];
      match table(names[0])
      case None => rest
      case Some(k) => {k} + rest
  }

  /** `parse_key_chord`: the set of known keys named by the chord's segments. */
  function ParseKeyChord(chord: string): set<KeybdKey> {
    KeysOf(NormalizedSegments(chord), KeyOfName)
  }

  /** `is_chord_pressed`, with the pressed keys passed in: every key of the chord is held. */
  predicate IsChordPressed(chord: set<KeybdKey>, pressed: set<KeybdKey>) {
    forall k :: k in chord ==> k in pressed
  }

  /** Only the names a table knows contribute, so a chord naming none of them is empty. */
  lemma KeysOfUnknown(names: seq<string>, table: string -> Option<KeybdKey>)
    requires forall i :: 0 <= i < |names| ==> table(names[i]).None?
    ensures KeysOf(names, table) == {}
  {
  }

  /**
   * The result is a set: names given in another order, or repeated, give
   * the same keys.
   */
  lemma KeysOfBySet(a: seq<string>, b: seq<string>, table: string -> Option<KeybdKey>)
    requires forall n :: n in a <==> n in b
    ensures KeysOf(a, table) == KeysOf(b, table)
  {
    forall k | k in KeysOf(a, table) ensures k in KeysOf(b, table) {
      var i :| 0 <= i < |a| && table(a[i]) == Some(k);
      assert a[i] in b;
      var j :| 0 <= j < |b| && b[j] == a[i];
    }
    forall k | k in KeysOf(b, table) ensures k in KeysOf(a, table) {
      var j :| 0 <= j < |b| && table(b[j]) == Some(k);
      assert b[j] in a;
      var i :| 0 <= i < |a| && a[i] == b[j];
    }
  }

  /** Splitting segments joined with `+` and normalizing them, one at a time. */
  lemma NormalizedOfJoin(parts: seq<string>)
    requires |parts| >= 1
    requires forall k :: 0 <= k < |parts| ==> '+' !in parts[k]
    ensures |NormalizedSegments(Join(parts, "+"))| == |parts|
    ensures forall k :: 0 <= k < |parts| ==> NormalizedSegments(Join(parts, "+"))[k] == ToLower(Trim(parts[k]))
  {
    SplitJoin(parts, '+');
    assert "+" == ['+'];
  }

  /**
   * Segments are trimmed and lower-cased before lookup: two chords whose
   * segments agree up to padding and letter case ("Ctrl + M", "ctrl+m")
   * parse to the same set.
   */
  lemma ParseIgnoresCaseAndPadding(a: seq<string>, b: seq<string>)
    requires |a| == |b| >= 1
    requires forall k :: 0 <= k < |a| ==> '+' !in a[k] && '+' !in b[k]
    requires forall k :: 0 <= k < |a| ==> ToLower(Trim(a[k])) == ToLower(Trim(b[k]))
    ensures ParseKeyChord(Join(a, "+")) == ParseKeyChord(Join(b, "+"))
  {
    NormalizedOfJoin(a);
    NormalizedOfJoin(b);
    assert NormalizedSegments(Join(a, "+")) == NormalizedSegments(Join(b, "+"));
  }

  /** A single segment that is already trimmed and lower-case parses to its own key, if any. */
  lemma ParseSingleName(name: string)
    requires '+' !in name && IsTrimmed(name)
    requires forall i :: 0 <= i < |name| ==> !('A' <= name[i] <= 'Z')
    ensures ParseKeyChord(name) == if KeyOfName(name).Some? then {KeyOfName(name).value} else {}
  {
    SplitWithout(name, '+');
    TrimPadded([], name, []);
    assert [] + name + [] == name;
    LowerFixed(name);
    assert NormalizedSegments(name) == [name];
  }

  /** The empty string, a single empty segment, names no key. */
  lemma ParseEmpty()
    ensures ParseKeyChord("") == {}
  {
    ParseSingleName("");
  }

  /** "ctrl", "shift" and "alt" name the left-hand keys; "Ctrl" alone parses to left control. */
  lemma ModifierNamesAreLeft()
    ensures KeyOfName("ctrl") == Some(LControlKey)
    ensures KeyOfName("shift") == Some(LShiftKey)
    ensures KeyOfName("alt") == Some(LAltKey)
    ensures ParseKeyChord("ctrl") == {LControlKey}
  {
    ParseSingleName("ctrl");
  }

  /** The volume names name the media keys. */
  lemma VolumeNamesAreMediaKeys()
    ensures KeyOfName("volumeup") == Some(VolumeUpKey)
    ensures KeyOfName("volumedown") == Some(VolumeDownKey)
    ensures KeyOfName("volumemute") == Some(VolumeMuteKey)
  {
  }

  /** No name gives a right-hand modifier, so no parsed chord holds one. */
  lemma NoRightModifiers(chord: string)
    ensures RControlKey !in ParseKeyChord(chord)
    ensures RShiftKey !in ParseKeyChord(chord)
    ensures RAltKey !in ParseKeyChord(chord)
  {
    var names := NormalizedSegments(chord);
    forall i | 0 <= i < |names|
      ensures KeyOfName(names[i]) != Some(RControlKey)
      ensures KeyOfName(names[i]) != Some(RShiftKey)
      ensures KeyOfName(names[i]) != Some(RAltKey)
    {
    }
  }

  /** A chord is pressed exactly when it is a subset of the pressed keys; the empty chord always is. */
  lemma IsChordPressedSubset(chord: set<KeybdKey>, pressed: set<KeybdKey>)
    ensures IsChordPressed(chord, pressed) <==> chord <= pressed
    ensures IsChordPressed({}, pressed)
  {
  }
}
