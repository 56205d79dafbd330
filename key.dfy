/**
 * Key names and chords of `src-tauri/src/utils/key.rs`: the table from key
 * names to Win32 virtual-key codes, and a chord as the ordered list of keys
 * written `A + B + C`.
 */
module Key {
  import opened Wrappers
  import opened Text

  /** A Win32 virtual-key code (`VIRTUAL_KEY`); every code in the table fits 8 bits. */
  type VirtualKey = int

  const VkReturn: VirtualKey := 0x0D
  const VkMenu: VirtualKey := 0x12
  const VkLMenu: VirtualKey := 0xA4
  const VkRMenu: VirtualKey := 0xA5
  const VkVolumeMute: VirtualKey := 0xAD
  const VkVolumeDown: VirtualKey := 0xAE
  const VkVolumeUp: VirtualKey := 0xAF

  /** The code of a letter or digit key is its upper-case ASCII code. */
  function AsciiKey(c: char): VirtualKey
    requires 'A' <= c <= 'Z' || '0' <= c <= '9'
  {
    c as int
  }

  /** `to_vk_code`: the code named by the upper-cased name, if the name is known. */
  function ToVkCode(name: string): Option<VirtualKey> {
    CodeOf(ToUpper(name))
  }

  /** The table of `to_vk_code`, indexed by upper-case name. */
  function CodeOf(upper: string): Option<VirtualKey> {
    match upper
    case "CTRL" => Some(0x11)
    case "LCTRL" => Some(0xA2)
    case "RCTRL" => Some(0xA3)
    case "SHIFT" => Some(0x10)
    case "LSHIFT" => Some(0xA0)
    case "RSHIFT" => Some(0xA1)
    case "ALT" => Some(VkMenu)
    case "LALT" => Some(VkLMenu)
    case "RALT" => Some(VkRMenu)
    case "A" => Some(AsciiKey('A'))
    case "B" => Some(AsciiKey('B'))
    case "C" => Some(AsciiKey('C'))
    case "D" => Some(AsciiKey('D'))
    case "E" => Some(AsciiKey('E'))
    case "F" => Some(AsciiKey('F'))
    case "G" => Some(AsciiKey('G'))
    case "H" => Some(AsciiKey('H'))
    case "I" => Some(AsciiKey('I'))
    case "J" => Some(AsciiKey('J'))
    case "K" => Some(AsciiKey('K'))
    case "L" => Some(AsciiKey('L'))
    case "M" => Some(AsciiKey('M'))
    case "N" => Some(AsciiKey('N'))
    case "O" => Some(AsciiKey('O'))
    case "P" => Some(AsciiKey('P'))
    case "Q" => Some(AsciiKey('Q'))
    case "R" => Some(AsciiKey('R'))
    case "S" => Some(AsciiKey('S'))
    case "T" => Some(AsciiKey('T'))
    case "U" => Some(AsciiKey('U'))
    case "V" => Some(AsciiKey('V'))
    case "W" => Some(AsciiKey('W'))
    case "X" => Some(AsciiKey('X'))
    case "Y" => Some(AsciiKey('Y'))
    case "Z" => Some(AsciiKey('Z'))
    case "0" => Some(AsciiKey('0'))
    case "1" => Some(AsciiKey('1'))
    case "2" => Some(AsciiKey('2'))
    case "3" => Some(AsciiKey('3'))
    case "4" => Some(AsciiKey('4'))
    case "5" => Some(AsciiKey('5'))
    case "6" => Some(AsciiKey('6'))
    case "7" => Some(AsciiKey('7'))
    case "8" => Some(AsciiKey('8'))
    case "9" => Some(AsciiKey('9'))
    case "F1" => Some(0x70)
    case "F2" => Some(0x71)
    case "F3" => Some(0x72)
    case "F4" => Some(0x73)
    case "F5" => Some(0x74)
    case "F6" => Some(0x75)
    case "F7" => Some(0x76)
    case "F8" => Some(0x77)
    case "F9" => Some(0x78)
    case "F10" => Some(0x79)
    case "F11" => Some(0x7A)
    case "F12" => Some(0x7B)
    case "NUM0" => Some(0x60)
    case "NUM1" => Some(0x61)
    case "NUM2" => Some(0x62)
    case "NUM3" => Some(0x63)
    case "NUM4" => Some(0x64)
    case "NUM5" => Some(0x65)
    case "NUM6" => Some(0x66)
    case "NUM7" => Some(0x67)
    case "NUM8" => Some(0x68)
    case "NUM9" => Some(0x69)
    case "NUMLOCK" => Some(0x90)
    case "NUMSLASH" => Some(0x6F)
    case "NUMMULTIPLY" => Some(0x6A)
    case "NUMMINUS" => Some(0x6D)
    case "NUMPLUS" => Some(0x6B)
    case "NUMENTER" => Some(VkReturn)
    case "NUMDECIMAL" => Some(0x6E)
    case "BACK" => Some(0x08)
    case "TAB" => Some(0x09)
    case "ENTER" => Some(VkReturn)
    case "SPACE" => Some(0x20)
    case "CAPSLOCK" => Some(0x14)
    case "ESC" => Some(0x1B)
    case "LEFT" => Some(0x25)
    case "RIGHT" => Some(0x27)
    case "UP" => Some(0x26)
    case "DOWN" => Some(0x28)
    case "HOME" => Some(0x24)
    case "END" => Some(0x23)
    case "PAGEUP" => Some(0x21)
    case "PAGEDOWN" => Some(0x22)
    case "INSERT" => Some(0x2D)
    case "DELETE" => Some(0x2E)
    case "PRINTSCREEN" => Some(0x2C)
    case "SCROLLLOCK" => Some(0x91)
    case "PAUSE" => Some(0x13)
    case "BREAK" => Some(0x03)
    case "MENU" => Some(VkMenu)
    case "LMENU" => Some(VkLMenu)
    case "RMENU" => Some(VkRMenu)
    case "LWIN" => Some(0x5B)
    case "RWIN" => Some(0x5C)
    case "APPS" => Some(0x5D)
    case "SLEEP" => Some(0x5F)
    case "ZOOM" => Some(0xFB)
    case "VOLUMEUP" => Some(VkVolumeUp)
    case "VOLUMEDOWN" => Some(VkVolumeDown)
    case "VOLUMEMUTE" => Some(VkVolumeMute)
    case "STOP" => Some(0xB2)
    case "PLAYPAUSE" => Some(0xB3)
    case "PREV" => Some(0xB1)
    case "NEXT" => Some(0xB0)
    case _ => None
  }

  /** Every casing of a name names the same key, or none. */
  lemma ToVkCodeIgnoresCase(name: string)
    ensures ToVkCode(ToLower(name)) == ToVkCode(name)
    ensures ToVkCode(ToUpper(name)) == ToVkCode(name)
  {
    UpperOfLower(name);
    assert ToUpper(ToUpper(name)) == ToUpper(name) by {
      forall i | 0 <= i < |name| ensures ToUpper(ToUpper(name))[i] == ToUpper(name)[i] {
        assert UpperChar(UpperChar(name[i])) == UpperChar(name[i]);
      }
    }
  }

  /** ALT and MENU name the same key. */
  lemma AltIsMenu()
    ensures ToVkCode("ALT") == ToVkCode("MENU") == Some(VkMenu)
  {
    UpperFixed("ALT");
    UpperFixed("MENU");
  }

  /** LALT and LMENU name the same key. */
  lemma LeftAltIsLeftMenu()
    ensures ToVkCode("LALT") == ToVkCode("LMENU") == Some(VkLMenu)
  {
    UpperFixed("LALT");
    UpperFixed("LMENU");
  }

  /** RALT and RMENU name the same key. */
  lemma RightAltIsRightMenu()
    ensures ToVkCode("RALT") == ToVkCode("RMENU") == Some(VkRMenu)
  {
    UpperFixed("RALT");
    UpperFixed("RMENU");
  }

  /** ENTER and NUMENTER name the same key. */
  lemma EnterIsNumEnter()
    ensures ToVkCode("ENTER") == ToVkCode("NUMENTER") == Some(VkReturn)
  {
    UpperFixed("ENTER");
    UpperFixed("NUMENTER");
  }

  /** A key: the name it was written with and its code. */
  datatype Key = Key(name: string, vkCode: VirtualKey)

  /** A chord: keys that must all be held, in the order they were written. */
  datatype KeyChord = KeyChord(keys: seq<Key>)

  /** Why building a key panicked: `Key::from_name` met a name it does not know. */
  datatype KeyError = UnknownKey(name: string)

  /** `Key::from_name`: the key with this name, or a panic for an unknown name. */
  function FromName(name: string): (r: Result<Key, KeyError>)
    ensures r.Ok? <==> ToVkCode(name).Some?
    ensures r.Ok? ==> r.value.name == name && r.value.vkCode == ToVkCode(name).value
    ensures r.Err? ==> r.error == UnknownKey(name)
  {
    match ToVkCode(name)
    case None => Err(UnknownKey(name))
    case Some(code) => Ok(Key(name, code))
  }

  /** The keys of the names, in order; the first unknown name panics. */
  function KeysFromNames(names: seq<string>): (r: Result<seq<Key>, KeyError>)
    ensures r.Ok? <==> forall i :: 0 <= i < |names| ==> ToVkCode(names[i]).Some?
    ensures r.Ok? ==> |r.value| == |names| && forall i :: 0 <= i < |names| ==>
      r.value[i] == Key(names[i], ToVkCode(names[i]).value)
    ensures r.Err? ==> exists i :: (0 <= i < |names| && r.error == UnknownKey(names[i])
      && ToVkCode(names[i]).None? && forall j :: 0 <= j < i ==> ToVkCode(names[j]).Some?)
  {
    if names == [] then Ok([])
    else
      match FromName(names[0])
      case Err(e) => Err(e)
      case Ok(key) =>
        match KeysFromNames(names[1..])
        case Err(e) => Err(e)
        case Ok(rest) => Ok([key] + rest)
  }

  /** The segments of `s` between `+` signs, each trimmed. */
  function Segments(s: string): (names: seq<string>)
    ensures |names| == |Split(s, '+')|
  {
    var parts := Split(s, '+');
    seq(|parts|, i requires 0 <= i < |parts| => Trim(parts[i]))
  }

  /**
   * `KeyChord::from_string`: one key per `+`-separated segment, trimmed, in
   * input order, duplicates kept; an unknown or empty segment panics.
   */
  function FromString(s: string): Result<KeyChord, KeyError> {
    match KeysFromNames(Segments(s))
    case Err(e) => Err(e)
    case Ok(keys) => Ok(KeyChord(keys))
  }

  function Names(keys: seq<Key>): (names: seq<string>)
    ensures |names| == |keys| && forall i :: 0 <= i < |keys| ==> names[i] == keys[i].name
  {
    seq(|keys|, i requires 0 <= i < |keys| => keys[i].name)
  }

  /** `KeyChord::to_string`: the key names joined with " + ". */
  function ChordToString(chord: KeyChord): string {
    Join(Names(chord.keys), " + ")
  }

  /** `KeyChord::is_pressed`: every key's code is among the pressed codes. */
  predicate IsPressed(chord: KeyChord, pressed: set<int>) {
    forall i :: 0 <= i < |chord.keys| ==> chord.keys[i].vkCode in pressed
  }

  function Codes(chord: KeyChord): set<int> {
    set i | 0 <= i < |chord.keys| :: chord.keys[i].vkCode
  }

  /**
   * A chord is pressed exactly when its set of codes is, so the order and
   * repetition of its keys do not matter, and the empty chord is always
   * pressed.
   */
  lemma IsPressedBySet(c1: KeyChord, c2: KeyChord, pressed: set<int>)
    ensures IsPressed(c1, pressed) <==> Codes(c1) <= pressed
    ensures Codes(c1) == Codes(c2) ==> (IsPressed(c1, pressed) <==> IsPressed(c2, pressed))
    ensures c1.keys == [] ==> IsPressed(c1, pressed)
  {
    if Codes(c1) <= pressed {
      forall i | 0 <= i < |c1.keys| ensures c1.keys[i].vkCode in pressed {
        assert c1.keys[i].vkCode in Codes(c1);
      }
    }
    if Codes(c2) <= pressed {
      forall i | 0 <= i < |c2.keys| ensures c2.keys[i].vkCode in pressed {
        assert c2.keys[i].vkCode in Codes(c2);
      }
    }
  }

  // ----- Printing and re-parsing a chord -----

  /** A trimmed piece of a string without `c` does not hold `c` either. */
  lemma TrimKeepsOut(s: string, c: char)
    requires c !in s
    ensures c !in Trim(s)
  {
    var a := SkipForward(s, 0);
    var r := Trim(s);
    assert r == s[a..SkipBackward(s, a, |s|)];
    forall i | 0 <= i < |r| ensures r[i] != c {
      assert r[i] == s[a + i];
    }
  }

  /** Each name of a printed chord, with the spaces that " + " puts around it. */
  function Padded(names: seq<string>, i: nat): string
    requires i < |names|
  {
    (if i > 0 then " " else "") + names[i] + (if i < |names| - 1 then " " else "")
  }

  function AllPadded(names: seq<string>, from: nat): (r: seq<string>)
    requires from <= |names|
    ensures |r| == |names| - from
    ensures forall k :: 0 <= k < |r| ==> r[k] == Padded(names, from + k)
    decreases |names| - from
  {
    if from == |names| then [] else [Padded(names, from)] + AllPadded(names, from + 1)
  }

  /** Joining with " + " is joining the space-padded names with "+". */
  lemma {:induction false} JoinPadded(names: seq<string>, from: nat)
    requires from < |names|
    ensures (if from > 0 then " " else "") + Join(names[from..], " + ") == Join(AllPadded(names, from), "+")
    decreases |names| - from
  {
    var pre := if from > 0 then " " else "";
    if from == |names| - 1 {
      assert names[from..] == [names[from]];
      assert AllPadded(names, from) == [Padded(names, from)];
    } else {
      JoinPadded(names, from + 1);
      assert names[from..][1..] == names[from + 1..];
      var rest := Join(names[from + 1..], " + ");
      assert Join(names[from..], " + ") == names[from] + " + " + rest;
      var padded := AllPadded(names, from);
      assert padded[1..] == AllPadded(names, from + 1);
      assert Join(padded, "+") == Padded(names, from) + "+" + Join(padded[1..], "+");
      assert pre + (names[from] + " + " + rest) == (pre + names[from] + " ") + "+" + (" " + rest);
    }
  }

  /** A padded name holds no `+` and trims back to the name. */
  lemma PaddedName(names: seq<string>, k: nat)
    requires k < |names| && IsTrimmed(names[k]) && '+' !in names[k]
    ensures '+' !in Padded(names, k) && Trim(Padded(names, k)) == names[k]
  {
    var pre := if k > 0 then " " else "";
    var post := if k < |names| - 1 then " " else "";
    assert AllWhitespace(pre) && AllWhitespace(post);
    assert '+' !in pre && '+' !in post;
    TrimPadded(pre, names[k], post);
  }

  /** Trimming each padded name recovers the names. */
  lemma SegmentsOfPadded(names: seq<string>, joined: string)
    requires forall k :: 0 <= k < |names| ==> IsTrimmed(names[k]) && '+' !in names[k]
    requires Split(joined, '+') == AllPadded(names, 0)
    ensures Segments(joined) == names
  {
    var padded := AllPadded(names, 0);
    var segments := Segments(joined);
    forall k | 0 <= k < |names| ensures segments[k] == names[k] {
      assert segments[k] == Trim(padded[k]);
      PaddedName(names, k);
    }
  }

  /** No padded name holds a `+`. */
  lemma PaddedKeepOut(names: seq<string>)
    requires forall k :: 0 <= k < |names| ==> IsTrimmed(names[k]) && '+' !in names[k]
    ensures forall k :: 0 <= k < |names| ==> '+' !in AllPadded(names, 0)[k]
  {
    forall k | 0 <= k < |names| ensures '+' !in AllPadded(names, 0)[k] {
      PaddedName(names, k);
    }
  }

  /** Joining names with " + " splits on `+` into the padded names. */
  lemma SplitOfJoin(names: seq<string>)
    requires |names| >= 1
    requires forall k :: 0 <= k < |names| ==> '+' !in AllPadded(names, 0)[k]
    ensures Split(Join(names, " + "), '+') == AllPadded(names, 0)
  {
    JoinPadded(names, 0);
    assert names[0..] == names;
    assert Join(names, " + ") == Join(AllPadded(names, 0), ['+']);
    SplitJoin(AllPadded(names, 0), '+');
  }

  /** Trimmed names without `+`, joined with " + ", split back into themselves. */
  lemma SegmentsOfJoin(names: seq<string>)
    requires |names| >= 1
    requires forall k :: 0 <= k < |names| ==> IsTrimmed(names[k]) && '+' !in names[k]
    ensures Segments(Join(names, " + ")) == names
  {
    PaddedKeepOut(names);
    SplitOfJoin(names);
    SegmentsOfPadded(names, Join(names, " + "));
  }

  /**
   * Printing a parsed chord and parsing the text again gives the same
   * chord: the same names, in the same order, with the same codes.
   */
  lemma ChordToStringRoundTrip(s: string)
    requires FromString(s).Ok?
    ensures FromString(ChordToString(FromString(s).value)) == FromString(s)
  {
    var names := Segments(s);
    var keys := KeysFromNames(names).value;
    assert FromString(s).value == KeyChord(keys);
    assert Names(keys) == names;
    forall k | 0 <= k < |names| ensures IsTrimmed(names[k]) && '+' !in names[k] {
      TrimKeepsOut(Split(s, '+')[k], '+');
    }
    SegmentsOfJoin(names);
    assert Segments(ChordToString(KeyChord(keys))) == names;
  }
}
