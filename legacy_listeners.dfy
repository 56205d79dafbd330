/**
 * The older `inputbot` listener of `src-tauri/src/event_listeners.rs`: its
 * own chord table, the modifier test, the keybind list built from the
 * configured sessions, the matching loop run on every key event, and the
 * dispatch of an action name.
 */
module LegacyListeners {
  import opened Wrappers
  import opened Text
  import opened Config
  import opened Actions
  import opened Keyboard

  /** The names of the media keys, which this table does not know. */
  predicate IsMediaName(lower: string) {
    lower == "volumeup" || lower == "volumedown" || lower == "volumemute"
  }

  /** This file's `parse_key_chord` table: the same entries as `keyboard.rs` except the three media-key names. */
  function LegacyKeyOfName(lower: string): Option<KeybdKey> {
    if IsMediaName(lower) then None else KeyOfName(lower)
  }

  predicate IsMediaKey(k: KeybdKey) {
    k == VolumeUpKey || k == VolumeDownKey || k == VolumeMuteKey
  }

  /** Only the media-key names name the media keys. */
  lemma MediaKeyOnlyByName(lower: string)
    requires KeyOfName(lower).Some? && IsMediaKey(KeyOfName(lower).value)
    ensures IsMediaName(lower)
  {
  }

  /** `parse_key_chord`: trim and lower-case every `+` segment and keep the keys this table knows. */
  function LegacyParseKeyChord(chord: string): set<KeybdKey> {
    KeysOf(NormalizedSegments(chord), LegacyKeyOfName)
  }

  /** Dropping a table's answers in `drop` drops exactly those keys from the parsed set. */
  lemma KeysOfWithout(names: seq<string>, full: string -> Option<KeybdKey>, part: string -> Option<KeybdKey>, drop: set<KeybdKey>)
    requires forall n :: part(n) == if full(n).Some? && full(n).value in drop then None else full(n)
    ensures KeysOf(names, part) == KeysOf(names, full) - drop
  {
    forall k | k in KeysOf(names, part) ensures k in KeysOf(names, full) - drop {
      var i :| 0 <= i < |names| && part(names[i]) == Some(k);
    }
    forall k | k in KeysOf(names, full) - drop ensures k in KeysOf(names, part) {
      var i :| 0 <= i < |names| && full(names[i]) == Some(k);
      assert part(names[i]) == Some(k);
    }
  }

  /** The table here is the newer one with the media-key answers dropped. */
  lemma LegacyTableDropsMediaKeys(lower: string)
    ensures LegacyKeyOfName(lower)
         == if KeyOfName(lower).Some? && IsMediaKey(KeyOfName(lower).value) then None else KeyOfName(lower)
  {
    if KeyOfName(lower).Some? && IsMediaKey(KeyOfName(lower).value) {
      MediaKeyOnlyByName(lower);
    }
    if IsMediaName(lower) {
      VolumeNamesAreMediaKeys();
    }
  }

  /** This parser is the newer one with the media keys dropped. */
  lemma LegacyParseDropsMediaKeys(chord: string)
    ensures LegacyParseKeyChord(chord) == ParseKeyChord(chord) - {VolumeUpKey, VolumeDownKey, VolumeMuteKey}
  {
    var drop := {VolumeUpKey, VolumeDownKey, VolumeMuteKey};
    forall n ensures LegacyKeyOfName(n) == if KeyOfName(n).Some? && KeyOfName(n).value in drop then None else KeyOfName(n) {
      LegacyTableDropsMediaKeys(n);
    }
    KeysOfWithout(NormalizedSegments(chord), KeyOfName, LegacyKeyOfName, drop);
  }

  /** `is_modifier_key`: left or right Control, Shift or Alt. */
  predicate IsModifierKey(k: KeybdKey) {
    k in {LControlKey, RControlKey, LShiftKey, RShiftKey, LAltKey, RAltKey}
  }

  /** A parsed keybind: its chord, action name and session name. */
  datatype Keybind = Keybind(chord: set<KeybdKey>, action: string, session: string)

  /** The configured keybinds of session `name`, each chord read by `parse`, in order. */
  function BindsWith(parse: string -> set<KeybdKey>, name: string, keybinds: seq<KeybindConfig>): (r: seq<Keybind>)
    ensures |r| == |keybinds|
    ensures forall j :: 0 <= j < |keybinds| ==> r[j] == Keybind(parse(keybinds[j].key), keybinds[j].action, name)
  {
    seq(|keybinds|, j requires 0 <= j < |keybinds| => Keybind(parse(keybinds[j].key), keybinds[j].action, name))
  }

  /** The keybinds whose chord is not empty, in order. */
  function NonEmpty(binds: seq<Keybind>): (r: seq<Keybind>)
    ensures |r| <= |binds|
    ensures forall b :: b in r <==> b in binds && b.chord != {}
  {
    if binds == [] then []
    else
      var rest := NonEmpty(binds[1..]);
      assert forall b :: b in binds <==> b == binds[0] || b in binds[1..];
      if binds[0].chord != {} then [binds[0]] + rest else rest
  }

  /** The keybinds of one session whose chord parses to a non-empty set, in order. */
  function SessionKeybinds(name: string, keybinds: seq<KeybindConfig>): (r: seq<Keybind>)
    ensures |r| <= |keybinds|
    ensures forall b :: b in r ==> b.chord != {} && b.session == name
  {
    NonEmpty(BindsWith(LegacyParseKeyChord, name, keybinds))
  }

  /** Filtering two lists one after the other keeps the kept keybinds of each, in order. */
  lemma {:induction false} NonEmptyAppend(a: seq<Keybind>, b: seq<Keybind>)
    ensures NonEmpty(a + b) == NonEmpty(a) + NonEmpty(b)
  {
    if a == [] {
      assert a + b == b;
    } else {
      assert (a + b)[0] == a[0];
      assert (a + b)[1..] == a[1..] + b;
      NonEmptyAppend(a[1..], b);
    }
  }

  /** One keybind is kept, once, exactly when its chord is not empty. */
  lemma NonEmptyOne(b: Keybind)
    ensures NonEmpty([b]) == if b.chord != {} then [b] else []
  {
    assert [b][1..] == [];
  }

  lemma BindsWithAppend(parse: string -> set<KeybdKey>, name: string, a: seq<KeybindConfig>, b: seq<KeybindConfig>)
    ensures BindsWith(parse, name, a + b) == BindsWith(parse, name, a) + BindsWith(parse, name, b)
  {
    var whole := BindsWith(parse, name, a + b);
    var parts := BindsWith(parse, name, a) + BindsWith(parse, name, b);
    forall j | 0 <= j < |whole|
      ensures whole[j] == parts[j]
    {
      if j < |a| {
        assert (a + b)[j] == a[j];
      } else {
        assert (a + b)[j] == b[j - |a|];
      }
    }
  }

  /** The keybinds of a session's list split in two are the keybinds of each part, one after the other. */
  lemma SessionKeybindsAppend(name: string, a: seq<KeybindConfig>, b: seq<KeybindConfig>)
    ensures SessionKeybinds(name, a + b) == SessionKeybinds(name, a) + SessionKeybinds(name, b)
  {
    BindsWithAppend(LegacyParseKeyChord, name, a, b);
    NonEmptyAppend(BindsWith(LegacyParseKeyChord, name, a), BindsWith(LegacyParseKeyChord, name, b));
  }

  /** One configured keybind gives its parsed keybind when the chord is non-empty, and nothing otherwise. */
  lemma SessionKeybindsOne(name: string, k: KeybindConfig)
    ensures SessionKeybinds(name, [k]) ==
      var chord := LegacyParseKeyChord(k.key);
      if chord != {} then [Keybind(chord, k.action, name)] else []
  {
    assert BindsWith(LegacyParseKeyChord, name, [k]) == [Keybind(LegacyParseKeyChord(k.key), k.action, name)];
    NonEmptyOne(Keybind(LegacyParseKeyChord(k.key), k.action, name));
  }

  /** A session keeps exactly its keybinds whose chord parses to a non-empty set. */
  lemma SessionKeybindsMembers(name: string, keybinds: seq<KeybindConfig>, b: Keybind)
    ensures b in SessionKeybinds(name, keybinds) <==>
      b.chord != {} && exists j :: 0 <= j < |keybinds| && b == Keybind(LegacyParseKeyChord(keybinds[j].key), keybinds[j].action, name)
  {
    var parsed := BindsWith(LegacyParseKeyChord, name, keybinds);
    if b in parsed {
      var j :| 0 <= j < |parsed| && parsed[j] == b;
    }
  }

  /** The list `override_media_keys` builds: every session's non-empty keybinds, sessions in config order. */
  function ParsedKeybinds(sessions: seq<SessionConfig>): (r: seq<Keybind>)
    ensures forall b :: b in r ==> b.chord != {}
  {
    if sessions == [] then []
    else
      var s := sessions[0];
      var own := if s.keybinds.Some? then SessionKeybinds(s.name, s.keybinds.value) else [];
      own + ParsedKeybinds(sessions[1..])
  }

  /** The list of a config split in two is the two lists one after the other. */
  lemma {:induction false} ParsedKeybindsAppend(a: seq<SessionConfig>, b: seq<SessionConfig>)
    ensures ParsedKeybinds(a + b) == ParsedKeybinds(a) + ParsedKeybinds(b)
  {
    if a != [] {
      assert (a + b)[0] == a[0];
      assert (a + b)[1..] == a[1..] + b;
      ParsedKeybindsAppend(a[1..], b);
    } else {
      assert a + b == b;
    }
  }

  /** A single session contributes its own keybinds, or nothing when it has none. */
  lemma ParsedKeybindsOne(s: SessionConfig)
    ensures ParsedKeybinds([s]) == if s.keybinds.Some? then SessionKeybinds(s.name, s.keybinds.value) else []
  {
    assert [s][1..] == [];
  }

  /** A session without keybinds contributes nothing. */
  lemma ParsedKeybindsSkip(s: SessionConfig, rest: seq<SessionConfig>)
    requires s.keybinds.None?
    ensures ParsedKeybinds([s] + rest) == ParsedKeybinds(rest)
  {
    assert ([s] + rest)[1..] == rest;
  }

  /** The keybinds that fire on a key event: an event that is not a modifier, a chord that holds it and is fully pressed. */
  predicate Triggers(b: Keybind, event: KeybdKey, pressed: set<KeybdKey>) {
    !IsModifierKey(event) && event in b.chord && IsChordPressed(b.chord, pressed)
  }

  /** The `bind_all` callback: the indices of the keybinds it handles, in list order. */
  method OnKeyEvent(binds: seq<Keybind>, event: KeybdKey, pressed: set<KeybdKey>) returns (triggered: seq<nat>)
    ensures forall j :: 0 <= j < |triggered| ==> triggered[j] < |binds|
    ensures forall j, k :: 0 <= j < k < |triggered| ==> triggered[j] < triggered[k]
    ensures forall i :: i in triggered <==> 0 <= i < |binds| && Triggers(binds[i], event, pressed)
    ensures IsModifierKey(event) ==> triggered == []
  {
    triggered := [];
    if IsModifierKey(event) {
      return;
    }
    var i := 0;
    while i < |binds|
      invariant 0 <= i <= |binds|
      invariant forall j :: 0 <= j < |triggered| ==> triggered[j] < i
      invariant forall j, k :: 0 <= j < k < |triggered| ==> triggered[j] < triggered[k]
      invariant forall n :: n in triggered <==> 0 <= n < i && Triggers(binds[n], event, pressed)
    {
      if event in binds[i].chord && IsChordPressed(binds[i].chord, pressed) {
        triggered := triggered + [i];
      }
      i := i + 1;
    }
  }

  /** Modifier keys never trigger a keybind, whatever is pressed. */
  lemma ModifiersNeverTrigger(b: Keybind, event: KeybdKey, pressed: set<KeybdKey>)
    requires event in {LControlKey, RControlKey, LShiftKey, RShiftKey, LAltKey, RAltKey}
    ensures !Triggers(b, event, pressed)
  {
  }

  /** `handle_action`: exactly three action names are recognised, case-sensitively. */
  function HandleAction(action: string, session: string): (r: Option<Action>)
    ensures r.Some? <==> action == "VolumeUp" || action == "VolumeDown" || action == "ToggleMute"
    ensures action == "VolumeUp" ==> r == Some(SessionUp(session))
    ensures action == "VolumeDown" ==> r == Some(SessionDown(session))
    ensures action == "ToggleMute" ==> r == Some(SessionToggleMute(session))
  {
    match action
    case "VolumeUp" => Some(SessionUp(session))
    case "VolumeDown" => Some(SessionDown(session))
    case "ToggleMute" => Some(SessionToggleMute(session))
    case _ => None
  }
}
