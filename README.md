# Maestro volume control — a Dafny model of its core

Maestro is a Windows utility that drives per-application audio volumes from
two sources: keyboard hotkeys (the media keys and configured chords) and a
serial device, a box of rotary encoders that sends one line `v0|v1|…` per
change, where field `i` is the signed volume of the session whose `encoder`
is `i` and a negative value means muted. This project models:

- the key-name table and key chords of the low-level keyboard hook (`Key`);
- the hook's pressed-key set, its hook registry, and which hooks fire and block (`KeyListener`);
- the registration of the hooks and the volume handlers they run (`MacroListener`);
- the `inputbot` chord table and chord test (`Keyboard`);
- the global-hotkey media keys with hold-to-repeat (`MediaHotkeys`);
- the older `inputbot` listener with per-session keybinds (`LegacyListeners`);
- session selection in the volume service, including the reserved name `other` (`VolumeService`);
- the configuration records, the YAML/value conversions and the saving of a configuration into a YAML document (`Config`);
- the serial reader (line cutting, 50 ms debounce) and the field-by-field reconciliation with a cache of volumes (`ComService`);
- the older serial callback of `main.rs` (`LegacySerial`);
- the version bump script `scripts/update-version.js` (`VersionBump`).

The helper modules hold Rust's `str::trim`, `str::split`, `to_lowercase`/`to_uppercase` on ASCII and `parse::<i32>` (`Text`), `Option`/`Result` (`Wrappers`), and the callbacks a hook can run (`Actions`).

The audio controller, the serial port, the Win32 hook and the Tauri window are
outside the model. The controller's session list is an input, and the calls
made on it become the updated list. Serial bytes and the current instant are
parameters. The calls and events a serial line causes are appended to a log
of effects.

Three behaviours of the code shape the model:
- A read delivers the first completed line once 50 ms have passed since the
  last delivery; later lines of the same read are dropped.
- A field that does not parse, or addresses no configured encoder, panics and
  ends the serial thread, keeping what the earlier fields of the line did.
- `api/event_listeners.rs` calls a floating-point `volume_manager` whose
  functions do not match the call sites. Its handlers are modelled against
  the integer volume service.

Integer arithmetic on `i32` follows the release build throughout: it wraps
(`Text.Wrap32`) instead of panicking.

## Model

| member | source | states |
|---|---|---|
| Text.Trim | src-tauri/src/utils/key.rs:13 | `str::trim`: the result has no Unicode White_Space at either end |
| Text.TrimPadded | src-tauri/src/services/com_service.rs:44-46 | trimming a trimmed string wrapped in whitespace gives exactly that string |
| Text.TrimIdempotent | src-tauri/src/services/com_service.rs:36-46 | trimming twice (the line, then its field) is trimming once |
| Text.Split | src-tauri/src/services/com_service.rs:36 | `split` on one character: at least one piece, and no piece holds the separator |
| Text.JoinSplit | src-tauri/src/services/com_service.rs:36 | joining the pieces of a split with the separator restores the string |
| Text.SplitJoin | src-tauri/src/utils/key.rs:17-19 | splitting a join of separator-free pieces gives the pieces back |
| Text.UpperOfLower | src-tauri/src/utils/key.rs:48 | upper-casing ignores the input's letter case |
| Text.LowerOfUpper | src-tauri/src/utils/keyboard.rs:8 | lower-casing ignores the input's letter case |
| Text.ParseInteger | src-tauri/src/services/com_service.rs:46 | an integer starts with a digit or sign and ends with a digit |
| Text.ParseI32 | src-tauri/src/services/com_service.rs:44-47 | `parse::<i32>` succeeds exactly on a signed decimal integer within the i32 range, with that value |
| Text.Wrap32 | src-tauri/src/utils/macro_listener.rs:103 | a release-build `i32` result: in range, congruent to the exact value modulo 2^32, the exact value when it fits, and one step past either end wraps to the other |
| Text.UntrimmedIsNoInteger | src-tauri/src/main.rs:55 | a string with whitespace at either end never parses as an integer |
| Text.ParseRenderInteger | scripts/update-version.js:8 | reading the decimal rendering of any integer gives it back |
| Text.RenderedIntIsTrimmed | scripts/update-version.js:23 | a rendered integer has no surrounding whitespace |
| Text.DigitsOfNat | scripts/update-version.js:23 | the digits of a number read back as that number |
| Key.ToVkCodeIgnoresCase | src-tauri/src/utils/key.rs:47-48 | `to_vk_code` upper-cases first, so all casings of a name give the same code (or none) |
| Key.AltIsMenu | src-tauri/src/utils/key.rs:57-156 | ALT and MENU both name VK_MENU (0x12) |
| Key.LeftAltIsLeftMenu | src-tauri/src/utils/key.rs:58-157 | LALT and LMENU both name VK_LMENU (0xA4) |
| Key.RightAltIsRightMenu | src-tauri/src/utils/key.rs:59-158 | RALT and RMENU both name VK_RMENU (0xA5) |
| Key.EnterIsNumEnter | src-tauri/src/utils/key.rs:128-133 | ENTER and NUMENTER both name VK_RETURN (0x0D) |
| Key.FromName | src-tauri/src/utils/key.rs:41-44 | `Key::from_name` succeeds iff the name is in the table, keeps the name as written and its code; otherwise the `expect` panic on that name |
| Key.KeysFromNames | src-tauri/src/utils/key.rs:12-15 | one key per name in order when all are known; otherwise the panic names the first unknown name |
| Key.Segments | src-tauri/src/utils/key.rs:13 | one trimmed segment per `+`-separated piece |
| Key.IsPressedBySet | src-tauri/src/utils/key.rs:21-28 | `is_pressed` holds iff the chord's codes are all pressed: order and repetition do not matter, and the empty chord is always pressed |
| Key.SegmentsOfJoin | src-tauri/src/utils/key.rs:13-18 | trimmed `+`-free names joined with " + " split back into the same names |
| Key.ChordToStringRoundTrip | src-tauri/src/utils/key.rs:12-19 | `from_string(to_string(c)) == c` for every chord `from_string` produced |
| KeyListener.FireHooks | src-tauri/src/utils/key_listener.rs:96-109 | the hooks whose chord is pressed fire, each once, in registration order; the event is blocked iff one of them has `should_block` |
| KeyListener.AfterMessage | src-tauri/src/utils/key_listener.rs:78-94 | key-down (or sys-key-down) adds the key, key-up removes it, and every other key is unchanged |
| KeyListener.RepeatedKeyDown | src-tauri/src/utils/key_listener.rs:82 | an auto-repeated key-down leaves the pressed set as it was |
| KeyListener.KeyListener.constructor | src-tauri/src/utils/key_listener.rs:126-132 | a new listener has the hook installed, no hooks and no pressed keys |
| KeyListener.KeyListener.KeyboardHook | src-tauri/src/utils/key_listener.rs:70-119 | non-action codes pass through untouched; an action event updates the pressed set, fires every hook whose chord is now pressed, and returns `LRESULT(1)` iff a fired hook blocks |
| KeyListener.KeyListener.Init | src-tauri/src/utils/key_listener.rs:134-138 | the hook is installed again |
| KeyListener.KeyListener.Register | src-tauri/src/utils/key_listener.rs:140-143 | exactly one hook is appended and the earlier ones are unchanged |
| KeyListener.KeyListener.UnregisterAll | src-tauri/src/utils/key_listener.rs:145-147 | the registry is empty |
| KeyListener.KeyListener.Dispose | src-tauri/src/utils/key_listener.rs:149-154 | the registry is empty and the hook removed |
| MacroListener.VolumeUpKnown | src-tauri/src/utils/macro_listener.rs:52 | `Key::from_name("VolumeUp")` does not panic and gives VK_VOLUME_UP (0xAF) |
| MacroListener.VolumeDownKnown | src-tauri/src/utils/macro_listener.rs:63 | `from_name("VolumeDown")` gives VK_VOLUME_DOWN (0xAE) |
| MacroListener.VolumeMuteKnown | src-tauri/src/utils/macro_listener.rs:74 | `from_name("VolumeMute")` gives VK_VOLUME_MUTE (0xAD) |
| MacroListener.MediaHooks | src-tauri/src/utils/macro_listener.rs:51-82 | three blocking one-key hooks: VolumeUp → up on "master", VolumeDown → down, VolumeMute → toggle mute |
| MacroListener.RegistrationShape | src-tauri/src/utils/macro_listener.rs:37-83 | registration succeeds iff there is no mixer hotkey or it parses; then there are 4 hooks (the mixer chord first) or 3, all blocking, ending with the media hooks |
| MacroListener.SharedListener.constructor | src-tauri/src/utils/macro_listener.rs:19 | the shared listener starts behind an unpoisoned mutex |
| MacroListener.SharedListener.RegisterKeyListeners | src-tauri/src/utils/macro_listener.rs:37-83 | appends exactly the registration's hooks; a mixer chord that does not parse appends none and poisons the mutex; on a poisoned mutex it panics with nothing changed; the pressed keys and the hook stay as they were |
| MacroListener.SharedListener.ConfigChanged | src-tauri/src/utils/macro_listener.rs:23-34 | a payload that does not deserialise changes nothing; on a poisoned mutex the `lock().unwrap()` at line 29 panics with nothing changed; otherwise the hook is reinstalled, the registry is a fresh registration of the new configuration, and a bad mixer chord poisons the mutex |
| MacroListener.HandleSessionUp | src-tauri/src/utils/macro_listener.rs:92-98 | emits iff the session exists, its volume is at most 98 and something is selected; then exactly the selected sessions get volume +2, the rest are unchanged, and the event carries the first selected session afterwards; every other case is the `unwrap` panic with nothing changed |
| MacroListener.HandleSessionDown | src-tauri/src/utils/macro_listener.rs:100-106 | emits iff the session exists, its volume is at least 2 and something is selected; then exactly the selected sessions get volume −2, the rest are unchanged, and the event carries the first selected session afterwards; from the `i32::MIN` sentinel the request wraps out of range and the `unwrap` panics, as from 0 or 1, with nothing changed |
| MacroListener.HandleSessionToggleMute | src-tauri/src/utils/macro_listener.rs:85-90 | emits iff something is selected; then exactly the selected sessions get the negation of `get_session_mute`, the rest are unchanged, and the event carries the first selected session afterwards; otherwise the toggle panics with nothing changed |
| Keyboard.NormalizedSegments | src-tauri/src/utils/keyboard.rs:6-8 | one trimmed, lower-cased segment per `+`-separated piece |
| Keyboard.KeysOf | src-tauri/src/utils/keyboard.rs:8-111 | the collected set holds exactly the keys the table gives some segment; unknown segments are dropped |
| Keyboard.KeysOfUnknown | src-tauri/src/utils/keyboard.rs:106-109 | a chord naming no known key parses to the empty set |
| Keyboard.KeysOfBySet | src-tauri/src/utils/keyboard.rs:111 | the result is a set: reordering or repeating segments gives the same keys |
| Keyboard.ParseIgnoresCaseAndPadding | src-tauri/src/utils/keyboard.rs:8 | chords whose segments agree up to padding and letter case parse alike |
| Keyboard.ParseSingleName | src-tauri/src/utils/keyboard.rs:5-112 | a trimmed lower-case name without `+` parses to its own key, or to nothing |
| Keyboard.ParseEmpty | src-tauri/src/utils/keyboard.rs:5-112 | the empty chord string parses to the empty set |
| Keyboard.ModifierNamesAreLeft | src-tauri/src/utils/keyboard.rs:9-11 | "ctrl", "shift" and "alt" name the left-hand keys |
| Keyboard.VolumeNamesAreMediaKeys | src-tauri/src/utils/keyboard.rs:101-103 | the three volume names name the media keys |
| Keyboard.NoRightModifiers | src-tauri/src/utils/keyboard.rs:8-111 | no parsed chord holds a right-hand Control, Shift or Alt |
| Keyboard.IsChordPressedSubset | src-tauri/src/utils/keyboard.rs:114-118 | a chord is pressed iff it is a subset of the pressed keys; the empty chord always is |
| MediaHotkeys.VariantsAlike | src-tauri/src/api/event_listeners.rs:73-114 | the five registrations of a media key (no modifier, Ctrl, Alt, Shift, Super) are handled identically |
| MediaHotkeys.CombinedModifiersIgnored | src-tauri/src/api/event_listeners.rs:71-72 | a hotkey with two or more modifiers matches no registration |
| MediaHotkeys.HotkeyState.constructor | src-tauri/src/api/event_listeners.rs:44-51 | both flags off, both press instants now, no repeat worker |
| MediaHotkeys.HotkeyState.OnEvent | src-tauri/src/api/event_listeners.rs:107-185 | press of up/down sets its flag, fires once and starts a worker due 500 ms later; release clears the flag; mute fires on press only; any other hotkey changes nothing |
| MediaHotkeys.HotkeyState.Wake | src-tauri/src/api/event_listeners.rs:121-136 | a worker whose flag is off exits; one whose flag is on fires (the elapsed test always passes) and sleeps 25 ms |
| MediaHotkeys.MixerChord | src-tauri/src/api/event_listeners.rs:224-225 | the chord exists iff a mixer hotkey is configured (else the `unwrap` panics) and is its parse |
| MediaHotkeys.MixerChordMatchesIff | src-tauri/src/api/event_listeners.rs:231-237 | the mixer toggles iff the event's key is in the non-empty chord and the whole chord is pressed |
| MediaHotkeys.MediaOverride | src-tauri/src/api/event_listeners.rs:251-273 | exactly the three media keys are overridden |
| MediaHotkeys.HandleSessionStep | src-tauri/src/api/event_listeners.rs:291-311 | sets the selected sessions to the current volume ±2 when that is within 0..100, otherwise nothing changes; emits one event per session selected afterwards; never panics: from the `i32::MIN` sentinel the wrapped request is out of range and nothing changes |
| MediaHotkeys.HandleToggleMute | src-tauri/src/api/event_listeners.rs:313-321 | toggles the selected sessions and emits one event per selected session; panics when none is selected |
| LegacyListeners.MediaKeyOnlyByName | src-tauri/src/utils/keyboard.rs:101-103 | only the three volume names name media keys |
| LegacyListeners.LegacyTableDropsMediaKeys | src-tauri/src/event_listeners.rs:21-125 | this file's table is the `keyboard.rs` table without its media-key answers |
| LegacyListeners.LegacyParseDropsMediaKeys | src-tauri/src/event_listeners.rs:21-125 | this parser gives the `keyboard.rs` parse minus the three media keys |
| LegacyListeners.KeysOfWithout | src-tauri/src/event_listeners.rs:24-124 | dropping some answers from a table drops exactly those keys from every parse |
| LegacyListeners.BindsWith | src-tauri/src/event_listeners.rs:152-159 | one keybind per configured keybind, in order, with its parsed chord, action and session |
| LegacyListeners.NonEmpty | src-tauri/src/event_listeners.rs:154-158 | keeps exactly the keybinds whose chord is non-empty (order and repetition: NonEmptyAppend, NonEmptyOne) |
| LegacyListeners.NonEmptyAppend | src-tauri/src/event_listeners.rs:152-158 | filtering is done keybind by keybind, keeping their order |
| LegacyListeners.NonEmptyOne | src-tauri/src/event_listeners.rs:154-158 | one keybind is kept once iff its chord is non-empty |
| LegacyListeners.SessionKeybinds | src-tauri/src/event_listeners.rs:151-160 | a session keeps only keybinds with non-empty chords, each tagged with that session (order and repetition: SessionKeybindsAppend, SessionKeybindsOne) |
| LegacyListeners.SessionKeybindsAppend | src-tauri/src/event_listeners.rs:151-160 | a session's keybinds are processed one after another in configuration order, duplicates included |
| LegacyListeners.SessionKeybindsOne | src-tauri/src/event_listeners.rs:152-158 | one configured keybind gives its parsed chord, action and session when the chord is non-empty, and nothing otherwise |
| LegacyListeners.SessionKeybindsMembers | src-tauri/src/event_listeners.rs:151-160 | a keybind is kept iff its chord is non-empty and it is the parse of one of the session's keybinds |
| LegacyListeners.ParsedKeybinds | src-tauri/src/event_listeners.rs:147-162 | the flattened list holds no empty chord (its value: ParsedKeybindsAppend, ParsedKeybindsOne) |
| LegacyListeners.ParsedKeybindsOne | src-tauri/src/event_listeners.rs:150-161 | one session contributes exactly its own kept keybinds, or nothing without keybinds |
| LegacyListeners.ParsedKeybindsAppend | src-tauri/src/event_listeners.rs:147-162 | the list is built session by session in configuration order |
| LegacyListeners.ParsedKeybindsSkip | src-tauri/src/event_listeners.rs:151 | a session without keybinds contributes nothing |
| LegacyListeners.OnKeyEvent | src-tauri/src/event_listeners.rs:168-177 | the keybinds handled are, in list order, exactly those whose chord holds the non-modifier event key and is fully pressed |
| LegacyListeners.ModifiersNeverTrigger | src-tauri/src/event_listeners.rs:133-169 | modifier keys never trigger a keybind |
| LegacyListeners.HandleAction | src-tauri/src/event_listeners.rs:241-248 | exactly "VolumeUp", "VolumeDown" and "ToggleMute" are recognised, case-sensitively, each with its handler |
| VolumeService.GetSessions | src-tauri/src/services/volume_service.rs:43-57 | exactly the selected sessions: `other` (any case) selects sessions whose lower-cased name is not configured, any other name selects that exact name (order and repetition: GetSessionsAppend, GetSessionsOne) |
| VolumeService.GetSessionsAppend | src-tauri/src/services/volume_service.rs:48-56 | the selection keeps controller order: two lists give their selections one after the other |
| VolumeService.GetSessionsOne | src-tauri/src/services/volume_service.rs:48-56 | a single session is returned once iff it is selected |
| VolumeService.FirstSelected | src-tauri/src/services/volume_service.rs:93 | the index of the first selected session, or none when nothing is selected |
| VolumeService.GetSessionsHead | src-tauri/src/services/volume_service.rs:143 | `get_sessions(..).into_iter().next()` is the first selected session |
| VolumeService.SameNamesSameFirst | src-tauri/src/services/volume_service.rs:87-93 | changing volumes or mute flags keeps which session is selected first |
| VolumeService.GetSession | src-tauri/src/services/volume_service.rs:93 | none iff no session is selected, else the first selected session |
| VolumeService.FirstNamed | src-tauri/src/services/volume_service.rs:32 | the first session with exactly this name, or none |
| VolumeService.GetSessionVolume | src-tauri/src/services/volume_service.rs:29-41 | `i32::MIN` iff no session has the name, else the 0..100 volume of the first session with it |
| VolumeService.GetSessionMute | src-tauri/src/services/volume_service.rs:96-109 | false when no session has the name, else the mute flag of the first session with it |
| VolumeService.SetSessionVolume | src-tauri/src/services/volume_service.rs:59-94 | outside 0..100 or with nothing selected, nothing changes and the result is none; otherwise exactly the selected sessions get the volume and the first selected session, updated, is returned |
| VolumeService.SetSessionMute | src-tauri/src/services/volume_service.rs:111-136 | nothing selected: false, no change; otherwise exactly the selected sessions get the flag, which is returned |
| VolumeService.ToggleSessionMute | src-tauri/src/services/volume_service.rs:138-146 | the selected sessions get the negation of `get_session_mute` and the first selected one, updated, is returned; with nothing selected the `expect` panics |
| VolumeService.GetAllSessions | src-tauri/src/services/volume_service.rs:14-27 | every session's name is a key, mapped to the first session with that name |
| Config.DefinedSessionNames | src-tauri/src/config.rs:53-62 | the lower-cased names of the configured sessions, never "other", one per session not named "other" in any case |
| Config.DefinedSessionNamesAppend | src-tauri/src/config.rs:55-61 | names are collected session by session in order |
| Config.DefinedSessionNamesOne | src-tauri/src/config.rs:58 | a session contributes its lower-cased name, or nothing when it is "other" |
| Config.Lookup | src-tauri/src/config.rs:145-149 | no value iff the key is absent from the hash |
| Config.RemoveKey | src-tauri/src/config.rs:148 | the key is gone, nothing is added, and a hash without the key is unchanged |
| Config.LookupHashInsert | src-tauri/src/config.rs:148 | after `insert` the key holds the new value and every other key is unchanged |
| Config.LookupRemoveKey | src-tauri/src/config.rs:148 | removing a key leaves every other key's value unchanged |
| Config.RemoveKeyDistinct | src-tauri/src/config.rs:148 | removing a key keeps a hash's keys distinct |
| Config.HashInsertDistinct | src-tauri/src/config.rs:148 | inserting keeps a hash's keys distinct |
| Config.ItemsToValues | src-tauri/src/config.rs:129 | converting an array keeps its length |
| Config.EntriesToValues | src-tauri/src/config.rs:130 | converting a hash keeps its number of entries |
| Config.ItemsToValuesPointwise | src-tauri/src/config.rs:129 | an array converts item by item, keeping order |
| Config.EntriesToValuesPointwise | src-tauri/src/config.rs:130 | a hash converts key by key and value by value, keeping order |
| Config.ValuesToYamlsPointwise | src-tauri/src/config.rs:165 | a sequence converts back item by item |
| Config.YamlToValueSucceeds | src-tauri/src/config.rs:123-134 | `yaml_to_value` returns (does not reach `unreachable!`) iff the tree holds no alias or bad-value node |
| Config.ValueToYamlOfYamlToValue | src-tauri/src/config.rs:123-175 | converting a convertible tree with distinct hash keys to a value and back gives the same tree |
| Config.InsertAllDistinct | src-tauri/src/config.rs:166-171 | inserting entries with new, distinct keys appends them in order |
| Config.ValueToYamlIgnoresTags | src-tauri/src/config.rs:173 | a value converts exactly like the value with every tag removed |
| Config.UpdatedRootShape | src-tauri/src/config.rs:136-143 | a document that is not a hash is left unchanged; a hash stays a hash |
| Config.UpdatedRootSets | src-tauri/src/config.rs:136-149 | each of arduino, sessions, mixer and system holds the converted field of the configuration |
| Config.UpdatedRootKeeps | src-tauri/src/config.rs:136-149 | every other key keeps its value |
| Config.UpdatedRootDistinct | src-tauri/src/config.rs:136-149 | a hash with distinct keys keeps them distinct |
| Config.ConfigDocument.UpdateField | src-tauri/src/config.rs:145-149 | the hash document gets the converted value under the key |
| Config.ConfigDocument.UpdateFromConfig | src-tauri/src/config.rs:136-143 | the document becomes the four-field update of the old one |
| ComService.FindByEncoder | src-tauri/src/services/com_service.rs:41 | some session iff one has the encoder; then a configured session with it |
| ComService.FirstWithEncoder | src-tauri/src/services/com_service.rs:41 | the position of the first session with the encoder, or the length |
| ComService.Abs32 | src-tauri/src/services/com_service.rs:62 | the absolute value, except that `i32::MIN` wraps to itself |
| ComService.TargetName | src-tauri/src/services/com_service.rs:41 | the addressed session, when there is one, is configured |
| ComService.FieldsStep | src-tauri/src/services/com_service.rs:39-70 | folding the fields keeps the cache's key set |
| ComService.FieldsStepHead | src-tauri/src/services/com_service.rs:49-60 | an unchanged field does nothing; a changed one makes its calls and is cached before the next field |
| ComService.StepAdvances | src-tauri/src/services/com_service.rs:39-70 | the loop's effects so far plus the fold of the remaining fields equal the fold of the whole line |
| ComService.LineStep | src-tauri/src/services/com_service.rs:35-74 | handling a line keeps the cache's key set |
| ComService.SilentModeNotifies | src-tauri/src/services/com_service.rs:64-69 | while events are suppressed, only mute and volume calls are made |
| ComService.ChangeCount | src-tauri/src/services/com_service.rs:53-69 | the calls of one changed field, counted by kind |
| ComService.ChangeCounts | src-tauri/src/services/com_service.rs:53-69 | a changed field makes one mute call and one volume call, and, when events are on, one Notify entry standing for the events of every session `get_sessions` returns |
| ComService.EffectsPerChange | src-tauri/src/services/com_service.rs:39-70 | over any fields, mute calls equal volume calls; Notify entries equal volume calls when events are on (else there are none); window entries likewise |
| ComService.LaterLinesNotifyEachChange | src-tauri/src/services/com_service.rs:64-73 | after the first line, every changed field makes exactly one Notify entry (the loop over its selected sessions) and the window is never shown |
| ComService.FirstLineIsSilent | src-tauri/src/services/com_service.rs:33-69 | while the first line is handled, no event is emitted |
| ComService.SettledFieldsAreQuiet | src-tauri/src/services/com_service.rs:49-51 | fields equal to their cached values make no call and change nothing |
| ComService.FieldsStepFrame | src-tauri/src/services/com_service.rs:60 | a field writes only the cache entry of the session it addresses |
| ComService.CacheAfterFields | src-tauri/src/services/com_service.rs:60 | after a line that completes, each addressed session's entry holds its field's value |
| ComService.RepeatedLineIsQuiet | src-tauri/src/services/com_service.rs:49-51 | receiving the same line again calls nothing and changes nothing |
| ComService.Decode | src-tauri/src/services/com_service.rs:106 | one character per byte, ASCII bytes as themselves |
| ComService.NewlineAt | src-tauri/src/services/com_service.rs:105 | the position of the first `\n`, or the length when there is none |
| ComService.SplitLines | src-tauri/src/services/com_service.rs:105-107 | complete lines and the remainder hold no newline |
| ComService.SplitLinesRestores | src-tauri/src/services/com_service.rs:105-107 | the lines, each followed by its newline, then the remainder, are the buffer: no byte is lost or added |
| ComService.SplitLinesStep | src-tauri/src/services/com_service.rs:105-107 | one pass of the loop cuts off the first line |
| ComService.SplitLinesDone | src-tauri/src/services/com_service.rs:105 | a buffer without a newline holds no complete line |
| ComService.ApplyLine | src-tauri/src/services/com_service.rs:35-74 | the cache, calls and panic of a line are those of `LineStep` |
| ComService.ApplyFields | src-tauri/src/services/com_service.rs:39-70 | the loop over the fields computes the fold of `FieldsStep` |
| ComService.ApplyField | src-tauri/src/services/com_service.rs:41-69 | one field: panics iff its encoder has no session or it does not parse; otherwise it is cached, and when changed it mutes iff negative and sets the volume to its absolute value, then the events |
| ComService.SerialListener.constructor | src-tauri/src/services/com_service.rs:23-98 | every configured session cached at 0, first-run set, an empty buffer, last delivery now |
| ComService.SerialListener.OnLine | src-tauri/src/services/com_service.rs:35-74 | the line's calls are appended and its cache kept; the thread ends on a panic; the first-run flag clears once a line completes |
| ComService.SerialListener.OnRead | src-tauri/src/services/com_service.rs:100-123 | a timeout changes nothing, any other error ends the loop, and bytes are received |
| ComService.SerialListener.Receive | src-tauri/src/services/com_service.rs:103-113 | the state after the bytes is the one `Received` describes |
| ComService.ReceiveBytes | src-tauri/src/services/com_service.rs:104-113 | the first complete line, if 50 ms have passed, goes through the callback; the delivery instant moves when it returns; the buffer keeps the bytes after the last newline |
| ComService.Drain | src-tauri/src/services/com_service.rs:105-113 | the loop removes every complete line and delivers at most the first, when 50 ms have passed |
| LegacySerial.LegacySerialCallback.constructor | src-tauri/src/main.rs:42-46 | every configured session cached at 0 |
| LegacySerial.LegacySerialCallback.OnLine | src-tauri/src/main.rs:48-78 | the untrimmed fields in order: calls appended, cache kept, thread ended by a panic |
| LegacySerial.ShowsWindowPerChange | src-tauri/src/main.rs:71-76 | each changed field sets mute and volume, makes one Notify entry (the loop over its selected sessions) and shows the window exactly once |
| LegacySerial.PaddedField | src-tauri/src/main.rs:55 | a number with surrounding whitespace (such as a `\r`) is read by the service callback but panics in this one |
| VersionBump.ToNumber | scripts/update-version.js:8 | `Number`: blank is 0, a non-blank string is a number iff it is a signed decimal integer, and then it is its value; never `undefined` |
| VersionBump.Increment | scripts/update-version.js:10-18 | `+= 1` adds one to a number; `NaN` and `undefined` become `NaN` |
| VersionBump.Components | scripts/update-version.js:8 | the first component always exists; the second and third are `undefined` iff the version has fewer pieces |
| VersionBump.ParseBump | scripts/update-version.js:10-21 | exactly "major", "minor" and "patch" are known, each its own bump |
| VersionBump.BumpArgument | scripts/update-version.js:42 | a missing or empty argument means "patch" |
| VersionBump.GetNewVersion | scripts/update-version.js:7-24 | throws iff the bump type is unknown, with the script's message |
| VersionBump.Bumped | scripts/update-version.js:10-18 | a bump gives a strictly greater version |
| VersionBump.ReadRendered | scripts/update-version.js:8-23 | a rendered number holds no `.` and `Number` reads it back |
| VersionBump.SplitRender | scripts/update-version.js:8-23 | splitting a rendered version gives its three numbers' digits |
| VersionBump.ComponentsOfRender | scripts/update-version.js:8-23 | reading a rendered version gives its three numbers |
| VersionBump.NewVersionIsGreater | scripts/update-version.js:7-24 | on a well-formed version, each known type renders a strictly greater version that reads back as itself; any other type throws |
| VersionBump.DefaultIsPatch | scripts/update-version.js:7-42 | without an argument the patch number goes up by one |

## Left out

- The audio controller (COM), and the floating-point volume scalar. A volume is an integer percentage, and the `* 100.0).round()` and `/ 100.0` conversions are not modelled.
- `AudioSession::from_session`'s process icon.
- The serial port itself:
  - opening it, setting DTR, the 10 ms timeout and the 1 ms sleeps;
  - the thread around it, and `serial.rs`, the reader behind the older callback. That callback is driven one line at a time.
- Time inside one read is a single instant. So at most the first line of a read is delivered: each later line sees `last_invoke_time` only just set.
- ComService.Decode: `String::from_utf8_lossy` is modelled byte by byte. Every non-ASCII byte becomes U+FFFD, whereas Rust decodes valid multi-byte UTF-8. Device lines are ASCII. A field padded with a multi-byte Unicode space (U+00A0, say) differs: Rust trims it and parses the field, while in the model the padding becomes U+FFFD and the field panics.
- ComService.Abs32: follows the release build, where `i32::MIN.abs()` wraps. A debug build panics instead.
- VolumeService.Selects: for a name other than `other`, a session is matched by exact, case-sensitive name equality, in controller order, and the first match is the earliest. The matching of the controller's `get_session_with_name` and `get_all_sessions_with_name` (in the `windows_volume_control` crate) is not part of this model. This is assumed, and it also governs GetSessions, FirstNamed, GetSessionVolume and GetSessionMute.
- MacroListener.HandleSessionDown and MediaHotkeys.HandleSessionStep: follow the release build, where `i32::MIN - 2` wraps. A debug build panics on the overflow instead.
- ComService.ChangeCounts, ComService.EffectsPerChange, ComService.LaterLinesNotifyEachChange and LegacySerial.ShowsWindowPerChange count Notify entries. One entry stands for the loop that emits one event per session `get_sessions` returns, so the number of events (zero or more) depends on the controller, which is outside the serial model.
- `window.show().unwrap()`, emitting events, and the Tauri window, tray, logger and frontend. An event is an entry in the effect log.
- The Win32 hook's installation, `key_code_to_string` and the callbacks' own work. A hook's callback is the tag of the action it runs.
- `initialize_key_listeners` itself: the first registration and the installation of the `config_changed` listener. A mixer chord that does not parse at start-up panics before that listener is installed.
- `register_mixer_hotkey` and `toggle_window` (Tauri global shortcuts and windows).
- The threads of the hold-to-repeat workers. Each worker is a wake-up time on an abstract millisecond clock.
- The real `Instant` arithmetic. HotkeyState.Wake compares against the construction instant, as the code does.
- The older listener's handlers that call the float `volume_manager` (`event_listeners.rs:210-239`). The payload formatting and the negated volume for a muted session are not modelled.
- Text.ToLower and Text.ToUpper: case mapping of ASCII letters only. Unicode case mapping is not modelled.
- VersionBump.ToNumber models only decimal integers. Not modelled:
  - JavaScript's hexadecimal, binary and exponent forms, `Infinity` and fractions;
  - rounding above 2^53;
  - JavaScript's own whitespace set. The model uses Rust's White_Space, which differs in U+FEFF and U+0085.
- `updateAppVersion`: reading and writing `package.json` and `tauri.conf.json`, and the log line.
- Config:
  - loading and saving files;
  - the global `CONFIG` mutex;
  - serde's deserialisation of a `Config` from a value;
  - `Yaml::Real` and floating-point numbers. A number is an integer, and the `as_f64` branch of `value_to_yaml` is not modelled.
  - `serde_json` payload decoding, which is an `Option` parameter.
- SessionConfig's `encoder` field is taken from the frontend's configuration type. It is absent from `config.rs`.
