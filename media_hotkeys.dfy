/**
 * The media-key handling of `src-tauri/src/api/event_listeners.rs`: the
 * global hotkeys registered for each media key with no modifier and with
 * each single modifier, the hold-to-repeat state of volume up and down on an
 * abstract millisecond clock (each repeat thread is a sleeping worker with a
 * wake-up time), the mixer chord test of the `inputbot` listener, and the
 * handlers that emit one event per selected session.
 */
module MediaHotkeys {
  import opened Wrappers
  import opened Text
  import opened Config
  import opened Actions
  import opened Keyboard
  import opened VolumeService
  import opened MacroListener

  datatype Modifier = Control | Alt | Shift | Super

  /** The `global_hotkey` key codes the program registers; `OtherCode` stands for the rest. */
  datatype Code = AudioVolumeUp | AudioVolumeDown | AudioVolumeMute | OtherCode(n: int)

  /** A global hotkey; its id is determined by its modifiers and code. */
  datatype HotKey = HotKey(modifiers: set<Modifier>, code: Code)

  datatype HotKeyState = Pressed | Released

  datatype MediaKey = VolumeUp | VolumeDown | Mute

  /** Each media key is registered five times: no modifier, Ctrl, Alt, Shift, Super. */
  const Variants: set<set<Modifier>> := {{}, {Control}, {Alt}, {Shift}, {Super}}

  /** Which registered media key an event's hotkey is, if any. */
  function Classify(h: HotKey): Option<MediaKey> {
    if h.modifiers !in Variants then None
    else
      match h.code
      case AudioVolumeUp => Some(VolumeUp)
      case AudioVolumeDown => Some(VolumeDown)
      case AudioVolumeMute => Some(Mute)
      case OtherCode(_) => None
  }

  /** The five variants of a media key are handled identically. */
  lemma VariantsAlike(code: Code, m1: set<Modifier>, m2: set<Modifier>)
    requires m1 in Variants && m2 in Variants
    ensures Classify(HotKey(m1, code)) == Classify(HotKey(m2, code))
  {
  }

  /** A combination of two or more modifiers is not registered, so it is ignored. */
  lemma CombinedModifiersIgnored(h: HotKey)
    requires |h.modifiers| >= 2
    ensures Classify(h).None?
  {
    forall m | m in Variants ensures |m| <= 1 {
      assert |{Control}| == 1 && |{Alt}| == 1 && |{Shift}| == 1 && |{Super}| == 1;
    }
  }

  /** The direction a repeat worker steps the volume in. */
  datatype Direction = Up | Down

  function StepAction(d: Direction): Action {
    match d
    case Up => SessionUp(Master)
    case Down => SessionDown(Master)
  }

  /** A repeat thread, asleep until `wakeAt`. */
  datatype Worker = Worker(direction: Direction, wakeAt: int)

  const InitialDelay: int := 500
  const RepeatInterval: int := 25

  /**
   * `HotkeyState` with the threads it spawns: the two active flags, the
   * instants stored at construction, the sleeping repeat workers, and the
   * handler calls made so far.
   */
  class HotkeyState {
    var upActive: bool
    var downActive: bool
    /** `last_volume_up_press` / `last_volume_down_press`: written only by `HotkeyState::new`. */
    const upPressedAt: int
    const downPressedAt: int
    /** The latest instant an event or wake-up was seen at. */
    var clock: int
    var workers: seq<Worker>
    var fired: seq<Action>

    function Active(d: Direction): bool
      reads this
    {
      match d
      case Up => upActive
      case Down => downActive
    }

    function PressedAt(d: Direction): int
      reads this
    {
      match d
      case Up => upPressedAt
      case Down => downPressedAt
    }

    /** Time runs forward from construction, and no worker wakes before 500 ms after construction. */
    ghost predicate Valid()
      reads this
    {
      && clock >= upPressedAt && clock >= downPressedAt
      && forall w :: w in workers ==> w.wakeAt >= PressedAt(w.direction) + InitialDelay
    }

    /** `HotkeyState::new`: both flags off, both instants now. */
    constructor(now: int)
      ensures Valid()
      ensures !upActive && !downActive && upPressedAt == now && downPressedAt == now && clock == now
      ensures workers == [] && fired == []
    {
      upActive := false;
      downActive := false;
      upPressedAt := now;
      downPressedAt := now;
      clock := now;
      workers := [];
      fired := [];
    }

    /**
     * One received hotkey event. Pressing volume up or down sets its flag,
     * fires the step once and starts a worker that first wakes 500 ms later;
     * releasing clears the flag. Mute fires on press only. Other hotkeys
     * change nothing.
     */
    method OnEvent(h: HotKey, state: HotKeyState, now: int)
      requires Valid() && now >= clock
      modifies this
      ensures Valid() && clock == now
      ensures Classify(h) == Some(VolumeUp) && state == Pressed ==>
        upActive && downActive == old(downActive)
        && fired == old(fired) + [SessionUp(Master)] && workers == old(workers) + [Worker(Up, now + InitialDelay)]
      ensures Classify(h) == Some(VolumeDown) && state == Pressed ==>
        downActive && upActive == old(upActive)
        && fired == old(fired) + [SessionDown(Master)] && workers == old(workers) + [Worker(Down, now + InitialDelay)]
      ensures Classify(h) == Some(VolumeUp) && state == Released ==>
        !upActive && downActive == old(downActive) && fired == old(fired) && workers == old(workers)
      ensures Classify(h) == Some(VolumeDown) && state == Released ==>
        !downActive && upActive == old(upActive) && fired == old(fired) && workers == old(workers)
      ensures Classify(h) == Some(Mute) ==>
        upActive == old(upActive) && downActive == old(downActive) && workers == old(workers)
        && fired == old(fired) + (if state == Pressed then [SessionToggleMute(Master)] else [])
      ensures Classify(h).None? ==>
        upActive == old(upActive) && downActive == old(downActive) && workers == old(workers) && fired == old(fired)
    {
      clock := now;
      match Classify(h)
      case None =>
      case Some(VolumeUp) =>
        if state == Pressed {
          upActive := true;
          fired := fired + [SessionUp(Master)];
          workers := workers + [Worker(Up, now + InitialDelay)];
        } else {
          upActive := false;
        }
      case Some(VolumeDown) =>
        if state == Pressed {
          downActive := true;
          fired := fired + [SessionDown(Master)];
          workers := workers + [Worker(Down, now + InitialDelay)];
        } else {
          downActive := false;
        }
      case Some(Mute) =>
        if state == Pressed {
          fired := fired + [SessionToggleMute(Master)];
        }
    }

    /**
     * Worker `i` wakes up: with its flag off it exits; with its flag on it
     * fires when 500 ms have passed since construction and sleeps 25 ms.
     * Because those instants are never updated, the elapsed test always
     * passes, so every wake-up with the flag on fires.
     */
    method Wake(i: nat, now: int)
      requires Valid() && i < |workers| && now >= clock && now >= workers[i].wakeAt
      modifies this
      ensures Valid() && clock == now
      ensures upActive == old(upActive) && downActive == old(downActive)
      ensures var w := old(workers[i]);
        if old(Active(w.direction)) then
          fired == old(fired) + [StepAction(w.direction)]
          && workers == old(workers)[i := Worker(w.direction, now + RepeatInterval)]
        else
          fired == old(fired) && workers == old(workers[..i] + workers[i + 1..])
    {
      clock := now;
      var w := workers[i];
      assert w in workers;
      if !Active(w.direction) {
        workers := workers[..i] + workers[i + 1..];
        assert forall v :: v in workers ==> v in old(workers);
        return;
      }
      var elapsed := now - PressedAt(w.direction);
      if elapsed >= InitialDelay {
        fired := fired + [StepAction(w.direction)];
      }
      workers := workers[i := Worker(w.direction, now + RepeatInterval)];
    }
  }

  /** `override_media_keys` unwraps the mixer hotkey: with none configured it panics. */
  function MixerChord(config: Config): (r: Option<set<KeybdKey>>)
    ensures r.Some? <==> config.mixer.hotkey.Some?
    ensures r.Some? ==> r.value == ParseKeyChord(config.mixer.hotkey.value)
  {
    match config.mixer.hotkey
    case None => None
    case Some(hotkey) => Some(ParseKeyChord(hotkey))
  }

  /** The `bind_all` test: the mixer toggles when the chord is non-empty, holds the event's key and is fully pressed. */
  predicate MixerChordMatches(chord: set<KeybdKey>, event: KeybdKey, pressed: set<KeybdKey>) {
    chord != {} && event in chord && IsChordPressed(chord, pressed)
  }

  /** Events outside the chord, and an empty chord, never toggle the mixer; a held chord toggles on each of its keys. */
  lemma MixerChordMatchesIff(chord: set<KeybdKey>, event: KeybdKey, pressed: set<KeybdKey>)
    ensures event !in chord ==> !MixerChordMatches(chord, event, pressed)
    ensures MixerChordMatches(chord, event, pressed) <==> event in chord && chord <= pressed
  {
  }

  /** The `block_bind` overrides of `override_media_keys`. */
  function MediaOverride(k: KeybdKey): (r: Option<Action>)
    ensures r.Some? <==> k in {VolumeUpKey, VolumeDownKey, VolumeMuteKey}
  {
    match k
    case VolumeUpKey => Some(SessionUp(Master))
    case VolumeDownKey => Some(SessionDown(Master))
    case VolumeMuteKey => Some(SessionToggleMute(Master))
    case _ => None
  }

  /**
   * `handle_session_up` / `handle_session_down` here: request the current
   * volume plus `delta` (±2) with release-build wrapping, ignore the answer,
   * and emit one event per session `get_sessions` then returns. Nothing
   * panics: from the `i32::MIN` sentinel the request is out of range and
   * changes nothing.
   */
  method HandleSessionStep(config: Config, sessions: seq<AudioSession>, name: string, delta: int)
    returns (events: seq<AudioSession>, updated: seq<AudioSession>)
    requires delta == 2 || delta == -2
    ensures var target := Wrap32(GetSessionVolume(sessions, name) + delta);
      && events == GetSessions(config, updated, name)
      && |updated| == |sessions|
      && forall i :: 0 <= i < |sessions| ==>
           updated[i] == if 0 <= target <= 100 && Selects(config, name, sessions[i])
                         then sessions[i].(volume := target) else sessions[i]
    ensures GetSessionVolume(sessions, name) == I32Min ==> updated == sessions
  {
    var current := GetSessionVolume(sessions, name);
    var _, after := SetSessionVolume(config, sessions, name, Wrap32(current + delta));
    updated := after;
    events := GetSessions(config, updated, name);
  }

  /** `handle_session_toggle_mute` here: toggle, then emit one event per selected session. */
  method HandleToggleMute(config: Config, sessions: seq<AudioSession>, name: string)
    returns (events: Result<seq<AudioSession>, HandlerPanic>, updated: seq<AudioSession>)
    ensures GetSessions(config, sessions, name) == [] ==> events == Err(ToggleFailed) && updated == sessions
    ensures GetSessions(config, sessions, name) != [] ==>
      && events == Ok(GetSessions(config, updated, name))
      && |updated| == |sessions|
      && forall i :: 0 <= i < |sessions| ==>
           updated[i] == if Selects(config, name, sessions[i])
                         then sessions[i].(mute := !GetSessionMute(sessions, name)) else sessions[i]
  {
    var result;
    result, updated := ToggleSessionMute(config, sessions, name);
    if result.Err? {
      return Err(ToggleFailed), updated;
    }
    events := Ok(GetSessions(config, updated, name));
  }
}
