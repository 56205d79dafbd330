/**
 * Registration and dispatch of `src-tauri/src/utils/macro_listener.rs`: which
 * hooks the listener registers for a configuration, the rebuild when the
 * configuration changes, and the ±2 volume step and mute toggle the media
 * keys run on the "master" session.
 */
module MacroListener {
  import opened Wrappers
  import opened Text
  import opened Config
  import opened Key
  import opened Actions
  import opened KeyListener
  import opened VolumeService

  const Master: string := "master"

  /** "VolumeUp" names the volume-up key, so `Key::from_name` does not panic on it. */
  lemma VolumeUpKnown()
    ensures FromName("VolumeUp") == Ok(Key("VolumeUp", VkVolumeUp))
  {
    assert ToUpper("VolumeUp") == "VOLUMEUP";
  }

  /** "VolumeDown" names the volume-down key. */
  lemma VolumeDownKnown()
    ensures FromName("VolumeDown") == Ok(Key("VolumeDown", VkVolumeDown))
  {
    assert ToUpper("VolumeDown") == "VOLUMEDOWN";
  }

  /** "VolumeMute" names the mute key. */
  lemma VolumeMuteKnown()
    ensures FromName("VolumeMute") == Ok(Key("VolumeMute", VkVolumeMute))
  {
    assert ToUpper("VolumeMute") == "VOLUMEMUTE";
  }

  /** The hooks for the media keys, each a one-key chord acting on "master", all blocking. */
  function MediaHooks(): (hooks: seq<HookData>)
    ensures |hooks| == 3
    ensures hooks[0] == HookData(KeyChord([Key("VolumeUp", VkVolumeUp)]), true, SessionUp(Master))
    ensures hooks[1] == HookData(KeyChord([Key("VolumeDown", VkVolumeDown)]), true, SessionDown(Master))
    ensures hooks[2] == HookData(KeyChord([Key("VolumeMute", VkVolumeMute)]), true, SessionToggleMute(Master))
  {
    VolumeUpKnown();
    VolumeDownKnown();
    VolumeMuteKnown();
    [ HookData(KeyChord([FromName("VolumeUp").value]), true, SessionUp(Master)),
      HookData(KeyChord([FromName("VolumeDown").value]), true, SessionDown(Master)),
      HookData(KeyChord([FromName("VolumeMute").value]), true, SessionToggleMute(Master)) ]
  }

  /**
   * The hooks `register_key_listeners` adds, in order: the mixer chord when
   * one is configured, then the media hooks. A mixer chord that
   * `KeyChord::from_string` rejects panics before anything is registered.
   */
  function Registration(config: Config): Result<seq<HookData>, KeyError> {
    match config.mixer.hotkey
    case None => Ok(MediaHooks())
    case Some(hotkey) =>
      match FromString(hotkey)
      case Err(e) => Err(e)
      case Ok(chord) => Ok([HookData(chord, true, ToggleMixer)] + MediaHooks())
  }

  /**
   * Four hooks with a mixer chord (that chord first), three without, all
   * blocking, ending with VolumeUp, VolumeDown and VolumeMute on "master".
   */
  lemma RegistrationShape(config: Config)
    ensures Registration(config).Ok? <==>
      (config.mixer.hotkey.None? || FromString(config.mixer.hotkey.value).Ok?)
    ensures Registration(config).Ok? ==>
      var hooks := Registration(config).value;
      && |hooks| == (if config.mixer.hotkey.Some? then 4 else 3)
      && (forall i :: 0 <= i < |hooks| ==> hooks[i].shouldBlock)
      && hooks[|hooks| - 3..] == MediaHooks()
      && (config.mixer.hotkey.Some? ==>
            hooks[0] == HookData(FromString(config.mixer.hotkey.value).value, true, ToggleMixer))
  {
    var media := MediaHooks();
    match config.mixer.hotkey
    case None =>
      assert Registration(config) == Ok(media);
    case Some(hotkey) =>
      var parsed := FromString(hotkey);
      if parsed.Ok? {
        var hooks := [HookData(parsed.value, true, ToggleMixer)] + media;
        assert Registration(config) == Ok(hooks);
        assert hooks[|hooks| - 3..] == hooks[1..] == media;
      }
  }

  /** Why registration or a configuration change panicked. */
  datatype ListenerPanic =
    | BadHotkey(error: KeyError)   // `KeyChord::from_string` rejected the mixer hotkey
    | PoisonedLock                 // `lock().unwrap()` on a poisoned mutex

  /**
   * The `Arc<Mutex<KeyListener>>` that `initialize_key_listeners` shares with
   * its `config_changed` callback. In `key_listener.lock().unwrap().register(
   * KeyChord::from_string(..), ..)` the guard is taken before the argument is
   * evaluated, so a mixer hotkey that does not parse panics while the guard
   * is held and poisons the mutex; from then on every `lock().unwrap()`
   * panics.
   */
  class SharedListener {
    const listener: KeyListener
    var poisoned: bool

    /** `Arc::new(Mutex::new(listener))`: a fresh, unpoisoned mutex. */
    constructor(listener: KeyListener)
      ensures this.listener == listener && !poisoned
    {
      this.listener := listener;
      poisoned := false;
    }

    /**
     * `register_key_listeners`: registers the hooks of `Registration`; a
     * mixer hotkey that does not parse registers nothing and poisons the
     * mutex, and on a poisoned mutex the first `lock().unwrap()` panics.
     */
    method RegisterKeyListeners(config: Config) returns (outcome: Result<(), ListenerPanic>)
      modifies this, listener
      ensures old(poisoned) ==> outcome == Err(PoisonedLock) && listener.hooks == old(listener.hooks)
      ensures !old(poisoned) ==>
        && (outcome.Ok? <==> Registration(config).Ok?)
        && (outcome.Err? ==> outcome == Err(BadHotkey(Registration(config).error)))
        && listener.hooks == old(listener.hooks) + (if outcome.Ok? then Registration(config).value else [])
      ensures poisoned <==> old(poisoned) || outcome.Err?
      ensures listener.pressedKeys == old(listener.pressedKeys) && listener.installed == old(listener.installed)
    {
      if poisoned {
        return Err(PoisonedLock);
      }
      if config.mixer.hotkey.Some? {
        var parsed := FromString(config.mixer.hotkey.value);
        if parsed.Err? {
          poisoned := true;
          return Err(BadHotkey(parsed.error));
        }
        listener.Register(parsed.value, true, ToggleMixer);
      }
      RegisterMediaHooks();
      outcome := Ok(());
    }

    /** The three `register` calls for the media keys, in order. */
    method RegisterMediaHooks()
      modifies listener
      ensures listener.hooks == old(listener.hooks) + MediaHooks()
      ensures listener.pressedKeys == old(listener.pressedKeys) && listener.installed == old(listener.installed)
    {
      var media := MediaHooks();
      listener.Register(media[0].chord, true, SessionUp(Master));
      listener.Register(media[1].chord, true, SessionDown(Master));
      listener.Register(media[2].chord, true, SessionToggleMute(Master));
      assert media == [media[0], media[1], media[2]];
    }

    /**
     * The `config_changed` listener: a payload that does not deserialise
     * changes nothing; on a poisoned mutex the first `lock().unwrap()`
     * panics before anything changes; otherwise the old hooks are cleared,
     * the hook is reinstalled, and the registry becomes a fresh registration
     * of the new configuration.
     */
    method ConfigChanged(payload: Option<Config>) returns (outcome: Result<(), ListenerPanic>)
      modifies this, listener
      ensures payload.None? ==>
        && outcome.Ok? && poisoned == old(poisoned)
        && listener.hooks == old(listener.hooks) && listener.installed == old(listener.installed)
      ensures payload.Some? && old(poisoned) ==>
        && outcome == Err(PoisonedLock) && poisoned
        && listener.hooks == old(listener.hooks) && listener.installed == old(listener.installed)
      ensures payload.Some? && !old(poisoned) ==>
        && listener.installed
        && (outcome.Ok? <==> Registration(payload.value).Ok?)
        && listener.hooks == (if outcome.Ok? then Registration(payload.value).value else [])
        && (poisoned <==> outcome.Err?)
      ensures listener.pressedKeys == old(listener.pressedKeys)
    {
      if payload.None? {
        return Ok(());
      }
      if poisoned {
        return Err(PoisonedLock);
      }
      listener.Dispose();
      listener.Init();
      outcome := RegisterKeyListeners(payload.value);
    }
  }

  /** Why a handler panicked. */
  datatype HandlerPanic =
    | UnwrapNone      // `set_session_volume(..).unwrap()` on `None`
    | ToggleFailed    // `toggle_session_mute` found no session

  /**
   * `handle_session_up`: asks for the current volume plus 2 and unwraps the
   * answer; the emitted volume-change event carries the returned session.
   * It panics for a missing session (the `i32::MIN` sentinel), from 99 or
   * 100, and when nothing is selected.
   */
  method HandleSessionUp(config: Config, sessions: seq<AudioSession>, name: string)
    returns (event: Result<AudioSession, HandlerPanic>, updated: seq<AudioSession>)
    ensures var current := GetSessionVolume(sessions, name);
      event.Ok? <==> current != I32Min && current <= 98 && GetSessions(config, sessions, name) != []
    ensures event.Ok? ==>
      event.value.volume == GetSessionVolume(sessions, name) + 2 && event.value in updated
      && Selects(config, name, event.value)
      && |updated| == |sessions|
      && (forall i :: 0 <= i < |sessions| ==>
            updated[i] == if Selects(config, name, sessions[i])
                          then sessions[i].(volume := GetSessionVolume(sessions, name) + 2) else sessions[i])
      && FirstSelected(config, sessions, name).Some?
      && event.value == updated[FirstSelected(config, sessions, name).value]
    ensures event.Err? ==> event.error == UnwrapNone && updated == sessions
  {
    var current := GetSessionVolume(sessions, name);
    var result;
    result, updated := SetSessionVolume(config, sessions, name, Wrap32(current + 2));
    if result.None? {
      return Err(UnwrapNone), updated;
    }
    event := Ok(result.value);
  }

  /**
   * `handle_session_down`: as `HandleSessionUp` with the current volume
   * minus 2. From the `i32::MIN` sentinel the subtraction wraps to
   * `i32::MAX - 1`, which `set_session_volume` refuses, so the unwrap
   * panics, as it does from 0 or 1.
   */
  method HandleSessionDown(config: Config, sessions: seq<AudioSession>, name: string)
    returns (event: Result<AudioSession, HandlerPanic>, updated: seq<AudioSession>)
    ensures var current := GetSessionVolume(sessions, name);
      event.Ok? <==> current != I32Min && current >= 2 && GetSessions(config, sessions, name) != []
    ensures event.Ok? ==>
      event.value.volume == GetSessionVolume(sessions, name) - 2 && event.value in updated
      && Selects(config, name, event.value)
      && |updated| == |sessions|
      && (forall i :: 0 <= i < |sessions| ==>
            updated[i] == if Selects(config, name, sessions[i])
                          then sessions[i].(volume := GetSessionVolume(sessions, name) - 2) else sessions[i])
      && FirstSelected(config, sessions, name).Some?
      && event.value == updated[FirstSelected(config, sessions, name).value]
    ensures event.Err? ==> event.error == UnwrapNone && updated == sessions
  {
    var current := GetSessionVolume(sessions, name);
    var result;
    result, updated := SetSessionVolume(config, sessions, name, Wrap32(current - 2));
    if result.None? {
      return Err(UnwrapNone), updated;
    }
    event := Ok(result.value);
  }

  /** `handle_session_toggle_mute`: toggles and emits the returned session, or panics when none is selected. */
  method HandleSessionToggleMute(config: Config, sessions: seq<AudioSession>, name: string)
    returns (event: Result<AudioSession, HandlerPanic>, updated: seq<AudioSession>)
    ensures event.Ok? <==> GetSessions(config, sessions, name) != []
    ensures event.Ok? ==>
      event.value in updated && Selects(config, name, event.value)
      && event.value.mute == !GetSessionMute(sessions, name)
      && |updated| == |sessions|
      && (forall i :: 0 <= i < |sessions| ==>
            updated[i] == if Selects(config, name, sessions[i])
                          then sessions[i].(mute := !GetSessionMute(sessions, name)) else sessions[i])
      && FirstSelected(config, sessions, name).Some?
      && event.value == updated[FirstSelected(config, sessions, name).value]
    ensures event.Err? ==> event.error == ToggleFailed && updated == sessions
  {
    var result;
    result, updated := ToggleSessionMute(config, sessions, name);
    if result.Err? {
      return Err(ToggleFailed), updated;
    }
    event := Ok(result.value);
  }
}
