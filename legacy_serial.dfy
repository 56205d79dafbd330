/**
 * The older serial callback of `src-tauri/src/main.rs` (`read_continuous_serial`):
 * the same field-by-field reconciliation as the service version, except that
 * neither the line nor its fields are trimmed, every changed field emits its
 * events and shows the window, and there is no first-line suppression.
 * The reader behind it (`serial.rs`) is not part of this model: the
 * callback is driven one line at a time.
 */
module LegacySerial {
  import opened Wrappers
  import opened Text
  import opened Config
  import opened ComService

  /** Fields parsed as they are, an event and the window for every change. */
  const LegacyMode: Mode := Mode(false, true, true)

  /**
   * The state the callback closure owns: the cache of signed volumes, the
   * effects so far, and whether the thread is still alive (a panic in the
   * callback ends it).
   */
  class LegacySerialCallback {
    const sessions: seq<SessionConfig>
    var cache: map<string, int>
    var effects: seq<Effect>
    var running: bool

    ghost predicate Valid()
      reads this
    {
      CachesAll(sessions, cache)
    }

    /** Every configured session cached at 0. */
    constructor(config: Config)
      ensures Valid() && running
      ensures sessions == config.sessions
      ensures cache == map n | n in SessionNames(config.sessions) :: 0
      ensures effects == []
    {
      sessions := config.sessions;
      cache := map n | n in SessionNames(config.sessions) :: 0;
      effects := [];
      running := true;
    }

    /**
     * `on_serial_update_callback`: every field of the untrimmed line, in
     * order, up to the first that panics, which ends the thread.
     */
    method OnLine(line: string)
      requires Valid() && running
      modifies this
      ensures Valid()
      ensures var o := LineStep(sessions, old(cache), LegacyMode, line);
        && effects == old(effects) + o.effects
        && cache == o.cache
        && running == o.panic.None?
    {
      var next, added, ok := ApplyLine(sessions, LegacyMode, cache, line);
      cache, effects, running := next, effects + added, ok;
    }
  }

  /** Each changed field emits its event and shows the window exactly once. */
  lemma ShowsWindowPerChange(sessions: seq<SessionConfig>, cache: map<string, int>, line: string)
    requires CachesAll(sessions, cache)
    ensures var e := LineStep(sessions, cache, LegacyMode, line).effects;
      Count(e, IsShow) == Count(e, IsNotify) == Count(e, IsVolume) == Count(e, IsMute)
  {
    var fields := LineFields(LegacyMode, line);
    TargetsCached(sessions, cache, |fields|);
    EffectsPerChange(cache, LegacyMode, Targets(sessions, |fields|), Values(LegacyMode, fields), 0);
  }

  /**
   * A number with whitespace around it, such as the carriage return before
   * a line's newline: the service version reads the number, the older one
   * panics on it.
   */
  lemma PaddedField(n: int, pre: string, post: string, firstRun: bool)
    requires I32Min <= n <= I32Max
    requires AllWhitespace(pre) && AllWhitespace(post) && (pre != [] || post != [])
    ensures FieldValue(CallbackMode(firstRun), pre + IntToString(n) + post) == Some(n)
    ensures FieldValue(LegacyMode, pre + IntToString(n) + post) == None
  {
    var s := pre + IntToString(n) + post;
    RenderedIntIsTrimmed(n);
    TrimPadded(pre, IntToString(n), post);
    ParseRenderInteger(n);
    assert !IsTrimmed(s) by {
      if pre != [] {
        assert s[0] == pre[0];
      } else {
        assert s[|s| - 1] == post[|post| - 1];
      }
    }
    UntrimmedIsNoInteger(s);
    assert FieldValue(LegacyMode, s) == ParseI32(s);
  }
}
