/**
 * The serial reconciler of `src-tauri/src/services/com_service.rs`: bytes
 * read from the device are cut into newline-terminated lines, a line is
 * delivered only 50 ms after the last delivered one, and each delivered line
 * `v0|v1|…` is compared field by field with a cache of signed volumes
 * (negative meaning muted); only changed fields reach the volume service.
 * Time is the `now` parameter; the calls to the volume service and the
 * emitted events are appended to a log of effects.
 */
module ComService {
  import opened Wrappers
  import opened Text
  import opened Config

  /** `DEBOUNCE_INTERVAL`, in milliseconds. */
  const DebounceInterval: int := 50
  const Newline: U8 := 0x0A

  /** What the callback asks of the rest of the program. */
  datatype Effect =
    | MuteCall(session: string, mute: bool)
    | VolumeCall(session: string, volume: int)
    | Notify(session: string)   // one volume-change event per session `get_sessions` returns
    | ShowWindow

  /** The panics of the callback: `find(..).unwrap()` and the failed `parse::<i32>`. */
  datatype LinePanic = NoSessionForEncoder(index: nat) | NotAnInteger(index: nat)

  /** How a version of the callback reads its fields and what it does on a change. */
  datatype Mode = Mode(trimFields: bool, notify: bool, showWindow: bool)

  /** `index as u8`: the field index truncated to eight bits. */
  function EncoderOf(index: nat): U8 {
    index % 0x100
  }

  /** The position of the first session with the encoder, or `|sessions|`. */
  function FirstWithEncoder(sessions: seq<SessionConfig>, encoder: U8): (i: nat)
    ensures i <= |sessions|
    ensures i < |sessions| ==> sessions[i].encoder == encoder
    ensures forall j :: 0 <= j < i ==> sessions[j].encoder != encoder
  {
    if sessions == [] then 0
    else if sessions[0].encoder == encoder then 0
    else 1 + FirstWithEncoder(sessions[1..], encoder)
  }

  /** `config.sessions.iter().find(|s| s.encoder == encoder)`. */
  function FindByEncoder(sessions: seq<SessionConfig>, encoder: U8): (r: Option<SessionConfig>)
    ensures r.Some? <==> exists i :: 0 <= i < |sessions| && sessions[i].encoder == encoder
    ensures r.Some? ==> r.value in sessions && r.value.encoder == encoder
  {
    var i := FirstWithEncoder(sessions, encoder);
    if i < |sessions| then Some(sessions[i]) else None
  }

  /** `i32::abs` as built for release, where `i32::MIN` wraps to itself. */
  function Abs32(v: int): (r: int)
    ensures v != I32Min ==> 0 <= r == (if v < 0 then -v else v)
    ensures v == I32Min ==> r == I32Min
  {
    if v == I32Min then I32Min else if v < 0 then -v else v
  }

  /** The value of one field, or `None` where the parse panics. */
  function FieldValue(mode: Mode, field: string): Option<int> {
    ParseI32(if mode.trimFields then Trim(field) else field)
  }

  /** The calls made for a field whose value changed, in order. */
  function ChangeEffects(mode: Mode, name: string, v: int): seq<Effect> {
    [MuteCall(name, v < 0), VolumeCall(name, Abs32(v))]
    + (if mode.notify then [Notify(name)] else [])
    + (if mode.showWindow then [ShowWindow] else [])
  }

  /** Every configured session has a cache entry. */
  predicate CachesAll(sessions: seq<SessionConfig>, cache: map<string, int>) {
    SessionNames(sessions) <= cache.Keys
  }

  /** The session that field `index` addresses, when there is one. */
  function TargetName(sessions: seq<SessionConfig>, index: nat): (r: Option<string>)
    ensures r.Some? ==> r.value in SessionNames(sessions)
  {
    match FindByEncoder(sessions, EncoderOf(index))
    case None => None
    case Some(s) => Some(s.name)
  }

  /** The session each of `n` fields addresses. */
  function Targets(sessions: seq<SessionConfig>, n: nat): (t: seq<Option<string>>)
    ensures |t| == n
  {
    seq(n, k requires 0 <= k < n => TargetName(sessions, k))
  }

  /** The value of each field, or `None` where its parse panics. */
  function Values(mode: Mode, fields: seq<string>): (v: seq<Option<int>>)
    ensures |v| == |fields|
  {
    seq(|fields|, k requires 0 <= k < |fields| => FieldValue(mode, fields[k]))
  }

  /** Every addressed session has a cache entry. */
  predicate Cached(targets: seq<Option<string>>, cache: map<string, int>) {
    forall k :: 0 <= k < |targets| && targets[k].Some? ==> targets[k].value in cache
  }

  lemma TargetsCached(sessions: seq<SessionConfig>, cache: map<string, int>, n: nat)
    requires CachesAll(sessions, cache)
    ensures Cached(Targets(sessions, n), cache)
  {
  }

  /** The outcome of a line: the calls made, the cache after it, and the panic that ended it, if any. */
  datatype LineOutcome = LineOutcome(effects: seq<Effect>, cache: map<string, int>, panic: Option<LinePanic>)

  /**
   * The fields from position `i` on, given the session each addresses and
   * its parsed value: a missing session panics first, then a value that did
   * not parse; a value equal to the cached one does nothing; a changed one
   * makes its calls and is cached. A panic keeps what the earlier fields did.
   */
  function FieldsStep(cache: map<string, int>, mode: Mode, targets: seq<Option<string>>, values: seq<Option<int>>, i: nat)
    : (r: LineOutcome)
    requires i <= |targets| == |values| && Cached(targets, cache)
    ensures r.cache.Keys == cache.Keys
    decreases |targets| - i
  {
    if i == |targets| then LineOutcome([], cache, None)
    else if targets[i].None? then LineOutcome([], cache, Some(NoSessionForEncoder(i)))
    else if values[i].None? then LineOutcome([], cache, Some(NotAnInteger(i)))
    else
      var name := targets[i].value;
      var v := values[i].value;
      if cache[name] == v then FieldsStep(cache, mode, targets, values, i + 1)
      else
        var rest := FieldsStep(cache[name := v], mode, targets, values, i + 1);
        LineOutcome(ChangeEffects(mode, name, v) + rest.effects, rest.cache, rest.panic)
  }

  /** One step of `FieldsStep` on a field that addresses a session and parses. */
  lemma FieldsStepHead(cache: map<string, int>, mode: Mode, targets: seq<Option<string>>, values: seq<Option<int>>, i: nat)
    requires i < |targets| == |values| && Cached(targets, cache)
    requires targets[i].Some? && values[i].Some?
    ensures var name := targets[i].value;
      var v := values[i].value;
      var next := cache[name := v];
      && Cached(targets, next)
      && FieldsStep(cache, mode, targets, values, i)
         == if cache[name] == v then FieldsStep(cache, mode, targets, values, i + 1)
            else var rest := FieldsStep(next, mode, targets, values, i + 1);
              LineOutcome(ChangeEffects(mode, name, v) + rest.effects, rest.cache, rest.panic)
  {
  }

  /** The calls `done` already made, followed by the outcome `o` of the fields after them. */
  function After(done: seq<Effect>, o: LineOutcome): LineOutcome {
    LineOutcome(done + o.effects, o.cache, o.panic)
  }

  /** A field that addresses a session and parses: its calls join those made, and the fields after it go on from its cache. */
  lemma StepAdvances(c: map<string, int>, mode: Mode, targets: seq<Option<string>>, values: seq<Option<int>>, i: nat,
                     done: seq<Effect>, next: map<string, int>, more: seq<Effect>)
    requires i < |targets| == |values| && Cached(targets, c)
    requires targets[i].Some? && values[i].Some? && targets[i].value in c
    requires next == c[targets[i].value := values[i].value]
    requires more == if c[targets[i].value] == values[i].value then [] else ChangeEffects(mode, targets[i].value, values[i].value)
    ensures Cached(targets, next)
    ensures After(done, FieldsStep(c, mode, targets, values, i)) == After(done + more, FieldsStep(next, mode, targets, values, i + 1))
  {
    FieldsStepHead(c, mode, targets, values, i);
    var rest := FieldsStep(next, mode, targets, values, i + 1);
    if c[targets[i].value] == values[i].value {
      assert next == c;
      assert done + more == done;
    } else {
      AppendAssociates(done, more, rest.effects);
    }
  }

  lemma AppendAssociates<T>(a: seq<T>, b: seq<T>, c: seq<T>)
    ensures (a + b) + c == a + (b + c)
  {
  }

  /** The fields of a line: split on `|`, the line trimmed first when the mode trims. */
  function LineFields(mode: Mode, line: string): (fields: seq<string>)
    ensures |fields| >= 1
  {
    Split(if mode.trimFields then Trim(line) else line, '|')
  }

  /** What the callback does with a line, starting from `cache`. */
  function LineStep(sessions: seq<SessionConfig>, cache: map<string, int>, mode: Mode, line: string): (r: LineOutcome)
    requires CachesAll(sessions, cache)
    ensures r.cache.Keys == cache.Keys
  {
    var fields := LineFields(mode, line);
    TargetsCached(sessions, cache, |fields|);
    FieldsStep(cache, mode, Targets(sessions, |fields|), Values(mode, fields), 0)
  }

  /** A silent mode makes no event calls, whatever the fields. */
  lemma {:induction false} SilentModeNotifies(cache: map<string, int>, mode: Mode, targets: seq<Option<string>>, values: seq<Option<int>>, i: nat)
    requires i <= |targets| == |values| && Cached(targets, cache) && !mode.notify && !mode.showWindow
    ensures forall e :: e in FieldsStep(cache, mode, targets, values, i).effects ==> e.MuteCall? || e.VolumeCall?
    decreases |targets| - i
  {
    if i < |targets| && targets[i].Some? && values[i].Some? {
      var name := targets[i].value;
      var v := values[i].value;
      var next := if cache[name] == v then cache else cache[name := v];
      SilentModeNotifies(next, mode, targets, values, i + 1);
    }
  }

  /** How many of the effects satisfy `p`. */
  function Count(e: seq<Effect>, p: Effect -> bool): (n: nat)
    ensures n <= |e|
  {
    if e == [] then 0 else (if p(e[0]) then 1 else 0) + Count(e[1..], p)
  }

  lemma {:induction false} CountAppend(a: seq<Effect>, b: seq<Effect>, p: Effect -> bool)
    ensures Count(a + b, p) == Count(a, p) + Count(b, p)
    decreases |a|
  {
    if a == [] {
      assert a + b == b;
    } else {
      assert (a + b)[1..] == a[1..] + b;
      CountAppend(a[1..], b, p);
    }
  }

  predicate IsMute(e: Effect) { e.MuteCall? }
  predicate IsVolume(e: Effect) { e.VolumeCall? }
  predicate IsNotify(e: Effect) { e.Notify? }
  predicate IsShow(e: Effect) { e.ShowWindow? }

  /** How many calls for one changed field satisfy `p`. */
  lemma ChangeCount(mode: Mode, name: string, v: int, p: Effect -> bool)
    ensures Count(ChangeEffects(mode, name, v), p)
         == (if p(MuteCall(name, v < 0)) then 1 else 0) + (if p(VolumeCall(name, Abs32(v))) then 1 else 0)
          + (if mode.notify && p(Notify(name)) then 1 else 0) + (if mode.showWindow && p(ShowWindow) then 1 else 0)
  {
    var calls: seq<Effect> := [MuteCall(name, v < 0), VolumeCall(name, Abs32(v))];
    var notify: seq<Effect> := if mode.notify then [Notify(name)] else [];
    var show: seq<Effect> := if mode.showWindow then [ShowWindow] else [];
    assert ChangeEffects(mode, name, v) == calls + (notify + show);
    CountAppend(calls, notify + show, p);
    CountAppend(notify, show, p);
    assert calls[1..] == [VolumeCall(name, Abs32(v))] && calls[1..][1..] == [];
    assert notify != [] ==> notify[1..] == [];
    assert show != [] ==> show[1..] == [];
  }

  /** The calls for one changed field: one mute and one volume call, then an event and a window as the mode says. */
  lemma ChangeCounts(mode: Mode, name: string, v: int)
    ensures var e := ChangeEffects(mode, name, v);
      && Count(e, IsMute) == Count(e, IsVolume) == 1
      && Count(e, IsNotify) == (if mode.notify then 1 else 0)
      && Count(e, IsShow) == (if mode.showWindow then 1 else 0)
  {
    ChangeCount(mode, name, v, IsMute);
    ChangeCount(mode, name, v, IsVolume);
    ChangeCount(mode, name, v, IsNotify);
    ChangeCount(mode, name, v, IsShow);
  }

  /**
   * Every changed field sets mute and volume once each, emits its event
   * once when the mode notifies, and shows the window once when the mode
   * shows it; nothing else makes these calls.
   */
  lemma {:induction false} EffectsPerChange(cache: map<string, int>, mode: Mode, targets: seq<Option<string>>, values: seq<Option<int>>, i: nat)
    requires i <= |targets| == |values| && Cached(targets, cache)
    ensures var e := FieldsStep(cache, mode, targets, values, i).effects;
      && Count(e, IsMute) == Count(e, IsVolume)
      && Count(e, IsNotify) == (if mode.notify then Count(e, IsVolume) else 0)
      && Count(e, IsShow) == (if mode.showWindow then Count(e, IsVolume) else 0)
    decreases |targets| - i
  {
    if i < |targets| && targets[i].Some? && values[i].Some? {
      var name := targets[i].value;
      var v := values[i].value;
      if cache[name] == v {
        EffectsPerChange(cache, mode, targets, values, i + 1);
      } else {
        var next := cache[name := v];
        var rest := FieldsStep(next, mode, targets, values, i + 1);
        EffectsPerChange(next, mode, targets, values, i + 1);
        ChangeCounts(mode, name, v);
        var change := ChangeEffects(mode, name, v);
        CountAppend(change, rest.effects, IsMute);
        CountAppend(change, rest.effects, IsVolume);
        CountAppend(change, rest.effects, IsNotify);
        CountAppend(change, rest.effects, IsShow);
      }
    }
  }

  /** Once the first line has completed, every changed field emits its event, and the window is never shown. */
  lemma LaterLinesNotifyEachChange(sessions: seq<SessionConfig>, cache: map<string, int>, line: string)
    requires CachesAll(sessions, cache)
    ensures var e := LineStep(sessions, cache, CallbackMode(false), line).effects;
      Count(e, IsNotify) == Count(e, IsVolume) == Count(e, IsMute) && Count(e, IsShow) == 0
  {
    var mode := CallbackMode(false);
    var fields := LineFields(mode, line);
    TargetsCached(sessions, cache, |fields|);
    EffectsPerChange(cache, mode, Targets(sessions, |fields|), Values(mode, fields), 0);
  }

  /** From position `i` on, each field addresses a session and equals that session's cached value. */
  predicate Settled(cache: map<string, int>, targets: seq<Option<string>>, values: seq<Option<int>>, i: nat)
    requires |targets| == |values|
  {
    forall k :: i <= k < |targets| ==> targets[k].Some? && targets[k].value in cache && values[k] == Some(cache[targets[k].value])
  }

  /** Fields that each equal their session's cached value call nothing and change nothing. */
  lemma {:induction false} SettledFieldsAreQuiet(cache: map<string, int>, mode: Mode, targets: seq<Option<string>>, values: seq<Option<int>>, i: nat)
    requires i <= |targets| == |values| && Cached(targets, cache) && Settled(cache, targets, values, i)
    ensures FieldsStep(cache, mode, targets, values, i) == LineOutcome([], cache, None)
    decreases |targets| - i
  {
    if i < |targets| {
      SettledFieldsAreQuiet(cache, mode, targets, values, i + 1);
    }
  }

  /** Fields only write the cache entries of the sessions they address. */
  lemma {:induction false} FieldsStepFrame(cache: map<string, int>, mode: Mode, targets: seq<Option<string>>, values: seq<Option<int>>, i: nat, name: string)
    requires i <= |targets| == |values| && Cached(targets, cache) && name in cache
    requires forall k :: i <= k < |targets| ==> targets[k] != Some(name)
    ensures FieldsStep(cache, mode, targets, values, i).cache[name] == cache[name]
    decreases |targets| - i
  {
    if i < |targets| && targets[i].Some? && values[i].Some? {
      var n := targets[i].value;
      var v := values[i].value;
      var next := if cache[n] == v then cache else cache[n := v];
      FieldsStepFrame(next, mode, targets, values, i + 1, name);
    }
  }

  /** A sequence without repetitions. */
  predicate Distinct<T(==)>(t: seq<T>) {
    forall j, k :: 0 <= j < k < |t| ==> t[j] != t[k]
  }

  /** After fields that did not panic, each addressed session's entry holds its field's value when the sessions are distinct. */
  lemma {:induction false} CacheAfterFields(cache: map<string, int>, mode: Mode, targets: seq<Option<string>>, values: seq<Option<int>>, i: nat)
    requires i <= |targets| == |values| && Cached(targets, cache) && Distinct(targets)
    requires FieldsStep(cache, mode, targets, values, i).panic.None?
    ensures Settled(FieldsStep(cache, mode, targets, values, i).cache, targets, values, i)
    decreases |targets| - i
  {
    if i < |targets| {
      var name := targets[i].value;
      var v := values[i].value;
      var next := cache[name := v];
      var whole := FieldsStep(cache, mode, targets, values, i);
      var rest := FieldsStep(next, mode, targets, values, i + 1);
      assert whole.cache == rest.cache && whole.panic == rest.panic by {
        if cache[name] == v {
          assert next == cache;
        }
      }
      CacheAfterFields(next, mode, targets, values, i + 1);
      FieldsStepFrame(next, mode, targets, values, i + 1, name);
    }
  }

  /**
   * Receiving the same line twice: the second time calls nothing and
   * changes nothing, when its fields address distinct sessions.
   */
  lemma RepeatedLineIsQuiet(sessions: seq<SessionConfig>, cache: map<string, int>, mode: Mode, line: string)
    requires CachesAll(sessions, cache)
    requires LineStep(sessions, cache, mode, line).panic.None?
    requires Distinct(Targets(sessions, |LineFields(mode, line)|))
    ensures var after := LineStep(sessions, cache, mode, line).cache;
      LineStep(sessions, after, mode, line) == LineOutcome([], after, None)
  {
    var fields := LineFields(mode, line);
    var t := Targets(sessions, |fields|);
    var v := Values(mode, fields);
    TargetsCached(sessions, cache, |fields|);
    CacheAfterFields(cache, mode, t, v, 0);
    var after := LineStep(sessions, cache, mode, line).cache;
    TargetsCached(sessions, after, |fields|);
    SettledFieldsAreQuiet(after, mode, t, v, 0);
  }

  /** Before the first line completes, no event is emitted and no window shown. */
  lemma FirstLineIsSilent(sessions: seq<SessionConfig>, cache: map<string, int>, line: string)
    requires CachesAll(sessions, cache)
    ensures forall e :: e in LineStep(sessions, cache, CallbackMode(true), line).effects ==> e.MuteCall? || e.VolumeCall?
  {
    var mode := CallbackMode(true);
    var fields := LineFields(mode, line);
    TargetsCached(sessions, cache, |fields|);
    SilentModeNotifies(cache, mode, Targets(sessions, |fields|), Values(mode, fields), 0);
  }

  /** `String::from_utf8_lossy`, byte by byte: ASCII bytes are their characters, other bytes U+FFFD. */
  function Decode(bytes: seq<U8>): (s: string)
    ensures |s| == |bytes|
    ensures forall i :: 0 <= i < |bytes| && bytes[i] < 0x80 ==> s[i] == bytes[i] as char
  {
    seq(|bytes|, i requires 0 <= i < |bytes| => if bytes[i] < 0x80 then bytes[i] as char else '�')
  }

  /** `buffer.iter().position(|&r| r == b'\n')`, or `|b|` when there is none. */
  function NewlineAt(b: seq<U8>): (i: nat)
    ensures i <= |b| && Newline !in b[..i]
    ensures i < |b| ==> b[i] == Newline
  {
    if b == [] || b[0] == Newline then 0
    else
      var j := NewlineAt(b[1..]);
      assert b[..1 + j] == [b[0]] + b[1..][..j];
      1 + j
  }

  /** The complete lines of a buffer and the bytes after the last newline. */
  datatype Lines = Lines(complete: seq<seq<U8>>, rest: seq<U8>)

  function SplitLines(b: seq<U8>): (r: Lines)
    ensures Newline !in r.rest
    ensures forall k :: 0 <= k < |r.complete| ==> Newline !in r.complete[k]
    decreases |b|
  {
    var i := NewlineAt(b);
    if i == |b| then
      assert b[..i] == b;
      Lines([], b)
    else
      var tail := SplitLines(b[i + 1..]);
      Lines([b[..i]] + tail.complete, tail.rest)
  }

  /** The lines, each followed by its newline. */
  function Terminated(lines: seq<seq<U8>>): seq<U8> {
    if lines == [] then [] else lines[0] + [Newline] + Terminated(lines[1..])
  }

  /** Cutting a buffer into lines loses no byte and adds none. */
  lemma {:induction false} SplitLinesRestores(b: seq<U8>)
    ensures Terminated(SplitLines(b).complete) + SplitLines(b).rest == b
    decreases |b|
  {
    var i := NewlineAt(b);
    if i == |b| {
      assert b[..i] == b;
    } else {
      var tail := SplitLines(b[i + 1..]);
      SplitLinesRestores(b[i + 1..]);
      TerminatedCons(b[..i], tail.complete);
      CutAt(b, i);
      AppendAssociates(b[..i] + [Newline], Terminated(tail.complete), tail.rest);
    }
  }

  lemma TerminatedCons(line: seq<U8>, lines: seq<seq<U8>>)
    ensures Terminated([line] + lines) == line + [Newline] + Terminated(lines)
  {
    assert ([line] + lines)[1..] == lines;
  }

  lemma CutAt(b: seq<U8>, i: nat)
    requires i < |b| && b[i] == Newline
    ensures b == b[..i] + [Newline] + b[i + 1..]
  {
    assert b[i..] == [Newline] + b[i + 1..];
    assert b == b[..i] + b[i..];
  }

  /** A buffer holding a newline: its first line, then the lines of what follows that newline. */
  lemma SplitLinesStep(b: seq<U8>)
    requires Newline in b
    ensures NewlineAt(b) < |b|
    ensures var i := NewlineAt(b);
      var tail := SplitLines(b[i + 1..]);
      SplitLines(b) == Lines([b[..i]] + tail.complete, tail.rest)
  {
    assert b[..|b|] == b;
  }

  /** A buffer without newline holds no complete line. */
  lemma SplitLinesDone(b: seq<U8>)
    requires Newline !in b
    ensures SplitLines(b) == Lines([], b)
  {
    assert b[..NewlineAt(b)] == b[..|b|] == b;
  }

  lemma ConsInjective<T>(a: T, x: seq<T>, b: T, y: seq<T>)
    requires [a] + x == [b] + y
    ensures a == b && x == y
  {
    assert a == ([a] + x)[0] && b == ([b] + y)[0];
    assert x == ([a] + x)[1..] && y == ([b] + y)[1..];
  }

  lemma DropOne<T>(s: seq<T>, k: nat)
    requires k < |s|
    ensures s[k..] == [s[k]] + s[k + 1..]
  {
  }

  /** The line a read delivers, if any: the first completed line, when 50 ms have passed since the last delivery. */
  function DeliveredLine(buffer: seq<U8>, now: int, lastInvoke: int): Option<seq<U8>> {
    var lines := SplitLines(buffer).complete;
    if |lines| > 0 && now - lastInvoke >= DebounceInterval then Some(lines[0]) else None
  }

  /** What one call of `serial_port.read` produced. */
  datatype ReadResult = Data(bytes: seq<U8>) | TimedOut | Failed

  /** The mode of this callback: fields trimmed, events only after the first line, no window. */
  function CallbackMode(firstRun: bool): Mode {
    Mode(true, !firstRun, false)
  }

  /** The state of a listener at one instant. */
  datatype Snapshot = Snapshot(sessions: seq<SessionConfig>, cache: map<string, int>, firstRun: bool,
                               buffer: seq<U8>, lastInvoke: int, running: bool, effects: seq<Effect>)

  /**
   * What the callback does with `line`: its calls are appended to the
   * effects, the cache is the one it leaves, the thread goes on running
   * unless it panicked, and the first-run flag is cleared once a line
   * completes.
   */
  predicate Handled(s: Snapshot, t: Snapshot, line: string)
    requires CachesAll(s.sessions, s.cache)
  {
    var o := LineStep(s.sessions, s.cache, CallbackMode(s.firstRun), line);
    && t.effects == s.effects + o.effects && t.cache == o.cache && t.running == o.panic.None?
    && t.firstRun == (s.firstRun && o.panic.Some?)
  }

  /**
   * What receiving `bytes` at `now` does: the line delivered, if any, goes
   * through the callback, and while the thread runs the buffer keeps only
   * the bytes after the last newline.
   */
  predicate Received(s: Snapshot, t: Snapshot, bytes: seq<U8>, now: int)
    requires CachesAll(s.sessions, s.cache)
  {
    var d := DeliveredLine(s.buffer + bytes, now, s.lastInvoke);
    && t.sessions == s.sessions
    && (d.None? ==>
          t.cache == s.cache && t.firstRun == s.firstRun && t.effects == s.effects
          && t.lastInvoke == s.lastInvoke && t.running)
    && (d.Some? ==>
          Handled(s, t, Decode(d.value)) && t.lastInvoke == (if t.running then now else s.lastInvoke))
    && (t.running ==> t.buffer == SplitLines(s.buffer + bytes).rest)
  }

  /** The names of the configured sessions. */
  function SessionNames(sessions: seq<SessionConfig>): set<string> {
    set s | s in sessions :: s.name
  }

  /** The per-field facts of a line's fields. */
  lemma FieldsAt(sessions: seq<SessionConfig>, mode: Mode, fields: seq<string>)
    ensures forall k :: 0 <= k < |fields| ==>
      FieldAt(sessions, mode, fields, Targets(sessions, |fields|), Values(mode, fields), k)
  {
    forall k | 0 <= k < |fields|
      ensures FieldAt(sessions, mode, fields, Targets(sessions, |fields|), Values(mode, fields), k)
    {
    }
  }

  /**
   * `on_serial_update_callback` on one line, from the cache `c`: the fields
   * of the trimmed line in order, up to the first that panics.
   */
  method ApplyLine(sessions: seq<SessionConfig>, mode: Mode, c: map<string, int>, line: string)
    returns (next: map<string, int>, added: seq<Effect>, ok: bool)
    requires CachesAll(sessions, c)
    ensures var o := LineStep(sessions, c, mode, line);
      added == o.effects && next == o.cache && ok == o.panic.None?
  {
    var fields := Split(if mode.trimFields then Trim(line) else line, '|');
    assert LineFields(mode, line) == fields;
    TargetsCached(sessions, c, |fields|);
    FieldsAt(sessions, mode, fields);
    next, added, ok := ApplyFields(sessions, mode, c, fields, Targets(sessions, |fields|), Values(mode, fields));
  }

  /** Field `k` addresses `targets[k]` and has the value `values[k]`. */
  predicate FieldAt(sessions: seq<SessionConfig>, mode: Mode, fields: seq<string>, targets: seq<Option<string>>, values: seq<Option<int>>, k: nat)
    requires k < |fields| == |targets| == |values|
  {
    targets[k] == TargetName(sessions, k) && values[k] == FieldValue(mode, fields[k])
  }

  /**
   * The fields of a line in order, from the cache `c`, up to the first that
   * panics: the cache they leave, the calls they make, and whether none
   * panicked.
   */
  method ApplyFields(sessions: seq<SessionConfig>, mode: Mode, c: map<string, int>, fields: seq<string>,
                     ghost targets: seq<Option<string>>, ghost values: seq<Option<int>>)
    returns (next: map<string, int>, added: seq<Effect>, ok: bool)
    requires |targets| == |values| == |fields|
    requires forall k :: 0 <= k < |fields| ==> FieldAt(sessions, mode, fields, targets, values, k)
    requires Cached(targets, c)
    ensures var o := FieldsStep(c, mode, targets, values, 0);
      added == o.effects && next == o.cache && ok == o.panic.None?
  {
    ghost var whole := FieldsStep(c, mode, targets, values, 0);
    next, added := c, [];
    assert After([], whole) == whole;
    var i := 0;
    while i < |fields|
      invariant 0 <= i <= |fields| && Cached(targets, next)
      invariant After(added, FieldsStep(next, mode, targets, values, i)) == whole
    {
      ghost var c0, e0 := next, added;
      var more;
      next, more, ok := ApplyField(sessions, mode, i, fields[i], next, fields, targets, values);
      added := added + more;
      if !ok {
        assert added == e0;
        return;
      }
      StepAdvances(c0, mode, targets, values, i, e0, next, more);
      i := i + 1;
    }
    ok := true;
  }

  /**
   * One field of the line at position `index`, from the cache `c`: find
   * the session with that encoder, parse the field (trimmed when the mode
   * trims), and on a value that differs from the cached one mute when
   * negative, cache the signed value, set the volume, then notify and show
   * the window as the mode says. `ok` is false where the source panics.
   */
  method ApplyField(sessions: seq<SessionConfig>, mode: Mode, index: nat, field: string, c: map<string, int>,
                    ghost fields: seq<string>, ghost targets: seq<Option<string>>, ghost values: seq<Option<int>>)
    returns (next: map<string, int>, added: seq<Effect>, ok: bool)
    requires index < |fields| == |targets| == |values| && field == fields[index]
    requires FieldAt(sessions, mode, fields, targets, values, index)
    requires targets[index].Some? ==> targets[index].value in c
    ensures ok <==> targets[index].Some? && values[index].Some?
    ensures !ok ==> next == c && added == []
    ensures ok ==> next == c[targets[index].value := values[index].value]
    ensures ok ==> added == if c[targets[index].value] == values[index].value then []
                            else ChangeEffects(mode, targets[index].value, values[index].value)
  {
    next, added := c, [];
    var found := FindByEncoder(sessions, EncoderOf(index));
    if found.None? {
      return next, added, false;
    }
    var name := found.value.name;
    var current := c[name];
    var value := ParseI32(if mode.trimFields then Trim(field) else field);
    if value.None? {
      return next, added, false;
    }
    if current != value.value {
      var w := value.value;
      next := next[name := w];
      added := [MuteCall(name, w < 0), VolumeCall(name, Abs32(w))];
      var notify: seq<Effect> := if mode.notify then [Notify(name)] else [];
      var show: seq<Effect> := if mode.showWindow then [ShowWindow] else [];
      added := added + notify + show;
    }
    return next, added, true;
  }

  /**
   * The state of the listener thread: the callback's cache and first-run
   * flag, the reader's buffer and last delivery instant, and the effects so
   * far. `running` turns false when the thread ends, by a panic in the
   * callback or a read error.
   */
  class SerialListener {
    const sessions: seq<SessionConfig>
    var cache: map<string, int>
    var firstRun: bool
    var buffer: seq<U8>
    var lastInvoke: int
    var running: bool
    var effects: seq<Effect>

    function State(): Snapshot
      reads this
    {
      Snapshot(sessions, cache, firstRun, buffer, lastInvoke, running, effects)
    }

    ghost predicate Valid()
      reads this
    {
      CachesAll(sessions, cache) && (running ==> Newline !in buffer)
    }

    /** The thread starts: every configured session cached at 0, first-run flag set, the port just opened. */
    constructor(config: Config, now: int)
      ensures Valid() && running
      ensures sessions == config.sessions
      ensures cache == map n | n in SessionNames(config.sessions) :: 0
      ensures firstRun && buffer == [] && lastInvoke == now && effects == []
    {
      sessions := config.sessions;
      cache := map n | n in SessionNames(config.sessions) :: 0;
      firstRun := true;
      buffer := [];
      lastInvoke := now;
      running := true;
      effects := [];
    }

    /**
     * `on_serial_update_callback`: every field of the trimmed line, in
     * order. A panic stops the thread with the earlier fields applied; a
     * line that completes clears the first-run flag.
     */
    method OnLine(line: string)
      requires CachesAll(sessions, cache) && running
      modifies this
      ensures cache.Keys == old(cache).Keys
      ensures Handled(old(State()), State(), line)
      ensures buffer == old(buffer) && lastInvoke == old(lastInvoke)
    {
      var next, added, ok := ApplyLine(sessions, CallbackMode(firstRun), cache, line);
      cache, effects, firstRun, running := next, effects + added, firstRun && !ok, ok;
    }

    /**
     * One pass of the `read_continuous` loop: a timeout changes nothing, any
     * other error ends the loop, and bytes read go to `Receive`.
     */
    method OnRead(result: ReadResult, now: int) returns (failed: bool)
      requires Valid() && running
      modifies this
      ensures Valid()
      ensures failed <==> result.Failed?
      ensures !result.Data? ==>
        && cache == old(cache) && firstRun == old(firstRun) && effects == old(effects)
        && buffer == old(buffer) && lastInvoke == old(lastInvoke) && running == !failed
      ensures result.Data? ==> Received(old(State()), State(), result.bytes, now)
    {
      failed := false;
      match result
      case TimedOut =>
      case Failed =>
        running := false;
        failed := true;
      case Data(bytes) =>
        Receive(bytes, now);
    }

    /**
     * New bytes join the buffer and every completed line is cut off it; a
     * line reaches the callback only when 50 ms have passed since the last
     * delivery, and the instant moves when the callback returns.
     */
    method Receive(bytes: seq<U8>, now: int)
      requires Valid() && running
      modifies this
      ensures Valid()
      ensures Received(old(State()), State(), bytes, now)
    {
      var t := ReceiveBytes(State(), bytes, now);
      cache, firstRun, buffer, lastInvoke, running, effects := t.cache, t.firstRun, t.buffer, t.lastInvoke, t.running, t.effects;
      assert State() == t;
    }
  }

  /**
   * One read's bytes, from the listener state `s`: the buffer is drained,
   * and the line delivered, if any, goes through the callback.
   */
  method ReceiveBytes(s: Snapshot, bytes: seq<U8>, now: int) returns (t: Snapshot)
    requires CachesAll(s.sessions, s.cache) && s.running
    ensures Received(s, t, bytes, now)
    ensures CachesAll(t.sessions, t.cache) && (t.running ==> Newline !in t.buffer)
  {
    var delivered, rest := Drain(s.buffer + bytes, now, s.lastInvoke);
    t := s.(buffer := rest);
    if delivered != [] {
      var next, added, ok := ApplyLine(s.sessions, CallbackMode(s.firstRun), s.cache, Decode(delivered[0]));
      t := t.(cache := next, effects := s.effects + added, firstRun := s.firstRun && !ok, running := ok,
              lastInvoke := if ok then now else s.lastInvoke);
    }
  }

  /**
   * The `while let` loop of `read_continuous` over a buffer: each completed
   * line is cut off, and one is handed to the callback when 50 ms have
   * passed since `lastInvoke`, which then moves to `now`; so, with a single
   * instant per read, at most the first line is delivered.
   */
  method Drain(buffer: seq<U8>, now: int, lastInvoke: int) returns (delivered: seq<seq<U8>>, rest: seq<U8>)
    ensures rest == SplitLines(buffer).rest && Newline !in rest
    ensures var d := DeliveredLine(buffer, now, lastInvoke);
      delivered == if d.Some? then [d.value] else []
  {
    ghost var all := SplitLines(buffer);
    ghost var k := 0;
    delivered, rest := [], buffer;
    var last := lastInvoke;
    assert all.complete[0..] == all.complete;
    while Newline in rest
      invariant 0 <= k <= |all.complete|
      invariant SplitLines(rest) == Lines(all.complete[k..], all.rest)
      invariant delivered == if k > 0 && now - lastInvoke >= DebounceInterval then [all.complete[0]] else []
      invariant last == if delivered != [] then now else lastInvoke
      decreases |rest|
    {
      SplitLinesStep(rest);
      var i := NewlineAt(rest);
      var line := rest[..i];
      ghost var tail := SplitLines(rest[i + 1..]);
      assert all.complete[k..] == [line] + tail.complete;
      DropOne(all.complete, k);
      ConsInjective(line, tail.complete, all.complete[k], all.complete[k + 1..]);
      rest := rest[i + 1..];
      if now - last >= DebounceInterval {
        delivered := delivered + [line];
        last := now;
      }
      k := k + 1;
    }
    SplitLinesDone(rest);
  }
}
