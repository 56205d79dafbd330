/**
 * The selection rules of `src-tauri/src/services/volume_service.rs`, over the
 * audio sessions that the Windows audio controller reports. The controller
 * itself is a foreign component: its list of sessions is an input here, and
 * the calls that change a session's volume or mute state become the list of
 * sessions returned.
 */
module VolumeService {
  import opened Wrappers
  import opened Text
  import opened Config

  /** A percentage, as the controller's 0.0..1.0 scalar reads after rounding. */
  type Percent = x: int | 0 <= x <= 100

  /** An audio session as the service reports it; the process icon is not modelled. */
  datatype AudioSession = AudioSession(name: string, volume: Percent, mute: bool)

  /**
   * Whether a request for `name` acts on `session`: "other" (any case) means
   * every session whose lower-cased name is not a configured name; any other
   * name means the sessions with exactly that name.
   */
  predicate Selects(config: Config, name: string, session: AudioSession) {
    if IsOther(name) then ToLower(session.name) !in DefinedSessionNames(config.sessions)
    else session.name == name
  }

  /** `get_sessions`: the sessions a request for `name` acts on, in controller order. */
  function GetSessions(config: Config, sessions: seq<AudioSession>, name: string): (r: seq<AudioSession>)
    ensures forall s :: s in r <==> s in sessions && Selects(config, name, s)
    ensures |r| <= |sessions|
  {
    if sessions == [] then []
    else
      var rest := GetSessions(config, sessions[1..], name);
      assert forall s :: s in sessions <==> s == sessions[0] || s in sessions[1..];
      if Selects(config, name, sessions[0]) then [sessions[0]] + rest else rest
  }

  /** The sessions of two lists, one after the other, are the sessions of each list, in the same order. */
  lemma {:induction false} GetSessionsAppend(config: Config, a: seq<AudioSession>, b: seq<AudioSession>, name: string)
    ensures GetSessions(config, a + b, name) == GetSessions(config, a, name) + GetSessions(config, b, name)
  {
    if a == [] {
      assert a + b == b;
    } else {
      assert (a + b)[0] == a[0];
      assert (a + b)[1..] == a[1..] + b;
      GetSessionsAppend(config, a[1..], b, name);
    }
  }

  /** A single session is kept, once, exactly when the request selects it. */
  lemma GetSessionsOne(config: Config, s: AudioSession, name: string)
    ensures GetSessions(config, [s], name) == if Selects(config, name, s) then [s] else []
  {
    assert [s][1..] == [];
  }

  /** The index of the first session a request for `name` acts on, or none. */
  function FirstSelected(config: Config, sessions: seq<AudioSession>, name: string): (r: Option<nat>)
    ensures r.None? <==> forall i :: 0 <= i < |sessions| ==> !Selects(config, name, sessions[i])
    ensures r.Some? ==> (r.value < |sessions| && Selects(config, name, sessions[r.value])
      && forall j :: 0 <= j < r.value ==> !Selects(config, name, sessions[j]))
  {
    if sessions == [] then None
    else if Selects(config, name, sessions[0]) then Some(0)
    else
      match FirstSelected(config, sessions[1..], name)
      case None => None
      case Some(i) => Some(i + 1)
  }

  /** The selection of `get_sessions` starts with the first selected session. */
  lemma {:induction false} GetSessionsHead(config: Config, sessions: seq<AudioSession>, name: string)
    ensures GetSessions(config, sessions, name) != [] <==> FirstSelected(config, sessions, name).Some?
    ensures GetSessions(config, sessions, name) != [] ==>
      GetSessions(config, sessions, name)[0] == sessions[FirstSelected(config, sessions, name).value]
  {
    if sessions != [] && !Selects(config, name, sessions[0]) {
      GetSessionsHead(config, sessions[1..], name);
      assert forall i :: 0 < i < |sessions| ==> sessions[i] == sessions[1..][i - 1];
    }
  }

  /** Two lists with the same names at the same positions select first at the same position. */
  lemma SameNamesSameFirst(config: Config, a: seq<AudioSession>, b: seq<AudioSession>, name: string)
    requires |a| == |b| && forall i :: 0 <= i < |a| ==> a[i].name == b[i].name
    ensures FirstSelected(config, a, name) == FirstSelected(config, b, name)
  {
    assert forall i :: 0 <= i < |a| ==> (Selects(config, name, a[i]) <==> Selects(config, name, b[i]));
  }

  /** `get_session`: the first session a request for `name` acts on (`.into_iter().next()`). */
  function GetSession(config: Config, sessions: seq<AudioSession>, name: string): (r: Option<AudioSession>)
    ensures r.None? <==> forall s :: s in sessions ==> !Selects(config, name, s)
    ensures r.Some? <==> FirstSelected(config, sessions, name).Some?
    ensures r.Some? ==> r.value == sessions[FirstSelected(config, sessions, name).value]
  {
    var found := GetSessions(config, sessions, name);
    GetSessionsHead(config, sessions, name);
    if found == [] then None else assert found[0] in found; Some(found[0])
  }

  /** The index of the first session with exactly this name (the controller's `get_session_with_name`). */
  function FirstNamed(sessions: seq<AudioSession>, name: string): (r: Option<nat>)
    ensures r.None? <==> forall i :: 0 <= i < |sessions| ==> sessions[i].name != name
    ensures r.Some? ==> (r.value < |sessions| && sessions[r.value].name == name
      && forall j :: 0 <= j < r.value ==> sessions[j].name != name)
  {
    if sessions == [] then None
    else if sessions[0].name == name then Some(0)
    else
      match FirstNamed(sessions[1..], name)
      case None => None
      case Some(i) => Some(i + 1)
  }

  /** Whether position `i` holds the first session with exactly this name. */
  predicate IsFirstNamed(sessions: seq<AudioSession>, name: string, i: int)
    requires 0 <= i < |sessions|
  {
    sessions[i].name == name && forall j :: 0 <= j < i ==> sessions[j].name != name
  }

  /**
   * `get_session_volume`: the volume of the first session with this name,
   * or the sentinel `i32::MIN` when there is none.
   */
  function GetSessionVolume(sessions: seq<AudioSession>, name: string): (r: int)
    ensures r == I32Min <==> forall s :: s in sessions ==> s.name != name
    ensures r != I32Min ==> 0 <= r <= 100
    ensures forall i :: 0 <= i < |sessions| && IsFirstNamed(sessions, name, i) ==> r == sessions[i].volume
  {
    match FirstNamed(sessions, name)
    case None => I32Min
    case Some(i) => sessions[i].volume
  }

  /** `get_session_mute`: the mute flag of the first session with this name, false when there is none. */
  function GetSessionMute(sessions: seq<AudioSession>, name: string): (r: bool)
    ensures (forall s :: s in sessions ==> s.name != name) ==> !r
    ensures forall i :: 0 <= i < |sessions| && IsFirstNamed(sessions, name, i) ==> r == sessions[i].mute
  {
    match FirstNamed(sessions, name)
    case None => false
    case Some(i) => sessions[i].mute
  }

  /**
   * `set_session_volume`: outside 0..100, or when nothing is selected, the
   * result is `None` and no session changes; otherwise every selected session
   * gets the volume and the result is the first selected session afterwards.
   */
  method SetSessionVolume(config: Config, sessions: seq<AudioSession>, name: string, volume: int)
    returns (result: Option<AudioSession>, updated: seq<AudioSession>)
    ensures volume < 0 || volume > 100 || GetSessions(config, sessions, name) == [] ==>
      result.None? && updated == sessions
    ensures 0 <= volume <= 100 && GetSessions(config, sessions, name) != [] ==>
      && |updated| == |sessions|
      && (forall i :: 0 <= i < |sessions| ==>
            updated[i] == if Selects(config, name, sessions[i]) then sessions[i].(volume := volume) else sessions[i])
      && result.Some? && result.value.volume == volume && result.value in updated
      && Selects(config, name, result.value)
      && FirstSelected(config, sessions, name).Some?
      && result.value == updated[FirstSelected(config, sessions, name).value]
  {
    if volume < 0 || volume > 100 {
      return None, sessions;
    }
    if GetSessions(config, sessions, name) == [] {
      return None, sessions;
    }
    updated := sessions;
    var i := 0;
    while i < |sessions|
      invariant 0 <= i <= |sessions| && |updated| == |sessions|
      invariant forall j :: 0 <= j < i ==>
        updated[j] == if Selects(config, name, sessions[j]) then sessions[j].(volume := volume) else sessions[j]
      invariant forall j :: i <= j < |sessions| ==> updated[j] == sessions[j]
    {
      if Selects(config, name, sessions[i]) {
        updated := updated[i := sessions[i].(volume := volume)];
      }
      i := i + 1;
    }
    SameNamesSameFirst(config, sessions, updated, name);
    GetSessionsHead(config, sessions, name);
    result := GetSession(config, updated, name);
  }

  /**
   * `set_session_mute`: when nothing is selected, returns false and changes
   * nothing; otherwise every selected session gets the flag, which is
   * returned.
   */
  method SetSessionMute(config: Config, sessions: seq<AudioSession>, name: string, mute: bool)
    returns (result: bool, updated: seq<AudioSession>)
    ensures GetSessions(config, sessions, name) == [] ==> !result && updated == sessions
    ensures GetSessions(config, sessions, name) != [] ==>
      && result == mute
      && |updated| == |sessions|
      && forall i :: 0 <= i < |sessions| ==>
           updated[i] == if Selects(config, name, sessions[i]) then sessions[i].(mute := mute) else sessions[i]
  {
    if GetSessions(config, sessions, name) == [] {
      return false, sessions;
    }
    updated := sessions;
    var i := 0;
    while i < |sessions|
      invariant 0 <= i <= |sessions| && |updated| == |sessions|
      invariant forall j :: 0 <= j < i ==>
        updated[j] == if Selects(config, name, sessions[j]) then sessions[j].(mute := mute) else sessions[j]
      invariant forall j :: i <= j < |sessions| ==> updated[j] == sessions[j]
    {
      if Selects(config, name, sessions[i]) {
        updated := updated[i := sessions[i].(mute := mute)];
      }
      i := i + 1;
    }
    result := mute;
  }

  /** Why a toggle panicked: no session is selected after the change (`expect("No Session Found")`). */
  datatype ToggleError = NoSessionFound

  /**
   * `toggle_session_mute`: sets the selected sessions' mute to the negation
   * of `get_session_mute` (which reads false, so toggling mutes, when no
   * session has exactly this name) and returns the first selected session.
   */
  method ToggleSessionMute(config: Config, sessions: seq<AudioSession>, name: string)
    returns (result: Result<AudioSession, ToggleError>, updated: seq<AudioSession>)
    ensures GetSessions(config, sessions, name) == [] ==> result == Err(NoSessionFound) && updated == sessions
    ensures GetSessions(config, sessions, name) != [] ==>
      && |updated| == |sessions|
      && (forall i :: 0 <= i < |sessions| ==>
            updated[i] == if Selects(config, name, sessions[i])
                          then sessions[i].(mute := !GetSessionMute(sessions, name)) else sessions[i])
      && result.Ok? && result.value in updated && Selects(config, name, result.value)
      && result.value.mute == !GetSessionMute(sessions, name)
      && FirstSelected(config, sessions, name).Some?
      && result.value == updated[FirstSelected(config, sessions, name).value]
  {
    var mute := GetSessionMute(sessions, name);
    var _, after := SetSessionMute(config, sessions, name, !mute);
    updated := after;
    SameNamesSameFirst(config, sessions, updated, name);
    GetSessionsHead(config, sessions, name);
    var first := GetSession(config, updated, name);
    if first.None? {
      return Err(NoSessionFound), updated;
    }
    result := Ok(first.value);
  }

  /**
   * `get_all_sessions`: one session per name, the first one the controller
   * lists (a `HashMap` filled with `entry(..).or_insert(..)`).
   */
  method GetAllSessions(sessions: seq<AudioSession>) returns (byName: map<string, AudioSession>)
    ensures forall s :: s in sessions ==> s.name in byName
    ensures forall n :: n in byName ==>
      exists i :: 0 <= i < |sessions| && byName[n] == sessions[i] && sessions[i].name == n
        && forall j :: 0 <= j < i ==> sessions[j].name != n
  {
    byName := map[];
    var i := 0;
    while i < |sessions|
      invariant 0 <= i <= |sessions|
      invariant forall j :: 0 <= j < i ==> sessions[j].name in byName
      invariant forall n :: n in byName ==>
        exists k :: 0 <= k < i && byName[n] == sessions[k] && sessions[k].name == n
          && forall j :: 0 <= j < k ==> sessions[j].name != n
    {
      if sessions[i].name !in byName {
        byName := byName[sessions[i].name := sessions[i]];
      }
      i := i + 1;
    }
  }
}
