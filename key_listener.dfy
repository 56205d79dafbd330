/**
 * The low-level keyboard hook of `src-tauri/src/utils/key_listener.rs`: the
 * set of keys currently held, the ordered registry of `(chord, block,
 * callback)` hooks, and the decision, on every key event, of which hooks
 * fire and whether the event is swallowed.
 */
module KeyListener {
  import opened Key
  import opened Actions

  /** `HC_ACTION`: the hook code of a real keyboard event. */
  const HcAction: int := 0
  const WmKeyDown: int := 0x0100
  const WmKeyUp: int := 0x0101
  const WmSysKeyDown: int := 0x0104
  const WmSysKeyUp: int := 0x0105

  /** A registered hook; the callback is the tag of the closure it runs. */
  datatype HookData = HookData(chord: KeyChord, shouldBlock: bool, callback: Action)

  /** What the hook procedure returns: `LRESULT(1)` swallows the event, `CallNextHookEx` passes it on. */
  datatype HookResult = Block | CallNext

  /** Whether a hook at position `i` fires and asks to block. */
  predicate Blocks(hooks: seq<HookData>, pressed: set<int>, i: int)
    requires 0 <= i < |hooks|
  {
    IsPressed(hooks[i].chord, pressed) && hooks[i].shouldBlock
  }

  /**
   * The loop over the registry: the positions of the hooks whose chord is
   * held, each once, in registration order, and whether one of them blocks.
   */
  method FireHooks(hooks: seq<HookData>, pressed: set<int>) returns (fired: seq<nat>, block: bool)
    ensures forall j :: 0 <= j < |fired| ==> fired[j] < |hooks|
    ensures forall j, k :: 0 <= j < k < |fired| ==> fired[j] < fired[k]
    ensures forall i :: 0 <= i < |hooks| ==> (i in fired <==> IsPressed(hooks[i].chord, pressed))
    ensures block <==> exists i :: 0 <= i < |hooks| && Blocks(hooks, pressed, i)
  {
    fired := [];
    block := false;
    var i := 0;
    while i < |hooks|
      invariant 0 <= i <= |hooks|
      invariant forall j :: 0 <= j < |fired| ==> fired[j] < i
      invariant forall j, k :: 0 <= j < k < |fired| ==> fired[j] < fired[k]
      invariant forall h :: 0 <= h < i ==> (h in fired <==> IsPressed(hooks[h].chord, pressed))
      invariant block <==> exists h :: 0 <= h < i && Blocks(hooks, pressed, h)
    {
      if IsPressed(hooks[i].chord, pressed) {
        fired := fired + [i];
        if hooks[i].shouldBlock {
          block := true;
        }
      }
      assert block <==> (exists h :: 0 <= h < i && Blocks(hooks, pressed, h)) || Blocks(hooks, pressed, i);
      i := i + 1;
    }
  }

  /** The pressed set after an event: down adds the key, up removes it, other messages keep it. */
  function AfterMessage(pressed: set<int>, wParam: int, vkCode: int): (r: set<int>)
    ensures wParam == WmKeyDown || wParam == WmSysKeyDown ==> r == pressed + {vkCode}
    ensures wParam == WmKeyUp || wParam == WmSysKeyUp ==> r == pressed - {vkCode}
    ensures forall k :: k != vkCode ==> (k in r <==> k in pressed)
  {
    var afterDown := if wParam == WmKeyDown || wParam == WmSysKeyDown then pressed + {vkCode} else pressed;
    if wParam == WmKeyUp || wParam == WmSysKeyUp then afterDown - {vkCode} else afterDown
  }

  /**
   * The hook registry and the key state. `HOOKS` and `PRESSED_KEYS` are
   * process-wide statics in the source; the program has one listener, so
   * they are its fields here, with the installed flag of its Win32 hook.
   */
  class KeyListener {
    var hooks: seq<HookData>
    /** The keys of `PRESSED_KEYS`; the only value ever stored there is `true`. */
    var pressedKeys: set<int>
    var installed: bool

    /** `KeyListener::new`: installs the hook; nothing is registered or held yet. */
    constructor()
      ensures hooks == [] && pressedKeys == {} && installed
    {
      hooks := [];
      pressedKeys := {};
      installed := true;
    }

    /**
     * `keyboard_hook`: for an action event, updates the pressed set, fires
     * every hook whose chord is now held (key-down and key-up alike, whether
     * or not the event's key is in the chord) and blocks the event iff a
     * fired hook asks to; any other hook code changes nothing and passes the
     * event on.
     */
    method KeyboardHook(code: int, wParam: int, vkCode: int) returns (fired: seq<nat>, result: HookResult)
      modifies this`pressedKeys
      ensures code != HcAction ==> pressedKeys == old(pressedKeys) && fired == [] && result == CallNext
      ensures code == HcAction ==> pressedKeys == AfterMessage(old(pressedKeys), wParam, vkCode)
      ensures forall j :: 0 <= j < |fired| ==> fired[j] < |hooks|
      ensures forall j, k :: 0 <= j < k < |fired| ==> fired[j] < fired[k]
      ensures code == HcAction ==>
        forall i :: 0 <= i < |hooks| ==> (i in fired <==> IsPressed(hooks[i].chord, pressedKeys))
      ensures code == HcAction ==>
        (result == Block <==> exists i :: 0 <= i < |hooks| && Blocks(hooks, pressedKeys, i))
    {
      if code != HcAction {
        return [], CallNext;
      }
      pressedKeys := AfterMessage(pressedKeys, wParam, vkCode);
      var block;
      fired, block := FireHooks(hooks, pressedKeys);
      result := if block then Block else CallNext;
    }

    /** `KeyListener::init`: installs the Win32 hook again. */
    method Init()
      modifies this`installed
      ensures installed
    {
      installed := true;
    }

    /** `KeyListener::register`: appends one hook; earlier ones stay as they were. */
    method Register(chord: KeyChord, shouldBlock: bool, callback: Action)
      modifies this`hooks
      ensures hooks == old(hooks) + [HookData(chord, shouldBlock, callback)]
    {
      hooks := hooks + [HookData(chord, shouldBlock, callback)];
    }

    /** `KeyListener::unregister_all`: empties the registry. */
    method UnregisterAll()
      modifies this`hooks
      ensures hooks == []
    {
      hooks := [];
    }

    /** `KeyListener::dispose`: empties the registry and removes the Win32 hook. */
    method Dispose()
      modifies this`hooks, this`installed
      ensures hooks == [] && !installed
    {
      UnregisterAll();
      installed := false;
    }
  }

  /** Pressing a key that is already held leaves the pressed set as it was. */
  lemma RepeatedKeyDown(pressed: set<int>, wParam: int, vkCode: int)
    requires vkCode in pressed && (wParam == WmKeyDown || wParam == WmSysKeyDown)
    ensures AfterMessage(pressed, wParam, vkCode) == pressed
  {
  }
}
