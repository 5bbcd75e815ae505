/** The events file of the later tree. Key and mouse events come from the
    keyboard and mouse libraries (KEYBOARD_GetEvent, MOUSE_GetEvent), key
    events carry a HID usage that PumpEvents looks up in a 232-entry table,
    and the remote's A and B buttons are only looked at while its pointer is
    valid. */
module TrunkEvents {
  import opened Sdl
  import opened Pointer
  import WiiEvents

  const TRUNK_KEYMAP_SIZE: int := 232

  /** keyboard_event as PumpEvents reads it: the kind and the HID usage. */
  datatype UsbKey = UsbKey(kind: int, keycode: u8)

  /** The table WII_InitOSKeymap leaves: USB HID usage ID to SDL key. */
  function TrunkKeymapEntry(u: int): (k: int)
  {
    if 4 <= u <= 29 then K_a + (u - 4)
    else if 30 <= u <= 38 then K_1 + (u - 30)
    else if 58 <= u <= 69 then K_F1 + (u - 58)
    else if 89 <= u <= 97 then K_KP1 + (u - 89)
    else if 39 <= u <= 57 then PunctuationEntry(u)
    else if 70 <= u <= 88 then NavigationEntry(u)
    else if 98 <= u <= 154 then ExtraEntry(u)
    else if 224 <= u <= 231 then WiiEvents.ModifierKeycodes[u - 224]
    else K_UNKNOWN
  }

  /** Usages 39 .. 57. */
  function PunctuationEntry(u: int): int
  {
    match u
    case 39 => K_0
    case 40 => K_RETURN
    case 41 => K_ESCAPE
    case 42 => K_BACKSPACE
    case 43 => K_TAB
    case 44 => K_SPACE
    case 45 => K_MINUS
    case 46 => K_EQUALS
    case 47 => K_LEFTBRACKET
    case 48 => K_RIGHTBRACKET
    case 49 => K_BACKSLASH
    case 51 => K_SEMICOLON
    case 52 => K_QUOTE
    case 53 => K_BACKQUOTE
    case 54 => K_COMMA
    case 55 => K_PERIOD
    case 56 => K_SLASH
    case 57 => K_CAPSLOCK
    case _ => K_UNKNOWN
  }

  /** Usages 70 .. 88. */
  function NavigationEntry(u: int): int
  {
    match u
    case 70 => K_PRINT
    case 71 => K_SCROLLOCK
    case 72 => K_PAUSE
    case 73 => K_INSERT
    case 74 => K_HOME
    case 75 => K_PAGEUP
    case 76 => K_DELETE
    case 77 => K_END
    case 78 => K_PAGEDOWN
    case 79 => K_RIGHT
    case 80 => K_LEFT
    case 81 => K_DOWN
    case 82 => K_UP
    case 83 => K_NUMLOCK
    case 84 => K_KP_DIVIDE
    case 85 => K_KP_MULTIPLY
    case 86 => K_KP_MINUS
    case 87 => K_KP_PLUS
    case 88 => K_KP_ENTER
    case _ => K_UNKNOWN
  }

  /** Usages 98 .. 154; the ones the source marks unused or has no SDL key for are unknown. */
  function ExtraEntry(u: int): int
  {
    match u
    case 98 => K_KP0
    case 99 => K_KP_PERIOD
    case 102 => K_POWER
    case 103 => K_KP_EQUALS
    case 104 => K_F13
    case 105 => K_F14
    case 106 => K_F15
    case 117 => K_HELP
    case 118 => K_MENU
    case 122 => K_UNDO
    case 134 => K_KP_EQUALS
    case 154 => K_SYSREQ
    case _ => K_UNKNOWN
  }

  /** Letters, digits, function keys and keypad digits sit where the HID
      usage tables put them. */
  lemma TrunkKeymapRuns(u: int)
    ensures 4 <= u < 30 ==> TrunkKeymapEntry(u) == K_a + (u - 4) && K_a <= TrunkKeymapEntry(u) <= K_z
    ensures 30 <= u < 39 ==> TrunkKeymapEntry(u) == K_1 + (u - 30)
    ensures 58 <= u < 70 ==> TrunkKeymapEntry(u) == K_F1 + (u - 58) && TrunkKeymapEntry(u) <= K_F12
    ensures 89 <= u < 98 ==> TrunkKeymapEntry(u) == K_KP1 + (u - 89)
    ensures 155 <= u < 224 ==> TrunkKeymapEntry(u) == K_UNKNOWN
  {
  }

  /** The later table has the entries the older one loses to its doubled
      assignments: "[" and "]" at 47 and 48, keypad plus and enter at 87 and 88. */
  lemma TrunkKeymapBrackets()
    ensures TrunkKeymapEntry(47) == K_LEFTBRACKET && TrunkKeymapEntry(48) == K_RIGHTBRACKET
    ensures TrunkKeymapEntry(87) == K_KP_PLUS && TrunkKeymapEntry(88) == K_KP_ENTER
  {
  }

  /** The modifier usages 224 .. 231 map to the same keys, in the same order,
      as the modifier-byte bits of the older callback. */
  lemma TrunkModifierUsages(i: int)
    requires 0 <= i < 8
    ensures TrunkKeymapEntry(224 + i) == WiiEvents.ModifierKeycodes[i]
  {
  }

  /** The two tables agree on every usage below 232 except the ones the later
      tree fixed (47, 48, 87, 88) or added. */
  lemma KeymapsAgree(u: int)
    requires 0 <= u < TRUNK_KEYMAP_SIZE
    requires u !in {47, 48, 87, 88} && !(70 <= u <= 71) && !(99 <= u <= 154) && !(224 <= u <= 231)
    ensures TrunkKeymapEntry(u) == WiiEvents.OldKeymapEntry(u)
  {
  }

  /** Keypad equals is reachable from two usages (103 and 134). */
  lemma KeypadEqualsTwice(u: int)
    ensures TrunkKeymapEntry(u) == K_KP_EQUALS <==> u == 103 || u == 134
  {
  }

  /** The assignments to usages 39 .. 57. */
  method SetPunctuation(a: array<int>)
    requires a.Length == TRUNK_KEYMAP_SIZE
    modifies a
    ensures forall u :: 0 <= u < a.Length ==> a[u] == if 39 <= u <= 57 then PunctuationEntry(u) else old(a[u])
  {
    SetPunctuationA(a);
    SetPunctuationB(a);
    SetPunctuationC(a);
  }

  method SetPunctuationA(a: array<int>)
    requires a.Length == TRUNK_KEYMAP_SIZE
    modifies a
    ensures forall u :: 0 <= u < a.Length ==> a[u] == if 39 <= u <= 47 then PunctuationEntry(u) else old(a[u])
  {
    a[39] := K_0;
    a[40] := K_RETURN;
    a[41] := K_ESCAPE;
    a[42] := K_BACKSPACE;
    a[43] := K_TAB;
    a[44] := K_SPACE;
    a[45] := K_MINUS;
    a[46] := K_EQUALS;
    a[47] := K_LEFTBRACKET;
  }

  method SetPunctuationB(a: array<int>)
    requires a.Length == TRUNK_KEYMAP_SIZE
    modifies a
    ensures forall u :: 0 <= u < a.Length ==> a[u] == if 48 <= u <= 52 then PunctuationEntry(u) else old(a[u])
  {
    a[48] := K_RIGHTBRACKET;
    a[49] := K_BACKSLASH;
    a[50] := K_UNKNOWN;
    a[51] := K_SEMICOLON;
    a[52] := K_QUOTE;
  }

  method SetPunctuationC(a: array<int>)
    requires a.Length == TRUNK_KEYMAP_SIZE
    modifies a
    ensures forall u :: 0 <= u < a.Length ==> a[u] == if 53 <= u <= 57 then PunctuationEntry(u) else old(a[u])
  {
    a[53] := K_BACKQUOTE;
    a[54] := K_COMMA;
    a[55] := K_PERIOD;
    a[56] := K_SLASH;
    a[57] := K_CAPSLOCK;
  }

  /** The assignments to usages 70 .. 88. */
  method SetNavigation(a: array<int>)
    requires a.Length == TRUNK_KEYMAP_SIZE
    modifies a
    ensures forall u :: 0 <= u < a.Length ==> a[u] == if 70 <= u <= 88 then NavigationEntry(u) else old(a[u])
  {
    SetNavigationA(a);
    SetNavigationB(a);
    SetNavigationC(a);
  }

  method SetNavigationA(a: array<int>)
    requires a.Length == TRUNK_KEYMAP_SIZE
    modifies a
    ensures forall u :: 0 <= u < a.Length ==> a[u] == if 70 <= u <= 78 then NavigationEntry(u) else old(a[u])
  {
    a[70] := K_PRINT;
    a[71] := K_SCROLLOCK;
    a[72] := K_PAUSE;
    a[73] := K_INSERT;
    a[74] := K_HOME;
    a[75] := K_PAGEUP;
    a[76] := K_DELETE;
    a[77] := K_END;
    a[78] := K_PAGEDOWN;
  }

  method SetNavigationB(a: array<int>)
    requires a.Length == TRUNK_KEYMAP_SIZE
    modifies a
    ensures forall u :: 0 <= u < a.Length ==> a[u] == if 79 <= u <= 83 then NavigationEntry(u) else old(a[u])
  {
    a[79] := K_RIGHT;
    a[80] := K_LEFT;
    a[81] := K_DOWN;
    a[82] := K_UP;
    a[83] := K_NUMLOCK;
  }

  method SetNavigationC(a: array<int>)
    requires a.Length == TRUNK_KEYMAP_SIZE
    modifies a
    ensures forall u :: 0 <= u < a.Length ==> a[u] == if 84 <= u <= 88 then NavigationEntry(u) else old(a[u])
  {
    a[84] := K_KP_DIVIDE;
    a[85] := K_KP_MULTIPLY;
    a[86] := K_KP_MINUS;
    a[87] := K_KP_PLUS;
    a[88] := K_KP_ENTER;
  }

  /** Usages written after the keypad-digit loop. */
  predicate ExtraSlot(u: int)
  {
    98 <= u <= 122 || u == 134 || u == 154 || 224 <= u <= 231
  }

  /** The assignments to usages 98 .. 231, in source order. */
  method SetExtras(a: array<int>)
    requires a.Length == TRUNK_KEYMAP_SIZE
    modifies a
    ensures forall u :: 0 <= u < a.Length ==> a[u] == if ExtraSlot(u) then TrunkKeymapEntry(u) else old(a[u])
  {
    SetExtrasA(a);
    SetExtrasB(a);
    SetExtrasC(a);
    SetModifiers(a);
  }

  method SetExtrasA(a: array<int>)
    requires a.Length == TRUNK_KEYMAP_SIZE
    modifies a
    ensures forall u :: 0 <= u < a.Length ==> a[u] == if 98 <= u <= 106 then ExtraEntry(u) else old(a[u])
  {
    a[98] := K_KP0;
    a[99] := K_KP_PERIOD;
    a[100] := K_UNKNOWN;
    a[101] := K_UNKNOWN;
    a[102] := K_POWER;
    a[103] := K_KP_EQUALS;
    a[104] := K_F13;
    a[105] := K_F14;
    a[106] := K_F15;
  }

  method SetExtrasB(a: array<int>)
    requires a.Length == TRUNK_KEYMAP_SIZE
    modifies a
    ensures forall u :: 0 <= u < a.Length ==> a[u] == if 107 <= u <= 115 then ExtraEntry(u) else old(a[u])
  {
    a[107] := K_UNKNOWN;
    a[108] := K_UNKNOWN;
    a[109] := K_UNKNOWN;
    a[110] := K_UNKNOWN;
    a[111] := K_UNKNOWN;
    a[112] := K_UNKNOWN;
    a[113] := K_UNKNOWN;
    a[114] := K_UNKNOWN;
    a[115] := K_UNKNOWN;
  }

  method SetExtrasC(a: array<int>)
    requires a.Length == TRUNK_KEYMAP_SIZE
    modifies a
    ensures forall u :: 0 <= u < a.Length ==>
              a[u] == if 116 <= u <= 122 || u == 134 || u == 154 then ExtraEntry(u) else old(a[u])
  {
    a[116] := K_UNKNOWN;
    a[117] := K_HELP;
    a[118] := K_MENU;
    a[119] := K_UNKNOWN;
    a[120] := K_UNKNOWN;
    a[121] := K_UNKNOWN;
    a[122] := K_UNDO;
    a[134] := K_KP_EQUALS;
    a[154] := K_SYSREQ;
  }

  method SetModifiers(a: array<int>)
    requires a.Length == TRUNK_KEYMAP_SIZE
    modifies a
    ensures forall u :: 0 <= u < a.Length ==>
              a[u] == if 224 <= u <= 231 then WiiEvents.ModifierKeycodes[u - 224] else old(a[u])
  {
    a[224] := K_LCTRL;
    a[225] := K_LSHIFT;
    a[226] := K_LALT;
    a[227] := K_LMETA;
    a[228] := K_RCTRL;
    a[229] := K_RSHIFT;
    a[230] := K_RALT;
    a[231] := K_RMETA;
  }

  /** The remote part of a poll: nothing at all without a valid pointer;
      with one, motion when it moved, then the A and B edges. */
  function TrunkRemotePosts(t: Tracking, r: Remote): seq<Posted>
  {
    if r.irValid then
      MotionPosts(t.x, t.y, r.irX, r.irY)
      + EdgePosts(StateOf(r.heldA), t.a, BUTTON_LEFT, r.irX, r.irY)
      + EdgePosts(StateOf(r.heldB), t.b, BUTTON_RIGHT, r.irX, r.irY)
    else []
  }

  function TrunkRemoteNext(t: Tracking, r: Remote): Tracking
  {
    if r.irValid then Tracking(r.irX, r.irY, StateOf(r.heldA), StateOf(r.heldB)) else t
  }

  /** With a valid pointer both trees post the same and remember the same. */
  lemma TrunkAgreesWhileValid(t: Tracking, r: Remote, mouseX: int, mouseY: int)
    requires r.irValid
    ensures TrunkRemotePosts(t, r) == WiiEvents.RemotePosts(t, r, mouseX, mouseY)
    ensures TrunkRemoteNext(t, r) == WiiEvents.RemoteNext(t, r)
  {
  }

  /** Without one, the later tree posts nothing and forgets nothing, where the
      older one posts an A edge at the mouse position. */
  lemma TrunkIgnoresButtonsWithoutPointer(t: Tracking, r: Remote, mouseX: int, mouseY: int)
    requires !r.irValid
    ensures TrunkRemotePosts(t, r) == [] && TrunkRemoteNext(t, r) == t
    ensures StateOf(r.heldA) != t.a ==>
              MouseButton(StateOf(r.heldA), BUTTON_LEFT, mouseX, mouseY) in WiiEvents.RemotePosts(t, r, mouseX, mouseY)
  {
    WiiEvents.RemoteButtonIff(t, r, mouseX, mouseY, StateOf(r.heldA), mouseX, mouseY);
  }

  /** A second poll with the remote unchanged posts nothing for it. */
  lemma TrunkRemoteSettles(t: Tracking, r: Remote)
    ensures TrunkRemotePosts(TrunkRemoteNext(t, r), r) == []
  {
  }

  /** The statics of the later events file. */
  class TrunkPump {
    var lastX: int
    var lastY: int
    var lastA: int
    var lastB: int
    const keymap: array<int>

    function Tracked(): Tracking
      reads this
    {
      Tracking(lastX, lastY, lastA, lastB)
    }

    constructor ()
      ensures Tracked() == Tracking(0, 0, RELEASED, RELEASED) && keymap.Length == TRUNK_KEYMAP_SIZE
      ensures fresh(keymap)
    {
      lastX, lastY, lastA, lastB := 0, 0, RELEASED, RELEASED;
      keymap := new int[TRUNK_KEYMAP_SIZE];
    }

    /** WII_InitOSKeymap. */
    method InitOSKeymap()
      requires keymap.Length == TRUNK_KEYMAP_SIZE
      modifies keymap
      ensures forall u :: 0 <= u < keymap.Length ==> keymap[u] == TrunkKeymapEntry(u)
    {
      WiiEvents.FillUnknown(keymap);
      WiiEvents.FillLetters(keymap);
      WiiEvents.FillRun(keymap, 30, K_1, 9);
      SetPunctuation(keymap);
      WiiEvents.FillRun(keymap, 58, K_F1, 12);
      SetNavigation(keymap);
      WiiEvents.FillRun(keymap, 89, K_KP1, 9);
      SetExtras(keymap);
    }

    /** PumpEvents. What KEYBOARD_GetEvent and MOUSE_GetEvent return are the
        parameters stat, ke, mstat and me; `down` is the button mask
        SDL_GetMouseState returns when the mouse report's buttons are tested,
        after the report's own motion post. */
    method PumpEvents(r: Remote, mouseX: int, mouseY: int, down: bv8,
                      stat: bool, ke: UsbKey, mstat: bool, me: MouseReport) returns (posted: seq<Posted>)
      requires keymap.Length == TRUNK_KEYMAP_SIZE
      requires stat ==> ke.keycode < TRUNK_KEYMAP_SIZE
      modifies this
      ensures Tracked() == TrunkRemoteNext(old(Tracked()), r)
      ensures posted == TrunkRemotePosts(old(Tracked()), r)
                        + KeyPosts(stat, ke.kind, if stat then keymap[ke.keycode] else 0)
                        + MousePosts(mstat, me, down)
    {
      var remote := PostRemote(r);
      var key: seq<Posted> := [];
      if stat && (ke.kind == KEYBOARD_RELEASED || ke.kind == KEYBOARD_PRESSED) {
        var keystate := if ke.kind == KEYBOARD_PRESSED then PRESSED else RELEASED;
        key := [Keyboard(keystate, keymap[ke.keycode], 0)];
      }
      var mouse: seq<Posted> := [];
      if mstat {
        mouse := WiiEvents.PostMouse(me, down);
      }
      posted := remote + key + mouse;
    }

    /** The remote part of PumpEvents. */
    method PostRemote(r: Remote) returns (posted: seq<Posted>)
      modifies this`lastX, this`lastY, this`lastA, this`lastB
      ensures Tracked() == TrunkRemoteNext(old(Tracked()), r)
      ensures posted == TrunkRemotePosts(old(Tracked()), r)
    {
      posted := [];
      if r.irValid {
        var x, y := r.irX, r.irY;
        if lastX != x || lastY != y {
          posted := posted + [MouseMotion(0, false, x, y)];
          lastX, lastY := x, y;
        }
        var stateA, stateB := RELEASED, RELEASED;
        if r.heldA {
          stateA := PRESSED;
        }
        if r.heldB {
          stateB := PRESSED;
        }
        if stateA != lastA {
          lastA := stateA;
          posted := posted + [MouseButton(stateA, BUTTON_LEFT, x, y)];
        }
        if stateB != lastB {
          lastB := stateB;
          posted := posted + [MouseButton(stateB, BUTTON_RIGHT, x, y)];
        }
      }
    }
  }
}
