/** The events file of the older tree: the keyboard and mouse event queues
    filled by the USB callbacks, the difference between two USB HID boot
    keyboard reports that the keyboard callback turns into key events, the
    512-entry table from HID usage IDs to SDL keys, and PumpEvents. */
module WiiEvents {
  import opened Sdl
  import opened Pointer

  /** keyboardEvent: the kind (keyboard_eventType), the report's modifier byte and the SDL key. */
  datatype KeyEvent = KeyEvent(kind: int, modifiers: int, scancode: int)

  /** An lwp_queue of events: appended at the back, taken from the front. */
  class Queue<T> {
    var items: seq<T>

    constructor ()
      ensures items == []
    {
      items := [];
    }

    /** KEYBOARD_addEvent / MOUSE_addEvent. */
    method Add(e: T) returns (r: int)
      modifies this
      ensures items == old(items) + [e] && r == 1
    {
      items := items + [e];
      r := 1;
    }

    /** KEYBOARD_getEvent / MOUSE_getEvent: 0 and the destination as it was
        when the queue is empty, else 1 and the oldest event, which leaves the queue. */
    method Get(current: T) returns (r: int, event: T)
      modifies this
      ensures old(items) == [] ==> r == 0 && event == current && items == []
      ensures old(items) != [] ==> r == 1 && event == old(items)[0] && items == old(items)[1..]
    {
      if items == [] {
        return 0, current;
      }
      event := items[0];
      items := items[1..];
      r := 1;
    }
  }

  /** Events come out in the order they went in: after adding every element of
      xs to an empty queue, as many gets return xs and leave it empty. */
  method QueueOrder<T>(q: Queue<T>, xs: seq<T>, current: T) returns (out: seq<T>)
    requires q.items == []
    modifies q
    ensures out == xs && q.items == []
  {
    for i := 0 to |xs|
      invariant q.items == xs[..i]
    {
      var ok := q.Add(xs[i]);
      assert xs[..i + 1] == xs[..i] + [xs[i]];
    }
    assert xs[..|xs|] == xs;
    out := [];
    while |out| < |xs|
      invariant |out| <= |xs| && out == xs[..|out|] && q.items == xs[|out|..]
      decreases |xs| - |out|
    {
      var r, event := q.Get(current);
      assert xs[..|out| + 1] == xs[..|out|] + [xs[|out|]];
      out := out + [event];
    }
  }

  // ------------------------------------------------------------- report diff

  /** key_data.message once a report has been handled (and before one arrives). */
  const NO_MESSAGE: int := 0x7fff_ffff
  /** The message of a key report. */
  const REPORT: int := 2

  /** modifier_keycodes: the SDL key of each bit of the HID modifier byte. */
  const ModifierKeycodes: seq<int> := [K_LCTRL, K_LSHIFT, K_LALT, K_LMETA, K_RCTRL, K_RSHIFT, K_RALT, K_RMETA]

  const KEYMAP_SIZE: int := 512

  /** `1 << i`: the mask of modifier bit i. */
  function ModifierBit(i: int): bv8
    requires 0 <= i < 8
  {
    (1 as bv8) << i
  }

  /** Modifier bit i is set in m. */
  predicate HasBit(m: bv8, i: int)
    requires 0 <= i < 8
  {
    m & ModifierBit(i) != 0
  }

  /** The presses for the first n slots of the new report: each non-zero key
      that is not among the previous report's keys. */
  function Presses(keys: seq<u8>, prev: seq<u8>, mods: int, keymap: seq<int>, n: nat): seq<KeyEvent>
    requires n <= |keys| && |keymap| == KEYMAP_SIZE
  {
    if n == 0 then []
    else
      Presses(keys, prev, mods, keymap, n - 1)
      + (if keys[n - 1] != 0 && keys[n - 1] !in prev
         then [KeyEvent(KEYBOARD_PRESSED, mods, keymap[keys[n - 1]])] else [])
  }

  /** The releases for the first n slots of the previous report: each non-zero
      key that is not among the new report's keys. */
  function Releases(keys: seq<u8>, prev: seq<u8>, mods: int, keymap: seq<int>, n: nat): seq<KeyEvent>
    requires n <= |prev| && |keymap| == KEYMAP_SIZE
  {
    if n == 0 then []
    else
      Releases(keys, prev, mods, keymap, n - 1)
      + (if prev[n - 1] != 0 && prev[n - 1] !in keys
         then [KeyEvent(KEYBOARD_RELEASED, mods, keymap[prev[n - 1]])] else [])
  }

  /** The modifier events for bits 0 .. n-1, with modifiers 0. */
  function ModifierEvents(mods: bv8, prevMods: bv8, n: nat): seq<KeyEvent>
    requires n <= 8
  {
    if n == 0 then []
    else
      var i := n - 1;
      ModifierEvents(mods, prevMods, i)
      + (if HasBit(mods, i) && !HasBit(prevMods, i)
         then [KeyEvent(KEYBOARD_PRESSED, 0, ModifierKeycodes[i])]
         else if !HasBit(mods, i) && HasBit(prevMods, i)
         then [KeyEvent(KEYBOARD_RELEASED, 0, ModifierKeycodes[i])]
         else [])
  }

  /** Everything one key report queues, in the order the callback queues it. */
  function ReportEvents(keys: seq<u8>, mods: bv8, prev: seq<u8>, prevMods: bv8, keymap: seq<int>): seq<KeyEvent>
    requires |keys| == 6 && |prev| == 6 && |keymap| == KEYMAP_SIZE
  {
    Presses(keys, prev, mods as int, keymap, 6)
    + Releases(keys, prev, mods as int, keymap, 6)
    + (if prevMods != mods then ModifierEvents(mods, prevMods, 8) else [])
  }

  /** A key event is a press of the first n slots exactly when some slot holds
      a non-zero key absent from the previous report; it carries that key's
      SDL symbol and the report's modifier byte. */
  lemma {:induction false} PressesExact(keys: seq<u8>, prev: seq<u8>, mods: int, keymap: seq<int>, n: nat, e: KeyEvent)
    requires n <= |keys| && |keymap| == KEYMAP_SIZE
    ensures e in Presses(keys, prev, mods, keymap, n)
            <==> exists i :: 0 <= i < n && keys[i] != 0 && keys[i] !in prev
                             && e == KeyEvent(KEYBOARD_PRESSED, mods, keymap[keys[i]])
  {
    if n > 0 {
      PressesExact(keys, prev, mods, keymap, n - 1, e);
    }
  }

  /** Likewise a release: a non-zero key of the previous report that is absent from the new one. */
  lemma {:induction false} ReleasesExact(keys: seq<u8>, prev: seq<u8>, mods: int, keymap: seq<int>, n: nat, e: KeyEvent)
    requires n <= |prev| && |keymap| == KEYMAP_SIZE
    ensures e in Releases(keys, prev, mods, keymap, n)
            <==> exists i :: 0 <= i < n && prev[i] != 0 && prev[i] !in keys
                             && e == KeyEvent(KEYBOARD_RELEASED, mods, keymap[prev[i]])
  {
    if n > 0 {
      ReleasesExact(keys, prev, mods, keymap, n - 1, e);
    }
  }

  /** One event per presses slot: the number of presses is the number of
      qualifying slots, so a key held in two slots is pressed twice. */
  lemma {:induction false} PressesAtMostOnePerSlot(keys: seq<u8>, prev: seq<u8>, mods: int, keymap: seq<int>, n: nat)
    requires n <= |keys| && |keymap| == KEYMAP_SIZE
    ensures |Presses(keys, prev, mods, keymap, n)| <= n
    ensures (forall i :: 0 <= i < n ==> keys[i] == 0 || keys[i] in prev) ==> Presses(keys, prev, mods, keymap, n) == []
  {
    if n > 0 {
      PressesAtMostOnePerSlot(keys, prev, mods, keymap, n - 1);
    }
  }

  /** Modifier bit i is reported pressed exactly when it is newly set and
      released exactly when it is newly cleared; an unchanged bit is silent. */
  lemma {:induction false} ModifierEventsExact(mods: bv8, prevMods: bv8, n: nat, e: KeyEvent)
    requires n <= 8
    ensures e in ModifierEvents(mods, prevMods, n)
            <==> exists i :: 0 <= i < n
                   && ((HasBit(mods, i) && !HasBit(prevMods, i)
                        && e == KeyEvent(KEYBOARD_PRESSED, 0, ModifierKeycodes[i]))
                       || (!HasBit(mods, i) && HasBit(prevMods, i)
                           && e == KeyEvent(KEYBOARD_RELEASED, 0, ModifierKeycodes[i])))
  {
    if n > 0 {
      ModifierEventsExact(mods, prevMods, n - 1, e);
    }
  }

  /** A modifier bit that changed reaches SDL, once PumpEvents dequeues its
      event, as modifier_keycodes[i] itself: pressed when the bit is newly set,
      released when it is newly cleared, with no modifiers. */
  lemma ModifierReachesSdl(keys: seq<u8>, mods: bv8, prev: seq<u8>, prevMods: bv8, keymap: seq<int>, i: int)
    requires |keys| == 6 && |prev| == 6 && |keymap| == KEYMAP_SIZE && 0 <= i < 8
    requires HasBit(mods, i) != HasBit(prevMods, i)
    ensures var e := KeyEvent(if HasBit(mods, i) then KEYBOARD_PRESSED else KEYBOARD_RELEASED, 0, ModifierKeycodes[i]);
            e in ReportEvents(keys, mods, prev, prevMods, keymap)
            && KeyPosts(true, e.kind, e.scancode)
               == [Keyboard(if HasBit(mods, i) then PRESSED else RELEASED, ModifierKeycodes[i], 0)]
  {
    var e := KeyEvent(if HasBit(mods, i) then KEYBOARD_PRESSED else KEYBOARD_RELEASED, 0, ModifierKeycodes[i]);
    assert mods != prevMods;
    ModifierEventsExact(mods, prevMods, 8, e);
  }

  /** An unchanged modifier byte yields no modifier events even without the
      callback's `prev_modifiers != modifiers` test. */
  lemma {:induction false} ModifierEventsQuiet(mods: bv8, n: nat)
    requires n <= 8
    ensures ModifierEvents(mods, mods, n) == []
  {
    if n > 0 {
      ModifierEventsQuiet(mods, n - 1);
    }
  }

  lemma {:induction false} PressesSettle(keys: seq<u8>, mods: int, keymap: seq<int>, n: nat)
    requires n <= |keys| && |keymap| == KEYMAP_SIZE
    ensures Presses(keys, keys, mods, keymap, n) == []
  {
    if n > 0 {
      PressesSettle(keys, mods, keymap, n - 1);
      assert keys[n - 1] in keys;
    }
  }

  lemma {:induction false} ReleasesSettle(keys: seq<u8>, mods: int, keymap: seq<int>, n: nat)
    requires n <= |keys| && |keymap| == KEYMAP_SIZE
    ensures Releases(keys, keys, mods, keymap, n) == []
  {
    if n > 0 {
      ReleasesSettle(keys, mods, keymap, n - 1);
      assert keys[n - 1] in keys;
    }
  }

  /** Receiving the same report twice queues nothing the second time. */
  lemma ReportSettles(keys: seq<u8>, mods: bv8, keymap: seq<int>)
    requires |keys| == 6 && |keymap| == KEYMAP_SIZE
    ensures ReportEvents(keys, mods, keys, mods, keymap) == []
  {
    PressesSettle(keys, mods as int, keymap, 6);
    ReleasesSettle(keys, mods as int, keymap, 6);
  }

  // ------------------------------------------------------------- key table

  /** The table initkeymap leaves: USB HID usage ID to SDL key. */
  function OldKeymapEntry(u: int): (k: int)
  {
    if 4 <= u <= 29 then K_a + (u - 4)
    else if 30 <= u <= 38 then K_1 + (u - 30)
    else if 58 <= u <= 69 then K_F1 + (u - 58)
    else if 89 <= u <= 97 then K_KP1 + (u - 89)
    else if 39 <= u <= 57 then PunctuationEntry(u)
    else if 72 <= u <= 87 then NavigationEntry(u)
    else if u == 98 then K_KP0
    else K_UNKNOWN
  }

  /** Usages 39 .. 57 after the assignments that follow the digit loop. */
  function PunctuationEntry(u: int): int
  {
    match u
    case 39 => K_0
    case 40 => K_RETURN
    case 41 => K_ESCAPE
    case 42 => K_BACKSPACE
    case 43 => K_TAB
    case 44 => K_SPACE
    case 45 => K_MINUS
    case 46 => K_EQUALS
    case 47 => K_RIGHTBRACKET
    case 49 => K_BACKSLASH
    case 51 => K_SEMICOLON
    case 52 => K_QUOTE
    case 53 => K_BACKQUOTE
    case 54 => K_COMMA
    case 55 => K_PERIOD
    case 56 => K_SLASH
    case 57 => K_CAPSLOCK
    case _ => K_UNKNOWN
  }

  /** Usages 72 .. 87 after the assignments that follow the function-key loop. */
  function NavigationEntry(u: int): int
  {
    match u
    case 72 => K_PAUSE
    case 73 => K_INSERT
    case 74 => K_HOME
    case 75 => K_PAGEUP
    case 76 => K_DELETE
    case 77 => K_END
    case 78 => K_PAGEDOWN
    case 79 => K_RIGHT
    case 80 => K_LEFT
    case 81 => K_DOWN
    case 82 => K_UP
    case 83 => K_NUMLOCK
    case 84 => K_KP_DIVIDE
    case 85 => K_KP_MULTIPLY
    case 86 => K_KP_MINUS
    case 87 => K_KP_ENTER
    case _ => K_UNKNOWN
  }

  /** Letters, digits and function keys sit where the HID usage tables put them. */
  lemma OldKeymapRuns(u: int)
    ensures 4 <= u < 30 ==> OldKeymapEntry(u) == K_a + (u - 4) && K_a <= OldKeymapEntry(u) <= K_z
    ensures 30 <= u < 39 ==> OldKeymapEntry(u) == K_1 + (u - 30)
    ensures 58 <= u < 70 ==> OldKeymapEntry(u) == K_F1 + (u - 58) && OldKeymapEntry(u) <= K_F12
    ensures 89 <= u < 98 ==> OldKeymapEntry(u) == K_KP1 + (u - 89)
    ensures u >= 99 ==> OldKeymapEntry(u) == K_UNKNOWN
  {
  }

  /** The letter loop runs one step too far and writes usage 30 with the key
      after 'z'; the digit loop then overwrites it, so the table is unaffected. */
  lemma LetterLoopOverrunHarmless()
    ensures OldKeymapEntry(30) == K_1
  {
  }

  /** The two doubled assignments: usage 47 is written twice and 48 never, 87
      twice and 88 never. The left bracket and keypad plus are unreachable,
      and usages 48 ("]") and 88 (keypad enter) come out unknown. */
  lemma OldKeymapDoubledWrites(u: int)
    ensures OldKeymapEntry(47) == K_RIGHTBRACKET && OldKeymapEntry(48) == K_UNKNOWN
    ensures OldKeymapEntry(87) == K_KP_ENTER && OldKeymapEntry(88) == K_UNKNOWN
    ensures OldKeymapEntry(u) != K_LEFTBRACKET && OldKeymapEntry(u) != K_KP_PLUS
  {
  }

  /** The fill loop of initkeymap. */
  method FillUnknown(a: array<int>)
    modifies a
    ensures forall u :: 0 <= u < a.Length ==> a[u] == K_UNKNOWN
  {
    for i := 0 to a.Length
      invariant forall u :: 0 <= u < i ==> a[u] == K_UNKNOWN
    {
      a[i] := K_UNKNOWN;
    }
  }

  /** The loop `keymap[4+i] = SDLK_a + i` for i < 27, which also writes usage 30. */
  method FillLetters(a: array<int>)
    requires 31 <= a.Length
    modifies a
    ensures forall u :: 0 <= u < a.Length ==> a[u] == if 4 <= u <= 30 then K_a + (u - 4) else old(a[u])
  {
    for i := 0 to 27
      invariant forall u :: 0 <= u < a.Length ==> a[u] == if 4 <= u < 4 + i then K_a + (u - 4) else old(a[u])
    {
      a[4 + i] := K_a + i;
    }
  }

  /** A loop `a[base + i] = first + i` over i < n. */
  method FillRun(a: array<int>, base: nat, first: int, n: nat)
    requires base + n <= a.Length
    modifies a
    ensures forall u :: 0 <= u < a.Length ==> a[u] == if base <= u < base + n then first + (u - base) else old(a[u])
  {
    for i := 0 to n
      invariant forall u :: 0 <= u < a.Length ==> a[u] == if base <= u < base + i then first + (u - base) else old(a[u])
    {
      a[base + i] := first + i;
    }
  }

  /** Usages written by the assignments after the digit loop: 39 .. 57 but 48 and 50. */
  predicate PunctuationSlot(u: int)
  {
    39 <= u <= 57 && u != 48 && u != 50
  }

  /** The assignments to usages 39 .. 57, in source order. */
  method SetPunctuation(a: array<int>)
    requires a.Length == KEYMAP_SIZE
    modifies a
    ensures forall u :: 0 <= u < a.Length ==> a[u] == if PunctuationSlot(u) then PunctuationEntry(u) else old(a[u])
  {
    SetPunctuationA(a);
    SetPunctuationB(a);
  }

  method SetPunctuationA(a: array<int>)
    requires a.Length == KEYMAP_SIZE
    modifies a
    ensures forall u :: 0 <= u < a.Length ==> a[u] == if 39 <= u <= 47 then PunctuationEntry(u) else old(a[u])
  {
    a[39] := K_0;
    a[40] := K_RETURN;
    a[41] := K_ESCAPE;
    a[42] := K_BACKSPACE;
    a[43] := K_TAB;
    a[44] := K_SPACE;
    a[45] := K_MINUS;
    a[46] := K_EQUALS;
    a[47] := K_LEFTBRACKET;
    a[47] := K_RIGHTBRACKET;
  }

  method SetPunctuationB(a: array<int>)
    requires a.Length == KEYMAP_SIZE
    modifies a
    ensures forall u :: 0 <= u < a.Length ==> a[u] == if 49 <= u <= 57 && u != 50 then PunctuationEntry(u) else old(a[u])
  {
    a[49] := K_BACKSLASH;
    a[51] := K_SEMICOLON;
    a[52] := K_QUOTE;
    a[53] := K_BACKQUOTE;
    a[54] := K_COMMA;
    a[55] := K_PERIOD;
    a[56] := K_SLASH;
    a[57] := K_CAPSLOCK;
  }

  /** The assignments to usages 72 .. 87, in source order. */
  method SetNavigation(a: array<int>)
    requires a.Length == KEYMAP_SIZE
    modifies a
    ensures forall u :: 0 <= u < a.Length ==> a[u] == if 72 <= u <= 87 then NavigationEntry(u) else old(a[u])
  {
    SetNavigationA(a);
    SetNavigationB(a);
    SetNavigationC(a);
  }

  method SetNavigationA(a: array<int>)
    requires a.Length == KEYMAP_SIZE
    modifies a
    ensures forall u :: 0 <= u < a.Length ==> a[u] == if 72 <= u <= 78 then NavigationEntry(u) else old(a[u])
  {
    a[72] := K_PAUSE;
    a[73] := K_INSERT;
    a[74] := K_HOME;
    a[75] := K_PAGEUP;
    a[76] := K_DELETE;
    a[77] := K_END;
    a[78] := K_PAGEDOWN;
  }

  method SetNavigationB(a: array<int>)
    requires a.Length == KEYMAP_SIZE
    modifies a
    ensures forall u :: 0 <= u < a.Length ==> a[u] == if 79 <= u <= 83 then NavigationEntry(u) else old(a[u])
  {
    a[79] := K_RIGHT;
    a[80] := K_LEFT;
    a[81] := K_DOWN;
    a[82] := K_UP;
    a[83] := K_NUMLOCK;
  }

  method SetNavigationC(a: array<int>)
    requires a.Length == KEYMAP_SIZE
    modifies a
    ensures forall u :: 0 <= u < a.Length ==> a[u] == if 84 <= u <= 87 then NavigationEntry(u) else old(a[u])
  {
    a[84] := K_KP_DIVIDE;
    a[85] := K_KP_MULTIPLY;
    a[86] := K_KP_MINUS;
    a[87] := K_KP_PLUS;
    a[87] := K_KP_ENTER;
  }

  /** The inner search of the callback: `found` once some slot holds k. */
  method Find(slots: seq<u8>, k: u8) returns (found: bool)
    ensures found <==> k in slots
  {
    found := false;
    var j := 0;
    while j < |slots|
      invariant 0 <= j <= |slots|
      invariant !found && k !in slots[..j]
    {
      if slots[j] == k {
        found := true;
        assert slots[j] in slots;
        return;
      }
      assert slots[..j + 1] == slots[..j] + [slots[j]];
      j := j + 1;
    }
    assert slots[..j] == slots;
  }

  /** The keyboard side of the driver: the report buffer key_data that the
      USB request fills, the previous report, the key table and the queue. */
  class Keyboard {
    /** keyboard_kb: the handle of /dev/usb/kbd, negative when it did not open. */
    var kb: int
    /** keyboard_stop != 0. */
    var stop: bool
    /** key_data.message, .modifiers and .keys. */
    var message: int
    var modifiers: bv8
    var keys: seq<u8>
    /** prev_modifiers and prev_keys. */
    var prevModifiers: bv8
    var prevKeys: seq<u8>
    const keymap: array<int>
    const queue: Queue<KeyEvent>

    ghost predicate Valid()
      reads this
    {
      |keys| == 6 && |prevKeys| == 6 && keymap.Length == KEYMAP_SIZE
    }

    /** The statics before initialisation: keyboard_kb = -1, keyboard_stop = 1, all else zero. */
    constructor (q: Queue<KeyEvent>)
      ensures Valid() && queue == q && kb == -1 && stop && message == 0
      ensures keys == [0, 0, 0, 0, 0, 0] && prevKeys == [0, 0, 0, 0, 0, 0] && modifiers == 0 && prevModifiers == 0
      ensures fresh(keymap)
    {
      kb, stop, message := -1, true, 0;
      modifiers, keys := 0, [0, 0, 0, 0, 0, 0];
      prevModifiers, prevKeys := 0, [0, 0, 0, 0, 0, 0];
      keymap := new int[KEYMAP_SIZE];
      queue := q;
    }

    /** initkeymap. */
    method InitKeymap()
      requires Valid()
      modifies keymap
      ensures forall u :: 0 <= u < keymap.Length ==> keymap[u] == OldKeymapEntry(u)
    {
      FillUnknown(keymap);
      FillLetters(keymap);
      FillRun(keymap, 30, K_1, 9);
      SetPunctuation(keymap);
      FillRun(keymap, 58, K_F1, 12);
      SetNavigation(keymap);
      FillRun(keymap, 89, K_KP1, 9);
      keymap[98] := K_KP0;
    }

    /** A key report: presses, releases, modifier changes, then the report
        becomes the previous one. */
    method HandleReport()
      requires Valid()
      modifies this`prevKeys, this`prevModifiers, queue
      ensures Valid() && prevKeys == keys && prevModifiers == modifiers
      ensures queue.items == old(queue.items) + ReportEvents(keys, modifiers, old(prevKeys), old(prevModifiers), keymap[..])
    {
      ghost var table := keymap[..];
      ghost var presses := Presses(keys, prevKeys, modifiers as int, table, 6);
      ghost var releases := Releases(keys, prevKeys, modifiers as int, table, 6);
      ghost var changes := if prevModifiers != modifiers then ModifierEvents(modifiers, prevModifiers, 8) else [];
      ghost var q0 := queue.items;
      EmitPresses(queue, keys, prevKeys, modifiers as int, keymap, table);
      EmitReleases(queue, keys, prevKeys, modifiers as int, keymap, table);
      if prevModifiers != modifiers {
        ghost var q2 := queue.items;
        EmitModifiers(queue, modifiers, prevModifiers);
        assert queue.items == q2 + changes;
      }
      assert ReportEvents(keys, modifiers, old(prevKeys), old(prevModifiers), table) == presses + releases + changes;
      Concat(q0, presses, releases, changes, queue.items);
      prevKeys := keys;
      prevModifiers := modifiers;
    }

    /** keyboard_callback. `rearm` says whether the next report request is
        issued (IOS_IoctlAsync); it always returns 0. */
    method Callback() returns (r: int, rearm: bool)
      requires Valid()
      modifies this`message, this`prevKeys, this`prevModifiers, queue
      ensures Valid() && r == 0
      // No keyboard, or no new report: nothing happens.
      ensures kb < 0 || old(message) == NO_MESSAGE ==>
                message == old(message) && !rearm && queue.items == old(queue.items)
                && prevKeys == old(prevKeys) && prevModifiers == old(prevModifiers)
      // Otherwise the report is consumed and the request re-armed unless stopped.
      ensures kb >= 0 && old(message) != NO_MESSAGE ==> message == NO_MESSAGE && rearm == !stop
      ensures kb >= 0 && old(message) == REPORT ==>
                queue.items == old(queue.items) + ReportEvents(keys, modifiers, old(prevKeys), old(prevModifiers), keymap[..])
                && prevKeys == keys && prevModifiers == modifiers
      ensures kb >= 0 && old(message) != NO_MESSAGE && old(message) != REPORT ==>
                queue.items == old(queue.items) && prevKeys == old(prevKeys) && prevModifiers == old(prevModifiers)
    {
      r, rearm := 0, false;
      if kb < 0 || message == NO_MESSAGE {
        return;
      }
      if message == REPORT {
        HandleReport();
      }
      message := NO_MESSAGE;
      rearm := !stop;
    }
  }

  lemma Concat(q0: seq<KeyEvent>, a: seq<KeyEvent>, b: seq<KeyEvent>, c: seq<KeyEvent>, q: seq<KeyEvent>)
    requires q == q0 + a + b + c
    ensures q == q0 + (a + b + c)
  {
  }

  /** The presses loop of keyboard_callback. */
  method EmitPresses(queue: Queue<KeyEvent>, keys: seq<u8>, prev: seq<u8>, mods: int, keymap: array<int>, ghost table: seq<int>)
    requires |keys| == 6 && keymap.Length == KEYMAP_SIZE && keymap[..] == table
    modifies queue
    ensures queue.items == old(queue.items) + Presses(keys, prev, mods, table, 6)
  {
    for i := 0 to 6
      invariant queue.items == old(queue.items) + Presses(keys, prev, mods, table, i)
    {
      if keys[i] != 0 {
        var found := Find(prev, keys[i]);
        if !found {
          var ok := queue.Add(KeyEvent(KEYBOARD_PRESSED, mods, keymap[keys[i]]));
        }
      }
    }
  }

  /** The releases loop of keyboard_callback. */
  method EmitReleases(queue: Queue<KeyEvent>, keys: seq<u8>, prev: seq<u8>, mods: int, keymap: array<int>, ghost table: seq<int>)
    requires |prev| == 6 && keymap.Length == KEYMAP_SIZE && keymap[..] == table
    modifies queue
    ensures queue.items == old(queue.items) + Releases(keys, prev, mods, table, 6)
  {
    for i := 0 to 6
      invariant queue.items == old(queue.items) + Releases(keys, prev, mods, table, i)
    {
      if prev[i] != 0 {
        var found := Find(keys, prev[i]);
        if !found {
          var ok := queue.Add(KeyEvent(KEYBOARD_RELEASED, mods, keymap[prev[i]]));
        }
      }
    }
  }

  /** The modifier loop of keyboard_callback, run when the modifier byte changed. */
  method EmitModifiers(queue: Queue<KeyEvent>, mods: bv8, prevMods: bv8)
    modifies queue
    ensures queue.items == old(queue.items) + ModifierEvents(mods, prevMods, 8)
  {
    for i := 0 to 8
      invariant queue.items == old(queue.items) + ModifierEvents(mods, prevMods, i)
    {
      var key := ModifierKeycodes[i];
      if HasBit(mods, i) && !HasBit(prevMods, i) {
        var ok := queue.Add(KeyEvent(KEYBOARD_PRESSED, 0, key));
      } else if !HasBit(mods, i) && HasBit(prevMods, i) {
        var ok := queue.Add(KeyEvent(KEYBOARD_RELEASED, 0, key));
      }
    }
  }

  // ------------------------------------------------------------- PumpEvents

  /** The position the remote's buttons are reported at: the pointer when it
      is valid, else where SDL_GetMouseState says the mouse is. */
  function PointerX(r: Remote, mouseX: int): int { if r.irValid then r.irX else mouseX }
  function PointerY(r: Remote, mouseY: int): int { if r.irValid then r.irY else mouseY }

  /** What one poll posts for the remote: motion when the valid pointer moved,
      then the A and B edges, which are looked at whether or not the pointer is valid. */
  function RemotePosts(t: Tracking, r: Remote, mouseX: int, mouseY: int): seq<Posted>
  {
    var x := PointerX(r, mouseX);
    var y := PointerY(r, mouseY);
    (if r.irValid then MotionPosts(t.x, t.y, x, y) else [])
    + EdgePosts(StateOf(r.heldA), t.a, BUTTON_LEFT, x, y)
    + EdgePosts(StateOf(r.heldB), t.b, BUTTON_RIGHT, x, y)
  }

  /** What the poll remembers afterwards. */
  function RemoteNext(t: Tracking, r: Remote): Tracking
  {
    Tracking(if r.irValid then r.irX else t.x, if r.irValid then r.irY else t.y, StateOf(r.heldA), StateOf(r.heldB))
  }

  /** The pointer is moved exactly when it is valid and differs from the last
      position posted, and then to the pointer position. */
  lemma RemoteMotionIff(t: Tracking, r: Remote, mouseX: int, mouseY: int, p: Posted)
    requires p.MouseMotion?
    ensures p in RemotePosts(t, r, mouseX, mouseY)
            <==> r.irValid && (t.x != r.irX || t.y != r.irY) && p == MouseMotion(0, false, r.irX, r.irY)
  {
    var e := EdgePosts(StateOf(r.heldA), t.a, BUTTON_LEFT, PointerX(r, mouseX), PointerY(r, mouseY))
           + EdgePosts(StateOf(r.heldB), t.b, BUTTON_RIGHT, PointerX(r, mouseX), PointerY(r, mouseY));
    assert forall q :: q in e ==> q.MouseButton?;
    assert RemotePosts(t, r, mouseX, mouseY)
        == (if r.irValid then MotionPosts(t.x, t.y, r.irX, r.irY) else []) + e;
  }

  /** The left button is posted exactly when A's state differs from the last
      one posted, with the new state at the reported position; likewise the
      right button and B. */
  lemma RemoteButtonIff(t: Tracking, r: Remote, mouseX: int, mouseY: int, st: int, x: int, y: int)
    ensures MouseButton(st, BUTTON_LEFT, x, y) in RemotePosts(t, r, mouseX, mouseY)
            <==> StateOf(r.heldA) != t.a && st == StateOf(r.heldA) && x == PointerX(r, mouseX) && y == PointerY(r, mouseY)
    ensures MouseButton(st, BUTTON_RIGHT, x, y) in RemotePosts(t, r, mouseX, mouseY)
            <==> StateOf(r.heldB) != t.b && st == StateOf(r.heldB) && x == PointerX(r, mouseX) && y == PointerY(r, mouseY)
  {
    var px, py := PointerX(r, mouseX), PointerY(r, mouseY);
    var m := if r.irValid then MotionPosts(t.x, t.y, px, py) else [];
    assert forall q :: q in m ==> q.MouseMotion?;
    assert RemotePosts(t, r, mouseX, mouseY)
        == m + EdgePosts(StateOf(r.heldA), t.a, BUTTON_LEFT, px, py) + EdgePosts(StateOf(r.heldB), t.b, BUTTON_RIGHT, px, py);
  }

  /** A second poll with the remote unchanged posts nothing for it. */
  lemma RemoteSettles(t: Tracking, r: Remote, mouseX: int, mouseY: int)
    ensures RemotePosts(RemoteNext(t, r), r, mouseX, mouseY) == []
  {
  }

  /** The state PumpEvents keeps between calls, and the two queues the USB
      callbacks fill. */
  class EventPump {
    var lastX: int
    var lastY: int
    var lastA: int
    var lastB: int
    /** The static `ke` and `me`: the last events dequeued. */
    var ke: KeyEvent
    var me: MouseReport
    const keyQueue: Queue<KeyEvent>
    const mouseQueue: Queue<MouseReport>

    function Tracked(): Tracking
      reads this
    {
      Tracking(lastX, lastY, lastA, lastB)
    }

    constructor (kq: Queue<KeyEvent>, mq: Queue<MouseReport>)
      ensures Tracked() == Tracking(0, 0, RELEASED, RELEASED) && keyQueue == kq && mouseQueue == mq
    {
      lastX, lastY, lastA, lastB := 0, 0, RELEASED, RELEASED;
      ke := KeyEvent(0, 0, 0);
      me := MouseReport(0, 0, 0);
      keyQueue, mouseQueue := kq, mq;
    }

    /** PumpEvents. The remote's data, where SDL_GetMouseState puts the mouse
        and the button mask it returns when the mouse report is looked at are
        parameters; `posted` lists the calls into SDL's event layer in order. */
    method PumpEvents(r: Remote, mouseX: int, mouseY: int, down: bv8) returns (posted: seq<Posted>)
      modifies this, keyQueue, mouseQueue
      ensures old(keyQueue.items) == [] ==> ke == old(ke) && keyQueue.items == []
      ensures old(keyQueue.items) != [] ==> ke == old(keyQueue.items)[0] && keyQueue.items == old(keyQueue.items)[1..]
      ensures old(mouseQueue.items) == [] ==> me == old(me) && mouseQueue.items == []
      ensures old(mouseQueue.items) != [] ==> me == old(mouseQueue.items)[0] && mouseQueue.items == old(mouseQueue.items)[1..]
      ensures Tracked() == RemoteNext(old(Tracked()), r)
      ensures posted == RemotePosts(old(Tracked()), r, mouseX, mouseY)
                        + KeyPosts(old(keyQueue.items) != [], ke.kind, ke.scancode)
                        + MousePosts(old(mouseQueue.items) != [], me, down)
    {
      ghost var keysBefore, miceBefore := keyQueue.items, mouseQueue.items;
      var stat, mstat;
      stat, ke := keyQueue.Get(ke);
      mstat, me := mouseQueue.Get(me);
      var remote := PostRemote(r, mouseX, mouseY);
      var key: seq<Posted> := [];
      if stat == 1 && (ke.kind == KEYBOARD_RELEASED || ke.kind == KEYBOARD_PRESSED) {
        var keystate := if ke.kind == KEYBOARD_PRESSED then PRESSED else RELEASED;
        key := [Keyboard(keystate, ke.scancode, 0)];
      }
      assert key == KeyPosts(keysBefore != [], ke.kind, ke.scancode);
      var mouse: seq<Posted> := [];
      if mstat == 1 {
        mouse := PostMouse(me, down);
      }
      assert mouse == MousePosts(miceBefore != [], me, down);
      posted := remote + key + mouse;
    }

    /** The remote part of PumpEvents. */
    method PostRemote(r: Remote, mouseX: int, mouseY: int) returns (posted: seq<Posted>)
      modifies this`lastX, this`lastY, this`lastA, this`lastB
      ensures Tracked() == RemoteNext(old(Tracked()), r)
      ensures posted == RemotePosts(old(Tracked()), r, mouseX, mouseY)
    {
      var x, y := mouseX, mouseY;
      posted := [];
      if r.irValid {
        x, y := r.irX, r.irY;
        if lastX != x || lastY != y {
          posted := posted + [MouseMotion(0, false, x, y)];
          lastX, lastY := x, y;
        }
      }
      var stateA, stateB := RELEASED, RELEASED;
      if r.heldA {
        stateA := PRESSED;
      }
      if r.heldB {
        stateB := PRESSED;
      }
      if stateA != lastA {
        lastA := stateA;
        posted := posted + [MouseButton(stateA, BUTTON_LEFT, x, y)];
      }
      if stateB != lastB {
        lastB := stateB;
        posted := posted + [MouseButton(stateB, BUTTON_RIGHT, x, y)];
      }
    }
  }

  /** The mouse-report part of PumpEvents; `down` is SDL's button mask. */
  method PostMouse(me: MouseReport, down: bv8) returns (posted: seq<Posted>)
    ensures posted == MousePosts(true, me, down)
  {
    posted := [MouseMotion(me.button as int, true, me.rx, me.ry)];
    var button := me.button;
    if button & 0x1 != 0 {
      if down & ButtonMask(1) == 0 {
        posted := posted + [MouseButton(PRESSED, 1, 0, 0)];
      }
    } else if down & ButtonMask(1) != 0 {
      posted := posted + [MouseButton(RELEASED, 1, 0, 0)];
    }
    if button & 0x2 != 0 {
      if down & ButtonMask(3) == 0 {
        posted := posted + [MouseButton(PRESSED, 3, 0, 0)];
      }
    } else if down & ButtonMask(3) != 0 {
      posted := posted + [MouseButton(RELEASED, 3, 0, 0)];
    }
  }
}
