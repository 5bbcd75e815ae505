/** What PumpEvents tells SDL about the Wii remote's infrared pointer and its
    A and B buttons, about one dequeued key event and about one USB mouse
    report. Both events files do this the same way, apart from where the key
    symbol comes from and whether the A/B buttons are looked at without a
    valid pointer. Each SDL_PrivateMouseMotion / SDL_PrivateMouseButton /
    SDL_PrivateKeyboard call is a Posted value, in call order. */
module Pointer {
  import opened Sdl

  /** The part of WPAD_Data(0) that PumpEvents reads. `heldA` and `heldB` are
      `btns_h & WPAD_BUTTON_A` and `btns_h & WPAD_BUTTON_B`. */
  datatype Remote = Remote(irValid: bool, irX: int, irY: int, heldA: bool, heldB: bool)

  /** What PumpEvents remembers between polls: the last pointer position
      posted (lastX, lastY) and the last A and B states posted. */
  datatype Tracking = Tracking(x: int, y: int, a: int, b: int)

  /** A USB mouse report (mouseEvent / mouse_event): button bits and motion. */
  datatype MouseReport = MouseReport(button: bv8, rx: int, ry: int)

  // keyboard_eventType
  const KEYBOARD_PRESSED: int := 0
  const KEYBOARD_RELEASED: int := 1
  const KEYBOARD_DISCONNECTED: int := 2
  const KEYBOARD_CONNECTED: int := 3

  function StateOf(held: bool): (st: int)
    ensures st == PRESSED <==> held
    ensures st == RELEASED <==> !held
  {
    if held then PRESSED else RELEASED
  }

  /** Absolute motion to (x, y), posted only when the pointer has moved. */
  function MotionPosts(lastX: int, lastY: int, x: int, y: int): seq<Posted>
  {
    if lastX != x || lastY != y then [MouseMotion(0, false, x, y)] else []
  }

  /** One remote button, posted only when its state differs from the last one posted. */
  function EdgePosts(state: int, last: int, button: int, x: int, y: int): seq<Posted>
  {
    if state != last then [MouseButton(state, button, x, y)] else []
  }

  /** The key SDL is told about for a dequeued key event of the given kind
      whose symbol is sym; only presses and releases are posted, with no
      modifiers. */
  function KeyPosts(stat: bool, kind: int, sym: int): (r: seq<Posted>)
    ensures |r| <= 1
    ensures |r| == 1 <==> stat && (kind == KEYBOARD_PRESSED || kind == KEYBOARD_RELEASED)
    ensures forall p :: p in r ==>
              p.Keyboard? && p.sym == sym && p.mod == 0
              && (p.state == PRESSED <==> kind == KEYBOARD_PRESSED)
              && (p.state == RELEASED <==> kind == KEYBOARD_RELEASED)
  {
    if stat && (kind == KEYBOARD_RELEASED || kind == KEYBOARD_PRESSED)
    then [Keyboard(if kind == KEYBOARD_PRESSED then PRESSED else RELEASED, sym, 0)]
    else []
  }

  /** SDL_BUTTON(b): the bit of SDL's button mask that holds button b. */
  function ButtonMask(b: int): bv8
    requires b == BUTTON_LEFT || b == BUTTON_RIGHT
  {
    if b == BUTTON_LEFT then 1 else 4
  }

  /** The report bit that drives button b: 0x1 for button 1, 0x2 for button 3. */
  function ReportBit(b: int): bv8
    requires b == BUTTON_LEFT || b == BUTTON_RIGHT
  {
    if b == BUTTON_LEFT then 1 else 2
  }

  /** A press when the report holds the bit and SDL has the button up; a
      release when the report does not and SDL has it down. `down` is the
      button mask SDL_GetMouseState returns. */
  function UsbButtonPosts(report: bv8, down: bv8, b: int): seq<Posted>
    requires b == BUTTON_LEFT || b == BUTTON_RIGHT
  {
    if report & ReportBit(b) != 0 then
      (if down & ButtonMask(b) == 0 then [MouseButton(PRESSED, b, 0, 0)] else [])
    else
      (if down & ButtonMask(b) != 0 then [MouseButton(RELEASED, b, 0, 0)] else [])
  }

  /** A dequeued mouse report: relative motion carrying the report's button
      bits, then buttons 1 and 3. */
  function MousePosts(mstat: bool, m: MouseReport, down: bv8): seq<Posted>
  {
    if mstat
    then [MouseMotion(m.button as int, true, m.rx, m.ry)]
         + UsbButtonPosts(m.button, down, BUTTON_LEFT) + UsbButtonPosts(m.button, down, BUTTON_RIGHT)
    else []
  }

  /** A mouse button is pressed exactly when the report sets its bit while SDL
      has it up, and released exactly when the report clears it while SDL has
      it down; nothing else is posted for it. */
  lemma UsbButtonIff(m: MouseReport, down: bv8, b: int, st: int, x: int, y: int)
    ensures MouseButton(st, b, x, y) in MousePosts(true, m, down)
            <==> (b == BUTTON_LEFT || b == BUTTON_RIGHT) && x == 0 && y == 0
                 && ((st == PRESSED && m.button & ReportBit(b) != 0 && down & ButtonMask(b) == 0)
                     || (st == RELEASED && m.button & ReportBit(b) == 0 && down & ButtonMask(b) != 0))
  {
    var left := UsbButtonPosts(m.button, down, BUTTON_LEFT);
    var right := UsbButtonPosts(m.button, down, BUTTON_RIGHT);
    assert MousePosts(true, m, down) == [MouseMotion(m.button as int, true, m.rx, m.ry)] + left + right;
    assert forall p :: p in left ==> p.MouseButton? && p.button == BUTTON_LEFT;
    assert forall p :: p in right ==> p.MouseButton? && p.button == BUTTON_RIGHT;
  }

  /** A mouse report always moves the pointer relatively, first. */
  lemma MouseMotionFirst(m: MouseReport, down: bv8)
    ensures |MousePosts(true, m, down)| >= 1
    ensures MousePosts(true, m, down)[0] == MouseMotion(m.button as int, true, m.rx, m.ry)
    ensures forall i :: 1 <= i < |MousePosts(true, m, down)| ==> MousePosts(true, m, down)[i].MouseButton?
  {
  }
}
