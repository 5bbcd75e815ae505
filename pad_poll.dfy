/** What one poll of a controller reports to SDL's joystick layer, shared by
    both joystick drivers: the held-button mask is XORed with the mask stored
    at the previous poll, every changed mapped button is reported, a hat is
    reported when one of its d-pad bits changed, and an axis is reported when
    its reading differs from the stored one. The button bit constants belong
    to the console SDK, so they enter as parameters (`masks`, `DPad`). */
module PadPoll {
  import opened Sdl

  /** SDL_PrivateJoystickHat / SDL_PrivateJoystickButton / SDL_PrivateJoystickAxis. */
  datatype JoyEvent =
    | HatMotion(hat: int, position: bv8)
    | ButtonChange(button: int, state: int)
    | AxisMotion(axis: int, value: int)

  /** The four held-mask bits that make up one d-pad. */
  datatype DPad = DPad(up: bv32, down: bv32, left: bv32, right: bv32)

  function DPadBits(d: DPad): bv32 { d.left | d.right | d.down | d.up }

  /** `(x & mask) != 0`: some bit of mask is set in x. */
  predicate Hits(x: bv32, mask: bv32) { x & mask != 0 }

  function Bit(b: bool, v: bv8): bv8 { if b then v else 0 }

  /** The hat position built from the held directions by OR-ing their bits. */
  function HatOf(up: bool, down: bool, left: bool, right: bool): (hat: bv8)
    ensures (hat & HAT_UP != 0) == up && (hat & HAT_DOWN != 0) == down
    ensures (hat & HAT_LEFT != 0) == left && (hat & HAT_RIGHT != 0) == right
    ensures (hat == HAT_CENTERED) == (!up && !down && !left && !right)
  {
    HAT_CENTERED | Bit(up, HAT_UP) | Bit(down, HAT_DOWN) | Bit(left, HAT_LEFT) | Bit(right, HAT_RIGHT)
  }

  lemma OrBit(held: bv32, a: bv32, b: bv32)
    ensures Hits(held, a | b) == (Hits(held, a) || Hits(held, b))
  {
    assert held & (a | b) == (held & a) | (held & b);
  }

  lemma AnyBit(held: bv32, a: bv32, b: bv32, c: bv32, e: bv32)
    ensures Hits(held, a | b | c | e) == (Hits(held, a) || Hits(held, b) || Hits(held, c) || Hits(held, e))
  {
    var ab := a | b;
    var abc := ab | c;
    OrBit(held, a, b);
    OrBit(held, ab, c);
    OrBit(held, abc, e);
    assert Hits(held, abc | e) == (Hits(held, a) || Hits(held, b) || Hits(held, c) || Hits(held, e));
  }

  /** The hat position: the OR of the held directions. */
  function HatValue(d: DPad, held: bv32): (hat: bv8)
    ensures (hat & HAT_UP != 0) == Hits(held, d.up)
    ensures (hat & HAT_DOWN != 0) == Hits(held, d.down)
    ensures (hat & HAT_LEFT != 0) == Hits(held, d.left)
    ensures (hat & HAT_RIGHT != 0) == Hits(held, d.right)
  {
    HatOf(Hits(held, d.up), Hits(held, d.down), Hits(held, d.left), Hits(held, d.right))
  }

  lemma HatValueCentered(d: DPad, held: bv32)
    ensures (HatValue(d, held) == HAT_CENTERED)
            == (!Hits(held, d.up) && !Hits(held, d.down) && !Hits(held, d.left) && !Hits(held, d.right))
  {
  }

  /** The hat is CENTERED exactly when no direction of the d-pad is held. */
  lemma HatCenteredIff(d: DPad, held: bv32)
    ensures (HatValue(d, held) == HAT_CENTERED) == !Hits(held, DPadBits(d))
  {
    HatValueCentered(d, held);
    AnyBit(held, d.left, d.right, d.down, d.up);
  }

  /** At most one hat report, and only when a d-pad bit changed. */
  function HatEvents(hat: int, d: DPad, changed: bv32, held: bv32): seq<JoyEvent>
  {
    if Hits(changed, DPadBits(d)) then [HatMotion(hat, HatValue(d, held))] else []
  }

  /** The hat block of a poll: `int hat = SDL_HAT_CENTERED; if (buttons & UP)
      hat |= SDL_HAT_UP; ...`, reported when a d-pad bit changed. */
  method PostHat(hat: int, d: DPad, changed: bv32, held: bv32) returns (events: seq<JoyEvent>)
    ensures events == HatEvents(hat, d, changed, held)
  {
    events := [];
    if Hits(changed, DPadBits(d)) {
      var v := ComposeHat(Hits(held, d.up), Hits(held, d.down), Hits(held, d.left), Hits(held, d.right));
      events := [HatMotion(hat, v)];
    }
  }

  /** `hat |= ...` for each held direction, starting from CENTERED. */
  method ComposeHat(up: bool, down: bool, left: bool, right: bool) returns (v: bv8)
    ensures v == HatOf(up, down, left, right)
  {
    v := HAT_CENTERED;
    if up {
      v := v | HAT_UP;
    }
    OrStep(HAT_CENTERED, up, HAT_UP, v);
    ghost var v1 := v;
    if down {
      v := v | HAT_DOWN;
    }
    OrStep(v1, down, HAT_DOWN, v);
    ghost var v2 := v;
    if left {
      v := v | HAT_LEFT;
    }
    OrStep(v2, left, HAT_LEFT, v);
    ghost var v3 := v;
    if right {
      v := v | HAT_RIGHT;
    }
    OrStep(v3, right, HAT_RIGHT, v);
  }

  lemma OrStep(v: bv8, b: bool, bit: bv8, w: bv8)
    requires w == if b then v | bit else v
    ensures w == v | Bit(b, bit)
  {
  }

  function ButtonState(held: bv32, mask: bv32): int
  {
    if Hits(held, mask) then PRESSED else RELEASED
  }

  /** The reports of the loop over the first n mapped buttons, in button order. */
  function ButtonEvents(masks: seq<bv32>, n: nat, changed: bv32, held: bv32): (r: seq<JoyEvent>)
    requires n <= |masks|
    ensures |r| <= n
  {
    if n == 0 then []
    else
      ButtonEvents(masks, n - 1, changed, held)
      + (if Hits(changed, masks[n - 1])
         then [ButtonChange(n - 1, ButtonState(held, masks[n - 1]))] else [])
  }

  /** Button i is reported, with state s, exactly when its mask bit changed and
      s says whether it is now held. */
  lemma {:induction false} ButtonEventsExact(masks: seq<bv32>, n: nat, changed: bv32, held: bv32, i: int, s: int)
    requires n <= |masks|
    ensures ButtonChange(i, s) in ButtonEvents(masks, n, changed, held)
            <==> 0 <= i < n && Hits(changed, masks[i]) && s == ButtonState(held, masks[i])
  {
    if n > 0 {
      ButtonEventsExact(masks, n - 1, changed, held, i, s);
    }
  }

  /** The button loop reports nothing but button changes. */
  lemma {:induction false} ButtonEventsOnlyButtons(masks: seq<bv32>, n: nat, changed: bv32, held: bv32)
    requires n <= |masks|
    ensures forall e :: e in ButtonEvents(masks, n, changed, held) ==> e.ButtonChange? && 0 <= e.button < n
  {
    if n > 0 {
      ButtonEventsOnlyButtons(masks, n - 1, changed, held);
    }
  }

  /** No button is reported when nothing changed. */
  lemma {:induction false} ButtonEventsQuiet(masks: seq<bv32>, n: nat, held: bv32)
    requires n <= |masks|
    ensures ButtonEvents(masks, n, 0, held) == []
  {
    if n > 0 {
      ButtonEventsQuiet(masks, n - 1, held);
    }
  }

  /** The loop `for (i = 0; i < count; i++) if (changed & sdl_buttons[i]) ...`. */
  method EmitButtons(masks: seq<bv32>, changed: bv32, held: bv32) returns (events: seq<JoyEvent>)
    ensures events == ButtonEvents(masks, |masks|, changed, held)
  {
    events := [];
    for i := 0 to |masks|
      invariant events == ButtonEvents(masks, i, changed, held)
    {
      if Hits(changed, masks[i]) {
        events := events + [ButtonChange(i, ButtonState(held, masks[i]))];
      }
    }
  }

  /** The corrected axis value for a reading v: `v << 8` saturated at the
      Sint16 bounds of SDL_PrivateJoystickAxis. The source wraps instead (see
      AxisValueAsWritten); the two agree on signed-byte readings. */
  function AxisValue(v: int): (r: s16)
    ensures -128 <= v < 128 ==> r == v * 256
    ensures v >= 128 ==> r == 32767
    ensures v < -128 ==> r == -32768
  {
    if v * 256 > 32767 then 32767 else if v * 256 < -32768 then -32768 else v * 256
  }

  /** `v << 8` passed to a Sint16 parameter, as the source does. */
  function AxisValueAsWritten(v: int): (r: s16)
  {
    ToS16(v * 256)
  }

  /** Both agree on every value that fits a signed byte. */
  lemma AxisValueAgrees(v: int)
    requires -128 <= v < 128
    ensures AxisValueAsWritten(v) == AxisValue(v) == v * 256
  {
  }

  /** As written, a trigger pressed past half way, or a GameCube stick pushed
      fully down (reported negated), comes out with the wrong sign. */
  lemma AxisValueAsWrittenWraps()
    ensures AxisValueAsWritten(127) == 32512
    ensures AxisValueAsWritten(128) == -32768
    ensures AxisValueAsWritten(255) == -256
    ensures AxisValueAsWritten(-(-128)) == -32768
  {
  }

  /** The intended reading: a larger reading never reports a smaller value. */
  lemma AxisValueMonotone(v: int, w: int)
    requires v <= w
    ensures AxisValue(v) <= AxisValue(w)
  {
  }

  /** At most one axis report, and only when the reading differs from the stored value. */
  function AxisEvents(axis: int, stored: int, reading: int, value: int): seq<JoyEvent>
  {
    if stored != reading then [AxisMotion(axis, value)] else []
  }

  /** One axis block for an `s8` field: `if (stored != axis) { report; stored = axis; }`;
      `now` is the field afterwards. */
  method SignedAxis(axis: int, stored: s8, reading: int, value: int) returns (events: seq<JoyEvent>, now: s8)
    ensures events == AxisEvents(axis, stored, reading, value) && now == ToS8(reading)
  {
    events, now := [], stored;
    if stored != reading {
      events := [AxisMotion(axis, value)];
      now := ToS8(reading);
    }
  }

  /** The same for a `u8` field. */
  method UnsignedAxis(axis: int, stored: u8, reading: int, value: int) returns (events: seq<JoyEvent>, now: u8)
    ensures events == AxisEvents(axis, stored, reading, value) && now == ToU8(reading)
  {
    events, now := [], stored;
    if stored != reading {
      events := [AxisMotion(axis, value)];
      now := ToU8(reading);
    }
  }

  // ---------------------------------------------------------------- GameCube pad

  /** A 16-bit button mask (`u16`), kept in the low half of a 32-bit word. */
  type Mask16 = x: bv32 | x < 0x1_0000

  /** The per-pad state a GameCube poll keeps (joystick_paddata / joystick_hwdata). */
  datatype GcState = GcState(prevButtons: Mask16, stickX: s8, stickY: s8, substickX: s8,
                             substickY: s8, triggerL: u8, triggerR: u8)

  const GcZero := GcState(0, 0, 0, 0, 0, 0, 0)

  /** One reading of PAD_ButtonsHeld, PAD_StickX, ..., PAD_TriggerR. */
  datatype PadStatus = PadStatus(buttons: Mask16, stickX: int, stickY: int, substickX: int,
                                 substickY: int, triggerL: int, triggerR: int)

  function GcChanged(s: GcState, p: PadStatus): bv32 { p.buttons ^ s.prevButtons }

  const GcAxes := 6

  function GcStored(s: GcState, axis: int): int
    requires 0 <= axis < GcAxes
  {
    match axis
    case 0 => s.stickX case 1 => s.stickY case 2 => s.substickX
    case 3 => s.substickY case 4 => s.triggerL case _ => s.triggerR
  }

  function GcReading(p: PadStatus, axis: int): int
    requires 0 <= axis < GcAxes
  {
    match axis
    case 0 => p.stickX case 1 => p.stickY case 2 => p.substickX
    case 3 => p.substickY case 4 => p.triggerL case _ => p.triggerR
  }

  /** Main stick Y is reported negated. */
  function GcReported(p: PadStatus, axis: int): int
    requires 0 <= axis < GcAxes
  {
    if axis == 1 then AxisValue(-p.stickY) else AxisValue(GcReading(p, axis))
  }

  function GcAxisEvents(s: GcState, p: PadStatus, n: nat): (r: seq<JoyEvent>)
    requires n <= GcAxes
    ensures forall e :: e in r ==> e.AxisMotion? && 0 <= e.axis < n
  {
    if n == 0 then []
    else GcAxisEvents(s, p, n - 1) + AxisEvents(n - 1, GcStored(s, n - 1), GcReading(p, n - 1), GcReported(p, n - 1))
  }

  /** The six axis reports of a GameCube poll, one after the other. */
  lemma GcAxisEventsInOrder(s: GcState, p: PadStatus)
    ensures GcAxisEvents(s, p, GcAxes)
            == AxisEvents(0, s.stickX, p.stickX, AxisValue(p.stickX))
               + AxisEvents(1, s.stickY, p.stickY, AxisValue(-p.stickY))
               + AxisEvents(2, s.substickX, p.substickX, AxisValue(p.substickX))
               + AxisEvents(3, s.substickY, p.substickY, AxisValue(p.substickY))
               + AxisEvents(4, s.triggerL, p.triggerL, AxisValue(p.triggerL))
               + AxisEvents(5, s.triggerR, p.triggerR, AxisValue(p.triggerR))
  {
    assert GcAxisEvents(s, p, 1) == AxisEvents(0, s.stickX, p.stickX, AxisValue(p.stickX));
    assert GcAxisEvents(s, p, 2) == GcAxisEvents(s, p, 1) + AxisEvents(1, s.stickY, p.stickY, AxisValue(-p.stickY));
    assert GcAxisEvents(s, p, 3) == GcAxisEvents(s, p, 2) + AxisEvents(2, s.substickX, p.substickX, AxisValue(p.substickX));
    assert GcAxisEvents(s, p, 4) == GcAxisEvents(s, p, 3) + AxisEvents(3, s.substickY, p.substickY, AxisValue(p.substickY));
    assert GcAxisEvents(s, p, 5) == GcAxisEvents(s, p, 4) + AxisEvents(4, s.triggerL, p.triggerL, AxisValue(p.triggerL));
  }

  /** The axis reports do not depend on the stored buttons. */
  lemma GcAxisEventsIgnoreButtons(s: GcState, b: Mask16, p: PadStatus)
    ensures GcAxisEvents(s.(prevButtons := b), p, GcAxes) == GcAxisEvents(s, p, GcAxes)
  {
    GcAxisEventsInOrder(s, p);
    GcAxisEventsInOrder(s.(prevButtons := b), p);
  }

  /** Everything one GameCube poll reports, in the order the source reports it. */
  function GcEvents(s: GcState, p: PadStatus, masks: seq<bv32>, d: DPad): seq<JoyEvent>
  {
    var held := p.buttons;
    HatEvents(0, d, GcChanged(s, p), held)
    + ButtonEvents(masks, |masks|, GcChanged(s, p), held)
    + GcAxisEvents(s, p, GcAxes)
  }

  /** The state stored after one GameCube poll. */
  function GcNext(s: GcState, p: PadStatus): GcState
  {
    GcState(p.buttons, ToS8(p.stickX), ToS8(p.stickY), ToS8(p.substickX), ToS8(p.substickY),
            ToU8(p.triggerL), ToU8(p.triggerR))
  }

  predicate GcInRange(p: PadStatus)
  {
    -128 <= p.stickX < 128 && -128 <= p.stickY < 128 && -128 <= p.substickX < 128
    && -128 <= p.substickY < 128 && 0 <= p.triggerL < 256 && 0 <= p.triggerR < 256
  }

  lemma {:induction false} GcAxisEventsExact(s: GcState, p: PadStatus, n: nat, a: int, v: int)
    requires n <= GcAxes
    ensures AxisMotion(a, v) in GcAxisEvents(s, p, n)
            <==> 0 <= a < n && GcStored(s, a) != GcReading(p, a) && v == GcReported(p, a)
  {
    if n > 0 {
      GcAxisEventsExact(s, p, n - 1, a, v);
    }
  }

  /** Button i is reported by a GameCube poll exactly when its bit changed. */
  lemma GcButtonEventIff(s: GcState, p: PadStatus, masks: seq<bv32>, d: DPad, i: int, st: int)
    ensures ButtonChange(i, st) in GcEvents(s, p, masks, d)
            <==> 0 <= i < |masks| && Hits(GcChanged(s, p), masks[i])
                 && st == ButtonState(p.buttons, masks[i])
  {
    ButtonEventsExact(masks, |masks|, GcChanged(s, p), p.buttons, i, st);
    assert ButtonChange(i, st) !in GcAxisEvents(s, p, GcAxes);
  }

  /** The hat is reported exactly when a d-pad bit changed, with the held directions. */
  lemma GcHatEventIff(s: GcState, p: PadStatus, masks: seq<bv32>, d: DPad, v: bv8)
    ensures HatMotion(0, v) in GcEvents(s, p, masks, d)
            <==> Hits(GcChanged(s, p), DPadBits(d)) && v == HatValue(d, p.buttons)
  {
    ButtonEventsOnlyButtons(masks, |masks|, GcChanged(s, p), p.buttons);
    assert HatMotion(0, v) !in GcAxisEvents(s, p, GcAxes);
  }

  /** Axis a is reported exactly when its reading differs from the stored value. */
  lemma GcAxisEventIff(s: GcState, p: PadStatus, masks: seq<bv32>, d: DPad, a: int, v: int)
    ensures AxisMotion(a, v) in GcEvents(s, p, masks, d)
            <==> 0 <= a < GcAxes && GcStored(s, a) != GcReading(p, a) && v == GcReported(p, a)
  {
    GcAxisEventsExact(s, p, GcAxes, a, v);
    ButtonEventsOnlyButtons(masks, |masks|, GcChanged(s, p), p.buttons);
  }

  /** A second poll with the same reading reports nothing, provided every
      reading fits the field it is stored in. */
  lemma GcPollSettles(s: GcState, p: PadStatus, masks: seq<bv32>, d: DPad)
    requires GcInRange(p)
    ensures GcEvents(GcNext(s, p), p, masks, d) == []
  {
    var t := GcNext(s, p);
    assert GcChanged(t, p) == 0;
    HatEventsQuiet(0, d, p.buttons);
    ButtonEventsQuiet(masks, |masks|, p.buttons);
    GcAxisEventsSettle(s, p, GcAxes);
  }

  lemma {:induction false} GcAxisEventsSettle(s: GcState, p: PadStatus, n: nat)
    requires GcInRange(p) && n <= GcAxes
    ensures GcAxisEvents(GcNext(s, p), p, n) == []
  {
    if n > 0 {
      GcAxisEventsSettle(s, p, n - 1);
    }
  }

  /** A reading outside the stored field's range is reported again on every poll. */
  lemma GcTriggerOutOfRangeRepeats(s: GcState, p: PadStatus, masks: seq<bv32>, d: DPad)
    requires p.triggerL == 256
    ensures AxisMotion(4, AxisValue(256)) in GcEvents(GcNext(s, p), p, masks, d)
  {
    GcAxisEventIff(GcNext(s, p), p, masks, d, 4, AxisValue(256));
  }

  // ---------------------------------------------------------------- Wii remote

  /** The per-remote state a Wii remote poll keeps (joystick_wpaddata). */
  datatype WiiState = WiiState(prevButtons: bv32, nunchukX: s8, nunchukY: s8,
                               classicLX: s8, classicLY: s8, classicRX: s8, classicRY: s8,
                               classicTriggerL: u8, classicTriggerR: u8)

  const WiiZero := WiiState(0, 0, 0, 0, 0, 0, 0, 0, 0)

  /** The expansion reading of WPAD_Expansion, by expansion type. */
  datatype Expansion =
    | NoExpansion
    | Nunchuk(x: int, y: int)
    | Classic(lx: int, ly: int, rx: int, ry: int, lShoulder: int, rShoulder: int)
    | OtherExpansion

  /** The SDK's bits for the 20 mapped buttons and the two d-pads. */
  datatype WiiLayout = WiiLayout(buttons: seq<bv32>, dpad: DPad, classicDpad: DPad)

  function WiiExpansionEvents(s: WiiState, e: Expansion): (r: seq<JoyEvent>)
    ensures forall ev :: ev in r ==> ev.AxisMotion?
    ensures e.Nunchuk? ==> forall ev :: ev in r ==> 0 <= ev.axis < 2
    ensures e.Classic? ==> forall ev :: ev in r ==> 2 <= ev.axis < 8
    ensures !e.Nunchuk? && !e.Classic? ==> r == []
  {
    match e
    case Nunchuk(x, y) =>
      AxisEvents(0, s.nunchukX, x, AxisValue(x)) + AxisEvents(1, s.nunchukY, y, AxisValue(y))
    case Classic(lx, ly, rx, ry, ls, rs) =>
      AxisEvents(2, s.classicLX, lx, AxisValue(lx)) + AxisEvents(3, s.classicLY, ly, AxisValue(ly))
      + AxisEvents(4, s.classicRX, rx, AxisValue(rx)) + AxisEvents(5, s.classicRY, ry, AxisValue(ry))
      + AxisEvents(6, s.classicTriggerR, rs, AxisValue(rs))
      + AxisEvents(7, s.classicTriggerL, ls, AxisValue(ls))
    case _ => []
  }

  function WiiChanged(s: WiiState, held: bv32): bv32 { held ^ s.prevButtons }

  /** Everything one Wii remote poll reports, in the order the source reports it. */
  function WiiEvents(s: WiiState, held: bv32, e: Expansion, l: WiiLayout): seq<JoyEvent>
  {
    HatEvents(0, l.dpad, WiiChanged(s, held), held)
    + HatEvents(1, l.classicDpad, WiiChanged(s, held), held)
    + ButtonEvents(l.buttons, |l.buttons|, WiiChanged(s, held), held)
    + WiiExpansionEvents(s, e)
  }

  /** The state stored after one Wii remote poll: nunchuk values change only
      with a nunchuk, classic values only with a classic controller. */
  function WiiNext(s: WiiState, held: bv32, e: Expansion): WiiState
  {
    match e
    case Nunchuk(x, y) => s.(prevButtons := held, nunchukX := ToS8(x), nunchukY := ToS8(y))
    case Classic(lx, ly, rx, ry, ls, rs) =>
      s.(prevButtons := held, classicLX := ToS8(lx), classicLY := ToS8(ly),
         classicRX := ToS8(rx), classicRY := ToS8(ry),
         classicTriggerR := ToU8(rs), classicTriggerL := ToU8(ls))
    case _ => s.(prevButtons := held)
  }

  predicate ExpansionInRange(e: Expansion)
  {
    match e
    case Nunchuk(x, y) => -128 <= x < 128 && -128 <= y < 128
    case Classic(lx, ly, rx, ry, ls, rs) =>
      -128 <= lx < 128 && -128 <= ly < 128 && -128 <= rx < 128 && -128 <= ry < 128
      && 0 <= ls < 256 && 0 <= rs < 256
    case _ => true
  }

  /** Button i is reported by a Wii remote poll exactly when its bit changed. */
  lemma WiiButtonEventIff(s: WiiState, held: bv32, e: Expansion, l: WiiLayout, i: int, st: int)
    ensures ButtonChange(i, st) in WiiEvents(s, held, e, l)
            <==> 0 <= i < |l.buttons| && Hits(WiiChanged(s, held), l.buttons[i])
                 && st == ButtonState(held, l.buttons[i])
  {
    var changed := WiiChanged(s, held);
    var hats := HatEvents(0, l.dpad, changed, held) + HatEvents(1, l.classicDpad, changed, held);
    var buttons := ButtonEvents(l.buttons, |l.buttons|, changed, held);
    var axes := WiiExpansionEvents(s, e);
    assert WiiEvents(s, held, e, l) == hats + buttons + axes;
    ButtonEventsExact(l.buttons, |l.buttons|, changed, held, i, st);
    assert ButtonChange(i, st) !in hats;
    assert ButtonChange(i, st) !in axes;
  }

  /** Hat 0 (the remote's own d-pad) is reported exactly when one of its bits
      changed, with the held directions. */
  lemma WiiRemoteHatIff(s: WiiState, held: bv32, e: Expansion, l: WiiLayout, v: bv8)
    ensures HatMotion(0, v) in WiiEvents(s, held, e, l)
            <==> Hits(WiiChanged(s, held), DPadBits(l.dpad)) && v == HatValue(l.dpad, held)
  {
    ButtonEventsOnlyButtons(l.buttons, |l.buttons|, WiiChanged(s, held), held);
    assert HatMotion(0, v) !in WiiExpansionEvents(s, e);
  }

  /** Whether an expansion reports axis a at all: 0-1 for a nunchuk, 2-7 for a
      classic controller. */
  predicate ExpansionAxis(e: Expansion, a: int)
  {
    (e.Nunchuk? && 0 <= a < 2) || (e.Classic? && 2 <= a < 8)
  }

  /** The stored value an expansion axis is compared with. */
  function WiiStored(s: WiiState, a: int): int
    requires 0 <= a < 8
  {
    match a
    case 0 => s.nunchukX case 1 => s.nunchukY case 2 => s.classicLX case 3 => s.classicLY
    case 4 => s.classicRX case 5 => s.classicRY case 6 => s.classicTriggerR case _ => s.classicTriggerL
  }

  /** The reading of expansion axis a: the right shoulder is axis 6, the left 7. */
  function ExpansionReading(e: Expansion, a: int): int
    requires ExpansionAxis(e, a)
  {
    match e
    case Nunchuk(x, y) => if a == 0 then x else y
    case Classic(lx, ly, rx, ry, ls, rs) =>
      match a
      case 2 => lx case 3 => ly case 4 => rx case 5 => ry case 6 => rs case _ => ls
  }

  /** Axis a is reported by a Wii remote poll exactly when the expansion has
      that axis and its reading differs from the stored value, with the
      reading's axis value. */
  lemma WiiAxisEventIff(s: WiiState, held: bv32, e: Expansion, l: WiiLayout, a: int, v: int)
    ensures AxisMotion(a, v) in WiiEvents(s, held, e, l)
            <==> ExpansionAxis(e, a) && WiiStored(s, a) != ExpansionReading(e, a)
                 && v == AxisValue(ExpansionReading(e, a))
  {
    var changed := WiiChanged(s, held);
    var hats := HatEvents(0, l.dpad, changed, held) + HatEvents(1, l.classicDpad, changed, held);
    var buttons := ButtonEvents(l.buttons, |l.buttons|, changed, held);
    assert WiiEvents(s, held, e, l) == hats + buttons + WiiExpansionEvents(s, e);
    ButtonEventsOnlyButtons(l.buttons, |l.buttons|, changed, held);
    assert AxisMotion(a, v) !in hats;
    assert AxisMotion(a, v) !in buttons;
    ExpansionAxisIff(s, e, a, v);
  }

  lemma ExpansionAxisIff(s: WiiState, e: Expansion, a: int, v: int)
    ensures AxisMotion(a, v) in WiiExpansionEvents(s, e)
            <==> ExpansionAxis(e, a) && WiiStored(s, a) != ExpansionReading(e, a)
                 && v == AxisValue(ExpansionReading(e, a))
  {
    match e
    case Nunchuk(x, y) =>
      assert WiiExpansionEvents(s, e)
             == AxisEvents(0, s.nunchukX, x, AxisValue(x)) + AxisEvents(1, s.nunchukY, y, AxisValue(y));
    case Classic(lx, ly, rx, ry, ls, rs) =>
      var sticks := AxisEvents(2, s.classicLX, lx, AxisValue(lx)) + AxisEvents(3, s.classicLY, ly, AxisValue(ly))
                    + AxisEvents(4, s.classicRX, rx, AxisValue(rx)) + AxisEvents(5, s.classicRY, ry, AxisValue(ry));
      var shoulders := AxisEvents(6, s.classicTriggerR, rs, AxisValue(rs))
                       + AxisEvents(7, s.classicTriggerL, ls, AxisValue(ls));
      assert WiiExpansionEvents(s, e) == sticks + shoulders;
      assert AxisMotion(a, v) in sticks
             <==> 2 <= a < 6 && WiiStored(s, a) != ExpansionReading(e, a) && v == AxisValue(ExpansionReading(e, a));
    case NoExpansion =>
    case OtherExpansion =>
  }

  /** Hat 1 (the classic controller's d-pad) is reported exactly when one of its bits changed. */
  lemma WiiClassicHatIff(s: WiiState, held: bv32, e: Expansion, l: WiiLayout, v: bv8)
    ensures HatMotion(1, v) in WiiEvents(s, held, e, l)
            <==> Hits(WiiChanged(s, held), DPadBits(l.classicDpad)) && v == HatValue(l.classicDpad, held)
  {
    ButtonEventsOnlyButtons(l.buttons, |l.buttons|, WiiChanged(s, held), held);
    assert HatMotion(1, v) !in WiiExpansionEvents(s, e);
  }

  /** A hat is not reported when no bit changed. */
  lemma HatEventsQuiet(hat: int, d: DPad, held: bv32)
    ensures HatEvents(hat, d, 0, held) == []
  {
    assert !Hits(0, DPadBits(d));
  }

  /** Polling the same expansion reading again reports no axis. */
  lemma WiiExpansionSettles(s: WiiState, held: bv32, e: Expansion)
    requires ExpansionInRange(e)
    ensures WiiExpansionEvents(WiiNext(s, held, e), e) == []
  {
  }

  /** A second poll with the same reading reports nothing. */
  lemma WiiPollSettles(s: WiiState, held: bv32, e: Expansion, l: WiiLayout)
    requires ExpansionInRange(e)
    ensures WiiEvents(WiiNext(s, held, e), held, e, l) == []
  {
    var t := WiiNext(s, held, e);
    assert WiiChanged(t, held) == 0;
    assert WiiEvents(t, held, e, l)
           == HatEvents(0, l.dpad, 0, held) + HatEvents(1, l.classicDpad, 0, held)
              + ButtonEvents(l.buttons, |l.buttons|, 0, held) + WiiExpansionEvents(t, e);
    HatEventsQuiet(0, l.dpad, held);
    HatEventsQuiet(1, l.classicDpad, held);
    ButtonEventsQuiet(l.buttons, |l.buttons|, held);
    WiiExpansionSettles(s, held, e);
  }
}
