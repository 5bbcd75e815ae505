/** The joystick driver of the newer tree: joysticks 0 .. 3 are the Wii
    remotes (twenty buttons, eight axes from a nunchuk or classic controller,
    two hats), joysticks 4 .. 7 the GameCube pads on ports 0 .. 3 (eight
    buttons, six axes, one hat). */
module TrunkJoystick {
  import opened Sdl
  import opened PadPoll

  const MAX_GC_JOYSTICKS: int := 4
  const MAX_WII_JOYSTICKS: int := 4
  const MAX_JOYSTICKS: int := MAX_GC_JOYSTICKS + MAX_WII_JOYSTICKS

  const MAX_GC_AXES: int := 6
  const MAX_GC_BUTTONS: int := 8
  const MAX_GC_HATS: int := 1

  const MAX_WII_AXES: int := 8
  const MAX_WII_BUTTONS: int := 20
  const MAX_WII_HATS: int := 2

  // The driver's switches, all fixed at start-up.
  const WPAD_ENABLED: bool := true
  const PAD_ENABLED: bool := true
  const NUM_WII_JOYSTICKS: int := 4
  const NUM_GC_JOYSTICKS: int := 4

  /** SDL_SYS_JoystickInit: success, and the number of joysticks SDL is told about. */
  method Init() returns (r: int, count: int)
    ensures r == 0 && count == MAX_JOYSTICKS
    ensures count == MAX_WII_JOYSTICKS + MAX_GC_JOYSTICKS
  {
    count := 8;
    r := 0;
  }

  // ---------------------------------------------------------------- which device an index is

  /** The `type` an opened joystick records: 0 for a Wii remote, 1 for a GameCube pad. */
  function KindOf(index: int): (kind: int)
    requires 0 <= index < MAX_JOYSTICKS
    ensures kind == 0 <==> index < MAX_WII_JOYSTICKS
    ensures kind == 1 <==> index >= MAX_WII_JOYSTICKS
  {
    if index < 4 then 0 else 1
  }

  /** The channel an opened joystick records: the remote's number, or the pad's port. */
  function PortOf(index: int): (port: int)
    requires 0 <= index < MAX_JOYSTICKS
    ensures 0 <= port < 4
    ensures index == port + MAX_WII_JOYSTICKS * KindOf(index)
  {
    if index < 4 then index else index - 4
  }

  /** The eight joystick indices name eight different devices, and every
      device (remote or pad, channel 0 .. 3) has an index. */
  lemma SlotsOneToOne(i: int, j: int)
    requires 0 <= i < MAX_JOYSTICKS && 0 <= j < MAX_JOYSTICKS
    ensures KindOf(i) == KindOf(j) && PortOf(i) == PortOf(j) <==> i == j
  {
  }

  lemma SlotsCover(kind: int, port: int)
    requires kind == 0 || kind == 1
    requires 0 <= port < 4
    ensures exists i :: 0 <= i < MAX_JOYSTICKS && KindOf(i) == kind && PortOf(i) == port
  {
    var i := port + 4 * kind;
    assert KindOf(i) == kind && PortOf(i) == port;
  }

  // ---------------------------------------------------------------- names

  /** The text the name buffer holds after SDL_SYS_JoystickName(index) when it
      held `prev`: a remote's or a pad's name, or `prev` untouched for any
      other index. */
  function NameText(index: int, prev: string): string
  {
    if index < 4 && WPAD_ENABLED && index < NUM_WII_JOYSTICKS then "Wiimote " + Decimal(index)
    else if index < 8 && PAD_ENABLED && index < NUM_GC_JOYSTICKS + 4 && index > 3 then "Gamecube " + Decimal(index)
    else prev
  }

  /** sizeof(joy_name): "Gamecube 0" and its terminating NUL. */
  const NAME_BUFFER: int := 11

  /** The name says which kind of device the index is and reads back as the index. */
  lemma NameReadsBack(index: int, prev: string)
    ensures index < 4 ==> NameText(index, prev)[..8] == "Wiimote "
                          && ParseDecimal(NameText(index, prev)[8..]) == index
    ensures 4 <= index < 8 ==> NameText(index, prev)[..9] == "Gamecube "
                               && ParseDecimal(NameText(index, prev)[9..]) == index
    ensures index >= 8 ==> NameText(index, prev) == prev
  {
    if index < 4 {
      assert NameText(index, prev)[8..] == Decimal(index);
    } else if index < 8 {
      assert NameText(index, prev)[9..] == Decimal(index);
    }
    DecimalRoundTrip(index);
  }

  /** With a buffer that held a name that fit, the new name and its NUL fit
      exactly when the index is not below -9: every joystick's name fits
      ("Gamecube 4" .. "Gamecube 7" use all eleven bytes). */
  lemma NameFits(index: int, prev: string)
    requires |prev| + 1 <= NAME_BUFFER
    ensures |NameText(index, prev)| + 1 <= NAME_BUFFER <==> index >= -9
  {
    if index <= -10 {
      assert |Digits(-index)| >= 2 by {
        assert Digits(-index) == Digits(-index / 10) + [((-index % 10) + '0' as int) as char];
      }
    }
  }

  /** The static joy_name buffer. */
  class NameBuffer {
    var text: string

    constructor ()
      ensures text == "Gamecube 0"
    {
      text := "Gamecube 0";
    }

    /** SDL_SYS_JoystickName: rewrites the buffer for a known index and returns it. */
    method Name(index: int) returns (name: string)
      modifies this
      ensures name == text == NameText(index, old(text))
    {
      if index < 4 && WPAD_ENABLED && index < NUM_WII_JOYSTICKS {
        text := "Wiimote " + Decimal(index);
      } else if index < 8 && PAD_ENABLED && index < NUM_GC_JOYSTICKS + 4 && index > 3 {
        text := "Gamecube " + Decimal(index);
      }
      name := text;
    }
  }

  // ---------------------------------------------------------------- polls on values

  /** The axis blocks of the Wii remote handler for the expansion attached:
      nunchuk axes 0 and 1, or classic axes 2 .. 7 (right shoulder before left). */
  method PollExpansion(s: WiiState, e: Expansion) returns (events: seq<JoyEvent>, t: WiiState)
    ensures events == WiiExpansionEvents(s, e)
    ensures t == WiiNext(s, s.prevButtons, e)
  {
    events, t := [], s;
    if e.Nunchuk? {
      var e0, e1;
      e0, t := NunchukX(t, e.x);
      e1, t := NunchukY(t, e.y);
      events := e0 + e1;
    }
    if e.Classic? {
      events, t := PollClassic(s, e);
    }
  }

  method NunchukX(s: WiiState, x: int) returns (events: seq<JoyEvent>, t: WiiState)
    ensures events == AxisEvents(0, s.nunchukX, x, AxisValue(x)) && t == s.(nunchukX := ToS8(x))
  {
    var v;
    events, v := SignedAxis(0, s.nunchukX, x, AxisValue(x));
    t := s.(nunchukX := v);
  }

  method NunchukY(s: WiiState, y: int) returns (events: seq<JoyEvent>, t: WiiState)
    ensures events == AxisEvents(1, s.nunchukY, y, AxisValue(y)) && t == s.(nunchukY := ToS8(y))
  {
    var v;
    events, v := SignedAxis(1, s.nunchukY, y, AxisValue(y));
    t := s.(nunchukY := v);
  }

  /** The six classic controller axis blocks. */
  method PollClassic(s: WiiState, e: Expansion) returns (events: seq<JoyEvent>, t: WiiState)
    requires e.Classic?
    ensures events == WiiExpansionEvents(s, e)
    ensures t == WiiNext(s, s.prevButtons, e)
  {
    var e2, e3, e4, e5, e6, e7;
    var lx, ly, rx, ry, tr, tl;
    e2, lx := SignedAxis(2, s.classicLX, e.lx, AxisValue(e.lx));
    e3, ly := SignedAxis(3, s.classicLY, e.ly, AxisValue(e.ly));
    e4, rx := SignedAxis(4, s.classicRX, e.rx, AxisValue(e.rx));
    e5, ry := SignedAxis(5, s.classicRY, e.ry, AxisValue(e.ry));
    e6, tr := UnsignedAxis(6, s.classicTriggerR, e.rShoulder, AxisValue(e.rShoulder));
    e7, tl := UnsignedAxis(7, s.classicTriggerL, e.lShoulder, AxisValue(e.lShoulder));
    events := e2 + e3 + e4 + e5 + e6 + e7;
    t := s.(classicLX := lx, classicLY := ly, classicRX := rx, classicRY := ry,
            classicTriggerR := tr, classicTriggerL := tl);
  }

  /** _HandleWiiJoystickUpdate on the stored state: hat 0 (remote d-pad), hat 1
      (classic d-pad), the twenty buttons, then the expansion's axes. */
  method PollWii(s: WiiState, held: bv32, e: Expansion, l: WiiLayout) returns (events: seq<JoyEvent>, t: WiiState)
    requires |l.buttons| == MAX_WII_BUTTONS
    ensures events == WiiEvents(s, held, e, l)
    ensures t == WiiNext(s, held, e)
  {
    var changed := held ^ s.prevButtons;
    var hat0 := PostHat(0, l.dpad, changed, held);
    var hat1 := PostHat(1, l.classicDpad, changed, held);
    var pressed := EmitButtons(l.buttons, changed, held);
    var axes;
    axes, t := PollExpansion(s.(prevButtons := held), e);
    ExpansionIgnoresButtons(s, held, e);
    events := hat0 + hat1 + pressed + axes;
    assert events == WiiEvents(s, held, e, l);
  }

  /** The expansion blocks neither read nor write the stored buttons. */
  lemma ExpansionIgnoresButtons(s: WiiState, held: bv32, e: Expansion)
    ensures WiiExpansionEvents(s.(prevButtons := held), e) == WiiExpansionEvents(s, e)
    ensures WiiNext(s.(prevButtons := held), held, e) == WiiNext(s, held, e)
  {
  }

  /** The six GameCube axis blocks on the stored state. */
  method PollGcAxes(s: GcState, p: PadStatus) returns (events: seq<JoyEvent>, t: GcState)
    ensures events == GcAxisEvents(s, p, GcAxes)
    ensures t == GcNext(s, p).(prevButtons := s.prevButtons)
  {
    var e0, e1, e2, e3, e4, e5;
    var sx, sy, cx, cy, tl, tr;
    e0, sx := SignedAxis(0, s.stickX, p.stickX, AxisValue(p.stickX));
    e1, sy := SignedAxis(1, s.stickY, p.stickY, AxisValue(-p.stickY));
    e2, cx := SignedAxis(2, s.substickX, p.substickX, AxisValue(p.substickX));
    e3, cy := SignedAxis(3, s.substickY, p.substickY, AxisValue(p.substickY));
    e4, tl := UnsignedAxis(4, s.triggerL, p.triggerL, AxisValue(p.triggerL));
    e5, tr := UnsignedAxis(5, s.triggerR, p.triggerR, AxisValue(p.triggerR));
    events := e0 + e1 + e2 + e3 + e4 + e5;
    t := GcState(s.prevButtons, sx, sy, cx, cy, tl, tr);
    GcAxisEventsInOrder(s, p);
  }

  /** _HandleGCJoystickUpdate on the stored state, for one reading of the pad. */
  method PollGc(s: GcState, p: PadStatus, masks: seq<bv32>, d: DPad) returns (events: seq<JoyEvent>, t: GcState)
    requires |masks| == MAX_GC_BUTTONS
    ensures events == GcEvents(s, p, masks, d)
    ensures t == GcNext(s, p)
  {
    var changed := p.buttons ^ s.prevButtons;
    var hat := PostHat(0, d, changed, p.buttons);
    var pressed := EmitButtons(masks, changed, p.buttons);
    var axes;
    axes, t := PollGcAxes(s.(prevButtons := p.buttons), p);
    GcAxisEventsIgnoreButtons(s, p.buttons, p);
    events := hat + pressed + axes;
  }

  // ---------------------------------------------------------------- which pad channel is read

  /** What the GameCube handler reads as written: the buttons of port
      `index - 4` but the sticks and triggers of channel `index`, which for
      joysticks 4 .. 7 is no GameCube port at all. `pads(c)` is what the PAD_*
      calls return for channel c. */
  function PadReadingAsWritten(pads: int -> PadStatus, index: int): PadStatus
  {
    var b := pads(index - 4);
    var a := pads(index);
    PadStatus(b.buttons, a.stickX, a.stickY, a.substickX, a.substickY, a.triggerL, a.triggerR)
  }

  /** The reading the handler evidently intends: everything from port `index - 4`. */
  function PadReading(pads: int -> PadStatus, index: int): PadStatus
  {
    pads(index - 4)
  }

  /** Joystick 4 (port 0): a pad whose stick is pushed right while channel 4
      reads centred is reported as centred. */
  lemma PadReadingAsWrittenMissesPort()
    ensures var pads := (c: int) => if c == 0 then PadStatus(0, 100, 0, 0, 0, 0, 0) else PadStatus(0, 0, 0, 0, 0, 0, 0);
            PadReadingAsWritten(pads, 4).stickX == 0 && pads(0).stickX == 100
  {
  }

  /** The corrected reading comes entirely from the channel Open recorded for a pad. */
  lemma PadReadingFromOpenedPort(pads: int -> PadStatus, index: int)
    requires MAX_WII_JOYSTICKS <= index < MAX_JOYSTICKS
    ensures PadReading(pads, index) == pads(PortOf(index))
    ensures 0 <= PortOf(index) < 4
  {
  }

  // ---------------------------------------------------------------- the hardware data

  /** The union of joystick_hwdata: the remote's or the pad's stored state. */
  datatype Stored = Wiimote(w: WiiState) | Gamecube(g: GcState)

  /** joystick_hwdata: the channel, the type and what the last poll stored. */
  class HwData {
    var index: int
    var kind: int
    var data: Stored

    /** The allocation followed by SDL_memset(..., 0, ...). */
    constructor ()
      ensures index == 0 && kind == 0 && data == Wiimote(WiiZero)
    {
      index, kind, data := 0, 0, Wiimote(WiiZero);
    }

    /** The union is read through the view that `type` names. */
    predicate Valid()
      reads this
    {
      (kind == 0 ==> data.Wiimote?) && (kind == 1 ==> data.Gamecube?)
    }

    method HandleWii(held: bv32, e: Expansion, l: WiiLayout) returns (events: seq<JoyEvent>)
      requires data.Wiimote? && |l.buttons| == MAX_WII_BUTTONS
      modifies this`data
      ensures events == WiiEvents(old(data.w), held, e, l)
      ensures data == Wiimote(WiiNext(old(data.w), held, e))
    {
      var t;
      events, t := PollWii(data.w, held, e, l);
      data := Wiimote(t);
    }

    method HandleGc(p: PadStatus, masks: seq<bv32>, d: DPad) returns (events: seq<JoyEvent>)
      requires data.Gamecube? && |masks| == MAX_GC_BUTTONS
      modifies this`data
      ensures events == GcEvents(old(data.g), p, masks, d)
      ensures data == Gamecube(GcNext(old(data.g), p))
    {
      var t;
      events, t := PollGc(data.g, p, masks, d);
      data := Gamecube(t);
    }
  }

  /** SDL_Joystick as far as the driver fills it. */
  class Joystick {
    const index: int
    var nbuttons: int
    var naxes: int
    var nhats: int
    var hwdata: HwData?

    constructor (i: int)
      ensures index == i && hwdata == null && nbuttons == 0 && naxes == 0 && nhats == 0
    {
      index := i;
      nbuttons, naxes, nhats := 0, 0, 0;
      hwdata := null;
    }

    /** SDL_SYS_JoystickOpen; `allocOk` is whether SDL_malloc succeeds. An
        index past the eight joysticks still succeeds, with zeroed data and
        the counts left alone. */
    method Open(allocOk: bool) returns (r: int)
      modifies this
      ensures !allocOk ==> r == -1 && hwdata == null
                           && nbuttons == old(nbuttons) && naxes == old(naxes) && nhats == old(nhats)
      ensures allocOk ==> r == 0 && hwdata != null && fresh(hwdata) && hwdata.Valid()
      ensures allocOk && 0 <= index < MAX_JOYSTICKS ==>
                hwdata.kind == KindOf(index) && hwdata.index == PortOf(index)
      ensures allocOk && index < 4 ==>
                hwdata.index == index && hwdata.kind == 0 && hwdata.data == Wiimote(WiiZero)
                && nbuttons == MAX_WII_BUTTONS && naxes == MAX_WII_AXES && nhats == MAX_WII_HATS
      ensures allocOk && 4 <= index < 8 ==>
                hwdata.index == index - 4 && hwdata.kind == 1 && hwdata.data == Gamecube(GcZero)
                && nbuttons == MAX_GC_BUTTONS && naxes == MAX_GC_AXES && nhats == MAX_GC_HATS
      ensures allocOk && index >= 8 ==>
                hwdata.index == 0 && hwdata.kind == 0 && hwdata.data == Wiimote(WiiZero)
                && nbuttons == old(nbuttons) && naxes == old(naxes) && nhats == old(nhats)
    {
      if !allocOk {
        hwdata := null;
        return -1;
      }
      var hw := new HwData();
      if index < 4 && PAD_ENABLED {
        if index < NUM_WII_JOYSTICKS {
          hw.index, hw.kind := index, 0;
          nbuttons, naxes, nhats := MAX_WII_BUTTONS, MAX_WII_AXES, MAX_WII_HATS;
        }
      } else if index < 8 && PAD_ENABLED {
        if index < NUM_GC_JOYSTICKS + 4 {
          // type 1 reads the zeroed union through its GameCube view
          hw.index, hw.kind, hw.data := index - 4, 1, Gamecube(GcZero);
          nbuttons, naxes, nhats := MAX_GC_BUTTONS, MAX_GC_AXES, MAX_GC_HATS;
        }
      }
      hwdata := hw;
      r := 0;
    }
  }

  /** SDL_SYS_JoystickUpdate. `held` and `e` are what WPAD_ButtonsHeld and
      WPAD_Expansion return for the joystick's index, `l` the remote's button
      and d-pad bits; `pads` gives what the PAD_* calls return per channel,
      `masks` and `d` the pad's button and d-pad bits. A GameCube pad is read
      from the port Open recorded. */
  method Update(joystick: Joystick?, held: bv32, e: Expansion, l: WiiLayout,
                pads: int -> PadStatus, masks: seq<bv32>, d: DPad) returns (events: seq<JoyEvent>)
    requires joystick != null ==> joystick.hwdata != null && joystick.hwdata.Valid()
    requires |l.buttons| == MAX_WII_BUTTONS && |masks| == MAX_GC_BUTTONS
    modifies if joystick != null then {joystick.hwdata} else {}
    ensures joystick == null ==> events == []
    ensures joystick != null ==>
              joystick.hwdata.index == old(joystick.hwdata.index)
              && joystick.hwdata.kind == old(joystick.hwdata.kind) && joystick.hwdata.Valid()
    ensures joystick != null && old(joystick.hwdata.kind) == 0 ==>
              events == WiiEvents(old(joystick.hwdata.data.w), held, e, l)
              && joystick.hwdata.data == Wiimote(WiiNext(old(joystick.hwdata.data.w), held, e))
    ensures joystick != null && old(joystick.hwdata.kind) == 1 ==>
              events == GcEvents(old(joystick.hwdata.data.g), PadReading(pads, joystick.index), masks, d)
              && joystick.hwdata.data == Gamecube(GcNext(old(joystick.hwdata.data.g), PadReading(pads, joystick.index)))
    ensures joystick != null && old(joystick.hwdata.kind) != 0 && old(joystick.hwdata.kind) != 1 ==>
              events == [] && joystick.hwdata.data == old(joystick.hwdata.data)
  {
    if joystick == null {
      return [];
    }
    var hw := joystick.hwdata;
    events := [];
    if hw.kind == 0 {
      if WPAD_ENABLED {
        events := hw.HandleWii(held, e, l);
      }
    } else if hw.kind == 1 {
      if PAD_ENABLED {
        events := hw.HandleGc(PadReading(pads, joystick.index), masks, d);
      }
    }
  }
}
