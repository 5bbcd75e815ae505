/** The joystick driver of the older tree: four GameCube pads, eight mapped
    buttons, six axes and one hat each. */
module GcJoystick {
  import opened Sdl
  import opened PadPoll

  const MAX_JOYSTICKS: int := 4
  const MAX_AXES: int := 6
  const MAX_BUTTONS: int := 8
  const MAX_HATS: int := 1

  /** SDL_SYS_JoystickInit: the number of joysticks. */
  function JoystickInit(): (n: int)
    ensures n == MAX_JOYSTICKS
  {
    4
  }

  /** The text `sprintf(joy_name, "port %d", index)` writes. */
  function NameText(index: int): (s: string)
    ensures |s| >= 6 && s[..5] == "port "
  {
    "port " + Decimal(index)
  }

  /** sizeof(joy_name): "port 0" and its terminating NUL. */
  const NAME_BUFFER: int := 7

  /** The name reads back as the index it was made from. */
  lemma NameReadsBack(index: int)
    ensures ParseDecimal(NameText(index)[5..]) == index
  {
    assert NameText(index)[5..] == Decimal(index);
    DecimalRoundTrip(index);
  }

  /** The name and its NUL fit the static buffer exactly for the indices 0 .. 9
      (the four pads among them); any other index writes past its end. */
  lemma NameFits(index: int)
    ensures |NameText(index)| + 1 <= NAME_BUFFER <==> 0 <= index < 10
  {
    if index >= 10 {
      assert |Digits(index)| >= 2 by {
        assert Digits(index) == Digits(index / 10) + [((index % 10) + '0' as int) as char];
      }
    }
  }

  /** The static joy_name buffer. */
  class NameBuffer {
    var text: string

    constructor ()
      ensures text == "port 0"
    {
      text := "port 0";
    }

    /** SDL_SYS_JoystickName: overwrites the buffer and returns it. */
    method Name(index: int) returns (name: string)
      modifies this
      ensures name == text == NameText(index)
    {
      text := "port " + Decimal(index);
      name := text;
    }
  }

  /** joystick_hwdata: what the previous poll stored. */
  class PadData {
    var prevButtons: Mask16
    var stickX: s8
    var stickY: s8
    var substickX: s8
    var substickY: s8
    var triggerL: u8
    var triggerR: u8

    function State(): GcState
      reads this
    {
      GcState(prevButtons, stickX, stickY, substickX, substickY, triggerL, triggerR)
    }

    /** The allocation followed by SDL_memset(..., 0, ...). */
    constructor ()
      ensures State() == GcZero
    {
      prevButtons, stickX, stickY, substickX, substickY, triggerL, triggerR := 0, 0, 0, 0, 0, 0, 0;
    }

    /** The six axis blocks of SDL_SYS_JoystickUpdate, in source order: each
        reading that differs from the stored value is reported, as AxisValue
        (`axis << 8` saturated at the Sint16 bounds rather than wrapped), and
        stored (main stick Y is reported negated). */
    method PollAxes(p: PadStatus) returns (events: seq<JoyEvent>)
      modifies this
      ensures events == GcAxisEvents(old(State()), p, GcAxes)
      ensures State() == GcNext(old(State()), p).(prevButtons := old(prevButtons))
    {
      ghost var s := State();
      var e0, e1, e2, e3, e4, e5;
      e0, stickX := SignedAxis(0, stickX, p.stickX, AxisValue(p.stickX));
      e1, stickY := SignedAxis(1, stickY, p.stickY, AxisValue(-p.stickY));
      e2, substickX := SignedAxis(2, substickX, p.substickX, AxisValue(p.substickX));
      e3, substickY := SignedAxis(3, substickY, p.substickY, AxisValue(p.substickY));
      e4, triggerL := UnsignedAxis(4, triggerL, p.triggerL, AxisValue(p.triggerL));
      e5, triggerR := UnsignedAxis(5, triggerR, p.triggerR, AxisValue(p.triggerR));
      events := e0 + e1 + e2 + e3 + e4 + e5;
      GcAxisEventsInOrder(s, p);
    }
  }

  /** SDL_Joystick as far as the driver fills it. */
  class Joystick {
    const index: int
    var nbuttons: int
    var naxes: int
    var nhats: int
    var hwdata: PadData?

    constructor (i: int)
      ensures index == i && hwdata == null && nbuttons == 0 && naxes == 0 && nhats == 0
    {
      index := i;
      nbuttons, naxes, nhats := 0, 0, 0;
      hwdata := null;
    }

    /** SDL_SYS_JoystickOpen; `allocOk` is whether SDL_malloc succeeds. */
    method Open(allocOk: bool) returns (r: int)
      modifies this
      ensures !allocOk ==> r == -1 && hwdata == null
                           && nbuttons == old(nbuttons) && naxes == old(naxes) && nhats == old(nhats)
      ensures allocOk ==> r == 0 && hwdata != null && fresh(hwdata) && hwdata.State() == GcZero
                          && nbuttons == MAX_BUTTONS && naxes == MAX_AXES && nhats == MAX_HATS
    {
      if !allocOk {
        hwdata := null;
        return -1;
      }
      hwdata := new PadData();
      nbuttons := MAX_BUTTONS;
      naxes := MAX_AXES;
      nhats := MAX_HATS;
      r := 0;
    }
  }

  /** SDL_SYS_JoystickUpdate. `p` is what PAD_ButtonsHeld, PAD_StickX, ...,
      PAD_TriggerR return for the joystick's index; `masks` are the eight
      sdl_buttons masks and `d` the d-pad bits. */
  method Update(joystick: Joystick?, p: PadStatus, masks: seq<bv32>, d: DPad) returns (events: seq<JoyEvent>)
    requires joystick != null ==> joystick.hwdata != null
    requires |masks| == MAX_BUTTONS
    modifies if joystick != null then {joystick.hwdata} else {}
    ensures joystick == null ==> events == []
    ensures joystick != null ==>
              events == GcEvents(old(joystick.hwdata.State()), p, masks, d)
              && joystick.hwdata.State() == GcNext(old(joystick.hwdata.State()), p)
  {
    if joystick == null {
      return [];
    }
    var hw := joystick.hwdata;
    ghost var before := hw.State();
    var buttons := p.buttons;
    var changed := buttons ^ hw.prevButtons;
    events := PostHat(0, d, changed, buttons);
    var pressed := EmitButtons(masks, changed, buttons);
    events := events + pressed;
    hw.prevButtons := buttons;
    assert hw.State() == before.(prevButtons := buttons);
    GcAxisEventsIgnoreButtons(before, buttons, p);
    var moved := hw.PollAxes(p);
    events := events + moved;
  }
}
