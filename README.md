# sdl-wii: joystick polling, keyboard and pointer events, video modes and the tiling flip

This project is a Dafny model of the Wii port of SDL 1.2, as found in two source
trees: the older `SDL/` tree and the later `trunk/SDL/` tree. It covers five
driver files:

- **The video driver of the older tree** (`wii_video.dfy`, module `WiiVideo`).
  `WII_VideoInit` derives the full and the half display mode. `WII_SetVideoMode`
  searches the descending mode list, replaces and zeroes the back buffer and
  fills in the surface. The hardware-surface stubs follow. `WII_FlipHWSurface`
  copies the linear 16-bit surface into a GX texture of 4x4-pixel tiles (four
  8-byte words per tile) and toggles `whichfb`.
- **The events file of the older tree** (`wii_events.dfy`, module `WiiEvents`).
  The key and mouse FIFO queues. `keyboard_callback`, which turns a USB HID
  boot-protocol keyboard report (a modifier byte and six key slots) into press
  and release events by comparing it with the previous report. `initkeymap`, from
  HID usage IDs to SDL keys. `PumpEvents`, which posts the Wii remote's infrared
  pointer, its A and B buttons, one dequeued key event and one USB mouse report.
- **The events file of the later tree** (`trunk_events.dfy`, module
  `TrunkEvents`). `WII_InitOSKeymap` (232 entries) and its `PumpEvents`, which
  translates the dequeued key's usage through the table and looks at the remote
  only while its pointer is valid.
- **The joystick driver of the older tree** (`gc_joystick.dfy`, module
  `GcJoystick`): four GameCube pads.
- **The joystick driver of the later tree** (`trunk_joystick.dfy`, module
  `TrunkJoystick`): four Wii remotes (indices 0 .. 3), then four GameCube pads
  (4 .. 7), with the per-device state held in a tagged union.

Shared parts:

- `sdl.dfy` (module `Sdl`) holds the SDL 1.2 constants the drivers use, the
  fixed-width integer conversions and a model of `sprintf("%d")`.
- `pointer.dfy` (module `Pointer`) holds what both `PumpEvents` post for the
  remote, a key and a mouse report.
- `pad_poll.dfy` (module `PadPoll`) holds what one controller poll reports.

How the model treats the hardware and SDL:

- Everything read from the hardware is a parameter: `WPAD_Data`,
  `WPAD_ButtonsHeld`, `WPAD_Expansion`, the `PAD_*` readings,
  `SDL_GetMouseState`, and whether an allocation succeeds.
- Everything handed to SDL is a returned sequence, in call order:
  `SDL_PrivateJoystick*`, `SDL_PrivateMouse*` and `SDL_PrivateKeyboard`.
- The console SDK's button bit constants are not part of this model, so the
  button masks and d-pad bits are parameters too.
- Code that updates state step by step is a class whose methods are proved
  against specification functions. This covers the queues, the keyboard
  statics, the `last*` pointer state, the keymap arrays, `hwdata` and the video
  device. The properties the drivers promise are then proved about those
  functions as lemmas.

## Model

| member | source | states |
|---|---|---|
| Sdl.ToS8 | SDL/src/joystick/wii/SDL_sysjoystick.c:43-46 | storing into an `s8` field keeps the value modulo 256 in -128..127, and a value already in range unchanged |
| Sdl.DecimalRoundTrip | SDL/src/joystick/wii/SDL_sysjoystick.c:68 | the text `%d` writes reads back as the same integer |
| Pointer.StateOf | SDL/src/video/wii/SDL_wiievents.c:558-567 | PRESSED exactly when the button is held, RELEASED exactly when it is not |
| Pointer.KeyPosts | SDL/src/video/wii/SDL_wiievents.c:580-594 | exactly one key is posted when the queue returned an event that is a press or a release, none otherwise; it carries the event's symbol, modifiers 0, and PRESSED exactly for a press, RELEASED exactly for a release |
| Pointer.UsbButtonIff | trunk/SDL/src/video/wii/SDL_wiievents.c:114-149 | a mouse report posts a press of button 1 or 3 exactly when it sets bit 0x1 or 0x2 while SDL has the button up, and a release exactly when it clears the bit while SDL has it down, always at (0, 0); nothing else is posted for a button |
| Pointer.MouseMotionFirst | SDL/src/video/wii/SDL_wiievents.c:596-632 | a mouse report first posts relative motion carrying its button bits, and after that only button events |
| PadPoll.HatOf | SDL/src/joystick/wii/SDL_sysjoystick.c:129-136 | the composed hat has each direction bit exactly when that direction is held, and is CENTERED exactly when none is |
| PadPoll.HatValue | trunk/SDL/src/joystick/wii/SDL_sysjoystick.c:190-209 | each hat bit is set exactly when the d-pad bit for that direction is held |
| PadPoll.HatCenteredIff | trunk/SDL/src/joystick/wii/SDL_sysjoystick.c:296-304 | the hat is CENTERED exactly when no bit of the d-pad is held |
| PadPoll.PostHat | trunk/SDL/src/joystick/wii/SDL_sysjoystick.c:190-198 | the hat block reports exactly HatEvents: one report, only when a d-pad bit changed |
| PadPoll.ComposeHat | SDL/src/joystick/wii/SDL_sysjoystick.c:130-134 | OR-ing the held directions into CENTERED gives HatOf |
| PadPoll.ButtonEventsExact | trunk/SDL/src/joystick/wii/SDL_sysjoystick.c:211-214 | button i is reported with state s exactly when i is a mapped button whose mask bit changed and s is PRESSED exactly when the bit is held |
| PadPoll.ButtonEventsOnlyButtons | SDL/src/joystick/wii/SDL_sysjoystick.c:139-143 | the button loop reports only button changes of mapped buttons |
| PadPoll.ButtonEventsQuiet | SDL/src/joystick/wii/SDL_sysjoystick.c:139-143 | with no changed bit the loop reports nothing |
| PadPoll.EmitButtons | SDL/src/joystick/wii/SDL_sysjoystick.c:139-143 | the loop over the masks reports exactly ButtonEvents, in button order |
| PadPoll.AxisValue | trunk/SDL/src/joystick/wii/SDL_sysjoystick.c:314 | the corrected axis value: the reading times 256 whenever the reading fits a signed byte (where it equals the source's `v << 8`), 32767 above that and -32768 below it, so always a Sint16 |
| PadPoll.AxisValueAgrees | SDL/src/joystick/wii/SDL_sysjoystick.c:150 | on signed-byte readings `v << 8` passed as Sint16 and the corrected value agree |
| PadPoll.AxisValueAsWrittenWraps | SDL/src/joystick/wii/SDL_sysjoystick.c:157-185 | as written, readings 128 and 255 and a negated -128 reach SDL with the wrong sign |
| PadPoll.AxisValueMonotone | trunk/SDL/src/joystick/wii/SDL_sysjoystick.c:341-350 | with the corrected value a larger reading never reports a smaller value |
| PadPoll.SignedAxis | SDL/src/joystick/wii/SDL_sysjoystick.c:147-152 | one axis block reports exactly AxisEvents (only on a change) and leaves the field holding the reading as an `s8` |
| PadPoll.UnsignedAxis | SDL/src/joystick/wii/SDL_sysjoystick.c:175-180 | the same for a `u8` trigger field |
| PadPoll.GcAxisEventsInOrder | SDL/src/joystick/wii/SDL_sysjoystick.c:147-187 | the six axis reports come one after the other, stick Y negated |
| PadPoll.GcAxisEventsIgnoreButtons | SDL/src/joystick/wii/SDL_sysjoystick.c:145-147 | storing the new button mask before the axis blocks does not change what they report |
| PadPoll.GcAxisEventsExact | trunk/SDL/src/joystick/wii/SDL_sysjoystick.c:311-351 | axis a is reported with value v exactly when its reading differs from the stored value and v is the corrected AxisValue of its reading (stick Y negated) |
| PadPoll.GcButtonEventIff | SDL/src/joystick/wii/SDL_sysjoystick.c:127-143 | a GameCube poll reports button i with state s exactly when its mask bit changed and s says whether it is held |
| PadPoll.GcHatEventIff | SDL/src/joystick/wii/SDL_sysjoystick.c:129-136 | a GameCube poll reports the hat exactly when a d-pad bit changed, with the OR of the held directions |
| PadPoll.GcAxisEventIff | SDL/src/joystick/wii/SDL_sysjoystick.c:147-187 | a GameCube poll reports axis a exactly when its reading differs from the stored one, with the corrected AxisValue of the reading and stick Y negated |
| PadPoll.GcPollSettles | SDL/src/joystick/wii/SDL_sysjoystick.c:145-187 | after a poll stores the state, a second poll with the same in-range reading reports nothing |
| PadPoll.GcAxisEventsSettle | trunk/SDL/src/joystick/wii/SDL_sysjoystick.c:311-351 | the stored axis values make the same in-range reading report no axis |
| PadPoll.GcTriggerOutOfRangeRepeats | SDL/src/joystick/wii/SDL_sysjoystick.c:175-180 | a reading that does not fit the stored field is reported again on every poll |
| PadPoll.WiiExpansionEvents | trunk/SDL/src/joystick/wii/SDL_sysjoystick.c:217-270 | expansion reports are axis reports only: axes 0-1 with a nunchuk, 2-7 with a classic controller, none otherwise |
| PadPoll.WiiButtonEventIff | trunk/SDL/src/joystick/wii/SDL_sysjoystick.c:211-214 | a remote poll reports button i exactly when its mask bit changed, with PRESSED exactly when held |
| PadPoll.WiiRemoteHatIff | trunk/SDL/src/joystick/wii/SDL_sysjoystick.c:190-198 | hat 0 is reported exactly when a bit of the remote's d-pad changed, with the held directions |
| PadPoll.ExpansionAxisIff | trunk/SDL/src/joystick/wii/SDL_sysjoystick.c:217-270 | the expansion blocks report axis a exactly when the expansion has that axis (0-1 nunchuk, 2-7 classic, right shoulder on 6) and its reading differs from the stored one, with the corrected AxisValue of the reading |
| PadPoll.WiiAxisEventIff | trunk/SDL/src/joystick/wii/SDL_sysjoystick.c:186-270 | a whole remote poll reports axis a exactly when ExpansionAxisIff says it does, with the same value |
| PadPoll.WiiClassicHatIff | trunk/SDL/src/joystick/wii/SDL_sysjoystick.c:200-209 | hat 1 is reported exactly when a classic d-pad bit changed, with the held directions |
| PadPoll.HatEventsQuiet | trunk/SDL/src/joystick/wii/SDL_sysjoystick.c:188 | a hat is not reported when no bit changed |
| PadPoll.WiiExpansionSettles | trunk/SDL/src/joystick/wii/SDL_sysjoystick.c:217-270 | after the axes are stored, the same in-range expansion reading reports no axis |
| PadPoll.WiiPollSettles | trunk/SDL/src/joystick/wii/SDL_sysjoystick.c:186-270 | a second remote poll with the same reading reports nothing |
| GcJoystick.JoystickInit | SDL/src/joystick/wii/SDL_sysjoystick.c:58-61 | four joysticks |
| GcJoystick.NameText | SDL/src/joystick/wii/SDL_sysjoystick.c:66-70 | the name starts with "port " |
| GcJoystick.NameReadsBack | SDL/src/joystick/wii/SDL_sysjoystick.c:68 | the number after "port " reads back as the index |
| GcJoystick.NameFits | SDL/src/joystick/wii/SDL_sysjoystick.c:63-68 | the name and its NUL fit the 7-byte buffer exactly for indices 0 .. 9 |
| GcJoystick.NameBuffer.Name | SDL/src/joystick/wii/SDL_sysjoystick.c:66-70 | the buffer is overwritten with the name and returned |
| GcJoystick.PadData.PollAxes | SDL/src/joystick/wii/SDL_sysjoystick.c:147-187 | the six axis blocks report GcAxisEvents and store every reading; the stored buttons are untouched |
| GcJoystick.Joystick.Open | SDL/src/joystick/wii/SDL_sysjoystick.c:77-93 | a failed allocation returns -1 and sets nothing; otherwise the data is zeroed and the counts are 8 buttons, 6 axes, 1 hat |
| GcJoystick.Update | SDL/src/joystick/wii/SDL_sysjoystick.c:103-189 | nothing for a NULL joystick; otherwise the poll reports exactly GcEvents and stores GcNext (prev_buttons is the held mask) |
| WiiEvents.Queue.Add | SDL/src/video/wii/SDL_wiievents.c:126-145 | the event is appended at the back and 1 returned |
| WiiEvents.Queue.Get | SDL/src/video/wii/SDL_wiievents.c:148-166 | an empty queue returns 0 and leaves the destination alone; otherwise 1 and the oldest event, which is removed |
| WiiEvents.QueueOrder | SDL/src/video/wii/SDL_wiievents.c:126-166 | any sequence of events added to an empty queue comes out, one get per event, in the order it went in, leaving the queue empty |
| WiiEvents.PressesExact | SDL/src/video/wii/SDL_wiievents.c:182-200 | a press is queued exactly for a non-zero key of the new report absent from the previous one, carrying keymap[key] and the modifier byte |
| WiiEvents.ReleasesExact | SDL/src/video/wii/SDL_wiievents.c:202-219 | a release is queued exactly for a non-zero key of the previous report absent from the new one |
| WiiEvents.PressesAtMostOnePerSlot | SDL/src/video/wii/SDL_wiievents.c:182-200 | at most one press per slot, and none when every new key was already down |
| WiiEvents.ModifierEventsExact | SDL/src/video/wii/SDL_wiievents.c:221-244 | modifier bit i yields a press exactly when newly set and a release exactly when newly cleared, each with modifier_keycodes[i] as its key (scancode) and modifiers 0 |
| WiiEvents.ModifierReachesSdl | SDL/src/video/wii/SDL_wiievents.c:126-244 | a changed modifier bit i queues an event that PumpEvents posts to SDL as a press or release of modifier_keycodes[i] with no modifiers |
| WiiEvents.ModifierEventsQuiet | SDL/src/video/wii/SDL_wiievents.c:221-222 | an unchanged modifier byte yields no modifier events |
| WiiEvents.PressesSettle | SDL/src/video/wii/SDL_wiievents.c:182-200 | a report equal to the previous one queues no press |
| WiiEvents.ReleasesSettle | SDL/src/video/wii/SDL_wiievents.c:202-219 | a report equal to the previous one queues no release |
| WiiEvents.ReportSettles | SDL/src/video/wii/SDL_wiievents.c:180-248 | the same report twice queues nothing the second time |
| WiiEvents.OldKeymapRuns | SDL/src/video/wii/SDL_wiievents.c:265-327 | letters at usages 4..29, digits 1..9 at 30..38, F1..F12 at 58..69, keypad 1..9 at 89..97, nothing above 98 |
| WiiEvents.LetterLoopOverrunHarmless | SDL/src/video/wii/SDL_wiievents.c:268-275 | the letter loop's extra write to usage 30 is overwritten by key 1 |
| WiiEvents.OldKeymapDoubledWrites | SDL/src/video/wii/SDL_wiievents.c:284-285 | usage 47 ends as RIGHTBRACKET and 48 unknown, 87 as KP_ENTER and 88 unknown; no usage gives LEFTBRACKET or KP_PLUS |
| WiiEvents.FillUnknown | SDL/src/video/wii/SDL_wiievents.c:265-266 | every entry UNKNOWN |
| WiiEvents.FillLetters | SDL/src/video/wii/SDL_wiievents.c:268-270 | usages 4..30 get a..z and one past z, nothing else changes |
| WiiEvents.FillRun | SDL/src/video/wii/SDL_wiievents.c:273-275 | a run of consecutive keys at consecutive usages, nothing else changes |
| WiiEvents.SetPunctuation | SDL/src/video/wii/SDL_wiievents.c:276-293 | the assignments to usages 39..57 in source order, later writes winning |
| WiiEvents.SetNavigation | SDL/src/video/wii/SDL_wiievents.c:301-320 | the assignments to usages 72..87 in source order, later writes winning |
| WiiEvents.Find | SDL/src/video/wii/SDL_wiievents.c:185-192 | the inner search finds a key exactly when some slot holds it |
| WiiEvents.Keyboard.InitKeymap | SDL/src/video/wii/SDL_wiievents.c:260-328 | the 512 entries end as OldKeymapEntry |
| WiiEvents.Keyboard.HandleReport | SDL/src/video/wii/SDL_wiievents.c:180-248 | the queue gains exactly ReportEvents (presses, releases, modifier changes) and the previous report becomes the new one |
| WiiEvents.Keyboard.Callback | SDL/src/video/wii/SDL_wiievents.c:171-258 | nothing happens on a closed device or a sentinel message; otherwise the message is reset to the sentinel, a report queues its events, any other message none, and the request is re-armed exactly when not stopping |
| WiiEvents.EmitPresses | SDL/src/video/wii/SDL_wiievents.c:182-200 | the presses loop queues exactly Presses |
| WiiEvents.EmitReleases | SDL/src/video/wii/SDL_wiievents.c:202-219 | the releases loop queues exactly Releases |
| WiiEvents.EmitModifiers | SDL/src/video/wii/SDL_wiievents.c:223-243 | the modifier loop queues exactly ModifierEvents |
| WiiEvents.RemoteMotionIff | SDL/src/video/wii/SDL_wiievents.c:545-556 | the pointer is moved exactly when the infrared reading is valid and differs from the last position, to that position |
| WiiEvents.RemoteButtonIff | SDL/src/video/wii/SDL_wiievents.c:558-578 | button 1 (A) and button 3 (B) are posted exactly when their state differs from the last one posted, at the pointer when valid and at the mouse position otherwise |
| WiiEvents.RemoteSettles | SDL/src/video/wii/SDL_wiievents.c:545-578 | a second poll with the remote unchanged posts nothing for it |
| WiiEvents.EventPump.PumpEvents | SDL/src/video/wii/SDL_wiievents.c:535-633 | one key and one mouse event are dequeued; the posts are the remote's, the key's, then the mouse report's, and the tracked state advances |
| WiiEvents.EventPump.PostRemote | SDL/src/video/wii/SDL_wiievents.c:545-578 | the remote part posts RemotePosts and stores RemoteNext |
| WiiEvents.PostMouse | SDL/src/video/wii/SDL_wiievents.c:596-632 | the mouse part posts exactly MousePosts |
| TrunkEvents.TrunkKeymapRuns | trunk/SDL/src/video/wii/SDL_wiievents.c:166-226 | letters, digits 1..9 at 30..38, F1..F12 at 58..69 and keypad 1..9 at 89..97; 155..223 unknown |
| TrunkEvents.TrunkKeymapBrackets | trunk/SDL/src/video/wii/SDL_wiievents.c:185-222 | usages 47/48 give LEFTBRACKET/RIGHTBRACKET and 87/88 give KP_PLUS/KP_ENTER |
| TrunkEvents.TrunkModifierUsages | trunk/SDL/src/video/wii/SDL_wiievents.c:259-266 | usages 224..231 give LCTRL, LSHIFT, LALT, LMETA, RCTRL, RSHIFT, RALT, RMETA, the order of the modifier bits |
| TrunkEvents.KeymapsAgree | trunk/SDL/src/video/wii/SDL_wiievents.c:162-267 | both trees' tables agree on every usage except the few the later one adds or fixes |
| TrunkEvents.KeypadEqualsTwice | trunk/SDL/src/video/wii/SDL_wiievents.c:233 | exactly usages 103 and 134 give KP_EQUALS, so the table is not one-to-one |
| TrunkEvents.SetPunctuation | trunk/SDL/src/video/wii/SDL_wiievents.c:177-195 | the assignments to usages 39..57 |
| TrunkEvents.SetNavigation | trunk/SDL/src/video/wii/SDL_wiievents.c:201-222 | the assignments to usages 70..88 |
| TrunkEvents.SetExtras | trunk/SDL/src/video/wii/SDL_wiievents.c:228-266 | the assignments to usages 98..231 |
| TrunkEvents.TrunkPump.InitOSKeymap | trunk/SDL/src/video/wii/SDL_wiievents.c:162-267 | the 232 entries start UNKNOWN and end as TrunkKeymapEntry |
| TrunkEvents.TrunkAgreesWhileValid | trunk/SDL/src/video/wii/SDL_wiievents.c:67-101 | with a valid pointer both trees post and remember the same |
| TrunkEvents.TrunkIgnoresButtonsWithoutPointer | trunk/SDL/src/video/wii/SDL_wiievents.c:67 | without a valid pointer the later tree posts nothing and remembers nothing, where the older one posts A's edge |
| TrunkEvents.TrunkRemoteSettles | trunk/SDL/src/video/wii/SDL_wiievents.c:67-101 | a second poll with the remote unchanged posts nothing |
| TrunkEvents.TrunkPump.PumpEvents | trunk/SDL/src/video/wii/SDL_wiievents.c:54-150 | the posts are the remote's (only with a valid pointer), the key translated through keymap[keycode], then the mouse report's; the tracked state advances |
| TrunkEvents.TrunkPump.PostRemote | trunk/SDL/src/video/wii/SDL_wiievents.c:67-101 | the remote part posts TrunkRemotePosts and stores TrunkRemoteNext |
| TrunkJoystick.Init | trunk/SDL/src/joystick/wii/SDL_sysjoystick.c:95-99 | success, with eight joysticks: four remotes and four pads |
| TrunkJoystick.KindOf | trunk/SDL/src/joystick/wii/SDL_sysjoystick.c:128-148 | type 0 exactly for indices below 4, type 1 exactly for 4 .. 7 |
| TrunkJoystick.PortOf | trunk/SDL/src/joystick/wii/SDL_sysjoystick.c:132-143 | the recorded channel is 0 .. 3 and index = channel + 4 * type |
| TrunkJoystick.SlotsOneToOne | trunk/SDL/src/joystick/wii/SDL_sysjoystick.c:128-148 | two indices record the same type and channel exactly when they are equal |
| TrunkJoystick.SlotsCover | trunk/SDL/src/joystick/wii/SDL_sysjoystick.c:128-148 | every remote and every pad port has an index |
| TrunkJoystick.NameReadsBack | trunk/SDL/src/joystick/wii/SDL_sysjoystick.c:104-111 | "Wiimote n" below 4, "Gamecube n" for 4 .. 7 with n reading back as the index; any other index leaves the buffer as it was |
| TrunkJoystick.NameFits | trunk/SDL/src/joystick/wii/SDL_sysjoystick.c:102-110 | the name and its NUL fit the 11-byte buffer exactly when the index is not below -9 |
| TrunkJoystick.NameBuffer.Name | trunk/SDL/src/joystick/wii/SDL_sysjoystick.c:104-111 | the buffer holds NameText and is returned |
| TrunkJoystick.PollExpansion | trunk/SDL/src/joystick/wii/SDL_sysjoystick.c:216-270 | the expansion blocks report WiiExpansionEvents and store WiiNext's axis values |
| TrunkJoystick.PollClassic | trunk/SDL/src/joystick/wii/SDL_sysjoystick.c:232-270 | the six classic blocks, right shoulder on axis 6 before left on 7 |
| TrunkJoystick.PollWii | trunk/SDL/src/joystick/wii/SDL_sysjoystick.c:153-271 | one remote poll reports exactly WiiEvents and stores WiiNext |
| TrunkJoystick.ExpansionIgnoresButtons | trunk/SDL/src/joystick/wii/SDL_sysjoystick.c:215-217 | storing the held mask first does not change the expansion blocks |
| TrunkJoystick.PollGcAxes | trunk/SDL/src/joystick/wii/SDL_sysjoystick.c:311-351 | the six pad axis blocks report GcAxisEvents and store the readings |
| TrunkJoystick.PollGc | trunk/SDL/src/joystick/wii/SDL_sysjoystick.c:273-352 | one pad poll reports exactly GcEvents and stores GcNext |
| TrunkJoystick.PadReadingAsWrittenMissesPort | trunk/SDL/src/joystick/wii/SDL_sysjoystick.c:291-311 | as written, joystick 4's stick is read from channel 4, not port 0 |
| TrunkJoystick.PadReadingFromOpenedPort | trunk/SDL/src/joystick/wii/SDL_sysjoystick.c:143-311 | the corrected reading comes wholly from the port Open recorded |
| TrunkJoystick.HwData.HandleWii | trunk/SDL/src/joystick/wii/SDL_sysjoystick.c:153-271 | the remote view of the union is polled and replaced by WiiNext |
| TrunkJoystick.HwData.HandleGc | trunk/SDL/src/joystick/wii/SDL_sysjoystick.c:273-352 | the pad view of the union is polled and replaced by GcNext |
| TrunkJoystick.Joystick.Open | trunk/SDL/src/joystick/wii/SDL_sysjoystick.c:118-151 | -1 on a failed allocation; otherwise zeroed data, type 0 / index / 20, 8, 2 below 4, type 1 / index-4 / 8, 6, 1 for 4 .. 7, counts untouched beyond |
| TrunkJoystick.Update | trunk/SDL/src/joystick/wii/SDL_sysjoystick.c:360-377 | nothing for NULL; type 0 polls the remote, type 1 the pad, any other type nothing; type and channel never change |
| WiiVideo.Half | SDL/src/video/wii/SDL_wiivideo.c:245-246 | the half mode is half the full mode in both directions, rounded down |
| WiiVideo.FirstFit | SDL/src/video/wii/SDL_wiivideo.c:276-291 | the first entry whose width and height hold the request, or none exactly when no entry does |
| WiiVideo.FindMode | SDL/src/video/wii/SDL_wiivideo.c:276-283 | the search loop returns FirstFit |
| WiiVideo.ModeSearchIff | SDL/src/video/wii/SDL_wiivideo.c:276-291 | on the list {full, half} the search picks the full mode exactly when it holds the request and fails otherwise |
| WiiVideo.ModeScanAsWritten | SDL/src/video/wii/SDL_wiivideo.c:276-283 | the scan as written: the first of mode_640 and the rectangles lying after it in memory that holds the request |
| WiiVideo.ModeScanAsWrittenStrays | SDL/src/video/wii/SDL_wiivideo.c:282 | an 800x600 request on a 640x480 display is accepted by the scan as written and refused by the list walk |
| WiiVideo.Pitch16 | SDL/src/video/wii/SDL_wiivideo.c:327 | the pitch stored is the 16-bit truncation, equal to w * bytes per pixel while that fits |
| WiiVideo.TexelSource | SDL/src/video/wii/SDL_wiivideo.c:380-406 | byte k of word r of tile c in block row b of the texture is byte 8c + k of the r-th row that block row reads |
| WiiVideo.Texel16 | SDL/src/video/wii/SDL_wiivideo.c:365-406 | for a 16-bit surface with height a multiple of 4, that byte is byte 8c + k of surface row 4b + r, and every read is inside the surface |
| WiiVideo.RowAdvance | SDL/src/video/wii/SDL_wiivideo.c:370-405 | with pitch = 2 * width each source pointer moves exactly 4 * pitch bytes per block row |
| WiiVideo.ReadsFit16 | SDL/src/video/wii/SDL_wiivideo.c:380-406 | a 16-bit surface whose height is a multiple of 4 is read only inside its height * pitch bytes |
| WiiVideo.ImageSize | SDL/src/video/wii/SDL_wiivideo.c:380-388 | the flip writes 32 bytes per tile, Cols tiles per block row |
| WiiVideo.FlipInBuffer | SDL/src/video/wii/SDL_wiivideo.c:380-406 | every word the flip reads lies in the surface when ReadsFit holds |
| WiiVideo.CopyTile | SDL/src/video/wii/SDL_wiivideo.c:384-387 | the four words of one tile are stored one after the other |
| WiiVideo.CopyBlockRow | SDL/src/video/wii/SDL_wiivideo.c:382-388 | one block row of tiles is stored and the pointers advance 8 bytes per tile |
| WiiVideo.TileSurface | SDL/src/video/wii/SDL_wiivideo.c:365-406 | the texture begins with FlipImage of the surface and the rest is untouched |
| WiiVideo.VideoDevice.VideoInit | SDL/src/video/wii/SDL_wiivideo.c:240-259 | the full mode is the framebuffer size, the half mode half of it, the hidden data zero or NULL, 8 bits per pixel |
| WiiVideo.VideoDevice.ListModes | SDL/src/video/wii/SDL_wiivideo.c:261-264 | the list {full, half} |
| WiiVideo.VideoDevice.SetVideoMode | SDL/src/video/wii/SDL_wiivideo.c:266-339 | too large: NULL and nothing changes; a failed allocation or format: NULL with the buffer gone; success: a zeroed buffer of w*h*bpp/8 bytes, the surface and hidden geometry set, pitch = w * bpp/8 |
| WiiVideo.VideoDevice.AllocHWSurface | SDL/src/video/wii/SDL_wiivideo.c:342-345 | always -1 |
| WiiVideo.VideoDevice.LockHWSurface | SDL/src/video/wii/SDL_wiivideo.c:352-355 | always 0 |
| WiiVideo.VideoDevice.Flip | SDL/src/video/wii/SDL_wiivideo.c:362-422 | whichfb toggles between 0 and 1, that framebuffer is shown, the texture holds the tiled surface, and 1 is returned |

## Left out

- The console SDK, the USB/IOS layer and GX/VI are not part of this model:
  - `wii_find_mouse`, `wii_mouse_init`, `wii_keyboard_init`, `mousecallback` and the asynchronous report request, whose re-arm `Callback` only reports as `rearm`;
  - `draw_init`, `draw_square`, `WII_InitVideoSystem`, `WII_VideoQuit` and the cache flushes;
  - `SDL_SYS_JoystickClose` and `SDL_SYS_JoystickQuit`, which only free the data.
- `WII_PumpEvents`' `usleep` loop, which repeats while anything was posted. The model covers one `PumpEvents` pass.
- The later tree's `TerminateRequested` check is left out. It calls code outside these files.
- The counts SDL's `SDL_Private*` calls return, summed into `posted`, are not modelled. Each post is a list element, as if every call posted.
- WiiEvents.EventPump.PumpEvents: `down` is one parameter, standing for the button mask that `SDL_GetMouseState` returns when the mouse report's buttons are tested. The source reads that mask after the report's own relative-motion post (SDL_wiievents.c:598), so it reflects the remote's A/B posts and the motion post of the same pass. The model does not compute it from those posts.
- TrunkEvents.TrunkPump.PumpEvents: requires the dequeued usage to be below 232. The source indexes `keymap[232]` with any 8-bit usage; a larger one reads past the table, which C leaves undefined.
- WiiVideo.VideoDevice.Flip: requires that every read lies inside the back buffer (ReadsFit). ReadsFit16 shows this holds for a 16-bit surface whose height is a multiple of 4. For other geometries the source reads past the buffer, which is not modelled.
- Readings outside the field they are stored in: the pad and expansion readings are integers, and the settle lemmas assume they fit (GcInRange, ExpansionInRange). The SDK's types for these readings are not part of this model.
- TrunkJoystick.Update: the remote's readings (`held`, `e`) are the ones for the joystick's own index. Which WPAD channel the SDK reads them from is not modelled.
- PadPoll.AxisValue: saturates at the Sint16 bounds, where the source's `axis << 8` passed to a Sint16 wraps for readings of 128 and above (a trigger at 200 reaches SDL as -14336, stick Y at -128 as -32768). AxisValueAsWritten is the value as written; AxisValueAgrees shows the two agree on signed-byte readings.
- PadPoll.GcAxisEventsExact: reports the corrected AxisValue, which saturates at the Sint16 bounds; the source passes `axis << 8` to a Sint16 and wraps for readings of 128 and above (a trigger at 200 reaches SDL as -14336, not 32767).
- PadPoll.GcAxisEventIff: reports the corrected AxisValue, which saturates at the Sint16 bounds; the source passes `axis << 8` to a Sint16 and wraps for readings of 128 and above (a trigger at 200 reaches SDL as -14336, not 32767).
- PadPoll.WiiExpansionEvents: reports the corrected AxisValue, which saturates at the Sint16 bounds; the source passes `axis << 8` to a Sint16 and wraps for readings of 128 and above (a trigger at 200 reaches SDL as -14336, not 32767).
- PadPoll.ExpansionAxisIff: reports the corrected AxisValue, which saturates at the Sint16 bounds; the source passes `axis << 8` to a Sint16 and wraps for readings of 128 and above (a trigger at 200 reaches SDL as -14336, not 32767).
- PadPoll.WiiAxisEventIff: reports the corrected AxisValue, which saturates at the Sint16 bounds; the source passes `axis << 8` to a Sint16 and wraps for readings of 128 and above (a trigger at 200 reaches SDL as -14336, not 32767).
- GcJoystick.PadData.PollAxes: reports the corrected AxisValue, which saturates at the Sint16 bounds; the source passes `axis << 8` to a Sint16 and wraps for readings of 128 and above (a trigger at 200 reaches SDL as -14336, not 32767).
- GcJoystick.Update: reports the corrected AxisValue, which saturates at the Sint16 bounds; the source passes `axis << 8` to a Sint16 and wraps for readings of 128 and above (a trigger at 200 reaches SDL as -14336, not 32767).
- TrunkJoystick.PollExpansion: reports the corrected AxisValue, which saturates at the Sint16 bounds; the source passes `axis << 8` to a Sint16 and wraps for readings of 128 and above (a trigger at 200 reaches SDL as -14336, not 32767).
- TrunkJoystick.PollClassic: reports the corrected AxisValue, which saturates at the Sint16 bounds; the source passes `axis << 8` to a Sint16 and wraps for readings of 128 and above (a trigger at 200 reaches SDL as -14336, not 32767).
- TrunkJoystick.PollWii: reports the corrected AxisValue, which saturates at the Sint16 bounds; the source passes `axis << 8` to a Sint16 and wraps for readings of 128 and above (a trigger at 200 reaches SDL as -14336, not 32767).
- TrunkJoystick.PollGcAxes: reports the corrected AxisValue, which saturates at the Sint16 bounds; the source passes `axis << 8` to a Sint16 and wraps for readings of 128 and above (a trigger at 200 reaches SDL as -14336, not 32767).
- TrunkJoystick.PollGc: reports the corrected AxisValue, which saturates at the Sint16 bounds; the source passes `axis << 8` to a Sint16 and wraps for readings of 128 and above (a trigger at 200 reaches SDL as -14336, not 32767).
- TrunkJoystick.HwData.HandleWii: reports the corrected AxisValue, which saturates at the Sint16 bounds; the source passes `axis << 8` to a Sint16 and wraps for readings of 128 and above (a trigger at 200 reaches SDL as -14336, not 32767).
- TrunkJoystick.HwData.HandleGc: reports the corrected AxisValue, which saturates at the Sint16 bounds; the source passes `axis << 8` to a Sint16 and wraps for readings of 128 and above (a trigger at 200 reaches SDL as -14336, not 32767).
- TrunkJoystick.Update: the pad branch polls PadReading, which takes every value from port `index - 4`. The source reads the buttons from that port but the sticks and triggers from channel `index` (trunk/SDL/src/joystick/wii/SDL_sysjoystick.c:311-346); PadReadingAsWritten is that reading. The axis values are also the corrected AxisValue.
- WiiVideo.VideoDevice.SetVideoMode: searches {full, half} with FindMode and returns NULL with the too-large error when neither holds the request. The source's `++mode` (SDL_wiivideo.c:282) never makes the pointer NULL, so as written that NULL return is not reached and a stray rectangle can be accepted instead; ModeScanAsWritten is that scan.
- WiiVideo.ModeScanAsWritten: the memory after mode_640 is a finite sequence `following`. When nothing in it holds the request the model answers None, where the source would read on past it.
- Floating point, interrupts and the threads of the other Wii back ends are out of scope.

## Findings

| source | as written | input that shows it | evidently intended | confidence | as-written member | corrected member |
|---|---|---|---|---|---|---|
| SDL/src/video/wii/SDL_wiivideo.c:282 | `++mode` steps the `SDL_Rect*` past `mode_640` in memory instead of moving to the next list entry, and the pointer never becomes NULL | 640x480 display, 800x600 request: the rectangle stored after `mode_640` is accepted | walk `modes_descending` entry by entry and fail with NULL when no entry holds the request | not executed | WiiVideo.ModeScanAsWritten | WiiVideo.FindMode |
| SDL/src/video/wii/SDL_wiievents.c:284-320 | usage 47 is assigned LEFTBRACKET and then RIGHTBRACKET, and 87 KP_PLUS and then KP_ENTER; usages 48 and 88 are never assigned | HID usage 0x2F (`[`) maps to `]` and usage 0x30 (`]`) to UNKNOWN | 47 LEFTBRACKET, 48 RIGHTBRACKET, 87 KP_PLUS, 88 KP_ENTER, as the later tree assigns them | not executed | WiiEvents.OldKeymapDoubledWrites | TrunkEvents.TrunkKeymapBrackets |
| trunk/SDL/src/joystick/wii/SDL_sysjoystick.c:291-346 | the GameCube handler reads buttons from port `index - 4` but sticks and triggers from channel `index` (4 .. 7) | joystick 4 with port 0's stick pushed right and channel 4 centred reports the stick as centred | read every value from port `index - 4`, the channel Open records | not executed | TrunkJoystick.PadReadingAsWritten | TrunkJoystick.PadReading |
| SDL/src/joystick/wii/SDL_sysjoystick.c:150-185 | `axis << 8` is passed to SDL's Sint16 axis value, wrapping for readings of 128 and above | trigger reading 255 reaches SDL as -256; stick Y at -128 (negated to 128) as -32768 | `v << 8` saturated at the Sint16 bounds: it never decreases as the reading grows and agrees with `v << 8` wherever that fits | not executed | PadPoll.AxisValueAsWritten | PadPoll.AxisValue |

The keymap row has a second side. The older tree's keyboard model
(WiiEvents.Keyboard.InitKeymap) keeps that file's table as written. The later
tree's table, proved by TrunkEvents.TrunkKeymapBrackets and built by
TrunkEvents.TrunkPump.InitOSKeymap, is the corrected one; KeymapsAgree shows
that the two tables agree everywhere else. The other three corrections are used
throughout the model:

- FindMode by SetVideoMode;
- PadReading by TrunkJoystick.Update;
- AxisValue by every axis report.

"## Left out" names each member that therefore states the corrected
behaviour rather than the source's.

The trunk GameCube handler has the same Sint16 wrap at
trunk/SDL/src/joystick/wii/SDL_sysjoystick.c:311-351.
