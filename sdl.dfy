/** Values of the portable SDL 1.2 interface that the Wii back end uses:
    button states, hat bits, surface flags and key symbols, with the same
    numbers as SDL 1.2's public headers. Also the decimal rendering that
    `sprintf("%d")` gives joystick names. */
module Sdl {

  datatype Option<T> = None | Some(value: T)

  // Integer widths of the C fields that the model stores into.
  type s8 = x: int | -128 <= x < 128
  type u8 = x: int | 0 <= x < 256
  type s16 = x: int | -32768 <= x < 32768

  /** C conversion of an int to a signed 8-bit field (two's complement wrap). */
  function ToS8(x: int): (r: s8)
    ensures (r - x) % 256 == 0
    ensures -128 <= x < 128 ==> r == x
  {
    var m := x % 256;
    if m < 128 then m else m - 256
  }

  /** C conversion of an int to an unsigned 8-bit field. */
  function ToU8(x: int): (r: u8)
    ensures (r - x) % 256 == 0
    ensures 0 <= x < 256 ==> r == x
  {
    x % 256
  }

  /** C conversion of an int to a signed 16-bit parameter (two's complement wrap). */
  function ToS16(x: int): (r: s16)
    ensures (r - x) % 65536 == 0
    ensures -32768 <= x < 32768 ==> r == x
  {
    var m := x % 65536;
    if m < 32768 then m else m - 65536
  }

  // Button and key states (SDL_events.h).
  const RELEASED: int := 0
  const PRESSED: int := 1

  // Mouse buttons (SDL_mouse.h).
  const BUTTON_LEFT: int := 1
  const BUTTON_RIGHT: int := 3

  // Joystick hat positions (SDL_joystick.h).
  const HAT_CENTERED: bv8 := 0x00
  const HAT_UP: bv8 := 0x01
  const HAT_RIGHT: bv8 := 0x02
  const HAT_DOWN: bv8 := 0x04
  const HAT_LEFT: bv8 := 0x08

  // Surface flags (SDL_video.h).
  const DOUBLEBUF: bv32 := 0x4000_0000
  const FULLSCREEN: bv32 := 0x8000_0000

  // Key symbols (SDL_keysym.h).
  const K_UNKNOWN: int := 0
  const K_BACKSPACE: int := 8
  const K_TAB: int := 9
  const K_RETURN: int := 13
  const K_PAUSE: int := 19
  const K_ESCAPE: int := 27
  const K_SPACE: int := 32
  const K_QUOTE: int := 39
  const K_COMMA: int := 44
  const K_MINUS: int := 45
  const K_PERIOD: int := 46
  const K_SLASH: int := 47
  const K_0: int := 48
  const K_1: int := 49
  const K_SEMICOLON: int := 59
  const K_EQUALS: int := 61
  const K_LEFTBRACKET: int := 91
  const K_BACKSLASH: int := 92
  const K_RIGHTBRACKET: int := 93
  const K_BACKQUOTE: int := 96
  const K_a: int := 97
  const K_z: int := 122
  const K_DELETE: int := 127
  const K_KP0: int := 256
  const K_KP1: int := 257
  const K_KP_PERIOD: int := 266
  const K_KP_DIVIDE: int := 267
  const K_KP_MULTIPLY: int := 268
  const K_KP_MINUS: int := 269
  const K_KP_PLUS: int := 270
  const K_KP_ENTER: int := 271
  const K_KP_EQUALS: int := 272
  const K_UP: int := 273
  const K_DOWN: int := 274
  const K_RIGHT: int := 275
  const K_LEFT: int := 276
  const K_INSERT: int := 277
  const K_HOME: int := 278
  const K_END: int := 279
  const K_PAGEUP: int := 280
  const K_PAGEDOWN: int := 281
  const K_F1: int := 282
  const K_F12: int := 293
  const K_F13: int := 294
  const K_F14: int := 295
  const K_F15: int := 296
  const K_NUMLOCK: int := 300
  const K_CAPSLOCK: int := 301
  const K_SCROLLOCK: int := 302
  const K_RSHIFT: int := 303
  const K_LSHIFT: int := 304
  const K_RCTRL: int := 305
  const K_LCTRL: int := 306
  const K_RALT: int := 307
  const K_LALT: int := 308
  const K_RMETA: int := 309
  const K_LMETA: int := 310
  const K_HELP: int := 315
  const K_PRINT: int := 316
  const K_SYSREQ: int := 317
  const K_MENU: int := 319
  const K_POWER: int := 320
  const K_UNDO: int := 322

  /** What the video back end hands to SDL's event layer
      (SDL_PrivateMouseMotion, SDL_PrivateMouseButton, SDL_PrivateKeyboard). */
  datatype Posted =
    | MouseMotion(buttonState: int, relative: bool, x: int, y: int)
    | MouseButton(state: int, button: int, x: int, y: int)
    | Keyboard(state: int, sym: int, mod: int)

  predicate IsDigit(ch: char) { '0' <= ch <= '9' }

  /** The decimal digits of n, most significant first, without leading zeros. */
  function Digits(n: nat): (s: string)
    ensures |s| >= 1 && forall i :: 0 <= i < |s| ==> IsDigit(s[i])
    ensures n >= 10 ==> s[0] != '0'
  {
    if n < 10 then [(n + '0' as int) as char]
    else Digits(n / 10) + [((n % 10) + '0' as int) as char]
  }

  /** What `sprintf("%d", n)` writes. */
  function Decimal(n: int): (s: string)
    ensures |s| >= 1
    ensures (s[0] == '-') <==> n < 0
    ensures forall i :: (if n < 0 then 1 else 0) <= i < |s| ==> IsDigit(s[i])
  {
    if n < 0 then "-" + Digits(-n) else Digits(n)
  }

  /** The value of a string of decimal digits (reference reading of `%d`). */
  function DigitsValue(s: string): int
    requires forall i :: 0 <= i < |s| ==> IsDigit(s[i])
  {
    if s == [] then 0
    else DigitsValue(s[..|s| - 1]) * 10 + (s[|s| - 1] as int - '0' as int)
  }

  function ParseDecimal(s: string): int
    requires |s| >= 1
    requires forall i :: (if s[0] == '-' then 1 else 0) <= i < |s| ==> IsDigit(s[i])
  {
    if s[0] == '-' then -DigitsValue(s[1..]) else DigitsValue(s)
  }

  lemma {:induction false} DigitsRoundTrip(n: nat)
    ensures DigitsValue(Digits(n)) == n
  {
    if n >= 10 {
      var s := Digits(n);
      assert s[..|s| - 1] == Digits(n / 10);
      DigitsRoundTrip(n / 10);
    }
  }

  /** Reading back what `%d` printed gives the number printed. */
  lemma DecimalRoundTrip(n: int)
    ensures ParseDecimal(Decimal(n)) == n
  {
    if n < 0 {
      assert Decimal(n)[1..] == Digits(-n);
      DigitsRoundTrip(-n);
    } else {
      DigitsRoundTrip(n);
    }
  }
}
