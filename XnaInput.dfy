/**
 * The host framework's keyboard and mouse vocabulary: `Keys`, `ButtonState`,
 * `MouseState` and `GameTime` (Microsoft.Xna.Framework.Input / Microsoft.Xna.Framework).
 *
 * `Keys` is a C# enum, that is an int underneath: the wrapper hashes a key by its
 * int value and casts it to the Windows Forms key type for character lookup. The
 * model keeps the int, so every int is a `Keys` value; the members the wrapper
 * names carry the framework's values, which are the Windows virtual-key codes.
 */
module Xna {

  newtype Keys = int {
    static const None: Keys := 0
    static const Back: Keys := 8
    static const Tab: Keys := 9
    static const Enter: Keys := 13
    static const Pause: Keys := 19
    static const CapsLock: Keys := 20
    static const Escape: Keys := 27
    static const Space: Keys := 32
    static const PageUp: Keys := 33
    static const PageDown: Keys := 34
    static const End: Keys := 35
    static const Home: Keys := 36
    static const Left: Keys := 37
    static const Up: Keys := 38
    static const Right: Keys := 39
    static const Down: Keys := 40
    static const Select: Keys := 41
    static const Print: Keys := 42
    static const Execute: Keys := 43
    static const PrintScreen: Keys := 44
    static const Insert: Keys := 45
    static const Delete: Keys := 46
    static const Help: Keys := 47
    static const D0: Keys := 48
    static const D1: Keys := 49
    static const D2: Keys := 50
    static const D3: Keys := 51
    static const D4: Keys := 52
    static const D5: Keys := 53
    static const D6: Keys := 54
    static const D7: Keys := 55
    static const D8: Keys := 56
    static const D9: Keys := 57
    static const A: Keys := 65
    static const B: Keys := 66
    static const C: Keys := 67
    static const D: Keys := 68
    static const E: Keys := 69
    static const F: Keys := 70
    static const G: Keys := 71
    static const H: Keys := 72
    static const I: Keys := 73
    static const J: Keys := 74
    static const K: Keys := 75
    static const L: Keys := 76
    static const M: Keys := 77
    static const N: Keys := 78
    static const O: Keys := 79
    static const P: Keys := 80
    static const Q: Keys := 81
    static const R: Keys := 82
    static const S: Keys := 83
    static const T: Keys := 84
    static const U: Keys := 85
    static const V: Keys := 86
    static const W: Keys := 87
    static const X: Keys := 88
    static const Y: Keys := 89
    static const Z: Keys := 90
    static const LeftWindows: Keys := 91
    static const RightWindows: Keys := 92
    static const Apps: Keys := 93
    static const Sleep: Keys := 95
    static const NumPad0: Keys := 96
    static const NumPad1: Keys := 97
    static const NumPad2: Keys := 98
    static const NumPad3: Keys := 99
    static const NumPad4: Keys := 100
    static const NumPad5: Keys := 101
    static const NumPad6: Keys := 102
    static const NumPad7: Keys := 103
    static const NumPad8: Keys := 104
    static const NumPad9: Keys := 105
    static const Multiply: Keys := 106
    static const Add: Keys := 107
    static const Separator: Keys := 108
    static const Subtract: Keys := 109
    static const Decimal: Keys := 110
    static const Divide: Keys := 111
    static const F1: Keys := 112
    static const F2: Keys := 113
    static const F3: Keys := 114
    static const F4: Keys := 115
    static const F5: Keys := 116
    static const F6: Keys := 117
    static const F7: Keys := 118
    static const F8: Keys := 119
    static const F9: Keys := 120
    static const F10: Keys := 121
    static const F11: Keys := 122
    static const F12: Keys := 123
    static const F13: Keys := 124
    static const F14: Keys := 125
    static const F15: Keys := 126
    static const F16: Keys := 127
    static const F17: Keys := 128
    static const F18: Keys := 129
    static const F19: Keys := 130
    static const F20: Keys := 131
    static const F21: Keys := 132
    static const F22: Keys := 133
    static const F23: Keys := 134
    static const F24: Keys := 135
    static const NumLock: Keys := 144
    static const Scroll: Keys := 145
    static const LeftShift: Keys := 160
    static const RightShift: Keys := 161
    static const LeftControl: Keys := 162
    static const RightControl: Keys := 163
    static const LeftAlt: Keys := 164
    static const RightAlt: Keys := 165
    static const OemSemicolon: Keys := 186
    static const OemPlus: Keys := 187
    static const OemComma: Keys := 188
    static const OemMinus: Keys := 189
    static const OemPeriod: Keys := 190
    static const OemQuestion: Keys := 191
    static const OemTilde: Keys := 192
    static const OemOpenBrackets: Keys := 219
    static const OemPipe: Keys := 220
    static const OemCloseBrackets: Keys := 221
    static const OemQuotes: Keys := 222
    static const Oem8: Keys := 223
    static const OemBackslash: Keys := 226
    static const ProcessKey: Keys := 229
    static const OemClear: Keys := 254
  }

  datatype ButtonState = Released | Pressed

  /** One poll of the mouse; the default value of the C# struct is all zeros and all released. */
  datatype MouseState = MouseState(
    x: int,
    y: int,
    scrollWheelValue: int,
    leftButton: ButtonState,
    rightButton: ButtonState,
    middleButton: ButtonState,
    xButton1: ButtonState,
    xButton2: ButtonState)

  const DefaultMouseState := MouseState(0, 0, 0, Released, Released, Released, Released, Released)

  /** Game time, as `TimeSpan` ticks (100 ns): the total since start and the time since the last update. */
  datatype GameTime = GameTime(totalGameTime: int, elapsedGameTime: int)

  const TicksPerSecond := 10_000_000

  /** `ElapsedGameTime.TotalSeconds`. */
  function ElapsedSeconds(gameTime: GameTime): real
  {
    gameTime.elapsedGameTime as real / TicksPerSecond as real
  }
}
