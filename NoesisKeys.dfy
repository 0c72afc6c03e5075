/**
 * The UI runtime's `Key` enumeration, as far as the wrapper uses it: `None` and the
 * image of the key-conversion table. Only equality of keys matters to the wrapper,
 * so the values are plain constructors.
 */
module Noesis {

  datatype Key =
      None
    | Back
    | Tab
    | OemClear
    | Return
    | Pause
    | Escape
    | Space
    | PageUp
    | PageDown
    | End
    | Home
    | Left
    | Up
    | Right
    | Down
    | Select
    | Print
    | Execute
    | Insert
    | Delete
    | Help
    | D0
    | D1
    | D2
    | D3
    | D4
    | D5
    | D6
    | D7
    | D8
    | D9
    | NumPad0
    | NumPad1
    | NumPad2
    | NumPad3
    | NumPad4
    | NumPad5
    | NumPad6
    | NumPad7
    | NumPad8
    | NumPad9
    | Add
    | Separator
    | Subtract
    | Decimal
    | Divide
    | Multiply
    | A
    | B
    | C
    | D
    | E
    | F
    | G
    | H
    | I
    | J
    | K
    | L
    | M
    | N
    | O
    | P
    | Q
    | R
    | S
    | T
    | U
    | V
    | W
    | X
    | Y
    | Z
    | F1
    | F2
    | F3
    | F4
    | F5
    | F6
    | F7
    | F8
    | F9
    | F10
    | F11
    | F12
    | F13
    | F14
    | F15
    | NumLock
    | Scroll
    | OemPlus
    | OemComma
    | OemMinus
    | OemPeriod
    | OemQuestion
    | OemBackslash
    | OemOpenBrackets
    | OemCloseBrackets
    | OemSemicolon
    | OemQuotes
    | OemTilde
    | OemPipe
    | LeftShift
    | RightShift
    | LeftCtrl
    | RightCtrl
    | LeftAlt
    | RightAlt
    | LWin
    | RWin
}
