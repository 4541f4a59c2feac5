/** Key events as crossterm delivers them. `other` stands for any modifier that
    is neither Control nor Shift. */
module Keys {

  datatype Code = Up | Down | Left | Right | Enter | Esc | Backspace | Tab | BackTab
                | PageUp | PageDown | Delete | F(n: nat) | Char(c: char) | OtherCode

  datatype Key = Key(code: Code, ctrl: bool, shift: bool, other: bool, press: bool)

  /** `modifiers.is_empty()` */
  predicate Bare(k: Key) {
    !k.ctrl && !k.shift && !k.other
  }

  /** `modifiers == CONTROL` */
  predicate CtrlOnly(k: Key) {
    k.ctrl && !k.shift && !k.other
  }
}
