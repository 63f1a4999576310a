/**
 * The two-way bit toggle (src/toggle.cpp): a down and an up button whose
 * clicks set or clear bit 0, and whose double-clicks change the fader
 * octave range.
 *
 * Each button is read once (`readAndFree`) and the two states are the
 * inputs; `mode.performing()` is declared but not defined in the code, so
 * whether the panel is performing is an input as well.
 */
module Toggle {
  /** The button states the decision looks at; `Idle` stands for every other state. */
  datatype ButtonState = Clicked | DoubleClicked | Held | Idle

  datatype ToggleCmd = LessOctaves | MoreOctaves | ClearBit | SetBit | Exit | No

  /** A click or a hold: the presses that set or clear the bit. */
  predicate Presses(b: ButtonState)
  {
    b == Clicked || b == Held
  }

  /**
   * `updateToggle`: a double-click on down wins, then a double-click on up,
   * then a press on down, then a press on up (set when performing, exit
   * otherwise); nothing else is a command.
   */
  function UpdateToggle(down: ButtonState, up: ButtonState, performing: bool): (c: ToggleCmd)
    ensures c == LessOctaves <==> down == DoubleClicked
    ensures c == MoreOctaves <==> down != DoubleClicked && up == DoubleClicked
    ensures c == ClearBit <==> Presses(down) && up != DoubleClicked
    ensures c == SetBit <==> performing && down == Idle && Presses(up)
    ensures c == Exit <==> !performing && down == Idle && Presses(up)
    ensures c == No <==> down == Idle && up == Idle
  {
    var clickies := [down, up];
    if clickies[0] == DoubleClicked then LessOctaves
    else if clickies[1] == DoubleClicked then MoreOctaves
    else if clickies[0] == Clicked || clickies[0] == Held then ClearBit
    else if clickies[1] == Clicked || clickies[1] == Held then (if performing then SetBit else Exit)
    else No
  }
}
