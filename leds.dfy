/**
 * The panel LEDs (src/leds.cpp): the main row shows the pattern while
 * performing and the length or the chosen bank while editing; the fader
 * LEDs show the pattern only under faders that are unlocked.
 *
 * The results are the bytes written to the LED output register (byte 1
 * for the main row, byte 0 for the faders); the current mode, the length,
 * the flash bits and the fader lock states are inputs.
 */
module Leds {
  import opened Bits
  import opened SharedCtrl
  import ModeCtrl

  /**
   * `updateMainLeds`: the byte written to the main row, or None when
   * nothing is written (in CANCEL, or for a negative active slot).
   */
  function MainLeds(p: ModeCtrl.Panel, dacRegister: Byte, len: int, flash: Byte): (r: Option<Byte>)
    requires 1 <= len <= 16 && ModeCtrl.SlotsValid(p)
    ensures p.mode == ModeCtrl.Performance ==> r == Some(dacRegister)
    ensures p.mode == ModeCtrl.ChangeLength ==>
      r.Some? && forall i :: 0 <= i < 8 ==> (r.value[i] <==> if len <= 8 then i == len - 1 else i != len - 9)
    ensures p.mode == ModeCtrl.PatternLoad ==>
      r.Some? && forall i :: 0 <= i < 8 ==> (r.value[i] <==> flash[0] && i == p.loadSlot)
    ensures p.mode == ModeCtrl.PatternSave ==>
      r.Some? && forall i :: 0 <= i < 8 ==> (r.value[i] <==> flash[1] && i == p.saveSlot)
    ensures p.mode == ModeCtrl.Cancel ==> r == None
  {
    if p.mode == ModeCtrl.Performance then Some(dacRegister)
    else if p.mode == ModeCtrl.ChangeLength then
      var v: Byte := if len <= 8 then Mask(8, len - 1) else Not(Mask(8, len - 9));
      Some(v)
    else if p.mode == ModeCtrl.PatternLoad || p.mode == ModeCtrl.PatternSave then
      var slot := ModeCtrl.ActiveSlot(p);
      var on := if p.mode == ModeCtrl.PatternLoad then flash[0] else flash[1];
      if slot < 0 then None
      else
        var v: Byte := if on then Write(Zeros(8), slot, true) else Zeros(8);
        Some(v)
    else None
  }

  /** The length display tells every length of the table apart: two lengths never light the same LEDs. */
  lemma LengthDisplayIdentifies(p: ModeCtrl.Panel, dacRegister: Byte, flash: Byte, len1: int, len2: int)
    requires 1 <= len1 < len2 <= 16 && ModeCtrl.SlotsValid(p) && p.mode == ModeCtrl.ChangeLength
    ensures MainLeds(p, dacRegister, len1, flash) != MainLeds(p, dacRegister, len2, flash)
  {
    var r1 := MainLeds(p, dacRegister, len1, flash).value;
    var r2 := MainLeds(p, dacRegister, len2, flash).value;
    if len2 <= 8 {
      assert r1[len2 - 1] != r2[len2 - 1];
    } else if len1 <= 8 {
      // One LED against seven: some LED is lit by neither rule's exception.
      var j := if 0 != len1 - 1 && 0 != len2 - 9 then 0 else if 1 != len1 - 1 && 1 != len2 - 9 then 1 else 2;
      assert r1[j] != r2[j];
    } else {
      assert r1[len1 - 9] != r2[len1 - 9];
    }
  }

  /**
   * `updateFaderLeds`: bit fd of the lock mask is set when fader fd is
   * unlocked, and the fader LEDs are the pattern masked by it.
   */
  method FaderLeds(states: seq<LockState>, dacRegister: Byte) returns (faderLockStateReg: Byte, out: Byte)
    requires |states| == 8
    ensures forall fd :: 0 <= fd < 8 ==> (faderLockStateReg[fd] <==> states[fd] == Unlocked)
    ensures forall fd :: 0 <= fd < 8 ==> (out[fd] <==> dacRegister[fd] && states[fd] == Unlocked)
  {
    faderLockStateReg := Zeros(8);
    var fd := 0;
    while fd < 8
      invariant 0 <= fd <= 8
      invariant forall i :: 0 <= i < fd ==> (faderLockStateReg[i] <==> states[i] == Unlocked)
    {
      faderLockStateReg := Write(faderLockStateReg, fd, states[fd] == Unlocked);
      fd := fd + 1;
    }
    out := And(dacRegister, faderLockStateReg);
  }
}
