/**
 * The coin toss that decides whether the bit fed back into the shift
 * register is flipped (`Stochasticizer::stochasticize`).
 *
 * The knob and CV voltages and the value of `random(0, 3135)` are inputs:
 * the firmware reads them from the ADCs and the random generator.
 */
module Stoch {

  /** Knob voltage (mV) below which the bit is always flipped (CV gate low). */
  const THRESH_LOW: int := 265
  /** Knob voltage (mV) above which the bit is always kept (CV gate low). */
  const THRESH_HIGH: int := 3125
  /** CV voltage (mV) above which the decision of a locked band is inverted. */
  const CV_GATE: int := 500
  /** `random(0, DRAW_LIMIT)` yields 0 .. DRAW_LIMIT - 1. */
  const DRAW_LIMIT: int := 3135

  /** One toss's hardware inputs, in millivolts, plus the random draw. */
  datatype Readings = Readings(knob: int, cv: int, draw: int)

  /** The three bands of the knob. */
  datatype Band = Locked | Inverted | Random

  function BandOf(knob: int): Band
  {
    if knob > THRESH_HIGH then Locked
    else if knob < THRESH_LOW then Inverted
    else Random
  }

  /**
   * Stochasticizer::stochasticize. The forced-bit flags that `setBit` and
   * `clearBit` raise are not among its inputs: the source never reads them.
   */
  function Stochasticize(startVal: bool, r: Readings): (b: bool)
    ensures r.knob > THRESH_HIGH ==> (b == if r.cv > CV_GATE then !startVal else startVal)
    ensures r.knob < THRESH_LOW ==> (b == if r.cv > CV_GATE then startVal else !startVal)
    ensures THRESH_LOW <= r.knob <= THRESH_HIGH ==> (b != startVal <==> r.draw > r.knob)
  {
    if r.knob > THRESH_HIGH then
      (if r.cv > CV_GATE then !startVal else startVal)
    else if r.knob < THRESH_LOW then
      (if r.cv > CV_GATE then startVal else !startVal)
    else
      (if r.draw > r.knob then !startVal else startVal)
  }

  /** Whether the toss flips the bit it is given. */
  predicate Flips(r: Readings)
  {
    Stochasticize(false, r)
  }

  /** The decision to flip does not depend on the bit being tossed. */
  lemma FlipIndependentOfBit(startVal: bool, r: Readings)
    ensures Stochasticize(startVal, r) == (startVal != Flips(r))
  {
  }

  /** Every knob reading falls in exactly one band: 265 < 3125. */
  lemma BandsPartition(knob: int)
    ensures (knob > THRESH_HIGH) == (BandOf(knob) == Locked)
    ensures (knob < THRESH_LOW) == (BandOf(knob) == Inverted)
    ensures (THRESH_LOW <= knob <= THRESH_HIGH) == (BandOf(knob) == Random)
  {
  }

  /** Number of draws d in [0, n) for which the toss at this knob and CV flips. */
  function FlipCount(knob: int, cv: int, n: nat): nat
  {
    if n == 0 then 0
    else FlipCount(knob, cv, n - 1) + (if Flips(Readings(knob, cv, n - 1)) then 1 else 0)
  }

  /**
   * In the random band, the draws that flip are exactly knob + 1 .. 3134:
   * the chance of a flip is (3134 - knob) / 3135, falling as the knob rises.
   */
  lemma {:induction false} RandomBandFlipCount(knob: int, cv: int, n: nat)
    requires THRESH_LOW <= knob <= THRESH_HIGH
    ensures FlipCount(knob, cv, n) == if n <= knob + 1 then 0 else n - 1 - knob
  {
    if n > 0 {
      RandomBandFlipCount(knob, cv, n - 1);
    }
  }

  /** Over all 3135 draws, the random band flips 3134 - knob of them. */
  lemma RandomBandFlipChance(knob: int, cv: int)
    requires THRESH_LOW <= knob <= THRESH_HIGH
    ensures FlipCount(knob, cv, DRAW_LIMIT as nat) == DRAW_LIMIT - 1 - knob
  {
    RandomBandFlipCount(knob, cv, DRAW_LIMIT as nat);
  }

  /** In a locked band the draw is irrelevant: all draws agree. */
  lemma LockedBandsIgnoreDraw(startVal: bool, knob: int, cv: int, d1: int, d2: int)
    requires BandOf(knob) != Random
    ensures Stochasticize(startVal, Readings(knob, cv, d1)) == Stochasticize(startVal, Readings(knob, cv, d2))
  {
  }

  /**
   * The fields `setBit` and `clearBit` write (src/TuringRegister.cpp:13-24).
   * Nothing in the toss reads them.
   */
  class Stochasticizer {
    var bitSetPending: bool
    var bitClearPending: bool

    constructor ()
      ensures !bitSetPending && !bitClearPending
    {
      bitSetPending := false;
      bitClearPending := false;
    }
  }
}
