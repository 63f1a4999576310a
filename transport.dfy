/**
 * The transport of the shift engine: the step offset within the current
 * pattern length, the staged bank load and pending reset flags
 * (`TransportParams`), and the per-step shift configuration derived from
 * them (`ShiftParams`).
 *
 * Registers are 16-bit `Word`s (see module Bits). Offsets, indices and
 * amounts are integers kept inside the ranges of their C++ types by the
 * `Valid()` invariant.
 */
module Transport {
  import opened Bits
  import opened Stoch

  /** The selectable pattern lengths, indexed by the length iterator. */
  const STEP_LENGTH_VALS: seq<int> := [2, 3, 4, 5, 6, 7, 8, 9, 10, 11, 12, 15, 16]
  /** The constructor points the length iterator at the seventh entry. */
  const INITIAL_LENGTH_IDX: int := 6

  /** Fields of a `ShiftParams`. */
  datatype ShiftState = ShiftState(
    next: int,
    leftAmt: nat,
    rightAmt: nat,
    readIdx: int,
    writeIdx: nat,
    immutable: bool)

  /** The scalar fields of a `TransportParams` (its `shifter_` is a separate object). */
  datatype TransportState = TransportState(
    readyToLoad: bool,
    offset: int,
    wasReset: bool,
    drunkStep: int,
    resetPending: bool,
    currentBankIdx: int,
    newLoadPending: bool,
    newPatternLoaded: bool,
    nextPattern: int,
    lengthIdx: int)

  // ---------------------------------------------------------------------
  // What one step computes

  /**
   * The shift configuration `getShiftParams` stores for a step in direction
   * `steps` at length `len`, once the offset has become `offset`.
   */
  function ShiftFor(steps: int, len: int, offset: int, inPlace: bool): ShiftState
    requires len > 0
  {
    if steps > 0 then
      ShiftState(TRem(offset + 1, len), 1, 15, 1 + len, 0, inPlace)
    else
      ShiftState(TRem(offset - 1, len), 15, 1, if 8 - len < 0 then 8 - len + 16 else 8 - len, 7, inPlace)
  }

  /** `(reg << leftAmt) | (reg >> rightAmt)`, stored back into 16 bits. */
  function Shifted(reg: Word, s: ShiftState): Word
  {
    Or(Shl(reg, s.leftAmt), Shr(reg, s.rightAmt))
  }

  /**
   * The register `TransportParams::iterate` returns when no reset was just
   * taken: the shifted register, with the tap bit (read before the shift)
   * tossed and written at `writeIdx` unless the step is in place.
   */
  function StepImage(reg: Word, s: ShiftState, toss: Readings): Word
  {
    var rot := Shifted(reg, s);
    if s.immutable then rot
    else Write(rot, s.writeIdx, Stochasticize(Read(reg, s.readIdx), toss))
  }

  /** The amounts `rotateToZero` leaves in the shifter: fresh ones for a nonzero offset, the stale ones otherwise. */
  function ZeroAmounts(offset: int, leftAmt: nat, rightAmt: nat): (amts: (nat, nat))
    requires -16 <= offset <= 16
  {
    var (l, r) :=
      if offset > 0 then (16 - offset, offset)
      else if offset < 0 then (-offset, 16 + offset)
      else (leftAmt, rightAmt);
    (if l == 16 then 0 else l, if r == 16 then 0 else r)
  }

  /** The register `rotateToZero` returns: `(reg >> rightAmt) | (reg << leftAmt)` with the amounts above. */
  function ZeroImage(reg: Word, offset: int, leftAmt: nat, rightAmt: nat): Word
    requires -16 <= offset <= 16
  {
    var (l, r) := ZeroAmounts(offset, leftAmt, rightAmt);
    Or(Shr(reg, r), Shl(reg, l))
  }

  // ---------------------------------------------------------------------
  // Properties of a step

  /** The length table: 13 strictly increasing entries from 2 to 16; the initial entry is 8. */
  lemma LengthTable()
    ensures |STEP_LENGTH_VALS| == 13
    ensures forall i, j :: 0 <= i < j < |STEP_LENGTH_VALS| ==> STEP_LENGTH_VALS[i] < STEP_LENGTH_VALS[j]
    ensures forall i :: 0 <= i < |STEP_LENGTH_VALS| ==> 2 <= STEP_LENGTH_VALS[i] <= 16
    ensures STEP_LENGTH_VALS[INITIAL_LENGTH_IDX] == 8
  {
  }

  /**
   * Both directions shift by a pair of amounts summing to 16, so the shift
   * is a one-bit rotation of the whole register: left going forward, right
   * going backward.
   */
  lemma ShiftIsOneBitRotation(reg: Word, steps: int, len: int, offset: int, inPlace: bool)
    requires 2 <= len <= 16
    ensures ShiftFor(steps, len, offset, inPlace).leftAmt + ShiftFor(steps, len, offset, inPlace).rightAmt == 16
    ensures steps > 0 ==> Shifted(reg, ShiftFor(steps, len, offset, inPlace)) == RotL(reg, 1)
    ensures steps <= 0 ==> Shifted(reg, ShiftFor(steps, len, offset, inPlace)) == RotR(reg, 1)
  {
    if steps > 0 {
      ShiftPairRotates(reg, 1, 15);
    } else {
      ShiftPairRotates(reg, 15, 1);
    }
  }

  /**
   * The next offset is the current one moved by one step in the direction
   * of travel, reduced by the C++ remainder: it stays strictly inside
   * (-len, len) and returns to 0 when it would reach +-len.
   */
  lemma NextOffset(steps: int, len: int, offset: int, inPlace: bool)
    requires 2 <= len <= 16
    ensures var next := ShiftFor(steps, len, offset, inPlace).next;
      -len < next < len
    ensures -len < offset < len ==>
      var moved := if steps > 0 then offset + 1 else offset - 1;
      ShiftFor(steps, len, offset, inPlace).next == (if moved == len || moved == -len then 0 else moved)
  {
    var moved := if steps > 0 then offset + 1 else offset - 1;
    assert ShiftFor(steps, len, offset, inPlace).next == TRem(moved, len);
    TRemBounds(moved, len);
    if moved == len || moved == -len {
      DivModUnique(len, len, 1, 0);
    }
  }

  /**
   * The tap going forward is bit `1 + len`, past the top of the register
   * for lengths 15 and 16, where it always reads 0; going backward it is
   * `8 - len` wrapped into 0 .. 15. Forward writes bit 0, backward bit 7.
   */
  lemma TapAndWritePositions(reg: Word, steps: int, len: int, offset: int, inPlace: bool)
    requires 2 <= len <= 16
    ensures steps > 0 ==> (ShiftFor(steps, len, offset, inPlace).readIdx == len + 1
      && ShiftFor(steps, len, offset, inPlace).writeIdx == 0)
    ensures steps > 0 && len >= 15 ==> !Read(reg, ShiftFor(steps, len, offset, inPlace).readIdx)
    ensures steps <= 0 ==> (0 <= ShiftFor(steps, len, offset, inPlace).readIdx < 16
      && ShiftFor(steps, len, offset, inPlace).readIdx == (8 - len) % 16
      && ShiftFor(steps, len, offset, inPlace).writeIdx == 7)
  {
  }

  /** An in-place step is exactly the rotation: no bit is tossed or written. */
  lemma InPlaceStepIsRotation(reg: Word, steps: int, len: int, offset: int, toss: Readings)
    requires 2 <= len <= 16
    ensures StepImage(reg, ShiftFor(steps, len, offset, true), toss) == Shifted(reg, ShiftFor(steps, len, offset, true))
  {
  }

  /**
   * A forward step moves bits 0 .. 14 up by one and fills bit 0 with the
   * toss of the tap bit `1 + len` of the register before the step.
   */
  lemma ForwardStepBits(reg: Word, len: int, offset: int, toss: Readings, i: int)
    requires 2 <= len <= 16 && 0 <= i < 16
    ensures var r := StepImage(reg, ShiftFor(1, len, offset, false), toss);
      r[i] == if i == 0 then Stochasticize(Read(reg, len + 1), toss) else reg[i - 1]
  {
  }

  /**
   * A backward step moves every bit down by one (bit 0 to bit 15) and then
   * replaces bit 7 with the toss of the tap bit `(8 - len) mod 16`.
   */
  lemma BackwardStepBits(reg: Word, len: int, offset: int, toss: Readings, i: int)
    requires 2 <= len <= 16 && 0 <= i < 16
    ensures var r := StepImage(reg, ShiftFor(-1, len, offset, false), toss);
      r[i] == if i == 7 then Stochasticize(reg[(8 - len) % 16], toss) else reg[(i + 1) % 16]
  {
  }

  /**
   * `rotateToZero` with a nonzero offset rotates right by a positive
   * offset and left by a negative one, keeping every set bit.
   */
  lemma ZeroImageRotates(reg: Word, offset: int, leftAmt: nat, rightAmt: nat)
    requires -15 <= offset <= 15
    ensures offset > 0 ==> ZeroImage(reg, offset, leftAmt, rightAmt) == RotR(reg, offset)
    ensures offset < 0 ==> ZeroImage(reg, offset, leftAmt, rightAmt) == RotL(reg, -offset)
    ensures offset != 0 ==> PopCount(ZeroImage(reg, offset, leftAmt, rightAmt)) == PopCount(reg)
  {
    if offset > 0 {
      ShiftPairRotatesSwapped(reg, 16 - offset, offset);
      RotRPopCount(reg, offset);
    } else if offset < 0 {
      ShiftPairRotatesSwapped(reg, -offset, 16 + offset);
      assert RotR(reg, 16 + offset) == RotL(reg, -offset);
      RotLPopCount(reg, -offset);
    }
  }

  /** Rotating to zero from offset k and then from offset -k restores the register. */
  lemma ZeroImageInverse(reg: Word, k: int, l1: nat, r1: nat, l2: nat, r2: nat)
    requires -15 <= k <= 15 && k != 0
    ensures ZeroImage(ZeroImage(reg, k, l1, r1), -k, l2, r2) == reg
  {
    var once := ZeroImage(reg, k, l1, r1);
    ZeroImageRotates(reg, k, l1, r1);
    ZeroImageRotates(once, -k, l2, r2);
    if k > 0 {
      assert once == RotR(reg, k);
      RotRThenL(reg, k);
    } else {
      assert once == RotL(reg, -k);
      RotLThenR(reg, -k);
    }
  }

  /**
   * At offset 0 the stored amounts are reused: right after construction
   * (0 / 0) the register comes back unchanged, but after any step's
   * configuration (1 / 15 or 15 / 1) it is rotated by one bit.
   */
  lemma ZeroImageAtOffsetZero(reg: Word, steps: int, len: int, offset: int, inPlace: bool)
    requires 2 <= len <= 16
    ensures ZeroImage(reg, 0, 0, 0) == reg
    ensures var s := ShiftFor(steps, len, offset, inPlace);
      ZeroImage(reg, 0, s.leftAmt, s.rightAmt) == (if steps > 0 then RotL(reg, 1) else RotR(reg, 1))
  {
    var s := ShiftFor(steps, len, offset, inPlace);
    if steps > 0 {
      ShiftPairRotatesSwapped(reg, 1, 15);
    } else {
      ShiftPairRotatesSwapped(reg, 15, 1);
    }
  }

  // ---------------------------------------------------------------------
  // The forward tap

  /** `n` successive steps with one fixed configuration. */
  function Run(reg: Word, s: ShiftState, toss: Readings, n: nat): Word
  {
    if n == 0 then reg else StepImage(Run(reg, s, toss, n - 1), s, toss)
  }

  /** A toss that keeps every bit: the knob above 3125 with the CV gate low. */
  const KEEP: Readings := Readings(THRESH_HIGH + 1, 0, 0)

  /** The bit of a forward loop of the given period that bit i held n steps earlier. */
  function Behind(i: int, n: int, period: int): (j: int)
    ensures 0 <= i < period && 0 <= n <= period ==> 0 <= j < period
  {
    if i >= n then i - n else i - n + period
  }

  /** One step further back from i's lower neighbour is n steps back from i. */
  lemma BehindStep(i: int, n: int, period: int)
    requires 0 <= i < period && 0 < n <= period
    ensures Behind(if i == 0 then period - 1 else i - 1, n - 1, period) == Behind(i, n, period)
  {
  }

  /** The bit of the backward window 8 - len .. 7 that bit i held n steps earlier. */
  function Ahead(i: int, n: int, len: int): (j: int)
    ensures 8 - len <= i <= 7 && 0 <= n <= len ==> 8 - len <= j <= 7
  {
    if i + n <= 7 then i + n else i + n - len
  }

  /** One step further on from i's upper neighbour is n steps on from i. */
  lemma AheadStep(i: int, n: int, len: int)
    requires 8 - len <= i <= 7 && 0 < n <= len
    ensures Ahead(if i == 7 then 8 - len else i + 1, n - 1, len) == Ahead(i, n, len)
  {
  }

  /** One forward step that keeps its tossed bit: bit 0 takes the tap, every other bit its lower neighbour. */
  lemma ForwardKeepStep(prev: Word, s: ShiftState, toss: Readings, i: int)
    requires s.leftAmt == 1 && s.rightAmt == 15 && s.writeIdx == 0 && !s.immutable
    requires 0 <= s.readIdx < 16 && !Flips(toss)
    requires 0 <= i < 16
    ensures StepImage(prev, s, toss)[i] == if i == 0 then prev[s.readIdx] else prev[i - 1]
  {
    FlipIndependentOfBit(prev[s.readIdx], toss);
  }

  /** The same step inside a run: bit i after n steps, from the bits after n - 1. */
  lemma ForwardRunBit(reg: Word, s: ShiftState, toss: Readings, n: nat, i: int)
    requires s.leftAmt == 1 && s.rightAmt == 15 && s.writeIdx == 0 && !s.immutable
    requires 0 <= s.readIdx < 16 && !Flips(toss)
    requires 0 < n && 0 <= i < 16
    ensures Read(Run(reg, s, toss, n), i) == Read(Run(reg, s, toss, n - 1), if i == 0 then s.readIdx else i - 1)
  {
    ForwardKeepStep(Run(reg, s, toss, n - 1), s, toss, i);
  }

  /**
   * Going forward with a tap t inside the register and tosses that keep
   * their bit, bits 0 .. t form a loop of period t + 1: within one period,
   * after n steps bit i holds what bit i - n (mod t + 1) held.
   */
  lemma {:induction false} ForwardWindowCycles(reg: Word, s: ShiftState, toss: Readings, n: nat, i: int)
    requires s.leftAmt == 1 && s.rightAmt == 15 && s.writeIdx == 0 && !s.immutable
    requires 0 <= s.readIdx < 16 && !Flips(toss)
    requires 0 <= i <= s.readIdx && n <= s.readIdx + 1
    ensures Read(reg, Behind(i, n, s.readIdx + 1)) == Read(Run(reg, s, toss, n), i)
  {
    if n > 0 {
      var j := if i == 0 then s.readIdx else i - 1;
      ForwardRunBit(reg, s, toss, n, i);
      ForwardWindowCycles(reg, s, toss, n - 1, j);
      BehindStep(i, n, s.readIdx + 1);
    }
  }

  /**
   * As written, the forward tap at `1 + len` makes the loop two bits
   * longer than the length: at length 8, eight forward steps that keep
   * every bit do not bring the low byte back (bit 0 of 0x0001 is at bit 8).
   */
  lemma ForwardTapLoopAsWritten()
    ensures Run(Mask(16, 0), ShiftFor(1, 8, 0, false), KEEP, 8)[..8] != Mask(16, 0)[..8]
  {
    var reg := Mask(16, 0);
    var s := ShiftFor(1, 8, 0, false);
    ForwardWindowCycles(reg, s, KEEP, 8, 0);
    assert Run(reg, s, KEEP, 8)[..8][0] != reg[..8][0];
  }

  /** The step configuration with the forward tap at `len - 1`, the top of the pattern window. */
  function ShiftForCorrected(steps: int, len: int, offset: int, inPlace: bool): ShiftState
    requires len > 0
  {
    var s := ShiftFor(steps, len, offset, inPlace);
    if steps > 0 then s.(readIdx := len - 1) else s
  }

  /**
   * With the tap at `len - 1`, `len` forward steps that keep every bit
   * bring the low `len` bits back: the pattern loops with period `len`.
   */
  lemma CorrectedForwardLoopRepeats(reg: Word, len: int, offset: int, toss: Readings)
    requires 2 <= len <= 16 && !Flips(toss)
    ensures Run(reg, ShiftForCorrected(1, len, offset, false), toss, len)[..len] == reg[..len]
  {
    var s := ShiftForCorrected(1, len, offset, false);
    forall i | 0 <= i < len
      ensures Run(reg, s, toss, len)[i] == reg[i]
    {
      ForwardWindowCycles(reg, s, toss, len, i);
    }
  }

  /** One backward step that keeps its tossed bit: bit 7 takes the tap, every bit below 15 its upper neighbour. */
  lemma BackwardKeepStep(prev: Word, s: ShiftState, toss: Readings, i: int)
    requires s.leftAmt == 15 && s.rightAmt == 1 && s.writeIdx == 7 && !s.immutable
    requires 0 <= s.readIdx < 16 && !Flips(toss)
    requires 0 <= i < 15
    ensures StepImage(prev, s, toss)[i] == if i == 7 then prev[s.readIdx] else prev[i + 1]
  {
    FlipIndependentOfBit(prev[s.readIdx], toss);
  }

  /** The same step inside a run: bit i after n steps, from the bits after n - 1. */
  lemma BackwardRunBit(reg: Word, s: ShiftState, toss: Readings, n: nat, i: int)
    requires s.leftAmt == 15 && s.rightAmt == 1 && s.writeIdx == 7 && !s.immutable
    requires 0 <= s.readIdx < 16 && !Flips(toss)
    requires 0 < n && 0 <= i < 15
    ensures Read(Run(reg, s, toss, n), i) == Read(Run(reg, s, toss, n - 1), if i == 7 then s.readIdx else i + 1)
  {
    BackwardKeepStep(Run(reg, s, toss, n - 1), s, toss, i);
  }

  /**
   * Going backward the loop already has the intended period: with tosses
   * that keep their bit and a length up to 8, bits 8 - len .. 7 form a
   * loop of period len; within one period, after n steps bit i holds what
   * bit i + n (wrapping from 7 back to 8 - len) held.
   */
  lemma {:induction false} BackwardWindowCycles(reg: Word, s: ShiftState, len: int, toss: Readings, n: nat, i: int)
    requires s.leftAmt == 15 && s.rightAmt == 1 && s.writeIdx == 7 && !s.immutable
    requires 2 <= len <= 8 && s.readIdx == 8 - len && !Flips(toss)
    requires 8 - len <= i <= 7 && n <= len
    ensures Read(reg, Ahead(i, n, len)) == Read(Run(reg, s, toss, n), i)
  {
    if n > 0 {
      var j := if i == 7 then 8 - len else i + 1;
      BackwardRunBit(reg, s, toss, n, i);
      BackwardWindowCycles(reg, s, len, toss, n - 1, j);
      AheadStep(i, n, len);
    }
  }

  /** Hence `len` backward steps restore the pattern window. */
  lemma BackwardLoopRepeats(reg: Word, len: int, toss: Readings)
    requires 2 <= len <= 8 && !Flips(toss)
    ensures Run(reg, ShiftFor(-1, len, 0, false), toss, len)[8 - len..8] == reg[8 - len..8]
  {
    var s := ShiftFor(-1, len, 0, false);
    forall i | 8 - len <= i < 8
      ensures Run(reg, s, toss, len)[i] == reg[i]
    {
      BackwardWindowCycles(reg, s, len, toss, len, i);
    }
  }

  // ---------------------------------------------------------------------
  // The objects

  class ShiftParams {
    var next: int
    var leftAmt: nat
    var rightAmt: nat
    var readIdx: int
    var writeIdx: nat
    var immutable: bool

    function State(): ShiftState
      reads this
    {
      ShiftState(next, leftAmt, rightAmt, readIdx, writeIdx, immutable)
    }

    /** Every field starts at 0. */
    constructor ()
      ensures State() == ShiftState(0, 0, 0, 0, 0, false)
    {
      next := 0;
      leftAmt := 0;
      rightAmt := 0;
      readIdx := 0;
      writeIdx := 0;
      immutable := false;
    }

    /**
     * `getShiftParams`: consumes a pending reset unless in place (offset to
     * 0, `resetPending_` cleared), always leaves `wasReset_` false, and
     * stores the step configuration for the resulting offset.
     */
    method GetShiftParams(t: TransportParams, steps: int, inPlace: bool)
      requires t.Valid() && t.shifter == this
      modifies this, t
      ensures t.Valid()
      ensures var consumed := old(t.resetPending) && !inPlace;
        t.State() == old(t.State()).(
          offset := if consumed then 0 else old(t.offset),
          wasReset := false,
          resetPending := old(t.resetPending) && !consumed)
      ensures State() == ShiftFor(steps, t.Length(), t.offset, inPlace)
      ensures -t.Length() < next < t.Length()
    {
      immutable := inPlace;
      if t.resetPending && !immutable {
        t.offset := 0;
        t.wasReset := true;
        t.resetPending := false;
      }
      t.wasReset := false;
      Configure(steps, STEP_LENGTH_VALS[t.lengthIdx], t.offset);
    }

    /** The direction-dependent half of `getShiftParams`: amounts, tap, write index and next offset. */
    method Configure(steps: int, len: int, offset: int)
      requires 2 <= len <= 16
      modifies this
      ensures State() == ShiftFor(steps, len, offset, old(immutable))
      ensures -len < next < len
    {
      var dir: int;
      if steps > 0 {
        dir := 1;
        leftAmt := 1;
        rightAmt := 15;
        readIdx := 1 + len;
        writeIdx := 0;
      } else {
        dir := -1;
        leftAmt := 15;
        rightAmt := 1;
        readIdx := 8 - len;
        if readIdx < 0 {
          readIdx := readIdx + 16;
        }
        writeIdx := 7;
      }
      TRemBounds(offset + dir, len);
      next := offset + dir;
      next := TRem(next, len);
    }

    /**
     * `rotateToZero`: recomputes the amounts from the offset when it is
     * nonzero, keeps the stale ones when it is zero, and returns the
     * register rotated by them.
     */
    method RotateToZero(reg: Word, t: TransportParams) returns (r: Word)
      requires -15 <= t.offset <= 15
      modifies this
      ensures (leftAmt, rightAmt) == ZeroAmounts(t.offset, old(leftAmt), old(rightAmt))
      ensures State() == old(State()).(leftAmt := leftAmt, rightAmt := rightAmt)
      ensures r == ZeroImage(reg, t.offset, old(leftAmt), old(rightAmt))
    {
      if t.offset > 0 {
        rightAmt := t.offset;
        leftAmt := 16 - t.offset;
      } else if t.offset < 0 {
        leftAmt := -t.offset;
        rightAmt := 16 + t.offset;
      }
      if leftAmt == 16 {
        leftAmt := 0;
      }
      if rightAmt == 16 {
        rightAmt := 0;
      }
      r := Or(Shr(reg, rightAmt), Shl(reg, leftAmt));
    }
  }

  class TransportParams {
    var readyToLoad: bool
    var offset: int
    var wasReset: bool
    var drunkStep: int
    var resetPending: bool
    var currentBankIdx: int
    var newLoadPending: bool
    var newPatternLoaded: bool
    var nextPattern: int
    /** Position of the `workingLength` iterator in STEP_LENGTH_VALS. */
    var lengthIdx: int
    const shifter: ShiftParams

    function State(): TransportState
      reads this
    {
      TransportState(readyToLoad, offset, wasReset, drunkStep, resetPending,
                     currentBankIdx, newLoadPending, newPatternLoaded, nextPattern, lengthIdx)
    }

    /**
     * The C++ types' ranges and the facts the code keeps: the iterator
     * stays in the table, offsets stay within one register width.
     */
    ghost predicate Valid()
      reads this, shifter
    {
      0 <= lengthIdx < |STEP_LENGTH_VALS|
      && -15 <= offset <= 15
      && -15 <= shifter.next <= 15
      && shifter.leftAmt <= 16 && shifter.rightAmt <= 16
      && 0 <= drunkStep <= 7
      && 0 <= nextPattern < 256
      && 0 <= currentBankIdx < 256
    }

    /** The current pattern length, `*workingLength`. */
    function Length(): int
      requires 0 <= lengthIdx < |STEP_LENGTH_VALS|
      reads this
    {
      STEP_LENGTH_VALS[lengthIdx]
    }

    /** The intended bound: both the offset and the next offset lie strictly inside (-length, length). */
    ghost predicate Anchored()
      requires Valid()
      reads this, shifter
    {
      -Length() < offset < Length() && -Length() < shifter.next < Length()
    }

    /** Length 8 (position 6), offset 0, bank 0, nothing staged or pending. */
    constructor ()
      ensures fresh(shifter)
      ensures Valid() && Anchored()
      ensures State() == TransportState(false, 0, false, 0, false, 0, false, false, 0, INITIAL_LENGTH_IDX)
      ensures shifter.State() == ShiftState(0, 0, 0, 0, 0, false)
      ensures Length() == 8
    {
      readyToLoad := false;
      offset := 0;
      wasReset := false;
      drunkStep := 0;
      resetPending := false;
      currentBankIdx := 0;
      newLoadPending := false;
      newPatternLoaded := false;
      nextPattern := 0;
      lengthIdx := INITIAL_LENGTH_IDX;
      shifter := new ShiftParams();
    }

    /**
     * `lengthMINUS` as written: at the first entry nothing changes;
     * otherwise the length moves down one entry and the offset is reduced
     * modulo the new length. The shifter's `next` is left as it was.
     */
    method LengthMinus()
      requires Valid()
      modifies this
      ensures Valid()
      ensures State() == if old(lengthIdx) == 0 then old(State())
        else old(State()).(lengthIdx := old(lengthIdx) - 1, offset := TRem(old(offset), STEP_LENGTH_VALS[old(lengthIdx) - 1]))
      ensures old(lengthIdx) > 0 ==> -Length() < offset < Length()
    {
      if lengthIdx == 0 {
        return;
      }
      lengthIdx := lengthIdx - 1;
      TRemBounds(offset, STEP_LENGTH_VALS[lengthIdx]);
      offset := TRem(offset, STEP_LENGTH_VALS[lengthIdx]);
    }

    /**
     * `lengthMINUS` reducing the shifter's `next` along with the offset, so
     * that the offset committed by the following step is inside the new
     * length as well.
     */
    method LengthMinusCorrected()
      requires Valid()
      modifies this, shifter
      ensures Valid()
      ensures State() == if old(lengthIdx) == 0 then old(State())
        else old(State()).(lengthIdx := old(lengthIdx) - 1, offset := TRem(old(offset), STEP_LENGTH_VALS[old(lengthIdx) - 1]))
      ensures shifter.State() == if old(lengthIdx) == 0 then old(shifter.State())
        else old(shifter.State()).(next := TRem(old(shifter.next), STEP_LENGTH_VALS[old(lengthIdx) - 1]))
      ensures old(lengthIdx) > 0 || old(Anchored()) ==> Anchored()
    {
      if lengthIdx == 0 {
        return;
      }
      lengthIdx := lengthIdx - 1;
      TRemBounds(offset, STEP_LENGTH_VALS[lengthIdx]);
      TRemBounds(shifter.next, STEP_LENGTH_VALS[lengthIdx]);
      offset := TRem(offset, STEP_LENGTH_VALS[lengthIdx]);
      shifter.next := TRem(shifter.next, STEP_LENGTH_VALS[lengthIdx]);
    }

    /** `lengthPLUS`: at the last entry nothing changes; otherwise the length moves up one entry. */
    method LengthPlus()
      requires Valid()
      modifies this
      ensures Valid()
      ensures State() == if old(lengthIdx) == |STEP_LENGTH_VALS| - 1 then old(State())
        else old(State()).(lengthIdx := old(lengthIdx) + 1)
      ensures old(Anchored()) ==> Anchored()
    {
      if lengthIdx == |STEP_LENGTH_VALS| - 1 {
        return;
      }
      lengthIdx := lengthIdx + 1;
    }

    /** `reAnchor`: the offset becomes 0 and nothing else changes. */
    method ReAnchor()
      requires Valid()
      modifies this
      ensures Valid()
      ensures State() == old(State()).(offset := 0)
      ensures old(Anchored()) ==> Anchored()
    {
      offset := 0;
    }

    /** `setNextPattern`: stages `slot` for loading and nothing else changes. */
    method SetNextPattern(slot: int)
      requires Valid() && 0 <= slot < 256
      modifies this
      ensures Valid()
      ensures State() == old(State()).(newLoadPending := true, nextPattern := slot)
      ensures old(Anchored()) ==> Anchored()
    {
      newLoadPending := true;
      nextPattern := slot;
    }

    /**
     * `flagForReset` is declared but not defined in the sources; it is
     * taken to raise `resetPending_` and nothing else.
     */
    method FlagForReset()
      requires Valid()
      modifies this
      ensures Valid()
      ensures State() == old(State()).(resetPending := true)
      ensures old(Anchored()) ==> Anchored()
    {
      resetPending := true;
    }

    /**
     * `pre_iterate`: unless in place, commits the offset computed by the
     * previous step, and raises the load flag exactly when a load is
     * staged and that committed offset is 0 (the downbeat); then computes
     * this step's configuration. The `wasReset_` raised alongside the load
     * flag never survives: `getShiftParams` clears it.
     */
    method PreIterate(steps: int, inPlace: bool)
      requires Valid()
      modifies this, shifter
      ensures Valid()
      ensures var committed := if inPlace then old(offset) else old(shifter.next);
        var consumed := old(resetPending) && !inPlace;
        State() == old(State()).(
          readyToLoad := !inPlace && old(newLoadPending) && old(shifter.next) == 0,
          offset := if consumed then 0 else committed,
          wasReset := false,
          resetPending := old(resetPending) && !consumed)
      ensures shifter.State() == ShiftFor(steps, Length(), offset, inPlace)
      ensures old(Anchored()) ==> Anchored()
    {
      readyToLoad := false;
      if !inPlace {
        if newLoadPending && shifter.next == 0 {
          readyToLoad := true;
          wasReset := true;
        }
        offset := shifter.next;
      }
      shifter.GetShiftParams(this, steps, inPlace);
    }

    /**
     * `TransportParams::iterate`: when no reset was just taken, clears
     * `newPatternLoaded_` and returns the stepped register; otherwise
     * returns the register untouched.
     */
    method Iterate(reg: Word, toss: Readings) returns (ret: Word)
      requires Valid()
      modifies this
      ensures Valid()
      ensures old(wasReset) ==> ret == reg && State() == old(State())
      ensures !old(wasReset) ==> (ret == StepImage(reg, shifter.State(), toss)
        && State() == old(State()).(newPatternLoaded := false))
    {
      ret := reg;
      if !wasReset {
        newPatternLoaded := false;
        var writeVal := Read(reg, shifter.readIdx);
        ret := Or(Shl(ret, shifter.leftAmt), Shr(ret, shifter.rightAmt));
        if !shifter.immutable {
          writeVal := Stochasticize(writeVal, toss);
          ret := Write(ret, shifter.writeIdx, writeVal);
        }
      }
    }

    /**
     * `loadPattern`: the staged slot becomes the current bank, the offset
     * is reduced modulo the length, the staging is cleared and the pattern
     * stored in that slot is returned.
     */
    method LoadPattern(bank: array<Word>) returns (r: Word)
      requires Valid() && bank.Length == 8 && nextPattern < 8
      modifies this
      ensures Valid()
      ensures r == bank[old(nextPattern)]
      ensures State() == old(State()).(
        readyToLoad := false,
        currentBankIdx := old(nextPattern),
        offset := TRem(old(offset), Length()),
        newLoadPending := false,
        newPatternLoaded := true)
      ensures old(Anchored()) ==> Anchored()
    {
      readyToLoad := false;
      currentBankIdx := nextPattern;
      TRemBounds(offset, STEP_LENGTH_VALS[lengthIdx]);
      offset := TRem(offset, STEP_LENGTH_VALS[lengthIdx]);
      newLoadPending := false;
      newPatternLoaded := true;
      r := bank[currentBankIdx];
    }

    /** `TransportParams::rotateToZero`: the shifter's rotation for the current offset. */
    method RotateToZero(reg: Word) returns (r: Word)
      requires Valid()
      modifies shifter
      ensures Valid()
      ensures r == ZeroImage(reg, offset, old(shifter.leftAmt), old(shifter.rightAmt))
      ensures shifter.State() == old(shifter.State()).(
        leftAmt := ZeroAmounts(offset, old(shifter.leftAmt), old(shifter.rightAmt)).0,
        rightAmt := ZeroAmounts(offset, old(shifter.leftAmt), old(shifter.rightAmt)).1)
      ensures old(Anchored()) ==> Anchored()
    {
      r := shifter.RotateToZero(reg, this);
    }
  }

  /**
   * As written, `lengthMINUS` leaves the next offset unreduced: seven
   * forward steps from the start leave offset 6 and next offset 7;
   * shortening to 7 keeps both, and the following step commits offset 7,
   * equal to the length.
   */
  method OffsetEscapesAfterShortening() returns (offset: int, len: int)
    ensures offset == 7 && len == 7
  {
    var t := new TransportParams();
    var k := 0;
    while k < 7
      invariant 0 <= k <= 7 && t.Valid()
      invariant t.lengthIdx == INITIAL_LENGTH_IDX && !t.resetPending
      invariant t.shifter.next == k && t.offset == (if k == 0 then 0 else k - 1)
    {
      t.PreIterate(1, false);
      k := k + 1;
    }
    t.LengthMinus();
    t.PreIterate(1, false);
    offset := t.offset;
    len := t.Length();
  }
}
