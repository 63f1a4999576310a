/**
 * The older, self-contained shift register declared in
 * include/TuringRegister.h: a 16-bit register with a variable length of
 * 2 .. 32 steps that feeds its end bit back through `Casino::coinToss`.
 *
 * The button reads, the voltage read and the random draw of each toss are
 * inputs, one `TossInputs` per step.
 */
module Legacy {
  import opened Bits
  import opened Stoch

  /** One toss's inputs: the two toggle buttons held or not, the voltage (mV) and `random(0, 3135)`. */
  datatype TossInputs = TossInputs(upHeld: bool, downHeld: bool, millivolts: int, draw: int)

  /** `Casino::coinToss`: the toggles decide when active, otherwise the same three bands as the newer toss. */
  function CoinToss(togglesActive: bool, startVal: bool, t: TossInputs): (b: bool)
    ensures togglesActive && t.upHeld ==> b
    ensures togglesActive && !t.upHeld && t.downHeld ==> !b
    ensures !(togglesActive && (t.upHeld || t.downHeld)) ==>
      (b == if t.millivolts > THRESH_HIGH then startVal
            else if t.millivolts < THRESH_LOW then !startVal
            else if t.draw > t.millivolts then !startVal
            else startVal)
  {
    if togglesActive && t.upHeld then true
    else if togglesActive && t.downHeld then false
    else if t.millivolts > THRESH_HIGH then startVal
    else if t.millivolts < THRESH_LOW then !startVal
    else if t.draw > t.millivolts then !startVal
    else startVal
  }

  /**
   * With the toggles inactive (they always are: nothing sets
   * `togglesActive`), the legacy toss is the newer `stochasticize` with
   * its CV input low, and the buttons play no part.
   */
  lemma CoinTossIsStochasticizeWithGateLow(startVal: bool, t: TossInputs, cv: int)
    requires cv <= CV_GATE
    ensures CoinToss(false, startVal, t) == Stochasticize(startVal, Readings(t.millivolts, cv, t.draw))
    ensures CoinToss(false, startVal, t) == CoinToss(false, startVal, t.(upHeld := false, downHeld := false))
  {
  }

  /**
   * How many times the loop of `iterate(steps)` runs. A non-positive
   * count is negated in an `int8_t`, so -128 stays -128 and the loop
   * never runs.
   */
  function StepCount(steps: int): (n: nat)
    requires -128 <= steps < 128
    ensures steps > 0 ==> n == steps
    ensures -128 < steps <= 0 ==> n == -steps
    ensures steps == -128 ==> n == 0
  {
    if steps > 0 then steps
    else if Int8(-steps) > 0 then Int8(-steps) else 0
  }

  /**
   * One pass of the loop in `iterate`: forward shifts left and writes the
   * toss of bit `len - 1` into bit 0; backward shifts right and writes the
   * toss of bit 0 into bit `len - 1` (lost when that is beyond bit 15).
   */
  function LegacyStep(reg: Word, len: int, forward: bool, active: bool, t: TossInputs): Word
    requires 2 <= len <= 32
  {
    if forward then Write(Shl(reg, 1), 0, CoinToss(active, Read(reg, len - 1), t))
    else Write(Shr(reg, 1), len - 1, CoinToss(active, Read(reg, 0), t))
  }

  /** The register after one loop pass per toss. */
  function LegacyRun(reg: Word, len: int, forward: bool, active: bool, tosses: seq<TossInputs>): Word
    requires 2 <= len <= 32
  {
    if |tosses| == 0 then reg
    else LegacyStep(LegacyRun(reg, len, forward, active, tosses[..|tosses| - 1]), len, forward, active, tosses[|tosses| - 1])
  }

  /** One more toss is one more step. */
  lemma LegacyRunSnoc(reg: Word, len: int, forward: bool, active: bool, tosses: seq<TossInputs>, n: nat)
    requires 2 <= len <= 32 && n < |tosses|
    ensures LegacyRun(reg, len, forward, active, tosses[..n + 1])
      == LegacyStep(LegacyRun(reg, len, forward, active, tosses[..n]), len, forward, active, tosses[n])
  {
    assert tosses[..n + 1][..n] == tosses[..n];
  }

  /** A forward step: bits 1 .. 15 are the old bits 0 .. 14 and bit 0 is the toss of bit len - 1. */
  lemma ForwardStepBits(reg: Word, len: int, active: bool, t: TossInputs)
    requires 2 <= len <= 32
    ensures var r := LegacyStep(reg, len, true, active, t);
      && r[0] == CoinToss(active, if len <= 16 then reg[len - 1] else false, t)
      && r[1..] == reg[..15]
  {
    var r := LegacyStep(reg, len, true, active, t);
    assert forall i :: 0 <= i < 15 ==> r[1..][i] == r[i + 1];
  }

  /**
   * A backward step: bits below len - 1 are the old bits above them, and
   * bit len - 1 is the toss of bit 0 when it exists in the register.
   */
  lemma BackwardStepBits(reg: Word, len: int, active: bool, t: TossInputs)
    requires 2 <= len <= 32
    ensures var r := LegacyStep(reg, len, false, active, t);
      && (forall i :: 0 <= i < 16 && i != len - 1 ==> r[i] == (i < 15 && reg[i + 1]))
      && (len <= 16 ==> r[len - 1] == CoinToss(active, reg[0], t))
  {
  }

  /** A toss that, with the toggles inactive, keeps its bit: the voltage is above the high threshold. */
  predicate Keeps(t: TossInputs)
  {
    t.millivolts > THRESH_HIGH
  }

  /**
   * With every toss keeping its bit, going forward the low `len` bits
   * rotate: after n <= len steps bit i holds what bit (i - n) mod len held.
   */
  lemma {:induction false} ForwardWindowRotates(reg: Word, len: int, tosses: seq<TossInputs>, i: int)
    requires 2 <= len <= 16 && |tosses| <= len && 0 <= i < len
    requires forall k :: 0 <= k < |tosses| ==> Keeps(tosses[k])
    ensures LegacyRun(reg, len, true, false, tosses)[i] == reg[if i >= |tosses| then i - |tosses| else i - |tosses| + len]
    decreases |tosses|
  {
    var n := |tosses|;
    if n > 0 {
      if i == 0 {
        ForwardWindowRotates(reg, len, tosses[..n - 1], len - 1);
      } else {
        ForwardWindowRotates(reg, len, tosses[..n - 1], i - 1);
      }
    }
  }

  /** Hence, with keeping tosses, `len` forward steps bring the low `len` bits back. */
  lemma ForwardLoopRepeats(reg: Word, len: int, tosses: seq<TossInputs>)
    requires 2 <= len <= 16 && |tosses| == len
    requires forall k :: 0 <= k < |tosses| ==> Keeps(tosses[k])
    ensures LegacyRun(reg, len, true, false, tosses)[..len] == reg[..len]
  {
    forall i | 0 <= i < len
      ensures LegacyRun(reg, len, true, false, tosses)[i] == reg[i]
    {
      ForwardWindowRotates(reg, len, tosses, i);
    }
  }

  /**
   * Going backward with keeping tosses the low `len` bits rotate the
   * other way: after n <= len steps bit i holds what bit (i + n) mod len held.
   */
  lemma {:induction false} BackwardWindowRotates(reg: Word, len: int, tosses: seq<TossInputs>, i: int)
    requires 2 <= len <= 16 && |tosses| <= len && 0 <= i < len
    requires forall k :: 0 <= k < |tosses| ==> Keeps(tosses[k])
    ensures LegacyRun(reg, len, false, false, tosses)[i] == reg[if i + |tosses| < len then i + |tosses| else i + |tosses| - len]
    decreases |tosses|
  {
    var n := |tosses|;
    if n > 0 {
      if i == len - 1 {
        BackwardWindowRotates(reg, len, tosses[..n - 1], 0);
      } else {
        BackwardWindowRotates(reg, len, tosses[..n - 1], i + 1);
      }
    }
  }

  /** Hence, with keeping tosses, `len` backward steps bring the low `len` bits back. */
  lemma BackwardLoopRepeats(reg: Word, len: int, tosses: seq<TossInputs>)
    requires 2 <= len <= 16 && |tosses| == len
    requires forall k :: 0 <= k < |tosses| ==> Keeps(tosses[k])
    ensures LegacyRun(reg, len, false, false, tosses)[..len] == reg[..len]
  {
    forall i | 0 <= i < len
      ensures LegacyRun(reg, len, false, false, tosses)[i] == reg[i]
    {
      BackwardWindowRotates(reg, len, tosses, i);
    }
  }

  /**
   * The body of the loop in `iterate`: toss the tap bit, shift by the
   * direction's amount and write the tossed bit.
   */
  method ShiftOnce(reg: Word, len: int, forward: bool, readIndex: int, writeIndex: int,
                   leftAmt: nat, rightAmt: nat, active: bool, t: TossInputs) returns (r: Word)
    requires 2 <= len <= 32
    requires forward ==> readIndex == len - 1 && writeIndex == 0 && leftAmt == 1 && rightAmt == 0
    requires !forward ==> readIndex == 0 && writeIndex == len - 1 && leftAmt == 0 && rightAmt == 1
    ensures r == LegacyStep(reg, len, forward, active, t)
  {
    var nextBit := Read(reg, readIndex);
    nextBit := CoinToss(active, nextBit, t);
    if leftAmt != 0 {
      r := Shl(reg, leftAmt);
    } else {
      r := Shr(reg, rightAmt);
    }
    r := Write(r, writeIndex, nextBit);
  }

  /** One pass of the loop, stated against the run of the tosses so far. */
  method Advance(ghost start: Word, reg: Word, len: int, forward: bool, readIndex: int, writeIndex: int,
                 leftAmt: nat, rightAmt: nat, active: bool, tosses: seq<TossInputs>, n: nat) returns (r: Word)
    requires 2 <= len <= 32 && n < |tosses|
    requires forward ==> readIndex == len - 1 && writeIndex == 0 && leftAmt == 1 && rightAmt == 0
    requires !forward ==> readIndex == 0 && writeIndex == len - 1 && leftAmt == 0 && rightAmt == 1
    requires reg == LegacyRun(start, len, forward, active, tosses[..n])
    ensures r == LegacyRun(start, len, forward, active, tosses[..n + 1])
  {
    r := ShiftOnce(reg, len, forward, readIndex, writeIndex, leftAmt, rightAmt, active, tosses[n]);
    LegacyRunSnoc(start, len, forward, active, tosses, n);
  }

  /** The toss state of the register. */
  class Casino {
    var togglesActive: bool

    /** The thresholds are the constants THRESH_LOW and THRESH_HIGH; the toggles start inactive. */
    constructor ()
      ensures !togglesActive
    {
      togglesActive := false;
    }
  }

  class LegacyRegister {
    var length: int
    var programCounter: int
    var startingStep: int
    var offset: int
    var shiftReg: Word
    const casino: Casino

    /** The length is a step count the register accepts. */
    ghost predicate Valid()
      reads this
    {
      2 <= length <= 32
    }

    /** Length 8, an empty register and inactive toggles. */
    constructor ()
      ensures Valid() && length == 8 && shiftReg == Zeros(16)
      ensures programCounter == 0 && startingStep == 0 && offset == 0
      ensures fresh(casino) && !casino.togglesActive
    {
      length := 8;
      programCounter := 0;
      startingStep := 0;
      offset := 0;
      shiftReg := Zeros(16);
      casino := new Casino();
    }

    /** `setLength`: a uint8 step count, accepted only in 2 .. 32. */
    method SetLength(steps: int)
      requires 0 <= steps < 256
      modifies this
      ensures Valid() <== old(Valid())
      ensures length == if 2 <= steps <= 32 then steps else old(length)
      ensures shiftReg == old(shiftReg)
      ensures programCounter == old(programCounter) && startingStep == old(startingStep) && offset == old(offset)
    {
      if steps < 2 || steps > 32 {
        return;
      }
      length := steps;
    }

    /**
     * `iterate(steps)` (the C++ default is -1): `StepCount(steps)` loop
     * passes, forward when steps > 0 and backward otherwise, one toss each.
     */
    method Iterate(steps: int, tosses: seq<TossInputs>)
      requires Valid() && -128 <= steps < 128 && |tosses| >= StepCount(steps)
      modifies this
      ensures Valid() && length == old(length)
      ensures shiftReg == LegacyRun(old(shiftReg), length, steps > 0, casino.togglesActive, tosses[..StepCount(steps)])
      ensures programCounter == old(programCounter) && startingStep == old(startingStep) && offset == old(offset)
    {
      var lastBitIndex := length - 1;
      var readIndex: int, writeIndex: int, leftAmt: nat, rightAmt: nat;
      var count := steps;
      if count > 0 {
        readIndex, writeIndex, leftAmt, rightAmt := lastBitIndex, 0, 1, 0;
      } else {
        count := Int8(-count);
        readIndex, writeIndex, leftAmt, rightAmt := 0, lastBitIndex, 0, 1;
      }
      var active := casino.togglesActive;
      var reg := shiftReg;
      var st := 0;
      while st < count
        invariant shiftReg == old(shiftReg) && length == old(length)
        invariant programCounter == old(programCounter) && startingStep == old(startingStep) && offset == old(offset)
        invariant 0 <= st <= StepCount(steps)
        invariant count == StepCount(steps) || (count <= 0 && StepCount(steps) == 0)
        invariant steps > 0 ==> readIndex == length - 1 && writeIndex == 0 && leftAmt == 1 && rightAmt == 0
        invariant steps <= 0 ==> readIndex == 0 && writeIndex == length - 1 && leftAmt == 0 && rightAmt == 1
        invariant reg == LegacyRun(shiftReg, length, steps > 0, active, tosses[..st])
      {
        reg := Advance(shiftReg, reg, length, steps > 0, readIndex, writeIndex, leftAmt, rightAmt,
                       active, tosses, st);
        st := st + 1;
      }
      shiftReg := reg;
    }

    /** `iterate(0)` and `iterate(-128)` leave the register alone. */
    method IterateZeroIsNoOp(steps: int, tosses: seq<TossInputs>)
      requires Valid() && (steps == 0 || steps == -128)
      modifies this
      ensures shiftReg == old(shiftReg) && length == old(length)
    {
      Iterate(steps, tosses);
    }

    /** `getOutput`: the byte that shares its storage with the low byte of the register. */
    function GetOutput(): (out: Byte)
      reads this
      ensures Value(out) == Value(shiftReg) % 256
      ensures out == shiftReg[..8]
    {
      LowBitsValue(shiftReg, 8);
      shiftReg[..8]
    }

    /** `jam`: the register takes the given value; nothing else changes. */
    method Jam(jamVal: Word)
      modifies this
      ensures shiftReg == jamVal
      ensures length == old(length) && offset == old(offset)
      ensures programCounter == old(programCounter) && startingStep == old(startingStep)
    {
      shiftReg := jamVal;
    }
  }
}
