/**
 * `expandVoltages` (src/hwio.cpp): the eight fader readings are split by
 * the pattern byte into four note voltages: the faders under set bits,
 * the faders under clear bits, their distance, and a copy of the first
 * that only follows it while bit 0 is set. The internal DAC gets the
 * complement of the pattern.
 *
 * The fader readings are inputs and the DAC values are results; the DAC
 * writes themselves are hardware output.
 */
module HwIo {
  import opened Bits

  const NUM_FADERS: int := 8
  /** Sums are kept in `uint16_t`. */
  const U16: int := 65536

  /** The sum of the first n fader values whose pattern bit equals `bit`. */
  function SumWhere(vals: seq<int>, reg: Byte, bit: bool, n: nat): int
    requires n <= |vals| && n <= 8
  {
    if n == 0 then 0
    else SumWhere(vals, reg, bit, n - 1) + (if reg[n - 1] == bit then vals[n - 1] else 0)
  }

  /** The sum of the first n fader values. */
  function Total(vals: seq<int>, n: nat): int
    requires n <= |vals|
  {
    if n == 0 then 0 else Total(vals, n - 1) + vals[n - 1]
  }

  /** Every fader goes to exactly one of the two sums. */
  lemma {:induction false} PartitionSums(vals: seq<int>, reg: Byte, n: nat)
    requires n <= |vals| && n <= 8
    ensures SumWhere(vals, reg, true, n) + SumWhere(vals, reg, false, n) == Total(vals, n)
  {
    if n > 0 {
      PartitionSums(vals, reg, n - 1);
    }
  }

  /** Reducing a summand modulo m does not change the sum modulo m. */
  lemma ModAdd(a: int, b: int, m: int)
    requires m > 0
    ensures (a % m + b) % m == (a + b) % m
  {
    var x := a % m + b;
    assert a + b == m * (a / m) + x;
    assert m * (a / m) + x == m * (a / m + x / m) + x % m;
    DivModUnique(a + b, m, a / m + x / m, x % m);
  }

  /** The 16-bit sums together still add up to the total, modulo 2^16. */
  lemma WrappedPartition(vals: seq<int>, reg: Byte)
    requires |vals| == 8
    ensures (SumWhere(vals, reg, true, 8) % U16 + SumWhere(vals, reg, false, 8) % U16) % U16 == Total(vals, 8) % U16
  {
    var a := SumWhere(vals, reg, true, 8);
    var b := SumWhere(vals, reg, false, 8);
    PartitionSums(vals, reg, 8);
    ModAdd(a, b % U16, U16);
    ModAdd(b, a, U16);
  }

  function Abs(x: int): int
  {
    if x < 0 then -x else x
  }

  /** The loop of `expandVoltages`: both sums, accumulated in `uint16_t`. */
  method SplitSums(shiftReg: Byte, faderVals: seq<int>) returns (n0: int, n1: int)
    requires |faderVals| == NUM_FADERS
    ensures n0 == SumWhere(faderVals, shiftReg, true, 8) % U16
    ensures n1 == SumWhere(faderVals, shiftReg, false, 8) % U16
  {
    n0 := 0;
    n1 := 0;
    var ch := 0;
    while ch < NUM_FADERS
      invariant 0 <= ch <= NUM_FADERS
      invariant n0 == SumWhere(faderVals, shiftReg, true, ch) % U16
      invariant n1 == SumWhere(faderVals, shiftReg, false, ch) % U16
    {
      if Read(shiftReg, ch) {
        ModAdd(SumWhere(faderVals, shiftReg, true, ch), faderVals[ch], U16);
        n0 := (n0 + faderVals[ch]) % U16;
      } else {
        ModAdd(SumWhere(faderVals, shiftReg, false, ch), faderVals[ch], U16);
        n1 := (n1 + faderVals[ch]) % U16;
      }
      ch := ch + 1;
    }
  }

  /** The state `expandVoltages` keeps between calls: the static `lastCV_D`, set on the first call. */
  class VoltageExpander {
    var started: bool
    var lastCV_D: int

    ghost predicate Valid()
      reads this
    {
      started ==> 0 <= lastCV_D < U16
    }

    constructor ()
      ensures Valid() && !started
    {
      started := false;
      lastCV_D := 0;
    }

    /**
     * `expandVoltages(shiftReg)`: note 0 sums the faders under set bits,
     * note 1 the rest (each modulo 2^16), note 2 is their distance, note
     * 3 the latch, which takes note 0 on the first call and whenever bit
     * 0 is set. The internal DAC byte is the complement of the pattern.
     */
    method ExpandVoltages(shiftReg: Byte, faderVals: seq<int>) returns (noteVals: seq<int>, writeVal8: Byte)
      requires Valid() && |faderVals| == NUM_FADERS
      modifies this
      ensures Valid()
      ensures |noteVals| == 4 && forall k :: 0 <= k < 4 ==> 0 <= noteVals[k] < U16
      ensures noteVals[0] == SumWhere(faderVals, shiftReg, true, 8) % U16
      ensures noteVals[1] == SumWhere(faderVals, shiftReg, false, 8) % U16
      ensures (noteVals[0] + noteVals[1]) % U16 == Total(faderVals, 8) % U16
      ensures noteVals[2] == Abs(noteVals[0] - noteVals[1])
      ensures started && lastCV_D == (if !old(started) || shiftReg[0] then noteVals[0] else old(lastCV_D))
      ensures noteVals[3] == lastCV_D
      ensures writeVal8 == Not(shiftReg)
    {
      var n0, n1 := SplitSums(shiftReg, faderVals);
      WrappedPartition(faderVals, shiftReg);
      var n2 := if n0 > n1 then n0 - n1 else n1 - n0;
      if !started {
        started := true;
        lastCV_D := n0;
      }
      if Read(shiftReg, 0) {
        lastCV_D := n0;
      }
      noteVals := [n0, n1, n2, lastCV_D];
      writeVal8 := Not(shiftReg);
    }
  }
}
