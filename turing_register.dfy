/**
 * The sequencer's shift register (`TuringRegister`): a 16-bit working
 * register, an 8-slot bank of stored patterns and the transport that
 * steps through them, plus the pattern utilities `norm`, `markov`,
 * `pulseIt` and the drunken walk.
 *
 * The outputs driven after each step (voltages, trigger and LED clocks,
 * the fader bank switch and save) are hardware writes and are not part of
 * the model; the coin-toss inputs of a step are parameters.
 */
module Turing {
  import opened Bits
  import opened Stoch
  import opened Transport

  const NUM_PATTERNS: int := 8

  // ---------------------------------------------------------------------
  // norm

  /** The pattern `norm` builds: bit i is bit (i mod len) of reg. */
  function Normalized(reg: Word, len: int): Word
    requires len >= 1
  {
    seq(16, i requires 0 <= i < 16 => reg[i % len])
  }

  lemma ModDown(i: int, len: int)
    requires len >= 1 && i >= len
    ensures (i - len) % len == i % len
  {
    ModAddModulus(i - len, len);
  }

  /** `w` repeats with period `len`. */
  ghost predicate Periodic(w: Word, len: int)
  {
    0 <= len && forall j :: len <= j < 16 ==> w[j] == w[j - len]
  }

  /** The inner loop of `norm`: ORs the low `len` bits of reg into ret, one bit at a time. */
  method OrLowBits(ret: Word, reg: Word, len: int) returns (r: Word)
    requires 0 <= len
    ensures forall i :: 0 <= i < 16 ==> r[i] == (ret[i] || (i < len && reg[i]))
  {
    r := ret;
    var idx := 0;
    while idx < len
      invariant 0 <= idx <= len
      invariant forall i :: 0 <= i < 16 ==> r[i] == (ret[i] || (i < idx && reg[i]))
    {
      r := Or(r, And(reg, Mask(16, idx)));
      idx := idx + 1;
    }
  }

  /** After the inner loop: bit i is reg[i % len] for every i below absIdx + len. */
  lemma NormRound(reg: Word, len: int, absIdx: int, before: Word, after: Word)
    requires 1 <= len && 0 <= absIdx
    requires forall i :: 0 <= i < 16 ==> before[i] == (len <= i < absIdx + len && reg[i % len])
    requires forall i :: 0 <= i < 16 ==> after[i] == (before[i] || (i < len && reg[i]))
    ensures forall i :: 0 <= i < 16 ==> after[i] == (i < absIdx + len && reg[i % len])
  {
    forall i | 0 <= i < 16 && i < len
      ensures i % len == i
    {
      DivModUnique(i, len, 0, i);
    }
  }

  /** After the shift: the bits found so far move up by len and the low len bits are clear. */
  lemma NormShift(reg: Word, len: int, absIdx: int, before: Word)
    requires 1 <= len && 0 <= absIdx
    requires forall i :: 0 <= i < 16 ==> before[i] == (i < absIdx && reg[i % len])
    ensures forall i :: 0 <= i < 16 ==> Shl(before, len)[i] == (len <= i < absIdx + len && reg[i % len])
  {
    forall i | 0 <= i < 16 && i >= len
      ensures (i - len) % len == i % len
    {
      ModDown(i, len);
    }
  }

  /**
   * `norm`: copies the low `len` bits of reg upward until all 16 bits are
   * filled. It never terminates for `len` 0, and shifts by 32 or more are
   * undefined in C++, so `len` must lie in 1 .. 31.
   */
  method Norm(reg: Word, len: int) returns (ret: Word)
    requires 1 <= len < 32
    ensures ret == Normalized(reg, len)
  {
    ret := Zeros(16);
    var absIdx := 0;
    while true
      invariant 0 <= absIdx < 16
      invariant forall i :: 0 <= i < 16 ==> ret[i] == (len <= i < absIdx + len && reg[i % len])
      decreases 16 - absIdx
    {
      ghost var before := ret;
      ret := OrLowBits(ret, reg, len);
      NormRound(reg, len, absIdx, before, ret);
      absIdx := absIdx + len;
      if absIdx >= 16 {
        break;
      }
      NormShift(reg, len, absIdx, ret);
      ret := Shl(ret, len);
    }
  }

  /** The low `len` bits come back unchanged. */
  lemma NormalizedKeepsLowBits(reg: Word, len: int)
    requires 1 <= len <= 16
    ensures Normalized(reg, len)[..len] == reg[..len]
  {
    forall i | 0 <= i < len
      ensures Normalized(reg, len)[i] == reg[i]
    {
      DivModUnique(i, len, 0, i);
    }
  }

  /** Normalising twice is normalising once. */
  lemma NormalizedIdempotent(reg: Word, len: int)
    requires 1 <= len
    ensures Normalized(Normalized(reg, len), len) == Normalized(reg, len)
  {
    var once := Normalized(reg, len);
    forall i | 0 <= i < 16
      ensures Normalized(once, len)[i] == once[i]
    {
      var j := i % len;
      DivModUnique(j, len, 0, j);
      assert Normalized(once, len)[i] == once[j];
      assert once[j] == reg[j];
    }
  }

  /** The result repeats with period `len`. */
  lemma NormalizedIsPeriodic(reg: Word, len: int)
    requires 1 <= len
    ensures Periodic(Normalized(reg, len), len)
  {
    forall j | len <= j < 16
      ensures Normalized(reg, len)[j] == Normalized(reg, len)[j - len]
    {
      ModDown(j, len);
    }
  }

  /**
   * `norm` is the only register that agrees with reg on its low `len`
   * bits and repeats with period `len`.
   */
  lemma NormalizedUnique(reg: Word, len: int, w: Word)
    requires 1 <= len <= 16
    requires w[..len] == reg[..len]
    requires Periodic(w, len)
    ensures w == Normalized(reg, len)
  {
    forall i | 0 <= i < 16
      ensures w[i] == reg[i % len]
    {
      AgreesBelow(reg, len, w, i);
    }
  }

  lemma {:induction false} AgreesBelow(reg: Word, len: int, w: Word, i: int)
    requires 1 <= len <= 16 && 0 <= i < 16
    requires w[..len] == reg[..len]
    requires Periodic(w, len)
    ensures w[i] == reg[i % len]
    decreases i
  {
    if i < len {
      DivModUnique(i, len, 0, i);
      assert w[..len][i] == reg[..len][i];
    } else {
      AgreesBelow(reg, len, w, i - len);
      ModDown(i, len);
    }
  }

  // ---------------------------------------------------------------------
  // markov and pulseIt

  /** The multipliers `markov` applies to the seed, one per output bit. */
  const BLOOPS: seq<nat> := [2, 3, 5, 7, 11, 13, 17, 23]

  /**
   * Bit n of `markov(seed)`, stated on numbers: the product of the seed
   * and the n-th multiplier has bit n or bit n + 8 set.
   */
  predicate MarkovBit(seed: nat, n: nat)
    requires n < 8
  {
    var v := seed * BLOOPS[n];
    (v / Pow2(n)) % 2 == 1 || (v / Pow2(n + 8)) % 2 == 1
  }

  /** The byte whose bit n is `MarkovBit(seed, n)`. */
  function MarkovOf(seed: nat): Byte
  {
    seq(8, n requires 0 <= n < 8 => MarkovBit(seed, n))
  }

  /**
   * `markov`: writes bit n of the result from bits n and n + 8 of the
   * 16-bit product of the seed and the n-th multiplier.
   */
  method Markov(seed: Byte) returns (ret: Byte)
    ensures ret == MarkovOf(Value(seed))
  {
    ret := Zeros(8);
    var n := 0;
    while n < 8
      invariant 0 <= n <= 8
      invariant forall k :: 0 <= k < n ==> ret[k] == MarkovBit(Value(seed), k)
    {
      var val := FromNat(Value(seed) * BLOOPS[n], 16);
      ret := Write(ret, n, Read(val, n) || Read(val, n + 8));
      FromNatBit(Value(seed) * BLOOPS[n], 16, n);
      FromNatBit(Value(seed) * BLOOPS[n], 16, n + 8);
      n := n + 1;
    }
  }

  /**
   * The lowest output bit copies the top bit of the seed: the first
   * multiplier is 2, so bit 0 of the product is always clear and bit 8
   * is seed bit 7.
   */
  lemma MarkovLowBitIsTopSeedBit(seed: Byte)
    ensures MarkovOf(Value(seed))[0] == ((Value(seed) / 128) % 2 == 1)
  {
    var x := Value(seed);
    ValueBound(seed);
    assert Pow2(8) == 256;
    var v := x * BLOOPS[0];
    assert v == 2 * x;
    DivModUnique(v, 2, x, 0);
    DivModUnique(v, 256, x / 128, 2 * (x % 128));
  }

  /**
   * The 16-bit product in `markov` never truncates: 255 * 23 < 2^16, so
   * the bits it reads are bits of the true product.
   */
  lemma MarkovProductFits(seed: Byte, n: nat)
    requires n < 8
    ensures Value(seed) * BLOOPS[n] < Pow2(16)
  {
    ValueBound(seed);
    assert Pow2(8) == 256;
    assert Pow2(16) == 65536;
  }

  /** The byte with only bit k set, and only when v holds. */
  function BitAt(v: bool, k: nat): Byte
  {
    seq(8, i requires 0 <= i < 8 => i == k && v)
  }

  /** The `x & BIT0` term of `pulseIt`: bit 0 alone. */
  method LowBitTerm(x: Byte) returns (t: Byte)
    ensures t == BitAt(x[0], 0)
  {
    t := And(x, Mask(8, 0));
    assert forall i :: 0 <= i < 8 ==> t[i] == BitAt(x[0], 0)[i];
  }

  /** The `(~x << 1) & BIT1` term of `pulseIt`: bit 1 alone, set to the complement of x0. */
  method ComplementTerm(x: Byte) returns (t: Byte)
    ensures t == BitAt(!x[0], 1)
  {
    t := And(Shl(Not(x), 1), Mask(8, 1));
    assert forall i :: 0 <= i < 8 ==> t[i] == BitAt(!x[0], 1)[i];
  }

  /** A `((((x & BITa) >> a) & ((x & BITb) >> b)) << k) & BITk` term of `pulseIt`: bit k alone, set to xa & xb. */
  method AndTerm(x: Byte, a: nat, b: nat, k: nat) returns (t: Byte)
    requires a < 8 && b < 8 && k < 8
    ensures t == BitAt(x[a] && x[b], k)
  {
    t := And(Shl(And(Shr(And(x, Mask(8, a)), a), Shr(And(x, Mask(8, b)), b)), k), Mask(8, k));
    assert forall i :: 0 <= i < 8 ==> t[i] == BitAt(x[a] && x[b], k)[i];
  }

  /**
   * A `(((x & BITa) >> a) ^ ((x & BITb) >> b) << k) & BITk` term of
   * `pulseIt`, k >= 1: the left operand of `^` lives in bit 0 and is
   * masked away, so the term is bit k alone, set to xb.
   */
  method XorTerm(x: Byte, a: nat, b: nat, k: nat) returns (t: Byte)
    requires a < 8 && b < 8 && 1 <= k < 8
    ensures t == BitAt(x[b], k)
  {
    t := And(Xor(Shr(And(x, Mask(8, a)), a), Shl(Shr(And(x, Mask(8, b)), b), k)), Mask(8, k));
    assert forall i :: 0 <= i < 8 ==> t[i] == BitAt(x[b], k)[i];
  }

  /** ORing in a one-bit term sets that bit of a byte where it was clear. */
  lemma OrBitAt(w: Byte, v: bool, k: nat)
    requires k < 8 && !w[k]
    ensures Or(w, BitAt(v, k)) == w[k := v]
  {
    assert forall i :: 0 <= i < 8 ==> Or(w, BitAt(v, k))[i] == w[k := v][i];
  }

  /** The first four terms of `pulseIt`, ORed together, fill bits 0 .. 3 and leave 4 .. 7 clear. */
  lemma PulseLow(r0: bool, a: bool, b: bool)
    ensures Or(Or(Or(BitAt(r0, 0), BitAt(!r0, 1)), BitAt(a, 2)), BitAt(b, 3))
            == [r0, !r0, a, b, false, false, false, false]
  {
    var o0: Byte := BitAt(r0, 0);
    assert o0 == [r0, false, false, false, false, false, false, false];
    OrBitAt(o0, !r0, 1);
    OrBitAt(o0[1 := !r0], a, 2);
    OrBitAt(o0[1 := !r0][2 := a], b, 3);
  }

  /** The last four terms of `pulseIt` fill bits 4 .. 7, which the first four left clear. */
  lemma PulseHigh(r0: bool, a: bool, b: bool, c: bool, d: bool, e: bool, f: bool)
    ensures Or(Or(Or(Or([r0, !r0, a, b, false, false, false, false], BitAt(c, 4)), BitAt(d, 5)), BitAt(e, 6)), BitAt(f, 7))
            == [r0, !r0, a, b, c, d, e, f]
  {
    var w: Byte := [r0, !r0, a, b, false, false, false, false];
    OrBitAt(w, c, 4);
    w := w[4 := c];
    OrBitAt(w, d, 5);
    w := w[5 := d];
    OrBitAt(w, e, 6);
    w := w[6 := e];
    OrBitAt(w, f, 7);
    w := w[7 := f];
    assert w == [r0, !r0, a, b, c, d, e, f];
  }

  // ---------------------------------------------------------------------
  // The register object

  /** The bank's initial contents: slot k has every bit set except bit k. */
  function InitialBank(): seq<Word>
  {
    seq(8, k requires 0 <= k < 8 => Not(Mask(16, k)))
  }

  /** The eight initial patterns are pairwise different, each silent on exactly its own step. */
  lemma InitialBankDistinct(j: int, k: int)
    requires 0 <= j < 8 && 0 <= k < 8
    ensures !InitialBank()[k][k]
    ensures forall i :: 0 <= i < 16 && i != k ==> InitialBank()[k][i]
    ensures j != k ==> InitialBank()[j] != InitialBank()[k]
  {
    if j != k {
      assert InitialBank()[j][k] != InitialBank()[k][k];
    }
  }

  /** The step a drunken walk takes for `random(101)` = draw and `random(2)` = backward. */
  function DrunkStep(draw: int, backward: bool): int
  {
    var magnitude := if draw > 90 then 3 else if draw > 70 then 2 else 1;
    if backward then -magnitude else magnitude
  }

  class TuringRegister {
    var workingRegister: Word
    const registersBank: array<Word>
    const transport: TransportParams
    const stoch: Stochasticizer

    /** The bank has eight slots, the transport is valid, and the staged and current slots index the bank. */
    ghost predicate Valid()
      reads this, transport, transport.shifter
    {
      registersBank.Length == NUM_PATTERNS
      && transport.Valid()
      && 0 <= transport.nextPattern < NUM_PATTERNS
      && 0 <= transport.currentBankIdx < NUM_PATTERNS
    }

    /** Bank slot k holds `~(1 << k)`; the working register starts as slot 0. */
    constructor (s: Stochasticizer)
      ensures Valid() && transport.Anchored()
      ensures fresh(registersBank) && fresh(transport) && fresh(transport.shifter)
      ensures registersBank[..] == InitialBank()
      ensures workingRegister == InitialBank()[0]
      ensures stoch == s
      ensures transport.State() == TransportState(false, 0, false, 0, false, 0, false, false, 0, INITIAL_LENGTH_IDX)
      ensures transport.shifter.State() == ShiftState(0, 0, 0, 0, 0, false)
    {
      var bank := new Word[8](_ => Zeros(16));
      var bk := 0;
      while bk < 8
        invariant 0 <= bk <= 8
        invariant forall k :: 0 <= k < bk ==> bank[k] == Not(Mask(16, k))
      {
        bank[bk] := Not(Mask(16, bk));
        bk := bk + 1;
      }
      registersBank := bank;
      transport := new TransportParams();
      stoch := s;
      workingRegister := bank[0];
    }

    /** `getOutput`: the low byte, the unsigned value of the register modulo 256. */
    function GetOutput(): (out: Byte)
      reads this
      ensures Value(out) == Value(workingRegister) % 256
    {
      LowBitsValue(workingRegister, 8);
      workingRegister[..8]
    }

    /** `setBit` raises the forced-set flag and drops the forced-clear one. */
    method SetBit()
      modifies stoch
      ensures stoch.bitSetPending && !stoch.bitClearPending
    {
      stoch.bitSetPending := true;
      stoch.bitClearPending := false;
    }

    /** `clearBit` raises the forced-clear flag and drops the forced-set one. */
    method ClearBit()
      modifies stoch
      ensures stoch.bitClearPending && !stoch.bitSetPending
    {
      stoch.bitClearPending := true;
      stoch.bitSetPending := false;
    }

    /**
     * `iterate`: commits the step, loads the staged slot first if this is
     * the downbeat, then steps the register. The bank is never written,
     * and `newPatternLoaded_` is always false afterwards, so the fader
     * bank switch that tests it never happens.
     */
    method Iterate(steps: int, inPlace: bool, toss: Readings)
      requires Valid()
      modifies this, transport, transport.shifter
      ensures Valid()
      ensures var loaded := !inPlace && old(transport.newLoadPending) && old(transport.shifter.next) == 0;
        var consumed := old(transport.resetPending) && !inPlace;
        var committed := if inPlace then old(transport.offset) else old(transport.shifter.next);
        var base := if loaded then old(registersBank[transport.nextPattern]) else old(workingRegister);
        && transport.State() == old(transport.State()).(
             readyToLoad := false,
             offset := if consumed then 0 else committed,
             wasReset := false,
             resetPending := old(transport.resetPending) && !consumed,
             currentBankIdx := if loaded then old(transport.nextPattern) else old(transport.currentBankIdx),
             newLoadPending := old(transport.newLoadPending) && !loaded,
             newPatternLoaded := false)
        && transport.shifter.State() == ShiftFor(steps, transport.Length(), transport.offset, inPlace)
        && workingRegister == StepImage(base, transport.shifter.State(), toss)
      ensures registersBank[..] == old(registersBank[..])
      ensures old(transport.Anchored()) ==> transport.Anchored()
    {
      transport.PreIterate(steps, inPlace);
      if transport.readyToLoad {
        TRemBounds(transport.offset, transport.Length());
        workingRegister := transport.LoadPattern(registersBank);
      }
      workingRegister := transport.Iterate(workingRegister, toss);
    }

    /** `setNextPattern`: stages slot `loadSlot % 8`; the register and the bank are untouched. */
    method SetNextPattern(loadSlot: int)
      requires Valid() && 0 <= loadSlot < 256
      modifies transport
      ensures Valid()
      ensures transport.State() == old(transport.State()).(newLoadPending := true, nextPattern := loadSlot % NUM_PATTERNS)
      ensures workingRegister == old(workingRegister) && registersBank[..] == old(registersBank[..])
      ensures old(transport.Anchored()) ==> transport.Anchored()
    {
      transport.SetNextPattern(loadSlot % NUM_PATTERNS);
    }

    /** `rotateToZero`: the register rotated back to step 0 of the current offset. */
    method RotateToZero()
      requires Valid()
      modifies this, transport.shifter
      ensures Valid()
      ensures workingRegister == ZeroImage(old(workingRegister), transport.offset,
                                           old(transport.shifter.leftAmt), old(transport.shifter.rightAmt))
      ensures transport.shifter.State() == old(transport.shifter.State()).(
        leftAmt := ZeroAmounts(transport.offset, old(transport.shifter.leftAmt), old(transport.shifter.rightAmt)).0,
        rightAmt := ZeroAmounts(transport.offset, old(transport.shifter.leftAmt), old(transport.shifter.rightAmt)).1)
      ensures old(transport.Anchored()) ==> transport.Anchored()
    {
      workingRegister := transport.RotateToZero(workingRegister);
    }

    /**
     * `reset`: a staged load is applied at once and the offset set to 0;
     * then, unless a reset is already pending, the register is rotated to
     * step 0 and a reset is flagged. Afterwards a reset is pending and no
     * load is staged, so a second `reset` leaves the register alone.
     */
    method Reset()
      requires Valid()
      modifies this, transport, transport.shifter
      ensures Valid()
      ensures var loaded := old(transport.newLoadPending);
        var base := if loaded then old(registersBank[transport.nextPattern]) else old(workingRegister);
        var offset := if loaded then 0 else old(transport.offset);
        && transport.State() == old(transport.State()).(
             readyToLoad := if loaded then false else old(transport.readyToLoad),
             offset := offset,
             resetPending := true,
             currentBankIdx := if loaded then old(transport.nextPattern) else old(transport.currentBankIdx),
             newLoadPending := false,
             newPatternLoaded := loaded || old(transport.newPatternLoaded))
        && (old(transport.resetPending) ==>
              workingRegister == base && transport.shifter.State() == old(transport.shifter.State()))
        && (!old(transport.resetPending) ==>
              workingRegister == ZeroImage(base, offset, old(transport.shifter.leftAmt), old(transport.shifter.rightAmt))
              && transport.shifter.State() == old(transport.shifter.State()).(
                   leftAmt := ZeroAmounts(offset, old(transport.shifter.leftAmt), old(transport.shifter.rightAmt)).0,
                   rightAmt := ZeroAmounts(offset, old(transport.shifter.leftAmt), old(transport.shifter.rightAmt)).1))
      ensures transport.resetPending && !transport.newLoadPending
      ensures registersBank[..] == old(registersBank[..])
      ensures old(transport.Anchored()) ==> transport.Anchored()
    {
      if transport.newLoadPending {
        workingRegister := transport.LoadPattern(registersBank);
        transport.ReAnchor();
      }
      if transport.resetPending {
        return;
      }
      RotateToZero();
      transport.FlagForReset();
    }

    /**
     * `changeLen`: 0 does nothing, a positive amount lengthens by one
     * table entry and a negative one shortens by one (`lengthMINUS` as
     * written). The register and the bank are never touched.
     */
    method ChangeLen(amt: int)
      requires Valid()
      modifies transport
      ensures Valid()
      ensures amt == 0 ==> transport.State() == old(transport.State())
      ensures amt > 0 ==> (transport.State() ==
        if old(transport.lengthIdx) == |STEP_LENGTH_VALS| - 1 then old(transport.State())
        else old(transport.State()).(lengthIdx := old(transport.lengthIdx) + 1))
      ensures amt < 0 ==> (transport.State() ==
        if old(transport.lengthIdx) == 0 then old(transport.State())
        else old(transport.State()).(
          lengthIdx := old(transport.lengthIdx) - 1,
          offset := TRem(old(transport.offset), STEP_LENGTH_VALS[old(transport.lengthIdx) - 1])))
      ensures workingRegister == old(workingRegister) && registersBank[..] == old(registersBank[..])
    {
      if amt == 0 {
        return;
      }
      if amt > 0 {
        transport.LengthPlus();
      } else {
        transport.LengthMinus();
      }
    }

    /**
     * `savePattern`: writes slot `bankIdx % 8` with the register rotated
     * to step 0, and nothing else in the bank; the working register is
     * restored. The rotation's amounts stay in the shifter. The stored
     * pattern is not normalised and no length is stored with it.
     */
    method SavePattern(bankIdx: int)
      requires Valid() && 0 <= bankIdx < 256
      modifies this, registersBank, transport.shifter
      ensures Valid()
      ensures registersBank[..] == old(registersBank[..])[bankIdx % NUM_PATTERNS :=
        ZeroImage(old(workingRegister), transport.offset, old(transport.shifter.leftAmt), old(transport.shifter.rightAmt))]
      ensures workingRegister == old(workingRegister)
      ensures transport.shifter.State() == old(transport.shifter.State()).(
        leftAmt := ZeroAmounts(transport.offset, old(transport.shifter.leftAmt), old(transport.shifter.rightAmt)).0,
        rightAmt := ZeroAmounts(transport.offset, old(transport.shifter.leftAmt), old(transport.shifter.rightAmt)).1)
      ensures old(transport.Anchored()) ==> transport.Anchored()
    {
      var slot := bankIdx % NUM_PATTERNS;
      var workingRegCopy := workingRegister;
      RotateToZero();
      registersBank[slot] := workingRegister;
      workingRegister := workingRegCopy;
    }

    /**
     * `pulseIt`: the trigger byte. Bit 0 is register bit 0 and bit 1 its
     * complement; with m = `markov` of the low byte, bit 2 = m0 & m3 and
     * bit 3 = m2 & m7. Because `<<` binds tighter than `^`, the XOR terms
     * only contribute their shifted operand: bits 4 .. 7 are m6, m4, m7
     * and m5.
     */
    method PulseIt() returns (out: Byte)
      ensures var r0 := workingRegister[0]; var m := MarkovOf(Value(workingRegister[..8]));
        out == [r0, !r0, m[0] && m[3], m[2] && m[7], m[6], m[4], m[7], m[5]]
    {
      var inputReg: Byte := workingRegister[..8];
      var outputReg: Bits := LowBitTerm(inputReg);
      var r0 := inputReg[0];
      inputReg := Markov(inputReg);
      var t := ComplementTerm(outputReg);
      outputReg := Or(outputReg, t);
      t := AndTerm(inputReg, 0, 3, 2);
      outputReg := Or(outputReg, t);
      t := AndTerm(inputReg, 2, 7, 3);
      outputReg := Or(outputReg, t);
      PulseLow(r0, inputReg[0] && inputReg[3], inputReg[2] && inputReg[7]);
      t := XorTerm(inputReg, 1, 6, 4);
      outputReg := Or(outputReg, t);
      t := XorTerm(inputReg, 0, 4, 5);
      outputReg := Or(outputReg, t);
      t := XorTerm(inputReg, 3, 7, 6);
      outputReg := Or(outputReg, t);
      t := XorTerm(inputReg, 2, 5, 7);
      outputReg := Or(outputReg, t);
      PulseHigh(r0, inputReg[0] && inputReg[3], inputReg[2] && inputReg[7],
                inputReg[6], inputReg[4], inputReg[7], inputReg[5]);
      out := outputReg;
    }

    /**
     * `getDrunkenIndex` with the draws `random(101)` and `random(2)` as
     * inputs: the walk moves by the drawn step and wraps once, which is
     * addition modulo 8, so it stays in 0 .. 7.
     */
    method GetDrunkenIndex(draw: int, backward: bool) returns (idx: int)
      requires Valid() && 0 <= draw <= 100
      modifies transport
      ensures Valid()
      ensures transport.State() == old(transport.State()).(drunkStep := (old(transport.drunkStep) + DrunkStep(draw, backward)) % 8)
      ensures idx == transport.drunkStep && 0 <= idx < 8
      ensures old(transport.Anchored()) ==> transport.Anchored()
    {
      var rn := draw;
      if rn > 90 {
        rn := 3;
      } else if rn > 70 {
        rn := 2;
      } else {
        rn := 1;
      }
      if backward {
        rn := rn * -1;
      }
      var sum := transport.drunkStep + rn;
      if sum < 0 {
        sum := sum + 8;
      } else if sum > 7 {
        sum := sum - 8;
      }
      DivModUnique(transport.drunkStep + rn, 8, (transport.drunkStep + rn - sum) / 8, sum);
      transport.drunkStep := sum;
      idx := transport.drunkStep;
    }
  }
}
