/**
 * The millisecond counter advanced by the 1 kHz timer interrupt and the
 * blink bits derived from it (src/timers.cpp): the edit modes flash their
 * LED fast (load, bit 0) or slowly (save, bit 1).
 *
 * The hardware servicing done in the same interrupt (faders, encoder,
 * gates, buttons) is not part of this model.
 */
module Timers {
  import opened Bits

  /** `getFlashTimer`: bit 0 is (t / 4) mod 2, bit 1 is (t / 25) mod 2, the other bits are 0. */
  function FlashBits(t: int): (r: Byte)
    requires 0 <= t < 256
    ensures r[0] == ((t / 4) % 2 == 1) && r[1] == ((t / 25) % 2 == 1)
    ensures forall i :: 2 <= i < 8 ==> !r[i]
    ensures Value(r) < 4
  {
    var retval := Zeros(8);
    var retval := if (t / 4) % 2 == 1 then Write(retval, 0, true) else retval;
    var retval := if (t / 25) % 2 == 1 then Write(retval, 1, true) else retval;
    assert retval == [retval[0], retval[1]] + Zeros(6);
    ValueZeros(6);
    retval
  }

  lemma {:induction false} ValueZeros(n: nat)
    ensures Value(Zeros(n)) == 0
  {
    if n > 0 {
      assert Zeros(n)[1..] == Zeros(n - 1);
      ValueZeros(n - 1);
    }
  }

  /** The fast bit changes every 4 flash ticks: 40 ms at one flash tick per 10 ms. */
  lemma FastBitToggles(t: int)
    requires 0 <= t && t + 4 < 256
    ensures FlashBits(t + 4)[0] != FlashBits(t)[0]
  {
    QuotientStep(t, 4);
    ParityFlip(t / 4);
  }

  /** The slow bit changes every 25 flash ticks: 250 ms at one flash tick per 10 ms. */
  lemma SlowBitToggles(t: int)
    requires 0 <= t && t + 25 < 256
    ensures FlashBits(t + 25)[1] != FlashBits(t)[1]
  {
    QuotientStep(t, 25);
    ParityFlip(t / 25);
  }

  lemma QuotientStep(t: int, d: int)
    requires 0 <= t && d > 0
    ensures (t + d) / d == t / d + 1
  {
    DivModUnique(t + d, d, t / d + 1, t % d);
  }

  lemma ParityFlip(q: int)
    ensures ((q + 1) % 2 == 1) != (q % 2 == 1)
  {
  }

  /** One interrupt's update of `millisTimer`: a `uint16_t` increment, reset to 0 at 1000. */
  function NextMillis(m: int): int
  {
    var x := (m + 1) % 65536;
    if x == 1000 then 0 else x
  }

  /** From 0 .. 999 one interrupt is an increment modulo 1000. */
  lemma NextMillisWraps(m: int)
    requires 0 <= m < 1000
    ensures NextMillis(m) == (m + 1) % 1000 && 0 <= NextMillis(m) / 10 < 100
  {
    if m == 999 {
      assert NextMillis(m) == 0;
    } else {
      DivModUnique(m + 1, 65536, 0, m + 1);
      DivModUnique(m + 1, 1000, 0, m + 1);
    }
  }

  /** Dividing by 10 and then by d is dividing by 10 d. */
  lemma DivHalfTen(m: int, d: int)
    requires 0 <= m && d > 0
    ensures (m / 10) / d == m / (10 * d)
  {
    var q := (m / 10) / d;
    var r1 := m % 10;
    var r2 := (m / 10) % d;
    assert m / 10 == d * q + r2;
    assert m == 10 * (m / 10) + r1;
    assert m == (10 * d) * q + (10 * r2 + r1);
    DivModUnique(m, 10 * d, q, 10 * r2 + r1);
  }

  /** n interrupts. */
  function MillisAfter(m: int, n: nat): int
  {
    if n == 0 then m else NextMillis(MillisAfter(m, n - 1))
  }

  lemma ModStep(a: int, m: int)
    requires m > 0
    ensures (a % m + 1) % m == (a + 1) % m
  {
    var q := a / m;
    var r := a % m;
    var x := r + 1;
    assert a + 1 == m * q + x;
    DivModUnique(a + 1, m, q + x / m, x % m);
  }

  /** Starting in 0 .. 999, n interrupts advance the counter by n modulo 1000. */
  lemma {:induction false} MillisAfterWraps(m: int, n: nat)
    requires 0 <= m < 1000
    ensures MillisAfter(m, n) == (m + n) % 1000
  {
    if n > 0 {
      MillisAfterWraps(m, n - 1);
      ModStep(m + n - 1, 1000);
    }
  }

  /** The two interrupt-updated counters. */
  class MillisClock {
    var millisTimer: int
    var flashTimer: int

    ghost predicate Valid()
      reads this
    {
      0 <= millisTimer < 1000 && flashTimer == millisTimer / 10
    }

    constructor ()
      ensures Valid() && millisTimer == 0 && flashTimer == 0
    {
      millisTimer := 0;
      flashTimer := 0;
    }

    /** The counter part of `onTimer1`: one more millisecond, and the flash counter follows it. */
    method Tick()
      requires Valid()
      modifies this
      ensures Valid() && millisTimer == NextMillis(old(millisTimer))
      ensures millisTimer == (old(millisTimer) + 1) % 1000 && 0 <= flashTimer < 100
    {
      NextMillisWraps(millisTimer);
      millisTimer := (millisTimer + 1) % 65536;
      if millisTimer == 1000 {
        millisTimer := 0;
      }
      flashTimer := millisTimer / 10;
    }

    /** `getFlashTimer` on the current flash counter. */
    method GetFlashTimer() returns (r: Byte)
      requires Valid()
      ensures r == FlashBits(flashTimer)
      ensures r[0] == ((millisTimer / 40) % 2 == 1) && r[1] == ((millisTimer / 250) % 2 == 1)
    {
      DivHalfTen(millisTimer, 4);
      DivHalfTen(millisTimer, 25);
      r := FlashBits(flashTimer);
    }
  }
}
