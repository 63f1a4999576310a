/**
 * `wrapConstrain` from the RatFuncs helper library: wraps an `int16_t`
 * into an inclusive interval instead of clipping it, in four overloads
 * (value, value plus delta, and two that update a variable in place).
 */
module RatFuncs {
  import opened Bits

  predicate IsInt16(x: int)
  {
    -32768 <= x < 32768
  }

  /** C++ `%` on a nonzero divisor of either sign: the sign of the dividend, the size below |b|. */
  function CRem(a: int, b: int): int
    requires b != 0
  {
    if b > 0 then TRem(a, b) else TRem(a, -b)
  }

  /**
   * `wrapConstrain(N, nMin, nMax)` as written: `range = nMax - nMin + 1`
   * is stored in an `int16_t`, so ranges above 32767 wrap to negative
   * values.
   */
  function WrapConstrain(n: int, nMin: int, nMax: int): (r: int)
    requires IsInt16(n) && IsInt16(nMin) && IsInt16(nMax)
    ensures IsInt16(r)
    ensures nMin <= n <= nMax ==> r == n
  {
    if nMin <= n && n <= nMax then n
    else
      var range := Int16(nMax - nMin + 1);
      if range == 0 then nMax
      else
        var m := Int16(CRem(n - nMin, range));
        if m < 0 then Int16(m + (nMax + 1)) else Int16(m + nMin)
  }

  /** The same with the range computed without overflow. */
  function WrapConstrainWide(n: int, nMin: int, nMax: int): (r: int)
    requires IsInt16(n) && IsInt16(nMin) && IsInt16(nMax)
    ensures IsInt16(r)
    ensures nMin <= n <= nMax ==> r == n
  {
    if nMin <= n && n <= nMax then n
    else
      var range := nMax - nMin + 1;
      if range == 0 then nMax
      else
        var m := CRem(n - nMin, range);
        if m < 0 then Int16(m + (nMax + 1)) else Int16(m + nMin)
  }

  /**
   * The corrected function wraps into the interval: for nMin <= nMax the
   * result lies in it and differs from n by a multiple of its width.
   */
  lemma WrapConstrainWideWraps(n: int, nMin: int, nMax: int)
    requires IsInt16(n) && IsInt16(nMin) && IsInt16(nMax) && nMin <= nMax
    ensures nMin <= WrapConstrainWide(n, nMin, nMax) <= nMax
    ensures (n - WrapConstrainWide(n, nMin, nMax)) % (nMax - nMin + 1) == 0
  {
    var range := nMax - nMin + 1;
    var r := WrapConstrainWide(n, nMin, nMax);
    if !(nMin <= n <= nMax) {
      var a := n - nMin;
      var m := TRem(a, range);
      TRemBounds(a, range);
      assert (a - m) % range == 0;
      if m < 0 {
        assert r == m + nMin + range;
        ModAddModulus(a - m - range, range);
        assert n - r == (a - m) - range;
      } else {
        assert r == m + nMin;
        assert n - r == a - m;
      }
    } else {
      assert n - r == 0;
    }
  }

  /** Wrapping a value that is already wrapped changes nothing. */
  lemma WrapConstrainWideIdempotent(n: int, nMin: int, nMax: int)
    requires IsInt16(n) && IsInt16(nMin) && IsInt16(nMax) && nMin <= nMax
    ensures WrapConstrainWide(WrapConstrainWide(n, nMin, nMax), nMin, nMax) == WrapConstrainWide(n, nMin, nMax)
  {
    WrapConstrainWideWraps(n, nMin, nMax);
  }

  /** Up to a width of 32767 the function as written computes the same thing. */
  lemma WrapConstrainNarrowAgrees(n: int, nMin: int, nMax: int)
    requires IsInt16(n) && IsInt16(nMin) && IsInt16(nMax) && nMin <= nMax && nMax - nMin + 1 < 32768
    ensures WrapConstrain(n, nMin, nMax) == WrapConstrainWide(n, nMin, nMax)
  {
    if !(nMin <= n <= nMax) {
      TRemBounds(n - nMin, nMax - nMin + 1);
    }
  }

  /**
   * As written, the result still lies in [nMin, nMax] for every nMin <=
   * nMax: a wrapped range is smaller in magnitude than the true width.
   */
  lemma WrapConstrainStaysInRange(n: int, nMin: int, nMax: int)
    requires IsInt16(n) && IsInt16(nMin) && IsInt16(nMax) && nMin <= nMax
    ensures nMin <= WrapConstrain(n, nMin, nMax) <= nMax
  {
    var width := nMax - nMin + 1;
    if !(nMin <= n <= nMax) {
      if width < 32768 {
        WrapConstrainNarrowAgrees(n, nMin, nMax);
        WrapConstrainWideWraps(n, nMin, nMax);
      } else {
        var range := Int16(width);
        assert range == width - 65536;
        TRemBounds(n - nMin, -range);
      }
    }
  }

  /**
   * As written, the result is not congruent to n for wide intervals:
   * 30000 wrapped into [-20000, 20000] (width 40001) gives 4465, which
   * differs from 30000 by 25535. The intended result is -10001.
   */
  lemma WrapConstrainWideIntervalCounterexample()
    ensures WrapConstrain(30000, -20000, 20000) == 4465
    ensures (30000 - 4465) % 40001 != 0
    ensures WrapConstrainWide(30000, -20000, 20000) == -10001
  {
    assert Int16(20000 + 20000 + 1) == -25535;
    assert TRem(50000, 25535) == 24465;
    assert TRem(50000, 40001) == 9999;
  }

  /**
   * `wrapConstrain(N, dN, nMin, nMax)`: adds dN inside [nMin, nMax], or,
   * when the bounds are given the other way round, subtracts dN inside
   * [nMax, nMin]. The sum is taken back to `int16_t` before wrapping.
   */
  function WrapConstrainBy(n: int, dn: int, nMin: int, nMax: int): (r: int)
    requires IsInt16(n) && IsInt16(dn) && IsInt16(nMin) && IsInt16(nMax)
    ensures nMin <= nMax ==> r == WrapConstrain(Int16(n + dn), nMin, nMax)
    ensures nMin > nMax ==> r == WrapConstrain(Int16(n - dn), nMax, nMin)
  {
    if nMin > nMax then WrapConstrain(Int16(n - dn), nMax, nMin)
    else WrapConstrain(Int16(n + dn), nMin, nMax)
  }

  /** Whichever way round the bounds are given, the result lies between them. */
  lemma WrapConstrainByInRange(n: int, dn: int, nMin: int, nMax: int)
    requires IsInt16(n) && IsInt16(dn) && IsInt16(nMin) && IsInt16(nMax)
    ensures nMin <= nMax ==> nMin <= WrapConstrainBy(n, dn, nMin, nMax) <= nMax
    ensures nMin > nMax ==> nMax <= WrapConstrainBy(n, dn, nMin, nMax) <= nMin
  {
    if nMin > nMax {
      WrapConstrainStaysInRange(Int16(n - dn), nMax, nMin);
    } else {
      WrapConstrainStaysInRange(Int16(n + dn), nMin, nMax);
    }
  }

  /** An `int16_t` variable updated in place by address. */
  class Int16Cell {
    var v: int
    constructor (v0: int)
      requires IsInt16(v0)
      ensures v == v0
    {
      v := v0;
    }
  }

  /** An `int8_t` variable updated in place by address. */
  class Int8Cell {
    var v: int
    constructor (v0: int)
      requires -128 <= v0 < 128
      ensures v == v0
    {
      v := v0;
    }
  }

  /** `wrapConstrain(int16_t *pN, nMin, nMax)`: wraps the variable in place. */
  method WrapConstrainIn16(pN: Int16Cell, nMin: int, nMax: int)
    requires IsInt16(pN.v) && IsInt16(nMin) && IsInt16(nMax)
    modifies pN
    ensures pN.v == WrapConstrain(old(pN.v), nMin, nMax)
  {
    pN.v := WrapConstrain(pN.v, nMin, nMax);
  }

  /**
   * `wrapConstrain(int8_t *pN, nMin, nMax)`: wraps a widened copy and
   * stores back its low byte, reinterpreted as `int8_t`.
   */
  method WrapConstrainIn8(pN: Int8Cell, nMin: int, nMax: int)
    requires -128 <= pN.v < 128 && IsInt16(nMin) && IsInt16(nMax)
    modifies pN
    ensures pN.v == Int8(WrapConstrain(old(pN.v), nMin, nMax))
    ensures -128 <= nMin <= nMax < 128 ==> pN.v == WrapConstrain(old(pN.v), nMin, nMax)
  {
    var pN16 := new Int16Cell(pN.v);
    WrapConstrainIn16(pN16, nMin, nMax);
    if -128 <= nMin <= nMax < 128 {
      WrapConstrainStaysInRange(old(pN.v), nMin, nMax);
    }
    pN.v := Int8(pN16.v);
  }
}
