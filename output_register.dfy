/**
 * `OutputRegister<T>`: a latched 8- or 16-bit value D that is copied to Q
 * on `clock` and shifted out to a chain of 74HC595 registers through a
 * bit-remapping table. `setReg` and `rotateRight` edit one byte of D.
 *
 * Shifting the bytes out (`FastShiftOut`, the latch pin) is hardware
 * output and is not part of the model; the remapped image `REGISTER` is.
 */
module OutputReg {
  import opened Bits

  /** Output bit `MAP[i]` of the trigger register carries bit i. */
  const TRG_MAP: seq<int> := [7, 6, 5, 4, 3, 2, 0, 1]
  /** Output bit `MAP[i]` of the LED register carries bit i. */
  const REG_MAP: seq<int> := [3, 7, 5, 4, 1, 6, 0, 2, 9, 8, 11, 10, 13, 12, 15, 14]

  /** Byte b of w: bits 8b .. 8b + 7, reading 0 beyond the width. */
  function ByteOf(w: Bits, b: nat): (v: Byte)
    ensures 8 * b + 8 <= |w| ==> v == w[8 * b .. 8 * b + 8]
  {
    if 8 * b + 8 <= |w| then w[8 * b .. 8 * b + 8]
    else seq(8, i requires 0 <= i < 8 => Read(w, 8 * b + i))
  }

  /** Bit i of byte b is bit 8b + i of w, or 0 beyond the width. */
  lemma ByteOfBit(w: Bits, b: nat, i: int)
    requires 0 <= i < 8
    ensures ByteOf(w, b)[i] == Read(w, 8 * b + i)
  {
  }

  /** `(w >> 8b) & 0xFF`, narrowed to a byte, is byte b. */
  lemma ShiftedByte(w: Bits, b: nat)
    requires |w| >= 8
    ensures Shr(w, 8 * b)[..8] == ByteOf(w, b)
  {
    forall i | 0 <= i < 8
      ensures Shr(w, 8 * b)[..8][i] == ByteOf(w, b)[i]
    {
      ByteOfBit(w, b, i);
    }
  }

  /** w with byte b replaced by v; a byte beyond the width changes nothing. */
  function Spliced(w: Bits, b: nat, v: Byte): (r: Bits)
    ensures |r| == |w|
    ensures 8 * b + 8 <= |w| ==> r == w[..8 * b] + v + w[8 * b + 8..]
    ensures 8 * b >= |w| ==> r == w
  {
    seq(|w|, i requires 0 <= i < |w| => if 8 * b <= i < 8 * b + 8 then v[i - 8 * b] else w[i])
  }

  /** `T(x)`: a byte widened (or kept) to the register's width. */
  function Widen(x: Byte, width: nat): (r: Bits)
    requires width == 8 || width == 16
    ensures |r| == width
  {
    if width == 8 then x else x + Zeros(8)
  }

  const ONES: Byte := seq(8, _ => true)

  /**
   * The splice as the source computes it, `(w & ~(T(0xFF) << 8b)) |
   * (T(v) << 8b)`, is `Spliced`.
   */
  lemma SpliceByMask(w: Bits, b: nat, v: Byte)
    requires |w| == 8 || |w| == 16
    ensures Or(And(w, Not(Shl(Widen(ONES, |w|), 8 * b))), Shl(Widen(v, |w|), 8 * b)) == Spliced(w, b, v)
  {
    var lhs := Or(And(w, Not(Shl(Widen(ONES, |w|), 8 * b))), Shl(Widen(v, |w|), 8 * b));
    forall i | 0 <= i < |w|
      ensures lhs[i] == Spliced(w, b, v)[i]
    {
      if 8 * b <= i < 8 * b + 8 {
        assert Widen(v, |w|)[i - 8 * b] == v[i - 8 * b];
      }
    }
  }

  /** The byte `rotateRight(amt)` produces: right by amt mod 8, or left by (-amt) mod 8 when amt < 0. */
  function ByteRotated(v: Byte, amt: int): Byte
  {
    if amt < 0 then RotL(v, TRem(-amt, 8)) else RotR(v, TRem(amt, 8))
  }

  /** D after `rotateRight(amt, b)`. */
  function RotateImage(w: Bits, amt: int, b: nat): Bits
  {
    Spliced(w, b, ByteRotated(ByteOf(w, b), amt))
  }

  /** A spliced byte reads back, and every other byte is untouched. */
  lemma SplicedReadsBack(w: Bits, b: nat, v: Byte, c: nat)
    requires 8 * b + 8 <= |w|
    ensures ByteOf(Spliced(w, b, v), b) == v
    ensures c != b ==> ByteOf(Spliced(w, b, v), c) == ByteOf(w, c)
  {
    forall i | 0 <= i < 8
      ensures ByteOf(Spliced(w, b, v), b)[i] == v[i]
    {
      assert Read(Spliced(w, b, v), 8 * b + i) == Spliced(w, b, v)[8 * b + i];
    }
    if c != b {
      forall i | 0 <= i < 8
        ensures ByteOf(Spliced(w, b, v), c)[i] == ByteOf(w, c)[i]
      {
        var j := 8 * c + i;
        ByteOfBit(Spliced(w, b, v), c, i);
        ByteOfBit(w, c, i);
        assert !(8 * b <= j < 8 * b + 8) by {
          if c < b {
            assert 8 * c + 8 <= 8 * b;
          } else {
            assert 8 * b + 8 <= 8 * c;
          }
        }
      }
    }
  }

  /** Splicing a byte's own value back changes nothing. */
  lemma SpliceOwnByte(w: Bits, b: nat)
    ensures Spliced(w, b, ByteOf(w, b)) == w
  {
    forall i | 0 <= i < |w|
      ensures Spliced(w, b, ByteOf(w, b))[i] == w[i]
    {
      if 8 * b <= i < 8 * b + 8 {
        ByteOfBit(w, b, i - 8 * b);
      }
    }
  }

  /** Rotating by amt and then by -amt restores the byte (amt an `int8_t` other than -128). */
  lemma ByteRotationRoundTrip(v: Byte, amt: int)
    requires -128 < amt < 128
    ensures ByteRotated(ByteRotated(v, amt), -amt) == v
  {
    if amt < 0 {
      TRemBounds(-amt, 8);
      RotLThenR(v, TRem(-amt, 8));
    } else if amt > 0 {
      TRemBounds(amt, 8);
      RotRThenL(v, TRem(amt, 8));
    } else {
      assert RotR(v, 0) == v;
    }
  }

  /** `rotateRight(k, b)` then `rotateRight(-k, b)` restores D. */
  lemma RotateRoundTrip(w: Bits, amt: int, b: nat)
    requires (|w| == 8 || |w| == 16) && -128 < amt < 128
    ensures RotateImage(RotateImage(w, amt, b), -amt, b) == w
  {
    var v := ByteOf(w, b);
    var w1 := RotateImage(w, amt, b);
    if 8 * b < |w| {
      assert b <= 1;
      SplicedReadsBack(w, b, ByteRotated(v, amt), b);
      ByteRotationRoundTrip(v, amt);
      assert RotateImage(w1, -amt, b) == Spliced(w1, b, v);
      assert Spliced(w1, b, v) == Spliced(w, b, v);
      SpliceOwnByte(w, b);
    }
  }

  /** Rotating a whole byte keeps the number of set bits of D. */
  lemma RotatePopCount(w: Bits, amt: int, b: nat)
    requires 8 * b + 8 <= |w|
    ensures PopCount(RotateImage(w, amt, b)) == PopCount(w)
  {
    var v := ByteOf(w, b);
    if amt < 0 {
      TRemBounds(-amt, 8);
      RotLPopCount(v, TRem(-amt, 8));
    } else {
      TRemBounds(amt, 8);
      RotRPopCount(v, TRem(amt, 8));
    }
    assert w == w[..8 * b] + v + w[8 * b + 8..];
    assert multiset(w) == multiset(w[..8 * b]) + multiset(v) + multiset(w[8 * b + 8..]);
    var r := RotateImage(w, amt, b);
    assert multiset(r) == multiset(w[..8 * b]) + multiset(ByteRotated(v, amt)) + multiset(w[8 * b + 8..]);
  }

  /** `writeOutputRegister`'s loop after n passes: bit MAP[i] written with bit i of q, in order. */
  function Remapped(q: Bits, mapping: seq<int>, n: nat): Bits
    requires n <= |q| && n <= |mapping|
  {
    if n == 0 then Zeros(|q|)
    else Write(Remapped(q, mapping, n - 1), mapping[n - 1], q[n - 1])
  }

  /** mapping is a permutation of 0 .. n - 1. */
  predicate IsPermutation(mapping: seq<int>, n: nat)
  {
    |mapping| == n
    && (forall i :: 0 <= i < n ==> 0 <= mapping[i] < n)
    && (forall i, j :: 0 <= i < j < n ==> mapping[i] != mapping[j])
  }

  lemma TrgMapIsPermutation()
    ensures IsPermutation(TRG_MAP, 8)
  {
  }

  lemma RegMapIsPermutation()
    ensures IsPermutation(REG_MAP, 16)
  {
  }

  /** After n passes, output bit mapping[i] holds q[i] for each i < n, and every other bit is 0. */
  lemma {:induction false} RemappedBits(q: Bits, mapping: seq<int>, n: nat)
    requires IsPermutation(mapping, |q|) && n <= |q|
    ensures |Remapped(q, mapping, n)| == |q|
    ensures forall i :: 0 <= i < n ==> Remapped(q, mapping, n)[mapping[i]] == q[i]
    ensures forall j :: 0 <= j < |q| && (forall i :: 0 <= i < n ==> mapping[i] != j) ==> !Remapped(q, mapping, n)[j]
  {
    if n > 0 {
      RemappedBits(q, mapping, n - 1);
    }
  }

  /**
   * With a permutation for MAP the remap loses no bit: Q is recovered
   * from the image, so two different Q give two different images.
   */
  lemma RemapLosesNoBit(q1: Bits, q2: Bits, mapping: seq<int>)
    requires |q1| == |q2| && IsPermutation(mapping, |q1|)
    ensures Remapped(q1, mapping, |q1|) == Remapped(q2, mapping, |q2|) ==> q1 == q2
  {
    RemappedBits(q1, mapping, |q1|);
    RemappedBits(q2, mapping, |q2|);
    if Remapped(q1, mapping, |q1|) == Remapped(q2, mapping, |q2|) {
      forall i | 0 <= i < |q1|
        ensures q1[i] == q2[i]
      {
        assert Remapped(q1, mapping, |q1|)[mapping[i]] == Remapped(q2, mapping, |q2|)[mapping[i]];
      }
    }
  }

  /** The byte rotation inside `rotateRight`, as the source computes it with shifts. */
  method RotateByte(temp: Byte, amt: int) returns (r: Byte)
    requires -128 <= amt < 128
    ensures r == ByteRotated(temp, amt)
  {
    r := temp;
    if amt < 0 {
      var absAmt := TRem(-amt, 8);
      TRemBounds(-amt, 8);
      r := Or(Shl(r, absAmt), Shr(r, 8 - absAmt));
      ShiftPairRotates(temp, absAmt, 8 - absAmt);
    } else {
      var a := TRem(amt, 8);
      TRemBounds(amt, 8);
      if a > 0 {
        r := Or(Shr(r, a), Shl(r, 8 - a));
        ShiftPairRotatesSwapped(temp, 8 - a, a);
      } else {
        assert RotR(temp, 0) == temp;
      }
    }
  }

  class OutputRegister {
    const width: nat
    const mapping: seq<int>
    /** The pending value D and the latched value Q. */
    var d: Bits
    var q: Bits
    /** The remapped image of Q that is shifted out. */
    var register: Bits

    ghost predicate Valid()
      reads this
    {
      (width == 8 || width == 16) && |mapping| == width
      && |d| == width && |q| == width && |register| == width
    }

    /**
     * D and Q start at 0. The C++ leaves `REGISTER` uninitialised until
     * the first `clock`; here it starts at 0.
     */
    constructor (numBytes: nat, m: seq<int>)
      requires (numBytes == 1 || numBytes == 2) && |m| == 8 * numBytes
      ensures Valid() && width == 8 * numBytes && mapping == m
      ensures d == Zeros(width) && q == Zeros(width)
    {
      width := 8 * numBytes;
      mapping := m;
      d := Zeros(8 * numBytes);
      q := Zeros(8 * numBytes);
      register := Zeros(8 * numBytes);
    }

    /** `setReg(val, bytenum)`: byte `bytenum` of D becomes val; no other bit of D changes. */
    method SetReg(val: Byte, bytenum: nat)
      requires Valid() && bytenum < 4
      modifies this
      ensures Valid()
      ensures d == Spliced(old(d), bytenum, val)
      ensures q == old(q) && register == old(register)
    {
      var setVal := Shl(Widen(val, width), 8 * bytenum);
      var mask := Shl(Widen(ONES, width), 8 * bytenum);
      var temp := And(d, Not(mask));
      temp := Or(temp, setVal);
      SpliceByMask(d, bytenum, val);
      d := temp;
    }

    /**
     * `rotateRight(amt, bytenum)`: byte `bytenum` of D rotated right by
     * amt mod 8, or left by (-amt) mod 8 when amt is negative.
     */
    method RotateRight(amt: int, bytenum: nat)
      requires Valid() && -128 <= amt < 128 && bytenum < 4
      modifies this
      ensures Valid()
      ensures d == RotateImage(old(d), amt, bytenum)
      ensures q == old(q) && register == old(register)
    {
      var temp: Byte := Shr(d, 8 * bytenum)[..8];
      ShiftedByte(d, bytenum);
      temp := RotateByte(temp, amt);
      var tempT := And(d, Not(Shl(Widen(ONES, width), 8 * bytenum)));
      tempT := Or(tempT, Shl(Widen(temp, width), 8 * bytenum));
      SpliceByMask(d, bytenum, temp);
      d := tempT;
    }

    /** `writeOutputRegister`: clears the image, then writes bit MAP[i] from bit i of Q, i = 0, 1, ... */
    method WriteOutputRegister()
      requires Valid()
      modifies this
      ensures Valid()
      ensures register == Remapped(q, mapping, width)
      ensures d == old(d) && q == old(q)
    {
      register := Zeros(width);
      var bitnum := 0;
      while bitnum < width
        invariant Valid() && d == old(d) && q == old(q)
        invariant 0 <= bitnum <= width
        invariant register == Remapped(q, mapping, bitnum)
      {
        register := Write(register, mapping[bitnum], Read(q, bitnum));
        bitnum := bitnum + 1;
      }
    }

    /**
     * `clock`: Q latches D (the latch itself lives in a library that is
     * not part of this model), the image is rebuilt, and Q is returned.
     */
    method Clock() returns (out: Bits)
      requires Valid()
      modifies this
      ensures Valid()
      ensures q == old(d) && d == old(d) && out == q
      ensures register == Remapped(q, mapping, width)
    {
      q := d;
      WriteOutputRegister();
      out := q;
    }
  }
}
