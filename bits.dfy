/**
 * Fixed-width bit strings and the C++ integer operations the firmware
 * applies to its registers.
 *
 * A value of width n is a sequence of n booleans, least significant bit
 * first: `w[i]` is `bitRead(w, i)`. An unsigned C++ operand is promoted to
 * a 32-bit `int` before `<<`, `>>`, `~`, `&`, `|` and `^` are applied, and
 * the result is truncated back when it is stored. For shift amounts below
 * 32 that is the same as shifting within the stored width and dropping
 * whatever leaves it, which is what the functions below compute.
 */
module Bits {

  type Bits = seq<bool>
  /** A `uint16_t` register. */
  type Word = w: Bits | |w| == 16 witness seq(16, _ => false)
  /** A `uint8_t` value. */
  type Byte = b: Bits | |b| == 8 witness seq(8, _ => false)

  function Zeros(n: nat): (r: Bits)
    ensures |r| == n
    ensures forall i :: 0 <= i < n ==> !r[i]
  {
    seq(n, _ => false)
  }

  /** `1 << k` stored in width n: bit k alone, or nothing once k is past the width. */
  function Mask(n: nat, k: nat): (r: Bits)
    ensures |r| == n
    ensures forall i :: 0 <= i < n ==> (r[i] <==> i == k)
  {
    seq(n, i requires 0 <= i < n => i == k)
  }

  /** Arduino `bitRead`: an index outside the width reads 0. */
  function Read(w: Bits, i: int): (b: bool)
    ensures b ==> 0 <= i < |w|
  {
    0 <= i < |w| && w[i]
  }

  /**
   * Arduino `bitWrite`: sets or clears bit i; a write outside the width
   * lands in bits that are truncated away when the value is stored.
   */
  function Write(w: Bits, i: int, v: bool): (r: Bits)
    ensures |r| == |w|
    ensures forall j :: 0 <= j < |w| ==> r[j] == (if j == i then v else w[j])
  {
    if 0 <= i < |w| then w[i := v] else w
  }

  function Not(a: Bits): (r: Bits)
    ensures |r| == |a|
    ensures forall i :: 0 <= i < |a| ==> r[i] == !a[i]
  {
    seq(|a|, i requires 0 <= i < |a| => !a[i])
  }

  function And(a: Bits, b: Bits): (r: Bits)
    requires |a| == |b|
    ensures |r| == |a|
    ensures forall i :: 0 <= i < |a| ==> r[i] == (a[i] && b[i])
  {
    seq(|a|, i requires 0 <= i < |a| => a[i] && b[i])
  }

  function Or(a: Bits, b: Bits): (r: Bits)
    requires |a| == |b|
    ensures |r| == |a|
    ensures forall i :: 0 <= i < |a| ==> r[i] == (a[i] || b[i])
  {
    seq(|a|, i requires 0 <= i < |a| => a[i] || b[i])
  }

  function Xor(a: Bits, b: Bits): (r: Bits)
    requires |a| == |b|
    ensures |r| == |a|
    ensures forall i :: 0 <= i < |a| ==> r[i] == (a[i] != b[i])
  {
    seq(|a|, i requires 0 <= i < |a| => a[i] != b[i])
  }

  /** `a << k`, truncated to the width of a. */
  function Shl(a: Bits, k: nat): (r: Bits)
    ensures |r| == |a|
    ensures forall i :: 0 <= i < |a| ==> r[i] == (i >= k && a[i - k])
  {
    seq(|a|, i requires 0 <= i < |a| => i >= k && a[i - k])
  }

  /** `a >> k` on an unsigned value: zeros shift in from the top. */
  function Shr(a: Bits, k: nat): (r: Bits)
    ensures |r| == |a|
    ensures forall i :: 0 <= i < |a| ==> r[i] == (i + k < |a| && a[i + k])
  {
    seq(|a|, i requires 0 <= i < |a| => i + k < |a| && a[i + k])
  }

  /** Rotation right by k: bit i of the result is bit (i + k) mod n of a. */
  function RotR(a: Bits, k: nat): (r: Bits)
    requires k <= |a|
    ensures |r| == |a|
  {
    a[k..] + a[..k]
  }

  /** Rotation left by k: bit i of the result is bit (i - k) mod n of a. */
  function RotL(a: Bits, k: nat): (r: Bits)
    requires k <= |a|
    ensures |r| == |a|
  {
    a[|a| - k..] + a[..|a| - k]
  }

  /** Number of set bits. */
  function PopCount(a: Bits): nat
  {
    multiset(a)[true]
  }

  function Pow2(k: nat): (p: nat)
    ensures p >= 1
  {
    if k == 0 then 1 else 2 * Pow2(k - 1)
  }

  /** The unsigned number a stands for. */
  function Value(a: Bits): nat
  {
    if |a| == 0 then 0 else (if a[0] then 1 else 0) + 2 * Value(a[1..])
  }

  /** The low `width` bits of n, as a C++ assignment to an unsigned type of that width keeps them. */
  function FromNat(n: nat, width: nat): (r: Bits)
    ensures |r| == width
  {
    if width == 0 then [] else [n % 2 == 1] + FromNat(n / 2, width - 1)
  }

  /** `int16_t` conversion: two's-complement wrap into -32768 .. 32767. */
  function Int16(x: int): (r: int)
    ensures -32768 <= r < 32768
    ensures -32768 <= x < 32768 ==> r == x
  {
    (x + 32768) % 65536 - 32768
  }

  /** `int8_t` conversion: two's-complement wrap into -128 .. 127. */
  function Int8(x: int): (r: int)
    ensures -128 <= r < 128
    ensures -128 <= x < 128 ==> r == x
  {
    (x + 128) % 256 - 128
  }

  /** C++ `a % b` for b > 0: the remainder takes the sign of the dividend. */
  function TRem(a: int, b: int): int
    requires b > 0
  {
    if a >= 0 then a % b else -((-a) % b)
  }

  // ---------------------------------------------------------------------
  // Properties

  /** The value of a bit string fits its width. */
  lemma {:induction false} ValueBound(a: Bits)
    ensures Value(a) < Pow2(|a|)
  {
    if |a| > 0 {
      ValueBound(a[1..]);
    }
  }

  /** Storing a number and reading it back keeps exactly its low bits. */
  lemma {:induction false} ValueFromNat(n: nat, width: nat)
    ensures Value(FromNat(n, width)) == n % Pow2(width)
  {
    if width > 0 {
      var r := FromNat(n, width);
      assert r[1..] == FromNat(n / 2, width - 1);
      ValueFromNat(n / 2, width - 1);
      DivModStep(n, Pow2(width - 1));
    }
  }

  lemma DivModStep(n: nat, p: nat)
    requires p >= 1
    ensures n % (2 * p) == n % 2 + 2 * ((n / 2) % p)
  {
    var q := n / 2;
    var b := n % 2;
    var q2 := q / p;
    var r2 := q % p;
    assert n == (2 * p) * q2 + (2 * r2 + b) by {
      assert n == 2 * q + b;
      assert q == p * q2 + r2;
    }
    DivModUnique(n, 2 * p, q2, 2 * r2 + b);
  }

  /** Quotient and remainder are the only ones with the remainder in range. */
  lemma DivModUnique(n: int, d: int, q: int, r: int)
    requires d > 0 && 0 <= r < d && n == d * q + r
    ensures n / d == q && n % d == r
  {
    var q' := n / d;
    var r' := n % d;
    assert n == d * q' + r';
    assert d * (q - q') == r' - r;
    if q - q' >= 1 {
      MulAtLeast(d, q - q');
    } else if q' - q >= 1 {
      MulAtLeast(d, q' - q);
    }
  }

  lemma MulAtLeast(d: int, k: int)
    requires d > 0 && k >= 1
    ensures d * k >= d
  {
    assert d * k == d * (k - 1) + d;
  }

  /** Reading a bit string as a number and storing it back gives the same bits. */
  lemma {:induction false} FromNatValue(a: Bits)
    ensures FromNat(Value(a), |a|) == a
  {
    if |a| > 0 {
      FromNatValue(a[1..]);
      var v := Value(a);
      assert v % 2 == 1 <==> a[0];
      assert v / 2 == Value(a[1..]);
      assert FromNat(v, |a|) == [a[0]] + a[1..];
    }
  }

  /**
   * The shift pair used by the engine: for l + r equal to the width and
   * 0 < r, `(a << l) | (a >> r)` is the rotation right by r.
   */
  lemma ShiftPairRotates(a: Bits, l: nat, r: nat)
    requires 0 < r && l + r == |a|
    ensures Or(Shl(a, l), Shr(a, r)) == RotR(a, r)
  {
    var lhs := Or(Shl(a, l), Shr(a, r));
    var rhs := RotR(a, r);
    forall i | 0 <= i < |a|
      ensures lhs[i] == rhs[i]
    {
      if i < l {
        assert rhs[i] == a[r + i];
      } else {
        assert rhs[i] == a[i - l];
      }
    }
  }

  /** The pair the other way round is the same rotation. */
  lemma ShiftPairRotatesSwapped(a: Bits, l: nat, r: nat)
    requires 0 < r && l + r == |a|
    ensures Or(Shr(a, r), Shl(a, l)) == RotR(a, r)
  {
    ShiftPairRotates(a, l, r);
    assert Or(Shr(a, r), Shl(a, l)) == Or(Shl(a, l), Shr(a, r));
  }

  /** Bit i of a rotation right by k is bit (i + k) mod n. */
  lemma RotRBit(a: Bits, k: nat, i: nat)
    requires k <= |a| && i < |a|
    ensures RotR(a, k)[i] == a[(i + k) % |a|]
  {
    if i + k < |a| {
      assert (i + k) % |a| == i + k;
    } else {
      assert (i + k) % |a| == i + k - |a|;
    }
  }

  /** Rotating right by k and then left by k restores the value. */
  lemma RotRThenL(a: Bits, k: nat)
    requires k <= |a|
    ensures RotL(RotR(a, k), k) == a
  {
    var b := RotR(a, k);
    assert b[|a| - k..] == a[..k];
    assert b[..|a| - k] == a[k..];
  }

  /** Rotating left by k and then right by k restores the value. */
  lemma RotLThenR(a: Bits, k: nat)
    requires k <= |a|
    ensures RotR(RotL(a, k), k) == a
  {
    var b := RotL(a, k);
    assert b[k..] == a[..|a| - k];
    assert b[..k] == a[|a| - k..];
  }

  /** A rotation neither gains nor loses set bits. */
  lemma RotRPopCount(a: Bits, k: nat)
    requires k <= |a|
    ensures PopCount(RotR(a, k)) == PopCount(a)
  {
    assert a == a[..k] + a[k..];
    assert multiset(RotR(a, k)) == multiset(a[k..]) + multiset(a[..k]);
  }

  lemma RotLPopCount(a: Bits, k: nat)
    requires k <= |a|
    ensures PopCount(RotL(a, k)) == PopCount(a)
  {
    assert RotL(a, k) == RotR(a, |a| - k);
    RotRPopCount(a, |a| - k);
  }

  /** The truncating remainder stays strictly inside (-b, b), with the sign of a. */
  lemma TRemBounds(a: int, b: int)
    requires b > 0
    ensures -b < TRem(a, b) < b
    ensures a >= 0 ==> 0 <= TRem(a, b)
    ensures a <= 0 ==> TRem(a, b) <= 0
    ensures (a - TRem(a, b)) % b == 0
    ensures -b < a < b ==> TRem(a, b) == a
  {
    if a < 0 {
      var q := (-a) / b;
      var m := (-a) % b;
      assert -a == b * q + m;
      assert a - TRem(a, b) == b * (-q);
      DivModUnique(a - TRem(a, b), b, -q, 0);
    } else {
      var q := a / b;
      assert a == b * q + a % b;
      DivModUnique(a - TRem(a, b), b, q, 0);
    }
    if -b < a < b {
      if a >= 0 {
        DivModUnique(a, b, 0, a);
      } else {
        DivModUnique(-a, b, 0, -a);
      }
    }
  }

  /** Adding the modulus does not change a remainder. */
  lemma ModAddModulus(x: int, m: int)
    requires m > 0
    ensures (x + m) % m == x % m
  {
    var q := x / m;
    var r := x % m;
    assert x == m * q + r;
    DivModUnique(x + m, m, q + 1, r);
  }

  /** Halving and then dividing by p is dividing by 2p. */
  lemma DivHalf(n: nat, p: nat)
    requires p >= 1
    ensures (n / 2) / p == n / (2 * p)
  {
    var q := n / 2;
    var b := n % 2;
    var q2 := q / p;
    var r2 := q % p;
    assert n == (2 * p) * q2 + (2 * r2 + b) by {
      assert n == 2 * q + b;
      assert q == p * q2 + r2;
    }
    DivModUnique(n, 2 * p, q2, 2 * r2 + b);
  }

  /** Bit k of a stored number is bit k of the number itself. */
  lemma {:induction false} FromNatBit(n: nat, width: nat, k: nat)
    requires k < width
    ensures FromNat(n, width)[k] == ((n / Pow2(k)) % 2 == 1)
  {
    if k > 0 {
      assert FromNat(n, width)[k] == FromNat(n / 2, width - 1)[k - 1];
      FromNatBit(n / 2, width - 1, k - 1);
      DivHalf(n, Pow2(k - 1));
    }
  }

  /** The low k bits of a value are the value modulo 2^k: the C++ cast to a narrower unsigned type. */
  lemma {:induction false} LowBitsValue(a: Bits, k: nat)
    requires k <= |a|
    ensures Value(a[..k]) == Value(a) % Pow2(k)
  {
    ValueSplit(a, k);
    ValueBound(a[..k]);
    DivModUnique(Value(a), Pow2(k), Value(a[k..]), Value(a[..k]));
  }

  lemma {:induction false} ValueSplit(a: Bits, k: nat)
    requires k <= |a|
    ensures Value(a) == Value(a[..k]) + Pow2(k) * Value(a[k..])
  {
    if k > 0 {
      ValueSplit(a[1..], k - 1);
      assert a[1..][..k - 1] == a[..k][1..];
      assert a[1..][k - 1..] == a[k..];
      SplitArith(if a[0] then 1 else 0, Value(a[..k][1..]), Pow2(k - 1), Value(a[k..]));
    }
  }

  lemma SplitArith(b: int, x: int, p: int, y: int)
    ensures b + 2 * (x + p * y) == (b + 2 * x) + (2 * p) * y
  {
  }
}
