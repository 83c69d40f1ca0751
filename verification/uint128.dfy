/**
 * Model of the 128-bit mask value used by the shader translator
 * (Ryujinx.Graphics.Shader/Translation/UInt128.cs): two 64-bit halves,
 * `v0` holding bits 0..63 and `v1` holding bits 64..127.
 */
module ShaderTranslation {

  datatype UInt128 = UInt128(v0: bv64, v1: bv64)

  /** Bit `i` (0..63) of a 64-bit word. */
  predicate Bit64(v: bv64, i: nat)
    requires i < 64
  {
    (v >> i) & 1 == 1
  }

  /** Bit `i` (0..127) of a 128-bit value. */
  predicate Bit(x: UInt128, i: nat)
    requires i < 128
  {
    if i < 64 then Bit64(x.v0, i) else Bit64(x.v1, i - 64)
  }

  /**
   * BitOperations.TrailingZeroCount on a 64-bit word, scanning from bit `i`
   * upwards: the index of the lowest set bit at or above `i`, or 64.
   */
  function TrailingZeroCountFrom(v: bv64, i: nat): (r: nat)
    requires i <= 64
    ensures i <= r <= 64
    ensures forall j :: i <= j < r ==> !Bit64(v, j)
    ensures r < 64 ==> Bit64(v, r)
    decreases 64 - i
  {
    if i == 64 then 64
    else if Bit64(v, i) then i
    else TrailingZeroCountFrom(v, i + 1)
  }

  /** BitOperations.TrailingZeroCount(ulong): 64 for a zero word. */
  function TrailingZeroCount64(v: bv64): (r: nat)
    ensures r <= 64
    ensures forall j :: 0 <= j < r ==> !Bit64(v, j)
    ensures r < 64 ==> Bit64(v, r)
  {
    TrailingZeroCountFrom(v, 0)
  }

  const Zero: UInt128 := UInt128(0, 0)

  /** Number of zero bits below the lowest set bit; 128 for Zero. */
  function TrailingZeroCount(x: UInt128): (r: nat)
    ensures r <= 128
    ensures r < 128 ==> Bit(x, r)
  {
    var count := TrailingZeroCount64(x.v0);
    if count == 64 then count + TrailingZeroCount64(x.v1) else count
  }

  /**
   * The value with the single bit `x` set, for `x` in 0..127. A 64-bit shift
   * uses only the low six bits of its count (`count & 63`, which is the
   * Euclidean `count % 64`), so other `x` wrap around within their half.
   */
  function Pow2(x: int): (r: UInt128)
    ensures 0 <= x < 128 ==> Bit(r, x)
  {
    if x >= 64 then UInt128(0, 1 << ((x - 64) % 64)) else UInt128(1 << (x % 64), 0)
  }

  function Not(x: UInt128): UInt128
  {
    UInt128(!x.v0, !x.v1)
  }

  function And(x: UInt128, y: UInt128): UInt128
  {
    UInt128(x.v0 & y.v0, x.v1 & y.v1)
  }

  function Or(x: UInt128, y: UInt128): UInt128
  {
    UInt128(x.v0 | y.v0, x.v1 | y.v1)
  }

  /** `Equals(UInt128)`, and the `==` operator that calls it. */
  predicate Equals(x: UInt128, other: UInt128): (r: bool)
    ensures r <==> x == other
  {
    x.v0 == other.v0 && x.v1 == other.v1
  }

  /** The `!=` operator. */
  predicate NotEquals(x: UInt128, y: UInt128): (r: bool)
    ensures r <==> x != y
  {
    !Equals(x, y)
  }

  // ---------------------------------------------------------------------
  // Properties

  /** The word 1 << x has exactly bit x set. */
  lemma ShiftSingleBit(x: nat, j: nat)
    requires x < 64 && j < 64
    ensures Bit64(1 << x, j) <==> j == x
  {
    if j == x {
      ShiftSame(x);
    } else if j < x {
      ShiftBelow(x, j);
    } else {
      ShiftAbove(x, j);
    }
  }

  /** The set bit of 1 << x. */
  lemma ShiftSame(x: nat)
    requires x < 64
    ensures Bit64(1 << x, x)
  {
  }

  /** The bits of 1 << x below x are clear. */
  lemma ShiftBelow(x: nat, j: nat)
    requires j < x < 64
    ensures !Bit64(1 << x, j)
  {
  }

  /** The bits of 1 << x above x are clear. */
  lemma ShiftAbove(x: nat, j: nat)
    requires x < j < 64
    ensures !Bit64(1 << x, j)
  {
  }

  /** In range, the shift count of Pow2 is not wrapped. */
  lemma Pow2Halves(x: nat)
    requires x < 128
    ensures x < 64 ==> Pow2(x) == UInt128(1 << x, 0)
    ensures x >= 64 ==> Pow2(x) == UInt128(0, 1 << (x - 64))
  {
    if x < 64 {
      assert x % 64 == x;
    } else {
      assert (x - 64) % 64 == x - 64;
    }
  }

  /** Pow2(x) has exactly one set bit, at position x, in the half the source puts it in. */
  lemma {:induction false} Pow2SingleBit(x: nat, j: nat)
    requires x < 128 && j < 128
    ensures Bit(Pow2(x), j) <==> j == x
    ensures x < 64 ==> Pow2(x).v1 == 0
    ensures x >= 64 ==> Pow2(x).v0 == 0
  {
    Pow2Halves(x);
    if x < 64 && j < 64 {
      ShiftSingleBit(x, j);
    } else if x >= 64 && j >= 64 {
      ShiftSingleBit(x - 64, j - 64);
    }
  }

  /** Zero has no bit set. */
  lemma ZeroHasNoBit()
    ensures forall i :: 0 <= i < 128 ==> !Bit(Zero, i)
  {
  }

  /** The zero word has no set bit, so its count is 64. */
  lemma TrailingZeroCountZeroWord()
    ensures TrailingZeroCount64(0) == 64
  {
    var r := TrailingZeroCount64(0);
    assert r < 64 ==> !Bit64(0, r);
  }

  /** The word 1 << x has its lowest set bit at x. */
  lemma {:induction false} TrailingZeroCountShift(x: nat)
    requires x < 64
    ensures TrailingZeroCount64(1 << x) == x
  {
    var v: bv64 := 1 << x;
    var r := TrailingZeroCount64(v);
    ShiftSingleBit(x, x);
    if r != x {
      ShiftSingleBit(x, r);
    }
  }

  /** TrailingZeroCount inverts Pow2. */
  lemma {:induction false} TrailingZeroCountPow2(x: nat)
    requires x < 128
    ensures TrailingZeroCount(Pow2(x)) == x
  {
    Pow2Halves(x);
    if x < 64 {
      TrailingZeroCountShift(x);
    } else {
      TrailingZeroCountShift(x - 64);
      TrailingZeroCountZeroWord();
    }
  }

  /** TrailingZeroCount is in [0, 128], and 128 on Zero. */
  lemma {:induction false} TrailingZeroCountRange(x: UInt128)
    ensures TrailingZeroCount(x) <= 128
    ensures TrailingZeroCount(Zero) == 128
  {
    TrailingZeroCountZeroWord();
  }

  /** When not 128, TrailingZeroCount is the index of the lowest set bit. */
  lemma {:induction false} TrailingZeroCountIsLowestBit(x: UInt128)
    requires TrailingZeroCount(x) < 128
    ensures Bit(x, TrailingZeroCount(x))
    ensures forall j :: 0 <= j < TrailingZeroCount(x) ==> !Bit(x, j)
  {
    var c0 := TrailingZeroCount64(x.v0);
    if c0 == 64 {
      var c1 := TrailingZeroCount64(x.v1);
      assert Bit64(x.v1, c1);
      forall j | 0 <= j < 64 + c1
        ensures !Bit(x, j)
      {
        if j >= 64 {
          assert !Bit64(x.v1, j - 64);
        }
      }
    }
  }

  lemma NotInvolution(x: UInt128)
    ensures Not(Not(x)) == x
  {
  }

  lemma AndNotIsZero(x: UInt128)
    ensures And(x, Not(x)) == Zero
  {
  }

  lemma AndOrCommutativeIdempotent(x: UInt128, y: UInt128)
    ensures And(x, y) == And(y, x) && Or(x, y) == Or(y, x)
    ensures And(x, x) == x && Or(x, x) == x
  {
  }

  /** De Morgan: the complement of a conjunction. */
  lemma DeMorganAnd(x: UInt128, y: UInt128)
    ensures Not(And(x, y)) == Or(Not(x), Not(y))
  {
  }

  /** De Morgan: the complement of a disjunction. */
  lemma DeMorganOr(x: UInt128, y: UInt128)
    ensures Not(Or(x, y)) == And(Not(x), Not(y))
  {
  }

  /**
   * Equals is componentwise, hence the same as value equality. The second
   * clause is the promise the source makes about its `!=` operator: it is
   * exactly the negation of `==`.
   */
  lemma EqualsIsValueEquality(x: UInt128, y: UInt128)
    ensures Equals(x, y) <==> x == y
    ensures NotEquals(x, y) <==> !Equals(x, y)
  {
  }
}
