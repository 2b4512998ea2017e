/** Bitwise operations, shifts and float conversion on typed integers (pkg/interpreter/concrete.go). */
module IntegerBits {
  import opened Integers

  // ------------------------------------------------------------------
  // Powers of two

  function Pow2(n: nat): (p: int)
    ensures p > 0
  {
    if n == 0 then 1 else 2 * Pow2(n - 1)
  }

  lemma {:induction false} Pow2Adds(m: nat, n: nat)
    ensures Pow2(m + n) == Pow2(m) * Pow2(n)
  {
    if m > 0 {
      Pow2Adds(m - 1, n);
      assert Pow2(m) * Pow2(n) == 2 * (Pow2(m - 1) * Pow2(n));
    }
  }

  lemma Pow2Sizes()
    ensures Pow2(8) == 0x100 && Pow2(16) == 0x1_0000 && Pow2(32) == 0x1_0000_0000 && Pow2(64) == TWO64
    ensures Pow2(7) == 0x80 && Pow2(15) == 0x8000 && Pow2(31) == 0x8000_0000 && Pow2(63) == TWO63
  {
    assert Pow2(4) == 16;
    Pow2Adds(4, 4);
    Pow2Adds(8, 8);
    Pow2Adds(16, 16);
    Pow2Adds(32, 32);
  }

  lemma {:induction false} Pow2Grows(m: nat, n: nat)
    requires m <= n
    ensures Pow2(m) <= Pow2(n)
    decreases n
  {
    if m < n {
      Pow2Grows(m, n - 1);
    }
  }

  // ------------------------------------------------------------------
  // Bits of two's complement integers

  predicate Bit(x: int, i: nat)
    decreases i
  {
    if i == 0 then x % 2 == 1 else Bit(x / 2, i - 1)
  }

  /** x is representable with n bits and a sign. */
  predicate Fits(x: int, n: nat) {
    -Pow2(n) <= x < Pow2(n)
  }

  datatype BitOp = And | Or | Xor | AndNot

  predicate Holds(op: BitOp, a: bool, b: bool) {
    match op
    case And => a && b
    case Or => a || b
    case Xor => a != b
    case AndNot => a && !b
  }

  function OneIf(b: bool): int {
    if b then 1 else 0
  }

  /** The operation on n low bits and the sign. */
  function Bitwise(op: BitOp, x: int, y: int, n: nat): int
    decreases n
  {
    if n == 0 then -OneIf(Holds(op, x < 0, y < 0))
    else 2 * Bitwise(op, x / 2, y / 2, n - 1) + OneIf(Holds(op, x % 2 == 1, y % 2 == 1))
  }

  lemma {:induction false} SignBits(x: int, i: nat)
    requires x == 0 || x == -1
    ensures Bit(x, i) <==> x < 0
    decreases i
  {
    if i > 0 {
      SignBits(x / 2, i - 1);
    }
  }

  lemma HalfFits(x: int, n: nat)
    requires n > 0 && Fits(x, n)
    ensures Fits(x / 2, n - 1)
  {
  }

  lemma Appended(h: int, b: bool)
    ensures (2 * h + OneIf(b)) / 2 == h && ((2 * h + OneIf(b)) % 2 == 1 <==> b)
  {
  }

  /** The operation works bit by bit, on every bit. */
  lemma {:induction false} BitwiseBits(op: BitOp, x: int, y: int, n: nat, i: nat)
    requires Fits(x, n) && Fits(y, n)
    ensures Bit(Bitwise(op, x, y, n), i) <==> Holds(op, Bit(x, i), Bit(y, i))
    decreases n
  {
    if n == 0 {
      SignBits(x, i);
      SignBits(y, i);
      SignBits(Bitwise(op, x, y, n), i);
    } else {
      Appended(Bitwise(op, x / 2, y / 2, n - 1), Holds(op, x % 2 == 1, y % 2 == 1));
      if i > 0 {
        HalfFits(x, n);
        HalfFits(y, n);
        BitwiseBits(op, x / 2, y / 2, n - 1, i - 1);
      }
    }
  }

  /** The result's sign, and a width that both operands have. */
  lemma {:induction false} BitwiseFits(op: BitOp, x: int, y: int, n: nat, m: nat)
    requires Fits(x, m) && Fits(y, m) && m <= n
    ensures Fits(Bitwise(op, x, y, n), m)
    ensures Bitwise(op, x, y, n) < 0 <==> Holds(op, x < 0, y < 0)
    decreases n
  {
    if n > 0 {
      if m > 0 {
        BitwiseFits(op, x / 2, y / 2, n - 1, m - 1);
      } else {
        BitwiseFits(op, x / 2, y / 2, n - 1, 0);
      }
    }
  }

  lemma {:induction false} BitBelow(x: int, t: int, n: nat, i: nat)
    requires i < n
    ensures Bit(x + Pow2(n) * t, i) <==> Bit(x, i)
    decreases i
  {
    var h := Pow2(n - 1) * t;
    assert Pow2(n) * t == 2 * h;
    if i > 0 {
      assert (x + 2 * h) / 2 == x / 2 + h;
      BitBelow(x / 2, t, n - 1, i - 1);
    }
  }

  /** Integers with the same n low bits are congruent modulo 2^n. */
  lemma {:induction false} LowBitsDecide(x: int, y: int, n: nat)
    requires forall i: nat :: i < n ==> (Bit(x, i) <==> Bit(y, i))
    ensures x % Pow2(n) == y % Pow2(n)
    decreases n
  {
    if n > 0 {
      var p := Pow2(n - 1);
      forall i: nat | i < n - 1
        ensures Bit(x / 2, i) <==> Bit(y / 2, i)
      {
        assert Bit(x, i + 1) <==> Bit(y, i + 1);
      }
      LowBitsDecide(x / 2, y / 2, n - 1);
      assert Bit(x, 0) <==> Bit(y, 0);
      Doubled(x, p);
      Doubled(y, p);
    }
  }

  lemma Doubled(x: int, p: int)
    requires p > 0
    ensures x % (2 * p) == 2 * ((x / 2) % p) + x % 2
  {
    var h := x / 2;
    assert h == p * (h / p) + h % p;
    assert x == 2 * p * (h / p) + (2 * (h % p) + x % 2);
    ModUnique(x, 2 * p, h / p, 2 * (h % p) + x % 2);
  }

  // ------------------------------------------------------------------
  // Bitwise operations on kinds

  lemma SizeIsPow2(k: Kind)
    requires IsKind(k)
    ensures Size(k) == Pow2(k.bits) && Size(k) / 2 == Pow2(k.bits - 1) && Pow2(63) == TWO63
  {
    Pow2Sizes();
  }

  lemma CanonicalFits(k: Kind, x: Int64)
    requires IsKind(k) && Canonical(k, x)
    ensures Fits(x, 63) && (!k.unsigned ==> Fits(x, k.bits - 1)) && (k.unsigned && k.bits < 64 ==> Fits(x, k.bits) && x >= 0)
  {
    SizeIsPow2(k);
  }

  /** concreteBinOp's bitwise operations: only the last two are normalised. */
  function BitArith(k: Kind, op: BitOp, x: Int64, y: Int64): (r: Int64)
    requires IsKind(k)
  {
    Pow2Sizes();
    BitwiseFits(op, x, y, 64, 63);
    var r := Bitwise(op, x, y, 64);
    if op.Xor? || op.AndNot? then Wrap(k, r) else r
  }

  lemma WrapKeepsCanonical(k: Kind, x: Int64)
    requires IsKind(k) && Canonical(k, x)
    ensures Wrap(k, x) == x
  {
  }

  lemma BitwiseCanonical(k: Kind, op: BitOp, x: Int64, y: Int64)
    requires IsKind(k) && Canonical(k, x) && Canonical(k, y)
    ensures BitArith(k, op, x, y) == Bitwise(op, x, y, 64)
    ensures Canonical(k, BitArith(k, op, x, y))
  {
    SizeIsPow2(k);
    CanonicalFits(k, x);
    CanonicalFits(k, y);
    BitwiseFits(op, x, y, 64, 63);
    if !k.unsigned {
      BitwiseFits(op, x, y, 64, k.bits - 1);
    } else if k.bits < 64 {
      BitwiseFits(op, x, y, 64, k.bits);
    }
    WrapKeepsCanonical(k, Bitwise(op, x, y, 64));
  }

  lemma MeaningBits(k: Kind, x: Int64, i: nat)
    requires IsKind(k) && Canonical(k, x) && i < k.bits
    ensures Bit(Meaning(k, x), i) <==> Bit(x, i)
  {
    SizeIsPow2(k);
    BitBelow(x, Turns(k, x), k.bits, i);
  }

  /** Bit i of the result's value is the operation on bit i of the operands' values, for every bit of
      the kind, and the result is a representation: with LowBitsDecide, it is the one. */
  lemma BitwiseIsGo(k: Kind, op: BitOp, x: Int64, y: Int64, i: nat)
    requires IsKind(k) && Canonical(k, x) && Canonical(k, y) && i < k.bits
    ensures Canonical(k, BitArith(k, op, x, y))
    ensures Bit(Meaning(k, BitArith(k, op, x, y)), i) <==> Holds(op, Bit(Meaning(k, x), i), Bit(Meaning(k, y), i))
  {
    BitwiseCanonical(k, op, x, y);
    CanonicalFits(k, x);
    CanonicalFits(k, y);
    Pow2Grows(63, 64);
    BitwiseBits(op, x, y, 64, i);
    MeaningBits(k, x, i);
    MeaningBits(k, y, i);
    MeaningBits(k, BitArith(k, op, x, y), i);
  }

  /** Two values of a kind with the same bits are equal. */
  lemma BitsDecideValue(k: Kind, x: Int64, y: Int64)
    requires IsKind(k) && Canonical(k, x) && Canonical(k, y)
    requires forall i: nat :: i < k.bits ==> (Bit(x, i) <==> Bit(y, i))
    ensures x == y
  {
    SizeIsPow2(k);
    LowBitsDecide(x, y, k.bits);
    RepresentsReduced(k, x, y);
    RepresentsReduced(k, y, y);
    MeaningInjective(k, x, y);
  }

  /** Bitwise complement. */
  function Complement(k: Kind, x: Int64): Int64
    requires IsKind(k)
  {
    Wrap(k, -1 - x)
  }

  lemma {:induction false} ComplementBits(x: int, i: nat)
    ensures Bit(-1 - x, i) <==> !Bit(x, i)
    decreases i
  {
    if i > 0 {
      assert (-1 - x) / 2 == -1 - x / 2;
      ComplementBits(x / 2, i - 1);
    }
  }

  lemma Apart(a: int, b: int, m: int)
    requires m > 0 && a % m == b % m
    ensures a == b + m * (a / m - b / m)
  {
  }

  lemma SameBits(k: Kind, a: int, b: int, i: nat)
    requires IsKind(k) && Same(k, a, b) && i < k.bits
    ensures Bit(a, i) <==> Bit(b, i)
  {
    SizeIsPow2(k);
    Apart(a, b, Size(k));
    BitBelow(b, a / Size(k) - b / Size(k), k.bits, i);
  }

  lemma ComplementIsGo(k: Kind, x: Int64, i: nat)
    requires IsKind(k) && Canonical(k, x) && i < k.bits
    ensures Canonical(k, Complement(k, x))
    ensures Bit(Meaning(k, Complement(k, x)), i) <==> !Bit(Meaning(k, x), i)
  {
    WrapRepresents(k, -1 - x);
    SameBits(k, Complement(k, x), -1 - x, i);
    ComplementBits(x, i);
    MeaningBits(k, x, i);
    MeaningBits(k, Complement(k, x), i);
  }

  // ------------------------------------------------------------------
  // Shifts

  /** x << cnt. */
  function Shl(k: Kind, x: Int64, cnt: nat): Int64
    requires IsKind(k)
  {
    if cnt >= k.bits then 0 else Wrap(k, To64(x * Pow2(cnt)))
  }

  lemma Distributes(x: int, m: int, t: int, p: int)
    ensures (x + m * t) * p == x * p + m * (t * p)
  {
    assert (m * t) * p == m * (t * p);
  }

  lemma MultipleIsZero(k: Kind, a: int, t: int)
    requires IsKind(k) && a == Size(k) * t
    ensures Reduce(k, a) == 0
  {
    SameShift(k, a, 0, t);
  }

  lemma MovedOut(v: int, m: int, q: int)
    ensures v * (m * q) == m * (q * v)
  {
  }

  lemma OversizedShift(k: Kind, v: int, cnt: nat)
    requires IsKind(k) && cnt >= k.bits
    ensures Reduce(k, v * Pow2(cnt)) == 0
  {
    var m, q := Size(k), Pow2(cnt - k.bits);
    assert Pow2(cnt) == m * q by {
      SizeIsPow2(k);
      Pow2Adds(k.bits, cnt - k.bits);
    }
    MovedOut(v, m, q);
    MultipleIsZero(k, v * Pow2(cnt), q * v);
  }

  lemma ShiftedSame(k: Kind, x: Int64, p: int)
    requires IsKind(k) && Canonical(k, x)
    ensures Reduce(k, Meaning(k, x) * p) == Reduce(k, x * p)
  {
    Distributes(x, Size(k), Turns(k, x), p);
    SameShift(k, Meaning(k, x) * p, x * p, Turns(k, x) * p);
  }

  /** A left shift multiplies by 2^cnt and wraps around, for every count. */
  lemma ShlIsGo(k: Kind, x: Int64, cnt: nat)
    requires IsKind(k) && Canonical(k, x)
    ensures Canonical(k, Shl(k, x, cnt)) && Meaning(k, Shl(k, x, cnt)) == Reduce(k, Meaning(k, x) * Pow2(cnt))
  {
    if cnt >= k.bits {
      OversizedShift(k, Meaning(k, x), cnt);
    } else {
      WrapTo64(k, x * Pow2(cnt));
      ShiftedSame(k, x, Pow2(cnt));
    }
  }

  /** x >> cnt. */
  function Shr(k: Kind, x: Int64, cnt: nat): Int64
    requires IsKind(k)
  {
    if k.unsigned then
      if cnt >= 64 then 0 else Wrap(k, To64(U64(x) / Pow2(cnt)))
    else
      FloorFits(x, Pow2(if cnt >= 64 then 63 else cnt));
      x / Pow2(if cnt >= 64 then 63 else cnt)
  }

  /** Floor division by a positive number moves toward zero, or to -1. */
  lemma FloorFits(x: int, p: int)
    requires p > 0
    ensures if x >= 0 then 0 <= x / p <= x else x <= x / p < 0
  {
    var q, r := x / p, x % p;
    assert x == p * q + r;
    if x >= 0 {
      if q < 0 {
        AtLeast(p, -q, 1);
      }
      AtLeast(p, if q < 0 then 0 else q, 1);
    } else {
      if q >= 0 {
        AtLeast(p, q, 0);
      } else {
        AtLeast(p, -q, 1);
        NegatedFloor(x, p, q, r);
      }
    }
  }

  lemma NegatedFloor(x: int, p: int, q: int, r: int)
    requires p > 0 && q < 0 && 0 <= r < p && x == p * q + r
    ensures x <= q
  {
    var a := -q - 1;
    AtLeast(p, a, 1);
    assert p * q == -(p * a) - p;
  }

  lemma SmallFloor(x: int, p: int)
    requires -p <= x < p && p > 0
    ensures x / p == if x < 0 then -1 else 0
  {
    if x < 0 {
      ModUnique(x, p, -1, x + p);
    } else {
      ModUnique(x, p, 0, x);
    }
  }

  /** A right shift is floor division of the value by 2^cnt, for every count. */
  lemma ShrIsGo(k: Kind, x: Int64, cnt: nat)
    requires IsKind(k) && Canonical(k, x)
    ensures Canonical(k, Shr(k, x, cnt)) && Meaning(k, Shr(k, x, cnt)) == Meaning(k, x) / Pow2(cnt)
  {
    var v, p := Meaning(k, x), Pow2(cnt);
    MeaningInRange(k, x);
    FloorFits(v, p);
    Pow2Sizes();
    if cnt >= 64 {
      Pow2Grows(64, cnt);
      SmallFloor(v, p);
      if !k.unsigned {
        SmallFloor(x, Pow2(63));
      }
    } else if k.unsigned {
      WrapTo64(k, v / p);
      ReduceInRange(k, v / p);
    }
  }

  // ------------------------------------------------------------------
  // Floats to integers

  datatype Float = NaN | PosInf | NegInf | Finite(r: real)

  function Trunc(r: real): int {
    if r >= 0.0 then r.Floor else -((-r).Floor)
  }

  function Lowest(k: Kind): int
    requires IsKind(k)
  {
    if k.unsigned then 0 else -(Size(k) / 2)
  }

  function Highest(k: Kind): int
    requires IsKind(k)
  {
    if k.unsigned then Size(k) - 1 else Size(k) / 2 - 1
  }

  /** floatToInt. */
  function FloatToInt(f: Float, k: Kind): Int64
    requires IsKind(k)
  {
    match f
    case NaN => 0
    case PosInf => if k.unsigned then Wrap(k, -1) else Size(k) / 2 - 1
    case NegInf => if k.unsigned then 0 else -(Size(k) / 2)
    case Finite(r) =>
      var t := Trunc(r);
      if k.unsigned then
        if t <= 0 then 0 else if t >= Size(k) then Wrap(k, -1) else Wrap(k, To64(t))
      else if t >= Size(k) / 2 then Size(k) / 2 - 1
      else if t < -(Size(k) / 2) then -(Size(k) / 2)
      else t
  }

  /** Truncated toward zero, and clamped to the kind's range. */
  function Clamped(f: Float, k: Kind): int
    requires IsKind(k)
  {
    match f
    case NaN => 0
    case PosInf => Highest(k)
    case NegInf => Lowest(k)
    case Finite(r) =>
      var t := Trunc(r);
      if t < Lowest(k) then Lowest(k) else if t > Highest(k) then Highest(k) else t
  }

  /** Truncation drops the fraction and keeps the sign. */
  lemma TruncTowardZero(r: real)
    ensures if r >= 0.0 then 0.0 <= Trunc(r) as real <= r < Trunc(r) as real + 1.0
            else Trunc(r) as real - 1.0 < r <= Trunc(r) as real <= 0.0
  {
  }

  lemma AllOnes(k: Kind)
    requires IsKind(k) && k.unsigned
    ensures Canonical(k, Wrap(k, -1)) && Meaning(k, Wrap(k, -1)) == Highest(k)
  {
  }

  /** floatToInt truncates toward zero and saturates at the kind's bounds; NaN gives 0. */
  lemma FloatToIntClamps(f: Float, k: Kind)
    requires IsKind(k)
    ensures Canonical(k, FloatToInt(f, k)) && Meaning(k, FloatToInt(f, k)) == Clamped(f, k)
  {
    if k.unsigned {
      AllOnes(k);
      if f.Finite? && 0 < Trunc(f.r) < Size(k) {
        WrapTo64(k, Trunc(f.r));
        ReduceInRange(k, Trunc(f.r));
      }
    }
  }
}
