/** Typed integers (pkg/interpreter/concrete.go). Every integer is held as an int64: unsigned kinds
    zero-extended (64-bit ones as their bit pattern), signed kinds sign-extended. Operations are
    int64 operations followed by a normalisation; the theorems say that they give the values of the
    sections "Arithmetic operators", "Integer overflow" and "Conversions" of The Go Programming
    Language Specification. */
module Integers {
  const TWO64 := 0x1_0000_0000_0000_0000
  const TWO63 := 0x8000_0000_0000_0000

  /** What an int64 can hold. */
  type Int64 = x: int | -TWO63 <= x < TWO63

  /** An int64 result: overflow wraps. */
  function To64(n: int): (x: Int64) {
    var r := n % TWO64;
    if r < TWO63 then r else r - TWO64
  }

  /** The uint64 with the same bits. */
  function U64(x: Int64): (u: nat)
    ensures u < TWO64 && (u == 0 <==> x == 0)
  {
    if x < 0 then x + TWO64 else x
  }

  datatype Kind = Kind(bits: nat, unsigned: bool)

  predicate IsKind(k: Kind) {
    k.bits == 8 || k.bits == 16 || k.bits == 32 || k.bits == 64
  }

  /** Two to the number of bits. */
  function Size(k: Kind): (m: nat)
    requires IsKind(k)
    ensures m > 0
  {
    if k.bits == 8 then 0x100 else if k.bits == 16 then 0x1_0000
    else if k.bits == 32 then 0x1_0000_0000 else TWO64
  }

  function Low(k: Kind, v: int, m: nat): int
    requires m > 0
  {
    var r := v % m;
    if k.unsigned || r < m / 2 then r else r - m
  }

  /** wrap. */
  function Wrap(k: Kind, v: Int64): (r: Int64)
    requires IsKind(k)
  {
    if k.bits == 64 then v else Low(k, v, Size(k))
  }

  // ------------------------------------------------------------------
  // Go's values

  predicate InRange(k: Kind, n: int)
    requires IsKind(k)
  {
    if k.unsigned then 0 <= n < Size(k) else -(Size(k) / 2) <= n < Size(k) / 2
  }

  /** The value of n in kind k: congruent to n modulo 2^bits, and in the range of k. */
  function Reduce(k: Kind, n: int): (v: int)
    requires IsKind(k)
    ensures InRange(k, v)
  {
    Low(k, n, Size(k))
  }

  /** x represents a value of kind k. */
  predicate Canonical(k: Kind, x: Int64)
    requires IsKind(k)
  {
    (k.unsigned && k.bits == 64) || InRange(k, x)
  }

  /** The Go value that x represents. */
  function Meaning(k: Kind, x: Int64): int {
    if k.unsigned then U64(x) else x
  }

  /** a and b agree modulo 2^bits. */
  predicate Same(k: Kind, a: int, b: int)
    requires IsKind(k)
  {
    a % Size(k) == b % Size(k)
  }

  lemma MeaningInRange(k: Kind, x: Int64)
    requires IsKind(k) && Canonical(k, x)
    ensures InRange(k, Meaning(k, x)) && Same(k, Meaning(k, x), x)
  {
  }

  /** A representation is determined by the value modulo 2^bits. */
  lemma RepresentsReduced(k: Kind, r: Int64, n: int)
    requires IsKind(k) && Canonical(k, r) && Same(k, r, n)
    ensures Meaning(k, r) == Reduce(k, n)
  {
  }

  /** Reducing picks the one value in range, so equal representations are equal values. */
  lemma MeaningInjective(k: Kind, x: Int64, y: Int64)
    requires IsKind(k) && Canonical(k, x) && Canonical(k, y)
    ensures Meaning(k, x) == Meaning(k, y) <==> x == y
  {
  }

  /** How many times 2^bits goes into 2^64. */
  function Ratio(k: Kind): nat
    requires IsKind(k)
  {
    if k.bits == 8 then 0x100_0000_0000_0000 else if k.bits == 16 then 0x1_0000_0000_0000
    else if k.bits == 32 then 0x1_0000_0000 else 1
  }

  lemma To64Same(k: Kind, n: int)
    requires IsKind(k)
    ensures Same(k, To64(n), n)
  {
    var t := n / TWO64;
    if n % TWO64 < TWO63 {
      assert To64(n) == n + Size(k) * (-(Ratio(k) * t));
      SameShift(k, To64(n), n, -(Ratio(k) * t));
    } else {
      assert To64(n) == n + Size(k) * (-(Ratio(k) * (t + 1)));
      SameShift(k, To64(n), n, -(Ratio(k) * (t + 1)));
    }
  }

  /** wrap gives a representation of the same value modulo 2^bits. */
  lemma WrapRepresents(k: Kind, v: Int64)
    requires IsKind(k)
    ensures Canonical(k, Wrap(k, v)) && Same(k, Wrap(k, v), v)
  {
    if k.bits != 64 {
      var m, q := Size(k), v / Size(k);
      assert v == m * q + v % m;
      if k.unsigned || v % m < m / 2 {
        SameShift(k, Wrap(k, v), v, -q);
      } else {
        assert Wrap(k, v) == v + m * (-q - 1);
        SameShift(k, Wrap(k, v), v, -q - 1);
      }
    }
  }

  lemma WrapTo64(k: Kind, n: int)
    requires IsKind(k)
    ensures Canonical(k, Wrap(k, To64(n))) && Meaning(k, Wrap(k, To64(n))) == Reduce(k, n)
  {
    To64Same(k, n);
    WrapRepresents(k, To64(n));
    RepresentsReduced(k, Wrap(k, To64(n)), n);
  }

  // ------------------------------------------------------------------
  // Congruence

  lemma AtLeast(n: int, q: int, c: int)
    requires n >= c && q >= 0
    ensures n * q >= c * q
  {
    assert n * q == c * q + (n - c) * q;
  }

  /** Quotient and remainder are determined. */
  lemma ModUnique(a: int, m: int, q: int, r: int)
    requires 0 <= r < m && a == m * q + r
    ensures a % m == r && a / m == q
  {
    var d := a / m - q;
    assert m * d == m * (a / m) - m * q;
    if d >= 1 {
      AtLeast(d, m, 1);
    } else if d <= -1 {
      AtLeast(-d, m, 1);
    }
  }

  lemma SameShift(k: Kind, a: int, b: int, t: int)
    requires IsKind(k) && a == b + Size(k) * t
    ensures Same(k, a, b)
  {
    var m := Size(k);
    assert b == m * (b / m) + b % m;
    assert a == m * (b / m + t) + b % m;
    ModUnique(a, m, b / m + t, b % m);
  }

  lemma ReduceInRange(k: Kind, n: int)
    requires IsKind(k) && InRange(k, n)
    ensures Reduce(k, n) == n
  {
  }

  /** Two representations of one value differ by a multiple of 2^bits. */
  function Turns(k: Kind, x: Int64): (t: int)
    requires IsKind(k) && Canonical(k, x)
    ensures Meaning(k, x) == x + Size(k) * t
  {
    if k.unsigned && x < 0 then 1 else 0
  }

  lemma AddSame(k: Kind, x: Int64, y: Int64)
    requires IsKind(k) && Canonical(k, x) && Canonical(k, y)
    ensures Reduce(k, x + y) == Reduce(k, Meaning(k, x) + Meaning(k, y))
    ensures Reduce(k, x - y) == Reduce(k, Meaning(k, x) - Meaning(k, y))
  {
    SameShift(k, Meaning(k, x) + Meaning(k, y), x + y, Turns(k, x) + Turns(k, y));
    SameShift(k, Meaning(k, x) - Meaning(k, y), x - y, Turns(k, x) - Turns(k, y));
  }

  lemma MulSame(k: Kind, x: Int64, y: Int64)
    requires IsKind(k) && Canonical(k, x) && Canonical(k, y)
    ensures Reduce(k, x * y) == Reduce(k, Meaning(k, x) * Meaning(k, y))
  {
    var m, a, b := Size(k), Turns(k, x), Turns(k, y);
    var t := x * b + y * a + m * a * b;
    calc {
      Meaning(k, x) * Meaning(k, y);
      (x + m * a) * (y + m * b);
      x * y + m * (x * b + y * a + m * a * b);
    }
    SameShift(k, Meaning(k, x) * Meaning(k, y), x * y, t);
  }

  // ------------------------------------------------------------------
  // Division

  /** Integer division that truncates toward zero, and its remainder. */
  function TruncDiv(a: int, b: int): int
    requires b != 0
  {
    var q := Abs(a) / Abs(b);
    if (a < 0) == (b < 0) then q else -q
  }

  function TruncRem(a: int, b: int): int
    requires b != 0
  {
    var r := Abs(a) % Abs(b);
    if a < 0 then -r else r
  }

  function Abs(a: int): nat {
    if a < 0 then -a else a
  }

  lemma SignedSplit(a: int, b: int, q: int, r: int)
    requires Abs(a) == Abs(b) * q + r
    ensures a == (if (a < 0) == (b < 0) then q else -q) * b + (if a < 0 then -r else r)
  {
    assert -q * b == -(q * b);
    if b < 0 {
      assert Abs(b) * q == -(q * b);
    } else {
      assert Abs(b) * q == q * b;
    }
  }

  /** The quotient and remainder of the specification: x = q*y + r with |r| < |y|, and r is zero or
      has the sign of x. */
  lemma TruncatedDivision(a: int, b: int)
    requires b != 0
    ensures a == TruncDiv(a, b) * b + TruncRem(a, b)
    ensures Abs(TruncRem(a, b)) < Abs(b) && (TruncRem(a, b) == 0 || (TruncRem(a, b) < 0 <==> a < 0))
  {
    SignedSplit(a, b, Abs(a) / Abs(b), Abs(a) % Abs(b));
  }

  lemma QuotientShrinks(m: nat, n: nat)
    requires n > 0
    ensures m / n <= m && m % n <= m
  {
    AtLeast(n, m / n, 1);
  }

  lemma QuotientHalves(m: nat, n: nat)
    requires n > 1
    ensures 2 * (m / n) <= m
  {
    AtLeast(n, m / n, 2);
  }

  lemma DivisionFits(a: int, b: int)
    requires b != 0
    ensures Abs(TruncDiv(a, b)) <= Abs(a) && Abs(TruncRem(a, b)) <= Abs(a)
  {
    QuotientShrinks(Abs(a), Abs(b));
  }

  // ------------------------------------------------------------------
  // Arithmetic

  datatype Op = Add | Sub | Mul | Quo | Rem

  /** concreteBinOp on integers, arithmetic; division by zero yields 0 and the caller panics. */
  function Arith(k: Kind, op: Op, x: Int64, y: Int64): (r: Int64)
    requires IsKind(k)
  {
    match op
    case Add => Wrap(k, To64(x + y))
    case Sub => Wrap(k, To64(x - y))
    case Mul => Wrap(k, To64(x * y))
    case Quo =>
      if y == 0 then 0
      else if k.unsigned then Wrap(k, To64(U64(x) / U64(y)))
      else Wrap(k, To64(TruncDiv(x, y)))
    case Rem =>
      if y == 0 then 0
      else if k.unsigned then Wrap(k, To64(U64(x) % U64(y)))
      else Wrap(k, To64(TruncRem(x, y)))
  }

  /** The exact mathematical result. */
  function Exact(op: Op, a: int, b: int): int
    requires b == 0 ==> !op.Quo? && !op.Rem?
  {
    match op
    case Add => a + b
    case Sub => a - b
    case Mul => a * b
    case Quo => TruncDiv(a, b)
    case Rem => TruncRem(a, b)
  }

  lemma DivideIsGo(k: Kind, op: Op, x: Int64, y: Int64)
    requires IsKind(k) && Canonical(k, x) && Canonical(k, y) && y != 0 && (op.Quo? || op.Rem?)
    ensures Meaning(k, y) != 0 && Canonical(k, Arith(k, op, x, y))
    ensures Meaning(k, Arith(k, op, x, y)) == Reduce(k, Exact(op, Meaning(k, x), Meaning(k, y)))
  {
    WrapTo64(k, Exact(op, Meaning(k, x), Meaning(k, y)));
  }

  /** For every width and signedness, arithmetic on representations represents the exact result
      wrapped around to the kind. */
  lemma ArithIsGo(k: Kind, op: Op, x: Int64, y: Int64)
    requires IsKind(k) && Canonical(k, x) && Canonical(k, y) && (y == 0 ==> !op.Quo? && !op.Rem?)
    ensures Meaning(k, y) == 0 ==> y == 0
    ensures Canonical(k, Arith(k, op, x, y))
    ensures Meaning(k, Arith(k, op, x, y)) == Reduce(k, Exact(op, Meaning(k, x), Meaning(k, y)))
  {
    match op
    case Add => AddSame(k, x, y); WrapTo64(k, x + y);
    case Sub => AddSame(k, x, y); WrapTo64(k, x - y);
    case Mul => MulSame(k, x, y); WrapTo64(k, x * y);
    case Quo => DivideIsGo(k, op, x, y);
    case Rem => DivideIsGo(k, op, x, y);
  }

  lemma SignedQuotientRange(a: int, b: int, half: int)
    requires b != 0 && half > 0 && -half <= a < half
    ensures TruncDiv(a, b) >= -half
    ensures TruncDiv(a, b) >= half <==> a == -half && b == -1
    ensures TruncDiv(a, b) <= half
  {
    QuotientShrinks(Abs(a), Abs(b));
    if Abs(b) > 1 {
      QuotientHalves(Abs(a), Abs(b));
    } else {
      ModUnique(Abs(a), 1, Abs(a), 0);
    }
  }

  predicate Overflows(k: Kind, x: Int64, y: Int64)
    requires IsKind(k)
  {
    !k.unsigned && x == -(Size(k) / 2) && y == -1
  }

  lemma QuotientInRange(k: Kind, x: Int64, y: Int64)
    requires IsKind(k) && Canonical(k, x) && Canonical(k, y) && y != 0
    ensures Meaning(k, y) != 0
    ensures InRange(k, TruncDiv(Meaning(k, x), Meaning(k, y))) <==> !Overflows(k, x, y)
  {
    MeaningInRange(k, x);
    var a, b := Meaning(k, x), Meaning(k, y);
    if k.unsigned {
      DivisionFits(a, b);
    } else {
      SignedQuotientRange(a, b, Size(k) / 2);
    }
  }

  lemma OverflowYieldsDividend(k: Kind, x: Int64, y: Int64)
    requires IsKind(k) && Canonical(k, x) && Canonical(k, y) && Overflows(k, x, y)
    ensures Arith(k, Quo, x, y) == x
  {
    ModUnique(Abs(x), 1, Abs(x), 0);
    assert TruncDiv(x, y) == Size(k) / 2;
  }

  /** Division overflows only for the most negative value divided by -1, which yields the dividend. */
  lemma QuotientOverflow(k: Kind, x: Int64, y: Int64)
    requires IsKind(k) && Canonical(k, x) && Canonical(k, y) && y != 0
    ensures Meaning(k, y) != 0
    ensures if Overflows(k, x, y) then Arith(k, Quo, x, y) == x
            else Meaning(k, Arith(k, Quo, x, y)) == TruncDiv(Meaning(k, x), Meaning(k, y))
  {
    QuotientInRange(k, x, y);
    if Overflows(k, x, y) {
      OverflowYieldsDividend(k, x, y);
    } else {
      ArithIsGo(k, Quo, x, y);
      ReduceInRange(k, TruncDiv(Meaning(k, x), Meaning(k, y)));
    }
  }

  /** A remainder never overflows. */
  lemma RemainderIsExact(k: Kind, x: Int64, y: Int64)
    requires IsKind(k) && Canonical(k, x) && Canonical(k, y) && y != 0
    ensures Meaning(k, y) != 0
    ensures Meaning(k, Arith(k, Rem, x, y)) == TruncRem(Meaning(k, x), Meaning(k, y))
  {
    ArithIsGo(k, Rem, x, y);
    MeaningInRange(k, x);
    var a, b := Meaning(k, x), Meaning(k, y);
    DivisionFits(a, b);
    TruncatedDivision(a, b);
    ReduceInRange(k, TruncRem(a, b));
  }

  /** Negation. */
  function Neg(k: Kind, x: Int64): Int64
    requires IsKind(k)
  {
    Wrap(k, To64(0 - x))
  }

  lemma NegIsGo(k: Kind, x: Int64)
    requires IsKind(k) && Canonical(k, x)
    ensures Canonical(k, Neg(k, x)) && Meaning(k, Neg(k, x)) == Reduce(k, -Meaning(k, x))
  {
    WrapTo64(k, 0 - x);
    SameShift(k, -Meaning(k, x), 0 - x, -Turns(k, x));
  }

  // ------------------------------------------------------------------
  // Comparison and conversion

  datatype Cmp = Eql | Neq | Lss | Leq | Gtr | Geq

  function Compare(k: Kind, op: Cmp, x: Int64, y: Int64): bool {
    match op
    case Eql => x == y
    case Neq => x != y
    case Lss => if k.unsigned then U64(x) < U64(y) else x < y
    case Leq => if k.unsigned then U64(x) <= U64(y) else x <= y
    case Gtr => if k.unsigned then U64(x) > U64(y) else x > y
    case Geq => if k.unsigned then U64(x) >= U64(y) else x >= y
  }

  function CompareExact(op: Cmp, a: int, b: int): bool {
    match op
    case Eql => a == b
    case Neq => a != b
    case Lss => a < b
    case Leq => a <= b
    case Gtr => a > b
    case Geq => a >= b
  }

  /** Comparisons compare the values. */
  lemma CompareIsGo(k: Kind, op: Cmp, x: Int64, y: Int64)
    requires IsKind(k) && Canonical(k, x) && Canonical(k, y)
    ensures Compare(k, op, x, y) == CompareExact(op, Meaning(k, x), Meaning(k, y))
  {
    MeaningInjective(k, x, y);
  }

  /** Converting between integer kinds keeps the value modulo the target's size; exactly, when the
      target can represent it. */
  lemma ConvertIsGo(from: Kind, to: Kind, x: Int64)
    requires IsKind(from) && IsKind(to) && Canonical(from, x)
    ensures Canonical(to, Wrap(to, x)) && Meaning(to, Wrap(to, x)) == Reduce(to, Meaning(from, x))
    ensures InRange(to, Meaning(from, x)) ==> Meaning(to, Wrap(to, x)) == Meaning(from, x)
  {
    WrapRepresents(to, x);
    var m := Meaning(from, x);
    var t := if m == x then 0 else 1;
    assert m == x + Size(to) * (Ratio(to) * t);
    SameShift(to, m, x, Ratio(to) * t);
    RepresentsReduced(to, Wrap(to, x), m);
    if InRange(to, m) {
      ReduceInRange(to, m);
    }
  }
}
