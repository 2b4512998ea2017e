/** What executing an instruction on values means in Go: which value is bound for which operands, in
    which order, by width and signedness; and what panics. Operations on floats and complex numbers are
    those of the parameters, on the operands in source order. */
module Evaluation {
  import opened Detector
  import opened Integers
  import opened IntegerBits
  import opened Ssa

  /** Operand x stands for v: a register that holds it, or a constant. */
  predicate StandsFor<R>(core: Core<R>, x: Operand, v: Value) {
    (x.Local? && x.reg in core.locals && core.locals[x.reg] == v) || (x.Const? && x.val == v)
  }

  /** Nothing happens but that v is bound, counted and recorded. */
  function BoundOnly<R>(core: Core<R>, i: Instr, v: Value): Core<R>
    requires !i.Other?
  {
    core.(locals := core.locals[i.dst := v], at := core.at + 1, trace := core.trace + [(i.id, v)])
  }

  /** v is bound, counted and recorded although a run-time panic is reported and begins. */
  function BoundPanicking<R>(core: Core<R>, i: Instr, v: Value, report: Report): Core<R>
    requires !i.Other?
  {
    BoundOnly(core, i, v).(reports := core.reports + [report], panicking := true)
  }

  // ------------------------------------------------------------------
  // Operands

  lemma TwoOperands<R>(sem: Semantics<R>, core: Core<R>, x: Operand, y: Operand, a: Value, b: Value)
    requires StandsFor(core, x, a) && StandsFor(core, y, b)
    ensures ResolveAll(sem, core.locals, core.rest, [x, y]) == (core.rest, [a, b])
  {
    var xs := [x, y];
    ResolvedIsValueOf(sem, core, xs);
    var vs := ResolveAll(sem, core.locals, core.rest, xs).1;
    assert vs[0] == ValueOf(core.locals, xs[0]) == a && vs[1] == ValueOf(core.locals, xs[1]) == b;
    assert vs == [a, b];
  }

  lemma OneOperand<R>(sem: Semantics<R>, core: Core<R>, x: Operand, a: Value)
    requires StandsFor(core, x, a)
    ensures ResolveAll(sem, core.locals, core.rest, [x]) == (core.rest, [a])
  {
    var xs := [x];
    ResolvedIsValueOf(sem, core, xs);
    var vs := ResolveAll(sem, core.locals, core.rest, xs).1;
    assert vs[0] == ValueOf(core.locals, xs[0]) == a;
    assert vs == [a];
  }

  /** A binary operation is that of its two operands, in source order. */
  lemma BinOpExecutes<R>(sem: Semantics<R>, core: Core<R>, i: Instr, a: Value, b: Value)
    requires i.BinOp? && StandsFor(core, i.x, a) && StandsFor(core, i.y, b)
    ensures var e := BinOpConcrete(sem.native, i.id, i.tok, a, b, TypeOf(i.x), TypeOf(i.y));
      Executed(sem, core, i) == Bound(core, i, core.rest, e)
  {
    TwoOperands(sem, core, i.x, i.y, a, b);
  }

  lemma QuietIsBoundOnly<R>(core: Core<R>, i: Instr, v: Value)
    requires !i.Other?
    ensures Bound(core, i, core.rest, Fine(v)) == BoundOnly(core, i, v)
  {
    assert core.reports + [] == core.reports;
  }

  // ------------------------------------------------------------------
  // Integers

  /** i is a binary operation on kind k, applied to the representations a and b in that order. */
  ghost predicate OnIntegers<R>(core: Core<R>, i: Instr, k: IntKind, a: Int64, b: Int64) {
    && i.BinOp? && TypeOf(i.x).under == IntType(k) && StandsFor(core, i.x, Plain(IntV(a))) && StandsFor(core, i.y, Plain(IntV(b)))
    && Canonical(k, a)
  }

  lemma IntBinOpExecutes<R>(sem: Semantics<R>, core: Core<R>, i: Instr, k: IntKind, a: Int64, b: Int64, v: Value)
    requires OnIntegers(core, i, k, a, b) && IntBinOp(k, i.tok, a, b) == Some(v)
    requires var y := Plain(IntV(b)); !DividesByZero(i.tok, y, TypeOf(i.x)) && !ShiftsByNegative(i.tok, y, TypeOf(i.y))
    ensures Executed(sem, core, i) == BoundOnly(core, i, v)
  {
    BinOpExecutes(sem, core, i, Plain(IntV(a)), Plain(IntV(b)));
    QuietIsBoundOnly(core, i, v);
  }

  /** Addition, subtraction, multiplication, division and remainder bind the exact result, wrapped around to
      the operands' kind. */
  lemma ArithmeticIsGo<R>(sem: Semantics<R>, core: Core<R>, i: Instr, k: IntKind, a: Int64, b: Int64) returns (r: Int64)
    requires OnIntegers(core, i, k, a, b) && i.tok.TArith? && Canonical(k, b)
    requires Meaning(k, b) == 0 ==> !i.tok.op.Quo? && !i.tok.op.Rem?
    ensures Executed(sem, core, i) == BoundOnly(core, i, Plain(IntV(r)))
    ensures Canonical(k, r) && Meaning(k, r) == Reduce(k, Exact(i.tok.op, Meaning(k, a), Meaning(k, b)))
  {
    r := Arith(k, i.tok.op, a, b);
    ArithIsGo(k, i.tok.op, a, b);
    IntBinOpExecutes(sem, core, i, k, a, b, Plain(IntV(r)));
  }

  /** Integer division by zero reports, begins a panic and binds 0. */
  lemma DivisionByZeroPanics<R>(sem: Semantics<R>, core: Core<R>, i: Instr, k: IntKind, a: Int64)
    requires OnIntegers(core, i, k, a, 0) && (i.tok == TArith(Quo) || i.tok == TArith(Rem))
    ensures Executed(sem, core, i) == BoundPanicking(core, i, Plain(IntV(0)), DivideByZero(i.id))
  {
    BinOpExecutes(sem, core, i, Plain(IntV(a)), Plain(IntV(0)));
  }

  /** AND, OR, XOR and AND NOT bind the operation on each pair of bits. */
  lemma BitOperationIsGo<R>(sem: Semantics<R>, core: Core<R>, i: Instr, k: IntKind, a: Int64, b: Int64) returns (r: Int64)
    requires OnIntegers(core, i, k, a, b) && i.tok.TBits? && Canonical(k, b)
    ensures Executed(sem, core, i) == BoundOnly(core, i, Plain(IntV(r)))
    ensures Canonical(k, r)
    ensures forall n: nat :: n < k.bits ==> (Bit(Meaning(k, r), n) <==> Holds(i.tok.bop, Bit(Meaning(k, a), n), Bit(Meaning(k, b), n)))
  {
    r := BitArith(k, i.tok.bop, a, b);
    forall n: nat | n < k.bits
      ensures Canonical(k, r) && (Bit(Meaning(k, r), n) <==> Holds(i.tok.bop, Bit(Meaning(k, a), n), Bit(Meaning(k, b), n)))
    {
      BitwiseIsGo(k, i.tok.bop, a, b, n);
    }
    BitwiseIsGo(k, i.tok.bop, a, b, 0);
    IntBinOpExecutes(sem, core, i, k, a, b, Plain(IntV(r)));
  }

  /** A shift by a count that is not negative, of whatever integer kind, binds the product with, or the
      quotient rounded down by, that power of two; a left shift wraps around. */
  lemma ShiftIsGo<R>(sem: Semantics<R>, core: Core<R>, i: Instr, k: IntKind, ky: IntKind, a: Int64, b: Int64) returns (r: Int64)
    requires OnIntegers(core, i, k, a, b) && (i.tok.TShl? || i.tok.TShr?)
    requires TypeOf(i.y).under == IntType(ky) && Canonical(ky, b) && Meaning(ky, b) >= 0
    ensures Executed(sem, core, i) == BoundOnly(core, i, Plain(IntV(r)))
    ensures Canonical(k, r)
    ensures Meaning(k, r) ==
      if i.tok.TShl? then Reduce(k, Meaning(k, a) * Pow2(Meaning(ky, b))) else Meaning(k, a) / Pow2(Meaning(ky, b))
  {
    assert U64(b) == Meaning(ky, b);
    if i.tok.TShl? {
      r := Shl(k, a, U64(b));
      ShlIsGo(k, a, U64(b));
    } else {
      r := Shr(k, a, U64(b));
      ShrIsGo(k, a, U64(b));
    }
    IntBinOpExecutes(sem, core, i, k, a, b, Plain(IntV(r)));
  }

  /** A negative shift count reports, begins a panic and binds 0. */
  lemma NegativeShiftPanics<R>(sem: Semantics<R>, core: Core<R>, i: Instr, k: IntKind, ky: IntKind, a: Int64, b: Int64)
    requires OnIntegers(core, i, k, a, b) && (i.tok.TShl? || i.tok.TShr?)
    requires TypeOf(i.y).under == IntType(ky) && Meaning(ky, b) < 0
    ensures Executed(sem, core, i) == BoundPanicking(core, i, Plain(IntV(0)), NegativeShift(i.id, Meaning(ky, b)))
  {
    BinOpExecutes(sem, core, i, Plain(IntV(a)), Plain(IntV(b)));
  }

  /** A comparison binds the comparison of the values, signed or unsigned. */
  lemma ComparisonIsGo<R>(sem: Semantics<R>, core: Core<R>, i: Instr, k: IntKind, a: Int64, b: Int64)
    requires OnIntegers(core, i, k, a, b) && i.tok.TCmp? && Canonical(k, b)
    ensures Executed(sem, core, i) == BoundOnly(core, i, Plain(BoolV(CompareExact(i.tok.cmp, Meaning(k, a), Meaning(k, b)))))
  {
    CompareIsGo(k, i.tok.cmp, a, b);
    IntBinOpExecutes(sem, core, i, k, a, b, Plain(BoolV(Compare(k, i.tok.cmp, a, b))));
  }

  // ------------------------------------------------------------------
  // Booleans, strings, floats and complex numbers

  /** i is a binary operation on a type that is not an integer, applied to a and b in that order. */
  ghost predicate OnOthers<R>(core: Core<R>, i: Instr, under: Under, a: Raw, b: Raw) {
    && i.BinOp? && TypeOf(i.x).under == under && !under.IntType? && !ShiftToken(i.tok)
    && StandsFor(core, i.x, Plain(a)) && StandsFor(core, i.y, Plain(b))
  }

  predicate ShiftToken(tok: Tok) {
    tok.TShl? || tok.TShr?
  }

  lemma OtherBinOpExecutes<R>(sem: Semantics<R>, core: Core<R>, i: Instr, under: Under, a: Raw, b: Raw, r: Raw)
    requires OnOthers(core, i, under, a, b) && EvalBinOp(sem.native, i.tok, Plain(a), Plain(b)) == Plain(r) && !r.Nil?
    ensures Executed(sem, core, i) ==
      BoundOnly(core, i, Plain(if under == FloatType(true) && r.FloatV? then FloatV(sem.native.round32(r.f)) else r))
  {
    BinOpExecutes(sem, core, i, Plain(a), Plain(b));
    QuietIsBoundOnly(core, i, Plain(if under == FloatType(true) && r.FloatV? then FloatV(sem.native.round32(r.f)) else r));
  }

  lemma BooleanIsGo<R>(sem: Semantics<R>, core: Core<R>, i: Instr, a: bool, b: bool)
    requires OnOthers(core, i, BoolType, BoolV(a), BoolV(b))
    requires i.tok.TAnd? || i.tok.TOr? || i.tok == TCmp(Eql) || i.tok == TCmp(Neq)
    ensures Executed(sem, core, i) ==
      BoundOnly(core, i, Plain(BoolV(if i.tok.TAnd? then a && b else if i.tok.TOr? then a || b else (a == b) == (i.tok == TCmp(Eql)))))
  {
    OtherBinOpExecutes(sem, core, i, BoolType, BoolV(a), BoolV(b),
      BoolV(if i.tok.TAnd? then a && b else if i.tok.TOr? then a || b else (a == b) == (i.tok == TCmp(Eql))));
  }

  /** a comes before b in the order of strings: at the first difference its byte is smaller, or it ends. */
  ghost predicate ComesBefore(a: seq<nat>, b: seq<nat>) {
    exists p :: 0 <= p <= |a| && p < |b| && a[..p] == b[..p] && (p == |a| || a[p] < b[p])
  }

  lemma {:induction false} StringLessIff(a: seq<nat>, b: seq<nat>)
    ensures StringLess(a, b) <==> ComesBefore(a, b)
  {
    if a == [] {
      assert b != [] ==> a[..0] == b[..0];
    } else if b != [] {
      StringLessIff(a[1..], b[1..]);
      if a[0] < b[0] {
        assert a[..0] == b[..0];
      } else if a[0] == b[0] {
        if p :| 0 <= p <= |a[1..]| && p < |b[1..]| && a[1..][..p] == b[1..][..p] && (p == |a[1..]| || a[1..][p] < b[1..][p]) {
          assert a[..p + 1] == [a[0]] + a[1..][..p] == b[..p + 1];
        }
      }
      if p :| 0 <= p <= |a| && p < |b| && a[..p] == b[..p] && (p == |a| || a[p] < b[p]) {
        if p > 0 {
          assert a[0] == a[..p][0] == b[..p][0] == b[0];
          assert a[1..][..p - 1] == a[..p][1..] == b[..p][1..] == b[1..][..p - 1];
        }
      }
    }
  }

  /** A string comparison compares byte by byte. */
  lemma StringComparisonIsGo<R>(sem: Semantics<R>, core: Core<R>, i: Instr, a: seq<nat>, b: seq<nat>) returns (r: bool)
    requires OnOthers(core, i, StringType, StrV(a), StrV(b)) && i.tok.TCmp?
    ensures Executed(sem, core, i) == BoundOnly(core, i, Plain(BoolV(r)))
    ensures match i.tok.cmp
      case Eql => r <==> a == b
      case Neq => r <==> a != b
      case Lss => r <==> ComesBefore(a, b)
      case Leq => r <==> !ComesBefore(b, a)
      case Gtr => r <==> ComesBefore(b, a)
      case Geq => r <==> !ComesBefore(a, b)
  {
    r := StringCompare(i.tok.cmp, a, b);
    StringLessIff(a, b);
    StringLessIff(b, a);
    OtherBinOpExecutes(sem, core, i, StringType, StrV(a), StrV(b), BoolV(r));
  }

  lemma ConcatenationIsGo<R>(sem: Semantics<R>, core: Core<R>, i: Instr, a: seq<nat>, b: seq<nat>)
    requires OnOthers(core, i, StringType, StrV(a), StrV(b)) && i.tok == TArith(Add)
    ensures Executed(sem, core, i) == BoundOnly(core, i, Plain(StrV(a + b)))
  {
    OtherBinOpExecutes(sem, core, i, StringType, StrV(a), StrV(b), StrV(a + b));
  }

  /** Float arithmetic is that of float64, rounded to float32 for that type; comparisons are not rounded. */
  lemma FloatsInOrder<R>(sem: Semantics<R>, core: Core<R>, i: Instr, single: bool, a: Bits, b: Bits)
    requires OnOthers(core, i, FloatType(single), FloatV(a), FloatV(b)) && (i.tok.TCmp? || (i.tok.TArith? && !i.tok.op.Rem?))
    ensures Executed(sem, core, i) ==
      BoundOnly(core, i, Plain(if i.tok.TCmp? then BoolV(sem.native.floatCmp(i.tok.cmp, a, b))
                               else var r := sem.native.floatArith(i.tok.op, a, b); FloatV(if single then sem.native.round32(r) else r)))
  {
    OtherBinOpExecutes(sem, core, i, FloatType(single), FloatV(a), FloatV(b),
      if i.tok.TCmp? then BoolV(sem.native.floatCmp(i.tok.cmp, a, b)) else FloatV(sem.native.floatArith(i.tok.op, a, b)));
  }

  /** Complex numbers are equal in both parts; arithmetic takes the operands in source order. */
  lemma ComplexInOrder<R>(sem: Semantics<R>, core: Core<R>, i: Instr, a: Raw, b: Raw)
    requires a.ComplexV? && b.ComplexV? && OnOthers(core, i, ComplexType, a, b)
    requires i.tok == TCmp(Eql) || i.tok == TCmp(Neq) || (i.tok.TArith? && !i.tok.op.Rem? && !sem.native.complexArith(i.tok.op, a, b).Nil?)
    ensures Executed(sem, core, i) ==
      BoundOnly(core, i, Plain(if i.tok.TArith? then sem.native.complexArith(i.tok.op, a, b)
                               else BoolV((sem.native.floatCmp(Eql, a.re, b.re) && sem.native.floatCmp(Eql, a.im, b.im)) == (i.tok == TCmp(Eql)))))
  {
    OtherBinOpExecutes(sem, core, i, ComplexType, a, b,
      if i.tok.TArith? then sem.native.complexArith(i.tok.op, a, b)
      else BoolV((sem.native.floatCmp(Eql, a.re, b.re) && sem.native.floatCmp(Eql, a.im, b.im)) == (i.tok == TCmp(Eql))));
  }

  // ------------------------------------------------------------------
  // Unary operations

  lemma UnOpExecutes<R>(sem: Semantics<R>, core: Core<R>, i: Instr, a: Value)
    requires i.UnOp? && !i.un.ULoad? && !i.un.UArrow? && StandsFor(core, i.x, a)
    ensures Executed(sem, core, i) == BoundOnly(core, i, UnOpValue(sem.native, i.un, a, i.typ))
  {
    OneOperand(sem, core, i.x, a);
    QuietIsBoundOnly(core, i, UnOpValue(sem.native, i.un, a, i.typ));
  }

  /** Negation binds the negative, wrapped around; ^ flips every bit. */
  lemma UnaryIntegerIsGo<R>(sem: Semantics<R>, core: Core<R>, i: Instr, k: IntKind, a: Int64) returns (r: Int64)
    requires i.UnOp? && (i.un.UMinus? || i.un.UCaret?) && i.typ.under == IntType(k) && StandsFor(core, i.x, Plain(IntV(a))) && Canonical(k, a)
    ensures Executed(sem, core, i) == BoundOnly(core, i, Plain(IntV(r)))
    ensures Canonical(k, r)
    ensures i.un.UMinus? ==> Meaning(k, r) == Reduce(k, -Meaning(k, a))
    ensures i.un.UCaret? ==> forall n: nat :: n < k.bits ==> (Bit(Meaning(k, r), n) <==> !Bit(Meaning(k, a), n))
  {
    UnOpExecutes(sem, core, i, Plain(IntV(a)));
    if i.un.UMinus? {
      r := Neg(k, a);
      NegIsGo(k, a);
    } else {
      r := Complement(k, a);
      ComplementIsGo(k, a, 0);
      forall n: nat | n < k.bits
        ensures Bit(Meaning(k, r), n) <==> !Bit(Meaning(k, a), n)
      {
        ComplementIsGo(k, a, n);
      }
    }
  }

  /** ! negates a boolean, - a float or a complex number. */
  lemma UnaryOtherIsGo<R>(sem: Semantics<R>, core: Core<R>, i: Instr, a: Raw)
    requires i.UnOp? && StandsFor(core, i.x, Plain(a))
    requires (i.un.UNot? && a.BoolV?) || (i.un.UMinus? && (a.FloatV? || a.ComplexV?))
    ensures Executed(sem, core, i) ==
      BoundOnly(core, i, Plain(if a.BoolV? then BoolV(!a.b) else if a.FloatV? then FloatV(sem.native.floatNeg(a.f)) else sem.native.complexNeg(a)))
  {
    UnOpExecutes(sem, core, i, Plain(a));
  }

  // ------------------------------------------------------------------
  // Conversions and calls

  /** i converts a from one type to another, neither of which is named like unsafe.Pointer. */
  ghost predicate Converts<R>(core: Core<R>, i: Instr, from: Under, to: Under, a: Raw) {
    && i.Convert? && TypeOf(i.x).under == from && i.typ.under == to && UnsafeOpOf(TypeOf(i.x), i.typ) == NotUnsafe
    && StandsFor(core, i.x, Plain(a))
  }

  lemma ConvertExecutes<R>(sem: Semantics<R>, core: Core<R>, i: Instr, from: Under, to: Under, a: Raw)
    requires Converts(core, i, from, to, a) && !from.SliceType? && !to.SliceType?
    ensures var r := ConvertNumeric(sem.native, Plain(a), TypeOf(i.x), i.typ);
      Executed(sem, core, i) ==
        BoundOnly(core, i, if r.Some? then r.value else ConvertRest(sem.native, Plain(a), TypeOf(i.x), i.typ))
  {
    OneOperand(sem, core, i.x, Plain(a));
    var r := ConvertNumeric(sem.native, Plain(a), TypeOf(i.x), i.typ);
    QuietIsBoundOnly(core, i, if r.Some? then r.value else ConvertRest(sem.native, Plain(a), TypeOf(i.x), i.typ));
  }

  /** Between integer kinds the value is kept modulo the target's size, and exactly when it fits. */
  lemma IntegerConversionIsGo<R>(sem: Semantics<R>, core: Core<R>, i: Instr, from: IntKind, to: IntKind, a: Int64) returns (r: Int64)
    requires Converts(core, i, IntType(from), IntType(to), IntV(a)) && Canonical(from, a)
    ensures Executed(sem, core, i) == BoundOnly(core, i, Plain(IntV(r)))
    ensures Canonical(to, r) && Meaning(to, r) == Reduce(to, Meaning(from, a))
    ensures InRange(to, Meaning(from, a)) ==> Meaning(to, r) == Meaning(from, a)
  {
    r := Wrap(to, a);
    ConvertIsGo(from, to, a);
    ConvertExecutes(sem, core, i, IntType(from), IntType(to), IntV(a));
  }

  /** An integer becomes the float nearest to its value, signed or unsigned. */
  lemma IntegerToFloat<R>(sem: Semantics<R>, core: Core<R>, i: Instr, from: IntKind, single: bool, a: Int64)
    requires Converts(core, i, IntType(from), FloatType(single), IntV(a))
    ensures var n := Meaning(from, a);
      Executed(sem, core, i) == BoundOnly(core, i, Plain(FloatV(if single then sem.native.fromInt32(n) else sem.native.fromInt(n))))
  {
    ConvertExecutes(sem, core, i, IntType(from), FloatType(single), IntV(a));
  }

  /** A float becomes its truncation, clamped to the kind's range. */
  lemma FloatToInteger<R>(sem: Semantics<R>, core: Core<R>, i: Instr, single: bool, to: IntKind, a: Bits) returns (r: Int64)
    requires Converts(core, i, FloatType(single), IntType(to), FloatV(a))
    ensures Executed(sem, core, i) == BoundOnly(core, i, Plain(IntV(r)))
    ensures Canonical(to, r) && Meaning(to, r) == Clamped(sem.native.decode(a), to)
  {
    r := FloatToInt(sem.native.decode(a), to);
    FloatToIntClamps(sem.native.decode(a), to);
    ConvertExecutes(sem, core, i, FloatType(single), IntType(to), FloatV(a));
  }

  /** A float becomes a float, rounded when the target is float32. */
  lemma FloatToFloat<R>(sem: Semantics<R>, core: Core<R>, i: Instr, from: bool, to: bool, a: Bits)
    requires Converts(core, i, FloatType(from), FloatType(to), FloatV(a))
    ensures Executed(sem, core, i) == BoundOnly(core, i, Plain(FloatV(if to then sem.native.round32(a) else a)))
  {
    ConvertExecutes(sem, core, i, FloatType(from), FloatType(to), FloatV(a));
  }

  /** An integer becomes the string of that rune, or a complex number without an imaginary part, as does a
      float. */
  lemma OtherConversions<R>(sem: Semantics<R>, core: Core<R>, i: Instr, from: Under, to: Under, a: Raw)
    requires Converts(core, i, from, to, a)
    requires (from.IntType? && a.IntV? && (to.StringType? || to.ComplexType?)) || (from.FloatType? && a.FloatV? && to.ComplexType?)
    ensures Executed(sem, core, i) ==
      BoundOnly(core, i, Plain(
        if to.StringType? then StrV(sem.native.runeString(a.n))
        else ComplexV(if a.IntV? then sem.native.fromInt(a.n) else a.f, sem.native.zero)))
  {
    ConvertExecutes(sem, core, i, from, to, a);
  }

  /** A change of type keeps the value. */
  lemma ChangeTypeKeepsValue<R>(sem: Semantics<R>, core: Core<R>, i: Instr, a: Value)
    requires i.ChangeType? && StandsFor(core, i.x, a)
    ensures Executed(sem, core, i) == BoundOnly(core, i, a)
  {
    OneOperand(sem, core, i.x, a);
    QuietIsBoundOnly(core, i, a);
  }

  /** A pure intercept is called with the arguments in order; the safepoint is checked, and its panic is
      the call's. */
  lemma CallPassesArguments<R>(sem: Semantics<R>, core: Core<R>, i: Instr, vs: seq<Value>)
    requires i.Call? && i.callee.Static? && i.callee.impl.Some? && i.callee.impl.value.1
    requires |vs| == |i.args| && forall k :: 0 <= k < |vs| ==> StandsFor(core, i.args[k], vs[k])
    ensures var out := sem.native.intercept(i.callee.impl.value.0, vs);
      Executed(sem, core, i) ==
        BoundOnly(core, i, if out.Gave? then out.v else Plain(Nil)).(
          reports := core.reports + sem.safepoint(core.rest), panicking := core.panicking || out.Threw?)
  {
    ResolvedIsValueOf(sem, core, i.args);
    assert ResolveAll(sem, core.locals, core.rest, i.args).1 == vs;
  }

  // ------------------------------------------------------------------
  // Purity

  /** Pure are exactly the instructions that bind a value without loading or receiving and touch scalar
      types only, operands and result. */
  lemma PureIff(i: Instr)
    ensures IsPure(i) <==>
      BindsValue(i) && !i.Other? && IsScalarType(i.typ) && forall k :: 0 <= k < |Inputs(i)| ==> IsScalarType(TypeOf(Inputs(i)[k]))
  {
    match i
    case BinOp(_, _, _, x, y, _) => assert Inputs(i)[0] == x && Inputs(i)[1] == y;
    case UnOp(_, _, _, x, _) => assert Inputs(i)[0] == x;
    case Convert(_, _, x, _) => assert Inputs(i)[0] == x;
    case ChangeType(_, _, x, _) => assert Inputs(i)[0] == x;
    case Call(_, _, _, args, _) => assert Inputs(i) == args;
    case Other(_, _) =>
  }
}
