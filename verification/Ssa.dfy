/** The SSA instructions a value cache may answer, and what executing them does in concrete mode
    (pkg/interpreter/session.go, exec.go, concrete.go). Which instructions are pure is decided from
    static types; what they do is decided from run-time representations and printed type names. The
    theorems relate the two. Operations on floats, complex numbers and runes, the pure intercepts and
    everything outside these instructions are parameters. */
module Ssa {
  import opened Detector
  import opened Integers
  import opened IntegerBits
  import Uintptr

  type IntKind = k: Kind | IsKind(k) witness Kind(64, false)

  // ------------------------------------------------------------------
  // Types and values

  datatype Under =
    | BoolType | IntType(kind: IntKind) | FloatType(single: bool) | ComplexType | StringType
    | UnsafePointerType | SliceType | InterfaceType | AggregateType | OtherType

  /** A type by its underlying type, and what its printed name contains: a named type's name is not
      its underlying type's. */
  datatype Type = Type(under: Under, saysUnsafePointer: bool, saysUintptr: bool)

  /** isScalarType. */
  predicate IsScalarType(t: Type) {
    t.under.BoolType? || t.under.IntType? || t.under.FloatType? || t.under.ComplexType? || t.under.StringType?
  }

  /** A float64's bits. */
  type Bits = nat

  datatype Raw =
    | Nil | IntV(n: Int64) | FloatV(f: Bits) | BoolV(b: bool) | StrV(s: seq<nat>) | ComplexV(re: Bits, im: Bits)
    | PtrV(p: Uintptr.Pointer) | SliceV(backed: bool, ref: nat) | OtherV(ref: nat)

  datatype Value = Value(raw: Raw, prov: Option<Uintptr.Pointer>)

  function Plain(raw: Raw): Value {
    Value(raw, None)
  }

  /** isScalarValue. */
  predicate IsScalarValue(v: Value) {
    v.prov.None? && (v.raw.IntV? || v.raw.FloatV? || v.raw.BoolV? || v.raw.StrV? || v.raw.ComplexV?)
  }

  predicate AllScalar(vs: seq<Value>) {
    forall k :: 0 <= k < |vs| ==> IsScalarValue(vs[k])
  }

  // ------------------------------------------------------------------
  // Instructions

  /** A local register, a constant, or the address of a package-level variable. */
  datatype Operand = Local(reg: nat, typ: Type) | Const(val: Value, typ: Type) | Global(id: nat)

  function TypeOf(x: Operand): Type {
    if x.Global? then Type(OtherType, false, false) else x.typ
  }

  datatype Tok = TArith(op: Op) | TBits(bop: BitOp) | TShl | TShr | TCmp(cmp: Cmp) | TAnd | TOr

  datatype UnTok = ULoad | UArrow | UMinus | UNot | UCaret | UOther

  /** What a call calls: impl is the concrete intercept of a static callee, by number. */
  datatype Callee = Builtin | Invoke | Dynamic | Static(impl: Option<(nat, bool)>)

  datatype Instr =
    | BinOp(id: nat, dst: nat, tok: Tok, x: Operand, y: Operand, typ: Type)
    | UnOp(id: nat, dst: nat, un: UnTok, x: Operand, typ: Type)
    | Convert(id: nat, dst: nat, x: Operand, typ: Type)
    | ChangeType(id: nat, dst: nat, x: Operand, typ: Type)
    | Call(id: nat, dst: nat, callee: Callee, args: seq<Operand>, typ: Type)
    | Other(id: nat, cls: nat)

  /** IsPure. */
  predicate IsPure(i: Instr) {
    && !i.Other? && IsScalarType(i.typ)
    && match i
       case BinOp(_, _, _, x, y, _) => IsScalarType(TypeOf(x)) && IsScalarType(TypeOf(y))
       case UnOp(_, _, un, x, _) => !un.ULoad? && !un.UArrow? && IsScalarType(TypeOf(x))
       case Convert(_, _, x, _) => IsScalarType(TypeOf(x))
       case ChangeType(_, _, x, _) => IsScalarType(TypeOf(x))
       case Call(_, _, callee, args, _) =>
         && callee.Static? && callee.impl.Some? && callee.impl.value.1
         && forall k :: 0 <= k < |args| ==> IsScalarType(TypeOf(args[k]))
       case Other(_, _) => false
  }

  const NUM_CLASSES: nat := 12

  /** pureOperands' operands, in order. */
  function Inputs(i: Instr): seq<Operand> {
    match i
    case BinOp(_, _, _, x, y, _) => [x, y]
    case UnOp(_, _, _, x, _) => [x]
    case Convert(_, _, x, _) => [x]
    case ChangeType(_, _, x, _) => [x]
    case Call(_, _, _, args, _) => args
    case Other(_, _) => []
  }

  // ------------------------------------------------------------------
  // Parameters

  datatype Report = DivideByZero(id: nat) | NegativeShift(id: nat, count: int) | OtherReport(n: int)

  datatype Called = Gave(v: Value) | Threw

  /** Native operations on values; none of them sees interpreter memory. */
  datatype Native = Native(
    floatArith: (Op, Bits, Bits) -> Bits, floatCmp: (Cmp, Bits, Bits) -> bool, floatNeg: Bits -> Bits,
    round32: Bits -> Bits, fromInt: int -> Bits, fromInt32: int -> Bits, decode: Bits -> Float, truncate: Bits -> Int64,
    complexArith: (Op, Raw, Raw) -> Raw, complexNeg: Raw -> Raw, zero: Bits, runeString: Int64 -> seq<nat>,
    equal: (Value, Value, Type) -> Option<bool>, convertSlices: (Value, Type, Type) -> Value,
    alignment: (Value, Type) -> seq<Report>, intercept: (nat, seq<Value>) -> Called)

  /** The frame's values, how many instructions of the current block are done, everything else, what was
      reported, what the tracer got, and whether a panic is unwinding or the goroutine has stopped. */
  datatype Core<R> = Core(
    locals: map<nat, Value>, at: nat, rest: R, reports: seq<Report>, trace: seq<(nat, Value)>, panicking: bool, halted: bool)

  /** What depends on the rest of the interpreter. control is everything between two instructions
      (branches, frames, deferred calls and recovery, goroutine switches) and yields the next one, or
      none at the end of the call. */
  datatype Semantics<!R(==)> = Semantics(
    native: Native,
    control: Core<R> -> (Core<R>, Option<Instr>),
    exec: (Core<R>, Instr) -> Core<R>,
    interpreted: (Core<R>, Instr) -> bool,
    addressOf: (R, nat) -> (R, Value),
    slices: (R, Value, Type, Type) -> Option<(R, Value)>,
    safepoint: R -> seq<Report>,
    tracked: bool,
    pin: (R, nat, Uintptr.Pointer) -> R,
    pinned: (R, nat) -> bool,
    clearPins: R -> R,
    bounds: (R, Uintptr.Pointer) -> seq<Report>)

  /** classify. */
  function Classify<R>(sem: Semantics<R>, core: Core<R>, i: Instr): (c: nat)
    ensures c < NUM_CLASSES
  {
    match i
    case BinOp(_, _, tok, _, _, _) => if tok.TCmp? then 1 else 0
    case UnOp(_, _, un, _, _) => if un.ULoad? then 2 else if un.UArrow? then 11 else 0
    case Call(_, _, callee, _, _) => if callee.Builtin? then 7 else if sem.interpreted(core, i) then 6 else 5
    case Convert(_, _, _, _) => 11
    case ChangeType(_, _, _, _) => 11
    case Other(_, cls) => if cls < NUM_CLASSES then cls else 11
  }

  // ------------------------------------------------------------------
  // Binary operations

  const INT64: IntKind := Kind(64, false)

  function Bool(b: bool): Value {
    Plain(BoolV(b))
  }

  /** Byte-wise order of strings. */
  predicate StringLess(a: seq<nat>, b: seq<nat>) {
    b != [] && (a == [] || a[0] < b[0] || (a[0] == b[0] && StringLess(a[1..], b[1..])))
  }

  predicate StringCompare(op: Cmp, a: seq<nat>, b: seq<nat>) {
    match op
    case Eql => a == b
    case Neq => a != b
    case Lss => StringLess(a, b)
    case Leq => !StringLess(b, a)
    case Gtr => StringLess(b, a)
    case Geq => !StringLess(a, b)
  }

  /** The integer branch of concreteBinOp; None for && and ||. */
  function IntBinOp(k: IntKind, tok: Tok, x: Int64, y: Int64): Option<Value> {
    match tok
    case TArith(op) => Some(Plain(IntV(Arith(k, op, x, y))))
    case TBits(op) => Some(Plain(IntV(BitArith(k, op, x, y))))
    case TShl => Some(Plain(IntV(Shl(k, x, U64(y)))))
    case TShr => Some(Plain(IntV(Shr(k, x, U64(y)))))
    case TCmp(op) => Some(Bool(Compare(k, op, x, y)))
    case _ => None
  }

  /** evalBinOp. */
  function EvalBinOp(nv: Native, tok: Tok, x: Value, y: Value): Value {
    match (x.raw, y.raw)
    case (IntV(a), IntV(b)) => var r := IntBinOp(INT64, tok, a, b); if r.Some? then r.value else Plain(Nil)
    case (FloatV(a), FloatV(b)) =>
      if tok.TArith? && !tok.op.Rem? then Plain(FloatV(nv.floatArith(tok.op, a, b)))
      else if tok.TCmp? then Bool(nv.floatCmp(tok.cmp, a, b))
      else Plain(Nil)
    case (ComplexV(_, _), ComplexV(_, _)) =>
      if tok.TArith? && !tok.op.Rem? then Plain(nv.complexArith(tok.op, x.raw, y.raw))
      else if tok == TCmp(Eql) then Bool(nv.floatCmp(Eql, x.raw.re, y.raw.re) && nv.floatCmp(Eql, x.raw.im, y.raw.im))
      else if tok == TCmp(Neq) then Bool(!(nv.floatCmp(Eql, x.raw.re, y.raw.re) && nv.floatCmp(Eql, x.raw.im, y.raw.im)))
      else Plain(Nil)
    case (BoolV(a), BoolV(b)) =>
      if tok.TAnd? then Bool(a && b) else if tok.TOr? then Bool(a || b)
      else if tok == TCmp(Eql) then Bool(a == b) else if tok == TCmp(Neq) then Bool(a != b)
      else Plain(Nil)
    case (StrV(a), StrV(b)) =>
      if tok == TArith(Add) then Plain(StrV(a + b)) else if tok.TCmp? then Bool(StringCompare(tok.cmp, a, b))
      else Plain(Nil)
    case _ => Plain(Nil)
  }

  /** concreteBinOp. */
  function ConcreteBinOp(nv: Native, tok: Tok, x: Value, y: Value, xt: Type): Option<Value> {
    if xt.under.IntType? then
      if x.raw.IntV? && y.raw.IntV? then IntBinOp(xt.under.kind, tok, x.raw.n, y.raw.n) else None
    else
      var r := EvalBinOp(nv, tok, x, y);
      if r.raw.Nil? then None
      else if xt.under == FloatType(true) && r.raw.FloatV? then Some(Plain(FloatV(nv.round32(r.raw.f))))
      else Some(r)
  }

  /** Whether v is nil, for values that can be: concreteEqual's isNil. */
  function NilOf(v: Value): Option<bool> {
    if v.raw.Nil? then Some(v.prov.None?) else if v.raw.SliceV? then Some(!v.raw.backed) else None
  }

  /** concreteEqual. */
  function ConcreteEqual(x: Value, y: Value): Option<bool> {
    var xn, yn := NilOf(x), NilOf(y);
    if xn.Some? && yn.Some? && (xn.value || yn.value) then Some(xn.value == yn.value)
    else if x.raw.PtrV? && y.raw.PtrV? then Some(x.raw.p == y.raw.p)
    else if (x.raw.PtrV? && y.raw.Nil?) || (y.raw.PtrV? && x.raw.Nil?) then Some(false)
    else None
  }

  /** A value, what computing it reports, and whether it starts a panic. */
  datatype Computed = Computed(v: Value, reports: seq<Report>, panics: bool)

  function Fine(v: Value): Computed {
    Computed(v, [], false)
  }

  /** The operands for which Go panics: integer division by zero, and a negative signed shift count. */
  predicate DividesByZero(tok: Tok, y: Value, xt: Type) {
    (tok == TArith(Quo) || tok == TArith(Rem)) && xt.under.IntType? && y.raw == IntV(0)
  }

  predicate ShiftsByNegative(tok: Tok, y: Value, yt: Type) {
    (tok.TShl? || tok.TShr?) && yt.under.IntType? && !yt.under.kind.unsigned && y.raw.IntV? && y.raw.n < 0
  }

  /** binOpConcrete: a panicking operation still yields 0, which is bound. */
  function BinOpConcrete(nv: Native, id: nat, tok: Tok, x: Value, y: Value, xt: Type, yt: Type): Computed {
    if DividesByZero(tok, y, xt) then Computed(Plain(IntV(0)), [DivideByZero(id)], true)
    else if ShiftsByNegative(tok, y, yt) then Computed(Plain(IntV(0)), [NegativeShift(id, y.raw.n)], true)
    else
      var r := ConcreteBinOp(nv, tok, x, y, xt);
      if r.Some? then Fine(r.value)
      else if tok == TCmp(Eql) || tok == TCmp(Neq) then
        if xt.under.InterfaceType? || xt.under.AggregateType? then
          var eq := nv.equal(x, y, xt);
          Fine(if eq.Some? then Bool(eq.value == (tok == TCmp(Eql))) else Plain(OtherV(0)))
        else
          var eq := ConcreteEqual(x, y);
          Fine(if eq.Some? then Bool(eq.value == (tok == TCmp(Eql))) else EvalBinOp(nv, tok, x, y))
      else Fine(EvalBinOp(nv, tok, x, y))
  }

  // ------------------------------------------------------------------
  // Unary operations and conversions

  /** The unary operations other than load and receive. */
  function UnOpValue(nv: Native, un: UnTok, x: Value, t: Type): Value {
    match un
    case UMinus =>
      if x.raw.IntV? then Plain(IntV(Neg(if t.under.IntType? then t.under.kind else INT64, x.raw.n)))
      else if x.raw.FloatV? then Plain(FloatV(nv.floatNeg(x.raw.f)))
      else if x.raw.ComplexV? then Plain(nv.complexNeg(x.raw))
      else x
    case UNot => if x.raw.BoolV? then Bool(!x.raw.b) else x
    case UCaret => if x.raw.IntV? then Plain(IntV(Complement(if t.under.IntType? then t.under.kind else INT64, x.raw.n))) else x
    case _ => x
  }

  /** toInt64. */
  function ToInt64(nv: Native, v: Value): Int64 {
    match v.raw
    case IntV(n) => n
    case FloatV(f) => nv.truncate(f)
    case BoolV(b) => if b then 1 else 0
    case _ => 0
  }

  /** concreteConvertNumeric. */
  function ConvertNumeric(nv: Native, v: Value, src: Type, dst: Type): Option<Value> {
    match (src.under, dst.under)
    case (IntType(_), IntType(k)) => if v.raw.IntV? then Some(Plain(IntV(Wrap(k, v.raw.n)))) else None
    case (IntType(k), FloatType(single)) =>
      if !v.raw.IntV? then None
      else
        var n := if k.unsigned then U64(v.raw.n) else v.raw.n;
        Some(Plain(FloatV(if single then nv.fromInt32(n) else nv.fromInt(n))))
    case (FloatType(_), IntType(k)) => if v.raw.FloatV? then Some(Plain(IntV(FloatToInt(nv.decode(v.raw.f), k)))) else None
    case (FloatType(_), FloatType(single)) =>
      if v.raw.FloatV? then Some(Plain(FloatV(if single then nv.round32(v.raw.f) else v.raw.f))) else None
    case _ => None
  }

  /** convertValue, on values that ConvertNumeric leaves to it. */
  function ConvertRest(nv: Native, v: Value, src: Type, dst: Type): Value {
    match (src.under, dst.under)
    case (IntType(_), StringType) => Plain(StrV(nv.runeString(ToInt64(nv, v))))
    case (IntType(_), FloatType(_)) => Plain(FloatV(nv.fromInt(ToInt64(nv, v))))
    case (IntType(_), ComplexType) => Plain(ComplexV(nv.fromInt(ToInt64(nv, v)), nv.zero))
    case (FloatType(_), ComplexType) => if v.raw.FloatV? then Plain(ComplexV(v.raw.f, nv.zero)) else v
    case (IntType(_), IntType(k)) => Plain(IntV(Wrap(k, ToInt64(nv, v))))
    case (SliceType, _) => nv.convertSlices(v, src, dst)
    case (_, SliceType) => nv.convertSlices(v, src, dst)
    case _ => v
  }

  datatype UnsafeOp = NotUnsafe | ToPointer | FromPointer | ToUintptr | FromUintptr

  /** isUnsafePointerConversion and classifyUnsafeConversion: by what the printed types contain. */
  function UnsafeOpOf(src: Type, dst: Type): UnsafeOp {
    if !src.saysUnsafePointer && !dst.saysUnsafePointer then NotUnsafe
    else if dst.saysUnsafePointer && !src.saysUintptr then ToPointer
    else if src.saysUnsafePointer && dst.saysUintptr then ToUintptr
    else if src.saysUintptr && dst.saysUnsafePointer then FromUintptr
    else FromPointer
  }

  function PointerOf(v: Value): Uintptr.Pointer {
    if v.prov.Some? then v.prov.value else if v.raw.PtrV? then v.raw.p else Uintptr.Nil
  }

  // ------------------------------------------------------------------
  // Execution

  /** What an instruction that binds one value does. */
  datatype Effect<R> = Effect(rest: R, done: Computed)

  /** resolveValue; the address of a variable may have to be allocated first. */
  function Resolve<R>(sem: Semantics<R>, locals: map<nat, Value>, rest: R, x: Operand): (R, Value) {
    match x
    case Local(reg, _) => (rest, if reg in locals then locals[reg] else Plain(Nil))
    case Const(v, _) => (rest, v)
    case Global(id) => sem.addressOf(rest, id)
  }

  function ResolveAll<R>(sem: Semantics<R>, locals: map<nat, Value>, rest: R, xs: seq<Operand>): (r: (R, seq<Value>))
    ensures |r.1| == |xs|
  {
    if xs == [] then (rest, [])
    else
      var (r1, vs) := ResolveAll(sem, locals, rest, xs[..|xs| - 1]);
      var (r2, v) := Resolve(sem, locals, r1, xs[|xs| - 1]);
      (r2, vs + [v])
  }

  /** Conversions to and from unsafe.Pointer, and between types that are named like it. */
  function ConvertUnsafe<R>(sem: Semantics<R>, rest: R, id: nat, v: Value, src: Type, dst: Type): Effect<R>
    requires UnsafeOpOf(src, dst) != NotUnsafe
  {
    match UnsafeOpOf(src, dst)
    case ToPointer => Effect(rest, Fine(v))
    case FromPointer =>
      Effect(rest, Computed(v, if !sem.tracked || (v.prov.None? && IsScalarType(dst)) then [] else sem.native.alignment(v, dst), false))
    case ToUintptr =>
      var p := PointerOf(v);
      Effect(if p.Nil? then rest else sem.pin(rest, id, p), Fine(Plain(IntV(Uintptr.Encode(p)))))
    case FromUintptr =>
      var cleared := if sem.tracked then sem.clearPins(rest) else rest;
      if !v.raw.IntV? then
        Effect(cleared, Computed(v, if sem.tracked && v.prov.Some? then sem.bounds(rest, v.prov.value) else [], false))
      else
        var p := Uintptr.Decode(v.raw.n);
        if p.Nil? then Effect(cleared, Fine(Plain(Nil)))
        else
          var q := if sem.pinned(rest, p.alloc) then p else Uintptr.Pointer(0, 0);
          Effect(cleared, Computed(Value(PtrV(q), Some(q)), if sem.tracked then sem.bounds(rest, q) else [], false))
  }

  function ConvertEffect<R>(sem: Semantics<R>, rest: R, id: nat, v: Value, src: Type, dst: Type): Effect<R> {
    if UnsafeOpOf(src, dst) != NotUnsafe then ConvertUnsafe(sem, rest, id, v, src, dst)
    else
      var r := ConvertNumeric(sem.native, v, src, dst);
      if r.Some? then Effect(rest, Fine(r.value))
      else if src.under.SliceType? || dst.under.SliceType? then
        var s := sem.slices(rest, v, src, dst);
        if s.Some? then Effect(s.value.0, Fine(s.value.1)) else Effect(rest, Fine(ConvertRest(sem.native, v, src, dst)))
      else Effect(rest, Fine(ConvertRest(sem.native, v, src, dst)))
  }

  function CallEffect<R>(sem: Semantics<R>, rest: R, fn: nat, args: seq<Value>): Effect<R> {
    var out := sem.native.intercept(fn, args);
    Effect(rest, Computed(if out.Gave? then out.v else Plain(Nil), sem.safepoint(rest), out.Threw?))
  }

  /** The instruction binds one value and goes on to the next instruction. */
  predicate BindsValue(i: Instr) {
    match i
    case UnOp(_, _, un, _, _) => !un.ULoad? && !un.UArrow?
    case Call(_, _, callee, _, _) => callee.Static? && callee.impl.Some? && callee.impl.value.1
    case Other(_, _) => false
    case _ => true
  }

  /** execOp on such an instruction. */
  function Perform<R>(sem: Semantics<R>, core: Core<R>, i: Instr): Effect<R>
    requires BindsValue(i)
  {
    var (rest, vs) := ResolveAll(sem, core.locals, core.rest, Inputs(i));
    match i
    case BinOp(id, _, tok, x, y, _) => Effect(rest, BinOpConcrete(sem.native, id, tok, vs[0], vs[1], TypeOf(x), TypeOf(y)))
    case UnOp(_, _, un, _, t) => Effect(rest, Fine(UnOpValue(sem.native, un, vs[0], t)))
    case Convert(id, _, x, t) => ConvertEffect(sem, rest, id, vs[0], TypeOf(x), t)
    case ChangeType(_, _, _, _) => Effect(rest, Fine(vs[0]))
    case Call(_, _, callee, _, _) => CallEffect(sem, rest, callee.impl.value.0, vs)
  }

  /** The core after a value is bound; the tracer records it even if computing it panicked. */
  function Bound<R>(core: Core<R>, i: Instr, rest: R, done: Computed): Core<R>
    requires !i.Other?
  {
    core.(locals := core.locals[i.dst := done.v], at := core.at + 1, rest := rest, reports := core.reports + done.reports,
          trace := core.trace + [(i.id, done.v)], panicking := core.panicking || done.panics)
  }

  function Executed<R>(sem: Semantics<R>, core: Core<R>, i: Instr): Core<R> {
    if BindsValue(i) then
      var e := Perform(sem, core, i);
      Bound(core, i, e.rest, e.done)
    else sem.exec(core, i)
  }

  // ------------------------------------------------------------------
  // What pure instructions depend on

  function ValueOf(locals: map<nat, Value>, x: Operand): Value {
    if x.Local? && x.reg in locals then locals[x.reg] else if x.Const? then x.val else Plain(Nil)
  }

  /** pureOperands. */
  function Operands<R>(core: Core<R>, i: Instr): seq<Value> {
    seq(|Inputs(i)|, k requires 0 <= k < |Inputs(i)| => ValueOf(core.locals, Inputs(i)[k]))
  }

  /** Resolving operands that are not addresses of variables leaves memory alone. */
  lemma {:induction false} ResolvedIsValueOf<R>(sem: Semantics<R>, core: Core<R>, xs: seq<Operand>)
    requires forall k :: 0 <= k < |xs| ==> !xs[k].Global?
    ensures ResolveAll(sem, core.locals, core.rest, xs).0 == core.rest
    ensures forall k :: 0 <= k < |xs| ==> ResolveAll(sem, core.locals, core.rest, xs).1[k] == ValueOf(core.locals, xs[k])
  {
    if |xs| > 0 {
      ResolvedIsValueOf(sem, core, xs[..|xs| - 1]);
    }
  }

  lemma PureInputs<R>(sem: Semantics<R>, core: Core<R>, i: Instr)
    requires IsPure(i)
    ensures BindsValue(i)
    ensures ResolveAll(sem, core.locals, core.rest, Inputs(i)) == (core.rest, Operands(core, i))
  {
    forall k | 0 <= k < |Inputs(i)| ensures !Inputs(i)[k].Global? {
      assert IsScalarType(TypeOf(Inputs(i)[k]));
    }
    ResolvedIsValueOf(sem, core, Inputs(i));
    assert ResolveAll(sem, core.locals, core.rest, Inputs(i)).1 == Operands(core, i);
  }

  /** The two conversions that touch memory although their types are scalar, for types named like
      unsafe.Pointer and uintptr: clearing what is pinned, and pinning a pointer. */
  predicate Disguised(i: Instr, vs: seq<Value>) {
    && i.Convert? && |vs| == 1
    && var op := UnsafeOpOf(TypeOf(i.x), i.typ);
    (op == FromUintptr || (op == ToUintptr && !PointerOf(vs[0]).Nil?))
  }

  /** What the safepoint of a call reports. */
  function Safepoint<R>(sem: Semantics<R>, rest: R, i: Instr): seq<Report> {
    if i.Call? then sem.safepoint(rest) else []
  }

  lemma PureConvert<R, S>(sem: Semantics<R>, rest: R, sem': Semantics<S>, rest': S, i: Instr, v: Value)
    requires sem.native == sem'.native && sem.tracked == sem'.tracked && IsPure(i) && i.Convert? && !Disguised(i, [v])
    ensures var e, e' := ConvertEffect(sem, rest, i.id, v, TypeOf(i.x), i.typ), ConvertEffect(sem', rest', i.id, v, TypeOf(i.x), i.typ);
      e.rest == rest && e'.rest == rest' && e.done == e'.done && !e.done.panics
  {
  }

  /** A pure instruction that is not disguised leaves all memory alone, and its result, its panic and
      its own reports are a function of its operand values: two interpreters that agree on nothing but
      those, whatever their memory holds and does, get the same. A call also reports what the
      safepoint finds. */
  lemma PureIsFunctional<R, S>(sem: Semantics<R>, c: Core<R>, sem': Semantics<S>, d: Core<S>, i: Instr)
    requires IsPure(i) && BindsValue(i) && sem.native == sem'.native && sem.tracked == sem'.tracked
    requires Operands(c, i) == Operands(d, i) && !Disguised(i, Operands(c, i))
    ensures var e, e' := Perform(sem, c, i), Perform(sem', d, i);
      && e.rest == c.rest && e'.rest == d.rest && e.done.v == e'.done.v && e.done.panics == e'.done.panics
      && exists own :: e.done.reports == Safepoint(sem, c.rest, i) + own && e'.done.reports == Safepoint(sem', d.rest, i) + own
  {
    PureInputs(sem, c, i);
    PureInputs(sem', d, i);
    var e, e' := Perform(sem, c, i), Perform(sem', d, i);
    if i.Call? {
      assert e.done.reports == Safepoint(sem, c.rest, i) + [];
      assert e'.done.reports == Safepoint(sem', d.rest, i) + [];
    } else {
      if i.Convert? {
        assert Operands(c, i) == [Operands(c, i)[0]];
        PureConvert(sem, c.rest, sem', d.rest, i, Operands(c, i)[0]);
      }
      assert e.done.reports == Safepoint(sem, c.rest, i) + e.done.reports;
      assert e'.done.reports == Safepoint(sem', d.rest, i) + e.done.reports;
    }
  }

  /** A pure instruction that is not a call panics exactly on an integer division by zero or a negative
      shift count, and says so. */
  lemma PanicsIff<R>(sem: Semantics<R>, c: Core<R>, i: Instr)
    requires IsPure(i) && BindsValue(i) && !i.Call?
    ensures var e := Perform(sem, c, i).done;
      && (e.panics <==> i.BinOp? && var y := Operands(c, i)[1];
                        DividesByZero(i.tok, y, TypeOf(i.x)) || ShiftsByNegative(i.tok, y, TypeOf(i.y)))
      && (e.panics ==> e.reports != [])
  {
    PureInputs(sem, c, i);
  }
}
