/** Arrays and structs as values and in memory (pkg/interpreter/concrete.go). Memory is a store of
    leaf values by allocation and byte offset; an aggregate's leaves lie at the offsets of its
    type's layout. Type sizes and field offsets are given, with what types.Sizes promises: fields in
    order, not overlapping, inside the struct. */
module Memory {

  /** A value that is not an array or struct: a number, pointer, slice, ... or one the interpreter
      does not know. */
  datatype Atom = Atom(v: int) | Opaque

  datatype Type =
    | Scalar(size: nat, zero: Atom)
    | Array(elem: Type, len: nat)
    | Struct(fields: Fields, size: nat)

  datatype Fields = NoField | Field(off: nat, typ: Type, rest: Fields)

  function SizeOf(t: Type): nat {
    match t
    case Scalar(size, _) => size
    case Array(elem, len) => len * SizeOf(elem)
    case Struct(_, size) => size
  }

  predicate WellSized(t: Type) {
    match t
    case Scalar(size, _) => size > 0
    case Array(elem, _) => WellSized(elem)
    case Struct(fields, size) => FieldsFit(fields, 0, size)
  }

  predicate FieldsFit(fs: Fields, start: nat, size: nat) {
    match fs
    case NoField => start <= size
    case Field(off, typ, rest) => start <= off && WellSized(typ) && FieldsFit(rest, off + SizeOf(typ), size)
  }

  predicate IsAggregate(t: Type) {
    !t.Scalar?
  }

  // ------------------------------------------------------------------
  // Layout

  datatype Leaf = Leaf(off: nat, size: nat, zero: Atom)

  function Shifted(ls: seq<Leaf>, d: nat): seq<Leaf> {
    seq(|ls|, i requires 0 <= i < |ls| => Leaf(ls[i].off + d, ls[i].size, ls[i].zero))
  }

  /** The leaves of t in offset order. */
  function Layout(t: Type): seq<Leaf> {
    match t
    case Scalar(size, zero) => [Leaf(0, size, zero)]
    case Array(elem, len) => Repeated(Layout(elem), SizeOf(elem), len)
    case Struct(fields, _) => FieldsLayout(fields)
  }

  function Repeated(ls: seq<Leaf>, sz: nat, n: nat): seq<Leaf> {
    if n == 0 then [] else Repeated(ls, sz, n - 1) + Shifted(ls, (n - 1) * sz)
  }

  function FieldsLayout(fs: Fields): seq<Leaf> {
    match fs
    case NoField => []
    case Field(off, typ, rest) => Shifted(Layout(typ), off) + FieldsLayout(rest)
  }

  /** layout's inner loops for an array type. */
  method RepeatLeaves(elem: seq<Leaf>, sz: nat, n: nat) returns (ls: seq<Leaf>)
    ensures ls == Repeated(elem, sz, n)
  {
    ls := [];
    for i := 0 to n
      invariant ls == Repeated(elem, sz, i)
    {
      ghost var before := ls;
      for j := 0 to |elem|
        invariant ls == before + Shifted(elem, i * sz)[..j]
      {
        ls := ls + [Leaf(elem[j].off + i * sz, elem[j].size, elem[j].zero)];
      }
      assert Shifted(elem, i * sz)[..|elem|] == Shifted(elem, i * sz);
    }
  }

  /** Leaves lie in [lo, hi), in order, without overlap. */
  predicate Packed(ls: seq<Leaf>, lo: int, hi: int) {
    && lo <= hi
    && (forall i :: 0 <= i < |ls| ==> lo <= ls[i].off && ls[i].off + ls[i].size <= hi && ls[i].size > 0)
    && (forall i, j :: 0 <= i < j < |ls| ==> ls[i].off + ls[i].size <= ls[j].off)
  }

  lemma PackedShift(ls: seq<Leaf>, lo: int, hi: int, d: nat)
    requires Packed(ls, lo, hi)
    ensures Packed(Shifted(ls, d), lo + d, hi + d)
  {
  }

  lemma PackedJoin(a: seq<Leaf>, b: seq<Leaf>, lo: int, mid: int, hi: int)
    requires Packed(a, lo, mid) && Packed(b, mid, hi)
    ensures Packed(a + b, lo, hi)
  {
  }

  lemma PackedWiden(ls: seq<Leaf>, lo: int, hi: int, lo': int, hi': int)
    requires Packed(ls, lo, hi) && lo' <= lo && hi <= hi'
    ensures Packed(ls, lo', hi')
  {
  }

  lemma {:induction false} RepeatedPacked(ls: seq<Leaf>, sz: nat, n: nat)
    requires Packed(ls, 0, sz)
    ensures Packed(Repeated(ls, sz, n), 0, n * sz)
  {
    if n > 0 {
      RepeatedPacked(ls, sz, n - 1);
      PackedShift(ls, 0, sz, (n - 1) * sz);
      assert n * sz == (n - 1) * sz + sz;
      PackedJoin(Repeated(ls, sz, n - 1), Shifted(ls, (n - 1) * sz), 0, (n - 1) * sz, n * sz);
    }
  }

  /** For every nested array and struct type, leaf offsets are strictly increasing, leaves do not
      overlap, and all lie within the type's size. */
  lemma {:induction false} LayoutIsPacked(t: Type)
    requires WellSized(t)
    ensures Packed(Layout(t), 0, SizeOf(t))
  {
    match t
    case Scalar(_, _) =>
    case Array(elem, len) => LayoutIsPacked(elem); RepeatedPacked(Layout(elem), SizeOf(elem), len);
    case Struct(fields, size) => FieldsPacked(fields, 0, size);
  }

  lemma {:induction false} FieldsPacked(fs: Fields, start: nat, size: nat)
    requires FieldsFit(fs, start, size)
    ensures Packed(FieldsLayout(fs), start, size)
  {
    match fs
    case NoField =>
    case Field(off, typ, rest) =>
      LayoutIsPacked(typ);
      PackedShift(Layout(typ), 0, SizeOf(typ), off);
      FieldsPacked(rest, off + SizeOf(typ), size);
      PackedWiden(Shifted(Layout(typ), off), off, off + SizeOf(typ), start, off + SizeOf(typ));
      PackedJoin(Shifted(Layout(typ), off), FieldsLayout(rest), start, off + SizeOf(typ), size);
  }

  // ------------------------------------------------------------------
  // Values and the store

  /** An aggregate value is its leaves, or the zero value of any aggregate type. */
  datatype Value = One(atom: Atom) | Agg(leaves: seq<Leaf>, vals: seq<Atom>) | ZeroAgg

  datatype Addr = Addr(alloc: int, off: int)

  type Store = map<Addr, Atom>

  function Move(p: Addr, d: int): Addr {
    Addr(p.alloc, p.off + d)
  }

  function AtomAt(m: Store, p: Addr, zero: Atom): Atom {
    if p in m then m[p] else zero
  }

  function GatherLeaves(m: Store, p: Addr, ls: seq<Leaf>): seq<Atom> {
    seq(|ls|, i requires 0 <= i < |ls| => AtomAt(m, Move(p, ls[i].off), ls[i].zero))
  }

  /** Reading a value of type t at p: loadConcrete, elemAt. */
  function Load(m: Store, p: Addr, t: Type): Value {
    if t.Scalar? then One(AtomAt(m, p, t.zero)) else Agg(Layout(t), GatherLeaves(m, p, Layout(t)))
  }

  /** The leaf i that storing v writes. */
  function LeafOf(v: Value, ls: seq<Leaf>, i: nat): Atom
    requires i < |ls|
  {
    match v
    case One(_) => Opaque
    case Agg(_, vals) => if |vals| == |ls| then vals[i] else Opaque
    case ZeroAgg => ls[i].zero
  }

  function ScatterFirst(m: Store, p: Addr, ls: seq<Leaf>, v: Value, n: nat): Store
    requires n <= |ls|
  {
    if n == 0 then m
    else ScatterFirst(m, p, ls, v, n - 1)[Move(p, ls[n - 1].off) := LeafOf(v, ls, n - 1)]
  }

  /** Writing v as a value of type t at p: storeConcrete, setElem. */
  function Stored(m: Store, p: Addr, t: Type, v: Value): Store {
    if t.Scalar? then m[p := if v.One? then v.atom else Opaque]
    else ScatterFirst(m, p, Layout(t), v, |Layout(t)|)
  }

  /** What v is as a value of type t: all its leaves. */
  function Expanded(t: Type, v: Value): Value {
    if t.Scalar? then One(if v.One? then v.atom else Opaque)
    else
      var ls := Layout(t);
      Agg(ls, seq(|ls|, i requires 0 <= i < |ls| => LeafOf(v, ls, i)))
  }

  /** v is a value of type t with all its leaves known by position. */
  predicate IsValueOf(t: Type, v: Value) {
    if t.Scalar? then v.One? else v.Agg? && v.leaves == Layout(t) && |v.vals| == |v.leaves|
  }

  lemma ExpandedIsSame(t: Type, v: Value)
    requires IsValueOf(t, v)
    ensures Expanded(t, v) == v
  {
  }

  lemma LoadIsValue(m: Store, p: Addr, t: Type)
    ensures IsValueOf(t, Load(m, p, t))
  {
  }

  predicate Within(a: Addr, p: Addr, size: int) {
    a.alloc == p.alloc && p.off <= a.off < p.off + size
  }

  lemma {:induction false} ScatterEffect(m: Store, p: Addr, ls: seq<Leaf>, v: Value, n: nat, size: int)
    requires n <= |ls| && Packed(ls, 0, size)
    ensures var m' := ScatterFirst(m, p, ls, v, n);
      && (forall i :: 0 <= i < n ==> Move(p, ls[i].off) in m' && m'[Move(p, ls[i].off)] == LeafOf(v, ls, i))
      && (forall a :: !Within(a, p, size) ==> (a in m' <==> a in m) && (a in m ==> m'[a] == m[a]))
  {
    if n > 0 {
      ScatterEffect(m, p, ls, v, n - 1, size);
      assert Within(Move(p, ls[n - 1].off), p, size);
    }
  }

  /** What a store at p changes: nothing outside [p, p + size). */
  lemma StoreFrame(m: Store, p: Addr, t: Type, v: Value, a: Addr)
    requires WellSized(t) && !Within(a, p, SizeOf(t))
    ensures a in Stored(m, p, t, v) <==> a in m
    ensures a in m ==> Stored(m, p, t, v)[a] == m[a]
  {
    if !t.Scalar? {
      LayoutIsPacked(t);
      ScatterEffect(m, p, Layout(t), v, |Layout(t)|, SizeOf(t));
    }
  }

  /** Scatter then gather is the identity: loading what was stored gives it back, leaf by leaf. */
  lemma LoadAfterStore(m: Store, p: Addr, t: Type, v: Value)
    requires WellSized(t)
    ensures Load(Stored(m, p, t, v), p, t) == Expanded(t, v)
    ensures IsValueOf(t, v) ==> Load(Stored(m, p, t, v), p, t) == v
  {
    if !t.Scalar? {
      LayoutIsPacked(t);
      ScatterEffect(m, p, Layout(t), v, |Layout(t)|, SizeOf(t));
    }
    if IsValueOf(t, v) {
      ExpandedIsSame(t, v);
    }
  }

  /** Memory [p, p + size) and [q, q + size') do not overlap. */
  predicate Apart(p: Addr, size: int, q: Addr, size': int) {
    p.alloc != q.alloc || p.off + size <= q.off || q.off + size' <= p.off
  }

  /** A load elsewhere is not affected by a store. */
  lemma LoadElsewhere(m: Store, p: Addr, t: Type, v: Value, q: Addr, u: Type)
    requires WellSized(t) && WellSized(u) && Apart(p, SizeOf(t), q, SizeOf(u))
    ensures Load(Stored(m, p, t, v), q, u) == Load(m, q, u)
  {
    SameLoad(m, Stored(m, p, t, v), q, u, p, t, v);
  }

  lemma SameLoad(m: Store, m': Store, q: Addr, u: Type, p: Addr, t: Type, v: Value)
    requires m' == Stored(m, p, t, v) && WellSized(t) && WellSized(u) && Apart(p, SizeOf(t), q, SizeOf(u))
    ensures Load(m', q, u) == Load(m, q, u)
  {
    var ls := Layout(u);
    LayoutIsPacked(u);
    forall i | 0 <= i < |ls|
      ensures AtomAt(m', Move(q, ls[i].off), ls[i].zero) == AtomAt(m, Move(q, ls[i].off), ls[i].zero)
    {
      StoreFrame(m, p, t, v, Move(q, ls[i].off));
    }
    if u.Scalar? {
      StoreFrame(m, p, t, v, q);
    } else {
      assert GatherLeaves(m', q, ls) == GatherLeaves(m, q, ls);
    }
  }

  // ------------------------------------------------------------------
  // Components

  /** sub is the type of an element or field of t at byte offset off. */
  ghost predicate Component(t: Type, off: nat, sub: Type) {
    match t
    case Scalar(_, _) => false
    case Array(elem, len) => sub == elem && exists i: nat :: i < len && off == i * SizeOf(elem)
    case Struct(fields, _) => FieldAt(fields, off, sub)
  }

  predicate FieldAt(fs: Fields, off: nat, sub: Type) {
    fs.Field? && ((off == fs.off && sub == fs.typ) || FieldAt(fs.rest, off, sub))
  }

  /** ls contains part, shifted by d, from position k on. */
  predicate Contains(ls: seq<Leaf>, part: seq<Leaf>, d: nat, k: nat) {
    k + |part| <= |ls| && ls[k..k + |part|] == Shifted(part, d)
  }

  lemma {:induction false} RepeatedContains(ls: seq<Leaf>, sz: nat, n: nat, i: nat) returns (k: nat)
    requires i < n
    ensures Contains(Repeated(ls, sz, n), ls, i * sz, k)
  {
    if i == n - 1 {
      k := |Repeated(ls, sz, n - 1)|;
    } else {
      k := RepeatedContains(ls, sz, n - 1, i);
      assert Repeated(ls, sz, n)[k..k + |ls|] == Repeated(ls, sz, n - 1)[k..k + |ls|];
    }
  }

  lemma {:induction false} FieldsContain(fs: Fields, off: nat, sub: Type) returns (k: nat)
    requires FieldAt(fs, off, sub)
    ensures Contains(FieldsLayout(fs), Layout(sub), off, k)
  {
    if off == fs.off && sub == fs.typ {
      k := 0;
      assert FieldsLayout(fs)[0..|Layout(sub)|] == Shifted(Layout(sub), off);
    } else {
      var j := FieldsContain(fs.rest, off, sub);
      var first := Shifted(Layout(fs.typ), fs.off);
      k := |first| + j;
      assert FieldsLayout(fs)[k..k + |Layout(sub)|] == FieldsLayout(fs.rest)[j..j + |Layout(sub)|];
    }
  }

  /** A component's layout is a run of the whole's layout. */
  lemma ComponentLayout(t: Type, off: nat, sub: Type) returns (k: nat)
    requires Component(t, off, sub)
    ensures Contains(Layout(t), Layout(sub), off, k)
  {
    if t.Array? {
      var i: nat :| i < t.len && off == i * SizeOf(t.elem);
      k := RepeatedContains(Layout(t.elem), SizeOf(t.elem), t.len, i);
    } else {
      k := FieldsContain(t.fields, off, sub);
    }
  }

  // ------------------------------------------------------------------
  // Projection

  /** The position of the first leaf at or after offset o. */
  function Position(ls: seq<Leaf>, o: int): (i: nat)
    ensures i <= |ls|
  {
    if ls == [] || ls[0].off >= o then 0 else 1 + Position(ls[1..], o)
  }

  lemma {:induction false} PositionSearches(ls: seq<Leaf>, o: int, i: nat)
    requires i <= |ls|
    requires forall j :: 0 <= j < i ==> ls[j].off < o
    requires i < |ls| ==> ls[i].off >= o
    ensures Position(ls, o) == i
  {
    if i > 0 {
      PositionSearches(ls[1..], o, i - 1);
    }
  }

  /** sort.Search over the leaves. */
  method SearchLeaf(ls: seq<Leaf>, o: int, ghost hi: int) returns (i: nat)
    requires Packed(ls, 0, hi)
    ensures i == Position(ls, o)
  {
    var lo, up := 0, |ls|;
    while lo < up
      invariant 0 <= lo <= up <= |ls|
      invariant forall j :: 0 <= j < lo ==> ls[j].off < o
      invariant forall j :: up <= j < |ls| ==> ls[j].off >= o
    {
      var mid := (lo + up) / 2;
      if ls[mid].off >= o {
        up := mid;
      } else {
        lo := mid + 1;
      }
    }
    PositionSearches(ls, o, lo);
    return lo;
  }

  function LeafAt(ls: seq<Leaf>, vals: seq<Atom>, o: int, zero: Atom): Atom
    requires |vals| == |ls|
  {
    var i := Position(ls, o);
    if i < |ls| && ls[i].off == o then vals[i] else zero
  }

  function LeavesAt(ls: seq<Leaf>, vals: seq<Atom>, off: nat, part: seq<Leaf>): seq<Atom>
    requires |vals| == |ls|
  {
    seq(|part|, i requires 0 <= i < |part| => LeafAt(ls, vals, off + part[i].off, part[i].zero))
  }

  /** project. */
  function Project(v: Value, off: nat, sub: Type): Value
    requires v.Agg? ==> |v.vals| == |v.leaves|
  {
    match v
    case One(_) => One(Opaque)
    case ZeroAgg => if sub.Scalar? then One(sub.zero) else ZeroAgg
    case Agg(leaves, vals) =>
      if sub.Scalar? then One(LeafAt(leaves, vals, off, sub.zero))
      else Agg(Layout(sub), LeavesAt(leaves, vals, off, Layout(sub)))
  }

  /** Looking up a leaf of a component finds it where the component's layout says. */
  lemma LeafFound(ls: seq<Leaf>, hi: int, part: seq<Leaf>, d: nat, k: nat, i: nat, vals: seq<Atom>, zero: Atom)
    requires Packed(ls, 0, hi) && Contains(ls, part, d, k) && i < |part| && |vals| == |ls|
    ensures LeafAt(ls, vals, d + part[i].off, zero) == vals[k + i]
    ensures ls[k + i].off == d + part[i].off && ls[k + i].zero == part[i].zero
  {
    assert ls[k + i] == ls[k..k + |part|][i] == Shifted(part, d)[i];
    PositionSearches(ls, d + part[i].off, k + i);
  }

  /** Looking up a component's leaves among the gathered ones is gathering them at the component. */
  lemma ProjectedLeaves(m: Store, p: Addr, ls: seq<Leaf>, hi: int, off: nat, part: seq<Leaf>, k: nat)
    requires Packed(ls, 0, hi) && Contains(ls, part, off, k)
    ensures LeavesAt(ls, GatherLeaves(m, p, ls), off, part) == GatherLeaves(m, Move(p, off), part)
  {
    forall i | 0 <= i < |part|
      ensures LeavesAt(ls, GatherLeaves(m, p, ls), off, part)[i] == GatherLeaves(m, Move(p, off), part)[i]
    {
      LeafFound(ls, hi, part, off, k, i, GatherLeaves(m, p, ls), part[i].zero);
    }
  }

  /** Projecting a component from a value loaded at p is loading the component at its own address. */
  lemma ProjectIsLoad(m: Store, p: Addr, t: Type, off: nat, sub: Type)
    requires WellSized(t) && Component(t, off, sub)
    ensures Project(Load(m, p, t), off, sub) == Load(m, Move(p, off), sub)
  {
    LayoutIsPacked(t);
    var k := ComponentLayout(t, off, sub);
    var ls, part := Layout(t), Layout(sub);
    ProjectedLeaves(m, p, ls, SizeOf(t), off, part, k);
    if sub.Scalar? {
      assert part == [Leaf(0, sub.size, sub.zero)];
      assert LeavesAt(ls, GatherLeaves(m, p, ls), off, part)[0] == GatherLeaves(m, Move(p, off), part)[0];
    }
  }

  /** Storing any value and loading a component is projecting the component from what was stored, leaf
      by leaf: also of the zero value and of unknown ones. */
  lemma LoadComponentAfterStore(m: Store, p: Addr, t: Type, v: Value, off: nat, sub: Type)
    requires WellSized(t) && Component(t, off, sub)
    ensures Load(Stored(m, p, t, v), Move(p, off), sub) == Project(Expanded(t, v), off, sub)
  {
    LoadAfterStore(m, p, t, v);
    ProjectIsLoad(Stored(m, p, t, v), p, t, off, sub);
  }

  /** v is the zero value, an unknown one, or an aggregate with t's own leaves. */
  predicate FitsType(t: Type, v: Value) {
    v.Agg? ==> v.leaves == Layout(t) && |v.vals| == |v.leaves|
  }

  /** Projecting from such a value directly, as field and index expressions do, agrees with loading the
      component from where the value was stored. */
  lemma ProjectAgreesWithMemory(m: Store, p: Addr, t: Type, v: Value, off: nat, sub: Type)
    requires WellSized(t) && Component(t, off, sub) && FitsType(t, v)
    ensures Load(Stored(m, p, t, v), Move(p, off), sub) == Expanded(sub, Project(v, off, sub))
  {
    LoadComponentAfterStore(m, p, t, v, off, sub);
    LayoutIsPacked(t);
    var k := ComponentLayout(t, off, sub);
    ProjectExpanded(t, v, off, sub, k);
  }

  lemma ExpandedLeaf(t: Type, v: Value, off: nat, part: seq<Leaf>, k: nat, i: nat)
    requires IsAggregate(t) && Packed(Layout(t), 0, SizeOf(t)) && Contains(Layout(t), part, off, k) && i < |part|
    ensures LeafAt(Layout(t), Expanded(t, v).vals, off + part[i].off, part[i].zero) == LeafOf(v, Layout(t), k + i)
    ensures Layout(t)[k + i].zero == part[i].zero
  {
    LeafFound(Layout(t), SizeOf(t), part, off, k, i, Expanded(t, v).vals, part[i].zero);
  }

  lemma ProjectPlainLeaves(t: Type, v: Value, off: nat, sub: Type, k: nat)
    requires IsAggregate(t) && IsAggregate(sub) && !v.Agg?
    requires Packed(Layout(t), 0, SizeOf(t)) && Contains(Layout(t), Layout(sub), off, k)
    ensures Project(Expanded(t, v), off, sub).vals == Expanded(sub, Project(v, off, sub)).vals
  {
    var part, got, want := Layout(sub), Project(Expanded(t, v), off, sub).vals, Expanded(sub, Project(v, off, sub)).vals;
    assert |got| == |want| == |part|;
    forall i | 0 <= i < |part|
      ensures got[i] == want[i]
    {
      ExpandedLeaf(t, v, off, part, k, i);
    }
  }

  lemma ProjectPlain(t: Type, v: Value, off: nat, sub: Type, k: nat)
    requires IsAggregate(t) && !v.Agg? && Packed(Layout(t), 0, SizeOf(t)) && Contains(Layout(t), Layout(sub), off, k)
    ensures Project(Expanded(t, v), off, sub) == Expanded(sub, Project(v, off, sub))
  {
    if sub.Scalar? {
      ExpandedLeaf(t, v, off, Layout(sub), k, 0);
      assert Layout(sub)[0] == Leaf(0, sub.size, sub.zero);
    } else {
      ProjectPlainLeaves(t, v, off, sub, k);
    }
  }

  lemma ProjectExpanded(t: Type, v: Value, off: nat, sub: Type, k: nat)
    requires IsAggregate(t) && FitsType(t, v) && Packed(Layout(t), 0, SizeOf(t)) && Contains(Layout(t), Layout(sub), off, k)
    ensures Project(Expanded(t, v), off, sub) == Expanded(sub, Project(v, off, sub))
  {
    if v.Agg? {
      ExpandedIsSame(t, v);
      ExpandedIsSame(sub, Project(v, off, sub));
    } else {
      ProjectPlain(t, v, off, sub, k);
    }
  }
}
