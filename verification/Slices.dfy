/** Slices in concrete memory: element access, append, copy and capacity growth
    (pkg/interpreter/concrete.go). Elements may be arrays and structs. */
module Slices {
  import opened Detector
  import opened Memory

  datatype Slice = Slice(backing: Option<Addr>, len: nat, cap: nat)

  predicate WellFormed(s: Slice) {
    s.len <= s.cap && (s.backing.None? ==> s.len == 0)
  }

  function Slot(b: Addr, t: Type, i: int): Addr {
    Move(b, i * SizeOf(t))
  }

  /** The elements of s, as the program sees them. */
  function Contents(m: Store, s: Slice, t: Type): seq<Value> {
    if s.backing.None? then []
    else seq(s.len, i requires 0 <= i < s.len => Load(m, Slot(s.backing.value, t, i), t))
  }

  // ------------------------------------------------------------------
  // Writing consecutive elements

  function Written(m: Store, b: Addr, t: Type, start: int, vs: seq<Value>, n: nat): Store
    requires n <= |vs|
  {
    if n == 0 then m else Stored(Written(m, b, t, start, vs, n - 1), Slot(b, t, start + n - 1), t, vs[n - 1])
  }

  lemma Ordered(i: int, j: int, sz: nat)
    requires i < j
    ensures i * sz + sz <= j * sz
  {
    var d := j - i - 1;
    assert d * sz >= 0;
    assert j * sz == i * sz + sz + d * sz;
  }

  lemma SlotsApart(b: Addr, t: Type, i: int, j: int)
    requires i != j
    ensures Apart(Slot(b, t, i), SizeOf(t), Slot(b, t, j), SizeOf(t))
  {
    if i < j {
      Ordered(i, j, SizeOf(t));
    } else {
      Ordered(j, i, SizeOf(t));
    }
  }

  /** Each written slot holds its value and every other slot what it held. */
  lemma {:induction false} WrittenSlots(m: Store, b: Addr, t: Type, start: int, vs: seq<Value>, n: nat, j: int)
    requires WellSized(t) && n <= |vs| && forall i :: 0 <= i < |vs| ==> IsValueOf(t, vs[i])
    ensures var now := Load(Written(m, b, t, start, vs, n), Slot(b, t, j), t);
      now == if start <= j < start + n then vs[j - start] else Load(m, Slot(b, t, j), t)
  {
    if n > 0 {
      var before, at := Written(m, b, t, start, vs, n - 1), start + n - 1;
      WrittenSlots(m, b, t, start, vs, n - 1, j);
      if j == at {
        LoadAfterStore(before, Slot(b, t, at), t, vs[n - 1]);
      } else {
        SlotsApart(b, t, at, j);
        LoadElsewhere(before, Slot(b, t, at), t, vs[n - 1], Slot(b, t, j), t);
      }
    }
  }

  /** a lies in slots [from, upTo) of the backing memory b. */
  predicate InSlots(a: Addr, b: Addr, t: Type, from: int, upTo: int) {
    a.alloc == b.alloc && b.off + from * SizeOf(t) <= a.off < b.off + upTo * SizeOf(t)
  }

  lemma {:induction false} WrittenFrame(m: Store, b: Addr, t: Type, start: int, vs: seq<Value>, n: nat, a: Addr)
    requires WellSized(t) && n <= |vs| && !InSlots(a, b, t, start, start + n)
    ensures a in Written(m, b, t, start, vs, n) <==> a in m
    ensures a in m ==> Written(m, b, t, start, vs, n)[a] == m[a]
  {
    if n > 0 {
      var sz := SizeOf(t);
      assert (start + n) * sz == (start + n - 1) * sz + sz;
      assert (start + n - 1) * sz == start * sz + (n - 1) * sz && (n - 1) * sz >= 0;
      WrittenFrame(m, b, t, start, vs, n - 1, a);
      StoreFrame(Written(m, b, t, start, vs, n - 1), Slot(b, t, start + n - 1), t, vs[n - 1], a);
    }
  }

  /** Nothing outside slots [from, upTo) of b differs between m and m'. */
  ghost predicate OnlySlots(m: Store, m': Store, b: Addr, t: Type, from: int, upTo: int) {
    forall a :: !InSlots(a, b, t, from, upTo) ==> (a in m' <==> a in m) && (a in m ==> m'[a] == m[a])
  }

  lemma WrittenOnly(m: Store, b: Addr, t: Type, start: int, vs: seq<Value>)
    requires WellSized(t)
    ensures OnlySlots(m, Written(m, b, t, start, vs, |vs|), b, t, start, start + |vs|)
  {
    forall a | !InSlots(a, b, t, start, start + |vs|)
      ensures a in Written(m, b, t, start, vs, |vs|) <==> a in m
      ensures a in m ==> Written(m, b, t, start, vs, |vs|)[a] == m[a]
    {
      WrittenFrame(m, b, t, start, vs, |vs|, a);
    }
  }

  lemma Spliced(was: seq<Value>, now: seq<Value>, start: nat, vs: seq<Value>)
    requires |now| == |was| && start + |vs| <= |was|
    requires forall i :: 0 <= i < |was| ==> now[i] == if start <= i < start + |vs| then vs[i - start] else was[i]
    ensures now == was[..start] + vs + was[start + |vs|..]
  {
  }

  lemma ContentsAt(m: Store, s: Slice, t: Type, i: nat)
    requires s.backing.Some? && i < s.len
    ensures |Contents(m, s, t)| == s.len && Contents(m, s, t)[i] == Load(m, Slot(s.backing.value, t, i), t)
  {
  }

  /** Writing vs at slots start.. of s's memory, as s sees it. */
  lemma WrittenContents(m: Store, m': Store, b: Addr, t: Type, start: nat, vs: seq<Value>, s: Slice)
    requires WellSized(t) && forall i :: 0 <= i < |vs| ==> IsValueOf(t, vs[i])
    requires s.backing == Some(b) && start + |vs| <= s.len && m' == Written(m, b, t, start, vs, |vs|)
    ensures Contents(m', s, t) == Contents(m, s, t)[..start] + vs + Contents(m, s, t)[start + |vs|..]
  {
    var was, now := Contents(m, s, t), Contents(m', s, t);
    forall i | 0 <= i < s.len
      ensures now[i] == if start <= i < start + |vs| then vs[i - start] else was[i]
    {
      ContentsAt(m, s, t, i);
      ContentsAt(m', s, t, i);
      WrittenSlots(m, b, t, start, vs, |vs|, i);
    }
    Spliced(was, now, start, vs);
  }

  lemma WrittenPrefix(m: Store, m': Store, b: Addr, t: Type, vs: seq<Value>, s: Slice)
    requires WellSized(t) && forall i :: 0 <= i < |vs| ==> IsValueOf(t, vs[i])
    requires s.backing == Some(b) && |vs| <= s.len && m' == Written(m, b, t, 0, vs, |vs|)
    ensures Contents(m', s, t) == vs + Contents(m, s, t)[|vs|..]
    ensures |vs| == s.len ==> Contents(m', s, t) == vs
  {
    WrittenContents(m, m', b, t, 0, vs, s);
    var was := Contents(m, s, t);
    assert was[..0] + vs == vs;
  }

  /** Writing beyond s's length does not change what s sees. */
  lemma WrittenBeyond(m: Store, b: Addr, t: Type, start: nat, vs: seq<Value>, s: Slice)
    requires WellSized(t) && forall i :: 0 <= i < |vs| ==> IsValueOf(t, vs[i])
    requires s.backing == Some(b) && s.len <= start
    ensures Contents(Written(m, b, t, start, vs, |vs|), s, t) == Contents(m, s, t)
  {
    var m' := Written(m, b, t, start, vs, |vs|);
    forall i | 0 <= i < s.len
      ensures Contents(m', s, t)[i] == Contents(m, s, t)[i]
    {
      WrittenSlots(m, b, t, start, vs, |vs|, i);
    }
  }

  lemma WrittenAllocated(m: Store, b: Addr, t: Type, start: nat, vs: seq<Value>, next: int)
    requires WellSized(t) && b.alloc < next && forall a :: a in m ==> a.alloc < next
    ensures forall a :: a in Written(m, b, t, start, vs, |vs|) ==> a.alloc < next
  {
    WrittenOnly(m, b, t, start, vs);
  }

  /** A store that differs only in one fresh allocation has the same contents for older slices. */
  lemma {:induction false} OtherAllocSame(m: Store, m': Store, alloc: int, s: Slice, t: Type)
    requires forall a: Addr :: a.alloc != alloc ==> (a in m' <==> a in m) && (a in m ==> m'[a] == m[a])
    requires s.backing.Some? ==> s.backing.value.alloc != alloc
    ensures Contents(m', s, t) == Contents(m, s, t)
  {
    if s.backing.Some? {
      forall i | 0 <= i < s.len
        ensures Load(m', Slot(s.backing.value, t, i), t) == Load(m, Slot(s.backing.value, t, i), t)
      {
        var p := Slot(s.backing.value, t, i);
        assert t.Scalar? || GatherLeaves(m', p, Layout(t)) == GatherLeaves(m, p, Layout(t));
      }
    }
  }

  // ------------------------------------------------------------------
  // growCap

  /** The capacity is at least what is needed; beyond double the old one it is exactly that. */
  /** The capacity grown n times by a quarter and three quarters of the threshold. */
  function GrownBy(c: nat, n: nat): nat {
    if n == 0 then c else GrownBy(c, n - 1) + (GrownBy(c, n - 1) + 3 * 256) / 4
  }

  method GrowCap(oldCap: nat, newLen: nat) returns (newCap: nat)
    ensures newCap >= newLen
    ensures newLen > 2 * oldCap ==> newCap == newLen
    ensures newLen <= 2 * oldCap && oldCap < 256 ==> newCap == 2 * oldCap
    ensures oldCap >= 256 && newLen <= 2 * oldCap && newLen > oldCap ==> 4 * newCap < 5 * newLen + 768
    ensures oldCap >= 256 && newLen <= 2 * oldCap ==>
      exists n: nat :: newCap == GrownBy(oldCap, n) && (n > 0 ==> GrownBy(oldCap, n - 1) < newLen)
  {
    newCap := oldCap;
    var double := newCap + newCap;
    if newLen > double {
      return newLen;
    }
    if oldCap < 256 {
      return double;
    }
    ghost var n: nat := 0;
    while newCap < newLen
      invariant newCap == GrownBy(oldCap, n) && (n > 0 ==> GrownBy(oldCap, n - 1) < newLen)
      invariant newCap >= 256 && newCap >= oldCap
      invariant newCap > oldCap ==> 4 * newCap < 5 * newLen + 768
      decreases newLen - newCap
    {
      newCap := newCap + (newCap + 3 * 256) / 4;
      n := n + 1;
    }
  }

  // ------------------------------------------------------------------
  // The interpreter's memory

  class Heap {
    var elems: Store
    var next: int

    ghost predicate Valid()
      reads this
    {
      forall a :: a in elems ==> a.alloc < next
    }

    /** s refers to memory that has been allocated. */
    predicate Allocated(s: Slice)
      reads this
    {
      s.backing.Some? ==> s.backing.value.alloc < next
    }

    constructor ()
      ensures Valid() && elems == map[] && next == 1
    {
      elems, next := map[], 1;
    }

    /** gatherAggregate, elemAt. */
    method LoadValue(p: Addr, t: Type) returns (v: Value)
      ensures v == Load(elems, p, t)
    {
      if t.Scalar? {
        return One(if p in elems then elems[p] else t.zero);
      }
      var ls := Layout(t);
      var vals := [];
      for i := 0 to |ls|
        invariant vals == GatherLeaves(elems, p, ls)[..i]
      {
        var a := Move(p, ls[i].off);
        vals := vals + [if a in elems then elems[a] else ls[i].zero];
      }
      assert vals == GatherLeaves(elems, p, ls);
      return Agg(ls, vals);
    }

    /** scatterAggregate, setElem. */
    method StoreValue(p: Addr, t: Type, v: Value)
      modifies this`elems
      ensures elems == Stored(old(elems), p, t, v)
    {
      if t.Scalar? {
        elems := elems[p := if v.One? then v.atom else Opaque];
        return;
      }
      var ls := Layout(t);
      for i := 0 to |ls|
        invariant elems == ScatterFirst(old(elems), p, ls, v, i)
      {
        var leaf := if v.One? || (v.Agg? && |v.vals| != |ls|) then Opaque
                    else if v.ZeroAgg? then ls[i].zero else v.vals[i];
        elems := elems[Move(p, ls[i].off) := leaf];
      }
    }

    /** sliceElems. */
    method SliceElems(s: Slice, t: Type) returns (vs: seq<Value>)
      ensures vs == Contents(elems, s, t)
      ensures forall i :: 0 <= i < |vs| ==> IsValueOf(t, vs[i])
    {
      vs := [];
      if s.backing.None? {
        return;
      }
      for i := 0 to s.len
        invariant vs == Contents(elems, s, t)[..i]
        invariant forall j :: 0 <= j < |vs| ==> IsValueOf(t, vs[j])
      {
        var v := LoadValue(Slot(s.backing.value, t, i), t);
        LoadIsValue(elems, Slot(s.backing.value, t, i), t);
        vs := vs + [v];
      }
    }

    method WriteElems(b: Addr, t: Type, start: nat, vs: seq<Value>)
      modifies this`elems
      ensures elems == Written(old(elems), b, t, start, vs, |vs|)
    {
      for i := 0 to |vs|
        invariant elems == Written(old(elems), b, t, start, vs, i)
      {
        StoreValue(Slot(b, t, start + i), t, vs[i]);
      }
    }

    /** newConcreteSlice. */
    method NewSlice(t: Type, vs: seq<Value>, capacity: nat) returns (s: Slice)
      requires Valid() && WellSized(t) && forall i :: 0 <= i < |vs| ==> IsValueOf(t, vs[i])
      modifies this
      ensures Valid() && Allocated(s) && WellFormed(s) && next == old(next) + 1
      ensures s.backing == Some(Addr(old(next), 0)) && s.len == |vs|
      ensures s.cap == if capacity < |vs| then |vs| else capacity
      ensures Contents(elems, s, t) == vs
      ensures forall a: Addr :: a.alloc != old(next) ==> (a in elems <==> a in old(elems)) && (a in old(elems) ==> elems[a] == old(elems)[a])
    {
      var b := Addr(next, 0);
      next := next + 1;
      s := Slice(Some(b), |vs|, if capacity < |vs| then |vs| else capacity);
      WriteElems(b, t, 0, vs);
      WrittenOnly(old(elems), b, t, 0, vs);
      WrittenAllocated(old(elems), b, t, 0, vs, next);
      WrittenPrefix(old(elems), elems, b, t, vs, s);
      assert forall a: Addr :: a.alloc != old(next) ==> !InSlots(a, b, t, 0, |vs|);
    }

    /** append in place: base has room. */
    method AppendInPlace(base: Slice, extra: seq<Value>, t: Type) returns (out: Slice)
      requires Valid() && WellSized(t) && WellFormed(base) && Allocated(base) && base.backing.Some?
      requires base.len + |extra| <= base.cap && forall i :: 0 <= i < |extra| ==> IsValueOf(t, extra[i])
      modifies this`elems
      ensures Valid() && out == base.(len := base.len + |extra|)
      ensures Contents(elems, out, t) == old(Contents(elems, base, t)) + extra
      ensures Contents(elems, base, t) == old(Contents(elems, base, t))
      ensures OnlySlots(old(elems), elems, base.backing.value, t, base.len, out.len)
    {
      out := base.(len := base.len + |extra|);
      ghost var m, b := elems, base.backing.value;
      WriteElems(base.backing.value, t, base.len, extra);
      WrittenOnly(m, b, t, base.len, extra);
      WrittenAllocated(m, b, t, base.len, extra, next);
      WrittenBeyond(m, b, t, base.len, extra, base);
      WrittenContents(m, elems, b, t, base.len, extra, out);
      assert Contents(m, out, t)[..base.len] == Contents(m, base, t);
    }

    /** append: the result holds base's elements and then extra's, and base still sees its own. Only
        slots beyond base's length, or fresh memory, are written. */
    method AppendValues(base: Slice, extra: seq<Value>, t: Type) returns (out: Slice)
      requires Valid() && WellSized(t) && WellFormed(base) && Allocated(base)
      requires forall i :: 0 <= i < |extra| ==> IsValueOf(t, extra[i])
      modifies this
      ensures Valid() && WellFormed(out) && Allocated(out) && out.len == base.len + |extra|
      ensures Contents(elems, out, t) == old(Contents(elems, base, t)) + extra
      ensures Contents(elems, base, t) == old(Contents(elems, base, t))
      ensures extra == [] ==> out == base && elems == old(elems)
      ensures base.backing.Some? && out.backing == base.backing ==>
                OnlySlots(old(elems), elems, base.backing.value, t, base.len, out.len)
      ensures out.backing != base.backing ==>
                && out.backing == Some(Addr(old(next), 0))
                && forall a :: a in old(elems) ==> a in elems && elems[a] == old(elems)[a]
    {
      if |extra| == 0 {
        return base;
      }
      var newLen := base.len + |extra|;
      if newLen <= base.cap && base.backing.Some? {
        out := AppendInPlace(base, extra, t);
        return;
      }
      var vs := SliceElems(base, t);
      assert forall i :: 0 <= i < |vs + extra| ==> IsValueOf(t, (vs + extra)[i]);
      var capacity := GrowCap(base.cap, newLen);
      out := NewSlice(t, vs + extra, capacity);
      OtherAllocSame(old(elems), elems, old(next), base, t);
    }

    /** append(base, src...): src may share memory with base. */
    method AppendSlice(base: Slice, src: Slice, t: Type) returns (out: Slice)
      requires Valid() && WellSized(t) && WellFormed(base) && Allocated(base)
      modifies this
      ensures Valid() && WellFormed(out) && Allocated(out)
      ensures Contents(elems, out, t) == old(Contents(elems, base, t)) + old(Contents(elems, src, t))
      ensures Contents(elems, base, t) == old(Contents(elems, base, t))
    {
      var extra := SliceElems(src, t);
      out := AppendValues(base, extra, t);
    }

    /** Overwrites the first elements of dst. */
    method WriteOver(dst: Slice, vs: seq<Value>, t: Type)
      requires Valid() && WellSized(t) && WellFormed(dst) && Allocated(dst) && dst.backing.Some?
      requires |vs| <= dst.len && forall i :: 0 <= i < |vs| ==> IsValueOf(t, vs[i])
      modifies this`elems
      ensures Valid() && Contents(elems, dst, t) == vs + old(Contents(elems, dst, t))[|vs|..]
      ensures OnlySlots(old(elems), elems, dst.backing.value, t, 0, |vs|)
    {
      ghost var m, b := elems, dst.backing.value;
      WriteElems(dst.backing.value, t, 0, vs);
      WrittenOnly(m, b, t, 0, vs);
      WrittenAllocated(m, b, t, 0, vs, next);
      WrittenPrefix(m, elems, b, t, vs, dst);
    }

    /** copy: a simultaneous move, also between overlapping slices. */
    method Copy(dst: Slice, src: Slice, t: Type) returns (n: nat)
      requires Valid() && WellSized(t) && WellFormed(dst) && Allocated(dst)
      modifies this`elems
      ensures Valid()
      ensures n == if dst.len < |old(Contents(elems, src, t))| then dst.len else |old(Contents(elems, src, t))|
      ensures Contents(elems, dst, t) == old(Contents(elems, src, t))[..n] + old(Contents(elems, dst, t))[n..]
      ensures dst.backing.Some? ==> OnlySlots(old(elems), elems, dst.backing.value, t, 0, n)
    {
      var vs := SliceElems(src, t);
      n := if dst.len < |vs| then dst.len else |vs|;
      if dst.backing.Some? {
        WriteOver(dst, vs[..n], t);
      }
    }
  }
}
