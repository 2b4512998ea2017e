/** Frame values by slot number instead of by name, and the one-entry goroutine lookup cache
    (pkg/interpreter/slots.go). */
module Slots {
  import opened Detector

  /** An SSA value, by identity. */
  type Ssa = nat

  /** A function: each instruction produces a value or does not. */
  datatype Function = Function(params: seq<Ssa>, freeVars: seq<Ssa>, blocks: seq<seq<Option<Ssa>>>)

  function Produced(instrs: seq<Option<Ssa>>): seq<Ssa> {
    if instrs == [] then []
    else Produced(instrs[..|instrs| - 1]) + (if instrs[|instrs| - 1].Some? then [instrs[|instrs| - 1].value] else [])
  }

  function BlockValues(blocks: seq<seq<Option<Ssa>>>): seq<Ssa> {
    if blocks == [] then [] else BlockValues(blocks[..|blocks| - 1]) + Produced(blocks[|blocks| - 1])
  }

  /** The values a frame of fn holds. */
  function ValuesOf(fn: Function): seq<Ssa> {
    fn.params + fn.freeVars + BlockValues(fn.blocks)
  }

  /** Slot i is some value's. */
  ghost predicate Used(idx: map<Ssa, nat>, vs: seq<Ssa>, i: nat) {
    exists v :: v in vs && v in idx && idx[v] == i
  }

  /** idx numbers the values in vs with exactly 0, ..., n - 1, no two alike. */
  ghost predicate Numbers(idx: map<Ssa, nat>, vs: seq<Ssa>, n: nat) {
    && (forall v :: v in vs ==> v in idx && idx[v] < n)
    && (forall v, w :: v in vs && w in vs && v != w ==> idx[v] != idx[w])
    && (forall i: nat :: i < n ==> Used(idx, vs, i))
  }

  lemma NumbersOneMore(idx: map<Ssa, nat>, vs: seq<Ssa>, n: nat, v: Ssa)
    requires Numbers(idx, vs, n) && (v in idx ==> v in vs)
    ensures if v in idx then Numbers(idx, vs + [v], n) else Numbers(idx[v := n], vs + [v], n + 1)
  {
    var vs' := vs + [v];
    assert forall w :: w in vs' <==> w in vs || w == v;
    var idx', n' := if v in idx then idx else idx[v := n], if v in idx then n else n + 1;
    forall i: nat | i < n'
      ensures Used(idx', vs', i)
    {
      if i < n {
        assert Used(idx, vs, i);
        var w :| w in vs && w in idx && idx[w] == i;
        assert w in vs' && w in idx' && idx'[w] == i;
      } else {
        assert v in vs' && v in idx' && idx'[v] == i;
      }
    }
  }

  ghost predicate HasOwner(numbered: map<nat, Function>, v: Ssa) {
    exists f :: f in numbered && v in ValuesOf(numbered[f])
  }

  /** Every function numbered so far has its values numbered, and nothing else is. */
  ghost predicate TableOk(idx: map<Ssa, nat>, fnSlots: map<nat, nat>, numbered: map<nat, Function>) {
    && (forall f :: f in fnSlots <==> f in numbered)
    && (forall f :: f in numbered ==> Numbers(idx, ValuesOf(numbered[f]), fnSlots[f]))
    && (forall v :: v in idx ==> HasOwner(numbered, v))
  }

  /** idx extends base by exactly the numbers of the values in done. */
  ghost predicate Extends(base: map<Ssa, nat>, idx: map<Ssa, nat>, done: seq<Ssa>, n: nat) {
    && Numbers(idx, done, n)
    && (forall v :: v in base ==> v in idx && idx[v] == base[v])
    && (forall v :: v in idx ==> v in base || v in done)
    && (forall v :: v in done ==> v !in base)
  }

  class SlotTable {
    var slotIdx: map<Ssa, nat>
    var fnSlots: map<nat, nat>
    ghost var numbered: map<nat, Function>

    ghost predicate Valid()
      reads this
    {
      TableOk(slotIdx, fnSlots, numbered)
    }

    constructor ()
      ensures Valid() && slotIdx == map[] && fnSlots == map[]
    {
      slotIdx, fnSlots, numbered := map[], map[], map[];
    }

    /** numberFunc's closure add. */
    method Add(v: Ssa, n: nat) returns (n': nat)
      modifies this`slotIdx
      ensures slotIdx == if v in old(slotIdx) then old(slotIdx) else old(slotIdx)[v := n]
      ensures n' == if v in old(slotIdx) then n else n + 1
    {
      n' := n;
      if v !in slotIdx {
        slotIdx := slotIdx[v := n];
        n' := n + 1;
      }
    }

    /** The values of done are numbered, and nothing else is new since base. */
    ghost predicate Partial(base: map<Ssa, nat>, done: seq<Ssa>, n: nat)
      reads this
    {
      Extends(base, slotIdx, done, n)
    }

    method AddOne(v: Ssa, n: nat, ghost base: map<Ssa, nat>, ghost done: seq<Ssa>) returns (n': nat)
      requires Partial(base, done, n) && v !in base
      modifies this`slotIdx
      ensures Partial(base, done + [v], n')
    {
      NumbersOneMore(slotIdx, done, n, v);
      assert forall w :: w in done + [v] <==> w in done || w == v;
      n' := Add(v, n);
    }

    method AddAll(vs: seq<Ssa>, n: nat, ghost base: map<Ssa, nat>, ghost done: seq<Ssa>) returns (n': nat)
      requires Partial(base, done, n) && forall v :: v in vs ==> v !in base
      modifies this`slotIdx
      ensures Partial(base, done + vs, n')
    {
      n' := n;
      assert done + vs[..0] == done;
      for i := 0 to |vs|
        invariant Partial(base, done + vs[..i], n')
      {
        n' := AddOne(vs[i], n', base, done + vs[..i]);
        assert done + vs[..i] + [vs[i]] == done + vs[..i + 1];
      }
      assert vs[..|vs|] == vs;
    }

    method AddBlock(instrs: seq<Option<Ssa>>, n: nat, ghost base: map<Ssa, nat>, ghost done: seq<Ssa>) returns (n': nat)
      requires Partial(base, done, n) && forall v :: v in Produced(instrs) ==> v !in base
      modifies this`slotIdx
      ensures Partial(base, done + Produced(instrs), n')
    {
      n' := n;
      assert done + Produced(instrs[..0]) == done;
      for i := 0 to |instrs|
        invariant Partial(base, done + Produced(instrs[..i]), n')
      {
        assert instrs[..i + 1][..i] == instrs[..i];
        ProducedPrefix(instrs, i + 1);
        if instrs[i].Some? {
          assert instrs[i].value in Produced(instrs[..i + 1]);
          n' := AddOne(instrs[i].value, n', base, done + Produced(instrs[..i]));
          assert done + Produced(instrs[..i]) + [instrs[i].value] == done + Produced(instrs[..i + 1]);
        } else {
          assert done + Produced(instrs[..i + 1]) == done + Produced(instrs[..i]);
        }
      }
      assert instrs[..|instrs|] == instrs;
    }

    method AddBlocks(blocks: seq<seq<Option<Ssa>>>, n: nat, ghost base: map<Ssa, nat>, ghost done: seq<Ssa>)
        returns (n': nat)
      requires Partial(base, done, n) && forall v :: v in BlockValues(blocks) ==> v !in base
      modifies this`slotIdx
      ensures Partial(base, done + BlockValues(blocks), n')
    {
      n' := n;
      assert done + BlockValues(blocks[..0]) == done;
      for i := 0 to |blocks|
        invariant Partial(base, done + BlockValues(blocks[..i]), n')
      {
        assert blocks[..i + 1][..i] == blocks[..i];
        BlocksPrefix(blocks, i + 1);
        assert forall v :: v in Produced(blocks[i]) ==> v in BlockValues(blocks[..i + 1]);
        n' := AddBlock(blocks[i], n', base, done + BlockValues(blocks[..i]));
        assert done + BlockValues(blocks[..i]) + Produced(blocks[i]) == done + BlockValues(blocks[..i + 1]);
      }
      assert blocks[..|blocks|] == blocks;
    }

    method NumberValues(fn: Function) returns (n: nat)
      requires forall v :: v in ValuesOf(fn) ==> v !in slotIdx
      modifies this`slotIdx
      ensures Partial(old(slotIdx), ValuesOf(fn), n)
    {
      ghost var base := slotIdx;
      assert forall v :: v in fn.params || v in fn.freeVars || v in BlockValues(fn.blocks) ==> v in ValuesOf(fn);
      n := AddAll(fn.params, 0, base, []);
      assert [] + fn.params == fn.params;
      n := AddAll(fn.freeVars, n, base, fn.params);
      n := AddBlocks(fn.blocks, n, base, fn.params + fn.freeVars);
    }

    /** numberFunc: a function's values get the slots 0, ..., n - 1, each exactly one, once and for
        all. No value belongs to two functions. */
    method NumberFunc(f: nat, fn: Function) returns (n: nat)
      requires Valid() && (f in numbered ==> numbered[f] == fn)
      requires f !in numbered ==> forall v :: v in ValuesOf(fn) ==> v !in slotIdx
      modifies this
      ensures Valid() && f in fnSlots && n == fnSlots[f] && numbered == old(numbered)[f := fn]
      ensures Numbers(slotIdx, ValuesOf(fn), n)
      ensures forall v :: v in old(slotIdx) ==> v in slotIdx && slotIdx[v] == old(slotIdx)[v]
      ensures forall g :: g in old(fnSlots) ==> g in fnSlots && fnSlots[g] == old(fnSlots)[g]
    {
      if f in fnSlots {
        assert numbered[f := fn] == numbered;
        return fnSlots[f];
      }
      n := NumberValues(fn);
      TableGrows(old(slotIdx), slotIdx, fnSlots, numbered, f, fn, n);
      fnSlots := fnSlots[f := n];
      numbered := numbered[f := fn];
    }
  }

  lemma ProducedPrefix(instrs: seq<Option<Ssa>>, i: nat)
    requires i <= |instrs|
    ensures forall v :: v in Produced(instrs[..i]) ==> v in Produced(instrs)
    decreases |instrs|
  {
    if i < |instrs| {
      var n := |instrs| - 1;
      ProducedPrefix(instrs[..n], i);
      assert instrs[..n][..i] == instrs[..i];
    } else {
      assert instrs[..i] == instrs;
    }
  }

  lemma BlocksPrefix(blocks: seq<seq<Option<Ssa>>>, i: nat)
    requires i <= |blocks|
    ensures forall v :: v in BlockValues(blocks[..i]) ==> v in BlockValues(blocks)
    decreases |blocks|
  {
    if i < |blocks| {
      var n := |blocks| - 1;
      BlocksPrefix(blocks[..n], i);
      assert blocks[..n][..i] == blocks[..i];
    } else {
      assert blocks[..i] == blocks;
    }
  }

  /** Numbering more values leaves a function's values numbered as they were. */
  lemma NumbersKeep(base: map<Ssa, nat>, idx: map<Ssa, nat>, vs: seq<Ssa>, n: nat)
    requires Numbers(base, vs, n) && forall v :: v in base ==> v in idx && idx[v] == base[v]
    ensures Numbers(idx, vs, n)
  {
    forall i: nat | i < n
      ensures Used(idx, vs, i)
    {
      assert Used(base, vs, i);
      var v :| v in vs && v in base && base[v] == i;
      assert v in vs && v in idx && idx[v] == i;
    }
  }

  lemma OwnerKept(numbered: map<nat, Function>, f: nat, fn: Function, v: Ssa)
    requires f !in numbered && (HasOwner(numbered, v) || v in ValuesOf(fn))
    ensures HasOwner(numbered[f := fn], v)
  {
    var next := numbered[f := fn];
    if v in ValuesOf(fn) {
      assert f in next && v in ValuesOf(next[f]);
    } else {
      var g :| g in numbered && v in ValuesOf(numbered[g]);
      assert g in next && v in ValuesOf(next[g]);
    }
  }

  lemma TableGrows(base: map<Ssa, nat>, idx: map<Ssa, nat>, fnSlots: map<nat, nat>, numbered: map<nat, Function>,
                   f: nat, fn: Function, n: nat)
    requires TableOk(base, fnSlots, numbered) && f !in numbered && Extends(base, idx, ValuesOf(fn), n)
    ensures TableOk(idx, fnSlots[f := n], numbered[f := fn])
  {
    forall g | g in numbered
      ensures Numbers(idx, ValuesOf(numbered[g]), fnSlots[g])
    {
      NumbersKeep(base, idx, ValuesOf(numbered[g]), fnSlots[g]);
    }
    forall v | v in idx
      ensures HasOwner(numbered[f := fn], v)
    {
      OwnerKept(numbered, f, fn, v);
    }
  }

  // ------------------------------------------------------------------
  // Frames

  /** A frame of a function whose values are vs, with as many slots as the function has values. */
  class Frame<Value(0)> {
    const table: SlotTable
    ghost const vs: seq<Ssa>
    const slots: array<Value>
    const ok: array<bool>

    ghost predicate Valid()
      reads this, table, slots, ok
    {
      slots as object != ok as object && slots.Length == ok.Length && Numbers(table.slotIdx, vs, slots.Length)
    }

    /** The frame as a map from values: what the slots stand for. */
    ghost function Locals(): map<Ssa, Value>
      requires Valid()
      reads this, table, slots, ok
    {
      map v | v in vs && ok[table.slotIdx[v]] :: slots[table.slotIdx[v]]
    }

    /** initSlots. */
    constructor (table: SlotTable, ghost fn: Function, n: nat)
      requires Numbers(table.slotIdx, ValuesOf(fn), n)
      ensures this.table == table && vs == ValuesOf(fn) && fresh(slots) && fresh(ok)
      ensures Valid() && Locals() == map[]
    {
      this.table, this.vs := table, ValuesOf(fn);
      slots := new Value[n];
      ok := new bool[n](_ => false);
    }

    /** v is a value of this frame's function, or of none. */
    ghost predicate Mine(v: Ssa)
      reads this, table
    {
      v in vs || v !in table.slotIdx
    }

    method SetLocal(v: Ssa, val: Value)
      requires Valid() && Mine(v)
      modifies slots, ok
      ensures Valid() && Locals() == if v in vs then old(Locals())[v := val] else old(Locals())
    {
      if v in table.slotIdx && table.slotIdx[v] < slots.Length {
        slots[table.slotIdx[v]] := val;
        ok[table.slotIdx[v]] := true;
        ghost var idx := table.slotIdx;
        assert forall w :: w in vs && w != v ==> idx[w] != idx[v];
      }
    }

    method GetLocal(v: Ssa) returns (val: Option<Value>)
      requires Valid() && Mine(v)
      ensures val == if v in Locals() then Some(Locals()[v]) else None
    {
      if v in table.slotIdx && table.slotIdx[v] < slots.Length && ok[table.slotIdx[v]] {
        return Some(slots[table.slotIdx[v]]);
      }
      return None;
    }
  }

  // ------------------------------------------------------------------
  // Goroutine lookup

  class Goroutine {
    const id: int

    constructor (id: int)
      ensures this.id == id
    {
      this.id := id;
    }
  }

  class Goroutines {
    var table: map<int, Goroutine>
    var gor: Goroutine?

    /** A goroutine is in the table under its id, and the cached one is in the table. */
    ghost predicate Valid()
      reads this
    {
      && (forall id :: id in table ==> table[id].id == id)
      && (gor != null ==> gor.id in table && table[gor.id] == gor)
    }

    constructor ()
      ensures Valid() && table == map[]
    {
      table, gor := map[], null;
    }

    /** goroutine: the lookup agrees with the table whatever is cached. */
    method Lookup(gid: int) returns (g: Goroutine?)
      requires Valid()
      modifies this`gor
      ensures Valid() && g == if gid in table then table[gid] else null
    {
      if gor != null && gor.id == gid {
        return gor;
      }
      g := if gid in table then table[gid] else null;
      if g != null {
        gor := g;
      }
    }

    /** spawnGoroutine's entry in the table; the id is new. */
    method Add(g: Goroutine)
      requires Valid() && g.id !in table
      modifies this`table
      ensures Valid() && table == old(table)[g.id := g]
    {
      table := table[g.id := g];
    }

    /** forgetGoroutine. */
    method Forget(gid: int)
      requires Valid()
      modifies this
      ensures Valid() && table == old(table) - {gid}
    {
      table := table - {gid};
      if gor != null && gor.id == gid {
        gor := null;
      }
    }
  }
}
