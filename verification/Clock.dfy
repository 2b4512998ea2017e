/** Vector clocks, as goroutines, channels, mutexes and the race detector hold them
    (pkg/interpreter/interpreter.go). A missing component reads as 0, so entries are positive;
    components are unbounded integers. */
module Clock {
  type Gid = int

  type pos = n: int | 0 < n witness 1

  type VC = map<Gid, pos>

  function At(c: VC, g: Gid): nat {
    if g in c then c[g] else 0
  }

  /** Component-wise order: the clock-level happens-before test. */
  predicate Leq(a: VC, b: VC) {
    forall g :: g in a ==> a[g] <= At(b, g)
  }

  function Join(a: VC, b: VC): VC {
    map g | g in a.Keys + b.Keys :: if At(a, g) < At(b, g) then b[g] else a[g]
  }

  function Tick(c: VC, g: Gid): VC {
    c[g := At(c, g) + 1]
  }

  lemma Inhabited(s: set<Gid>)
    ensures s == {} || exists g :: g in s
  {
    if !exists g :: g in s {
      assert s == {};
    }
  }

  lemma LeqTransitive(a: VC, b: VC, c: VC)
    requires Leq(a, b) && Leq(b, c)
    ensures Leq(a, c)
  {
    forall g | g in a
      ensures a[g] <= At(c, g)
    {
      assert g in b;
    }
  }

  lemma JoinIsLeastUpperBound(a: VC, b: VC, c: VC)
    ensures Leq(a, Join(a, b)) && Leq(b, Join(a, b))
    ensures Leq(a, c) && Leq(b, c) ==> Leq(Join(a, b), c)
    ensures forall g :: At(Join(a, b), g) == if At(a, g) < At(b, g) then At(b, g) else At(a, g)
  {
  }

  /** A goroutine's clock, updated in place. */
  class VectorClock {
    var clocks: VC

    constructor (g: Gid)
      ensures clocks == map[g := 1]
    {
      clocks := map[g := 1];
    }

    method Advance(g: Gid)
      modifies this
      ensures clocks == Tick(old(clocks), g)
    {
      clocks := clocks[g := At(clocks, g) + 1];
    }

    /** Takes the component-wise maximum with src, one component at a time. */
    method Merge(src: VC)
      modifies this
      ensures clocks == Join(old(clocks), src)
    {
      var todo := src.Keys;
      while todo != {}
        invariant todo <= src.Keys
        invariant clocks.Keys == old(clocks).Keys + (src.Keys - todo)
        invariant forall g :: g in todo ==> At(clocks, g) == At(old(clocks), g)
        invariant forall g :: g in clocks && g !in todo ==> clocks[g] == Join(old(clocks), src)[g]
        decreases todo
      {
        Inhabited(todo);
        var g :| g in todo;
        if At(clocks, g) < src[g] {
          clocks := clocks[g := src[g]];
        }
        todo := todo - {g};
      }
    }

    method HappensBefore(other: VC) returns (before: bool)
      ensures before == Leq(clocks, other)
    {
      var todo := clocks.Keys;
      while todo != {}
        invariant todo <= clocks.Keys
        invariant forall g :: g in clocks && g !in todo ==> clocks[g] <= At(other, g)
        decreases todo
      {
        Inhabited(todo);
        var g :| g in todo;
        if At(other, g) < clocks[g] {
          return false;
        }
        todo := todo - {g};
      }
      return true;
    }
  }
}
