/** The detector object. Go maps are shared by reference, so a recorded clock is an object; the
    detector copies the goroutine's live clock, or reuses its last copy when that is still equal. */
module RaceDetector {
  import opened Clock
  import opened ClockMachine
  import opened Detector

  /** A clock map, as a goroutine or the detector refers to it. */
  class ClockMap {
    var entries: VC

    constructor (c: VC)
      ensures entries == c
    {
      entries := c;
    }
  }

  /** A recorded access, holding a reference to its clock. */
  datatype Cell = Cell(write: bool, g: Gid, site: string, clock: ClockMap)

  ghost function Deref(cell: Cell): Entry
    reads cell.clock
  {
    Entry(cell.write, cell.g, cell.site, cell.clock.entries)
  }

  ghost function DerefAll(m: map<Key, Cell>): map<Key, Entry>
    reads set k | k in m :: m[k].clock
  {
    map k | k in m :: Deref(m[k])
  }

  lemma DerefUpdate(m: map<Key, Cell>, key: Key, cell: Cell)
    ensures DerefAll(m[key := cell]) == DerefAll(m)[key := Deref(cell)]
    ensures DerefAll(m - {key}) == DerefAll(m) - {key}
  {
  }

  class Recorder {
    var lastWrite: map<Key, Cell>
    var lastRead: map<Key, Cell>
    var snap: ClockMap?
    var snapGid: Gid
    var dormant: bool
    ghost var owned: set<ClockMap>   // every snapshot ever taken

    /** Recorded clocks are the detector's own copies, never a goroutine's live clock. */
    ghost predicate Valid()
      reads this
    {
      && (forall k :: k in lastWrite ==> lastWrite[k].clock in owned)
      && (forall k :: k in lastRead ==> lastRead[k].clock in owned)
      && (snap != null ==> snap in owned)
    }

    /** The history with every reference followed. */
    ghost function View(): History
      reads this`lastWrite, this`lastRead
      reads set k | k in lastWrite :: lastWrite[k].clock
      reads set k | k in lastRead :: lastRead[k].clock
    {
      History(DerefAll(lastWrite), DerefAll(lastRead))
    }

    constructor ()
      ensures Valid() && View() == NoHistory && !dormant && owned == {}
    {
      lastWrite, lastRead := map[], map[];
      snap, snapGid, dormant, owned := null, 0, false, {};
    }

    method SetDormant(asleep: bool)
      requires Valid()
      modifies this`dormant
      ensures Valid() && View() == old(View()) && dormant == asleep
    {
      dormant := asleep;
    }

    method Reset()
      requires Valid()
      modifies this`lastWrite, this`lastRead, this`snap
      ensures Valid() && View() == NoHistory
    {
      lastWrite, lastRead, snap := map[], map[], null;
    }

    /** An immutable copy of clock, reusing the previous copy when it was taken for the same
        goroutine and is element-wise equal. */
    method Snapshot(g: Gid, clock: ClockMap) returns (c: ClockMap)
      requires Valid() && clock !in owned
      modifies this`snap, this`snapGid, this`owned
      ensures Valid() && c in owned && clock !in owned && c.entries == clock.entries
      ensures old(owned) <= owned && fresh(owned - old(owned))
      ensures View() == old(View())
    {
      if snap != null && snapGid == g {
        var same := SameClock(snap.entries, clock.entries);
        if same {
          return snap;
        }
      }
      c := new ClockMap(clock.entries);
      snap, snapGid, owned := c, g, owned + {c};
    }

    /** The recorded access the current one races with at a byte: the last write, or for a write
        the last read. */
    method FindConflict(key: Key, acc: Acc, g: Gid, clock: ClockMap) returns (last: Option<Cell>)
      requires Valid()
      ensures last.Some? ==> last.value.clock in owned
      ensures Conflict(ByteAt(View(), key), acc, g, clock.entries) ==
              if last.Some? then Some(Deref(last.value)) else None
    {
      if key in lastWrite && Unordered(lastWrite[key], g, clock) {
        return Some(lastWrite[key]);
      }
      if acc.write && key in lastRead && Unordered(lastRead[key], g, clock) {
        return Some(lastRead[key]);
      }
      return None;
    }

    predicate Unordered(last: Cell, g: Gid, clock: ClockMap)
      reads last.clock, clock
    {
      && last.g != g
      && !Precedes(last.clock.entries, clock.entries)
      && !Precedes(clock.entries, last.clock.entries)
    }

    method RecordByte(key: Key, cell: Cell)
      requires Valid() && cell.clock in owned
      modifies this`lastWrite, this`lastRead
      ensures Valid() && View() == Record(old(View()), key, Deref(cell))
    {
      DerefUpdate(lastWrite, key, cell);
      DerefUpdate(lastRead, key, cell);
      ghost var w, r := DerefAll(lastWrite), DerefAll(lastRead);
      if cell.write {
        lastWrite, lastRead := lastWrite[key := cell], lastRead - {key};
        assert DerefAll(lastWrite) == w[key := Deref(cell)];
        assert DerefAll(lastRead) == r - {key};
      } else {
        lastRead := lastRead[key := cell];
        assert DerefAll(lastRead) == r[key := Deref(cell)];
      }
    }

    method CheckBytes(acc: Acc, g: Gid, clock: ClockMap, c: ClockMap) returns (race: Option<Race>)
      requires Valid() && c in owned && c.entries == clock.entries
      modifies this`lastWrite, this`lastRead
      ensures Valid()
      ensures (View(), race) == Check(old(View()), acc, g, clock.entries)
    {
      var i := 0;
      while i < acc.size
        invariant Valid() && 0 <= i
        invariant Check(old(View()), acc, g, clock.entries) == CheckFrom(View(), acc, g, clock.entries, i)
      {
        var key := ByteOf(acc, i);
        var last := FindConflict(key, acc, g, clock);
        if last.Some? {
          return Some(Race(key, last.value.site, last.value.g, acc.site, g));
        }
        RecordByte(key, Cell(acc.write, g, acc.site, c));
        i := i + 1;
      }
      return None;
    }

    /** Checks one access and records it, byte by byte, with one snapshot for all bytes. */
    method CheckAccess(acc: Acc, g: Gid, clock: ClockMap) returns (race: Option<Race>)
      requires Valid() && clock !in owned
      modifies this`lastWrite, this`lastRead, this`snap, this`snapGid, this`owned
      ensures Valid() && clock !in owned && old(owned) <= owned && fresh(owned - old(owned))
      ensures (View(), race) == if dormant then (old(View()), None) else Check(old(View()), acc, g, clock.entries)
    {
      if dormant {
        return None;
      }
      var c := Snapshot(g, clock);
      race := CheckBytes(acc, g, clock, c);
    }
  }

  /** Element-wise equality of two clock maps of the same size. */
  method SameClock(a: VC, b: VC) returns (same: bool)
    ensures same == (a == b)
  {
    if |a| != |b| {
      return false;
    }
    var todo := b.Keys;
    while todo != {}
      invariant todo <= b.Keys
      invariant forall k :: k in b && k !in todo ==> k in a && a[k] == b[k]
      decreases todo
    {
      Inhabited(todo);
      var k :| k in todo;
      if k !in a || a[k] != b[k] {
        return false;
      }
      todo := todo - {k};
    }
    SameSizeSubmap(b, a);
    return true;
  }

  lemma SameSizeSubmap(a: VC, b: VC)
    requires |a| == |b| && forall k :: k in a ==> k in b && b[k] == a[k]
    ensures a == b
  {
    assert a.Keys <= b.Keys by {
      forall k | k in a.Keys
        ensures k in b.Keys
      {
      }
    }
    SameSizeSubset(a.Keys, b.Keys);
    assert forall k :: k in a.Keys ==> a[k] == b[k];
  }

  lemma SameSizeSubset<T>(a: set<T>, b: set<T>)
    requires a <= b && |a| == |b|
    ensures a == b
  {
    assert |a| + |b - a| == |a + (b - a)|;
    assert a + (b - a) == b;
    assert b <= a by {
      forall x | x in b
        ensures x in a
      {
        assert x !in b - a;
      }
    }
  }
}
