/** The race detector (pkg/detector/detector.go): the last write and the last read of each byte,
    checked and updated byte by byte. */
module Detector {
  import opened Clock
  import opened ClockMachine

  datatype Option<+T> = None | Some(value: T)

  datatype Key = Key(alloc: int, off: int)

  datatype Entry = Entry(write: bool, g: Gid, site: string, clock: VC)

  /** A reported race: the recorded access, then the current one. */
  datatype Race = Race(key: Key, site1: string, g1: Gid, site2: string, g2: Gid)

  datatype History = History(lastWrite: map<Key, Entry>, lastRead: map<Key, Entry>)

  const NoHistory := History(map[], map[])

  /** The detector's own order: an empty clock precedes nothing. */
  predicate Precedes(a: VC, b: VC) {
    |a| != 0 && Leq(a, b)
  }

  predicate Concurrent(last: Entry, g: Gid, clock: VC) {
    last.g != g && !Precedes(last.clock, clock) && !Precedes(clock, last.clock)
  }

  function ByteOf(acc: Acc, i: int): Key {
    Key(acc.alloc, acc.off + i)
  }

  predicate Covers(acc: Acc, key: Key) {
    acc.alloc == key.alloc && acc.off <= key.off < acc.off + acc.size
  }

  // ------------------------------------------------------------------
  // One byte at a time.

  /** All the detector knows about one byte. */
  datatype Byte = Byte(w: Option<Entry>, r: Option<Entry>)

  function Lookup(m: map<Key, Entry>, key: Key): Option<Entry> {
    if key in m then Some(m[key]) else None
  }

  function ByteAt(h: History, key: Key): Byte {
    Byte(Lookup(h.lastWrite, key), Lookup(h.lastRead, key))
  }

  /** The recorded access that the current one races with, if any. */
  function Conflict(b: Byte, acc: Acc, g: Gid, clock: VC): Option<Entry> {
    if b.w.Some? && Concurrent(b.w.value, g, clock) then b.w
    else if acc.write && b.r.Some? && Concurrent(b.r.value, g, clock) then b.r
    else None
  }

  function Recorded(b: Byte, e: Entry): Byte {
    if e.write then Byte(Some(e), None) else Byte(b.w, Some(e))
  }

  function Record(h: History, key: Key, e: Entry): History {
    if e.write then History(h.lastWrite[key := e], h.lastRead - {key})
    else h.(lastRead := h.lastRead[key := e])
  }

  function RaceOf(key: Key, last: Entry, e: Entry): Race {
    Race(key, last.site, last.g, e.site, e.g)
  }

  /** The loop of CheckAccess from byte i on: check the byte, stop at a race, else record it. */
  function CheckFrom(h: History, acc: Acc, g: Gid, clock: VC, i: nat): (History, Option<Race>)
    decreases acc.size - i
  {
    if acc.size <= i then (h, None) else
    var key, e := ByteOf(acc, i), Entry(acc.write, g, acc.site, clock);
    match Conflict(ByteAt(h, key), acc, g, clock)
    case Some(last) => (h, Some(RaceOf(key, last, e)))
    case None => CheckFrom(Record(h, key, e), acc, g, clock, i + 1)
  }

  function Check(h: History, acc: Acc, g: Gid, clock: VC): (History, Option<Race>) {
    CheckFrom(h, acc, g, clock, 0)
  }

  /** What the access finds at its byte k, on history h. */
  function ConflictAt(h: History, acc: Acc, g: Gid, clock: VC, k: int): Option<Entry> {
    Conflict(ByteAt(h, ByteOf(acc, k)), acc, g, clock)
  }

  function EntryFor(acc: Acc, g: Gid, clock: VC): Entry {
    Entry(acc.write, g, acc.site, clock)
  }

  /** h' is h with exactly bytes i to k of the access recorded. */
  ghost predicate RecordsBytes(h: History, h': History, acc: Acc, e: Entry, i: int, k: int) {
    forall key :: ByteAt(h', key) ==
      if Covers(acc, key) && acc.off + i <= key.off < acc.off + k then Recorded(ByteAt(h, key), e)
      else ByteAt(h, key)
  }

  lemma RecordTouchesOneByte(h: History, key: Key, e: Entry)
    ensures forall other ::
              ByteAt(Record(h, key, e), other) ==
              if other == key then Recorded(ByteAt(h, key), e) else ByteAt(h, other)
  {
  }

  lemma RecordsOneMore(h: History, h1: History, h': History, acc: Acc, e: Entry, i: nat, k: int)
    requires i < acc.size && i + 1 <= k
    requires h1 == Record(h, ByteOf(acc, i), e) && RecordsBytes(h1, h', acc, e, i + 1, k)
    ensures RecordsBytes(h, h', acc, e, i, k)
  {
    RecordTouchesOneByte(h, ByteOf(acc, i), e);
    forall key
      ensures ByteAt(h', key) ==
        if Covers(acc, key) && acc.off + i <= key.off < acc.off + k then Recorded(ByteAt(h, key), e)
        else ByteAt(h, key)
    {
      assert key == ByteOf(acc, i) <==> key.alloc == acc.alloc && key.off == acc.off + i;
    }
  }

  /** Updating as it goes does not matter: the loop reports the first byte k that races with the
      history before the access, records the bytes before it, and touches nothing else. */
  lemma {:induction false} CheckDecidesPerByte(h: History, acc: Acc, g: Gid, clock: VC, i: nat) returns (k: nat)
    ensures i <= k
    ensures forall j :: i <= j < k && j < acc.size ==> ConflictAt(h, acc, g, clock, j).None?
    ensures RecordsBytes(h, CheckFrom(h, acc, g, clock, i).0, acc, EntryFor(acc, g, clock), i, k)
    ensures CheckFrom(h, acc, g, clock, i).1.None? <==> acc.size <= k
    ensures k < acc.size ==>
      && ConflictAt(h, acc, g, clock, k).Some?
      && CheckFrom(h, acc, g, clock, i).1 ==
         Some(RaceOf(ByteOf(acc, k), ConflictAt(h, acc, g, clock, k).value, EntryFor(acc, g, clock)))
    decreases acc.size - i
  {
    if acc.size <= i || ConflictAt(h, acc, g, clock, i).Some? {
      k := i;
    } else {
      var h1 := Record(h, ByteOf(acc, i), EntryFor(acc, g, clock));
      k := CheckDecidesPerByte(h1, acc, g, clock, i + 1);
      RecordTouchesOneByte(h, ByteOf(acc, i), EntryFor(acc, g, clock));
      forall j | i < j
        ensures ConflictAt(h1, acc, g, clock, j) == ConflictAt(h, acc, g, clock, j)
      {
        assert ByteOf(acc, j) != ByteOf(acc, i);
      }
      RecordsOneMore(h, h1, CheckFrom(h1, acc, g, clock, i + 1).0, acc, EntryFor(acc, g, clock), i, k);
    }
  }
}
