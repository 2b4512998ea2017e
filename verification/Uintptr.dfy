/** Pointers converted to uintptr and back (pkg/interpreter/concrete.go): allocation in the high
    half, offset in the low half. */
module Uintptr {
  import opened Integers

  const TWO31 := 0x8000_0000
  const TWO32 := 0x1_0000_0000

  datatype Pointer = Nil | Pointer(alloc: nat, offset: Int64)

  /** encodeUintptr: allocation ids are uint64. */
  function Encode(p: Pointer): (u: Int64) {
    if p.Nil? then 0 else To64(To64(p.alloc * TWO32) + p.offset)
  }

  /** decodeUintptr; the shift right is arithmetic. */
  function Decode(u: Int64): Pointer {
    if u == 0 then Nil
    else
      var alloc := To64(u + TWO31) / TWO32;
      Pointer(U64(alloc), To64(u - To64(alloc * TWO32)))
  }

  /** The pointers the encoding is for. */
  predicate Encodable(p: Pointer) {
    p.Pointer? ==> 1 <= p.alloc < TWO31 && -TWO31 <= p.offset < TWO31
  }

  lemma EncodeExact(p: Pointer)
    requires Encodable(p) && p.Pointer?
    ensures Encode(p) == p.alloc * TWO32 + p.offset
  {
  }

  /** An encodable pointer survives the round trip, and only nil encodes as zero. */
  lemma RoundTrip(p: Pointer)
    requires Encodable(p)
    ensures Decode(Encode(p)) == p && (Encode(p) == 0 <==> p.Nil?)
  {
    if p.Pointer? {
      EncodeExact(p);
    }
  }

  /** The pointers that survive: signed, the allocation fits 32 bits, and so does the offset. */
  predicate Survives(alloc: nat, offset: Int64) {
    (alloc < TWO31 || alloc >= TWO64 - TWO31) && -TWO31 <= offset < TWO31
  }

  lemma To64Wraps(n: int, q: int, r: int)
    requires n == TWO64 * q + r && -TWO63 <= r < TWO63
    ensures To64(n) == r
  {
    if r >= 0 {
      ModUnique(n, TWO64, q, r);
    } else {
      ModUnique(n, TWO64, q - 1, r + TWO64);
    }
  }

  lemma HighEncodes(alloc: nat, offset: Int64)
    requires TWO64 - TWO31 <= alloc < TWO64 && -TWO31 <= offset < TWO31
    ensures Encode(Pointer(alloc, offset)) == To64((alloc - TWO64) * TWO32 + offset)
  {
    To64Wraps(alloc * TWO32, TWO32, (alloc - TWO64) * TWO32);
  }

  lemma HighDecodes(a: int, offset: Int64)
    requires -TWO31 <= a < 0 && -TWO31 <= offset < TWO31
    ensures Decode(To64(a * TWO32 + offset)) == Pointer(U64(a), offset)
  {
    var n := a * TWO32 + offset;
    var q := if n < -TWO63 then -1 else 0;
    To64Wraps(n, q, n - TWO64 * q);
    var u := To64(n);
    To64Wraps(u + TWO31, -q, n + TWO31);
    ModUnique(n + TWO31, TWO32, a, offset + TWO31);
    To64Wraps(a * TWO32, 0, a * TWO32);
    To64Wraps(u - a * TWO32, -q, offset);
  }

  lemma HighRoundTrip(alloc: nat, offset: Int64)
    requires TWO64 - TWO31 <= alloc < TWO64 && -TWO31 <= offset < TWO31
    ensures Decode(Encode(Pointer(alloc, offset))) == Pointer(alloc, offset)
  {
    HighEncodes(alloc, offset);
    HighDecodes(alloc - TWO64, offset);
  }

  /** For every allocation id, a pointer survives the round trip exactly when the id is below 2^31 or in
      the last 2^31 ids, and its offset is in [-2^31, 2^31). */
  lemma RoundTripIff(alloc: nat, offset: Int64)
    requires 1 <= alloc < TWO64
    ensures Decode(Encode(Pointer(alloc, offset))) == Pointer(alloc, offset) <==> Survives(alloc, offset)
  {
    var p := Pointer(alloc, offset);
    if Encodable(p) {
      RoundTrip(p);
    } else if Survives(alloc, offset) {
      HighRoundTrip(alloc, offset);
    } else if Encode(p) != 0 {
      DecodedRange(Encode(p));
    }
  }

  /** One byte past the range the offset carries into the allocation: 2^31 bytes into allocation 1
      decodes as -2^31 in allocation 2. */
  lemma FarOffsetIsLost()
    ensures Decode(Encode(Pointer(1, TWO31))) == Pointer(2, -TWO31)
  {
  }

  /** Whatever is decoded has its offset in [-2^31, 2^31), and its id in the low or the high end. */
  lemma DecodedRange(u: Int64)
    requires u != 0
    ensures Decode(u).Pointer? && (Decode(u).alloc < TWO31 || Decode(u).alloc >= TWO64 - TWO31)
    ensures -TWO31 <= Decode(u).offset < TWO31
  {
  }

  /** uintptr arithmetic moves the offset: unsafe.Pointer(uintptr(p) + d) is p's allocation d bytes
      further on, whenever that stays in range. */
  lemma ArithmeticMovesOffset(p: Pointer, d: Int64)
    requires p.Pointer? && Encodable(p) && -TWO31 <= p.offset + d < TWO31
    ensures Decode(Arith(Kind(64, true), Add, Encode(p), d)) == Pointer(p.alloc, p.offset + d)
  {
    EncodeExact(p);
    var q := Pointer(p.alloc, p.offset + d);
    EncodeExact(q);
    RoundTrip(q);
  }

  /** The encodings of different allocations are disjoint ranges, in order of allocation; within an
      allocation the order and distance of offsets are kept, and so is alignment. */
  lemma RangesAreDisjoint(p: Pointer, q: Pointer)
    requires p.Pointer? && q.Pointer? && Encodable(p) && Encodable(q)
    ensures p.alloc < q.alloc ==> Encode(p) < Encode(q)
    ensures p.alloc == q.alloc ==> Encode(q) - Encode(p) == q.offset - p.offset
    ensures Encode(p) % 8 == p.offset % 8
  {
    EncodeExact(p);
    EncodeExact(q);
  }
}
