/** Moving a file position: extents listed over a chain of descriptors, walked zone by zone,
    against plain addition on byte positions. */
module InodeSync {

  const EINVAL := -22
  const DIRECT := 114        // entries of an inode
  const INDIRECT := 123      // entries of an indirect descriptor
  const RANGE := 0x1_0000_0000

  /** The entry of a descriptor that segment k of the file is. */
  function FixIndex(k: int): int
  {
    if k < DIRECT then k else (k - DIRECT) % INDIRECT
  }

  /** The descriptor segment k of the file is listed in. */
  function DescOf(k: int): int
  {
    if k < DIRECT then 0 else (k - DIRECT) / INDIRECT + 1
  }

  /** The zone counts of a file's extents, descriptor by descriptor.  Entry 0 of each is the
      zone of the descriptor itself. */
  datatype File = File(descs: seq<seq<int>>, used: int, zsize: int)
  {
    predicate Shaped()
    {
      && used >= 1 && zsize > 0 && |descs| > DescOf(used - 1)
      && |descs[0]| == DIRECT && forall d :: 0 < d < |descs| ==> |descs[d]| == INDIRECT
    }

    function Count(k: int): int
      requires Shaped() && 0 <= k < used
    {
      EntryExists(this, k);
      descs[DescOf(k)][FixIndex(k)]
    }

    /** Every extent has zones, a descriptor has one, and the last extent holds data unless it
        is the inode alone. */
    ghost predicate Valid()
    {
      && Shaped()
      && (forall k :: 0 <= k < used ==> 0 < Count(k) < 0x1_0000)
      && (forall k :: 0 <= k < used && FixIndex(k) == 0 ==> Count(k) == 1)
      && (used == 1 || FixIndex(used - 1) != 0)
      && DataBefore(this, used) < RANGE
    }
  }

  lemma EntryExists(f: File, k: int)
    requires f.Shaped() && 0 <= k < f.used
    ensures 0 <= DescOf(k) < |f.descs| && 0 <= FixIndex(k) < |f.descs[DescOf(k)]|
  {
  }

  /** Descriptors never come two in a row, and the next segment is in the same descriptor
      unless it is a descriptor itself. */
  lemma NextEntry(k: int)
    requires k >= 0
    ensures FixIndex(k) == 0 ==> FixIndex(k + 1) != 0
    ensures DescOf(k + 1) == if FixIndex(k + 1) == 0 then DescOf(k) + 1 else DescOf(k)
  {
  }

  /** Data zones in the segments before k: those of descriptors do not count. */
  function DataBefore(f: File, k: int): (z: int)
    requires f.Shaped() && 0 <= k <= f.used
  {
    if k == 0 then 0
    else DataBefore(f, k - 1) + (if FixIndex(k - 1) == 0 then 0 else f.Count(k - 1))
  }

  /** The byte b bytes into the zone behind z zones. */
  function Bytes(zsize: int, z: int, b: int): int
  {
    z * zsize + b
  }

  function Capacity(f: File): int
    requires f.Shaped()
  {
    Bytes(f.zsize, DataBefore(f, f.used), 0)
  }

  datatype Pos = Pos(desc: int, segment: int, offset: int, byte: int)

  /** The position is on a byte of the file's zones. */
  ghost predicate Inside(f: File, p: Pos)
    requires f.Shaped()
  {
    && 0 <= p.segment < f.used && FixIndex(p.segment) != 0 && p.desc == DescOf(p.segment)
    && 0 <= p.offset < f.Count(p.segment) && 0 <= p.byte < f.zsize
  }

  /** The position is just behind the last byte of the last zone. */
  ghost predicate AtEnd(f: File, p: Pos)
    requires f.Shaped()
  {
    && p.segment == f.used - 1 && FixIndex(p.segment) != 0 && p.desc == DescOf(p.segment)
    && p.offset == f.Count(p.segment) && p.byte == 0
  }

  function Linear(f: File, p: Pos): int
    requires f.Shaped() && 0 <= p.segment < f.used
  {
    Bytes(f.zsize, DataBefore(f, p.segment) + p.offset, p.byte)
  }

  /** Where z data zones on from the start of segment k is. */
  function Locate(f: File, k: int, z: int): (r: (int, int))
    requires f.Shaped() && 0 <= k < f.used
    ensures k <= r.0 < f.used
    decreases f.used - k
  {
    if k + 1 == f.used then (k, z)
    else if FixIndex(k) == 0 then Locate(f, k + 1, z)
    else if z < f.Count(k) then (k, z)
    else Locate(f, k + 1, z - f.Count(k))
  }

  lemma {:induction false} DataRises(f: File, j: int, k: int)
    requires f.Valid() && 0 <= j <= k <= f.used
    ensures DataBefore(f, j) <= DataBefore(f, k)
    decreases k - j
  {
    hide FixIndex, DescOf, Bytes, File.Count, File.Shaped;
    if j < k {
      DataRises(f, j, k - 1);
    }
  }

  /** Locating keeps the number of data zones before the place. */
  lemma {:induction false} LocateFacts(f: File, k: int, z: int)
    requires f.Valid() && 0 <= k < f.used && 0 <= z && DataBefore(f, k) + z <= DataBefore(f, f.used)
    requires f.used > 1
    ensures
      var (s, o) := Locate(f, k, z);
      && FixIndex(s) != 0 && DataBefore(f, s) + o == DataBefore(f, k) + z
      && 0 <= o && (o < f.Count(s) || (o == f.Count(s) && s == f.used - 1))
    decreases f.used - k
  {
    hide FixIndex, DescOf, Bytes, File.Count, File.Shaped;
    if k + 1 < f.used {
      if FixIndex(k) == 0 {
        LocateFacts(f, k + 1, z);
      } else if z >= f.Count(k) {
        LocateFacts(f, k + 1, z - f.Count(k));
      }
    }
  }

  /** A byte of the file has one position. */
  lemma OnePosition(f: File, p: Pos, q: Pos)
    requires f.Valid() && (Inside(f, p) || AtEnd(f, p)) && (Inside(f, q) || AtEnd(f, q))
    requires Linear(f, p) == Linear(f, q)
    ensures p == q
  {
    if p.segment < q.segment {
      Earlier(f, p, q);
    } else if q.segment < p.segment {
      Earlier(f, q, p);
    } else {
      var x := DataBefore(f, p.segment);
      ZoneOrder(f.zsize, x + p.offset, p.byte, x + q.offset, q.byte);
      ZoneOrder(f.zsize, x + q.offset, q.byte, x + p.offset, p.byte);
    }
  }

  lemma ZoneOrder(zsize: int, x: int, a: int, y: int, b: int)
    requires zsize > 0 && 0 <= a < zsize && 0 <= b
    ensures x < y || (x == y && a < b) ==> Bytes(zsize, x, a) < Bytes(zsize, y, b)
  {
    if x < y {
      assert (x + 1) * zsize <= y * zsize;
    }
  }

  lemma Earlier(f: File, p: Pos, q: Pos)
    requires f.Valid() && (Inside(f, p) || AtEnd(f, p)) && (Inside(f, q) || AtEnd(f, q))
    requires p.segment < q.segment
    ensures Linear(f, p) < Linear(f, q)
  {
    hide FixIndex, DescOf, Bytes, File.Count, File.Shaped;
    DataRises(f, p.segment + 1, q.segment);
    ZoneOrder(f.zsize, DataBefore(f, p.segment) + p.offset, p.byte, DataBefore(f, q.segment) + q.offset, q.byte);
  }

  // ----- what a move comes to -----

  /** The zones a move of the given size passes, counting the carry of the byte offsets. */
  function Zones(f: File, p: Pos, size: int): int
    requires f.zsize > 0
  {
    size / f.zsize + (if p.byte + size % f.zsize >= f.zsize then 1 else 0)
  }

  function NewByte(f: File, p: Pos, size: int): int
    requires f.zsize > 0
  {
    if p.byte + size % f.zsize >= f.zsize then p.byte + size % f.zsize - f.zsize else p.byte + size % f.zsize
  }

  lemma MoveBytes(f: File, p: Pos, size: int)
    requires f.zsize > 0 && 0 <= p.byte < f.zsize && size >= 0
    ensures 0 <= NewByte(f, p, size) < f.zsize && Zones(f, p, size) >= 0
    ensures Bytes(f.zsize, Zones(f, p, size), NewByte(f, p, size)) == p.byte + size
  {
    var q, r := size / f.zsize, size % f.zsize;
    assert size == q * f.zsize + r;
    assert (q + 1) * f.zsize == q * f.zsize + f.zsize;
  }

  datatype Outcome = Moved(pos: Pos) | Beyond

  /** z data zones on from the start of segment k, and b bytes more. */
  function Landed(f: File, k: int, z: int, b: int): Outcome
    requires f.Shaped() && 0 <= k < f.used
  {
    var at := DataBefore(f, k) + z;
    if at < DataBefore(f, f.used) || (at == DataBefore(f, f.used) && b == 0) then
      var (s, o) := Locate(f, k, z);
      Moved(Pos(DescOf(s), s, o, b))
    else Beyond
  }

  /** What pfsInodeSync does from a position inside the file: zone arithmetic is modulo 2^32. */
  function Synced(f: File, p: Pos, size: int): Outcome
    requires f.Shaped() && 0 <= p.segment < f.used
  {
    Landed(f, p.segment, (Zones(f, p, size) + p.offset) % RANGE, NewByte(f, p, size))
  }

  /** There is a landing exactly within capacity. */
  lemma LandedWithin(f: File, k: int, z: int, b: int)
    requires f.Valid() && 0 <= k < f.used && 0 <= z && 0 <= b < f.zsize
    ensures Landed(f, k, z, b).Moved? <==> Bytes(f.zsize, DataBefore(f, k) + z, b) <= Capacity(f)
  {
    hide FixIndex, DescOf, Bytes, File.Count, File.Shaped, DataBefore, Locate;
    var at, end := DataBefore(f, k) + z, DataBefore(f, f.used);
    ZoneOrder(f.zsize, end, 0, at, b);
    ZoneOrder(f.zsize, at, b, end, 0);
  }

  /** A landing is the position of its linear offset. */
  lemma LandedFacts(f: File, k: int, z: int, b: int)
    requires f.Valid() && f.used > 1 && 0 <= k < f.used && 0 <= z && 0 <= b < f.zsize
    ensures
      Landed(f, k, z, b).Moved? ==>
        var q := Landed(f, k, z, b).pos;
        (Inside(f, q) || AtEnd(f, q)) && Linear(f, q) == Bytes(f.zsize, DataBefore(f, k) + z, b)
  {
    hide FixIndex, DescOf, Bytes, File.Count;
    if Landed(f, k, z, b).Moved? {
      LocateFacts(f, k, z);
      var q := Landed(f, k, z, b).pos;
      assert DataBefore(f, q.segment) + q.offset == DataBefore(f, k) + z;
    }
  }

  /** The move does not wrap. */
  predicate Narrow(f: File, p: Pos, size: int)
    requires f.zsize > 0
  {
    Zones(f, p, size) + p.offset < RANGE
  }

  lemma Times(a: int, b: int, c: int)
    ensures (a + b) * c == a * c + b * c
  {
  }

  lemma InsideUsed(f: File, p: Pos)
    requires f.Shaped() && Inside(f, p)
    ensures f.used > 1
  {
  }

  /** The zone and byte a move is meant to reach. */
  lemma TargetByte(f: File, p: Pos, size: int)
    requires f.Shaped() && 0 <= p.segment < f.used && 0 <= p.byte < f.zsize && size >= 0
    ensures Bytes(f.zsize, DataBefore(f, p.segment) + (Zones(f, p, size) + p.offset), NewByte(f, p, size)) ==
      Linear(f, p) + size
    ensures 0 <= NewByte(f, p, size) < f.zsize && Zones(f, p, size) >= 0
  {
    MoveBytes(f, p, size);
    Times(DataBefore(f, p.segment) + p.offset, Zones(f, p, size), f.zsize);
    assert DataBefore(f, p.segment) + (Zones(f, p, size) + p.offset) ==
      DataBefore(f, p.segment) + p.offset + Zones(f, p, size);
  }

  /** As long as nothing wraps, a move is addition on byte positions: it succeeds exactly when
      the target is within the allocated capacity, and lands on the target. */
  lemma SyncIsAddition(f: File, p: Pos, size: int)
    requires f.Valid() && Inside(f, p) && size >= 0 && Narrow(f, p, size)
    ensures Synced(f, p, size).Moved? <==> Linear(f, p) + size <= Capacity(f)
    ensures
      Synced(f, p, size).Moved? ==>
        var q := Synced(f, p, size).pos;
        (Inside(f, q) || AtEnd(f, q)) && Linear(f, q) == Linear(f, p) + size
  {
    hide FixIndex, DescOf, Bytes, File.Count, File.Shaped, Landed, Zones, NewByte, Linear, DataBefore, Capacity, AtEnd;
    InsideUsed(f, p);
    TargetByte(f, p, size);
    hide Inside, File.Valid;
    LandedWithin(f, p.segment, Zones(f, p, size) + p.offset, NewByte(f, p, size));
    LandedFacts(f, p.segment, Zones(f, p, size) + p.offset, NewByte(f, p, size));
  }

  /** Exactly when a move agrees with addition: nothing wraps, or the wrapped target is beyond
      the capacity like the real one. */
  lemma SyncExactlyWhen(f: File, p: Pos, size: int)
    requires f.Valid() && Inside(f, p) && size >= 0
    ensures
      (Synced(f, p, size).Moved? <==> Linear(f, p) + size <= Capacity(f)) <==>
      (Narrow(f, p, size)
        || DataBefore(f, p.segment) + (Zones(f, p, size) + p.offset) % RANGE > DataBefore(f, f.used)
        || (DataBefore(f, p.segment) + (Zones(f, p, size) + p.offset) % RANGE == DataBefore(f, f.used)
          && NewByte(f, p, size) != 0))
  {
    if Narrow(f, p, size) {
      SyncIsAddition(f, p, size);
    } else {
      TargetByte(f, p, size);
      DataRises(f, 0, p.segment);
      ZoneOrder(f.zsize, DataBefore(f, f.used), 0,
        DataBefore(f, p.segment) + (Zones(f, p, size) + p.offset), NewByte(f, p, size));
    }
  }

  lemma ZonesGrow(f: File, p: Pos, a: int, b: int)
    requires f.zsize > 0 && 0 <= p.byte < f.zsize && 0 <= a <= b
    ensures Zones(f, p, a) <= Zones(f, p, b)
  {
    MoveBytes(f, p, a);
    MoveBytes(f, p, b);
    ZoneOrder(f.zsize, Zones(f, p, b), NewByte(f, p, b), Zones(f, p, a), NewByte(f, p, a));
  }

  /** The second of two moves does not wrap when the whole does not. */
  lemma NarrowNext(f: File, p: Pos, q: Pos, a: int, b: int)
    requires f.Valid() && Inside(f, p) && Inside(f, q) && a >= 0 && b >= 0 && Narrow(f, p, a + b)
    requires p.segment <= q.segment && Linear(f, q) == Linear(f, p) + a
    ensures Narrow(f, q, b)
  {
    hide FixIndex, DescOf, Bytes, File.Count, File.Shaped, Zones, NewByte, Linear;
    DataRises(f, p.segment, q.segment);
    TargetByte(f, p, a + b);
    TargetByte(f, q, b);
    ZoneOrder(f.zsize, DataBefore(f, p.segment) + (Zones(f, p, a + b) + p.offset), NewByte(f, p, a + b),
      DataBefore(f, q.segment) + (Zones(f, q, b) + q.offset), NewByte(f, q, b));
  }

  /** A move by 2^32 zones, or any multiple of them, succeeds and goes nowhere. */
  lemma SyncWraps(f: File, p: Pos, n: int)
    requires f.Valid() && Inside(f, p) && n >= 0
    ensures Synced(f, p, n * 0x1_0000_0000 * f.zsize) == Moved(p)
  {
    WholeZones(f, p, n * RANGE);
    assert p.offset < f.Count(p.segment) < RANGE;
    hide *;
    FullTurns(n, p.offset);
    RoundTrip(f, p, n * RANGE * f.zsize);
  }

  lemma FullTurns(n: int, o: int)
    requires n >= 0 && 0 <= o < RANGE
    ensures (n * RANGE + o) % RANGE == o
  {
    ModAdd(n * RANGE, o);
  }

  lemma RoundTrip(f: File, p: Pos, size: int)
    requires f.Valid() && Inside(f, p)
    requires (Zones(f, p, size) + p.offset) % RANGE == p.offset && NewByte(f, p, size) == p.byte
    ensures Synced(f, p, size) == Moved(p)
  {
    hide FixIndex, DescOf, Bytes, File.Count, File.Shaped, Landed, DataBefore, Zones, NewByte;
    StayPut(f, p.segment, p.offset, p.byte);
  }

  lemma WholeZones(f: File, p: Pos, z: int)
    requires f.zsize > 0 && 0 <= p.byte < f.zsize && z >= 0
    ensures z * f.zsize >= 0 && Zones(f, p, z * f.zsize) == z && NewByte(f, p, z * f.zsize) == p.byte
  {
    var size := z * f.zsize;
    MoveBytes(f, p, size);
    assert Bytes(f.zsize, z, p.byte) == size + p.byte;
    hide Zones, NewByte;
    ZoneOrder(f.zsize, Zones(f, p, size), NewByte(f, p, size), z, p.byte);
    ZoneOrder(f.zsize, z, p.byte, Zones(f, p, size), NewByte(f, p, size));
  }

  /** Moving twice is moving by the sum. */
  lemma SyncAdditive(f: File, p: Pos, a: int, b: int)
    requires f.Valid() && Inside(f, p) && a >= 0 && b >= 0 && Narrow(f, p, a + b)
    requires Synced(f, p, a).Moved? && Inside(f, Synced(f, p, a).pos)
    ensures Synced(f, Synced(f, p, a).pos, b) == Synced(f, p, a + b)
  {
    var q := Synced(f, p, a).pos;
    ZonesGrow(f, p, a, a + b);
    SyncIsAddition(f, p, a);
    SyncIsAddition(f, p, a + b);
    NarrowNext(f, p, q, a, b);
    SyncIsAddition(f, q, b);
    if Synced(f, q, b).Moved? {
      OnePosition(f, Synced(f, q, b).pos, Synced(f, p, a + b).pos);
    }
  }

  // ----- the loop -----

  /** Where a file of size 0 is opened: behind the zone of its inode. */
  predicate AtStart(p: Pos)
  {
    p.desc == 0 && p.segment == 0 && p.offset == 1
  }

  /** The zones still to go, counted from the start of segment k. */
  function ToGo(k: int, offset: int, i: int): int
  {
    if FixIndex(k) == 0 then i + offset - 1 else (i + offset) % RANGE
  }

  /** At the start of a file of size 0, one move wraps to the zone of the inode itself. */
  predicate Wraps(k: int, offset: int, i: int)
  {
    FixIndex(k) == 0 && i + offset == RANGE
  }

  function Goal(f: File, k: int, offset: int, byte: int, i: int): Outcome
    requires f.Shaped() && 0 <= k < f.used
  {
    if Wraps(k, offset, i) then Moved(Pos(DescOf(k), k, 0, byte)) else Landed(f, k, ToGo(k, offset, i), byte)
  }

  /** A zone of segment k is where it is. */
  lemma StayPut(f: File, k: int, o: int, b: int)
    requires f.Valid() && 0 <= k < f.used && FixIndex(k) != 0 && 0 <= o < f.Count(k)
    ensures Landed(f, k, o, b) == Moved(Pos(DescOf(k), k, o, b))
  {
    hide FixIndex, DescOf, Bytes, File.Count, File.Shaped;
    DataRises(f, k + 1, f.used);
  }

  /** A segment passed is a segment less to go. */
  lemma PassSegment(f: File, k: int, z: int, b: int)
    requires f.Valid() && 0 <= k < f.used && z >= 0
    requires FixIndex(k) != 0 ==> z >= f.Count(k)
    ensures k + 1 < f.used ==> Landed(f, k, z, b) == Landed(f, k + 1, if FixIndex(k) == 0 then z else z - f.Count(k), b)
    ensures k + 1 == f.used && FixIndex(k) != 0 ==>
      Landed(f, k, z, b) == if z == f.Count(k) && b == 0 then Moved(Pos(DescOf(k), k, z, b)) else Beyond
    ensures k + 1 == f.used && FixIndex(k) == 0 && z > 0 ==> Landed(f, k, z, b) == Beyond
  {
    hide FixIndex, DescOf, Bytes, File.Count, File.Shaped;
    assert DataBefore(f, k + 1) == DataBefore(f, k) + if FixIndex(k) == 0 then 0 else f.Count(k);
  }

  /** i zones are to go from p, and what remains leads to the goal. */
  ghost predicate Seeking(f: File, goal: Outcome, p: Pos, i: int)
  {
    && f.Valid() && 0 <= p.segment < f.used && p.desc == DescOf(p.segment) && 0 <= i < RANGE && 0 <= p.offset
    && (FixIndex(p.segment) == 0 ==> 0 < i && i + p.offset <= RANGE && p.offset <= 1)
    && (FixIndex(p.segment) == 0 && p.segment + 1 == f.used ==> p.offset == 1)
    && goal == if i == 0 then Moved(p) else Goal(f, p.segment, p.offset, p.byte, i)
  }

  /** What one step of the walk comes to. */
  lemma AdvanceFacts(f: File, goal: Outcome, p: Pos, i: int)
    requires Seeking(f, goal, p, i) && i > 0
    ensures 0 <= p.desc < |f.descs| && 0 <= FixIndex(p.segment) < |f.descs[p.desc]|
    ensures
      var count := f.descs[p.desc][FixIndex(p.segment)];
      var j := (i + p.offset) % RANGE;
      if j < count then goal == Moved(p.(offset := j)) else Passed(f, p, count, j - count, goal)
  {
    var k := p.segment;
    EntryExists(f, k);
    var count := f.Count(k);
    assert f.descs[p.desc][FixIndex(k)] == count > 0;
    assert FixIndex(k) == 0 ==> count == 1;
    hide FixIndex, DescOf, File.Shaped, File.Valid, Landed, DataBefore, Locate, File.Count, Passed;
    var j := (i + p.offset) % RANGE;
    if FixIndex(k) != 0 && j < count {
      StayPut(f, k, j, p.byte);
    } else if j >= count {
      LeaveFacts(f, p, if FixIndex(k) == 0 then j - 1 else j);
    }
  }

  lemma LeaveFacts(f: File, p: Pos, z: int)
    requires f.Valid() && 0 <= p.segment < f.used && p.desc == DescOf(p.segment) && 0 <= z < RANGE && p.offset >= 0
    requires
      if FixIndex(p.segment) == 0 then z < RANGE - 1 && (p.segment + 1 == f.used ==> z > 0)
      else z >= f.Count(p.segment)
    ensures Passed(f, p, f.Count(p.segment), if FixIndex(p.segment) == 0 then z else z - f.Count(p.segment),
      Landed(f, p.segment, z, p.byte))
  {
    var k := p.segment;
    var count := f.Count(k);
    assert count > 0 && (FixIndex(k) == 0 ==> count == 1);
    PassSegment(f, k, z, p.byte);
    if k + 1 < f.used {
      NextStart(f, k, if FixIndex(k) == 0 then z else z - count, p.byte);
      hide Seeking, FixIndex, DescOf, File.Shaped, File.Valid, Landed, DataBefore, File.Count;
    } else {
      hide FixIndex, File.Shaped, File.Valid, Landed, DataBefore, File.Count;
    }
  }

  /** The start of segment k + 1, with i data zones to go. */
  lemma NextStart(f: File, k: int, i: int, b: int)
    requires f.Valid() && 0 <= k && k + 1 < f.used && 0 <= i < RANGE - 1
    ensures
      if FixIndex(k + 1) != 0 then Seeking(f, Landed(f, k + 1, i, b), Pos(DescOf(k), k + 1, 0, b), i)
      else DescOf(k) + 1 < |f.descs| && Seeking(f, Landed(f, k + 1, i, b), Pos(DescOf(k) + 1, k + 1, 0, b), i + 1)
  {
    NextEntry(k);
    EntryExists(f, k + 1);
    if FixIndex(k + 1) != 0 && i == 0 {
      StayPut(f, k + 1, 0, b);
    }
    hide Landed, DataBefore, DescOf, File.Count, File.Shaped;
  }

  /** The segment of p is behind, and i zones are left to go. */
  ghost predicate Passed(f: File, p: Pos, count: int, i: int, goal: Outcome)
  {
    if p.segment + 1 == f.used then
      if i != 0 || p.byte != 0 then goal == Beyond
      else FixIndex(p.segment) != 0 && Seeking(f, goal, p.(offset := count), 0)
    else if FixIndex(p.segment + 1) != 0 then Seeking(f, goal, Pos(p.desc, p.segment + 1, 0, p.byte), i)
    else p.desc + 1 < |f.descs| && Seeking(f, goal, Pos(p.desc + 1, p.segment + 1, 0, p.byte), i + 1)
  }

  /** The walk starts towards the right goal. */
  lemma SyncStart(f: File, p: Pos, size: int)
    requires f.Valid() && size >= 0 && 0 <= p.byte < f.zsize && (Inside(f, p) || AtEnd(f, p) || AtStart(p))
    ensures 0 <= p.segment < f.used && p.desc == DescOf(p.segment) && 0 <= NewByte(f, p, size) < f.zsize
    ensures
      var i, b := Zones(f, p, size) % RANGE, NewByte(f, p, size);
      if FixIndex(p.segment) == 0 then p.segment == 0 && p.offset == 1
      else if AtEnd(f, p) then p.offset > 0
      else
        && Synced(f, p, size) == Goal(f, p.segment, p.offset, b, i)
        && (i == 0 ==> Synced(f, p, size) == Moved(Pos(p.desc, p.segment, p.offset, b)))
  {
    MoveBytes(f, p, size);
    if Inside(f, p) {
      hide FixIndex, DescOf, Bytes, File.Count, File.Shaped, Zones, NewByte, Landed, DataBefore;
      ModAdd(Zones(f, p, size), p.offset);
      StayPut(f, p.segment, p.offset, NewByte(f, p, size));
    }
  }

  lemma ModAdd(z: int, o: int)
    requires z >= 0 && 0 <= o < RANGE
    ensures (z + o) % RANGE == (z % RANGE + o) % RANGE
    ensures z % RANGE == 0 ==> (z + o) % RANGE == o
  {
  }

  class BlockPos {
    var desc: int
    var segment: int
    var offset: int
    var byte: int

    constructor (p: Pos)
      ensures Now() == p
    {
      desc, segment, offset, byte := p.desc, p.segment, p.offset, p.byte;
    }

    function Now(): Pos
      reads this
    {
      Pos(desc, segment, offset, byte)
    }

    /** Takes the bytes of a move and leaves its zones. */
    method SyncPos(f: File, size: int) returns (i: int)
      requires f.zsize > 0 && size >= 0 && 0 <= byte < f.zsize
      modifies this`byte
      ensures byte == NewByte(f, old(Now()), size) && i == Zones(f, old(Now()), size) % RANGE
    {
      i := size / f.zsize % RANGE;
      byte := byte + size % f.zsize;
      if byte >= f.zsize {
        byte := byte - f.zsize;
        i := (i + 1) % RANGE;
      }
    }

    /** The move came to what it should. */
    predicate Ended(goal: Outcome, result: int)
      reads this
    {
      match goal
      case Moved(q) => result == 0 && Now() == q
      case Beyond => result == EINVAL
    }

    /** Moves the position by the given number of bytes. */
    method Sync(f: File, size: int) returns (result: int)
      requires f.Valid() && size >= 0
      requires Inside(f, Now()) || AtEnd(f, Now()) || (AtStart(Now()) && 0 <= byte < f.zsize)
      modifies this
      ensures Inside(f, old(Now())) ==> Ended(Synced(f, old(Now()), size), result)
      ensures !Inside(f, old(Now())) && Zones(f, old(Now()), size) % RANGE == 0 ==>
        result == 0 && Now() == old(Now()).(byte := NewByte(f, old(Now()), size))
      ensures !Inside(f, old(Now())) && Zones(f, old(Now()), size) % RANGE != 0 ==>
        Ended(Goal(f, old(segment), old(offset), NewByte(f, old(Now()), size), Zones(f, old(Now()), size) % RANGE),
          result)
    {
      SyncStart(f, Now(), size);
      hide FixIndex, DescOf, Bytes, File.Count, File.Shaped, DataBefore, Landed, Locate, Goal, Synced;
      var i := SyncPos(f, size);
      result := 0;
      if i == 0 {
        return;
      }
      ghost var goal := Goal(f, segment, offset, byte, i);
      while i != 0
        invariant Seeking(f, goal, Now(), i) && result == 0
        decreases f.used - segment, i
      {
        var stop;
        i, stop, result := Advance(f, i, goal);
        if stop {
          return;
        }
      }
    }

    /** One segment of the walk. */
    method Advance(f: File, i0: int, ghost goal: Outcome) returns (i: int, stop: bool, result: int)
      requires Seeking(f, goal, Now(), i0) && i0 > 0
      modifies this
      ensures stop ==> Ended(goal, result)
      ensures !stop ==> Seeking(f, goal, Now(), i) && result == 0
      ensures !stop ==> segment > old(segment) || (segment == old(segment) && i == 0)
    {
      AdvanceFacts(f, goal, Now(), i0);
      hide FixIndex, Seeking, DescOf, Goal, Landed, File.Valid, File.Shaped;
      var count := f.descs[desc][FixIndex(segment)];
      i := (i0 + offset) % RANGE;
      if i < count {
        offset := i;
        return i, true, 0;
      }
      i := i - count;
      if segment + 1 == f.used {
        offset := count;
        if i != 0 || byte != 0 {
          return i, true, EINVAL;
        }
      } else {
        offset := 0;
        segment := segment + 1;
      }
      if FixIndex(segment) != 0 {
        return i, false, 0;
      }
      if desc + 1 == |f.descs| {
        return i, true, EINVAL;
      }
      desc := desc + 1;
      return i + 1, false, 0;
    }
  }

  /** Past the end there is nothing: a move of a zone or more from behind the last byte fails. */
  lemma EndIsBeyond(f: File, p: Pos, size: int)
    requires f.Valid() && AtEnd(f, p) && size >= f.zsize && Narrow(f, p, size)
    ensures Zones(f, p, size) % RANGE != 0
    ensures Goal(f, p.segment, p.offset, NewByte(f, p, size), Zones(f, p, size) % RANGE) == Beyond
  {
    ZoneOrMore(f, p, size);
    hide Bytes, Zones, NewByte, Landed, DataBefore, Locate, DescOf, FixIndex;
    PassSegment(f, p.segment, Zones(f, p, size) + p.offset, NewByte(f, p, size));
  }

  lemma ZoneOrMore(f: File, p: Pos, size: int)
    requires f.Valid() && p.byte == 0 && size >= f.zsize && 0 <= p.offset && Narrow(f, p, size)
    ensures Zones(f, p, size) >= 1 && Zones(f, p, size) % RANGE == Zones(f, p, size)
  {
    MoveBytes(f, p, size);
    ZoneOrder(f.zsize, Zones(f, p, size), NewByte(f, p, size), 1, 0);
    assert Bytes(f.zsize, 1, 0) == f.zsize;
  }

  /** A file of size 0 is walked as if from the start of its data. */
  lemma StartIsFirst(f: File, b: int, i: int)
    requires f.Valid() && f.used > 1 && 0 < i < RANGE - 1
    ensures Goal(f, 0, 1, b, i) == Landed(f, 1, i, b)
  {
    PassSegment(f, 0, i, b);
  }

  /** Opens a position; only a file with bytes in it starts at its first extent. */
  method InitPos(f: File, bytes: int, position: int) returns (pos: BlockPos, result: int)
    requires f.Valid() && position >= 0 && (bytes != 0 ==> f.used > 1) && position / f.zsize + 1 < RANGE
    ensures fresh(pos)
    ensures bytes != 0 ==> (result == 0 <==> position <= Capacity(f))
    ensures bytes != 0 && result == 0 ==>
      (Inside(f, pos.Now()) || AtEnd(f, pos.Now())) && Linear(f, pos.Now()) == position
    ensures bytes == 0 && position < f.zsize ==> result == 0 && pos.Now() == Pos(0, 0, 1, position)
  {
    OpenFacts(f, position);
    if bytes != 0 {
      hide FixIndex, DescOf, Bytes, File.Count, File.Shaped, Linear, Inside, AtEnd, Zones, NewByte;
      pos := new BlockPos(Pos(0, 1, 0, 0));
      result := pos.Sync(f, position);
    } else {
      pos := new BlockPos(Pos(0, 0, 1, 0));
      result := pos.Sync(f, position);
    }
  }

  lemma OpenFacts(f: File, position: int)
    requires f.Valid() && position >= 0 && position / f.zsize + 1 < RANGE
    ensures position < f.zsize ==>
      Zones(f, Pos(0, 0, 1, 0), position) == 0 && NewByte(f, Pos(0, 0, 1, 0), position) == position
    ensures
      f.used > 1 ==>
        var p := Pos(0, 1, 0, 0);
        && Inside(f, p) && !AtStart(p) && (Synced(f, p, position).Moved? <==> position <= Capacity(f))
        && (Synced(f, p, position).Moved? ==>
          var q := Synced(f, p, position).pos;
          (Inside(f, q) || AtEnd(f, q)) && Linear(f, q) == position)
  {
    SmallMove(f, Pos(0, 0, 1, 0), position);
    if f.used > 1 {
      SmallMove(f, Pos(0, 1, 0, 0), position);
      FirstByte(f);
      hide FixIndex, DescOf, Bytes, File.Count, File.Shaped, Landed, Linear, DataBefore, Capacity, AtEnd, Inside, Zones,
        NewByte;
      SyncIsAddition(f, Pos(0, 1, 0, 0), position);
    }
  }

  lemma SmallMove(f: File, p: Pos, size: int)
    requires f.zsize > 0 && p.byte == 0 && size >= 0
    ensures Zones(f, p, size) == size / f.zsize
    ensures (size < f.zsize ==> Zones(f, p, size) == 0 && NewByte(f, p, size) == size)
  {
  }

  lemma FirstByte(f: File)
    requires f.Valid() && f.used > 1
    ensures Inside(f, Pos(0, 1, 0, 0)) && Linear(f, Pos(0, 1, 0, 0)) == 0
  {
    assert DataBefore(f, 1) == DataBefore(f, 0) == 0;
  }
}
