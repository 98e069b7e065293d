/** The file system's write-back cache: a ring of free buffers, use counts, and a flush that
    goes through the journal. */
module PfsCache {
  import opened Words
  import opened Device
  import opened WriteAhead
  import opened PfsJournal

  datatype Kind = Plain | Segd | Segi | Bitmap

  datatype Owner = Nobody | Owned(mount: Mount)

  /** A cache buffer.  Buffer 0 heads the ring of free buffers, oldest first. */
  datatype Buffer = Buffer(
    next: nat, prev: nat, dirty: bool, kind: Kind, nused: nat,
    owner: Owner, sub: int, block: int, data: Block)
  {
    predicate Holds(k: Key)
    {
      owner == Owned(k.mount) && sub == k.sub && block == k.block
    }

    function Home(): Key
      requires owner.Owned?
    {
      Key(owner.mount, sub, block)
    }
  }

  // ----- the ring -----

  /** The ring as a circle: positions -1 and |ring| are its head. */
  function Spot(ring: seq<nat>, i: int): nat
  {
    if 0 <= i < |ring| then ring[i] else 0
  }

  ghost predicate Distinct(ring: seq<nat>, n: nat)
  {
    && (forall i :: 0 <= i < |ring| ==> 0 < ring[i] < n)
    && forall i, j :: 0 <= i < j < |ring| ==> ring[i] != ring[j]
  }

  ghost predicate Linked(b: seq<Buffer>, ring: seq<nat>)
  {
    && |b| > 0 && Distinct(ring, |b|)
    && forall i :: -1 <= i < |ring| ==> Joined(b, ring, i)
  }

  /** The buffer at spot i and the one after it point at each other. */
  ghost predicate Joined(b: seq<Buffer>, ring: seq<nat>, i: int)
    requires |b| > 0 && Distinct(ring, |b|)
  {
    b[Spot(ring, i)].next == Spot(ring, i + 1) && b[Spot(ring, i + 1)].prev == Spot(ring, i)
  }

  /** The head of the ring, and how buffer 0 shows that there is none. */
  lemma RingHead(b: seq<Buffer>, ring: seq<nat>)
    requires Linked(b, ring)
    ensures 0 <= b[0].prev < |b|
    ensures b[0].prev == 0 && b[b[0].prev].next == b[0].prev <==> ring == []
    ensures ring != [] ==> b[0].next == ring[0] && 0 < ring[0] < |b|
  {
    assert Joined(b, ring, -1) && Joined(b, ring, |ring| - 1);
  }

  function Inserted(ring: seq<nat>, p: int, x: nat): seq<nat>
    requires -1 <= p < |ring|
  {
    ring[..p + 1] + [x] + ring[p + 1..]
  }

  function Dropped(ring: seq<nat>, p: nat): seq<nat>
    requires p < |ring|
  {
    ring[..p] + ring[p + 1..]
  }

  /** The four assignments that put buffer x behind buffer at. */
  function LinkIn(b: seq<Buffer>, at: nat, x: nat): seq<Buffer>
    requires at < |b| && x < |b| && b[at].next < |b|
  {
    var b1 := b[x := b[x].(prev := at, next := b[at].next)];
    var b2 := b1[b[at].next := b1[b[at].next].(prev := x)];
    b2[at := b2[at].(next := x)]
  }

  function LinkOut(b: seq<Buffer>, x: nat): seq<Buffer>
    requires x < |b| && b[x].prev < |b| && b[x].next < |b|
  {
    var b1 := b[b[x].prev := b[b[x].prev].(next := b[x].next)];
    b1[b[x].next := b1[b[x].next].(prev := b[x].prev)]
  }

  /** Everything about a buffer but its links. */
  predicate SameButLinks(x: Buffer, y: Buffer)
  {
    x == y.(next := x.next, prev := x.prev)
  }

  function SpotInserted(ring: seq<nat>, p: int, x: nat, i: int): nat
  {
    if i <= p then Spot(ring, i) else if i == p + 1 then x else Spot(ring, i - 1)
  }

  lemma InsertedDistinct(ring: seq<nat>, n: nat, p: int, x: nat)
    requires Distinct(ring, n) && -1 <= p < |ring| && 0 < x < n && x !in ring
    ensures Distinct(Inserted(ring, p, x), n)
    ensures forall i :: Spot(Inserted(ring, p, x), i) == SpotInserted(ring, p, x, i)
    ensures forall j :: j in Inserted(ring, p, x) <==> j in ring || j == x
  {
    var after := Inserted(ring, p, x);
    assert after[p + 1] == x;
    forall j | j in ring ensures j in after {
      var i :| 0 <= i < |ring| && ring[i] == j;
      assert after[if i <= p then i else i + 1] == j;
    }
  }

  lemma LinkInRing(b: seq<Buffer>, ring: seq<nat>, p: int, x: nat)
    requires Linked(b, ring) && -1 <= p < |ring|
    requires 0 < x < |b| && x !in ring
    ensures b[Spot(ring, p)].next < |b|
    ensures Linked(LinkIn(b, Spot(ring, p), x), Inserted(ring, p, x))
    ensures forall j :: 0 <= j < |b| ==> SameButLinks(LinkIn(b, Spot(ring, p), x)[j], b[j])
  {
    var after := Inserted(ring, p, x);
    InsertedDistinct(ring, |b|, p, x);
    assert Joined(b, ring, p);
    var c := LinkIn(b, Spot(ring, p), x);
    forall i | -1 <= i < |after|
      ensures Joined(c, after, i)
    {
      if i < p {
        assert Joined(b, ring, i);
      } else if i > p + 1 {
        assert Joined(b, ring, i - 1);
      }
    }
  }

  function SpotDropped(ring: seq<nat>, p: int, i: int): nat
  {
    if i < p then Spot(ring, i) else Spot(ring, i + 1)
  }

  lemma DroppedDistinct(ring: seq<nat>, n: nat, p: nat)
    requires Distinct(ring, n) && p < |ring|
    ensures Distinct(Dropped(ring, p), n)
    ensures forall i :: Spot(Dropped(ring, p), i) == SpotDropped(ring, p, i)
    ensures forall j :: j in Dropped(ring, p) <==> j in ring && j != ring[p]
  {
    var after := Dropped(ring, p);
    forall i ensures Spot(after, i) == SpotDropped(ring, p, i) {
      if 0 <= i < |after| {
        assert after[i] == if i < p then ring[i] else ring[i + 1];
      }
    }
    forall j | j in ring && j != ring[p] ensures j in after {
      var i :| 0 <= i < |ring| && ring[i] == j;
      assert i != p;
      assert after[if i < p then i else i - 1] == j;
    }
    forall j | j in after ensures j in ring && j != ring[p] {
      var i :| 0 <= i < |after| && after[i] == j;
      assert ring[if i < p then i else i + 1] == j;
    }
  }

  lemma LinkOutRing(b: seq<Buffer>, ring: seq<nat>, p: nat)
    requires Linked(b, ring) && p < |ring|
    ensures b[ring[p]].prev < |b| && b[ring[p]].next < |b|
    ensures Linked(LinkOut(b, ring[p]), Dropped(ring, p))
    ensures forall j :: 0 <= j < |b| ==> SameButLinks(LinkOut(b, ring[p])[j], b[j])
  {
    var x := ring[p];
    var after := Dropped(ring, p);
    DroppedDistinct(ring, |b|, p);
    assert Joined(b, ring, p - 1);
    assert Joined(b, ring, p);
    var c := LinkOut(b, x);
    forall i | -1 <= i < |after|
      ensures Joined(c, after, i)
    {
      if i < p - 1 {
        assert Joined(b, ring, i);
      } else if i >= p {
        assert Joined(b, ring, i + 1);
      }
    }
  }

  // ----- what a flush does to the buffers -----

  predicate Due(b: Buffer, m: Mount)
  {
    b.dirty && b.owner == Owned(m)
  }

  predicate Summed(kind: Kind)
  {
    kind == Segd || kind == Segi
  }

  /** A dirty segment descriptor gets its checksum before it is logged. */
  function Marked(b: Buffer, m: Mount): Buffer
  {
    if Due(b, m) && Summed(b.kind) then b.(data := b.data.Stamped()) else b
  }

  function Flushed(b: Buffer, m: Mount): Buffer
  {
    if Due(b, m) then Marked(b, m).(dirty := false) else b
  }

  function ItemOf(b: Buffer, slot: nat, m: Mount): Item
    requires Due(b, m)
  {
    Item(slot, b.Home(), Marked(b, m).data)
  }

  /** The due buffers among slots 1 to n - 1, in order. */
  function Items(b: seq<Buffer>, n: nat, m: Mount): (items: seq<Item>)
    requires n <= |b|
    ensures |items| <= if n == 0 then 0 else n - 1
  {
    if n <= 1 then []
    else if Due(b[n - 1], m) then Items(b, n - 1, m) + [ItemOf(b[n - 1], n - 1, m)]
    else Items(b, n - 1, m)
  }

  function Dump(b: seq<Buffer>, m: Mount): (dump: seq<Block>)
    requires |b| > 0
    ensures |dump| == |b| - 1
  {
    seq(|b| - 1, i requires 0 <= i < |b| - 1 => Marked(b[i + 1], m).data)
  }

  lemma {:induction false} ItemsFound(b: seq<Buffer>, n: nat, m: Mount, j: nat)
    requires n <= |b| && j < |Items(b, n, m)|
    ensures
      var slot := Items(b, n, m)[j].slot;
      1 <= slot < n && Due(b[slot], m) && Items(b, n, m)[j] == ItemOf(b[slot], slot, m)
  {
    if j < |Items(b, n - 1, m)| {
      ItemsFound(b, n - 1, m, j);
    }
  }

  lemma {:induction false} ItemsOrdered(b: seq<Buffer>, n: nat, m: Mount, i: nat, j: nat)
    requires n <= |b| && i < j < |Items(b, n, m)|
    ensures Items(b, n, m)[i].slot < Items(b, n, m)[j].slot
  {
    if j < |Items(b, n - 1, m)| {
      ItemsOrdered(b, n - 1, m, i, j);
    } else {
      ItemsFound(b, n - 1, m, i);
    }
  }

  lemma {:induction false} ItemsComplete(b: seq<Buffer>, n: nat, m: Mount, slot: nat) returns (j: nat)
    requires 1 <= slot < n <= |b| && Due(b[slot], m)
    ensures j < |Items(b, n, m)| && Items(b, n, m)[j] == ItemOf(b[slot], slot, m)
  {
    if slot == n - 1 {
      j := |Items(b, n - 1, m)|;
    } else {
      j := ItemsComplete(b, n - 1, m, slot);
    }
  }

  // ----- keys -----

  /** A block of a mounted file system, on the drive and clear of the log. */
  ghost predicate KeyOk(k: Key, mounts: set<Mount>, keys: set<Place>)
  {
    && k.mount in mounts
    && k.First() in keys && k.Second() in keys
    && !InLog(k.mount, k.First()) && !InLog(k.mount, k.Second())
  }

  ghost predicate KeysOk(b: seq<Buffer>, mounts: set<Mount>, keys: set<Place>)
  {
    && (forall j :: 0 < j < |b| && b[j].owner.Owned? ==> KeyOk(b[j].Home(), mounts, keys))
    && forall i, j :: 0 < i < j < |b| ==> !SameKey(b[i], b[j])
  }

  /** No block has two buffers. */
  predicate SameKey(x: Buffer, y: Buffer)
  {
    x.owner.Owned? && y.owner.Owned? && x.Home() == y.Home()
  }

  /** The log area of every mount is on the drive, its header asks for nothing, and no two
      mounts share a descriptor. */
  ghost predicate MountsOk(mounts: set<Mount>, st: Disk)
  {
    && (forall m :: m in mounts ==> MountOk(m, st))
    && (forall m, n :: m in mounts && n in mounts && m.fd == n.fd ==> m == n)
  }

  ghost predicate MountOk(m: Mount, st: Disk)
  {
    && Resting(m, st)
    && forall i :: 0 <= i < LOG_SECTORS ==> LogPlace(m, i) in st.durable
  }

  lemma ItemsPlaced(b: seq<Buffer>, mounts: set<Mount>, m: Mount, st: Disk)
    requires 0 < |b| <= INDEX_SLOTS + 1
    requires KeysOk(b, mounts, st.durable.Keys) && MountsOk(mounts, st) && m in mounts
    ensures Placed(m, Dump(b, m), Items(b, |b|, m), st.durable.Keys)
  {
    var items, dump := Items(b, |b|, m), Dump(b, m);
    assert MountOk(m, st);
    forall j | 0 <= j < |items| ensures ItemPlaced(m, dump, items[j], st.durable.Keys) {
      ItemsFound(b, |b|, m, j);
      assert KeyOk(b[items[j].slot].Home(), mounts, st.durable.Keys);
    }
    forall i, j | 0 <= i < j < |items| ensures items[i].key != items[j].key {
      ItemsFound(b, |b|, m, i);
      ItemsFound(b, |b|, m, j);
      ItemsOrdered(b, |b|, m, i, j);
      assert !SameKey(b[items[i].slot], b[items[j].slot]);
    }
  }

  // ----- the store the cache stands for -----

  function ToBlock(x: Cell, y: Cell): Block
  {
    if x.Raw? && y.Raw? && x.sector.words != [] then Join(x.sector, y.sector) else Block(0, [], [])
  }

  function ReadBlock(img: Image, k: Key): Block
  {
    ToBlock(Cellar(img, k.First()), Cellar(img, k.Second()))
  }

  lemma ReadBack(img: Image, k: Key, data: Block)
    requires BlockAt(img, k.First(), k.Second(), data)
    ensures ReadBlock(img, k) == data
  {
    JoinSplit(data);
  }

  /** x is y, or y with its checksum brought up to date. */
  predicate Carries(x: Block, y: Block)
  {
    x == y || x == y.Stamped()
  }

  /** v is what block k holds as far as anyone reading through the cache can tell. */
  ghost predicate Keeps(b: seq<Buffer>, img: Image, k: Key, v: Block)
  {
    && (forall j :: 0 < j < |b| && b[j].Holds(k) ==> BufferKeeps(b[j], img, k, v))
    && ((forall j :: 0 < j < |b| ==> !b[j].Holds(k)) ==> Carries(ReadBlock(img, k), v))
  }

  ghost predicate BufferKeeps(b: Buffer, img: Image, k: Key, v: Block)
  {
    Carries(b.data, v) && (!b.dirty ==> ReadBlock(img, k) == b.data)
  }

  /** Every tracked block holds its last value. */
  ghost predicate StoreOk(b: seq<Buffer>, img: Image, store: map<Key, Block>, mounts: set<Mount>, keys: set<Place>)
  {
    forall k :: k in store ==> KeyOk(k, mounts, keys) && Keeps(b, img, k, store[k])
  }

  /** What a flush of mount m does to the blocks on the drive. */
  ghost predicate Spilled(b: seq<Buffer>, m: Mount, mounts: set<Mount>, keys: set<Place>, img: Image, next: Image)
  {
    && (forall j :: 0 < j < |b| && Due(b[j], m) ==> ReadBlock(next, b[j].Home()) == Marked(b[j], m).data)
    && forall k :: KeyOk(k, mounts, keys) && (forall j :: 0 < j < |b| && b[j].Holds(k) ==> !Due(b[j], m)) ==>
        ReadBlock(next, k) == ReadBlock(img, k)
  }

  ghost predicate Listed(b: seq<Buffer>, m: Mount, item: Item)
  {
    0 < item.slot < |b| && Due(b[item.slot], m) && item == ItemOf(b[item.slot], item.slot, m)
  }

  /** The batch is exactly the due buffers. */
  ghost predicate Lists(b: seq<Buffer>, m: Mount, items: seq<Item>)
  {
    && (forall i :: 0 <= i < |items| ==> Listed(b, m, items[i]))
    && forall j :: 0 < j < |b| && Due(b[j], m) ==> ItemOf(b[j], j, m) in items
  }

  lemma ItemsList(b: seq<Buffer>, m: Mount)
    ensures Lists(b, m, Items(b, |b|, m))
  {
    var items := Items(b, |b|, m);
    forall i | 0 <= i < |items| ensures Listed(b, m, items[i]) {
      ItemsFound(b, |b|, m, i);
    }
    forall j | 0 < j < |b| && Due(b[j], m) ensures ItemOf(b[j], j, m) in items {
      var i := ItemsComplete(b, |b|, m, j);
    }
  }

  /** A completed flush spills: due blocks reach home, all others stay. */
  lemma FlushSpills(b: seq<Buffer>, items: seq<Item>, mounts: set<Mount>, m: Mount, st: Disk, img: Image)
    requires KeysOk(b, mounts, st.durable.Keys) && MountsOk(mounts, st) && m in mounts
    requires Lists(b, m, items) && Done(m, st, items, img)
    ensures Spilled(b, m, mounts, st.durable.Keys, Settled(st), img)
  {
    forall j | 0 < j < |b| && Due(b[j], m) ensures ReadBlock(img, b[j].Home()) == Marked(b[j], m).data {
      var i :| 0 <= i < |items| && items[i] == ItemOf(b[j], j, m);
      ReadBack(img, b[j].Home(), Marked(b[j], m).data);
    }
    forall k | KeyOk(k, mounts, st.durable.Keys) && (forall j :: 0 < j < |b| && b[j].Holds(k) ==> !Due(b[j], m))
      ensures ReadBlock(img, k) == ReadBlock(Settled(st), k)
    {
      OtherPlace(b, items, mounts, m, k, st, k.First());
      OtherPlace(b, items, mounts, m, k, st, k.Second());
    }
  }

  /** Two blocks that share a sector are one block of one descriptor. */
  lemma SharedPlace(k: Key, l: Key, p: Place)
    ensures (p == k.First() || p == k.Second()) && (p == l.First() || p == l.Second()) ==>
      k.mount.fd == l.mount.fd && k.sub == l.sub && k.block == l.block
  {
  }

  lemma OtherItem(b: seq<Buffer>, item: Item, mounts: set<Mount>, m: Mount, k: Key, p: Place)
    requires Listed(b, m, item) && m in mounts && k.mount in mounts
    requires forall n :: n in mounts && n.fd == m.fd ==> n == m
    requires p == k.First() || p == k.Second()
    requires forall j :: 0 < j < |b| && b[j].Holds(k) ==> !Due(b[j], m)
    ensures p != item.key.First() && p != item.key.Second()
  {
    SharedPlace(k, item.key, p);
    assert !b[item.slot].Holds(k);
  }

  lemma OtherPlace(b: seq<Buffer>, items: seq<Item>, mounts: set<Mount>, m: Mount, k: Key, st: Disk, p: Place)
    requires MountsOk(mounts, st) && m in mounts && Lists(b, m, items)
    requires KeyOk(k, mounts, st.durable.Keys) && (p == k.First() || p == k.Second())
    requires forall j :: 0 < j < |b| && b[j].Holds(k) ==> !Due(b[j], m)
    ensures !InLog(m, p) && !Touches(Flatten(HomeGroups(items)), p)
  {
    hide HomeGroups, Flatten, Touches;
    assert p.fd == m.fd ==> k.mount == m;
    forall item | item in items ensures p != item.key.First() && p != item.key.Second() {
      OtherItem(b, item, mounts, m, k, p);
    }
    HomeTouches(items, p);
  }

  /** A buffer that is not due is the only one its block has. */
  lemma NotDue(b: seq<Buffer>, m: Mount, mounts: set<Mount>, keys: set<Place>, k: Key, j: nat)
    requires KeysOk(b, mounts, keys) && 0 < j < |b| && b[j].Holds(k) && !Due(b[j], m)
    ensures forall i :: 0 < i < |b| && b[i].Holds(k) ==> !Due(b[i], m)
  {
    forall i | 0 < i < |b| && i != j ensures !b[i].Holds(k) {
      var low, high := if i < j then i else j, if i < j then j else i;
      assert !SameKey(b[low], b[high]);
    }
  }

  lemma FlushBuffer(b: seq<Buffer>, m: Mount, mounts: set<Mount>, keys: set<Place>, img: Image, next: Image, j: nat,
                    k: Key, v: Block)
    requires KeysOk(b, mounts, keys) && KeyOk(k, mounts, keys) && Spilled(b, m, mounts, keys, img, next)
    requires 0 < j < |b| && b[j].Holds(k) && BufferKeeps(b[j], img, k, v)
    ensures BufferKeeps(Flushed(b[j], m), next, k, v)
  {
    if Due(b[j], m) {
      assert b[j].Home() == k;
    } else {
      NotDue(b, m, mounts, keys, k, j);
    }
  }

  /** A flush loses nothing. */
  lemma FlushKeeps(b: seq<Buffer>, m: Mount, mounts: set<Mount>, keys: set<Place>, img: Image, next: Image,
                   c: seq<Buffer>, store: map<Key, Block>)
    requires KeysOk(b, mounts, keys) && StoreOk(b, img, store, mounts, keys)
    requires Spilled(b, m, mounts, keys, img, next)
    requires |c| == |b| && forall j :: 0 < j < |b| ==> c[j] == Flushed(b[j], m)
    ensures StoreOk(c, next, store, mounts, keys)
  {
    forall k | k in store ensures Keeps(c, next, k, store[k]) {
      assert Keeps(b, img, k, store[k]);
      forall j | 0 < j < |c| && c[j].Holds(k) ensures BufferKeeps(c[j], next, k, store[k]) {
        assert b[j].Holds(k);
        FlushBuffer(b, m, mounts, keys, img, next, j, k, store[k]);
      }
      if forall j :: 0 < j < |c| ==> !c[j].Holds(k) {
        forall j | 0 < j < |b| ensures !b[j].Holds(k) {
          assert !c[j].Holds(k);
        }
      }
    }
  }

  lemma {:induction false} NoneDue(b: seq<Buffer>, n: nat, m: Mount)
    requires n <= |b| && forall j :: 0 < j < n ==> !Due(b[j], m)
    ensures Items(b, n, m) == []
  {
    if n > 1 {
      NoneDue(b, n - 1, m);
    }
  }

  lemma ItemsNonempty(b: seq<Buffer>, m: Mount)
    requires exists j :: 0 < j < |b| && Due(b[j], m)
    ensures Items(b, |b|, m) != []
  {
    var j :| 0 < j < |b| && Due(b[j], m);
    var i := ItemsComplete(b, |b|, m, j);
  }

  /** Emptying the header alone moves no block. */
  lemma ResetDone(m: Mount, st: Disk)
    requires HeaderIdle(st, LogHead(m.fd))
    ensures Run(st, HeaderOps(LogHead(m.fd), Head(EmptyLog()))) ==
      State(Settled(st)[LogHead(m.fd) := Head(EmptyLog())], [])
    ensures Done(m, st, [], Settled(st)[LogHead(m.fd) := Head(EmptyLog())])
  {
    HeaderRun(st, LogHead(m.fd), Head(EmptyLog()));
    ApplyKeys(st.durable, st.pending);
  }

  /** The log of a flush and the header that commits it. */
  function LogOps(b: seq<Buffer>, m: Mount): seq<Op<Place, Cell>>
    requires 0 < |b| <= INDEX_SLOTS + 1
  {
    [Transfer(DumpWrites(m, Dump(b, m)))] + HeaderOps(LogHead(m.fd), Head(LogOf(Items(b, |b|, m))))
  }

  function HomeOps(b: seq<Buffer>, n: nat, m: Mount): seq<Op<Place, Cell>>
    requires n <= |b|
  {
    Transfers(HomeGroups(Items(b, n, m)))
  }

  function ResetOps(m: Mount): seq<Op<Place, Cell>>
  {
    HeaderOps(LogHead(m.fd), Head(EmptyLog()))
  }

  /** The commands a flush sends. */
  function FlushOps(b: seq<Buffer>, m: Mount): seq<Op<Place, Cell>>
    requires 0 < |b| <= INDEX_SLOTS + 1
  {
    if Items(b, |b|, m) == [] then ResetOps(m) else LogOps(b, m) + HomeOps(b, |b|, m) + ResetOps(m)
  }

  /** With anything to write, that is one run of the commit protocol. */
  lemma FlushCommits(b: seq<Buffer>, m: Mount)
    requires 0 < |b| <= INDEX_SLOTS + 1 && Items(b, |b|, m) != []
    ensures FlushOps(b, m) == CommitOps(PlanOf(m, Dump(b, m), Items(b, |b|, m)))
  {
    var w: seq<Group> := [DumpWrites(m, Dump(b, m))];
    assert w[..0] == [];
    assert Transfers(w) == [Transfer(w[0])];
  }

  lemma Chain(st0: Disk, ops0: seq<Op<Place, Cell>>, xs: seq<Op<Place, Cell>>, ys: seq<Op<Place, Cell>>)
    ensures (ops0 + xs) + ys == ops0 + (xs + ys)
    ensures Run(Run(st0, xs), ys) == Run(st0, xs + ys)
  {
    RunConcat(st0, xs, ys);
  }

  /** After a flush every mount's log rests and the due blocks are home. */
  lemma FlushEffect(b: seq<Buffer>, mounts: set<Mount>, m: Mount, st: Disk)
    requires 0 < |b| <= INDEX_SLOTS + 1
    requires KeysOk(b, mounts, st.durable.Keys) && MountsOk(mounts, st) && m in mounts
    ensures
      var next := Run(st, FlushOps(b, m));
      && MountsOk(mounts, next) && next.pending == [] && next.durable.Keys == st.durable.Keys
      && Spilled(b, m, mounts, st.durable.Keys, Settled(st), next.durable)
  {
    var items := Items(b, |b|, m);
    var next := Run(st, FlushOps(b, m));
    assert MountOk(m, st);
    if items == [] {
      ResetDone(m, st);
    } else {
      ItemsPlaced(b, mounts, m, st);
      FlushCommits(b, m);
      FlushCompletes(m, st, Dump(b, m), items);
    }
    ItemsList(b, m);
    AfterDone(b, items, mounts, m, st, next);
  }

  /** A reset of a log at rest, cut anywhere: nothing outside the log has changed. */
  lemma ResetCrash(m: Mount, st: Disk, k: nat, img: Image)
    requires Resting(m, st) && k <= 3 && CrashImage(Run(st, ResetOps(m)[..k]), img)
    ensures LogSane(m, img) && Kept(m, st, Recover(m, img))
  {
    var hdr := LogHead(m.fd);
    HeaderRun(st, hdr, Head(EmptyLog()));
    ApplyKeys(st.durable, st.pending);
    assert ResetOps(m)[..0] == [];
    forall p | p in img
      ensures if p == hdr then img[p] == st.durable[p] || img[p] == Head(EmptyLog()) else MayHold(st, p, img[p])
    {
      assert MayHold(Run(st, ResetOps(m)[..k]), p, img[p]);
      if p == hdr {
        ApplyUntouched(st.durable, st.pending, p);
        if k == 0 {
          IdleHolds(st, p, img[p]);
        }
      } else if k > 0 {
        ApplyMayHold(st.durable, st.pending, p);
      }
    }
    QuietSane(m, img);
    RecoverQuiet(m, img);
  }

  /** Every block of every mount is as it was. */
  ghost predicate Unchanged(mounts: set<Mount>, st: Disk, img: Image)
  {
    forall k :: KeyOk(k, mounts, st.durable.Keys) ==> ReadBlock(img, k) == ReadBlock(st.durable, k)
  }

  lemma KeptUnchanged(mounts: set<Mount>, m: Mount, st: Disk, img: Image)
    requires MountsOk(mounts, st) && m in mounts && st.pending == [] && Kept(m, st, img)
    ensures Unchanged(mounts, st, img)
  {
    forall k | KeyOk(k, mounts, st.durable.Keys) ensures ReadBlock(img, k) == ReadBlock(st.durable, k) {
      assert k.mount.fd == m.fd ==> k.mount == m;
      assert MayHold(st, k.First(), img[k.First()]) && MayHold(st, k.Second(), img[k.Second()]);
    }
  }

  /** A flush of the cache, cut after any command, then recoveries each cut anywhere, then one that
      completes: no block of any mount has changed, or every due block is home and no other block
      has changed. */
  lemma FlushCrash(b: seq<Buffer>, mounts: set<Mount>, m: Mount, st: Disk, k: nat, disks: seq<Image>)
    requires 0 < |b| <= INDEX_SLOTS + 1 && st.pending == []
    requires KeysOk(b, mounts, st.durable.Keys) && MountsOk(mounts, st) && m in mounts
    requires k <= |FlushOps(b, m)| && disks != [] && Reboots(m, disks)
    requires CrashImage(Run(st, FlushOps(b, m)[..k]), disks[0])
    ensures LogSane(m, disks[|disks| - 1])
    ensures
      var end := Recover(m, disks[|disks| - 1]);
      Unchanged(mounts, st, end) || Spilled(b, m, mounts, st.durable.Keys, st.durable, end)
  {
    var items, last := Items(b, |b|, m), disks[|disks| - 1];
    MountRests(mounts, m, st);
    hide Unchanged, Spilled, KeysOk, MountsOk, CrashImage, Reboots, Resting, LogSane, Recover, Kept, Done;
    if items == [] {
      ResetCrash(m, st, k, disks[0]);
      RebootsAgree(m, disks);
      KeptUnchanged(mounts, m, st, Recover(m, last));
    } else {
      ItemsPlaced(b, mounts, m, st);
      FlushCommits(b, m);
      CrashAtomic(m, st, Dump(b, m), items, k, disks);
      if Kept(m, st, Recover(m, last)) {
        KeptUnchanged(mounts, m, st, Recover(m, last));
      } else {
        ItemsList(b, m);
        FlushSpills(b, items, mounts, m, st, Recover(m, last));
      }
    }
  }

  lemma MountRests(mounts: set<Mount>, m: Mount, st: Disk)
    requires MountsOk(mounts, st) && m in mounts
    ensures Resting(m, st)
  {
    assert MountOk(m, st);
  }

  lemma AfterDone(b: seq<Buffer>, items: seq<Item>, mounts: set<Mount>, m: Mount, st: Disk, next: Disk)
    requires KeysOk(b, mounts, st.durable.Keys) && MountsOk(mounts, st) && m in mounts
    requires Lists(b, m, items) && Done(m, st, items, next.durable)
    requires Resting(m, next) && next.pending == [] && next.durable.Keys == st.durable.Keys
    ensures MountsOk(mounts, next)
    ensures Spilled(b, m, mounts, st.durable.Keys, Settled(st), next.durable)
  {
    assert MountOk(m, st);
    forall n | n in mounts ensures MountOk(n, next) {
      assert MountOk(n, st);
      if n != m {
        OtherHeader(items, m, n, st, next.durable);
      }
    }
    FlushSpills(b, items, mounts, m, st, next.durable);
  }

  lemma OtherHeader(items: seq<Item>, m: Mount, n: Mount, st: Disk, img: Image)
    requires (forall i :: 0 <= i < |items| ==> items[i].key.mount == m) && n.fd != m.fd
    requires Resting(n, st) && Done(m, st, items, img)
    ensures img[LogHead(n.fd)] == st.durable[LogHead(n.fd)]
  {
    var p := LogHead(n.fd);
    HomeTouches(items, p);
    ApplyUntouched(st.durable, st.pending, p);
  }

  /** A drive command appended to those already sent. */
  lemma RunSnoc(st: Disk, ops: seq<Op<Place, Cell>>, op: Op<Place, Cell>)
    ensures Run(st, ops + [op]) == Step(Run(st, ops), op)
  {
    assert (ops + [op])[..|ops|] == ops;
  }

  /** One more due buffer is one more transfer home. */
  lemma HomeSnoc(b: seq<Buffer>, i: nat, m: Mount)
    requires 0 < i < |b| && Due(b[i], m)
    ensures HomeOps(b, i + 1, m) == HomeOps(b, i, m) + [Transfer(HomeWrites(ItemOf(b[i], i, m)))]
  {
    var items, item := Items(b, i, m), ItemOf(b[i], i, m);
    assert Items(b, i + 1, m) == items + [item];
    assert HomeGroups(items + [item]) == HomeGroups(items) + [HomeWrites(item)];
    TransfersSnoc(HomeGroups(items), HomeWrites(item));
  }

  lemma RunHeader(st: Disk, hdr: Place, value: Cell)
    ensures Run(st, HeaderOps(hdr, value)) ==
      Step(Step(Step(st, FlushCache), Transfer([Write(hdr, value)])), FlushCache)
  {
    HeaderRun(st, hdr, value);
    var mid: Disk := State(Settled(st), [Write(hdr, value)]);
    assert mid.pending[..0] == [];
    assert [] + mid.pending == mid.pending;
    assert Apply(mid.durable, mid.pending[..0]) == mid.durable;
  }

  // ----- recovery -----

  lemma RestoreSnoc(m: Mount, img: Image, log: Log, i: nat)
    requires i < |log.entries|
    ensures Transfers(RestoreGroups(m, img, log, i + 1))
      == Transfers(RestoreGroups(m, img, log, i)) + [Transfer(RestoreGroup(m, img, log.entries[i]))]
  {
    assert RestoreGroups(m, img, log, i + 1) == RestoreGroups(m, img, log, i) + [RestoreGroup(m, img, log.entries[i])];
    TransfersSnoc(RestoreGroups(m, img, log, i), RestoreGroup(m, img, log.entries[i]));
  }

  /** The replay loop never writes what it still has to read. */
  lemma LogIntact(m: Mount, img: Image, i: nat, now: Disk, p: Place)
    requires LogSane(m, img) && Asks(img[LogHead(m.fd)].log) && i <= img[LogHead(m.fd)].log.num
    requires InLog(m, p) && p in img
    requires now == Run(State(img, []), Transfers(RestoreGroups(m, img, img[LogHead(m.fd)].log, i)))
    ensures p in Settled(now) && Settled(now)[p] == img[p]
  {
    var log := img[LogHead(m.fd)].log;
    var ws := Flatten(RestoreGroups(m, img, log, i));
    assert RestoreGroups(m, img, log, i) == RestoreGroups(m, img, log, log.num)[..i];
    ReplayOutside(m, img);
    forall j | 0 <= j < |ws| ensures ws[j].addr != p {
      FlattenPrefix(RestoreGroups(m, img, log, log.num), i, ws[j]);
    }
    ApplyUntouched(img, ws, p);
    RunTransfers(State(img, []), RestoreGroups(m, img, log, i));
    assert [] + ws == ws;
  }

  /** Reading one logged buffer and writing it home is one step of the replay. */
  lemma CopyStep(m: Mount, img: Image, i: nat, now: Disk)
    requires LogSane(m, img) && Asks(img[LogHead(m.fd)].log) && i < img[LogHead(m.fd)].log.num
    requires HasLog(m, img.Keys)
    requires now == Run(State(img, []), Transfers(RestoreGroups(m, img, img[LogHead(m.fd)].log, i)))
    ensures
      var log := img[LogHead(m.fd)].log;
      var e := log.entries[i];
      var a, b := LogPlace(m, e.logSector), LogPlace(m, e.logSector + 1);
      && a in Settled(now) && b in Settled(now)
      && Transfers(RestoreGroups(m, img, log, i + 1)) == Transfers(RestoreGroups(m, img, log, i)) +
        [Transfer(PairWrites(At(m.fd, e.sub, e.sector), At(m.fd, e.sub, e.sector + 1), Settled(now)[a],
          Settled(now)[b]))]
  {
    var log := img[LogHead(m.fd)].log;
    var e := log.entries[i];
    assert EntrySane(m, img.Keys, e);
    LogIntact(m, img, i, now, LogPlace(m, e.logSector));
    LogIntact(m, img, i, now, LogPlace(m, e.logSector + 1));
    RestoreSnoc(m, img, log, i);
  }

  /** A replay leaves other descriptors alone. */
  lemma RecoverElsewhere(m: Mount, img: Image, p: Place)
    requires LogSane(m, img) && p.fd != m.fd && p in img
    ensures p in Recover(m, img) && Recover(m, img)[p] == img[p]
  {
    var plan := RestorePlan(m, img);
    RecoverInstalls(m, img);
    ReplayTouches(m, img, img[LogHead(m.fd)].log, p);
    ApplyUntouched(img, Flatten(plan.home), p);
  }

  /** The log area of a mount is on the drive. */
  ghost predicate HasLog(m: Mount, keys: set<Place>)
  {
    LogHead(m.fd) in keys && forall i :: 0 <= i < LOG_SECTORS ==> LogPlace(m, i) in keys
  }

  /** A recovered mount joins the others, none of which notices. */
  lemma RecoverMounts(m: Mount, img: Image, mounts: set<Mount>)
    requires LogSane(m, img) && HasLog(m, img.Keys)
    requires MountsOk(mounts, State(img, [])) && forall n :: n in mounts ==> n.fd != m.fd
    ensures Recover(m, img).Keys == img.Keys
    ensures MountsOk(mounts + {m}, State(Recover(m, img), []))
  {
    RecoverInstalls(m, img);
    ReplayOutside(m, img);
    ApplyKeys(img, Flatten(RestorePlan(m, img).home));
    forall n | n in mounts + {m} ensures MountOk(n, State(Recover(m, img), [])) {
      if n != m {
        assert MountOk(n, State(img, []));
        RecoverElsewhere(m, img, LogHead(n.fd));
      }
    }
  }

  lemma RecoverKeeps(m: Mount, b: seq<Buffer>, img: Image, store: map<Key, Block>, mounts: set<Mount>)
    requires LogSane(m, img) && Recover(m, img).Keys == img.Keys && forall n :: n in mounts ==> n.fd != m.fd
    requires KeysOk(b, mounts, img.Keys) && StoreOk(b, img, store, mounts, img.Keys)
    ensures KeysOk(b, mounts + {m}, img.Keys)
    ensures StoreOk(b, Recover(m, img), store, mounts + {m}, img.Keys)
  {
    forall k | k in store ensures Keeps(b, Recover(m, img), k, store[k]) {
      assert Keeps(b, img, k, store[k]);
      RecoverElsewhere(m, img, k.First());
      RecoverElsewhere(m, img, k.Second());
      forall j | 0 < j < |b| && b[j].Holds(k) ensures BufferKeeps(b[j], Recover(m, img), k, store[k]) {
        assert BufferKeeps(b[j], img, k, store[k]);
      }
    }
  }

  const BLANK_BUFFER := Buffer(0, 0, false, Plain, 0, Nobody, 0, 0, Block(0, [], []))

  lemma SameLinks(b: seq<Buffer>, c: seq<Buffer>, ring: seq<nat>)
    requires Linked(b, ring) && |c| == |b|
    requires forall j :: 0 <= j < |b| ==> c[j].next == b[j].next && c[j].prev == b[j].prev
    ensures Linked(c, ring)
  {
    forall i | -1 <= i < |ring| ensures Joined(c, ring, i) {
      assert Joined(b, ring, i);
    }
  }

  // ----- what taking a buffer does -----

  /** The flush an eviction needs: that of the victim's mount, when the victim is dirty. */
  predicate Spills(b: Buffer)
  {
    b.owner.Owned? && b.dirty
  }

  function Spilt(b: seq<Buffer>, x: nat, j: nat): Buffer
    requires x < |b| && j < |b|
  {
    if Spills(b[x]) && j != 0 then Flushed(b[j], b[x].owner.mount) else b[j]
  }

  function SpillOps(b: seq<Buffer>, x: nat): seq<Op<Place, Cell>>
    requires x < |b| <= INDEX_SLOTS + 1
  {
    if Spills(b[x]) then FlushOps(b, b[x].owner.mount) else []
  }

  function TakenBuffer(kind: Kind, owner: Owner, sub: int, block: int, data: Block): Buffer
  {
    Buffer(0, 0, false, kind, 1, owner, sub, block, data)
  }

  /** The store without the block a buffer names. */
  function Forgot(store: map<Key, Block>, b: Buffer): map<Key, Block>
  {
    if b.owner.Owned? then map k | k in store && k != b.Home() :: store[k] else store
  }

  ghost predicate SameElse(store: map<Key, Block>, next: map<Key, Block>, k: Key)
  {
    forall l :: l != k ==> (l in next <==> l in store) && (l in next ==> next[l] == store[l])
  }

  /** Every buffer but x is as it was, up to its links. */
  ghost predicate OthersSame(b: seq<Buffer>, c: seq<Buffer>, x: nat)
  {
    |c| == |b| && forall j :: 0 < j < |b| && j != x ==> SameButLinks(c[j], b[j])
  }

  predicate Unheld(b: seq<Buffer>, k: Key)
  {
    forall j :: 0 < j < |b| ==> !b[j].Holds(k)
  }

  /** A clean buffer may be given to another block. */
  lemma RetakeKeeps(b: seq<Buffer>, c: seq<Buffer>, x: nat, img: Image, store: map<Key, Block>, mounts: set<Mount>,
                    keys: set<Place>)
    requires KeysOk(b, mounts, keys) && StoreOk(b, img, store, mounts, keys)
    requires 0 < x < |b| && OthersSame(b, c, x) && !Spills(b[x])
    requires c[x].owner.Owned? ==> KeyOk(c[x].Home(), mounts, keys) && Unheld(b, c[x].Home())
    ensures KeysOk(c, mounts, keys) && StoreOk(c, img, Forgot(store, c[x]), mounts, keys)
  {
    forall i, j | 0 < i < j < |c| ensures !SameKey(c[i], c[j]) {
      assert !SameKey(b[i], b[j]);
    }
    forall k | k in Forgot(store, c[x]) ensures Keeps(c, img, k, store[k]) {
      assert Keeps(b, img, k, store[k]);
      forall j | 0 < j < |c| && c[j].Holds(k) ensures BufferKeeps(c[j], img, k, store[k]) {
        assert b[j].Holds(k);
      }
      if Unheld(c, k) {
        forall j | 0 < j < |b| && j != x ensures !b[j].Holds(k) {
          assert !c[j].Holds(k);
        }
        if b[x].Holds(k) {
          assert BufferKeeps(b[x], img, k, store[k]);
        }
      }
    }
  }

  /** Buffers that changed only their links, kinds and use counts keep the store. */
  lemma PinKeeps(b: seq<Buffer>, c: seq<Buffer>, img: Image, store: map<Key, Block>, mounts: set<Mount>,
                 keys: set<Place>)
    requires KeysOk(b, mounts, keys) && StoreOk(b, img, store, mounts, keys)
    requires |c| == |b|
    requires forall j :: 0 < j < |b| ==> SameButPins(c[j], b[j])
    ensures KeysOk(c, mounts, keys) && StoreOk(c, img, store, mounts, keys)
  {
    forall i, j | 0 < i < j < |c| ensures !SameKey(c[i], c[j]) {
      assert !SameKey(b[i], b[j]);
    }
    forall k | k in store ensures Keeps(c, img, k, store[k]) {
      assert Keeps(b, img, k, store[k]);
      forall j | 0 < j < |c| && c[j].Holds(k) ensures BufferKeeps(c[j], img, k, store[k]) {
        assert b[j].Holds(k);
      }
      if Unheld(c, k) {
        forall j | 0 < j < |b| ensures !b[j].Holds(k) {
          assert !c[j].Holds(k);
        }
      }
    }
  }

  predicate SameButPins(x: Buffer, y: Buffer)
  {
    x.owner == y.owner && x.sub == y.sub && x.block == y.block && x.data == y.data && x.dirty == y.dirty
  }

  /** Buffer x now holds `data`, read from the drive when clean or written by a client when
      dirty; either way the store may say v from here on. */
  lemma FillKeeps(b: seq<Buffer>, c: seq<Buffer>, x: nat, img: Image, store: map<Key, Block>, v: Block,
                  mounts: set<Mount>, keys: set<Place>)
    requires KeysOk(b, mounts, keys) && StoreOk(b, img, store, mounts, keys)
    requires 0 < x < |b| && OthersSame(b, c, x)
    requires b[x].owner.Owned? && c[x].owner == b[x].owner && c[x].sub == b[x].sub && c[x].block == b[x].block
    requires BufferKeeps(c[x], img, b[x].Home(), v)
    ensures KeysOk(c, mounts, keys) && StoreOk(c, img, store[b[x].Home() := v], mounts, keys)
  {
    var k0 := b[x].Home();
    forall i, j | 0 < i < j < |c| ensures !SameKey(c[i], c[j]) {
      assert !SameKey(b[i], b[j]);
    }
    forall k | k in store || k == k0 ensures Keeps(c, img, k, store[k0 := v][k]) {
      forall j | 0 < j < |c| && c[j].Holds(k) ensures BufferKeeps(c[j], img, k, store[k0 := v][k]) {
        if j != x {
          assert !SameKey(b[if j < x then j else x], b[if j < x then x else j]);
          assert Keeps(b, img, k, store[k]) && b[j].Holds(k);
        }
      }
      if Unheld(c, k) {
        assert !c[x].Holds(k);
        assert Keeps(b, img, k, store[k]);
        forall j | 0 < j < |b| ensures !b[j].Holds(k) {
          assert !c[j].Holds(k);
        }
      }
    }
  }

  lemma OneHolder(b: seq<Buffer>, x: nat, k: Key, mounts: set<Mount>, keys: set<Place>)
    requires KeysOk(b, mounts, keys) && 0 < x < |b| && b[x].Holds(k)
    ensures !Unheld(b, k) && forall j :: 0 < j < |b| && b[j].Holds(k) ==> j == x
  {
    forall j | 0 < j < |b| && b[j].Holds(k) ensures j == x {
      assert j == x || !SameKey(b[if j < x then j else x], b[if j < x then x else j]);
    }
  }

  function Disowned(b: Buffer, m: Mount): Buffer
  {
    if b.owner == Owned(m) then b.(owner := Nobody) else b
  }

  /** A mount without dirty buffers can give up all of them. */
  lemma CloseKeeps(b: seq<Buffer>, c: seq<Buffer>, m: Mount, img: Image, store: map<Key, Block>, mounts: set<Mount>,
                   keys: set<Place>)
    requires KeysOk(b, mounts, keys) && StoreOk(b, img, store, mounts, keys)
    requires |c| == |b| && forall j :: 0 < j < |b| ==> !Due(b[j], m) && c[j] == Disowned(b[j], m)
    ensures KeysOk(c, mounts, keys) && StoreOk(c, img, store, mounts, keys)
  {
    forall i, j | 0 < i < j < |c| ensures !SameKey(c[i], c[j]) {
      assert !SameKey(b[i], b[j]);
    }
    forall k | k in store ensures Keeps(c, img, k, store[k]) {
      assert Keeps(b, img, k, store[k]);
      forall j | 0 < j < |c| && c[j].Holds(k) ensures BufferKeeps(c[j], img, k, store[k]) {
        assert b[j].Holds(k);
      }
      if j :| 0 < j < |b| && b[j].Holds(k) {
        assert BufferKeeps(b[j], img, k, store[k]);
        if Unheld(c, k) {
          assert !c[j].Holds(k);
        }
      }
    }
  }

  predicate InRange(b: Buffer, m: Mount, sub: int, start: int, end: int)
  {
    b.owner == Owned(m) && b.sub == sub && start <= b.block < end
  }

  function Cleaned(b: Buffer, m: Mount, sub: int, start: int, end: int): Buffer
  {
    if InRange(b, m, sub, start, end) then b.(dirty := false) else b
  }

  /** Block k loses an unwritten change when the range is marked clean. */
  predicate Discards(b: seq<Buffer>, k: Key, sub: int, start: int, end: int, m: Mount)
  {
    exists j :: 0 < j < |b| && b[j].Holds(k) && b[j].dirty && InRange(b[j], m, sub, start, end)
  }

  lemma CleanKeeps(b: seq<Buffer>, c: seq<Buffer>, m: Mount, sub: int, start: int, end: int, img: Image,
                   store: map<Key, Block>, kept: map<Key, Block>, mounts: set<Mount>, keys: set<Place>)
    requires KeysOk(b, mounts, keys) && StoreOk(b, img, store, mounts, keys)
    requires |c| == |b| && forall j :: 0 < j < |b| ==> c[j] == Cleaned(b[j], m, sub, start, end)
    requires forall k :: k in kept ==> k in store && kept[k] == store[k] && !Discards(b, k, sub, start, end, m)
    ensures KeysOk(c, mounts, keys) && StoreOk(c, img, kept, mounts, keys)
  {
    forall i, j | 0 < i < j < |c| ensures !SameKey(c[i], c[j]) {
      assert !SameKey(b[i], b[j]);
    }
    forall k | k in kept ensures Keeps(c, img, k, kept[k]) {
      assert Keeps(b, img, k, store[k]);
      forall j | 0 < j < |c| && c[j].Holds(k) ensures BufferKeeps(c[j], img, k, kept[k]) {
        assert b[j].Holds(k) && BufferKeeps(b[j], img, k, store[k]);
      }
      if Unheld(c, k) {
        forall j | 0 < j < |b| ensures !b[j].Holds(k) {
          assert !c[j].Holds(k);
        }
      }
    }
  }

  /** A flush touches neither links nor use counts nor the names of the buffers. */
  lemma FlushedNames(b: seq<Buffer>, c: seq<Buffer>, m: Mount, ring: seq<nat>, mounts: set<Mount>, keys: set<Place>)
    requires |c| == |b| && (forall j :: 0 < j < |b| ==> c[j] == Flushed(b[j], m))
    requires Linked(b, ring) && c[0] == b[0] && KeysOk(b, mounts, keys)
    ensures Linked(c, ring) && KeysOk(c, mounts, keys)
  {
    SameLinks(b, c, ring);
    forall i, j | 0 < i < j < |c| ensures !SameKey(c[i], c[j]) {
      assert !SameKey(b[i], b[j]);
    }
  }

  class Cache {
    const buf: array<Buffer>
    const drive: Drive<Place, Cell>
    var journal: Log
    ghost var ring: seq<nat>            // the free buffers, oldest first
    ghost var mounts: set<Mount>
    ghost var store: map<Key, Block>    // the last value of every block seen or written

    /** All buffers free, on the ring in order, holding nothing. */
    constructor (numBuf: nat, drive: Drive<Place, Cell>, ghost mounts: set<Mount>)
      requires numBuf <= INDEX_SLOTS
      requires MountsOk(mounts, drive.Now()) && drive.pending == []
      ensures Valid() && fresh(buf) && buf.Length == numBuf + 1
      ensures this.drive == drive && this.mounts == mounts && store == map[]
      ensures |ring| == numBuf && forall i :: 0 <= i < numBuf ==> ring[i] == i + 1
    {
      this.drive, this.mounts, this.store := drive, mounts, map[];
      buf := new Buffer[numBuf + 1](_ => BLANK_BUFFER);
      journal := EmptyLog();
      ring := [];
      new;
      var i := 1;
      while i < numBuf + 1
        invariant 1 <= i <= numBuf + 1 && drive.Now() == old(drive.Now())
        invariant FreshUpTo(i) && journal == EmptyLog() && this.mounts == mounts && store == map[]
      {
        LinkNext(i);
        i := i + 1;
      }
      forall j | 0 < j < buf.Length ensures j in ring {
        assert ring[j - 1] == j;
      }
    }

    /** Blank buffers, those below n on the ring in order. */
    ghost predicate FreshUpTo(n: nat)
      reads this, buf
    {
      && Linked(buf[..], ring) && |ring| == n - 1
      && (forall k :: 0 <= k < |ring| ==> ring[k] == k + 1)
      && forall j :: 0 <= j < buf.Length ==> SameButLinks(buf[j], BLANK_BUFFER)
    }

    method LinkNext(i: nat)
      requires 0 < i < buf.Length && FreshUpTo(i)
      modifies this`ring, buf
      ensures FreshUpTo(i + 1)
    {
      assert Joined(buf[..], ring, |ring| - 1);
      Attach(buf[0].prev, i, |ring| - 1);
    }

    ghost predicate Valid()
      reads this, buf, drive
    {
      Usable() && journal == EmptyLog()
    }

    /** Everything but that the journal buffer is blank, which it is not during a recovery. */
    ghost predicate Usable()
      reads this, buf, drive
    {
      Holding(drive.Now())
    }

    /** The buffers stand for the store over the drive state st. */
    ghost predicate Holding(st: Disk)
      reads this, buf
    {
      && 0 < buf.Length <= INDEX_SLOTS + 1
      && RingOk() && MountsOk(mounts, st) && st.pending == []
      && KeysOk(buf[..], mounts, st.durable.Keys)
      && StoreOk(buf[..], Settled(st), store, mounts, st.durable.Keys)
    }

    /** A buffer is on the ring exactly when its use count is 0. */
    ghost predicate RingOk()
      reads this, buf
    {
      && Linked(buf[..], ring)
      && forall j :: 0 < j < buf.Length ==> (j in ring <==> buf[j].nused == 0)
    }

    // ----- the ring -----

    method Link(at: nat, x: nat)
      requires at < buf.Length && x < buf.Length && buf[at].next < buf.Length
      modifies buf
      ensures buf[..] == LinkIn(old(buf[..]), at, x)
    {
      var after := buf[at].next;
      buf[x] := buf[x].(prev := at, next := after);
      buf[after] := buf[after].(prev := x);
      buf[at] := buf[at].(next := x);
    }

    method Unlink(x: nat)
      requires x < buf.Length && buf[x].prev < buf.Length && buf[x].next < buf.Length
      modifies buf
      ensures buf[..] == LinkOut(old(buf[..]), x)
    {
      var before, after := buf[x].prev, buf[x].next;
      buf[before] := buf[before].(next := after);
      buf[after] := buf[after].(prev := before);
    }

    /** Takes buffer x off the ring, wherever it is. */
    method Detach(x: nat, ghost p: nat)
      requires Linked(buf[..], ring) && p < |ring| && ring[p] == x
      modifies this`ring, buf
      ensures Linked(buf[..], ring) && ring == Dropped(old(ring), p)
      ensures forall j :: 0 <= j < buf.Length ==> SameButLinks(buf[j], old(buf[j]))
      ensures forall j :: j in ring <==> j in old(ring) && j != x
    {
      LinkOutRing(buf[..], ring, p);
      DroppedDistinct(ring, buf.Length, p);
      Unlink(x);
      ring := Dropped(ring, p);
    }

    /** Puts buffer x on the ring behind spot p. */
    method Attach(at: nat, x: nat, ghost p: int)
      requires Linked(buf[..], ring) && -1 <= p < |ring| && at == Spot(ring, p)
      requires 0 < x < buf.Length && x !in ring
      modifies this`ring, buf
      ensures Linked(buf[..], ring) && ring == Inserted(old(ring), p, x)
      ensures forall j :: 0 <= j < buf.Length ==> SameButLinks(buf[j], old(buf[j]))
      ensures forall j :: j in ring <==> j in old(ring) || j == x
    {
      LinkInRing(buf[..], ring, p, x);
      InsertedDistinct(ring, buf.Length, p, x);
      Link(at, x);
      ring := Inserted(ring, p, x);
    }

    // ----- the journal -----

    /** The commands sent since the drive was in state st0 with ops0 recorded. */
    ghost predicate Sent(st0: Disk, ops0: seq<Op<Place, Cell>>, ops: seq<Op<Place, Cell>>)
      reads drive
    {
      drive.ops == ops0 + ops && drive.Now() == Run(st0, ops)
    }

    method JournalFlush(m: Mount)
      modifies this`journal, drive
      ensures journal == old(journal).(checksum := LogSum(old(journal.entries)))
      ensures Sent(old(drive.Now()), old(drive.ops), HeaderOps(LogHead(m.fd), Head(journal)))
    {
      journal := journal.(checksum := LogSum(journal.entries));
      RunHeader(drive.Now(), LogHead(m.fd), Head(journal));
      drive.Flush();
      drive.Put([Write(LogHead(m.fd), Head(journal))]);
      drive.Flush();
    }

    method JournalReset(m: Mount)
      modifies this`journal, drive
      ensures journal == EmptyLog()
      ensures Sent(old(drive.Now()), old(drive.ops), ResetOps(m))
    {
      journal := EmptyLog();
      RunHeader(drive.Now(), LogHead(m.fd), Head(journal));
      drive.Flush();
      drive.Put([Write(LogHead(m.fd), Head(journal))]);
      drive.Flush();
    }

    /** The journal buffer names the items so far. */
    ghost predicate Names(items: seq<Item>)
      reads this
    {
      && |items| <= INDEX_SLOTS
      && journal.magic == PFS_JOURNAL_MAGIC && journal.num == |items| && journal.entries == EntriesOf(items)
    }

    /** The first n buffers carry their checksums. */
    ghost predicate Stage(b0: seq<Buffer>, n: nat, m: Mount)
      reads buf
    {
      && |b0| == buf.Length > 0
      && (forall j :: 0 < j < n && j < buf.Length ==> buf[j] == Marked(b0[j], m))
      && (forall j :: n <= j < buf.Length ==> buf[j] == b0[j])
      && buf[0] == b0[0]
    }

    method IndexIfDue(i: nat, m: Mount, ghost b0: seq<Buffer>)
      requires 0 < i < buf.Length <= INDEX_SLOTS + 1
      requires Stage(b0, i, m) && Names(Items(b0, i, m))
      modifies this`journal, buf
      ensures Stage(b0, i + 1, m) && Names(Items(b0, i + 1, m))
    {
      if buf[i].dirty && buf[i].owner == Owned(m) {
        if buf[i].kind == Segd || buf[i].kind == Segi {
          var sum := CheckSum(buf[i].data);
          buf[i] := buf[i].(data := buf[i].data.(sum := sum));
        }
        var e := IndexEntry(2 * buf[i].block, buf[i].sub, 2 * i);
        ghost var items := Items(b0, i, m);
        assert e == EntryOf(ItemOf(b0[i], i, m));
        journal := journal.(entries := journal.entries[journal.num := e], num := journal.num + 1);
        assert journal.entries == EntriesOf(items + [ItemOf(b0[i], i, m)]);
      }
    }

    /** Indexes the due buffers, dumps every buffer, then writes the header. */
    method JournalWrite(m: Mount)
      requires 0 < buf.Length <= INDEX_SLOTS + 1 && journal == EmptyLog()
      modifies this`journal, buf, drive
      ensures Stage(old(buf[..]), buf.Length, m)
      ensures Sent(old(drive.Now()), old(drive.ops), LogOps(old(buf[..]), m))
    {
      ghost var b0, st0 := buf[..], drive.Now();
      var i := 1;
      assert EntriesOf([]) == EmptyLog().entries;
      while i < buf.Length
        invariant 1 <= i <= buf.Length
        invariant Stage(b0, i, m) && Names(Items(b0, i, m))
        invariant drive.Now() == st0 && drive.ops == old(drive.ops)
      {
        IndexIfDue(i, m, b0);
        i := i + 1;
      }
      var dump := seq(buf.Length - 1, k requires 0 <= k < buf.Length - 1 reads buf => buf[k + 1].data);
      assert dump == Dump(b0, m);
      drive.Put(DumpWrites(m, dump));
      ghost var dumpOps: seq<Op<Place, Cell>> := [Transfer(DumpWrites(m, dump))];
      assert dumpOps[..0] == [];
      assert Run(st0, dumpOps) == drive.Now();
      JournalFlush(m);
      assert journal == LogOf(Items(b0, buf.Length, m));
      Chain(st0, old(drive.ops), dumpOps, HeaderOps(LogHead(m.fd), Head(journal)));
    }

    // ----- flushing -----

    /** The copy home has passed the first n buffers. */
    ghost predicate Copied(b0: seq<Buffer>, n: nat, m: Mount)
      reads buf
    {
      && |b0| == buf.Length > 0
      && (forall j :: 0 < j < n && j < buf.Length ==> buf[j] == Flushed(b0[j], m))
      && (forall j :: n <= j < buf.Length ==> buf[j] == Marked(b0[j], m))
      && buf[0] == b0[0]
    }

    method PutNext(writes: Group, ghost st0: Disk, ghost ops0: seq<Op<Place, Cell>>, ghost ops: seq<Op<Place, Cell>>)
      requires Sent(st0, ops0, ops)
      modifies drive
      ensures Sent(st0, ops0, ops + [Transfer(writes)])
    {
      RunSnoc(st0, ops, Transfer(writes));
      drive.Put(writes);
    }

    method TransferIfDue(i: nat, m: Mount, ghost b0: seq<Buffer>, ghost st0: Disk, ghost ops0: seq<Op<Place, Cell>>)
      requires 0 < i < buf.Length
      requires Copied(b0, i, m) && Sent(st0, ops0, HomeOps(b0, i, m))
      modifies buf, drive
      ensures Copied(b0, i + 1, m) && Sent(st0, ops0, HomeOps(b0, i + 1, m))
    {
      if buf[i].owner == Owned(m) && buf[i].dirty {
        var item := Item(i, buf[i].Home(), buf[i].data);
        assert item == ItemOf(b0[i], i, m);
        HomeSnoc(b0, i, m);
        PutNext(HomeWrites(item), st0, ops0, HomeOps(b0, i, m));
        buf[i] := buf[i].(dirty := false);
      }
    }

    /** Logs, commits, copies home and forgets every dirty buffer of a mount. */
    method FlushAllDirty(m: Mount)
      requires Valid() && m in mounts
      modifies this`journal, buf, drive
      ensures Valid()
      ensures buf[0] == old(buf[0]) && forall j :: 0 < j < buf.Length ==> buf[j] == Flushed(old(buf[j]), m)
      ensures Sent(old(drive.Now()), old(drive.ops), FlushOps(old(buf[..]), m))
    {
      ghost var b0, st0 := buf[..], drive.Now();
      SendAllDirty(m);
      FlushedNames(b0, buf[..], m, ring, mounts, st0.durable.Keys);
      FlushEffect(b0, mounts, m, st0);
      FlushKeeps(b0, m, mounts, st0.durable.Keys, Settled(st0), Settled(drive.Now()), buf[..], store);
    }

    method AnyDue(m: Mount) returns (found: bool)
      ensures found <==> exists j :: 0 < j < buf.Length && Due(buf[j], m)
    {
      found := false;
      var i := 1;
      while i < buf.Length
        invariant 1 <= i
        invariant found <==> exists j :: 0 < j < i && j < buf.Length && Due(buf[j], m)
      {
        if buf[i].owner == Owned(m) && buf[i].dirty {
          found := true;
        }
        i := i + 1;
      }
    }

    method SendAllDirty(m: Mount)
      requires 0 < buf.Length <= INDEX_SLOTS + 1 && journal == EmptyLog()
      modifies this`journal, buf, drive
      ensures journal == EmptyLog() && Copied(old(buf[..]), buf.Length, m)
      ensures Sent(old(drive.Now()), old(drive.ops), FlushOps(old(buf[..]), m))
    {
      ghost var b0, st0, ops0 := buf[..], drive.Now(), drive.ops;
      var found := AnyDue(m);
      if found {
        JournalWrite(m);
        CopyHome(m, b0);
        Chain(st0, ops0, LogOps(b0, m), HomeOps(b0, |b0|, m));
      } else {
        NoneDue(b0, |b0|, m);
      }
      JournalReset(m);
      Chain(st0, ops0, LogOps(b0, m) + HomeOps(b0, |b0|, m), ResetOps(m));
      if found {
        ItemsNonempty(b0, m);
      }
    }

    method CopyHome(m: Mount, ghost b0: seq<Buffer>)
      requires Stage(b0, buf.Length, m)
      modifies buf, drive
      ensures Copied(b0, buf.Length, m)
      ensures Sent(old(drive.Now()), old(drive.ops), HomeOps(b0, |b0|, m))
    {
      ghost var st0, ops0 := drive.Now(), drive.ops;
      var i := 1;
      assert HomeGroups(Items(b0, 1, m)) == [];
      while i < buf.Length
        invariant 1 <= i <= buf.Length
        invariant Copied(b0, i, m) && Sent(st0, ops0, HomeOps(b0, i, m))
      {
        TransferIfDue(i, m, b0, st0, ops0);
        i := i + 1;
      }
    }

    // ----- taking and returning buffers -----

    /** Writes back buffer x, with everything else of its mount, when it is dirty. */
    method Spill(x: nat)
      requires Valid() && 0 < x < buf.Length
      modifies this`journal, buf, drive
      ensures Valid() && !Spills(buf[x])
      ensures forall j :: 0 <= j < buf.Length ==> buf[j] == Spilt(old(buf[..]), x, j)
      ensures Sent(old(drive.Now()), old(drive.ops), SpillOps(old(buf[..]), x))
      ensures drive.durable.Keys == old(drive.durable.Keys)
      ensures forall k :: KeyOk(k, mounts, drive.durable.Keys) && Unheld(old(buf[..]), k) ==>
        ReadBlock(Settled(drive.Now()), k) == ReadBlock(Settled(old(drive.Now())), k)
    {
      if buf[x].owner.Owned? && buf[x].dirty {
        assert KeyOk(buf[x].Home(), mounts, drive.durable.Keys);
        FlushEffect(buf[..], mounts, buf[x].owner.mount, drive.Now());
        FlushAllDirty(buf[x].owner.mount);
      }
    }

    /** Takes the buffer at the head of the ring; 0 when every buffer is in use. */
    method Alloc(owner: Owner, sub: int, block: int, kind: Kind) returns (x: nat)
      requires Usable() && (journal == EmptyLog() || ring == [] || !Spills(buf[ring[0]]))
      requires owner.Owned? ==>
        KeyOk(Key(owner.mount, sub, block), mounts, drive.durable.Keys) && Unheld(buf[..], Key(owner.mount, sub, block))
      modifies this`journal, this`ring, this`store, buf, drive
      ensures Usable() && journal == old(journal) && drive.durable.Keys == old(drive.durable.Keys)
      ensures x == 0 <==> old(ring) == []
      ensures x == 0 ==> buf[..] == old(buf[..]) && ring == [] && store == old(store)
      ensures x == 0 ==> drive.Now() == old(drive.Now()) && drive.ops == old(drive.ops)
      ensures x != 0 ==> x < buf.Length && x == old(ring[0]) && ring == old(ring[1..])
      ensures x != 0 ==> SameButLinks(buf[x], TakenBuffer(kind, owner, sub, block, Spilt(old(buf[..]), x, x).data))
      ensures x != 0 ==> forall j :: 0 < j < buf.Length && j != x ==> SameButLinks(buf[j], Spilt(old(buf[..]), x, j))
      ensures x != 0 ==> store == Forgot(old(store), buf[x])
      ensures x != 0 ==> Sent(old(drive.Now()), old(drive.ops), SpillOps(old(buf[..]), x))
      ensures owner.Owned? ==>
        ReadBlock(Settled(drive.Now()), Key(owner.mount, sub, block)) ==
        ReadBlock(Settled(old(drive.Now())), Key(owner.mount, sub, block))
    {
      RingHead(buf[..], ring);
      hide StoreOk, KeysOk, Linked, MountsOk, KeyOk;
      if buf[0].prev == 0 && buf[buf[0].prev].next == buf[0].prev {
        return 0;
      }
      x := buf[0].next;
      SpillHead(x);
      Take(x, owner, sub, block, kind);
    }

    /** Writes back the buffer at the head of the ring when it is dirty. */
    method SpillHead(x: nat)
      requires Usable() && ring != [] && x == ring[0] && 0 < x < buf.Length
      requires (journal == EmptyLog() || !Spills(buf[x]))
      modifies this`journal, buf, drive
      ensures Usable() && journal == old(journal) && drive.durable.Keys == old(drive.durable.Keys) && !Spills(buf[x])
      ensures forall j :: 0 <= j < buf.Length ==> buf[j] == Spilt(old(buf[..]), x, j)
      ensures Sent(old(drive.Now()), old(drive.ops), SpillOps(old(buf[..]), x))
      ensures forall k :: KeyOk(k, mounts, drive.durable.Keys) && Unheld(old(buf[..]), k) ==>
        Unheld(buf[..], k) && ReadBlock(Settled(drive.Now()), k) == ReadBlock(Settled(old(drive.Now())), k)
    {
      hide StoreOk, KeysOk, Linked, MountsOk, KeyOk;
      if Spills(buf[x]) {
        Spill(x);
      }
    }

    /** Gives the clean buffer at the head of the ring to another block. */
    method Take(x: nat, owner: Owner, sub: int, block: int, kind: Kind)
      requires Usable() && ring != [] && x == ring[0] && !Spills(buf[x])
      requires owner.Owned? ==>
        KeyOk(Key(owner.mount, sub, block), mounts, drive.durable.Keys) && Unheld(buf[..], Key(owner.mount, sub, block))
      modifies this`ring, this`store, buf
      ensures Usable() && 0 < x < buf.Length && ring == old(ring[1..])
      ensures SameButLinks(buf[x], TakenBuffer(kind, owner, sub, block, old(buf[x].data)))
      ensures OthersSame(old(buf[..]), buf[..], x)
      ensures store == Forgot(old(store), buf[x])
    {
      ghost var b0 := buf[..];
      buf[x] := buf[x].(dirty := false, kind := kind, owner := owner, sub := sub, block := block, nused := 1);
      SameLinks(b0, buf[..], ring);
      assert Dropped(ring, 0) == ring[1..];
      Detach(x, 0);
      RetakeKeeps(b0, buf[..], x, Settled(drive.Now()), store, mounts, drive.durable.Keys);
      store := Forgot(store, buf[x]);
    }

    /** Reads block k into a buffer just given to it. */
    method Load(x: nat, ghost v: Block)
      requires Valid() && 0 < x < buf.Length && buf[x].owner.Owned?
      requires Carries(ReadBlock(Settled(drive.Now()), buf[x].Home()), v)
      modifies this`store, buf
      ensures Valid() && store == old(store)[old(buf[x]).Home() := v]
      ensures buf[..] == old(buf[..])[x := old(buf[x]).(
        data := ReadBlock(Settled(drive.Now()), old(buf[x]).Home()), dirty := false)]
    {
      ghost var b0 := buf[..];
      assert KeyOk(buf[x].Home(), mounts, drive.durable.Keys);
      ApplyKeys(drive.durable, drive.pending);
      var first := drive.Get(buf[x].Home().First());
      var second := drive.Get(buf[x].Home().Second());
      buf[x] := buf[x].(data := ToBlock(first, second), dirty := false);
      SameLinks(b0, buf[..], ring);
      FillKeeps(b0, buf[..], x, Settled(drive.Now()), store, v, mounts, drive.durable.Keys);
      store := store[buf[x].Home() := v];
    }

    /** One more user; the first takes the buffer off the ring. */
    method Pin(x: nat, kind: Kind)
      requires Valid() && 0 < x < buf.Length
      modifies this`ring, buf
      ensures Valid()
      ensures SameButLinks(buf[x], old(buf[x]).(kind := kind, nused := old(buf[x]).nused + 1))
      ensures OthersSame(old(buf[..]), buf[..], x)
      ensures forall j :: j in ring <==> j in old(ring) && j != x
    {
      ghost var b0 := buf[..];
      buf[x] := buf[x].(kind := kind);
      SameLinks(b0, buf[..], ring);
      if buf[x].nused == 0 {
        ghost var p :| 0 <= p < |ring| && ring[p] == x;
        Detach(x, p);
      }
      ghost var b1 := buf[..];
      buf[x] := buf[x].(nused := buf[x].nused + 1);
      SameLinks(b1, buf[..], ring);
      PinKeeps(b0, buf[..], Settled(drive.Now()), store, mounts, drive.durable.Keys);
    }

    method UsedAdd(x: nat)
      requires Valid() && 0 < x < buf.Length && buf[x].nused > 0
      modifies buf
      ensures Valid() && buf[..] == old(buf[..])[x := old(buf[x]).(nused := old(buf[x]).nused + 1)]
    {
      ghost var b0 := buf[..];
      buf[x] := buf[x].(nused := buf[x].nused + 1);
      SameLinks(b0, buf[..], ring);
      PinKeeps(b0, buf[..], Settled(drive.Now()), store, mounts, drive.durable.Keys);
    }

    /** One user fewer; the last puts the buffer back, an owned one behind all others and an
        invalidated one before them.  The drive is not involved. */
    method Free(x: nat, ghost st: Disk)
      requires Holding(st) && 0 < x < buf.Length
      modifies this`ring, buf
      ensures Holding(st)
      ensures OthersSame(old(buf[..]), buf[..], x)
      ensures SameButLinks(buf[x], old(buf[x]).(nused := if old(buf[x]).nused == 0 then 0 else old(buf[x]).nused - 1))
      ensures ring ==
        if old(buf[x]).nused != 1 then old(ring)
        else if old(buf[x]).owner.Owned? then old(ring) + [x]
        else [x] + old(ring)
    {
      if buf[x].nused == 0 {
        return;
      }
      ghost var b0 := buf[..];
      buf[x] := buf[x].(nused := buf[x].nused - 1);
      SameLinks(b0, buf[..], ring);
      PinKeeps(b0, buf[..], Settled(st), store, mounts, st.durable.Keys);
      if buf[x].nused == 0 {
        PutBack(x, st);
      }
    }

    method PutBack(x: nat, ghost st: Disk)
      requires 0 < buf.Length <= INDEX_SLOTS + 1 && MountsOk(mounts, st) && st.pending == []
      requires Linked(buf[..], ring)
      requires KeysOk(buf[..], mounts, st.durable.Keys)
      requires StoreOk(buf[..], Settled(st), store, mounts, st.durable.Keys)
      requires 0 < x < buf.Length && buf[x].nused == 0 && x !in ring
      requires forall j :: 0 < j < buf.Length && j != x ==> (j in ring <==> buf[j].nused == 0)
      modifies this`ring, buf
      ensures Holding(st)
      ensures forall j :: 0 < j < buf.Length ==> SameButLinks(buf[j], old(buf[j]))
      ensures ring == if buf[x].owner.Owned? then old(ring) + [x] else [x] + old(ring)
    {
      ghost var b0 := buf[..];
      assert Joined(buf[..], ring, |ring| - 1);
      assert Inserted(ring, |ring| - 1, x) == ring + [x];
      assert Inserted(ring, -1, x) == [x] + ring;
      if buf[x].owner.Owned? {
        Attach(buf[0].prev, x, |ring| - 1);
      } else {
        Attach(0, x, -1);
      }
      PinKeeps(b0, buf[..], Settled(st), store, mounts, st.durable.Keys);
    }

    /** The value block k has for its readers. */
    ghost function Value(k: Key): Block
      reads this, drive
    {
      if k in store then store[k] else ReadBlock(Settled(drive.Now()), k)
    }

    /** Looks for the buffer of a block. */
    method Find(m: Mount, sub: int, block: int) returns (x: nat)
      ensures x == 0 ==> Unheld(buf[..], Key(m, sub, block))
      ensures x != 0 ==> x < buf.Length && buf[x].Holds(Key(m, sub, block))
    {
      x := 1;
      while x < buf.Length
        invariant 1 <= x
        invariant forall j :: 0 < j < x && j < buf.Length ==> !buf[j].Holds(Key(m, sub, block))
      {
        if buf[x].owner == Owned(m) && buf[x].block == block && buf[x].sub == sub {
          return;
        }
        x := x + 1;
      }
      x := 0;
    }

    /** Takes a buffer for a block that has none, and loads it when asked to. */
    method GetMissing(m: Mount, sub: int, block: int, kind: Kind, load: bool) returns (x: nat)
      requires Valid() && KeyOk(Key(m, sub, block), mounts, drive.durable.Keys)
      requires Unheld(buf[..], Key(m, sub, block))
      modifies this`journal, this`ring, this`store, buf, drive
      ensures Valid() && drive.durable.Keys == old(drive.durable.Keys)
      ensures x == 0 <==> old(ring) == []
      ensures x != 0 ==> x < buf.Length && x == old(ring[0]) && ring == old(ring[1..])
      ensures x != 0 ==> SameButLinks(buf[x], TakenBuffer(kind, Owned(m), sub, block, buf[x].data))
      ensures x != 0 ==> forall j :: 0 < j < buf.Length && j != x ==> SameButLinks(buf[j], Spilt(old(buf[..]), x, j))
      ensures x != 0 ==> Sent(old(drive.Now()), old(drive.ops), SpillOps(old(buf[..]), x))
      ensures x != 0 && load ==> Carries(buf[x].data, old(Value(Key(m, sub, block))))
      ensures SameElse(old(store), store, Key(m, sub, block))
      ensures x != 0 && load ==> Key(m, sub, block) in store
      ensures Key(m, sub, block) in store ==> store[Key(m, sub, block)] == old(Value(Key(m, sub, block)))
    {
      ghost var k := Key(m, sub, block);
      ghost var v := Value(k);
      assert Carries(ReadBlock(Settled(drive.Now()), k), v) by {
        assert k in store ==> Keeps(buf[..], Settled(drive.Now()), k, store[k]);
      }
      x := Alloc(Owned(m), sub, block, kind);
      if x == 0 || !load {
        return;
      }
      Load(x, v);
    }

    /** Pins the buffer of a block, taking and loading one when the block has none. */
    method GetData(m: Mount, sub: int, block: int, kind: Kind, load: bool) returns (x: nat)
      requires Valid() && KeyOk(Key(m, sub, block), mounts, drive.durable.Keys)
      modifies this`journal, this`ring, this`store, buf, drive
      ensures Valid() && drive.durable.Keys == old(drive.durable.Keys)
      ensures x == 0 <==> Unheld(old(buf[..]), Key(m, sub, block)) && old(ring) == []
      ensures x != 0 ==> x < buf.Length && buf[x].nused > 0 && buf[x].Holds(Key(m, sub, block)) && buf[x].kind == kind
      // a block with a buffer: only that buffer is touched, and it keeps its contents
      ensures x != 0 && old(buf[x]).Holds(Key(m, sub, block)) ==>
        && SameButLinks(buf[x], old(buf[x]).(kind := kind, nused := old(buf[x]).nused + 1))
        && OthersSame(old(buf[..]), buf[..], x) && store == old(store)
        && drive.Now() == old(drive.Now()) && drive.ops == old(drive.ops)
      // a block without one: the oldest free buffer is spilled and taken
      ensures x != 0 && Unheld(old(buf[..]), Key(m, sub, block)) ==>
        && x == old(ring[0]) && ring == old(ring[1..]) && buf[x].nused == 1 && !buf[x].dirty
        && (forall j :: 0 < j < buf.Length && j != x ==> SameButLinks(buf[j], Spilt(old(buf[..]), x, j)))
        && Sent(old(drive.Now()), old(drive.ops), SpillOps(old(buf[..]), x))
      // a loaded read sees the block's last value
      ensures x != 0 && load && (Key(m, sub, block) in old(store) || Unheld(old(buf[..]), Key(m, sub, block))) ==>
        Carries(buf[x].data, old(Value(Key(m, sub, block)))) && Key(m, sub, block) in store
      // and no block's value changes
      ensures SameElse(old(store), store, Key(m, sub, block))
      ensures Key(m, sub, block) in store ==> store[Key(m, sub, block)] == old(Value(Key(m, sub, block)))
    {
      x := Find(m, sub, block);
      if x == 0 {
        x := GetMissing(m, sub, block, kind, load);
      } else {
        ghost var k := Key(m, sub, block);
        OneHolder(buf[..], x, k, mounts, drive.durable.Keys);
        assert k in store ==> Carries(buf[x].data, store[k]) by {
          assert k in store ==> Keeps(buf[..], Settled(drive.Now()), k, store[k]);
        }
        Pin(x, kind);
      }
    }

    /** A client of a pinned buffer changes its contents and marks it dirty. */
    method Modify(x: nat, data: Block)
      requires Valid() && 0 < x < buf.Length && buf[x].nused > 0 && buf[x].owner.Owned?
      modifies this`store, buf
      ensures Valid() && store == old(store)[old(buf[x]).Home() := data]
      ensures buf[..] == old(buf[..])[x := old(buf[x]).(data := data, dirty := true)]
    {
      ghost var b0 := buf[..];
      assert KeyOk(buf[x].Home(), mounts, drive.durable.Keys);
      buf[x] := buf[x].(data := data, dirty := true);
      SameLinks(b0, buf[..], ring);
      FillKeeps(b0, buf[..], x, Settled(drive.Now()), store, data, mounts, drive.durable.Keys);
      store := store[buf[x].Home() := data];
    }

    /** A buffer that belongs to no mount, as recovery uses. */
    method AllocClean() returns (x: nat)
      requires Usable() && (journal == EmptyLog() || ring == [] || !Spills(buf[ring[0]]))
      modifies this`journal, this`ring, this`store, buf, drive
      ensures Usable() && journal == old(journal) && drive.durable.Keys == old(drive.durable.Keys)
      ensures store == old(store)
      ensures x == 0 <==> old(ring) == []
      ensures x == 0 || !old(Spills(buf[ring[0]])) ==> drive.Now() == old(drive.Now()) && drive.ops == old(drive.ops)
      ensures x != 0 ==> x < buf.Length && x !in ring && buf[x].owner == Nobody && buf[x].nused == 1
      ensures x != 0 ==> x == old(ring[0]) && ring == old(ring[1..])
      ensures x != 0 ==> Sent(old(drive.Now()), old(drive.ops), SpillOps(old(buf[..]), x))
    {
      x := Alloc(Nobody, 0, 0, Plain);
    }

    /** Writes back a mount's dirty buffers and takes all its buffers away from it. */
    method Close(m: Mount)
      requires Valid() && m in mounts
      modifies this`journal, buf, drive
      ensures Valid()
      ensures Sent(old(drive.Now()), old(drive.ops), FlushOps(old(buf[..]), m))
      ensures forall j :: 0 < j < buf.Length ==>
        buf[j] == if old(buf[j]).owner == Owned(m) then Flushed(old(buf[j]), m).(owner := Nobody) else old(buf[j])
    {
      FlushAllDirty(m);
      ghost var b0 := buf[..];
      DisownAll(m);
      SameLinks(b0, buf[..], ring);
      CloseKeeps(b0, buf[..], m, Settled(drive.Now()), store, mounts, drive.durable.Keys);
    }

    method DisownAll(m: Mount)
      requires buf.Length > 0
      modifies buf
      ensures buf[0] == old(buf[0]) && forall j :: 0 < j < buf.Length ==> buf[j] == Disowned(old(buf[j]), m)
    {
      ghost var b0 := buf[..];
      var i := 1;
      while i < buf.Length
        invariant 1 <= i <= buf.Length && buf[0] == b0[0]
        invariant forall j :: 0 < j < i ==> buf[j] == Disowned(b0[j], m)
        invariant forall j :: i <= j < buf.Length ==> buf[j] == b0[j]
      {
        if buf[i].owner == Owned(m) {
          buf[i] := buf[i].(owner := Nobody);
        }
        i := i + 1;
      }
    }

    /** Discards changes to blocks that are no longer wanted: the one way a dirty buffer loses
        its contents. */
    method MarkClean(m: Mount, sub: int, start: int, end: int)
      requires Valid()
      modifies this`store, buf
      ensures Valid()
      ensures buf[0] == old(buf[0])
      ensures forall j :: 0 < j < buf.Length ==> buf[j] == Cleaned(old(buf[j]), m, sub, start, end)
      ensures forall k :: k in store <==> k in old(store) && !Discards(old(buf[..]), k, sub, start, end, m)
      ensures forall k :: k in store ==> store[k] == old(store)[k]
    {
      ghost var b0 := buf[..];
      CleanAll(m, sub, start, end);
      SameLinks(b0, buf[..], ring);
      store := map k | k in store && !Discards(b0, k, sub, start, end, m) :: store[k];
      CleanKeeps(b0, buf[..], m, sub, start, end, Settled(drive.Now()), old(store), store, mounts, drive.durable.Keys);
    }

    method CleanAll(m: Mount, sub: int, start: int, end: int)
      requires buf.Length > 0
      modifies buf
      ensures buf[0] == old(buf[0])
      ensures forall j :: 0 < j < buf.Length ==> buf[j] == Cleaned(old(buf[j]), m, sub, start, end)
    {
      ghost var b0 := buf[..];
      var i := 1;
      while i < buf.Length
        invariant 1 <= i <= buf.Length && buf[0] == b0[0]
        invariant forall j :: 0 < j < i ==> buf[j] == Cleaned(b0[j], m, sub, start, end)
        invariant forall j :: i <= j < buf.Length ==> buf[j] == b0[j]
      {
        if buf[i].owner == Owned(m) && buf[i].sub == sub {
          if buf[i].block >= start && buf[i].block < end {
            buf[i] := buf[i].(dirty := false);
          }
        }
        i := i + 1;
      }
    }

    // ----- recovery -----

    /** Replays a mount's log when it is believed and asks for something, empties it, and the
        mount is ready for use.  The buffer the copies pass through must not need a spill, for
        a spill would use the journal buffer the log was read into. */
    method JournalRestore(m: Mount) returns (ok: bool)
      requires Valid() && LogSane(m, drive.durable) && HasLog(m, drive.durable.Keys)
      requires forall n :: n in mounts ==> n.fd != m.fd
      requires ring != [] ==> !Spills(buf[ring[0]])
      modifies this, buf, drive
      ensures !ok <==> old(ring) == [] && Asks(old(drive.durable)[LogHead(m.fd)].log)
      ensures !ok ==> drive.Now() == old(drive.Now()) && mounts == old(mounts)
      ensures ok ==> Valid() && mounts == old(mounts) + {m} && store == old(store) && ring == old(ring)
      ensures ok ==> Sent(old(drive.Now()), old(drive.ops), RestoreOps(m, old(drive.durable)))
      ensures ok ==> drive.Now() == State(Recover(m, old(drive.durable)), [])
    {
      ghost var img := drive.durable;
      assert img == Settled(drive.Now());
      var header := drive.Get(LogHead(m.fd));
      journal := header.log;
      if journal.magic == PFS_JOURNAL_MAGIC && journal.checksum == LogSum(journal.entries) && journal.num != 0 {
        ok := Replay(m, img);
        if !ok {
          return;
        }
      }
      FinishRestore(m, img, old(drive.ops));
      ok := true;
    }

    method Replay(m: Mount, ghost img: Image) returns (ok: bool)
      requires Holding(State(img, [])) && drive.Now() == State(img, []) && LogSane(m, img) && HasLog(m, img.Keys)
      requires journal == img[LogHead(m.fd)].log && Asks(journal)
      requires ring != [] ==> !Spills(buf[ring[0]])
      modifies this`journal, this`ring, this`store, buf, drive
      ensures ok <==> old(ring) != []
      ensures Holding(State(img, [])) && store == old(store) && mounts == old(mounts) && (ok ==> ring == old(ring))
      ensures Sent(State(img, []), old(drive.ops),
        if ok then Transfers(Replayed(m, img, img[LogHead(m.fd)].log)) else [])
    {
      ghost var ring0 := ring;
      var x := AllocClean();
      ok := x != 0;
      if ok {
        CopyLog(m, img);
        Free(x, State(img, []));
        assert ring == [ring0[0]] + ring0[1..];
      }
    }

    method FinishRestore(m: Mount, ghost img: Image, ghost ops0: seq<Op<Place, Cell>>)
      requires Holding(State(img, [])) && LogSane(m, img) && HasLog(m, img.Keys)
      requires forall n :: n in mounts ==> n.fd != m.fd
      requires Sent(State(img, []), ops0, Transfers(Replayed(m, img, img[LogHead(m.fd)].log)))
      modifies this`journal, this`mounts, drive
      ensures Valid() && mounts == old(mounts) + {m}
      ensures Sent(State(img, []), ops0, RestoreOps(m, img)) && drive.Now() == State(Recover(m, img), [])
    {
      ghost var replay := Transfers(Replayed(m, img, img[LogHead(m.fd)].log));
      JournalReset(m);
      Chain(State(img, []), ops0, replay, ResetOps(m));
      InstallDone(img, RestorePlan(m, img));
      RecoverMounts(m, img, mounts);
      RecoverKeeps(m, buf[..], img, store, mounts);
      mounts := mounts + {m};
    }

    /** The replay loop: every indexed buffer is read from the log and written home. */
    method CopyLog(m: Mount, ghost img: Image)
      requires LogSane(m, img) && drive.Now() == State(img, []) && HasLog(m, img.Keys)
      requires journal == img[LogHead(m.fd)].log && Asks(journal)
      modifies drive
      ensures Sent(State(img, []), old(drive.ops), Transfers(RestoreGroups(m, img, journal, journal.num)))
    {
      ghost var ops0 := drive.ops;
      var i := 0;
      while i < journal.num
        invariant 0 <= i <= journal.num
        invariant Sent(State(img, []), ops0, Transfers(RestoreGroups(m, img, journal, i)))
      {
        CopyEntry(m, i, img, ops0);
        i := i + 1;
      }
    }

    method CopyEntry(m: Mount, i: nat, ghost img: Image, ghost ops0: seq<Op<Place, Cell>>)
      requires LogSane(m, img) && HasLog(m, img.Keys)
      requires journal == img[LogHead(m.fd)].log && Asks(journal) && i < journal.num
      requires Sent(State(img, []), ops0, Transfers(RestoreGroups(m, img, journal, i)))
      modifies drive
      ensures Sent(State(img, []), ops0, Transfers(RestoreGroups(m, img, journal, i + 1)))
    {
      hide HasLog, EntrySum, Run, Transfers, RestoreGroups, Apply;
      CopyStep(m, img, i, drive.Now());
      var e := journal.entries[i];
      var first := drive.Get(LogPlace(m, e.logSector));
      var second := drive.Get(LogPlace(m, e.logSector + 1));
      PutNext(PairWrites(At(m.fd, e.sub, e.sector), At(m.fd, e.sub, e.sector + 1), first, second),
        State(img, []), ops0, Transfers(RestoreGroups(m, img, journal, i)));
    }
  }

  /** More buffers than the log can index are refused. */
  method Init(numBuf: nat, drive: Drive<Place, Cell>, ghost mounts: set<Mount>) returns (cache: Cache?)
    requires MountsOk(mounts, drive.Now()) && drive.pending == []
    ensures cache == null <==> numBuf > INDEX_SLOTS
    ensures cache != null ==> fresh(cache) && cache.Valid() && cache.buf.Length == numBuf + 1
    ensures cache != null ==> cache.drive == drive && cache.mounts == mounts && cache.store == map[]
  {
    if numBuf > INDEX_SLOTS {
      return null;
    }
    cache := new Cache(numBuf, drive, mounts);
  }
}
