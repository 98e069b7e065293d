/** The file system's metadata journal: a dump of every cache buffer with an index of the
    dirty ones. */
module PfsJournal {
  import opened Words
  import opened Device
  import opened WriteAhead

  const PFS_JOURNAL_MAGIC: word := 0x5046534C
  const INDEX_SLOTS: int := 127      // entries in the log header
  const LOG_SECTORS: int := 256      // 128 KB of zones, header included

  /** A mounted file system: its descriptor and the sector its log starts at. */
  datatype Mount = Mount(fd: int, logStart: int)

  /** Where a sector lives.  The two sectors of a log header are one place: their write is
      taken to be atomic. */
  datatype Place = LogHead(fd: int) | At(fd: int, sub: int, sector: int)

  /** One indexed buffer: its home sector in partition sub, and its sector in the log. */
  datatype IndexEntry = IndexEntry(sector: int, sub: int, logSector: int)

  datatype Log = Log(magic: word, num: int, checksum: int, entries: seq<IndexEntry>)

  datatype Cell = Raw(sector: Sector) | Head(log: Log)

  type Image = map<Place, Cell>
  type Disk = State<Place, Cell>
  type Group = seq<Write<Place, Cell>>

  /** A metadata block of a mount is two sectors of one of its partitions. */
  datatype Key = Key(mount: Mount, sub: int, block: int)
  {
    function First(): Place
    {
      At(mount.fd, sub, 2 * block)
    }

    function Second(): Place
    {
      At(mount.fd, sub, 2 * block + 1)
    }
  }

  /** A dirty buffer due to be written: the slot of its buffer, its home and its contents. */
  datatype Item = Item(slot: int, key: Key, data: Block)

  const BLANK_ENTRY := IndexEntry(0, 0, 0)

  function EntrySum(entries: seq<IndexEntry>): word
  {
    if entries == [] then 0
    else
      (EntrySum(entries[..|entries| - 1]) + entries[|entries| - 1].sector + entries[|entries| - 1].sub
        + 0x1_0000 * entries[|entries| - 1].logSector) % WORD_RANGE
  }

  /** The journal checksum: sixteen bits of the sum of the header's words from the third on. */
  function LogSum(entries: seq<IndexEntry>): int
  {
    EntrySum(entries) % 0x1_0000
  }

  /** The header is believed. */
  predicate Valid(log: Log)
  {
    log.magic == PFS_JOURNAL_MAGIC && log.checksum == LogSum(log.entries)
  }

  function EmptyLog(): (log: Log)
    ensures log.num == 0 && |log.entries| == INDEX_SLOTS
  {
    Log(PFS_JOURNAL_MAGIC, 0, 0, seq(INDEX_SLOTS, _ => BLANK_ENTRY))
  }

  lemma {:induction false} BlankSum(entries: seq<IndexEntry>)
    requires forall i :: 0 <= i < |entries| ==> entries[i] == BLANK_ENTRY
    ensures EntrySum(entries) == 0
  {
    if entries != [] {
      BlankSum(entries[..|entries| - 1]);
    }
  }

  /** An entry as two words of the header. */
  function EntryWords(e: IndexEntry): int
  {
    e.sector + e.sub + 0x1_0000 * e.logSector
  }

  lemma {:induction false} ChangedEntry(entries: seq<IndexEntry>, i: nat, e: IndexEntry)
    requires i < |entries|
    ensures EntrySum(entries[i := e]) == (EntrySum(entries) - EntryWords(entries[i]) + EntryWords(e)) % WORD_RANGE
  {
    var n, t := |entries| - 1, entries[i := e];
    assert EntrySum(entries) == (EntrySum(entries[..n]) + EntryWords(entries[n])) % WORD_RANGE;
    assert EntrySum(t) == (EntrySum(t[..n]) + EntryWords(t[n])) % WORD_RANGE;
    if i == n {
      assert t[..n] == entries[..n];
    } else {
      assert t[..n] == entries[..n][i := e];
      ChangedEntry(entries[..n], i, e);
    }
    hide EntrySum, EntryWords;
    ChangedStep(EntrySum(entries[..n]), EntryWords(entries[n]), EntryWords(entries[i]), EntryWords(e));
  }

  /** Exactly which change of an entry the checksum misses: one that adds a multiple of 2^16 to the sum of its
      address and its partition.  Where in the log the block is, it never notices. */
  lemma ChangeUnnoticed(entries: seq<IndexEntry>, i: nat, e: IndexEntry)
    requires i < |entries|
    ensures LogSum(entries[i := e]) == LogSum(entries) <==>
      (e.sector + e.sub) % 0x1_0000 == (entries[i].sector + entries[i].sub) % 0x1_0000
  {
    ChangedEntry(entries, i, e);
    var was, now := entries[i].sector + entries[i].sub, e.sector + e.sub;
    SixteenBits(EntrySum(entries), was, entries[i].logSector, now, e.logSector);
  }

  lemma SixteenBits(sum: int, was: int, wasLog: int, now: int, nowLog: int)
    ensures
      var next := (sum - (was + 0x1_0000 * wasLog) + now + 0x1_0000 * nowLog) % WORD_RANGE;
      next % 0x1_0000 == sum % 0x1_0000 <==> now % 0x1_0000 == was % 0x1_0000
  {
  }

  lemma EmptyValid()
    ensures Valid(EmptyLog())
  {
    BlankSum(EmptyLog().entries);
  }

  // ----- what a flush sends -----

  function PairWrites(a: Place, b: Place, first: Cell, second: Cell): Group
  {
    [Write(a, first), Write(b, second)]
  }

  function HomeWrites(item: Item): Group
  {
    PairWrites(item.key.First(), item.key.Second(), Raw(item.data.First()), Raw(item.data.Second()))
  }

  function LogPlace(m: Mount, offset: int): Place
  {
    At(m.fd, 0, m.logStart + offset)
  }

  function SlotWrites(m: Mount, dump: seq<Block>, i: int): Group
    requires 0 <= i < |dump|
  {
    PairWrites(LogPlace(m, 2 * i + 2), LogPlace(m, 2 * i + 3), Raw(dump[i].First()), Raw(dump[i].Second()))
  }

  function SlotGroups(m: Mount, dump: seq<Block>): (groups: seq<Group>)
    ensures |groups| == |dump|
  {
    seq(|dump|, i requires 0 <= i < |dump| => SlotWrites(m, dump, i))
  }

  /** Every buffer in slot order, two sectors each, behind the two sectors of the header. */
  function DumpWrites(m: Mount, dump: seq<Block>): Group
  {
    Flatten(SlotGroups(m, dump))
  }

  function EntryOf(item: Item): IndexEntry
  {
    IndexEntry(2 * item.key.block, item.key.sub, 2 * item.slot)
  }

  function EntriesOf(batch: seq<Item>): (entries: seq<IndexEntry>)
    requires |batch| <= INDEX_SLOTS
    ensures |entries| == INDEX_SLOTS
  {
    seq(INDEX_SLOTS, j requires 0 <= j < INDEX_SLOTS => if j < |batch| then EntryOf(batch[j]) else BLANK_ENTRY)
  }

  function LogOf(batch: seq<Item>): Log
    requires |batch| <= INDEX_SLOTS
  {
    Log(PFS_JOURNAL_MAGIC, |batch|, LogSum(EntriesOf(batch)), EntriesOf(batch))
  }

  function HomeGroups(batch: seq<Item>): (groups: seq<Group>)
    ensures |groups| == |batch|
  {
    seq(|batch|, j requires 0 <= j < |batch| => HomeWrites(batch[j]))
  }

  function PlanOf(m: Mount, dump: seq<Block>, batch: seq<Item>): Plan<Place, Cell>
    requires |batch| <= INDEX_SLOTS
  {
    Plan(LogHead(m.fd), Head(LogOf(batch)), Head(EmptyLog()), [DumpWrites(m, dump)], HomeGroups(batch))
  }

  // ----- what recovery sends -----

  function Cellar(img: Image, p: Place): Cell
  {
    if p in img then img[p] else Raw(Sector([]))
  }

  function RestoreGroup(m: Mount, img: Image, e: IndexEntry): Group
  {
    PairWrites(At(m.fd, e.sub, e.sector), At(m.fd, e.sub, e.sector + 1),
      Cellar(img, LogPlace(m, e.logSector)), Cellar(img, LogPlace(m, e.logSector + 1)))
  }

  function RestoreGroups(m: Mount, img: Image, log: Log, n: int): (groups: seq<Group>)
    requires 0 <= n <= |log.entries|
    ensures |groups| == n
  {
    seq(n, i requires 0 <= i < n => RestoreGroup(m, img, log.entries[i]))
  }

  /** The sectors the journal owns. */
  predicate InLog(m: Mount, p: Place)
  {
    match p
    case LogHead(fd) => fd == m.fd
    case At(fd, sub, sector) => fd == m.fd && sub == 0 && m.logStart <= sector < m.logStart + LOG_SECTORS
  }

  /** The header and 256 sectors of the main partition, from the start of the log on. */
  lemma InLogExactly(m: Mount, p: Place)
    ensures InLog(m, p) <==> p == LogHead(m.fd) || exists i :: 0 <= i < 256 && p == LogPlace(m, i)
  {
    if p.At? && InLog(m, p) {
      assert p == LogPlace(m, p.sector - m.logStart);
    }
  }

  ghost predicate EntrySane(m: Mount, keys: set<Place>, e: IndexEntry)
  {
    && At(m.fd, e.sub, e.sector) in keys && At(m.fd, e.sub, e.sector + 1) in keys
    && !InLog(m, At(m.fd, e.sub, e.sector)) && !InLog(m, At(m.fd, e.sub, e.sector + 1))
    && 2 <= e.logSector && e.logSector + 1 < LOG_SECTORS
  }

  /** The log header is on the drive, and an index that asks to be replayed can be. */
  ghost predicate LogSane(m: Mount, img: Image)
  {
    && LogHead(m.fd) in img && img[LogHead(m.fd)].Head?
    && IndexSane(m, img.Keys, img[LogHead(m.fd)].log)
  }

  ghost predicate IndexSane(m: Mount, keys: set<Place>, log: Log)
  {
    Valid(log) ==>
      && 0 <= log.num <= |log.entries|
      && forall i :: 0 <= i < log.num ==> EntrySane(m, keys, log.entries[i])
  }

  /** The blocks a recovery copies: none when the header is not believed. */
  function Replayed(m: Mount, img: Image, log: Log): seq<Group>
    requires Valid(log) ==> 0 <= log.num <= |log.entries|
  {
    if Valid(log) then RestoreGroups(m, img, log, log.num) else []
  }

  function RestorePlan(m: Mount, img: Image): Plan<Place, Cell>
    requires LogSane(m, img)
  {
    Plan(LogHead(m.fd), img[LogHead(m.fd)], Head(EmptyLog()), [], Replayed(m, img, img[LogHead(m.fd)].log))
  }

  /** Every recovery ends by emptying the header, also when there is nothing to replay. */
  function RestoreOps(m: Mount, img: Image): seq<Op<Place, Cell>>
    requires LogSane(m, img)
  {
    InstallOps(RestorePlan(m, img))
  }

  function Recover(m: Mount, img: Image): Image
    requires LogSane(m, img)
  {
    Run(State(img, []), RestoreOps(m, img)).durable
  }

  lemma RecoverInstalls(m: Mount, img: Image)
    requires LogSane(m, img)
    ensures Recover(m, img) == Installed(img, RestorePlan(m, img))
  {
    InstallDone(img, RestorePlan(m, img));
  }

  // ----- geometry -----

  lemma PairTouches(a: Place, b: Place, first: Cell, second: Cell, p: Place)
    ensures Touches(PairWrites(a, b, first, second), p) <==> p == a || p == b
  {
    var w := PairWrites(a, b, first, second);
    assert w[0].addr == a && w[1].addr == b;
  }

  lemma HomeTouches(batch: seq<Item>, p: Place)
    ensures Touches(Flatten(HomeGroups(batch)), p) <==>
      exists j :: 0 <= j < |batch| && (p == batch[j].key.First() || p == batch[j].key.Second())
  {
    var g := HomeGroups(batch);
    FlattenTouches(g, p);
    forall j | 0 <= j < |batch|
      ensures Touches(g[j], p) <==> p == batch[j].key.First() || p == batch[j].key.Second()
    {
      PairTouches(batch[j].key.First(), batch[j].key.Second(),
        Raw(batch[j].data.First()), Raw(batch[j].data.Second()), p);
    }
  }

  lemma DumpTouches(m: Mount, dump: seq<Block>, p: Place)
    ensures Touches(Flatten([DumpWrites(m, dump)]), p) <==>
      p.At? && p.fd == m.fd && p.sub == 0 && m.logStart + 2 <= p.sector < m.logStart + 2 + 2 * |dump|
  {
    var g := SlotGroups(m, dump);
    FlattenOne(DumpWrites(m, dump));
    FlattenTouches(g, p);
    forall i | 0 <= i < |dump|
      ensures Touches(g[i], p) <==> p == LogPlace(m, 2 * i + 2) || p == LogPlace(m, 2 * i + 3)
    {
      PairTouches(LogPlace(m, 2 * i + 2), LogPlace(m, 2 * i + 3),
        Raw(dump[i].First()), Raw(dump[i].Second()), p);
    }
    if p.At? && p.fd == m.fd && p.sub == 0 && m.logStart + 2 <= p.sector < m.logStart + 2 + 2 * |dump| {
      var i := (p.sector - m.logStart - 2) / 2;
      assert Touches(g[i], p);
    }
  }

  /** The batch lies on the drive, clear of the log, and fits the index and the log area. */
  ghost predicate Placed(m: Mount, dump: seq<Block>, batch: seq<Item>, keys: set<Place>)
  {
    && |batch| <= |dump| <= INDEX_SLOTS
    && LogHead(m.fd) in keys
    && (forall i :: 0 <= i < LOG_SECTORS ==> LogPlace(m, i) in keys)
    && (forall j :: 0 <= j < |batch| ==> ItemPlaced(m, dump, batch[j], keys))
    && (forall i, j :: 0 <= i < j < |batch| ==> batch[i].key != batch[j].key)
  }

  ghost predicate ItemPlaced(m: Mount, dump: seq<Block>, item: Item, keys: set<Place>)
  {
    && item.key.mount == m
    && item.key.First() in keys && item.key.Second() in keys
    && !InLog(m, item.key.First()) && !InLog(m, item.key.Second())
    && 1 <= item.slot <= |dump| && item.data == dump[item.slot - 1]
  }

  /** The dump ends inside the log area and the index has room. */
  lemma PlanSound(m: Mount, dump: seq<Block>, batch: seq<Item>, keys: set<Place>)
    requires Placed(m, dump, batch, keys)
    ensures Sound(PlanOf(m, dump, batch), keys)
    ensures forall p :: Touches(Flatten([DumpWrites(m, dump)]), p) ==> InLog(m, p)
    ensures forall p :: InLog(m, p) ==> !Touches(Flatten(HomeGroups(batch)), p)
  {
    var log, home := Flatten([DumpWrites(m, dump)]), Flatten(HomeGroups(batch));
    forall p | Touches(log, p) ensures InLog(m, p) && p in keys && p != LogHead(m.fd) {
      DumpTouches(m, dump, p);
      assert p == LogPlace(m, p.sector - m.logStart);
    }
    forall p | Touches(home, p) ensures !InLog(m, p) && p in keys {
      HomeTouches(batch, p);
      var j :| 0 <= j < |batch| && (p == batch[j].key.First() || p == batch[j].key.Second());
      assert ItemPlaced(m, dump, batch[j], keys);
    }
    WithinTouched(log, keys);
    WithinTouched(home, keys);
  }

  lemma WithinTouched(writes: Group, keys: set<Place>)
    requires forall p :: Touches(writes, p) ==> p in keys
    ensures Within(writes, keys)
  {
    forall i | 0 <= i < |writes| ensures writes[i].addr in keys {
      assert Touches(writes, writes[i].addr);
    }
  }

  // ----- values -----

  ghost predicate BlockAt(img: Image, a: Place, b: Place, data: Block)
  {
    && a in img && b in img
    && img[a] == Raw(data.First()) && img[b] == Raw(data.Second())
  }

  lemma HomeValues(m: Mount, dump: seq<Block>, batch: seq<Item>, keys: set<Place>, img: Image, j: int)
    requires Placed(m, dump, batch, keys) && 0 <= j < |batch|
    ensures BlockAt(Apply(img, Flatten(HomeGroups(batch))), batch[j].key.First(), batch[j].key.Second(), batch[j].data)
  {
    var g := HomeGroups(batch);
    var a, b := batch[j].key.First(), batch[j].key.Second();
    assert ItemPlaced(m, dump, batch[j], keys);
    PairTouches(a, b, Raw(batch[j].data.First()), Raw(batch[j].data.Second()), a);
    PairTouches(a, b, Raw(batch[j].data.First()), Raw(batch[j].data.Second()), b);
    forall i | j < i < |g| ensures !Touches(g[i], a) && !Touches(g[i], b) {
      assert ItemPlaced(m, dump, batch[i], keys);
      var k := batch[i].key;
      PairTouches(k.First(), k.Second(), Raw(batch[i].data.First()), Raw(batch[i].data.Second()), a);
      PairTouches(k.First(), k.Second(), Raw(batch[i].data.First()), Raw(batch[i].data.Second()), b);
      assert batch[j].key != k;
    }
    FlattenOnly(img, g, j, a);
    FlattenOnly(img, g, j, b);
    PairApply(img, a, b, Raw(batch[j].data.First()), Raw(batch[j].data.Second()));
  }

  lemma PairApply(img: Image, a: Place, b: Place, first: Cell, second: Cell)
    requires a != b
    ensures Apply(img, PairWrites(a, b, first, second)) == img[a := first][b := second]
  {
    var w := PairWrites(a, b, first, second);
    assert w[..1] == [w[0]] && w[..1][..0] == [];
    assert Apply(img, w[..1]) == img[a := first];
  }

  lemma DumpValues(m: Mount, dump: seq<Block>, img: Image, slot: int)
    requires 1 <= slot <= |dump|
    ensures BlockAt(Apply(img, Flatten([DumpWrites(m, dump)])),
      LogPlace(m, 2 * slot), LogPlace(m, 2 * slot + 1), dump[slot - 1])
  {
    var g := SlotGroups(m, dump);
    var a, b := LogPlace(m, 2 * slot), LogPlace(m, 2 * slot + 1);
    FlattenOne(DumpWrites(m, dump));
    PairTouches(a, b, Raw(dump[slot - 1].First()), Raw(dump[slot - 1].Second()), a);
    PairTouches(a, b, Raw(dump[slot - 1].First()), Raw(dump[slot - 1].Second()), b);
    forall i | slot - 1 < i < |g| ensures !Touches(g[i], a) && !Touches(g[i], b) {
      PairTouches(LogPlace(m, 2 * i + 2), LogPlace(m, 2 * i + 3),
        Raw(dump[i].First()), Raw(dump[i].Second()), a);
      PairTouches(LogPlace(m, 2 * i + 2), LogPlace(m, 2 * i + 3),
        Raw(dump[i].First()), Raw(dump[i].Second()), b);
    }
    FlattenOnly(img, g, slot - 1, a);
    FlattenOnly(img, g, slot - 1, b);
    PairApply(img, a, b, Raw(dump[slot - 1].First()), Raw(dump[slot - 1].Second()));
  }

  // ----- crash atomicity -----

  /** The header on the platter asks for nothing and nothing is on its way to it. */
  ghost predicate Resting(m: Mount, st: Disk)
  {
    && HeaderIdle(st, LogHead(m.fd))
    && st.durable[LogHead(m.fd)].Head?
    && !Asks(st.durable[LogHead(m.fd)].log)
  }

  predicate Asks(log: Log)
  {
    Valid(log) && log.num != 0
  }

  /** None of the batch happened: outside the log every sector holds what a power cut just
      before the flush could have left there. */
  ghost predicate Kept(m: Mount, st: Disk, img: Image)
  {
    && img.Keys == st.durable.Keys
    && forall p :: p in img && !InLog(m, p) ==> MayHold(st, p, img[p])
  }

  /** All of the batch happened, and so did every write sent before it. */
  ghost predicate Done(m: Mount, st: Disk, batch: seq<Item>, img: Image)
  {
    && img.Keys == st.durable.Keys == Settled(st).Keys
    && (forall j :: 0 <= j < |batch| ==>
        BlockAt(img, batch[j].key.First(), batch[j].key.Second(), batch[j].data))
    && forall p :: p in img && !InLog(m, p) && !Touches(Flatten(HomeGroups(batch)), p) ==>
        img[p] == Settled(st)[p]
  }

  /** With nothing to replay, a recovery only empties the header. */
  lemma RecoverQuiet(m: Mount, img: Image)
    requires LogSane(m, img) && !Asks(img[LogHead(m.fd)].log)
    ensures Recover(m, img) == img[LogHead(m.fd) := Head(EmptyLog())]
  {
    RecoverInstalls(m, img);
    assert Replayed(m, img, img[LogHead(m.fd)].log) == [];
  }

  lemma QuietSane(m: Mount, img: Image)
    requires LogHead(m.fd) in img && img[LogHead(m.fd)].Head? && !Asks(img[LogHead(m.fd)].log)
    ensures LogSane(m, img)
  {
  }

  lemma CommittedSane(m: Mount, dump: seq<Block>, batch: seq<Item>, keys: set<Place>)
    requires Placed(m, dump, batch, keys)
    ensures Valid(LogOf(batch)) && IndexSane(m, keys, LogOf(batch))
  {
    forall i | 0 <= i < |batch| ensures EntrySane(m, keys, LogOf(batch).entries[i]) {
      assert ItemPlaced(m, dump, batch[i], keys);
      assert LogOf(batch).entries[i] == EntryOf(batch[i]);
    }
  }

  /** A committed index reads back as the batch it was made from. */
  lemma ReadBackAt(m: Mount, dump: seq<Block>, batch: seq<Item>, st: Disk, img: Image, j: int)
    requires Placed(m, dump, batch, st.durable.Keys) && Within(st.pending, st.durable.Keys)
    requires Committed(Logged(st, PlanOf(m, dump, batch)), PlanOf(m, dump, batch), img)
    requires 0 <= j < |batch|
    ensures RestoreGroup(m, img, EntryOf(batch[j])) == HomeWrites(batch[j])
  {
    var p := PlanOf(m, dump, batch);
    PlanSound(m, dump, batch, st.durable.Keys);
    assert ItemPlaced(m, dump, batch[j], st.durable.Keys);
    var slot := batch[j].slot;
    DumpValues(m, dump, Settled(st), slot);
    var a, b := LogPlace(m, 2 * slot), LogPlace(m, 2 * slot + 1);
    assert InLog(m, a) && InLog(m, b);
    assert a in img && b in img;
    assert img[a] == Logged(st, p)[a] && img[b] == Logged(st, p)[b];
  }

  lemma ReadBack(m: Mount, dump: seq<Block>, batch: seq<Item>, st: Disk, img: Image)
    requires Placed(m, dump, batch, st.durable.Keys) && Within(st.pending, st.durable.Keys)
    requires Committed(Logged(st, PlanOf(m, dump, batch)), PlanOf(m, dump, batch), img)
    ensures RestoreGroups(m, img, LogOf(batch), |batch|) == HomeGroups(batch)
  {
    forall j | 0 <= j < |batch|
      ensures RestoreGroups(m, img, LogOf(batch), |batch|)[j] == HomeGroups(batch)[j]
    {
      ReadBackAt(m, dump, batch, st, img, j);
      assert LogOf(batch).entries[j] == EntryOf(batch[j]);
    }
  }

  /** Home values do not depend on what the interrupted copy left at home. */
  lemma SameInstall(img: Image, p: Plan<Place, Cell>, next: Image)
    requires Committed(img, p, next) && Within(Flatten(p.home), img.Keys)
    ensures Installed(next, p) == Installed(img, p)
  {
    ApplyKeys(img, Flatten(p.home));
    ApplyKeys(next, Flatten(p.home));
    forall a | a in img ensures Apply(img, Flatten(p.home))[a] == Apply(next, Flatten(p.home))[a] {
      ApplyAgree(img, next, Flatten(p.home), a);
    }
  }

  lemma LoggedKeys(m: Mount, dump: seq<Block>, batch: seq<Item>, st: Disk)
    requires Placed(m, dump, batch, st.durable.Keys) && Within(st.pending, st.durable.Keys)
    ensures Settled(st).Keys == st.durable.Keys
    ensures Logged(st, PlanOf(m, dump, batch)).Keys == st.durable.Keys
    ensures Installed(Logged(st, PlanOf(m, dump, batch)), PlanOf(m, dump, batch)).Keys == st.durable.Keys
  {
    var p := PlanOf(m, dump, batch);
    PlanSound(m, dump, batch, st.durable.Keys);
    ApplyKeys(st.durable, st.pending);
    ApplyKeys(Settled(st), Flatten(p.log));
    ApplyKeys(Logged(st, p), Flatten(p.home));
  }

  lemma InstalledDone(m: Mount, dump: seq<Block>, batch: seq<Item>, st: Disk)
    requires Placed(m, dump, batch, st.durable.Keys) && Within(st.pending, st.durable.Keys)
    ensures Done(m, st, batch, Installed(Logged(st, PlanOf(m, dump, batch)), PlanOf(m, dump, batch)))
  {
    var p := PlanOf(m, dump, batch);
    var logged := Logged(st, p);
    var img := Installed(logged, p);
    PlanSound(m, dump, batch, st.durable.Keys);
    LoggedKeys(m, dump, batch, st);
    forall j | 0 <= j < |batch|
      ensures BlockAt(img, batch[j].key.First(), batch[j].key.Second(), batch[j].data)
    {
      HomeValues(m, dump, batch, st.durable.Keys, logged, j);
    }
    forall a | a in img && !InLog(m, a) && !Touches(Flatten(HomeGroups(batch)), a)
      ensures img[a] == Settled(st)[a]
    {
      ApplyUntouched(logged, Flatten(p.home), a);
      ApplyUntouched(Settled(st), Flatten(p.log), a);
    }
  }

  lemma RecoverCommitted(m: Mount, dump: seq<Block>, batch: seq<Item>, st: Disk, img: Image)
    requires Placed(m, dump, batch, st.durable.Keys) && Within(st.pending, st.durable.Keys)
    requires Committed(Logged(st, PlanOf(m, dump, batch)), PlanOf(m, dump, batch), img)
    ensures LogSane(m, img)
    ensures Recover(m, img) == Installed(Logged(st, PlanOf(m, dump, batch)), PlanOf(m, dump, batch))
  {
    var p := PlanOf(m, dump, batch);
    CommittedSane(m, dump, batch, st.durable.Keys);
    LoggedKeys(m, dump, batch, st);
    ReadBack(m, dump, batch, st, img);
    RecoverInstalls(m, img);
    PlanSound(m, dump, batch, st.durable.Keys);
    SameInstall(Logged(st, p), p, img);
  }

  /** A header that asks for nothing has no effect outside the log. */
  lemma RecoverRest(m: Mount, st: Disk, dump: seq<Block>, batch: seq<Item>, img: Image)
    requires Resting(m, st) && Placed(m, dump, batch, st.durable.Keys)
    requires Untaken(st, PlanOf(m, dump, batch), img)
    ensures LogSane(m, img) && Kept(m, st, Recover(m, img))
  {
    QuietSane(m, img);
    RecoverQuiet(m, img);
    PlanSound(m, dump, batch, st.durable.Keys);
  }

  lemma RecoverInstalled(m: Mount, img: Image)
    requires LogHead(m.fd) in img && img[LogHead(m.fd)] == Head(EmptyLog())
    ensures LogSane(m, img) && Recover(m, img) == img
  {
    QuietSane(m, img);
    RecoverQuiet(m, img);
  }

  /** The power may be cut after any command of a flush, with any subset of the waiting sectors
      surviving: once recovered, the batch has happened entirely or not at all. */
  lemma FlushAtomic(m: Mount, st: Disk, dump: seq<Block>, batch: seq<Item>, k: nat, img: Image)
    requires Resting(m, st) && Placed(m, dump, batch, st.durable.Keys)
    requires k <= |CommitOps(PlanOf(m, dump, batch))|
    requires CrashImage(Run(st, CommitOps(PlanOf(m, dump, batch))[..k]), img)
    ensures LogSane(m, img)
    ensures Kept(m, st, Recover(m, img)) || Done(m, st, batch, Recover(m, img))
  {
    var p := PlanOf(m, dump, batch);
    PlanSound(m, dump, batch, st.durable.Keys);
    CommitCrash(st, p, k, img);
    if Untaken(st, p, img) {
      RecoverRest(m, st, dump, batch, img);
    } else {
      InstalledDone(m, dump, batch, st);
      if Committed(Logged(st, p), p, img) {
        RecoverCommitted(m, dump, batch, st, img);
      } else {
        RecoverInstalled(m, img);
      }
    }
  }

  /** Left alone, a flush puts the whole batch home and the header is empty again. */
  lemma FlushCompletes(m: Mount, st: Disk, dump: seq<Block>, batch: seq<Item>)
    requires Resting(m, st) && Placed(m, dump, batch, st.durable.Keys)
    ensures Resting(m, Run(st, CommitOps(PlanOf(m, dump, batch))))
    ensures Run(st, CommitOps(PlanOf(m, dump, batch))).pending == []
    ensures Done(m, st, batch, Run(st, CommitOps(PlanOf(m, dump, batch))).durable)
  {
    CommitDone(st, PlanOf(m, dump, batch));
    InstalledDone(m, dump, batch, st);
  }

  // ----- recovery may itself be cut -----

  predicate Names(m: Mount, e: IndexEntry, p: Place)
  {
    p == At(m.fd, e.sub, e.sector) || p == At(m.fd, e.sub, e.sector + 1)
  }

  lemma ReplayTouches(m: Mount, img: Image, log: Log, p: Place)
    requires Valid(log) ==> 0 <= log.num <= |log.entries|
    ensures Touches(Flatten(Replayed(m, img, log)), p) ==>
      Valid(log) && exists i :: 0 <= i < log.num && Names(m, log.entries[i], p)
  {
    var g := Replayed(m, img, log);
    FlattenTouches(g, p);
    if Touches(Flatten(g), p) {
      var i :| 0 <= i < |g| && Touches(g[i], p);
      var e := log.entries[i];
      PairTouches(At(m.fd, e.sub, e.sector), At(m.fd, e.sub, e.sector + 1),
        Cellar(img, LogPlace(m, e.logSector)), Cellar(img, LogPlace(m, e.logSector + 1)), p);
    }
  }

  /** A replay writes only sectors on the drive and outside the log. */
  lemma ReplayOutside(m: Mount, img: Image)
    requires LogSane(m, img)
    ensures Within(Flatten(RestorePlan(m, img).home), img.Keys)
    ensures forall p :: InLog(m, p) ==> !Touches(Flatten(RestorePlan(m, img).home), p)
  {
    var log := img[LogHead(m.fd)].log;
    var home := Flatten(RestorePlan(m, img).home);
    forall p | Touches(home, p) ensures p in img.Keys && !InLog(m, p) {
      ReplayTouches(m, img, log, p);
      var i :| 0 <= i < log.num && Names(m, log.entries[i], p);
      assert EntrySane(m, img.Keys, log.entries[i]);
    }
    WithinTouched(home, img.Keys);
  }

  lemma ReplayStable(m: Mount, img: Image, next: Image)
    requires LogSane(m, img) && Committed(img, RestorePlan(m, img), next)
    ensures LogSane(m, next) && RestorePlan(m, next) == RestorePlan(m, img)
  {
    ReplayOutside(m, img);
    var log := img[LogHead(m.fd)].log;
    if Valid(log) {
      forall i | 0 <= i < log.num
        ensures RestoreGroups(m, img, log, log.num)[i] == RestoreGroups(m, next, log, log.num)[i]
      {
        var e := log.entries[i];
        assert EntrySane(m, img.Keys, e);
        assert InLog(m, LogPlace(m, e.logSector)) && InLog(m, LogPlace(m, e.logSector + 1));
      }
      assert RestoreGroups(m, img, log, log.num) == RestoreGroups(m, next, log, log.num);
    }
  }

  /** A recovery cut at any point recovers, next time, to the very same disk. */
  lemma RestoreRestarts(m: Mount, img: Image, k: nat, next: Image)
    requires LogSane(m, img)
    requires k <= |RestoreOps(m, img)|
    requires CrashImage(Run(State(img, []), RestoreOps(m, img)[..k]), next)
    ensures LogSane(m, next) && Recover(m, next) == Recover(m, img)
  {
    var p := RestorePlan(m, img);
    ReplayOutside(m, img);
    assert InLog(m, LogHead(m.fd));
    InstallCrash(img, p, k, next);
    RecoverInstalls(m, img);
    if Committed(img, p, next) {
      ReplayStable(m, img, next);
      RecoverInstalls(m, next);
      SameInstall(img, p, next);
    } else {
      RecoverInstalled(m, next);
    }
  }

  /** Each disk but the first is what a power cut left of a recovery of the one before. */
  ghost predicate Reboots(m: Mount, disks: seq<Image>)
  {
    forall i :: 0 < i < |disks| ==> CutShort(m, disks[i - 1], disks[i])
  }

  ghost predicate CutShort(m: Mount, img: Image, next: Image)
  {
    && LogSane(m, img)
    && exists k :: 0 <= k <= |RestoreOps(m, img)| && CutAt(m, img, k, next)
  }

  ghost predicate CutAt(m: Mount, img: Image, k: nat, next: Image)
    requires LogSane(m, img) && k <= |RestoreOps(m, img)|
  {
    CrashImage(Run(State(img, []), RestoreOps(m, img)[..k]), next)
  }

  lemma {:induction false} RebootsAgree(m: Mount, disks: seq<Image>)
    requires disks != [] && LogSane(m, disks[0]) && Reboots(m, disks)
    ensures LogSane(m, disks[|disks| - 1])
    ensures Recover(m, disks[|disks| - 1]) == Recover(m, disks[0])
  {
    var n := |disks| - 1;
    if n > 0 {
      RebootsAgree(m, disks[..n]);
      assert CutShort(m, disks[n - 1], disks[n]);
      var k :| 0 <= k <= |RestoreOps(m, disks[n - 1])| && CutAt(m, disks[n - 1], k, disks[n]);
      RestoreRestarts(m, disks[n - 1], k, disks[n]);
    }
  }

  /** A flush cut anywhere, then any number of recoveries cut anywhere, then one that completes:
      still all of the batch or none of it, over the main partition and its subs. */
  lemma CrashAtomic(m: Mount, st: Disk, dump: seq<Block>, batch: seq<Item>, k: nat, disks: seq<Image>)
    requires Resting(m, st) && Placed(m, dump, batch, st.durable.Keys)
    requires k <= |CommitOps(PlanOf(m, dump, batch))|
    requires disks != [] && Reboots(m, disks)
    requires CrashImage(Run(st, CommitOps(PlanOf(m, dump, batch))[..k]), disks[0])
    ensures LogSane(m, disks[|disks| - 1])
    ensures Kept(m, st, Recover(m, disks[|disks| - 1])) || Done(m, st, batch, Recover(m, disks[|disks| - 1]))
  {
    FlushAtomic(m, st, dump, batch, k, disks[0]);
    RebootsAgree(m, disks);
  }
}
