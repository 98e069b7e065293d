/** The partition table's cache flush and write-ahead journal. */
module ApaJournal {
  import opened Words
  import opened Device
  import opened WriteAhead

  const SECTOR_APAL: int := 8            // the log header
  const SECTOR_APAL_HEADERS: int := 10   // the logged headers, two sectors each
  const LOG_SLOTS: nat := 126
  const LOG_END: int := 262
  const APAL_MAGIC: word := 0x4150414C

  type Image = map<int, Sector>
  type Disk = State<int, Sector>

  /** A buffer of the header cache. */
  datatype Entry = Entry(dirty: bool, device: int, sector: word, header: Block)

  /** The one-sector log header. */
  datatype Log = Log(magic: word, num: int, sectors: seq<word>)

  ghost predicate LogShape(log: Log)
  {
    |log.sectors| == LOG_SLOTS && -0x8000_0000 <= log.num < 0x8000_0000
  }

  function EmptyLog(): (log: Log)
    ensures LogShape(log)
  {
    Log(APAL_MAGIC, 0, seq(LOG_SLOTS, _ => 0))
  }

  function Encode(log: Log): (sector: Sector)
    requires LogShape(log)
    ensures |sector.words| == 128
  {
    Sector([log.magic, log.num % WORD_RANGE] + log.sectors)
  }

  function Decode(sector: Sector): (log: Log)
    requires |sector.words| == 128
    ensures LogShape(log)
  {
    Log(sector.words[0],
        if sector.words[1] < 0x8000_0000 then sector.words[1] else sector.words[1] - WORD_RANGE,
        sector.words[2..])
  }

  lemma DecodeEncode(log: Log)
    requires LogShape(log)
    ensures Decode(Encode(log)) == log
  {
    assert Encode(log).words[2..] == log.sectors;
  }

  // ----- headers -----

  function Sealed(e: Entry): Entry
  {
    e.(header := e.header.Stamped())
  }

  function PairWrites(s: int, first: Sector, second: Sector): seq<Write<int, Sector>>
  {
    [Write(s, first), Write(s + 1, second)]
  }

  function HeaderWrites(sector: int, header: Block): seq<Write<int, Sector>>
  {
    PairWrites(sector, header.First(), header.Second())
  }

  // ----- what a flush sends to the drive -----

  predicate Due(e: Entry, device: int)
  {
    e.dirty && e.device == device
  }

  /** The dirty headers of a device among buffers 1 to n - 1, in order, with their checksums
      brought up to date.  Buffer 0 heads the ring of free buffers and holds no header. */
  function Batch(buf: seq<Entry>, n: nat, device: int): (b: seq<Entry>)
    requires n <= |buf|
    ensures |b| <= n
  {
    if n <= 1 then []
    else if Due(buf[n - 1], device) then Batch(buf, n - 1, device) + [Sealed(buf[n - 1])]
    else Batch(buf, n - 1, device)
  }

  function Filled(base: Log, batch: seq<Entry>): (log: Log)
    requires LogShape(base) && |batch| <= LOG_SLOTS
    ensures LogShape(log)
  {
    Log(base.magic, |batch|,
        seq(LOG_SLOTS, j requires 0 <= j < LOG_SLOTS => if j < |batch| then batch[j].sector else base.sectors[j]))
  }

  function LogGroups(batch: seq<Entry>): (groups: seq<seq<Write<int, Sector>>>)
    ensures |groups| == |batch|
  {
    seq(|batch|, j requires 0 <= j < |batch| => HeaderWrites(SECTOR_APAL_HEADERS + 2 * j, batch[j].header))
  }

  lemma {:induction false} LogGroupAt(batch: seq<Entry>, j: nat)
    requires j < |batch|
    ensures LogGroups(batch)[j] == HeaderWrites(SECTOR_APAL_HEADERS + 2 * j, batch[j].header)
  {
  }

  function HomeGroups(batch: seq<Entry>): (groups: seq<seq<Write<int, Sector>>>)
    ensures |groups| == |batch|
  {
    seq(|batch|, j requires 0 <= j < |batch| => HeaderWrites(batch[j].sector, batch[j].header))
  }

  lemma {:induction false} HomeGroupAt(batch: seq<Entry>, j: nat)
    requires j < |batch|
    ensures HomeGroups(batch)[j] == HeaderWrites(batch[j].sector, batch[j].header)
  {
  }

  function PlanOf(base: Log, batch: seq<Entry>): Plan<int, Sector>
    requires LogShape(base) && |batch| <= LOG_SLOTS
  {
    Plan(SECTOR_APAL, Encode(Filled(base, batch)), Encode(EmptyLog()), LogGroups(batch), HomeGroups(batch))
  }

  // ----- what recovery sends to the drive -----

  function At(img: Image, s: int): Sector
  {
    if s in img then img[s] else Sector([])
  }

  /** What replaying the first n logged headers writes. */
  function RestoreGroups(img: Image, log: Log, n: int): (groups: seq<seq<Write<int, Sector>>>)
    requires LogShape(log) && n <= LOG_SLOTS
    ensures |groups| == if n <= 0 then 0 else n
  {
    seq(if n <= 0 then 0 else n, i requires 0 <= i < n => RestoreGroup(img, log, i))
  }

  function RestoreGroup(img: Image, log: Log, i: nat): seq<Write<int, Sector>>
    requires LogShape(log) && i < LOG_SLOTS
  {
    PairWrites(log.sectors[i], At(img, SECTOR_APAL_HEADERS + 2 * i), At(img, SECTOR_APAL_HEADERS + 2 * i + 1))
  }

  lemma {:induction false} RestoreGroupAt(img: Image, log: Log, n: int, j: nat)
    requires LogShape(log) && j < n <= LOG_SLOTS
    ensures RestoreGroups(img, log, n)[j] == RestoreGroup(img, log, j)
  {
  }

  /** The two sectors at s are on the drive and clear of the log area. */
  ghost predicate Clear(s: int, keys: set<int>)
  {
    s in keys && s + 1 in keys && (s + 1 < SECTOR_APAL || LOG_END <= s)
  }

  ghost predicate Disjoint(s: int, t: int)
  {
    s + 1 < t || t + 1 < s
  }

  ghost predicate Apart(sectors: seq<word>, n: int, keys: set<int>)
    requires n <= |sectors|
  {
    && (forall i :: 0 <= i < n ==> Clear(sectors[i], keys))
    && (forall i, j :: 0 <= i < j < n ==> Disjoint(sectors[i], sectors[j]))
  }

  /** The log area is on the drive, and a log that asks to be replayed can be. */
  ghost predicate LogSane(img: Image)
  {
    && (forall s :: SECTOR_APAL <= s < LOG_END ==> s in img)
    && |img[SECTOR_APAL].words| == 128
    && Replayable(Decode(img[SECTOR_APAL]), img.Keys)
  }

  ghost predicate Replayable(log: Log, keys: set<int>)
    requires LogShape(log)
  {
    log.magic == APAL_MAGIC ==> log.num <= LOG_SLOTS && Apart(log.sectors, log.num, keys)
  }

  function RestorePlan(img: Image): Plan<int, Sector>
    requires LogSane(img)
  {
    Plan(SECTOR_APAL, img[SECTOR_APAL], Encode(EmptyLog()), [],
         if Decode(img[SECTOR_APAL]).magic == APAL_MAGIC 
         then RestoreGroups(img, Decode(img[SECTOR_APAL]), Decode(img[SECTOR_APAL]).num) else [])
  }

  function RestoreOps(img: Image): seq<Op<int, Sector>>
    requires LogSane(img)
  {
    if Decode(img[SECTOR_APAL]).magic == APAL_MAGIC && Decode(img[SECTOR_APAL]).num == 0 then []
    else InstallOps(RestorePlan(img))
  }

  /** The disk after an uninterrupted recovery. */
  function Recover(img: Image): Image
    requires LogSane(img)
  {
    Run(State(img, []), RestoreOps(img)).durable
  }

  // ----- geometry of the plans -----

  lemma HomeTouches(batch: seq<Entry>, a: int)
    ensures Touches(Flatten(HomeGroups(batch)), a) <==>
      exists j :: 0 <= j < |batch| && (a == batch[j].sector || a == batch[j].sector as int + 1)
  {
    var g: seq<seq<Write<int, Sector>>> := HomeGroups(batch);
    FlattenTouches(g, a);
    forall j | 0 <= j < |batch|
      ensures Touches(g[j], a) <==> a == batch[j].sector || a == batch[j].sector as int + 1
    {
      HomeGroupAt(batch, j);
      assert g[j][0].addr == batch[j].sector && g[j][1].addr == batch[j].sector as int + 1;
    }
  }

  lemma LogTouches(batch: seq<Entry>, a: int)
    ensures Touches(Flatten(LogGroups(batch)), a) <==>
      SECTOR_APAL_HEADERS <= a < SECTOR_APAL_HEADERS + 2 * |batch|
  {
    var g: seq<seq<Write<int, Sector>>> := LogGroups(batch);
    FlattenTouches(g, a);
    forall j | 0 <= j < |batch|
      ensures Touches(g[j], a) <==> SECTOR_APAL_HEADERS + 2 * j <= a <= SECTOR_APAL_HEADERS + 2 * j + 1
    {
      LogGroupAt(batch, j);
      assert g[j][0].addr == SECTOR_APAL_HEADERS + 2 * j && g[j][1].addr == SECTOR_APAL_HEADERS + 2 * j + 1;
    }
    if SECTOR_APAL_HEADERS <= a < SECTOR_APAL_HEADERS + 2 * |batch| {
      var j := (a - SECTOR_APAL_HEADERS) / 2;
      assert Touches(g[j], a);
    }
  }

  ghost predicate Placed(batch: seq<Entry>, keys: set<int>)
  {
    && |batch| <= LOG_SLOTS
    && (forall i :: 0 <= i < |batch| ==> Clear(batch[i].sector, keys))
    && (forall i, j :: 0 <= i < j < |batch| ==> Disjoint(batch[i].sector, batch[j].sector))
    && forall s :: SECTOR_APAL <= s < LOG_END ==> s in keys
  }

  lemma PlanSound(base: Log, batch: seq<Entry>, keys: set<int>)
    requires LogShape(base) && Placed(batch, keys)
    ensures Sound(PlanOf(base, batch), keys)
  {
    var p := PlanOf(base, batch);
    forall i | 0 <= i < |Flatten(p.log)| ensures Flatten(p.log)[i].addr in keys {
      var a := Flatten(p.log)[i].addr;
      assert Touches(Flatten(p.log), a);
      LogTouches(batch, a);
    }
    forall i | 0 <= i < |Flatten(p.home)| ensures Flatten(p.home)[i].addr in keys {
      var a := Flatten(p.home)[i].addr;
      assert Touches(Flatten(p.home), a);
      HomeTouches(batch, a);
      var j :| 0 <= j < |batch| && (a == batch[j].sector || a == batch[j].sector as int + 1);
      assert Clear(batch[j].sector, keys);
    }
    forall a | Touches(Flatten(p.log), a) || a == p.hdr
      ensures !Touches(Flatten(p.home), a)
    {
      LogTouches(batch, a);
      HomeTouches(batch, a);
      forall j | 0 <= j < |batch| ensures a != batch[j].sector && a != batch[j].sector as int + 1 {
        assert Clear(batch[j].sector, keys);
      }
    }
    LogTouches(batch, p.hdr);
  }

  /** The two sectors of a header. */
  ghost predicate HeaderAt(img: Image, sector: int, header: Block)
  {
    && sector in img && sector + 1 in img
    && img[sector] == header.First() && img[sector + 1] == header.Second()
  }

  lemma HomeValues(base: Log, batch: seq<Entry>, img: Image, j: nat)
    requires Placed(batch, img.Keys) && j < |batch|
    ensures HeaderAt(Apply(img, Flatten(HomeGroups(batch))), batch[j].sector, batch[j].header)
  {
    var g: seq<seq<Write<int, Sector>>> := HomeGroups(batch);
    var s := batch[j].sector as int;
    HomeGroupAt(batch, j);
    assert g[j][0].addr == s && g[j][1].addr == s + 1;
    forall i | j < i < |g| ensures !Touches(g[i], s) && !Touches(g[i], s + 1) {
      HomeGroupAt(batch, i);
      assert Disjoint(batch[j].sector, batch[i].sector);
    }
    FlattenOnly(img, g, j, s);
    FlattenOnly(img, g, j, s + 1);
    PairApply(img, s, batch[j].header);
  }

  lemma LogValues(base: Log, batch: seq<Entry>, img: Image, j: nat)
    requires j < |batch|
    ensures HeaderAt(Apply(img, Flatten(LogGroups(batch))), SECTOR_APAL_HEADERS + 2 * j, batch[j].header)
  {
    var g: seq<seq<Write<int, Sector>>> := LogGroups(batch);
    var s := SECTOR_APAL_HEADERS + 2 * j;
    LogGroupAt(batch, j);
    assert g[j][0].addr == s && g[j][1].addr == s + 1;
    forall i | j < i < |g| ensures !Touches(g[i], s) && !Touches(g[i], s + 1) {
      LogGroupAt(batch, i);
    }
    FlattenOnly(img, g, j, s);
    FlattenOnly(img, g, j, s + 1);
    PairApply(img, s, batch[j].header);
  }

  lemma PairApply(img: Image, s: int, header: Block)
    ensures HeaderAt(Apply(img, HeaderWrites(s, header)), s, header)
  {
    var w := HeaderWrites(s, header);
    assert w[..1] == [w[0]] && w[..1][..0] == [];
    assert Apply(img, w[..1]) == img[s := w[0].value];
  }

  // ----- crash atomicity -----

  /** The log on the platter is empty and nothing is on its way to it. */
  ghost predicate Resting(st: Disk)
  {
    && HeaderIdle(st, SECTOR_APAL)
    && |st.durable[SECTOR_APAL].words| == 128
    && Decode(st.durable[SECTOR_APAL]).magic == APAL_MAGIC
    && Decode(st.durable[SECTOR_APAL]).num == 0
  }

  /** The journal buffer between transactions. */
  ghost predicate Ready(base: Log)
  {
    LogShape(base) && base.magic == APAL_MAGIC && base.num == 0
  }

  predicate InLog(s: int)
  {
    SECTOR_APAL <= s < LOG_END
  }

  /** None of the batch happened: every sector outside the log holds what a power cut just
      before the flush could have left there. */
  ghost predicate Kept(st: Disk, img: Image)
  {
    && img.Keys == st.durable.Keys
    && forall s :: s in img && !InLog(s) ==> MayHold(st, s, img[s])
  }

  /** All of the batch happened, and so did every write sent before it. */
  ghost predicate Done(st: Disk, batch: seq<Entry>, img: Image)
  {
    && img.Keys == st.durable.Keys == Settled(st).Keys
    && (forall j :: 0 <= j < |batch| ==> HeaderAt(img, batch[j].sector, batch[j].header))
    && forall s :: s in img && !InLog(s) && !Touches(Flatten(HomeGroups(batch)), s) ==>
        img[s] == Settled(st)[s]
  }

  lemma RecoverEmpty(img: Image)
    requires LogSane(img) && Decode(img[SECTOR_APAL]).magic == APAL_MAGIC && Decode(img[SECTOR_APAL]).num == 0
    ensures Recover(img) == img
  {
  }

  lemma RecoverInstalls(img: Image)
    requires LogSane(img)
    requires Decode(img[SECTOR_APAL]).magic != APAL_MAGIC || Decode(img[SECTOR_APAL]).num != 0
    ensures Recover(img) == Installed(img, RestorePlan(img))
  {
    InstallDone(img, RestorePlan(img));
  }

  lemma CommittedSane(base: Log, batch: seq<Entry>, logged: Image, img: Image)
    requires Ready(base) && Placed(batch, logged.Keys)
    requires img.Keys == logged.Keys && img[SECTOR_APAL] == Encode(Filled(base, batch))
    ensures LogSane(img)
    ensures Decode(img[SECTOR_APAL]) == Filled(base, batch)
  {
    var log := Filled(base, batch);
    DecodeEncode(log);
    assert forall i :: 0 <= i < |batch| ==> log.sectors[i] == batch[i].sector;
  }

  /** A committed log reads back as the batch it was made from. */
  lemma ReadBack(base: Log, batch: seq<Entry>, logged: Image, img: Image)
    requires Ready(base) && Placed(batch, logged.Keys)
    requires forall j :: 0 <= j < |batch| ==>
      HeaderAt(logged, SECTOR_APAL_HEADERS + 2 * j, batch[j].header)
    requires Committed(logged, PlanOf(base, batch), img)
    ensures RestoreGroups(img, Filled(base, batch), |batch|) == HomeGroups(batch)
  {
    forall j | 0 <= j < |batch|
      ensures RestoreGroups(img, Filled(base, batch), |batch|)[j] == HomeGroups(batch)[j]
    {
      ReadBackAt(base, batch, logged, img, j);
      HomeGroupAt(batch, j);
      RestoreGroupAt(img, Filled(base, batch), |batch|, j);
    }
  }

  lemma ReadBackAt(base: Log, batch: seq<Entry>, logged: Image, img: Image, j: nat)
    requires Ready(base) && Placed(batch, logged.Keys) && j < |batch|
    requires HeaderAt(logged, SECTOR_APAL_HEADERS + 2 * j, batch[j].header)
    requires Committed(logged, PlanOf(base, batch), img)
    ensures RestoreGroup(img, Filled(base, batch), j) == HeaderWrites(batch[j].sector, batch[j].header)
  {
    PlanSound(base, batch, logged.Keys);
    var a := SECTOR_APAL_HEADERS + 2 * j;
    LogTouches(batch, a);
    LogTouches(batch, a + 1);
    assert img[a] == logged[a] && img[a + 1] == logged[a + 1];
  }

  /** An image whose log header is the committed one is replayed into the finished batch. */
  lemma ReplayCommitted(base: Log, batch: seq<Entry>, logged: Image, img: Image)
    requires Ready(base) && Placed(batch, logged.Keys)
    requires forall j :: 0 <= j < |batch| ==>
      HeaderAt(logged, SECTOR_APAL_HEADERS + 2 * j, batch[j].header)
    requires Committed(logged, PlanOf(base, batch), img)
    ensures LogSane(img)
    ensures Recover(img).Keys == logged.Keys == Apply(logged, Flatten(HomeGroups(batch))).Keys
    ensures forall s :: s in img && s != SECTOR_APAL ==>
      Recover(img)[s] == Apply(logged, Flatten(HomeGroups(batch)))[s]
  {
    CommittedSane(base, batch, logged, img);
    ReadBack(base, batch, logged, img);
    PlanSound(base, batch, logged.Keys);
    ReplayHome(img, batch, Filled(base, batch));
    var p := PlanOf(base, batch);
    SameInstall(logged, p, img);
    ApplyKeys(logged, Flatten(p.home));
    ApplyKeys(img, Flatten(p.home));
  }

  lemma ReplayHome(img: Image, batch: seq<Entry>, log: Log)
    requires LogSane(img) && Decode(img[SECTOR_APAL]) == log
    requires log.magic == APAL_MAGIC && log.num == |batch|
    requires RestoreGroups(img, log, log.num) == HomeGroups(batch)
    ensures Recover(img) ==
      if batch == [] then img else Apply(img, Flatten(HomeGroups(batch)))[SECTOR_APAL := Encode(EmptyLog())]
  {
    if batch == [] {
      RecoverEmpty(img);
    } else {
      RecoverInstalls(img);
    }
  }

  /** Before the commit point nothing has changed, and recovery leaves it so. */
  lemma RecoverUntaken(st: Disk, base: Log, batch: seq<Entry>, img: Image)
    requires Resting(st) && Ready(base) && Placed(batch, st.durable.Keys)
    requires Untaken(st, PlanOf(base, batch), img)
    ensures LogSane(img) && Kept(st, Recover(img))
  {
    RecoverEmpty(img);
    forall s | s in img && !InLog(s) ensures MayHold(st, s, img[s]) {
      LogTouches(batch, s);
    }
  }

  /** The finished batch, read off the disk it was installed on. */
  lemma InstalledDone(st: Disk, base: Log, batch: seq<Entry>, img: Image)
    requires Resting(st) && Ready(base) && Placed(batch, st.durable.Keys)
    requires img.Keys == st.durable.Keys
    requires forall s :: s in img && !InLog(s) ==>
      s in Installed(Logged(st, PlanOf(base, batch)), PlanOf(base, batch)) &&
      img[s] == Installed(Logged(st, PlanOf(base, batch)), PlanOf(base, batch))[s]
    ensures Done(st, batch, img)
  {
    var p := PlanOf(base, batch);
    var logged := Logged(st, p);
    PlanSound(base, batch, st.durable.Keys);
    ApplyKeys(st.durable, st.pending);
    ApplyKeys(Settled(st), Flatten(p.log));
    forall j | 0 <= j < |batch| ensures HeaderAt(img, batch[j].sector, batch[j].header) {
      HomeValues(base, batch, logged, j);
      assert Clear(batch[j].sector, st.durable.Keys);
    }
    forall s | s in img && !InLog(s) && !Touches(Flatten(HomeGroups(batch)), s)
      ensures img[s] == Settled(st)[s]
    {
      ApplyUntouched(logged, Flatten(p.home), s);
      LogTouches(batch, s);
      ApplyUntouched(Settled(st), Flatten(p.log), s);
    }
  }

  lemma LoggedHeaders(st: Disk, base: Log, batch: seq<Entry>)
    requires LogShape(base) && |batch| <= LOG_SLOTS
    ensures forall j :: 0 <= j < |batch| ==>
      HeaderAt(Logged(st, PlanOf(base, batch)), SECTOR_APAL_HEADERS + 2 * j, batch[j].header)
  {
    forall j | 0 <= j < |batch|
      ensures HeaderAt(Logged(st, PlanOf(base, batch)), SECTOR_APAL_HEADERS + 2 * j, batch[j].header)
    {
      LogValues(base, batch, Settled(st), j);
    }
  }

  lemma RecoverCommitted(st: Disk, base: Log, batch: seq<Entry>, img: Image)
    requires Resting(st) && Ready(base) && Placed(batch, st.durable.Keys)
    requires Committed(Logged(st, PlanOf(base, batch)), PlanOf(base, batch), img)
    ensures LogSane(img) && Done(st, batch, Recover(img))
  {
    var p := PlanOf(base, batch);
    var logged := Logged(st, p);
    PlanSound(base, batch, st.durable.Keys);
    ApplyKeys(st.durable, st.pending);
    ApplyKeys(Settled(st), Flatten(p.log));
    LoggedHeaders(st, base, batch);
    ReplayCommitted(base, batch, logged, img);
    InstalledDone(st, base, batch, Recover(img));
  }

  lemma RecoverInstalled(st: Disk, base: Log, batch: seq<Entry>)
    requires Resting(st) && Ready(base) && Placed(batch, st.durable.Keys)
    ensures
      var img := Installed(Logged(st, PlanOf(base, batch)), PlanOf(base, batch));
      LogSane(img) && Recover(img) == img && Done(st, batch, img)
  {
    var p := PlanOf(base, batch);
    PlanSound(base, batch, st.durable.Keys);
    ApplyKeys(st.durable, st.pending);
    ApplyKeys(Settled(st), Flatten(p.log));
    ApplyKeys(Logged(st, p), Flatten(p.home));
    DecodeEncode(EmptyLog());
    RecoverEmpty(Installed(Logged(st, p), p));
    InstalledDone(st, base, batch, Installed(Logged(st, p), p));
  }

  /** The power may be cut after any command of a flush, with any subset of the waiting sectors
      surviving: once recovered, the batch has happened entirely or not at all. */
  lemma FlushAtomic(st: Disk, base: Log, batch: seq<Entry>, k: nat, img: Image)
    requires Resting(st) && Ready(base) && Placed(batch, st.durable.Keys)
    requires k <= |CommitOps(PlanOf(base, batch))|
    requires CrashImage(Run(st, CommitOps(PlanOf(base, batch))[..k]), img)
    ensures LogSane(img)
    ensures Kept(st, Recover(img)) || Done(st, batch, Recover(img))
  {
    var p := PlanOf(base, batch);
    PlanSound(base, batch, st.durable.Keys);
    CommitCrash(st, p, k, img);
    if Untaken(st, p, img) {
      RecoverUntaken(st, base, batch, img);
    } else if Committed(Logged(st, p), p, img) {
      RecoverCommitted(st, base, batch, img);
    } else {
      RecoverInstalled(st, base, batch);
    }
  }

  /** Left alone, a flush puts the whole batch home and the log is empty again. */
  lemma FlushCompletes(st: Disk, base: Log, batch: seq<Entry>)
    requires Resting(st) && Ready(base) && Placed(batch, st.durable.Keys)
    ensures Resting(Run(st, CommitOps(PlanOf(base, batch))))
    ensures Run(st, CommitOps(PlanOf(base, batch))).pending == []
    ensures Done(st, batch, Run(st, CommitOps(PlanOf(base, batch))).durable)
  {
    CommitDone(st, PlanOf(base, batch));
    RecoverInstalled(st, base, batch);
    DecodeEncode(EmptyLog());
  }

  // ----- recovery may itself be cut -----

  /** A recovery cut at any point recovers, next time, to the very same disk. */
  lemma RestoreRestarts(img: Image, k: nat, next: Image)
    requires LogSane(img)
    requires k <= |RestoreOps(img)|
    requires CrashImage(Run(State(img, []), RestoreOps(img)[..k]), next)
    ensures LogSane(next) && Recover(next) == Recover(img)
  {
    if Decode(img[SECTOR_APAL]).magic == APAL_MAGIC && Decode(img[SECTOR_APAL]).num == 0 {
      assert next == img;
    } else {
      var p := RestorePlan(img);
      RestoreGeometry(img);
      InstallCrash(img, p, k, next);
      RecoverInstalls(img);
      ApplyKeys(img, Flatten(p.home));
      if Committed(img, p, next) {
        RestorePlanStable(img, next);
        RecoverInstalls(next);
        SameInstall(img, p, next);
      } else {
        DecodeEncode(EmptyLog());
        RecoverEmpty(next);
      }
    }
  }

  /** Home values do not depend on what the interrupted copy left at home. */
  lemma SameInstall(img: Image, p: Plan<int, Sector>, next: Image)
    requires Committed(img, p, next) && Within(Flatten(p.home), img.Keys)
    ensures Installed(next, p) == Installed(img, p)
  {
    ApplyKeys(img, Flatten(p.home));
    ApplyKeys(next, Flatten(p.home));
    forall s | s in img ensures Apply(img, Flatten(p.home))[s] == Apply(next, Flatten(p.home))[s] {
      ApplyAgree(img, next, Flatten(p.home), s);
    }
  }

  lemma RestoreTouches(img: Image, a: int)
    requires LogSane(img) && Decode(img[SECTOR_APAL]).magic == APAL_MAGIC
    ensures
      var log := Decode(img[SECTOR_APAL]);
      Touches(Flatten(RestoreGroups(img, log, log.num)), a) <==>
      exists j :: 0 <= j < log.num && (a == log.sectors[j] || a == log.sectors[j] as int + 1)
  {
    var log := Decode(img[SECTOR_APAL]);
    var g := RestoreGroups(img, log, log.num);
    FlattenTouches(g, a);
    forall j | 0 <= j < log.num
      ensures Touches(g[j], a) <==> a == log.sectors[j] || a == log.sectors[j] as int + 1
    {
      RestoreGroupAt(img, log, log.num, j);
      assert g[j][0].addr == log.sectors[j] && g[j][1].addr == log.sectors[j] as int + 1;
    }
  }

  lemma RestoreGeometry(img: Image)
    requires LogSane(img)
    ensures Within(Flatten(RestorePlan(img).home), img.Keys)
    ensures forall s :: InLog(s) ==> !Touches(Flatten(RestorePlan(img).home), s)
  {
    var home := Flatten(RestorePlan(img).home);
    if Decode(img[SECTOR_APAL]).magic == APAL_MAGIC {
      forall i | 0 <= i < |home| ensures home[i].addr in img.Keys {
        assert Touches(home, home[i].addr);
        RestoreTouches(img, home[i].addr);
      }
      forall s | InLog(s) ensures !Touches(home, s) {
        RestoreTouches(img, s);
      }
    }
  }

  lemma RestorePlanStable(img: Image, next: Image)
    requires LogSane(img) && Committed(img, RestorePlan(img), next)
    ensures LogSane(next) && RestorePlan(next) == RestorePlan(img)
  {
    RestoreGeometry(img);
    assert forall s :: InLog(s) ==> next[s] == img[s];
    if Decode(img[SECTOR_APAL]).magic == APAL_MAGIC {
      var log := Decode(img[SECTOR_APAL]);
      forall i | 0 <= i < log.num ensures RestoreGroups(img, log, log.num)[i] == RestoreGroups(next, log, log.num)[i] {
        RestoreGroupAt(img, log, log.num, i);
        RestoreGroupAt(next, log, log.num, i);
        assert InLog(SECTOR_APAL_HEADERS + 2 * i) && InLog(SECTOR_APAL_HEADERS + 2 * i + 1);
      }
      assert RestoreGroups(img, log, log.num) == RestoreGroups(next, log, log.num);
    }
  }

  /** Each disk but the first is what a power cut left of a recovery of the one before. */
  ghost predicate Reboots(disks: seq<Image>)
  {
    forall i :: 0 < i < |disks| ==> CutShort(disks[i - 1], disks[i])
  }

  ghost predicate CutShort(img: Image, next: Image)
  {
    && LogSane(img)
    && exists k :: 0 <= k <= |RestoreOps(img)| && CrashImage(Run(State(img, []), RestoreOps(img)[..k]), next)
  }

  lemma {:induction false} RebootsAgree(disks: seq<Image>)
    requires disks != [] && LogSane(disks[0]) && Reboots(disks)
    ensures LogSane(disks[|disks| - 1])
    ensures Recover(disks[|disks| - 1]) == Recover(disks[0])
  {
    var n := |disks| - 1;
    if n > 0 {
      RebootsAgree(disks[..n]);
      assert CutShort(disks[n - 1], disks[n]);
      var k :| 0 <= k <= |RestoreOps(disks[n - 1])| &&
        CrashImage(Run(State(disks[n - 1], []), RestoreOps(disks[n - 1])[..k]), disks[n]);
      RestoreRestarts(disks[n - 1], k, disks[n]);
    }
  }

  /** A flush cut anywhere, then any number of recoveries cut anywhere, then one that completes:
      still all of the batch or none of it. */
  lemma CrashAtomic(st: Disk, base: Log, batch: seq<Entry>, k: nat, disks: seq<Image>)
    requires Resting(st) && Ready(base) && Placed(batch, st.durable.Keys)
    requires k <= |CommitOps(PlanOf(base, batch))|
    requires disks != [] && Reboots(disks)
    requires CrashImage(Run(st, CommitOps(PlanOf(base, batch))[..k]), disks[0])
    ensures LogSane(disks[|disks| - 1])
    ensures
      var end := Recover(disks[|disks| - 1]);
      Kept(st, end) || Done(st, batch, end)
  {
    FlushAtomic(st, base, batch, k, disks[0]);
    RebootsAgree(disks);
  }

  // ----- the cache and its journal buffer -----

  /** A dirty buffer of the device once its checksum is current. */
  function Stamped(e: Entry, device: int): Entry
  {
    if Due(e, device) then Sealed(e) else e
  }

  function Cleaned(e: Entry, device: int): Entry
  {
    if Due(e, device) then Sealed(e).(dirty := false) else e
  }

  lemma {:induction false} BatchShorter(buf: seq<Entry>, i: nat, n: nat, device: int)
    requires i <= n <= |buf|
    ensures |Batch(buf, i, device)| <= |Batch(buf, n, device)|
  {
    if i < n {
      BatchShorter(buf, i, n - 1, device);
    }
  }

  lemma RunSnoc(st: Disk, ops: seq<Op<int, Sector>>, op: Op<int, Sector>)
    ensures Run(st, ops + [op]) == Step(Run(st, ops), op)
  {
    assert (ops + [op])[..|ops|] == ops;
  }

  lemma LogSnoc(st: Disk, batch: seq<Entry>, e: Entry)
    ensures
      var op := Transfer(HeaderWrites(SECTOR_APAL_HEADERS + 2 * |batch|, e.header));
      && Transfers(LogGroups(batch + [e])) == Transfers(LogGroups(batch)) + [op]
      && Run(st, Transfers(LogGroups(batch + [e]))) == Step(Run(st, Transfers(LogGroups(batch))), op)
  {
    var op := Transfer(HeaderWrites(SECTOR_APAL_HEADERS + 2 * |batch|, e.header));
    assert LogGroups(batch + [e]) == LogGroups(batch) + [op.writes];
    TransfersSnoc(LogGroups(batch), op.writes);
    RunSnoc(st, Transfers(LogGroups(batch)), op);
  }

  lemma HomeSnoc(st: Disk, batch: seq<Entry>, e: Entry)
    ensures
      var op := Transfer(HeaderWrites(e.sector, e.header));
      && Transfers(HomeGroups(batch + [e])) == Transfers(HomeGroups(batch)) + [op]
      && Run(st, Transfers(HomeGroups(batch + [e]))) == Step(Run(st, Transfers(HomeGroups(batch))), op)
  {
    var op := Transfer(HeaderWrites(e.sector, e.header));
    assert HomeGroups(batch + [e]) == HomeGroups(batch) + [op.writes];
    TransfersSnoc(HomeGroups(batch), op.writes);
    RunSnoc(st, Transfers(HomeGroups(batch)), op);
  }

  lemma RunHeader(st: Disk, ops: seq<Op<int, Sector>>, value: Sector)
    ensures Run(st, ops + HeaderOps(SECTOR_APAL, value)) ==
      Step(Step(Step(Run(st, ops), FlushCache), Transfer([Write(SECTOR_APAL, value)])), FlushCache)
  {
    RunConcat(st, ops, HeaderOps(SECTOR_APAL, value));
    HeaderRun(Run(st, ops), SECTOR_APAL, value);
    var mid := State(Settled(Run(st, ops)), [Write(SECTOR_APAL, value)]);
    assert mid.pending[..0] == [];
    assert [] + mid.pending == mid.pending;
    assert Apply(mid.durable, mid.pending[..0]) == mid.durable;
  }

  class HeaderCache {
    const buf: array<Entry>
    var journal: Log

    constructor (entries: seq<Entry>)
      requires entries != []
      ensures fresh(buf) && buf[..] == entries && journal == EmptyLog()
    {
      buf := new Entry[|entries|](i requires 0 <= i < |entries| => entries[i]);
      journal := EmptyLog();
    }

    method JournalFlush(drive: Drive<int, Sector>)
      requires LogShape(journal)
      modifies drive
      ensures drive.Now() == Run(old(drive.Now()), HeaderOps(SECTOR_APAL, Encode(journal)))
      ensures drive.ops == old(drive.ops) + HeaderOps(SECTOR_APAL, Encode(journal))
    {
      RunHeader(drive.Now(), [], Encode(journal));
      assert [] + HeaderOps(SECTOR_APAL, Encode(journal)) == HeaderOps(SECTOR_APAL, Encode(journal));
      drive.Flush();
      drive.Put([Write(SECTOR_APAL, Encode(journal))]);
      drive.Flush();
    }

    method JournalReset(drive: Drive<int, Sector>)
      modifies this, drive
      ensures journal == EmptyLog()
      ensures drive.Now() == Run(old(drive.Now()), HeaderOps(SECTOR_APAL, Encode(EmptyLog())))
      ensures drive.ops == old(drive.ops) + HeaderOps(SECTOR_APAL, Encode(EmptyLog()))
    {
      journal := EmptyLog();
      JournalFlush(drive);
    }

    method JournalWrite(i: nat, drive: Drive<int, Sector>)
      requires i < buf.Length && LogShape(journal) && 0 <= journal.num < LOG_SLOTS
      modifies this, buf, drive
      ensures buf[i] == Sealed(old(buf[i]))
      ensures forall j :: 0 <= j < buf.Length && j != i ==> buf[j] == old(buf[j])
      ensures journal == old(journal).(num := old(journal.num) + 1,
        sectors := old(journal.sectors)[old(journal.num) := old(buf[i]).sector])
      ensures
        var op := Transfer(HeaderWrites(SECTOR_APAL_HEADERS + 2 * old(journal.num), Sealed(old(buf[i])).header));
        drive.Now() == Step(old(drive.Now()), op) && drive.ops == old(drive.ops) + [op]
    {
      var sum := CheckSum(buf[i].header);
      buf[i] := buf[i].(header := buf[i].header.(sum := sum));
      drive.Put(HeaderWrites(journal.num * 2 + SECTOR_APAL_HEADERS, buf[i].header));
      journal := journal.(sectors := journal.sectors[journal.num := buf[i].sector]);
      journal := journal.(num := journal.num + 1);
    }

    method WriteBack(i: nat, drive: Drive<int, Sector>)
      requires i < buf.Length
      modifies buf, drive
      ensures buf[i] == old(buf[i]).(dirty := false)
      ensures forall j :: 0 <= j < buf.Length && j != i ==> buf[j] == old(buf[j])
      ensures
        var op := Transfer(HeaderWrites(old(buf[i]).sector, old(buf[i]).header));
        drive.Now() == Step(old(drive.Now()), op) && drive.ops == old(drive.ops) + [op]
    {
      drive.Put(HeaderWrites(buf[i].sector, buf[i].header));
      buf[i] := buf[i].(dirty := false);
    }

    /** The drive went from st0 by the commands `sent`, recorded after ops0. */
    ghost predicate Sent(drive: Drive<int, Sector>, st0: Disk, ops0: seq<Op<int, Sector>>, sent: seq<Op<int, Sector>>)
      reads drive
    {
      drive.ops == ops0 + sent && drive.Now() == Run(st0, sent)
    }

    /** Commits every dirty header of the device: the commands sent are exactly those of the
        plan, in order. */
    method FlushAllDirty(device: int, drive: Drive<int, Sector>)
      requires buf.Length > 0 && Ready(journal)
      requires |Batch(buf[..], buf.Length, device)| <= LOG_SLOTS
      modifies this, buf, drive
      ensures Sent(drive, old(drive.Now()), old(drive.ops),
        CommitOps(PlanOf(old(journal), Batch(old(buf[..]), buf.Length, device))))
      ensures journal == EmptyLog()
      ensures buf[0] == old(buf[0])
      ensures forall j :: 0 < j < buf.Length ==> buf[j] == Cleaned(old(buf[j]), device)
    {
      ghost var b0 := buf[..];
      ghost var batch := Batch(b0, buf.Length, device);
      ghost var p := PlanOf(journal, batch);
      CommitPhases(drive.Now(), drive.ops, p);
      LogPhase(device, drive);
      assert journal == Filled(old(journal), batch);
      JournalFlush(drive);
      HomePhase(device, drive, b0);
      JournalReset(drive);
    }

    /** The first loop of the flush. */
    method LogPhase(device: int, drive: Drive<int, Sector>)
      requires buf.Length > 0 && Ready(journal)
      requires |Batch(buf[..], buf.Length, device)| <= LOG_SLOTS
      modifies this, buf, drive
      ensures Names(old(journal), Batch(old(buf[..]), buf.Length, device))
      ensures Sent(drive, old(drive.Now()), old(drive.ops),
        Transfers(LogGroups(Batch(old(buf[..]), buf.Length, device))))
      ensures Stage(old(buf[..]), buf.Length, device)
    {
      ghost var b0, base, st0, ops0 := buf[..], journal, drive.Now(), drive.ops;
      var i := 1;
      while i < buf.Length
        invariant 1 <= i <= buf.Length
        invariant Stage(b0, i, device)
        invariant Names(base, Batch(b0, i, device))
        invariant Sent(drive, st0, ops0, Transfers(LogGroups(Batch(b0, i, device))))
      {
        LogIfDue(i, device, drive, b0, st0, ops0, base);
        i := i + 1;
      }
    }

    method LogIfDue(i: nat, device: int, drive: Drive<int, Sector>, ghost b0: seq<Entry>, ghost st0: Disk,
                    ghost ops0: seq<Op<int, Sector>>, ghost base: Log)
      requires 1 <= i < buf.Length && LogShape(base)
      requires Stage(b0, i, device) && |Batch(b0, buf.Length, device)| <= LOG_SLOTS
      requires Names(base, Batch(b0, i, device))
      requires Sent(drive, st0, ops0, Transfers(LogGroups(Batch(b0, i, device))))
      modifies this, buf, drive
      ensures Stage(b0, i + 1, device)
      ensures Names(base, Batch(b0, i + 1, device))
      ensures Sent(drive, st0, ops0, Transfers(LogGroups(Batch(b0, i + 1, device))))
    {
      BatchShorter(b0, i + 1, buf.Length, device);
      if buf[i].dirty && buf[i].device == device {
        LogStep(i, drive, st0, ops0, base, Batch(b0, i, device));
      }
    }

    /** The first n buffers have been logged. */
    ghost predicate Stage(b0: seq<Entry>, n: nat, device: int)
      reads this, buf
    {
      && |b0| == buf.Length > 0 && buf[0] == b0[0]
      && (forall j :: 0 < j < n && j < buf.Length ==> buf[j] == Stamped(b0[j], device))
      && forall j :: n <= j < buf.Length ==> buf[j] == b0[j]
    }

    /** The journal buffer names the batch so far. */
    ghost predicate Names(base: Log, done: seq<Entry>)
      requires LogShape(base)
      reads this
    {
      && journal.magic == base.magic && journal.num == |done| && |journal.sectors| == LOG_SLOTS
      && forall j :: 0 <= j < LOG_SLOTS ==>
          journal.sectors[j] == if j < |done| then done[j].sector else base.sectors[j]
    }

    method LogStep(i: nat, drive: Drive<int, Sector>, ghost st0: Disk, ghost ops0: seq<Op<int, Sector>>,
                   ghost base: Log, ghost done: seq<Entry>)
      requires i < buf.Length && LogShape(base) && |done| < LOG_SLOTS
      requires Names(base, done) && Sent(drive, st0, ops0, Transfers(LogGroups(done)))
      modifies this, buf, drive
      ensures Names(base, done + [Sealed(old(buf[i]))])
      ensures Sent(drive, st0, ops0, Transfers(LogGroups(done + [Sealed(old(buf[i]))])))
      ensures buf[i] == Sealed(old(buf[i]))
      ensures forall j :: 0 <= j < buf.Length && j != i ==> buf[j] == old(buf[j])
    {
      LogSnoc(st0, done, Sealed(buf[i]));
      JournalWrite(i, drive);
    }

    /** The second loop of the flush. */
    method HomePhase(device: int, drive: Drive<int, Sector>, ghost b0: seq<Entry>)
      requires Stage(b0, buf.Length, device)
      modifies buf, drive
      ensures Sent(drive, old(drive.Now()), old(drive.ops), Transfers(HomeGroups(Batch(b0, buf.Length, device))))
      ensures buf[0] == old(buf[0])
      ensures forall j :: 0 < j < buf.Length ==> buf[j] == Cleaned(b0[j], device)
    {
      ghost var st0, ops0 := drive.Now(), drive.ops;
      ghost var done: seq<Entry> := [];
      var i := 1;
      while i < buf.Length
        invariant 1 <= i <= buf.Length
        invariant buf[0] == old(buf[0])
        invariant forall j :: 0 < j < i ==> buf[j] == Cleaned(b0[j], device)
        invariant forall j :: i <= j < buf.Length ==> buf[j] == Stamped(b0[j], device)
        invariant done == Batch(b0, i, device)
        invariant Sent(drive, st0, ops0, Transfers(HomeGroups(done)))
      {
        if buf[i].dirty && buf[i].device == device {
          HomeStep(i, drive, st0, ops0, done);
          done := done + [Sealed(b0[i])];
        }
        i := i + 1;
      }
    }

    method HomeStep(i: nat, drive: Drive<int, Sector>, ghost st0: Disk, ghost ops0: seq<Op<int, Sector>>,
                    ghost done: seq<Entry>)
      requires i < buf.Length
      requires Sent(drive, st0, ops0, Transfers(HomeGroups(done)))
      modifies buf, drive
      ensures Sent(drive, st0, ops0, Transfers(HomeGroups(done + [old(buf[i])])))
      ensures buf[i] == old(buf[i]).(dirty := false)
      ensures forall j :: 0 <= j < buf.Length && j != i ==> buf[j] == old(buf[j])
    {
      HomeSnoc(st0, done, buf[i]);
      WriteBack(i, drive);
    }

    /** Start-up recovery: the drive ends as Recover says, the journal buffer ready for use. */
    method JournalRestore(drive: Drive<int, Sector>)
      requires drive.pending == [] && LogSane(drive.durable)
      modifies this, drive
      ensures Ready(journal)
      ensures drive.ops == old(drive.ops) + RestoreOps(old(drive.durable))
      ensures drive.Now() == Run(old(drive.Now()), RestoreOps(old(drive.durable)))
      ensures drive.Now() == State(Recover(old(drive.durable)), [])
    {
      ghost var img := drive.durable;
      ghost var p := RestorePlan(img);
      ghost var ops0 := drive.ops;
      var sector := drive.Get(SECTOR_APAL);
      journal := Decode(sector);
      if journal.magic == APAL_MAGIC {
        if journal.num == 0 {
          return;
        }
        CopyHome(drive, img);
      }
      InstallDone(img, p);
      InstallPhases(State(img, []), ops0, p);
      JournalReset(drive);
    }

    /** The replay loop: every logged header is read back and written home. */
    method CopyHome(drive: Drive<int, Sector>, ghost img: Image)
      requires LogSane(img) && drive.Now() == State(img, [])
      requires journal == Decode(img[SECTOR_APAL]) && journal.magic == APAL_MAGIC
      modifies drive
      ensures Sent(drive, State(img, []), old(drive.ops), Transfers(RestoreGroups(img, journal, journal.num)))
    {
      ghost var st0 := State(img, []);
      var i := 0;
      CopyBounds(img, journal);
      hide Run, RestoreGroups, PairWrites, Transfers;
      while i < journal.num
        invariant 0 <= i && (journal.num >= 0 ==> i <= journal.num) && (journal.num < 0 ==> i == 0)
        invariant Sent(drive, st0, old(drive.ops), Transfers(RestoreGroups(img, journal, i)))
      {
        ghost var next := CopyStep(img, journal, i, drive.Now());
        CopyOne(i, drive, next);
        i := i + 1;
      }
    }

    method CopyOne(i: nat, drive: Drive<int, Sector>, ghost next: seq<Write<int, Sector>>)
      requires i < |journal.sectors|
      requires SECTOR_APAL_HEADERS + 2 * i in Settled(drive.Now())
      requires SECTOR_APAL_HEADERS + 2 * i + 1 in Settled(drive.Now())
      requires next == PairWrites(journal.sectors[i], Settled(drive.Now())[SECTOR_APAL_HEADERS + 2 * i],
        Settled(drive.Now())[SECTOR_APAL_HEADERS + 2 * i + 1])
      modifies drive
      ensures drive.Now() == Step(old(drive.Now()), Transfer(next))
      ensures drive.ops == old(drive.ops) + [Transfer(next)]
    {
      var s := SECTOR_APAL_HEADERS + 2 * i;
      var low := drive.Get(s);
      var high := drive.Get(s + 1);
      drive.Put(PairWrites(journal.sectors[i], low, high));
    }
  }

  lemma RestoreSnoc(img: Image, log: Log, i: nat)
    requires LogShape(log) && i < LOG_SLOTS
    ensures
      var op := Transfer(RestoreGroup(img, log, i));
      && Transfers(RestoreGroups(img, log, i + 1)) == Transfers(RestoreGroups(img, log, i)) + [op]
      && Run(State(img, []), Transfers(RestoreGroups(img, log, i + 1)))
         == Step(Run(State(img, []), Transfers(RestoreGroups(img, log, i))), op)
  {
    var op := Transfer(RestoreGroup(img, log, i));
    assert RestoreGroups(img, log, i + 1) == RestoreGroups(img, log, i) + [op.writes];
    TransfersSnoc(RestoreGroups(img, log, i), op.writes);
    RunSnoc(State(img, []), Transfers(RestoreGroups(img, log, i)), op);
  }

  /** Nothing is replayed before the first header, nor of a log with a negative count. */
  lemma CopyBounds(img: Image, log: Log)
    requires LogShape(log) && log.num <= LOG_SLOTS
    ensures Transfers(RestoreGroups(img, log, 0)) == [] && Run(State(img, []), []) == State(img, [])
    ensures log.num < 0 ==> RestoreGroups(img, log, log.num) == RestoreGroups(img, log, 0)
  {
  }

  lemma RestoreGroupsPrefix(img: Image, log: Log, i: nat, n: nat)
    requires LogShape(log) && i <= n <= LOG_SLOTS
    ensures RestoreGroups(img, log, i) == RestoreGroups(img, log, n)[..i]
  {
  }

  /** The replay loop never writes what it still has to read. */
  lemma LogIntact(img: Image, log: Log, i: nat, now: Disk, a: int)
    requires LogSane(img) && Decode(img[SECTOR_APAL]).magic == APAL_MAGIC && InLog(a)
    requires log == Decode(img[SECTOR_APAL]) && i <= log.num
    requires now == Run(State(img, []), Transfers(RestoreGroups(img, log, i)))
    ensures a in Settled(now) && Settled(now)[a] == img[a]
  {
    var groups := RestoreGroups(img, log, log.num);
    var ws := Flatten(RestoreGroups(img, log, i));
    RestoreGroupsPrefix(img, log, i, log.num);
    RestoreGeometry(img);
    forall j | 0 <= j < |ws| ensures ws[j].addr != a {
      FlattenPrefix(groups, i, ws[j]);
    }
    ApplyUntouched(img, ws, a);
    RunTransfers(State(img, []), RestoreGroups(img, log, i));
    assert [] + ws == ws;
  }

  /** Reading one logged header and writing it home is one step of the replay. */
  lemma CopyStep(img: Image, log: Log, i: nat, now: Disk) returns (next: seq<Write<int, Sector>>)
    requires LogSane(img) && log == Decode(img[SECTOR_APAL]) && log.magic == APAL_MAGIC
    requires i < log.num
    requires now == Run(State(img, []), Transfers(RestoreGroups(img, log, i)))
    ensures SECTOR_APAL_HEADERS + 2 * i in Settled(now) && SECTOR_APAL_HEADERS + 2 * i + 1 in Settled(now)
    ensures next == PairWrites(log.sectors[i],
      Settled(now)[SECTOR_APAL_HEADERS + 2 * i], Settled(now)[SECTOR_APAL_HEADERS + 2 * i + 1])
    ensures Transfers(RestoreGroups(img, log, i + 1)) == Transfers(RestoreGroups(img, log, i)) + [Transfer(next)]
    ensures Run(State(img, []), Transfers(RestoreGroups(img, log, i + 1))) == Step(now, Transfer(next))
  {
    LogIntact(img, log, i, now, SECTOR_APAL_HEADERS + 2 * i);
    LogIntact(img, log, i, now, SECTOR_APAL_HEADERS + 2 * i + 1);
    next := RestoreGroup(img, log, i);
    RestoreSnoc(img, log, i);
  }
}
