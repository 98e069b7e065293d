/** The partition table on a drive that may lose power: its batches, each sent as the journalled
    commands of the header cache, and data written in between.  Whenever the power goes, what
    recovery finds is the table before a change or one that a batch committed. */
module ChainCrash {
  import opened Words
  import opened Device
  import opened WriteAhead
  import opened ApaJournal
  import opened JournalRuns
  import opened Powers
  import C = ApaChain
  import T = ApaTable
  import L = LinkRepair

  /** How a header is laid out in its two sectors, but for the checksum. */
  type Layout = C.Header -> Block

  /** Partition i has its header where it starts, linked as it should be and checksummed. */
  ghost predicate ShownAt(img: Image, c: C.Chain, i: int, layout: Layout)
    requires 0 <= i < |c|
  {
    HeaderAt(img, c[i].start, layout(C.HeaderOf(c, i)).Stamped())
  }

  /** The headers of the chain are on the disk. */
  ghost predicate Shown(img: Image, c: C.Chain, layout: Layout)
  {
    forall i :: 0 <= i < |c| ==> ShownAt(img, c, i, layout)
  }

  /** The disk from sector 0 to `end` is on the drive, and the log before the second grid point. */
  ghost predicate OnDrive(keys: set<int>, unit: int, end: int)
  {
    && Pow2(unit) && LOG_END <= unit <= end <= WORD_RANGE
    && forall x :: 0 <= x < end ==> x in keys
  }

  predicate OnGrid(s: int, unit: int, end: int)
    requires unit > 0
  {
    0 <= s && s % unit == 0 && s + unit <= end
  }

  ghost predicate Gridded(c: C.Chain, unit: int, end: int)
  {
    unit > 0 && forall i :: 0 <= i < |c| ==> OnGrid(c[i].start, unit, end)
  }

  /** Headers on the grid are clear of the log and of each other. */
  lemma GridClear(s: int, r: int, keys: set<int>, unit: int, end: int)
    requires OnDrive(keys, unit, end) && OnGrid(s, unit, end) && OnGrid(r, unit, end)
    ensures Clear(s, keys) && !InLog(s) && !InLog(s + 1) && 0 <= s < WORD_RANGE
    ensures s != r ==> Disjoint(s, r) && s != r + 1 && s + 1 != r
  {
    if s != 0 {
      GridStep(s, 0, unit);
    }
    if s < r {
      GridStep(r, s, unit);
    } else if r < s {
      GridStep(s, r, unit);
    }
  }

  lemma GridStep(s: int, r: int, unit: int)
    requires unit > 0 && s % unit == 0 && r % unit == 0 && r < s
    ensures s >= r + unit
  {
    var a, b := s / unit, r / unit;
    assert s == a * unit && r == b * unit;
    assert a >= b + 1 ==> a * unit >= (b + 1) * unit;
    assert a <= b ==> a * unit <= b * unit;
  }

  /** Partitions no smaller than the grid start on it. */
  lemma StartGrid(c: C.Chain, unit: int, end: int, i: int)
    requires C.Tiled(c) && T.Bounded(c, unit, end) && Pow2(unit) && 0 <= i < |c|
    ensures unit > 0 && OnGrid(c[i].start, unit, end)
  {
    assert C.Aligned(c[i]);
    Pow2Divides(unit, c[i].length);
    ModSplit(c[i].start, unit, c[i].length);
    if i > 0 {
      C.Apart(c, 0, i);
    }
  }

  lemma ChainGrid(c: C.Chain, unit: int, end: int)
    requires C.Tiled(c) && T.Bounded(c, unit, end) && Pow2(unit)
    ensures Gridded(c, unit, end)
  {
    hide C.Tiled, T.Bounded, OnGrid, Pow2;
    Pow2Positive(unit);
    forall i | 0 <= i < |c| ensures OnGrid(c[i].start, unit, end) {
      StartGrid(c, unit, end, i);
    }
  }

  lemma Pow2Positive(n: int)
    requires Pow2(n)
    ensures n > 0
  {
  }

  lemma StartsOnGrid(c: C.Chain, dirty: set<int>, unit: int, end: int)
    requires C.Tiled(c) && T.Bounded(c, unit, end) && Pow2(unit) && T.OnStarts(c, dirty)
    ensures unit > 0 && AllOnGrid(dirty, unit, end)
  {
    hide C.Tiled, T.Bounded, OnGrid;
    forall s | s in dirty ensures OnGrid(s, unit, end) {
      assert T.IsStart(c, s);
      var i :| 0 <= i < |c| && c[i].start == s;
      StartGrid(c, unit, end, i);
    }
  }

  // ----- one batch -----

  /** The batch is the dirty headers of the table, in some order. */
  ghost predicate Lists(batch: seq<Entry>, dirty: set<int>, t: C.Table, layout: Layout)
  {
    && dirty <= t.Keys
    && (forall i :: 0 <= i < |batch| ==>
      batch[i].sector as int in dirty && batch[i].header == layout(t[batch[i].sector]).Stamped())
    && (forall i, j :: 0 <= i < j < |batch| ==> batch[i].sector != batch[j].sector)
    && forall s :: s in dirty ==> Named(batch, s)
  }

  ghost predicate Named(batch: seq<Entry>, s: int)
  {
    exists i :: 0 <= i < |batch| && batch[i].sector as int == s
  }

  ghost predicate AllOnGrid(dirty: set<int>, unit: int, end: int)
    requires unit > 0
  {
    forall s :: s in dirty ==> OnGrid(s, unit, end)
  }

  lemma ListsPlaced(batch: seq<Entry>, dirty: set<int>, t: C.Table, layout: Layout, keys: set<int>, unit: int, end: int)
    requires Lists(batch, dirty, t, layout) && OnDrive(keys, unit, end) && AllOnGrid(dirty, unit, end)
    requires |dirty| <= LOG_SLOTS
    ensures Placed(batch, keys)
  {
    var w := seq(|batch|, i requires 0 <= i < |batch| => batch[i].sector as int);
    L.DistinctBound(w, dirty);
    forall i, j | 0 <= i < j < |batch| ensures Disjoint(batch[i].sector, batch[j].sector) {
      GridClear(batch[i].sector, batch[j].sector, keys, unit, end);
    }
    forall i | 0 <= i < |batch| ensures Clear(batch[i].sector, keys) {
      GridClear(batch[i].sector, batch[i].sector, keys, unit, end);
    }
  }

  lemma NotHome(batch: seq<Entry>, dirty: set<int>, t: C.Table, layout: Layout, s: int, keys: set<int>, unit: int,
                top: int)
    requires Lists(batch, dirty, t, layout) && OnDrive(keys, unit, top) && AllOnGrid(dirty, unit, top)
    requires s !in dirty && OnGrid(s, unit, top)
    ensures !Touches(Flatten(HomeGroups(batch)), s) && !Touches(Flatten(HomeGroups(batch)), s + 1)
  {
    HomeTouches(batch, s);
    HomeTouches(batch, s + 1);
    forall j | 0 <= j < |batch|
      ensures s != batch[j].sector && s != batch[j].sector as int + 1 && s + 1 != batch[j].sector {
      GridClear(s, batch[j].sector, keys, unit, top);
    }
  }

  /** No write goes to a header of the chain. */
  ghost predicate Missed(writes: seq<Write<int, Sector>>, c: C.Chain)
  {
    forall i :: 0 <= i < |c| ==> !Touches(writes, c[i].start) && !Touches(writes, c[i].start + 1)
  }

  /** The journal rests and the drive shows the chain; data may wait in its cache. */
  ghost predicate AtRest(st: Disk, c: C.Chain, layout: Layout, unit: int, end: int)
  {
    && Resting(st) && OnDrive(st.durable.Keys, unit, end)
    && Gridded(c, unit, end) && Shown(st.durable, c, layout) && Missed(st.pending, c)
  }

  /** The batch sent for a commit lists the headers that were dirty then. */
  ghost predicate SentFor(batch: seq<Entry>, d: T.Commit, commit: T.Commit, layout: Layout)
  {
    && |batch| <= LOG_SLOTS
    && exists dirty :: T.BatchBy(d, commit, dirty) && Lists(batch, dirty, commit.disk, layout)
  }

  lemma SentPlaced(batch: seq<Entry>, d: T.Commit, commit: T.Commit, layout: Layout, keys: set<int>, unit: int,
                   end: int)
    returns (dirty: set<int>)
    requires OnDrive(keys, unit, end) && T.Sited(commit, unit, end) && SentFor(batch, d, commit, layout)
    ensures T.BatchBy(d, commit, dirty) && Lists(batch, dirty, commit.disk, layout)
    ensures unit > 0 && AllOnGrid(dirty, unit, end) && Placed(batch, keys)
  {
    dirty :| T.BatchBy(d, commit, dirty) && Lists(batch, dirty, commit.disk, layout);
    hide Lists, C.Tiled, C.Holds, T.Bounded, T.OnStarts, T.NewStarts, Pow2, Placed;
    StartsOnGrid(commit.chain, dirty, unit, end);
    ListsPlaced(batch, dirty, commit.disk, layout, keys, unit, end);
  }

  /** What a cut keeps of a drive at rest shows the chain. */
  lemma KeptShows(st: Disk, c: C.Chain, layout: Layout, unit: int, end: int, img: Image)
    requires AtRest(st, c, layout, unit, end) && Kept(st, img)
    ensures Shown(img, c, layout)
  {
    forall i | 0 <= i < |c| ensures ShownAt(img, c, i, layout) {
      var s := c[i].start;
      assert OnGrid(s, unit, end) && ShownAt(st.durable, c, i, layout);
      GridClear(s, s, st.durable.Keys, unit, end);
      KeptAt(st, img, s);
      KeptAt(st, img, s + 1);
    }
  }

  /** A sector that nothing waits for is kept. */
  lemma KeptAt(st: Disk, img: Image, s: int)
    requires Kept(st, img) && s in st.durable && !InLog(s) && !Touches(st.pending, s)
    ensures s in img && img[s] == st.durable[s]
  {
    assert MayHold(st, s, img[s]);
  }

  lemma SettledAt(st: Disk, s: int)
    requires s in st.durable && !Touches(st.pending, s)
    ensures s in Settled(st) && Settled(st)[s] == st.durable[s]
  {
    ApplyUntouched(st.durable, st.pending, s);
  }

  /** After a batch the drive shows the next chain. */
  lemma DoneShows(st: Disk, d: T.Commit, next: T.Commit, batch: seq<Entry>, layout: Layout, unit: int, end: int,
                  img: Image)
    requires AtRest(st, d.chain, layout, unit, end) && T.Batched(d, next, unit, end) && SentFor(batch, d, next, layout)
    requires Done(st, batch, img)
    ensures Gridded(next.chain, unit, end) && Shown(img, next.chain, layout)
  {
    var keys := st.durable.Keys;
    var dirty := SentPlaced(batch, d, next, layout, keys, unit, end);
    ChainGrid(next.chain, unit, end);
    hide C.Tiled, T.Bounded, Pow2, Placed;
    forall i | 0 <= i < |next.chain| ensures ShownAt(img, next.chain, i, layout) {
      if next.chain[i].start in dirty {
        ListedShown(next, dirty, batch, layout, st, img, i);
      } else {
        UnlistedShown(st, d, next, dirty, batch, layout, unit, end, img, i);
      }
    }
  }

  lemma ListedShown(next: T.Commit, dirty: set<int>, batch: seq<Entry>, layout: Layout, st: Disk, img: Image, i: int)
    requires Lists(batch, dirty, next.disk, layout) && Done(st, batch, img) && C.Holds(next.disk, next.chain)
    requires 0 <= i < |next.chain| && next.chain[i].start in dirty
    ensures ShownAt(img, next.chain, i, layout)
  {
    assert C.HoldsAt(next.disk, next.chain, i);
    assert Named(batch, next.chain[i].start);
    var l :| 0 <= l < |batch| && batch[l].sector as int == next.chain[i].start;
    assert HeaderAt(img, batch[l].sector, batch[l].header);
  }

  lemma UnlistedShown(st: Disk, d: T.Commit, next: T.Commit, dirty: set<int>, batch: seq<Entry>, layout: Layout,
                      unit: int, end: int, img: Image, i: int)
    requires AtRest(st, d.chain, layout, unit, end) && C.Holds(d.disk, d.chain) && C.Holds(next.disk, next.chain)
    requires T.BatchBy(d, next, dirty) && Lists(batch, dirty, next.disk, layout) && AllOnGrid(dirty, unit, end)
    requires Done(st, batch, img) && 0 <= i < |next.chain| && next.chain[i].start !in dirty
    ensures ShownAt(img, next.chain, i, layout)
  {
    hide Lists, T.OnStarts;
    var s := next.chain[i].start;
    assert T.IsStart(d.chain, s);
    var j :| 0 <= j < |d.chain| && d.chain[j].start == s;
    assert C.HoldsAt(next.disk, next.chain, i) && C.HoldsAt(d.disk, d.chain, j);
    assert ShownAt(st.durable, d.chain, j, layout);
    GridClear(s, s, st.durable.Keys, unit, end);
    NotHome(batch, dirty, next.disk, layout, s, st.durable.Keys, unit, end);
    SettledAt(st, s);
    SettledAt(st, s + 1);
  }

  // ----- runs -----

  /** Data that misses the headers of the chain, or the batch of the next commit. */
  ghost predicate StepOk(d: T.Commit, e: Event, next: T.Commit, layout: Layout, keys: set<int>, unit: int, end: int)
  {
    match e
    case Data(writes) => next == d && Missed(writes, d.chain) && Within(writes, keys) && !Touches(writes, SECTOR_APAL)
    case Flush(entries) => T.Batched(d, next, unit, end) && SentFor(entries, d, next, layout)
  }

  /** The commits follow one another as the events say. */
  ghost predicate Follows(commits: seq<T.Commit>, events: seq<Event>, layout: Layout, keys: set<int>, unit: int,
                          end: int)
  {
    && |commits| == |events| + 1
    && forall i {:trigger events[i]} :: 0 <= i < |events| ==>
      StepOk(commits[i], events[i], commits[i + 1], layout, keys, unit, end)
  }

  lemma FollowsOk(commits: seq<T.Commit>, events: seq<Event>, layout: Layout, keys: set<int>, unit: int, end: int)
    requires Follows(commits, events, layout, keys, unit, end) && OnDrive(keys, unit, end)
    ensures EventsOk(events, keys)
  {
    hide T.Batched, SentFor, Missed, Placed;
    forall i | 0 <= i < |events| ensures Sized(events[i]) && EventOk(events[i], keys) {
      assert StepOk(commits[i], events[i], commits[i + 1], layout, keys, unit, end);
      if events[i].Flush? {
        SentOk(events[i].entries, commits[i], commits[i + 1], layout, keys, unit, end);
      }
    }
  }

  lemma SentOk(batch: seq<Entry>, d: T.Commit, next: T.Commit, layout: Layout, keys: set<int>, unit: int, end: int)
    requires OnDrive(keys, unit, end) && T.Batched(d, next, unit, end) && SentFor(batch, d, next, layout)
    ensures Placed(batch, keys) && |batch| <= LOG_SLOTS
  {
    var dirty := SentPlaced(batch, d, next, layout, keys, unit, end);
  }

  /** Between events the drive shows the chain of the last commit. */
  lemma {:induction false} RunShows(st: Disk, base: Log, commits: seq<T.Commit>, events: seq<Event>, layout: Layout,
                                    unit: int, end: int, j: int)
    requires Ready(base) && Follows(commits, events, layout, st.durable.Keys, unit, end) && 0 <= j <= |events|
    requires AtRest(st, commits[0].chain, layout, unit, end)
    ensures |commits| == |events| + 1 && AllSized(events)
    ensures AtRest(After(st, base, events, j), commits[j].chain, layout, unit, end)
    ensures After(st, base, events, j).durable.Keys == st.durable.Keys
  {
    hide *;
    var keys := st.durable.Keys;
    FollowsSize(commits, events, layout, keys, unit, end);
    RestOnDrive(st, commits[0].chain, layout, unit, end);
    FollowsOk(commits, events, layout, keys, unit, end);
    AllSizedOf(events, keys);
    if j == 0 {
      NothingRun(st, base, events);
    } else {
      RunShows(st, base, commits, events, layout, unit, end, j - 1);
      AfterEvent(st, base, events, j - 1);
      FollowsAt(commits, events, layout, keys, unit, end, j - 1);
      EventShows(After(st, base, events, j - 1), events[j - 1], After(st, base, events, j), commits[j - 1], commits[j],
        layout, unit, end);
    }
  }

  lemma RestOnDrive(st: Disk, c: C.Chain, layout: Layout, unit: int, end: int)
    requires AtRest(st, c, layout, unit, end)
    ensures Resting(st) && OnDrive(st.durable.Keys, unit, end)
  {
    hide Resting, OnDrive, Gridded, Shown, Missed;
  }

  lemma FollowsSize(commits: seq<T.Commit>, events: seq<Event>, layout: Layout, keys: set<int>, unit: int, end: int)
    requires Follows(commits, events, layout, keys, unit, end)
    ensures |commits| == |events| + 1
  {
    hide StepOk;
  }

  lemma FollowsAt(commits: seq<T.Commit>, events: seq<Event>, layout: Layout, keys: set<int>, unit: int, end: int,
                  j: int)
    requires Follows(commits, events, layout, keys, unit, end) && 0 <= j < |events|
    ensures |commits| == |events| + 1 && StepOk(commits[j], events[j], commits[j + 1], layout, keys, unit, end)
  {
    hide StepOk;
  }

  lemma AllSizedOf(events: seq<Event>, keys: set<int>)
    requires EventsOk(events, keys)
    ensures AllSized(events)
  {
    hide AllSized, EventOk;
  }

  lemma EventShows(st: Disk, e: Event, next: Disk, d: T.Commit, commit: T.Commit, layout: Layout, unit: int, end: int)
    requires AtRest(st, d.chain, layout, unit, end) && StepOk(d, e, commit, layout, st.durable.Keys, unit, end)
    requires Resting(next) && next.durable.Keys == st.durable.Keys
    requires e.Data? ==> next == State(st.durable, st.pending + e.writes)
    requires e.Flush? ==> next.pending == [] && Done(st, e.entries, next.durable)
    ensures AtRest(next, commit.chain, layout, unit, end)
  {
    hide T.Batched, SentFor, Shown, Gridded, Resting, Done;
    match e
    case Data(writes) =>
      forall i | 0 <= i < |d.chain|
        ensures !Touches(next.pending, d.chain[i].start) && !Touches(next.pending, d.chain[i].start + 1) {
        MoreTouches(st.pending, writes, d.chain[i].start);
        MoreTouches(st.pending, writes, d.chain[i].start + 1);
      }
    case Flush(entries) =>
      DoneShows(st, d, commit, entries, layout, unit, end, next.durable);
  }

  /** What is recovered shows the chain. */
  ghost predicate Recovers(disks: seq<Image>, c: C.Chain, layout: Layout)
    requires disks != []
  {
    LogSane(disks[|disks| - 1]) && Shown(Recover(disks[|disks| - 1]), c, layout)
  }

  /** Cut anywhere in a run of batches and data, and recovered with any number of cuts: the chain
      of one of the commits, and, outside the log, what a cut at that point could have left. */
  lemma TableCrash(st: Disk, base: Log, commits: seq<T.Commit>, events: seq<Event>, layout: Layout, unit: int, end: int,
                   k: nat, disks: seq<Image>) returns (j: int)
    requires Follows(commits, events, layout, st.durable.Keys, unit, end)
    requires AtRest(st, commits[0].chain, layout, unit, end)
    requires Interrupted(st, base, events, k, disks)
    ensures 0 <= j <= |events| && disks != [] && Recovers(disks, commits[j].chain, layout)
    ensures Ready(base) && AllSized(events) && LogSane(disks[|disks| - 1])
    ensures Kept(After(st, base, events, j), Recover(disks[|disks| - 1]))
  {
    FollowsOk(commits, events, layout, st.durable.Keys, unit, end);
    LogOnDrive(st.durable.Keys, unit, end);
    hide Follows, Gridded, Shown, Missed, OnDrive, Resting, Interrupted, EventsOk, LogSane, Recover, Kept, Ready,
      AllSized;
    j := RunCrash(st, base, events, k, disks);
    RunShows(st, base, commits, events, layout, unit, end, j);
    hide AtRest, After;
    KeptShows(After(st, base, events, j), commits[j].chain, layout, unit, end, Recover(disks[|disks| - 1]));
  }

  lemma LogOnDrive(keys: set<int>, unit: int, end: int)
    requires OnDrive(keys, unit, end)
    ensures forall s :: InLog(s) ==> s in keys
  {
  }

  // ----- the changes to the partition table -----

  /** The batches are those of the commits of the log from `from` on. */
  ghost predicate Sends(batches: seq<seq<Entry>>, origin: T.Commit, log: seq<T.Commit>, from: nat, layout: Layout)
  {
    && |log| == from + |batches|
    && forall i {:trigger batches[i]} :: 0 <= i < |batches| ==>
        SentFor(batches[i], T.CommitAt(origin, log, from + i), log[from + i], layout)
  }

  function Events(batches: seq<seq<Entry>>): (events: seq<Event>)
    ensures |events| == |batches| && forall i :: 0 <= i < |batches| ==> events[i] == Flush(batches[i])
  {
    seq(|batches|, i requires 0 <= i < |batches| => Flush(batches[i]))
  }

  /** What the platter held before the batches, and after each of them. */
  function Commits(origin: T.Commit, log: seq<T.Commit>, from: nat): (commits: seq<T.Commit>)
    requires from <= |log|
    ensures |commits| == |log| - from + 1
    ensures forall i {:trigger commits[i]} :: 0 <= i < |commits| ==> commits[i] == T.CommitAt(origin, log, from + i)
  {
    seq(|log| - from + 1, i requires 0 <= i => T.CommitAt(origin, log, from + i))
  }

  lemma SendsFollow(batches: seq<seq<Entry>>, origin: T.Commit, log: seq<T.Commit>, now: T.Commit, from: nat,
                    layout: Layout, keys: set<int>, unit: int, end: int)
    requires T.Recording(origin, log, now, unit, end) && Sends(batches, origin, log, from, layout)
    ensures |log| == from + |batches| && Follows(Commits(origin, log, from), Events(batches), layout, keys, unit, end)
  {
    hide T.Batched, SentFor, T.Sited;
    var commits, events := Commits(origin, log, from), Events(batches);
    forall i | 0 <= i < |events| ensures StepOk(commits[i], events[i], commits[i + 1], layout, keys, unit, end) {
      assert T.Batched(T.CommitAt(origin, log, from + i), log[from + i], unit, end);
      assert SentFor(batches[i], T.CommitAt(origin, log, from + i), log[from + i], layout);
      assert commits[i + 1] == log[from + i];
    }
  }

  /** A change to the partition table commits any number of batches.  Cut anywhere among their
      commands, and recovered with any number of cuts, the drive shows the chain from before the
      change or one that a batch of it committed. */
  lemma ChangeCrash(batches: seq<seq<Entry>>, origin: T.Commit, log: seq<T.Commit>, now: T.Commit, from: nat,
                    layout: Layout, unit: int, end: int, st: Disk, base: Log, k: nat, disks: seq<Image>)
    returns (j: int)
    requires T.Recording(origin, log, now, unit, end) && Sends(batches, origin, log, from, layout)
    requires AtRest(st, T.CommitAt(origin, log, from).chain, layout, unit, end)
    requires Interrupted(st, base, Events(batches), k, disks)
    ensures from <= j <= |log| && disks != [] && Recovers(disks, T.CommitAt(origin, log, j).chain, layout)
  {
    hide *;
    SendsFollow(batches, origin, log, now, from, layout, st.durable.Keys, unit, end);
    var commits := Commits(origin, log, from);
    j := TableCrash(st, base, commits, Events(batches), layout, unit, end, k, disks);
    j := from + j;
  }

  /** Whatever a change to the partition table does in batches that are good for chain c, a power
      cut leaves a gapless, correctly linked chain in which every used partition but the target
      is as in c. */
  lemma ChangeSurvives(table: T.PartitionTable, target: int, batches: seq<seq<Entry>>, from: nat, layout: Layout,
                       st: Disk, base: Log, k: nat, disks: seq<Image>) returns (d: C.Chain)
    requires table.Valid() && T.GoodCommits(table.log, from, T.CommitAt(table.origin, table.log, from).chain, target)
    requires Sends(batches, table.origin, table.log, from, layout)
    requires AtRest(st, T.CommitAt(table.origin, table.log, from).chain, layout, table.unit, table.end)
    requires Interrupted(st, base, Events(batches), k, disks)
    ensures disks != [] && Recovers(disks, d, layout)
    ensures C.Tiled(d) && C.SameUsed(T.CommitAt(table.origin, table.log, from).chain, d, target)
  {
    var now := T.Commit(table.disk, table.chain);
    assert from <= |table.log|;
    CommitTiled(table, from);
    hide AtRest, Interrupted, Recovers, T.Recording, Sends, C.Holds, C.Tiled, C.SameUsed;
    var j := ChangeCrash(batches, table.origin, table.log, now, from, layout, table.unit, table.end, st, base, k,
      disks);
    d := T.CommitAt(table.origin, table.log, j).chain;
    if j > from {
      assert T.GoodCommit(table.log[j - 1], T.CommitAt(table.origin, table.log, from).chain, target);
    } else {
      C.SameUsedSelf(d, target);
    }
  }

  lemma CommitTiled(table: T.PartitionTable, k: nat)
    requires table.Valid() && k <= |table.log|
    ensures C.Tiled(T.CommitAt(table.origin, table.log, k).chain)
  {
    hide C.Holds, C.Tiled, T.Bounded, T.BatchBy;
    if 0 < k {
      assert T.Batched(T.CommitAt(table.origin, table.log, k - 1), table.log[k - 1], table.unit, table.end);
    } else if table.log != [] {
      assert T.Batched(T.CommitAt(table.origin, table.log, 0), table.log[0], table.unit, table.end);
    }
  }

  // ----- the header cache -----

  /** The buffers of the header cache due for a device hold the dirty headers of the table. */
  ghost predicate Mirrors(buf: seq<Entry>, device: int, dirty: set<int>, t: C.Table, layout: Layout)
  {
    && dirty <= t.Keys
    && (forall i :: 0 < i < |buf| && Due(buf[i], device) ==>
          buf[i].sector as int in dirty && buf[i].header.Stamped() == layout(t[buf[i].sector]).Stamped())
    && (forall i, j :: 0 < i < j < |buf| && Due(buf[i], device) && Due(buf[j], device) ==>
      buf[i].sector != buf[j].sector)
    && forall s :: s in dirty ==> Buffered(buf, |buf|, device, s)
  }

  ghost predicate Buffered(buf: seq<Entry>, n: nat, device: int, s: int)
  {
    exists i :: 0 < i < n <= |buf| && Due(buf[i], device) && buf[i].sector as int == s
  }

  ghost predicate From(e: Entry, buf: seq<Entry>, n: nat, device: int)
  {
    exists i :: 0 < i < n <= |buf| && Due(buf[i], device) && e == Sealed(buf[i])
  }

  ghost predicate AllFrom(b: seq<Entry>, buf: seq<Entry>, n: nat, device: int)
  {
    forall i :: 0 <= i < |b| ==> From(b[i], buf, n, device)
  }

  lemma {:induction false} BatchMirrors(buf: seq<Entry>, n: nat, device: int, dirty: set<int>, t: C.Table,
                                        layout: Layout)
    requires Mirrors(buf, device, dirty, t, layout) && n <= |buf|
    ensures
      var b := Batch(buf, n, device);
      && AllFrom(b, buf, n, device)
      && (forall i, j :: 0 <= i < j < |b| ==> b[i].sector != b[j].sector)
      && forall s :: Buffered(buf, n, device, s) ==> Named(b, s)
  {
    if n > 1 {
      var short, b := Batch(buf, n - 1, device), Batch(buf, n, device);
      BatchMirrors(buf, n - 1, device, dirty, t, layout);
      forall i | 0 <= i < |b| ensures From(b[i], buf, n, device) {
        if i < |short| {
          assert From(short[i], buf, n - 1, device);
        } else {
          assert Due(buf[n - 1], device) && b[i] == Sealed(buf[n - 1]);
        }
      }
      forall i, j | 0 <= i < j < |b| ensures b[i].sector != b[j].sector {
        assert From(short[i], buf, n - 1, device);
      }
      forall s | Buffered(buf, n, device, s) ensures Named(b, s) {
        if Buffered(buf, n - 1, device, s) {
          assert Named(short, s);
          var i :| 0 <= i < |short| && short[i].sector as int == s;
          assert b[i].sector as int == s;
        } else {
          assert b[|b| - 1].sector as int == s;
        }
      }
    }
  }

  /** What the flush of the header cache sends is the batch of the dirty headers. */
  lemma FlushLists(buf: seq<Entry>, device: int, dirty: set<int>, t: C.Table, layout: Layout)
    requires Mirrors(buf, device, dirty, t, layout)
    ensures Lists(Batch(buf, |buf|, device), dirty, t, layout)
  {
    var b := Batch(buf, |buf|, device);
    BatchMirrors(buf, |buf|, device, dirty, t, layout);
    forall i | 0 <= i < |b|
      ensures b[i].sector as int in dirty && b[i].header == layout(t[b[i].sector]).Stamped() {
      assert From(b[i], buf, |buf|, device);
    }
  }
}
