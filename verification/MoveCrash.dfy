/** The defragmenter on a drive that may lose power: the copied data waits in the cache of the drive
    until the first flush of the batch that switches the headers.  Whenever the power goes, what
    recovery finds shows every partition, with its references and its data, at its old place or at
    its new one. */
module MoveCrash {
  import opened Words
  import opened Device
  import opened ApaJournal
  import opened JournalRuns
  import opened Powers
  import opened ChainCrash
  import C = ApaChain
  import T = ApaTable
  import R = Relocation
  import H = History
  import D = Defrag

  /** What is in a sector. */
  type Content = int -> Sector

  function DataWrites(lba: int, buffer: seq<int>, content: Content): (ws: seq<Write<int, Sector>>)
    ensures |ws| == |buffer| && forall i :: 0 <= i < |ws| ==> ws[i] == Write(lba + i, content(buffer[i]))
  {
    seq(|buffer|, i requires 0 <= i < |buffer| => Write(lba + i, content(buffer[i])))
  }

  lemma DataTouches(lba: int, buffer: seq<int>, content: Content, x: int)
    ensures Touches(DataWrites(lba, buffer, content), x) <==> lba <= x < lba + |buffer|
  {
    var ws := DataWrites(lba, buffer, content);
    if lba <= x < lba + |buffer| {
      assert ws[x - lba].addr == x;
    }
  }

  lemma {:induction false} DataApply(img: Image, lba: int, buffer: seq<int>, content: Content, x: int)
    requires lba <= x < lba + |buffer|
    ensures x in Apply(img, DataWrites(lba, buffer, content))
    ensures Apply(img, DataWrites(lba, buffer, content))[x] == content(buffer[x - lba])
  {
    var n := |buffer| - 1;
    var ws := DataWrites(lba, buffer, content);
    assert ws[..n] == DataWrites(lba, buffer[..n], content);
    if x < lba + n {
      DataApply(img, lba, buffer[..n], content, x);
    }
  }

  // ----- one event -----

  /** What is sent to the drive for an event of the history. */
  ghost predicate SentAs(e: H.Event, sent: Event, d: T.Commit, layout: Layout, content: Content)
  {
    match e
    case Wrote(lba, buffer) => sent == Data(DataWrites(lba, buffer, content))
    case Committed(commit) => sent.Flush? && SentFor(sent.entries, d, commit, layout)
  }

  /** The partitions of the start are on a disk of that size. */
  ghost predicate OnDisk(lives: set<C.Part>, size: int)
  {
    forall p :: p in lives ==> 0 <= p.start && p.length > 2 && p.End() <= size
  }

  // ----- the data on the drive -----

  /** What was in the sector of p that is now at x, if p is now at `to`. */
  function Was(was: seq<int>, p: C.Part, to: int, x: int): int
  {
    if 0 <= p.start + x - to < |was| then was[p.start + x - to] else 0
  }

  predicate Inside(p: C.Part, to: int, x: int)
  {
    to + 2 <= x < to + p.length && !InLog(x)
  }

  ghost predicate PartShown(img: Image, p: C.Part, to: int, was: seq<int>, content: Content)
  {
    forall x :: Inside(p, to, x) ==> x in img && img[x] == content(Was(was, p, to, x))
  }

  /** Every partition of the start has its data where f says it is. */
  ghost predicate DataShown(img: Image, f: map<int, int>, lives: set<C.Part>, was: seq<int>, content: Content)
  {
    forall p :: p in lives ==> PartShown(img, p, R.At(f, p.start), was, content)
  }

  /** Nothing waits to be written there. */
  ghost predicate Undisturbed(writes: seq<Write<int, Sector>>, f: map<int, int>, lives: set<C.Part>)
  {
    forall p, x :: p in lives && Inside(p, R.At(f, p.start), x) ==> !Touches(writes, x)
  }

  /** What was written since the last commit is what a flush would make durable. */
  ghost predicate Settles(st: Disk, v: H.View, content: Content)
  {
    forall x :: x in v.recent ==> 0 <= x < |v.data| && x in Settled(st) && Settled(st)[x] == content(v.data[x])
  }

  /** The drive bears out the view. */
  ghost predicate Bears(st: Disk, v: H.View, lives: set<C.Part>, was: seq<int>, content: Content)
  {
    DataShown(st.durable, v.f, lives, was, content) && Undisturbed(st.pending, v.f, lives) && Settles(st, v, content)
  }

  /** The sectors of a partition are in use. */
  lemma InUse(v: H.View, lives: set<C.Part>, was: seq<int>, p: C.Part, x: int)
    requires H.Faithfully(v, lives, was) && p in lives && Inside(p, R.At(v.f, p.start), x)
    ensures H.Within(R.Lives(v.commit.chain, v.waste), x)
  {
    hide R.Redirected;
    assert R.Moved(v.f, p) in R.Image(v.f, lives);
  }

  lemma WroteBears(st: Disk, v: H.View, lba: int, buffer: seq<int>, w: H.View, lives: set<C.Part>, was: seq<int>,
                   content: Content)
    requires H.Faithfully(v, lives, was) && H.Happens(v, H.Wrote(lba, buffer), w, lives)
    requires Bears(st, v, lives, was, content)
    ensures Bears(State(st.durable, st.pending + DataWrites(lba, buffer, content)), w, lives, was, content)
  {
    var ws := DataWrites(lba, buffer, content);
    var next := State(st.durable, st.pending + ws);
    ApplyConcat(st.durable, st.pending, ws);
    hide H.Faithfully, PartShown;
    forall p, x | p in lives && Inside(p, R.At(w.f, p.start), x) ensures !Touches(next.pending, x) {
      InUse(v, lives, was, p, x);
      MoreTouches(st.pending, ws, x);
      DataTouches(lba, buffer, content, x);
    }
    forall x | x in w.recent
      ensures 0 <= x < |w.data| && x in Settled(next) && Settled(next)[x] == content(w.data[x]) {
      if lba <= x < lba + |buffer| {
        DataApply(Settled(st), lba, buffer, content, x);
      } else {
        DataTouches(lba, buffer, content, x);
        ApplyUntouched(Settled(st), ws, x);
      }
    }
  }

  // ----- a batch -----

  /** A batch writes no sector but those of headers. */
  lemma HomesAreHeaders(batch: seq<Entry>, d: T.Commit, commit: T.Commit, layout: Layout, x: int)
    requires SentFor(batch, d, commit, layout) && !H.HeaderSector(commit.chain, x)
    ensures !Touches(Flatten(HomeGroups(batch)), x)
  {
    HomeTouches(batch, x);
    var dirty :| T.BatchBy(d, commit, dirty) && Lists(batch, dirty, commit.disk, layout);
    forall j | 0 <= j < |batch| ensures x != batch[j].sector && x != batch[j].sector as int + 1 {
      assert T.IsStart(commit.chain, batch[j].sector as int);
    }
  }

  /** A partition's data has no header in it. */
  lemma DataNoHeader(w: H.View, lives: set<C.Part>, was: seq<int>, p: C.Part, x: int)
    requires H.Faithfully(w, lives, was) && p in lives && Inside(p, R.At(w.f, p.start), x)
    ensures !H.HeaderSector(w.commit.chain, x)
  {
    hide R.Redirected, C.Holds, H.Preserved;
    var c := w.commit.chain;
    assert R.Moved(w.f, p) in R.Image(w.f, lives);
    var i :| 0 <= i < |c| && c[i] == R.Moved(w.f, p);
    H.NoHeader(c, i, x);
  }

  /** Before the batch the cache of the drive has the data where the headers of the batch say. */
  lemma Arrived(st: Disk, v: H.View, w: H.View, p: C.Part, x: int, lives: set<C.Part>, was: seq<int>, content: Content)
    requires Bears(st, v, lives, was, content) && H.Faithfully(w, lives, was) && w.data == v.data
    requires H.MovedFresh(v, w.f, lives) && OnDisk(lives, |was|) && p in lives && Inside(p, R.At(w.f, p.start), x)
    ensures x in Settled(st) && Settled(st)[x] == content(Was(was, p, R.At(w.f, p.start), x))
  {
    var to := R.At(w.f, p.start);
    if to == R.At(v.f, p.start) {
      assert PartShown(st.durable, p, to, was, content);
      SettledAt(st, x);
    } else {
      assert H.Refreshed(v.recent, p, to);
      DataMoved(w, lives, was, p, x);
    }
  }

  lemma DataMoved(w: H.View, lives: set<C.Part>, was: seq<int>, p: C.Part, x: int)
    requires H.Faithfully(w, lives, was) && OnDisk(lives, |was|) && p in lives && Inside(p, R.At(w.f, p.start), x)
    requires 0 <= x < |w.data|
    ensures w.data[x] == Was(was, p, R.At(w.f, p.start), x)
  {
    hide R.Redirected, C.Holds, C.Tiled, H.Shows;
    var to, q := R.At(w.f, p.start), R.Moved(w.f, p);
    var i := x - to - 2;
    assert H.DataOf(w.data, q) == H.DataOf(was, p);
    assert H.DataOf(was, p)[i] == was[p.start + 2 + i];
    assert H.DataOf(w.data, q)[i] == w.data[q.start + 2 + i];
  }

  lemma CommitBears(st: Disk, v: H.View, commit: T.Commit, w: H.View, batch: seq<Entry>, next: Disk, layout: Layout,
                    unit: int, end: int, lives: set<C.Part>, was: seq<int>, content: Content)
    requires Bears(st, v, lives, was, content) && H.Faithfully(w, lives, was) && OnDisk(lives, |was|)
    requires H.Happens(v, H.Committed(commit), w, lives) && SentFor(batch, v.commit, commit, layout)
    requires next.pending == [] && Done(st, batch, next.durable)
    ensures Bears(next, w, lives, was, content)
  {
    hide Bears, H.Faithfully, SentFor, OnDisk, HomeGroups;
    forall p | p in lives ensures PartShown(next.durable, p, R.At(w.f, p.start), was, content) {
      forall x | Inside(p, R.At(w.f, p.start), x)
        ensures x in next.durable && next.durable[x] == content(Was(was, p, R.At(w.f, p.start), x)) {
        DataNoHeader(w, lives, was, p, x);
        HomesAreHeaders(batch, v.commit, commit, layout, x);
        Arrived(st, v, w, p, x, lives, was, content);
      }
    }
    BearsNow(next, w, lives, was, content);
  }

  lemma BearsNow(st: Disk, w: H.View, lives: set<C.Part>, was: seq<int>, content: Content)
    requires DataShown(st.durable, w.f, lives, was, content) && st.pending == [] && w.recent == {}
    ensures Bears(st, w, lives, was, content)
  {
    hide PartShown;
  }

  /** What a cut keeps of a drive that bears out a view. */
  lemma KeptBears(st: Disk, v: H.View, lives: set<C.Part>, was: seq<int>, content: Content, img: Image)
    requires Bears(st, v, lives, was, content) && Kept(st, img)
    ensures DataShown(img, v.f, lives, was, content)
  {
    forall p | p in lives ensures PartShown(img, p, R.At(v.f, p.start), was, content) {
      assert PartShown(st.durable, p, R.At(v.f, p.start), was, content);
      forall x | Inside(p, R.At(v.f, p.start), x)
        ensures x in img && img[x] == content(Was(was, p, R.At(v.f, p.start), x)) {
        KeptAt(st, img, x);
      }
    }
  }

  // ----- a run -----

  /** What is sent to the drive for a history. */
  ghost predicate AllSent(events: seq<H.Event>, sent: seq<Event>, views: seq<H.View>, layout: Layout, content: Content)
  {
    && |sent| == |events| && |views| == |events| + 1
    && forall i {:trigger events[i]} :: 0 <= i < |events| ==>
      SentAs(events[i], sent[i], views[i].commit, layout, content)
  }

  function ViewCommits(views: seq<H.View>): (commits: seq<T.Commit>)
    ensures |commits| == |views| && forall i :: 0 <= i < |views| ==> commits[i] == views[i].commit
  {
    seq(|views|, i requires 0 <= i < |views| => views[i].commit)
  }

  /** The history has the tables committed since `from`, in order. */
  ghost predicate Logged(events: seq<H.Event>, views: seq<H.View>, origin: T.Commit, log: seq<T.Commit>, from: nat)
  {
    && from <= |log| && views != [] && H.CommitsOf(events) == log[from..]
    && views[0].commit == T.CommitAt(origin, log, from)
  }

  lemma {:induction false} ViewAt(events: seq<H.Event>, views: seq<H.View>, lives: set<C.Part>, was: seq<int>,
                                  origin: T.Commit, log: seq<T.Commit>, from: nat, i: nat)
    requires H.Told(events, views, lives, was) && Logged(events, views, origin, log, from) && i <= |events|
    ensures from + |H.CommitsOf(events[..i])| <= |log| && |views| == |events| + 1
    ensures views[i].commit == T.CommitAt(origin, log, from + |H.CommitsOf(events[..i])|)
    ensures i < |events| && events[i].Committed? ==>
      from + |H.CommitsOf(events[..i])| < |log| && events[i].commit == log[from + |H.CommitsOf(events[..i])|]
  {
    hide H.Faithfully, H.CommitsOf, H.Writable, H.MovedFresh;
    CommitsSplit(events, i);
    if i == 0 {
      NoCommits(events);
    } else {
      ViewAt(events, views, lives, was, origin, log, from, i - 1);
      assert H.Happens(views[i - 1], events[i - 1], views[i], lives);
      CommitsStep(events, i - 1);
    }
    if i < |events| {
      CommitsSplit(events, i + 1);
      CommitsStep(events, i);
    }
  }

  lemma NoCommits(events: seq<H.Event>)
    ensures H.CommitsOf(events[..0]) == []
  {
  }

  lemma CommitsStep(events: seq<H.Event>, i: nat)
    requires i < |events|
    ensures H.CommitsOf(events[..i + 1]) ==
      H.CommitsOf(events[..i]) + if events[i].Committed? then [events[i].commit] else []
  {
    assert events[..i + 1][..i] == events[..i];
  }

  lemma CommitsSplit(events: seq<H.Event>, i: nat)
    requires i <= |events|
    ensures H.CommitsOf(events[..i]) <= H.CommitsOf(events)
  {
    hide H.CommitsOf;
    H.CommitsOfConcat(events[..i], events[i..]);
    assert events[..i] + events[i..] == events;
  }

  lemma SitedAt(origin: T.Commit, log: seq<T.Commit>, now: T.Commit, unit: int, end: int, k: nat)
    requires T.Recording(origin, log, now, unit, end) && k <= |log|
    ensures T.Sited(T.CommitAt(origin, log, k), unit, end)
    ensures k < |log| ==> T.Batched(T.CommitAt(origin, log, k), log[k], unit, end)
  {
    hide T.Sited, T.BatchBy;
    if k < |log| {
      assert T.Batched(T.CommitAt(origin, log, k), log[k], unit, end);
    }
  }

  lemma ViewSited(events: seq<H.Event>, views: seq<H.View>, lives: set<C.Part>, was: seq<int>, origin: T.Commit,
                  log: seq<T.Commit>, from: nat, now: T.Commit, unit: int, end: int, i: nat)
    requires H.Told(events, views, lives, was) && Logged(events, views, origin, log, from) && i <= |events|
    requires T.Recording(origin, log, now, unit, end)
    ensures |views| == |events| + 1 && T.Sited(views[i].commit, unit, end)
    ensures i < |events| && events[i].Committed? ==> T.Batched(views[i].commit, events[i].commit, unit, end)
  {
    hide *;
    ViewAt(events, views, lives, was, origin, log, from, i);
    SitedAt(origin, log, now, unit, end, from + |H.CommitsOf(events[..i])|);
  }

  lemma WroteStep(v: H.View, lba: int, buffer: seq<int>, w: H.View, lives: set<C.Part>, layout: Layout,
                  content: Content, keys: set<int>, unit: int, end: int)
    requires H.Happens(v, H.Wrote(lba, buffer), w, lives) && OnDrive(keys, unit, end) && |v.data| <= end
    requires T.Sited(v.commit, unit, end)
    ensures StepOk(v.commit, Data(DataWrites(lba, buffer, content)), w.commit, layout, keys, unit, end)
  {
    hide C.Tiled, C.Holds, Pow2, H.Beside;
    var ws, c := DataWrites(lba, buffer, content), v.commit.chain;
    FirstStart(v.commit, unit, end);
    DataTouches(lba, buffer, content, SECTOR_APAL);
    forall i | 0 <= i < |c| ensures !Touches(ws, c[i].start) && !Touches(ws, c[i].start + 1) {
      DataTouches(lba, buffer, content, c[i].start);
      DataTouches(lba, buffer, content, c[i].start + 1);
      assert H.HeaderSector(c, c[i].start) && H.HeaderSector(c, c[i].start + 1);
    }
  }

  lemma FirstStart(commit: T.Commit, unit: int, end: int)
    requires T.Sited(commit, unit, end)
    ensures commit.chain != [] && commit.chain[0].End() >= unit
  {
    hide C.Holds;
  }

  lemma ViewSize(v: H.View, lives: set<C.Part>, was: seq<int>)
    requires H.Faithfully(v, lives, was)
    ensures |v.data| == |was|
  {
    hide C.Tiled, C.Holds, H.Shows;
  }

  /** A history told by views is a run of the drive that shows their chains. */
  lemma ToldFollows(events: seq<H.Event>, views: seq<H.View>, sent: seq<Event>, lives: set<C.Part>, was: seq<int>,
                    origin: T.Commit, log: seq<T.Commit>, from: nat, now: T.Commit, layout: Layout, content: Content,
                    keys: set<int>, unit: int, end: int)
    requires H.Told(events, views, lives, was) && Logged(events, views, origin, log, from)
    requires T.Recording(origin, log, now, unit, end) && AllSent(events, sent, views, layout, content)
    requires OnDrive(keys, unit, end) && |was| <= end
    ensures Follows(ViewCommits(views), sent, layout, keys, unit, end)
  {
    hide Logged, T.Recording, T.Batched, T.Sited, OnDrive, StepOk, SentFor, H.Faithfully, DataWrites;
    var commits := ViewCommits(views);
    forall i | 0 <= i < |sent| ensures StepOk(commits[i], sent[i], commits[i + 1], layout, keys, unit, end) {
      assert H.Happens(views[i], events[i], views[i + 1], lives);
      assert SentAs(events[i], sent[i], views[i].commit, layout, content);
      ViewSited(events, views, lives, was, origin, log, from, now, unit, end, i);
      if events[i].Wrote? {
        ViewSize(views[i], lives, was);
        WroteStep(views[i], events[i].lba, events[i].buffer, views[i + 1], lives, layout, content, keys, unit, end);
      } else {
        FlushStep(views[i].commit, sent[i].entries, views[i + 1].commit, layout, keys, unit, end);
      }
    }
  }

  lemma FlushStep(d: T.Commit, batch: seq<Entry>, next: T.Commit, layout: Layout, keys: set<int>, unit: int, end: int)
    requires T.Batched(d, next, unit, end) && SentFor(batch, d, next, layout)
    ensures StepOk(d, Flush(batch), next, layout, keys, unit, end)
  {
    hide T.Batched, SentFor;
  }

  /** Between events the drive bears out the view. */
  lemma {:induction false} RunBears(st: Disk, base: Log, events: seq<H.Event>, views: seq<H.View>, sent: seq<Event>,
                                    lives: set<C.Part>, was: seq<int>, layout: Layout, content: Content, unit: int,
                                    end: int, j: nat)
    requires H.Told(events, views, lives, was) && AllSent(events, sent, views, layout, content) && OnDisk(lives, |was|)
    requires Ready(base) && Resting(st) && EventsOk(sent, st.durable.Keys) && Bears(st, views[0], lives, was, content)
    requires j <= |sent|
    ensures AllSized(sent) && |views| == |sent| + 1
    ensures Bears(After(st, base, sent, j), views[j], lives, was, content)
  {
    hide Ready, Resting, EventsOk, Bears, OnDisk, After, SentFor, H.Faithfully, H.Writable, H.MovedFresh, DataWrites,
      Done;
    AllSizedOf(sent, st.durable.Keys);
    if j == 0 {
      NothingRun(st, base, sent);
    } else {
      var i := j - 1;
      RunBears(st, base, events, views, sent, lives, was, layout, content, unit, end, i);
      AfterEvent(st, base, sent, i);
      var v, w, e := views[i], views[j], events[i];
      assert H.Happens(v, e, w, lives) && SentAs(e, sent[i], v.commit, layout, content);
      assert H.Faithfully(v, lives, was) && H.Faithfully(w, lives, was);
      var mid, next := After(st, base, sent, i), After(st, base, sent, j);
      if e.Wrote? {
        WroteBears(mid, v, e.lba, e.buffer, w, lives, was, content);
      } else {
        CommitBears(mid, v, e.commit, w, sent[i].entries, next, layout, unit, end, lives, was, content);
      }
    }
  }

  /** Cut anywhere in the history of a defragmentation, in the middle of a copy, of a switch of
      headers or of a removal, and recovered with any number of cuts, the disk shows the gapless,
      correctly linked chain of some point of that history, and in it every partition of the start,
      somewhere, with its references and its data. */
  lemma HistoryCrash(events: seq<H.Event>, views: seq<H.View>, sent: seq<Event>, lives: set<C.Part>, was: seq<int>,
                     origin: T.Commit, log: seq<T.Commit>, from: nat, now: T.Commit, layout: Layout, content: Content,
                     unit: int, end: int, st: Disk, base: Log, k: nat, disks: seq<Image>) returns (j: int)
    requires H.Told(events, views, lives, was) && Logged(events, views, origin, log, from)
    requires T.Recording(origin, log, now, unit, end) && AllSent(events, sent, views, layout, content)
    requires |was| <= end && OnDisk(lives, |was|)
    requires AtRest(st, views[0].commit.chain, layout, unit, end) && Bears(st, views[0], lives, was, content)
    requires Interrupted(st, base, sent, k, disks)
    ensures 0 <= j < |views| && disks != [] && Recovers(disks, views[j].commit.chain, layout)
    ensures H.Faithfully(views[j], lives, was)
    ensures DataShown(Recover(disks[|disks| - 1]), views[j].f, lives, was, content)
  {
    hide *;
    H.ToldSize(events, views, lives, was);
    RestOnDrive(st, views[0].commit.chain, layout, unit, end);
    ToldFollows(events, views, sent, lives, was, origin, log, from, now, layout, content, st.durable.Keys, unit, end);
    FollowsOk(ViewCommits(views), sent, layout, st.durable.Keys, unit, end);
    j := TableCrash(st, base, ViewCommits(views), sent, layout, unit, end, k, disks);
    RunBears(st, base, events, views, sent, lives, was, layout, content, unit, end, j);
    KeptBears(After(st, base, sent, j), views[j], lives, was, content, Recover(disks[|disks| - 1]));
    ToldAt(events, views, lives, was, j);
  }

  lemma ToldAt(events: seq<H.Event>, views: seq<H.View>, lives: set<C.Part>, was: seq<int>, j: nat)
    requires H.Told(events, views, lives, was) && j < |views|
    ensures H.Faithfully(views[j], lives, was)
  {
    hide H.Happens;
  }

  /** The same of the defragmenter: a run of it told by views, as HdskThread returns them. */
  lemma DefragCrash(df: D.Defragmenter, views: seq<H.View>, h0: nat, from: nat, lives: set<C.Part>, was: seq<int>,
                    f: map<int, int>, sent: seq<Event>, layout: Layout, content: Content, st: Disk, base: Log, k: nat,
                    disks: seq<Image>) returns (j: int)
    requires df.table.Valid() && df.Tale(views, h0, from, lives, was, f)
    requires AllSent(df.history[h0..], sent, views, layout, content)
    requires |was| <= df.table.end && OnDisk(lives, |was|)
    requires AtRest(st, views[0].commit.chain, layout, df.table.unit, df.table.end)
    requires Bears(st, views[0], lives, was, content)
    requires Interrupted(st, base, sent, k, disks)
    ensures 0 <= j < |views| && disks != [] && Recovers(disks, views[j].commit.chain, layout)
    ensures H.Faithfully(views[j], lives, was)
    ensures DataShown(Recover(disks[|disks| - 1]), views[j].f, lives, was, content)
  {
    var now := T.Commit(df.table.disk, df.table.chain);
    hide H.Told, T.Recording, C.Sound, C.Holds, T.Bounded, AllSent, OnDisk, AtRest, Bears, Interrupted, H.Faithfully,
      DataShown;
    hide Recovers, H.CommitsOf;
    j := HistoryCrash(df.history[h0..], views, sent, lives, was, df.table.origin, df.table.log, from, now, layout,
      content,
      df.table.unit, df.table.end, st, base, k, disks);
  }

  // ----- the switch of headers alone -----

  /** Every write is inside the slot, behind its header. */
  ghost predicate InSlot(writes: seq<Write<int, Sector>>, slot: C.Part)
  {
    forall i :: 0 <= i < |writes| ==> slot.start + 2 <= writes[i].addr < slot.End()
  }

  /** The old headers are there, and every sector outside the log and the inside of the slot is as
      it was. */
  ghost predicate OldPlace(st: Disk, img: Image, c: C.Chain, slot: C.Part, layout: Layout)
  {
    && Shown(img, c, layout)
    && forall x :: x in st.durable && !InLog(x) && !(slot.start + 2 <= x < slot.End()) ==>
      x in img && img[x] == st.durable[x]
  }

  /** The new headers are there, and every sector that is neither log nor header is as the cache of
      the drive had it: the copy is complete. */
  ghost predicate NewPlace(st: Disk, img: Image, c: C.Chain, layout: Layout)
  {
    && Shown(img, c, layout)
    && forall x :: x in st.durable && !InLog(x) && !H.HeaderSector(c, x) ==>
        x in img && x in Settled(st) && img[x] == Settled(st)[x]
  }

  /** The batch that switches the headers of a move, cut anywhere while the copied data still waits
      in the cache of the drive: the partition is at its old place, or at its new one with all of
      its data. */
  lemma SwapCrash(st: Disk, base: Log, c: C.Chain, s: int, d: int, was: T.Commit, next: T.Commit, batch: seq<Entry>,
                  layout: Layout, unit: int, end: int, k: nat, disks: seq<Image>)
    requires R.Movable(c, s, d) && was.chain == c && next.chain == R.Swapped(c, s, d)
    requires T.Batched(was, next, unit, end) && SentFor(batch, was, next, layout)
    requires AtRest(st, c, layout, unit, end) && InSlot(st.pending, c[d])
    requires Interrupted(st, base, [Flush(batch)], k, disks)
    ensures disks != [] && LogSane(disks[|disks| - 1])
    ensures
      var img := Recover(disks[|disks| - 1]);
      OldPlace(st, img, c, c[d], layout) || NewPlace(st, img, next.chain, layout)
  {
    assert 0 <= d < |c|;
    hide *;
    var events := [Flush(batch)];
    OneBatch(was, next, batch, layout, st.durable.Keys, unit, end);
    var j := TableCrash(st, base, [was, next], events, layout, unit, end, k, disks);
    RestOnDrive(st, c, layout, unit, end);
    FollowsOk([was, next], events, layout, st.durable.Keys, unit, end);
    RecoversFacts(disks, [was, next][j].chain, layout);
    if j == 0 {
      NothingRun(st, base, events);
      KeptOld(st, Recover(disks[|disks| - 1]), c, c[d], layout);
    } else {
      AfterEvent(st, base, events, 0);
      NothingRun(st, base, events);
      KeptNew(st, was, next, batch, After(st, base, events, 1), Recover(disks[|disks| - 1]), layout);
    }
  }

  lemma RecoversFacts(disks: seq<Image>, c: C.Chain, layout: Layout)
    requires disks != [] && Recovers(disks, c, layout)
    ensures LogSane(disks[|disks| - 1]) && Shown(Recover(disks[|disks| - 1]), c, layout)
  {
    hide LogSane, Shown, Recover;
  }

  lemma OneBatch(d: T.Commit, next: T.Commit, batch: seq<Entry>, layout: Layout, keys: set<int>, unit: int, end: int)
    requires T.Batched(d, next, unit, end) && SentFor(batch, d, next, layout)
    ensures Follows([d, next], [Flush(batch)], layout, keys, unit, end)
  {
    hide T.Batched, SentFor;
  }

  lemma KeptOld(st: Disk, img: Image, c: C.Chain, slot: C.Part, layout: Layout)
    requires Kept(st, img) && Shown(img, c, layout) && InSlot(st.pending, slot)
    ensures OldPlace(st, img, c, slot, layout)
  {
    forall x | x in st.durable && !InLog(x) && !(slot.start + 2 <= x < slot.End())
      ensures x in img && img[x] == st.durable[x] {
      KeptAt(st, img, x);
    }
  }

  lemma KeptNew(st: Disk, d: T.Commit, commit: T.Commit, batch: seq<Entry>, next: Disk, img: Image, layout: Layout)
    requires SentFor(batch, d, commit, layout) && Done(st, batch, next.durable) && next.pending == [] && Kept(next, img)
    requires Shown(img, commit.chain, layout)
    ensures NewPlace(st, img, commit.chain, layout)
  {
    forall x | x in st.durable && !InLog(x) && !H.HeaderSector(commit.chain, x)
      ensures x in img && x in Settled(st) && img[x] == Settled(st)[x] {
      HomesAreHeaders(batch, d, commit, layout, x);
      KeptAt(next, img, x);
    }
  }
}
