/** Runs of a drive with a journal: batches of headers, each flushed through the journal, and data
    written in between without any flush of its own.  Whenever the power goes, recovery finds what
    a power cut between two events could have left. */
module JournalRuns {
  import opened Words
  import opened Device
  import opened WriteAhead
  import opened ApaJournal

  /** What is sent to the drive: data, which waits in its cache, or a batch of headers. */
  datatype Event = Data(writes: seq<Write<int, Sector>>) | Flush(entries: seq<Entry>)

  /** Everything is on the drive, data misses the log header, and the headers fit the journal. */
  ghost predicate EventOk(e: Event, keys: set<int>)
  {
    match e
    case Data(writes) => Within(writes, keys) && !Touches(writes, SECTOR_APAL)
    case Flush(entries) => Placed(entries, keys)
  }

  ghost predicate EventsOk(events: seq<Event>, keys: set<int>)
  {
    AllSized(events) && forall i :: 0 <= i < |events| ==> EventOk(events[i], keys)
  }

  lemma EventsAt(events: seq<Event>, keys: set<int>, j: int)
    requires EventsOk(events, keys) && 0 <= j < |events|
    ensures AllSized(events) && Sized(events[j]) && EventOk(events[j], keys)
    ensures AllSized(events[..j]) && EventsOk(events[..j], keys)
  {
    hide EventOk;
  }

  predicate Sized(e: Event)
  {
    e.Flush? ==> |e.entries| <= LOG_SLOTS
  }

  predicate AllSized(events: seq<Event>)
  {
    forall i :: 0 <= i < |events| ==> Sized(events[i])
  }

  /** The journal buffer after the events, if it was `base` before. */
  function BaseOf(base: Log, events: seq<Event>): (log: Log)
    requires Ready(base)
    ensures Ready(log)
  {
    if events == [] then base
    else if events[|events| - 1].Flush? then EmptyLog()
    else BaseOf(base, events[..|events| - 1])
  }

  function EventOps(base: Log, e: Event): seq<Op<int, Sector>>
    requires Ready(base) && Sized(e)
  {
    match e
    case Data(writes) => [Transfer(writes)]
    case Flush(entries) => CommitOps(PlanOf(base, entries))
  }

  /** The commands of the events, one after the other. */
  function RunOps(base: Log, events: seq<Event>): seq<Op<int, Sector>>
    requires Ready(base) && AllSized(events)
  {
    if events == [] then []
    else
      var n := |events| - 1;
      RunOps(base, events[..n]) + EventOps(BaseOf(base, events[..n]), events[n])
  }

  /** The drive after the first j events. */
  function After(st: Disk, base: Log, events: seq<Event>, j: int): Disk
    requires Ready(base) && AllSized(events) && 0 <= j <= |events|
  {
    Run(st, RunOps(base, events[..j]))
  }

  // ----- one event -----

  lemma DataEnds(st: Disk, base: Log, writes: seq<Write<int, Sector>>)
    requires Ready(base)
    ensures Run(st, EventOps(base, Data(writes))) == State(st.durable, st.pending + writes)
  {
    var ops := EventOps(base, Data(writes));
    assert ops[..0] == [];
    assert Run(st, ops[..0]) == st;
  }

  /** Undisturbed, an event leaves the journal at rest, a batch also the cache of the drive empty. */
  lemma EventEnds(st: Disk, base: Log, e: Event)
    requires Resting(st) && Ready(base) && Sized(e) && EventOk(e, st.durable.Keys)
    ensures
      var next := Run(st, EventOps(base, e));
      && Resting(next) && next.durable.Keys == st.durable.Keys
      && (e.Data? ==> next == State(st.durable, st.pending + e.writes))
      && (e.Flush? ==> next.pending == [] && Done(st, e.entries, next.durable))
  {
    hide Ready, Placed;
    match e
    case Data(writes) =>
      DataEnds(st, base, writes);
      MoreIdle(st, writes);
    case Flush(entries) =>
      hide Resting, Done;
      FlushCompletes(st, base, entries);
      DoneKeys(st, entries, Run(st, EventOps(base, e)).durable);
  }

  lemma DoneKeys(st: Disk, batch: seq<Entry>, img: Image)
    requires Done(st, batch, img)
    ensures img.Keys == st.durable.Keys
  {
  }

  lemma MoreIdle(st: Disk, writes: seq<Write<int, Sector>>)
    requires Resting(st) && Within(writes, st.durable.Keys) && !Touches(writes, SECTOR_APAL)
    ensures Resting(State(st.durable, st.pending + writes))
  {
    MoreWithin(st.pending, writes, st.durable.Keys);
    MoreTouches(st.pending, writes, SECTOR_APAL);
  }

  lemma MoreWithin(xs: seq<Write<int, Sector>>, ys: seq<Write<int, Sector>>, keys: set<int>)
    requires Within(xs, keys) && Within(ys, keys)
    ensures Within(xs + ys, keys)
  {
  }

  lemma MoreTouches(xs: seq<Write<int, Sector>>, ys: seq<Write<int, Sector>>, a: int)
    ensures Touches(xs + ys, a) <==> Touches(xs, a) || Touches(ys, a)
  {
    var all := xs + ys;
    forall i | 0 <= i < |xs| ensures all[i] == xs[i] {
    }
    forall i | 0 <= i < |ys| ensures all[|xs| + i] == ys[i] {
    }
    if Touches(all, a) {
      var i :| 0 <= i < |all| && all[i].addr == a;
      assert if i < |xs| then xs[i].addr == a else ys[i - |xs|].addr == a;
    }
    if Touches(xs, a) {
      var i :| 0 <= i < |xs| && xs[i].addr == a;
      assert all[i].addr == a;
    }
    if Touches(ys, a) {
      var i :| 0 <= i < |ys| && ys[i].addr == a;
      assert all[|xs| + i].addr == a;
    }
  }

  // ----- cuts -----

  /** With the journal at rest, a cut and any number of recoveries leave what the cut left. */
  lemma RestCrash(st: Disk, disks: seq<Image>)
    requires Resting(st) && (forall s :: InLog(s) ==> s in st.durable)
    requires disks != [] && Reboots(disks) && CrashImage(st, disks[0])
    ensures LogSane(disks[|disks| - 1]) && Kept(st, Recover(disks[|disks| - 1]))
  {
    IdleHolds(st, SECTOR_APAL, disks[0][SECTOR_APAL]);
    RecoverEmpty(disks[0]);
    RebootsAgree(disks);
  }

  /** A finished batch is finished in one way. */
  lemma DoneKept(st: Disk, batch: seq<Entry>, next: Disk, img: Image)
    requires Done(st, batch, next.durable) && Done(st, batch, img)
    ensures Kept(next, img)
  {
    forall s | s in img && !InLog(s) ensures MayHold(next, s, img[s]) {
      if Touches(Flatten(HomeGroups(batch)), s) {
        HomeTouches(batch, s);
        var j :| 0 <= j < |batch| && (s == batch[j].sector || s == batch[j].sector as int + 1);
        assert HeaderAt(img, batch[j].sector, batch[j].header) &&
          HeaderAt(next.durable, batch[j].sector, batch[j].header);
      }
    }
  }

  /** An event cut anywhere, and recovered with any number of cuts: what a cut just before it or
      just after it could have left. */
  lemma EventCrash(st: Disk, base: Log, e: Event, k: nat, disks: seq<Image>)
    requires Resting(st) && Ready(base) && Sized(e) && EventOk(e, st.durable.Keys)
    requires forall s :: InLog(s) ==> s in st.durable
    requires k <= |EventOps(base, e)| && disks != [] && Reboots(disks)
    requires CrashImage(Run(st, EventOps(base, e)[..k]), disks[0])
    ensures LogSane(disks[|disks| - 1])
    ensures
      var end := Recover(disks[|disks| - 1]);
      Kept(st, end) || Kept(Run(st, EventOps(base, e)), end)
  {
    var ops := EventOps(base, e);
    hide Resting, Reboots, CrashImage, LogSane, Recover, Kept, Placed, Done, CommitOps;
    EventEnds(st, base, e);
    match e
    case Data(writes) =>
      if k == 0 {
        assert ops[..k] == [];
        RestCrash(st, disks);
      } else {
        assert ops[..k] == ops;
        RestCrash(Run(st, ops), disks);
      }
    case Flush(entries) =>
      CrashAtomic(st, base, entries, k, disks);
      var end := Recover(disks[|disks| - 1]);
      if Done(st, entries, end) {
        DoneKept(st, entries, Run(st, ops), end);
      }
  }

  // ----- runs -----

  lemma OpsSnoc(base: Log, events: seq<Event>)
    requires Ready(base) && events != [] && AllSized(events)
    ensures
      var n := |events| - 1;
      && AllSized(events[..n]) && Sized(events[n])
      && RunOps(base, events) == RunOps(base, events[..n]) + EventOps(BaseOf(base, events[..n]), events[n])
  {
  }

  lemma AfterSnoc(st: Disk, base: Log, events: seq<Event>, j: int)
    requires Ready(base) && AllSized(events) && 0 <= j < |events|
    ensures After(st, base, events, j + 1) ==
      Run(After(st, base, events, j), EventOps(BaseOf(base, events[..j]), events[j]))
  {
    assert events[..j + 1][..j] == events[..j];
    RunConcat(st, RunOps(base, events[..j]), EventOps(BaseOf(base, events[..j]), events[j]));
  }

  /** Between events the journal rests. */
  lemma {:induction false} RunRests(st: Disk, base: Log, events: seq<Event>, j: int)
    requires Resting(st) && Ready(base) && EventsOk(events, st.durable.Keys) && 0 <= j <= |events|
    ensures AllSized(events)
    ensures Resting(After(st, base, events, j)) && After(st, base, events, j).durable.Keys == st.durable.Keys
  {
    hide Resting, Ready, EventOk, AllSized, EventOps;
    if j == 0 {
      NothingRun(st, base, events);
    } else {
      EventsAt(events, st.durable.Keys, j - 1);
      RunRests(st, base, events, j - 1);
      AfterSnoc(st, base, events, j - 1);
      hide After;
      EventEnds(After(st, base, events, j - 1), BaseOf(base, events[..j - 1]), events[j - 1]);
    }
  }

  lemma NothingRun(st: Disk, base: Log, events: seq<Event>)
    requires Ready(base) && AllSized(events)
    ensures After(st, base, events, 0) == st
  {
    assert events[..0] == [];
  }

  /** One event of a run, as EventEnds tells it. */
  lemma AfterEvent(st: Disk, base: Log, events: seq<Event>, j: int)
    requires Resting(st) && Ready(base) && EventsOk(events, st.durable.Keys) && 0 <= j < |events|
    ensures AllSized(events)
    ensures
      var mid, next := After(st, base, events, j), After(st, base, events, j + 1);
      && mid.durable.Keys == next.durable.Keys == st.durable.Keys && Resting(mid) && Resting(next)
      && (events[j].Data? ==> next == State(mid.durable, mid.pending + events[j].writes))
      && (events[j].Flush? ==> next.pending == [] && Done(mid, events[j].entries, next.durable))
  {
    hide Resting, Ready, EventsOk, EventOk, AllSized, EventOps, Done, After;
    EventsAt(events, st.durable.Keys, j);
    RunRests(st, base, events, j);
    AfterSnoc(st, base, events, j);
    EventEnds(After(st, base, events, j), BaseOf(base, events[..j]), events[j]);
  }

  /** The commands of a run are cut after k of them, and recovery any number of times. */
  ghost predicate Interrupted(st: Disk, base: Log, events: seq<Event>, k: nat, disks: seq<Image>)
  {
    && Ready(base) && AllSized(events)
    && k <= |RunOps(base, events)| && disks != [] && Reboots(disks)
    && CrashImage(Run(st, RunOps(base, events)[..k]), disks[0])
  }

  /** A cut of a run comes before its last event, or in it. */
  lemma CutWhere(st: Disk, base: Log, events: seq<Event>, k: nat)
    requires Ready(base) && AllSized(events) && events != [] && k <= |RunOps(base, events)|
    ensures
      var n := |events| - 1;
      && AllSized(events[..n]) && Sized(events[n])
      && var mid := |RunOps(base, events[..n])|;
         if k <= mid then RunOps(base, events)[..k] == RunOps(base, events[..n])[..k]
         else
           && k - mid <= |EventOps(BaseOf(base, events[..n]), events[n])|
           && Run(st, RunOps(base, events)[..k])
              == Run(After(st, base, events, n), EventOps(BaseOf(base, events[..n]), events[n])[..k - mid])
  {
    hide Ready, EventOps, BaseOf, Sized;
    var n := |events| - 1;
    OpsSnoc(base, events);
    hide RunOps, AllSized;
    var mid, rest := RunOps(base, events[..n]), EventOps(BaseOf(base, events[..n]), events[n]);
    if k > |mid| {
      assert RunOps(base, events)[..k] == mid + rest[..k - |mid|];
      RunConcat(st, mid, rest[..k - |mid|]);
    }
  }

  /** Cut anywhere, and recovered with any number of cuts: outside the log, what a power cut after
      some number of whole events could have left. */
  lemma {:induction false} RunCrash(st: Disk, base: Log, events: seq<Event>, k: nat, disks: seq<Image>) returns (j: int)
    requires Resting(st) && EventsOk(events, st.durable.Keys) && forall s :: InLog(s) ==> s in st.durable
    requires Interrupted(st, base, events, k, disks)
    ensures 0 <= j <= |events| && Ready(base) && AllSized(events) && disks != [] && LogSane(disks[|disks| - 1])
    ensures Kept(After(st, base, events, j), Recover(disks[|disks| - 1]))
    decreases |events|
  {
    hide Resting, Ready, EventsOk, EventOk, AllSized, Reboots, CrashImage, LogSane, Recover, Kept, EventOps, RunOps;
    if events == [] {
      j := 0;
      NothingRun(st, base, events);
      NoOps(base, events);
      RestCrash(st, disks);
      return;
    }
    var n := |events| - 1;
    CutWhere(st, base, events, k);
    EventsAt(events, st.durable.Keys, n);
    if k <= |RunOps(base, events[..n])| {
      j := RunCrash(st, base, events[..n], k, disks);
      SameAfter(st, base, events, n, j);
    } else {
      RunRests(st, base, events, n);
      AfterSnoc(st, base, events, n);
      hide After;
      EventCrash(After(st, base, events, n), BaseOf(base, events[..n]), events[n], k - |RunOps(base, events[..n])|,
        disks);
      j := if Kept(After(st, base, events, n), Recover(disks[|disks| - 1])) then n else n + 1;
    }
  }

  lemma NoOps(base: Log, events: seq<Event>)
    requires Ready(base) && AllSized(events) && events == []
    ensures RunOps(base, events) == []
  {
  }

  lemma SameAfter(st: Disk, base: Log, events: seq<Event>, n: int, j: int)
    requires Ready(base) && AllSized(events) && 0 <= j <= n <= |events|
    ensures AllSized(events[..n]) && After(st, base, events[..n], j) == After(st, base, events, j)
  {
    assert events[..n][..j] == events[..j];
  }
}
