/** The history of a disk that is being defragmented: the data written to it and the tables
    committed, in order, and what every partition of the start has become at each point. */
module History {
  import opened ApaChain
  import opened ApaTable
  import opened Relocation

  const IOBUFFER_SECTORS := 256

  datatype Event = Wrote(lba: int, buffer: seq<int>) | Committed(commit: Commit)

  // ----- data -----

  /** A partition's sectors but the two of its header. */
  function DataOf(data: seq<int>, p: Part): seq<int>
  {
    if 0 <= p.start && p.start + 2 <= p.End() <= |data| then data[p.start + 2..p.End()] else []
  }

  /** Every partition has at its new place the data it had at the old one. */
  ghost predicate Preserved(f: map<int, int>, lives: set<Part>, was: seq<int>, now: seq<int>)
  {
    |now| == |was| && forall p :: p in lives ==> DataOf(now, Moved(f, p)) == DataOf(was, p)
  }

  ghost predicate SameData(lives: set<Part>, was: seq<int>, now: seq<int>)
  {
    |now| == |was| && forall p :: p in lives ==> DataOf(now, p) == DataOf(was, p)
  }

  ghost predicate Within(lives: set<Part>, x: int)
  {
    exists p :: p in lives && p.start <= x < p.End()
  }

  function Overlaid(data: seq<int>, lba: int, buffer: seq<int>): seq<int>
    requires 0 <= lba && lba + |buffer| <= |data|
  {
    data[..lba] + buffer + data[lba + |buffer|..]
  }

  /** Sectors a to b of the copy at `to` are those of the original at `from`. */
  ghost predicate Copied(was: seq<int>, now: seq<int>, from: int, to: int, a: int, b: int)
  {
    |now| == |was| && forall x :: 0 <= x < |was| ==> now[x] == CopiedAt(was, from, to, a, b, x)
  }

  function CopiedAt(was: seq<int>, from: int, to: int, a: int, b: int, x: int): int
    requires 0 <= x < |was|
  {
    if to + a <= x < to + b && 0 <= from + x - to < |was| then was[from + x - to] else was[x]
  }

  lemma CopyStep(was: seq<int>, now: seq<int>, from: int, to: int, a: int, b: int, n: int)
    requires Copied(was, now, from, to, a, b) && 0 <= a <= b && n >= 0
    requires 0 <= from && from + b + n <= |was| && 0 <= to && to + b + n <= |was|
    requires from + b + n <= to + a || to + b <= from + b
    ensures Copied(was, Overlaid(now, to + b, now[from + b..from + b + n]), from, to, a, b + n)
  {
    var buffer := now[from + b..from + b + n];
    var next := Overlaid(now, to + b, buffer);
    forall x | 0 <= x < |was|
      ensures next[x] == CopiedAt(was, from, to, a, b + n, x) {
      if to + b <= x < to + b + n {
        var y := from + x - to;
        assert next[x] == buffer[x - to - b] == now[y];
        assert now[y] == CopiedAt(was, from, to, a, b, y) == was[y];
      } else {
        assert next[x] == now[x];
      }
    }
  }

  lemma WriteClear(lives: set<Part>, data: seq<int>, lba: int, buffer: seq<int>)
    requires 0 <= lba && lba + |buffer| <= |data|
    requires forall x :: lba <= x < lba + |buffer| ==> !Within(lives, x)
    ensures SameData(lives, data, Overlaid(data, lba, buffer))
  {
    var now := Overlaid(data, lba, buffer);
    forall p | p in lives ensures DataOf(now, p) == DataOf(data, p) {
      if 0 <= p.start && p.start + 2 <= p.End() <= |data| {
        forall x | p.start + 2 <= x < p.End() ensures now[x] == data[x] {
          var hit := Within(lives, x);
        }
      }
    }
  }

  lemma NothingCopied(was: seq<int>, from: int, to: int)
    ensures Copied(was, was, from, to, 2, 2)
  {
  }

  lemma CopiedLength(was: seq<int>, now: seq<int>, from: int, to: int, a: int, b: int)
    requires Copied(was, now, from, to, a, b)
    ensures |now| == |was|
  {
  }


  /** No data written since then hit a partition in use. */
  ghost predicate Clear(lives: set<Part>, history: seq<Event>, from: int)
  {
    forall k :: 0 <= from <= k < |history| && history[k].Wrote? ==> Beside(lives, history[k].lba, |history[k].buffer|)
  }

  ghost predicate Beside(lives: set<Part>, lba: int, n: int)
  {
    forall x :: lba <= x < lba + n ==> !Within(lives, x)
  }

  lemma ClearMore(lives: set<Part>, history: seq<Event>, from: int, lba: int, buffer: seq<int>)
    requires Clear(lives, history, from) && from <= |history| && Beside(lives, lba, |buffer|)
    ensures Clear(lives, history + [Wrote(lba, buffer)], from)
  {
    hide Beside;
  }

  // ----- tables committed -----

  function CommittedEach(log: seq<Commit>): (events: seq<Event>)
    ensures |events| == |log| && forall i :: 0 <= i < |log| ==> events[i] == Committed(log[i])
  {
    seq(|log|, i requires 0 <= i < |log| => Committed(log[i]))
  }

  lemma ClearCommits(lives: set<Part>, history: seq<Event>, from: int, log: seq<Commit>)
    requires Clear(lives, history, from) && from <= |history|
    ensures Clear(lives, history + CommittedEach(log), from)
  {
    hide Beside;
  }

  /** The tables committed in a history, in order. */
  function CommitsOf(events: seq<Event>): seq<Commit>
  {
    if events == [] then []
    else
      var last := events[|events| - 1];
      CommitsOf(events[..|events| - 1]) + if last.Committed? then [last.commit] else []
  }

  lemma {:induction false} CommitsOfConcat(xs: seq<Event>, ys: seq<Event>)
    ensures CommitsOf(xs + ys) == CommitsOf(xs) + CommitsOf(ys)
  {
    if ys == [] {
      assert xs + ys == xs;
    } else {
      var n := |ys| - 1;
      assert (xs + ys)[..|xs + ys| - 1] == xs + ys[..n];
      CommitsOfConcat(xs, ys[..n]);
    }
  }

  lemma {:induction false} CommitsOfEach(log: seq<Commit>)
    ensures CommitsOf(CommittedEach(log)) == log
  {
    if log != [] {
      var n := |log| - 1;
      assert CommittedEach(log)[..n] == CommittedEach(log[..n]);
      CommitsOfEach(log[..n]);
    }
  }

  // ----- data copied -----

  /** The writes that copy n buffers' worth of a partition, all but the two sectors of its header. */
  function CopyEvents(was: seq<int>, to: int, from: int, n: nat): (events: seq<Event>)
    requires 0 <= from && from + n * IOBUFFER_SECTORS <= |was|
    ensures |events| == n
  {
    if n == 0 then []
    else CopyEvents(was, to, from, n - 1) + [CopyEvent(was, to, from, n - 1)]
  }

  function CopyEvent(was: seq<int>, to: int, from: int, i: nat): Event
    requires 0 <= from && from + (i + 1) * IOBUFFER_SECTORS <= |was|
  {
    Wrote(to + Skip(i), was[from + Skip(i)..from + Skip(i + 1)])
  }

  /** Where buffer i of a partition starts; the first leaves out the header. */
  function Skip(i: nat): int
  {
    if i == 0 then 2 else i * IOBUFFER_SECTORS
  }

  lemma CopiedUnique(was: seq<int>, one: seq<int>, two: seq<int>, from: int, to: int, a: int, b: int)
    requires Copied(was, one, from, to, a, b) && Copied(was, two, from, to, a, b)
    ensures one == two
  {
  }

  // ----- what the partitions of the start have become -----

  /** A committed table, where in it the partitions of the start are, the data on the disk, and the
      sectors written since the commit. */
  datatype View = View(commit: Commit, waste: set<int>, f: map<int, int>, data: seq<int>, recent: set<int>)

  ghost predicate Shows(c: Chain, waste: set<int>, lives: set<Part>, f: map<int, int>)
  {
    Covers(f, lives) && Injective(f, lives) && Lives(c, waste) == Image(f, lives)
  }


  /** All the partitions of the start are somewhere, with their references and their data. */
  ghost predicate Faithfully(v: View, lives: set<Part>, was: seq<int>)
  {
    && Tiled(v.commit.chain) && Holds(v.commit.disk, v.commit.chain)
    && Shows(v.commit.chain, v.waste, lives, v.f) && Preserved(v.f, lives, was, v.data)
  }

  /** Sector x has half of a header. */
  ghost predicate HeaderSector(c: Chain, x: int)
  {
    exists i :: 0 <= i < |c| && (x == c[i].start || x == c[i].start + 1)
  }

  /** Data may be written there: behind the first partition, no partition in use is hit, and no
      header. */
  ghost predicate Writable(c: Chain, waste: set<int>, size: int, lba: int, n: int)
  {
    && c != [] && 0 <= lba && c[0].End() <= lba && lba + n <= size && Beside(Lives(c, waste), lba, n)
    && forall x :: lba <= x < lba + n ==> !HeaderSector(c, x)
  }

  function Sectors(lba: int, n: int): (s: set<int>)
    ensures forall x :: x in s <==> lba <= x < lba + n
    decreases n
  {
    if n <= 0 then {} else Sectors(lba, n - 1) + {lba + n - 1}
  }

  /** All of the partition but its header has been written at its new place. */
  ghost predicate Refreshed(recent: set<int>, p: Part, to: int)
  {
    forall x :: to + 2 <= x < to + p.length ==> x in recent
  }

  ghost predicate MovedFresh(v: View, f: map<int, int>, lives: set<Part>)
  {
    forall p :: p in lives ==> At(f, p.start) == At(v.f, p.start) || Refreshed(v.recent, p, At(f, p.start))
  }

  /** The event leads from one view to the next.  Only what was written since the last commit may
      be at a new place after the next. */
  ghost predicate Happens(v: View, e: Event, w: View, lives: set<Part>)
  {
    match e
    case Wrote(lba, buffer) =>
      && Writable(v.commit.chain, v.waste, |v.data|, lba, |buffer|)
      && w == v.(data := Overlaid(v.data, lba, buffer), recent := v.recent + Sectors(lba, |buffer|))
    case Committed(commit) =>
      w.commit == commit && w.data == v.data && w.recent == {} && MovedFresh(v, w.f, lives)
  }

  /** The history of the partitions `lives` with data `was`, told by what they are at each point. */
  ghost predicate Told(events: seq<Event>, views: seq<View>, lives: set<Part>, was: seq<int>)
  {
    && |views| == |events| + 1
    && (forall i :: 0 <= i < |views| ==> Faithfully(views[i], lives, was))
    && forall i {:trigger events[i]} :: 0 <= i < |events| ==> Happens(views[i], events[i], views[i + 1], lives)
  }

  lemma ToldStart(v: View, lives: set<Part>, was: seq<int>)
    requires Faithfully(v, lives, was)
    ensures Told([], [v], lives, was)
  {
    hide Faithfully;
  }

  lemma ToldSnoc(events: seq<Event>, views: seq<View>, e: Event, w: View, lives: set<Part>, was: seq<int>)
    requires Told(events, views, lives, was) && Happens(views[|views| - 1], e, w, lives) && Faithfully(w, lives, was)
    ensures Told(events + [e], views + [w], lives, was)
  {
    hide Faithfully, Happens;
    var es, vs := events + [e], views + [w];
    forall i | 0 <= i < |es| ensures Happens(vs[i], es[i], vs[i + 1], lives) {
      assert i < |events| ==> Happens(views[i], events[i], views[i + 1], lives);
    }
  }

  /** Data written where it may be hurts nobody. */
  lemma WroteFaithfully(v: View, lba: int, buffer: seq<int>, w: View, lives: set<Part>, was: seq<int>)
    requires Faithfully(v, lives, was) && Happens(v, Wrote(lba, buffer), w, lives)
    ensures Faithfully(w, lives, was)
  {
    hide Redirected, DataOf, Lives;
    WriteClear(Lives(v.commit.chain, v.waste), v.data, lba, buffer) by {
      assert Beside(Lives(v.commit.chain, v.waste), lba, |buffer|);
    }
    forall p | p in lives ensures DataOf(w.data, Moved(w.f, p)) == DataOf(was, p) {
      assert Moved(v.f, p) in Image(v.f, lives);
    }
  }

  lemma ToldWrote(events: seq<Event>, views: seq<View>, lba: int, buffer: seq<int>, lives: set<Part>, was: seq<int>)
    returns (w: View)
    requires Told(events, views, lives, was)
    requires
      var v := views[|views| - 1];
      Writable(v.commit.chain, v.waste, |v.data|, lba, |buffer|)
    ensures
      var v := views[|views| - 1];
      w == v.(data := Overlaid(v.data, lba, buffer), recent := v.recent + Sectors(lba, |buffer|))
    ensures Told(events + [Wrote(lba, buffer)], views + [w], lives, was)
  {
    hide Faithfully, Writable, Sectors;
    var v := views[|views| - 1];
    WritableWithin(v.commit.chain, v.waste, |v.data|, lba, |buffer|);
    w := v.(data := Overlaid(v.data, lba, buffer), recent := v.recent + Sectors(lba, |buffer|));
    WroteFaithfully(v, lba, buffer, w, lives, was);
    ToldSnoc(events, views, Wrote(lba, buffer), w, lives, was);
  }

  lemma WritableWithin(c: Chain, waste: set<int>, size: int, lba: int, n: int)
    requires Writable(c, waste, size, lba, n)
    ensures 0 <= lba && lba + n <= size
  {
  }

  /** Tables committed one after the other while nothing moves. */
  lemma {:induction false} ToldCommits(events: seq<Event>, views: seq<View>, log: seq<Commit>, waste: set<int>,
                                       now: set<Part>, lives: set<Part>, was: seq<int>) returns (next: seq<View>)
    requires Told(events, views, lives, was) && now == Image(views[|views| - 1].f, lives)
    requires forall k {:trigger log[k]} :: 0 <= k < |log| ==>
      Tiled(log[k].chain) && Holds(log[k].disk, log[k].chain) && Lives(log[k].chain, waste) == now
    ensures Told(events + CommittedEach(log), next, lives, was) && views <= next
    ensures
      var v, w := views[|views| - 1], next[|next| - 1];
      && w.f == v.f && w.data == v.data
      && if log == [] then w == v else w.commit == log[|log| - 1] && w.waste == waste
  {
    hide Tiled, Holds, Lives, Image, Preserved, Covers, Injective;
    if log == [] {
      assert events + CommittedEach(log) == events;
      next := views;
    } else {
      var n := |log| - 1;
      next := ToldCommits(events, views, log[..n], waste, now, lives, was);
      var v := next[|next| - 1];
      var w := View(log[n], waste, v.f, v.data, {});
      assert Faithfully(v, lives, was);
      ToldSnoc(events + CommittedEach(log[..n]), next, Committed(log[n]), w, lives, was);
      assert events + CommittedEach(log[..n]) + [Committed(log[n])] == events + CommittedEach(log);
      next := next + [w];
    }
  }

  // ----- a copy -----

  lemma SectorsJoin(to: int, a: int, b: int, c: int)
    requires a <= b <= c
    ensures Sectors(to + a, b - a) + Sectors(to + b, c - b) == Sectors(to + a, c - a)
  {
  }

  /** A partition is copied to a slot where nothing is in use. */
  lemma {:induction false} ToldCopy(events: seq<Event>, views: seq<View>, to: int, from: int, n: nat, length: int,
                                    lives: set<Part>, was: seq<int>) returns (next: seq<View>)
    requires Told(events, views, lives, was) && n * IOBUFFER_SECTORS <= length
    requires
      var v := views[|views| - 1];
      && 0 <= from && from + length <= |v.data| && 0 <= to && (from + length <= to || to + length <= from)
      && Writable(v.commit.chain, v.waste, |v.data|, to + 2, length - 2)
    ensures Told(events + CopyEvents(views[|views| - 1].data, to, from, n), next, lives, was) && views <= next
    ensures
      var v, w := views[|views| - 1], next[|next| - 1];
      && w.commit == v.commit && w.waste == v.waste && w.f == v.f
      && Copied(v.data, w.data, from, to, 2, Skip(n)) && w.recent == v.recent + Sectors(to + 2, Skip(n) - 2)
  {
    var v := views[|views| - 1];
    if n == 0 {
      assert events + CopyEvents(v.data, to, from, n) == events;
      NothingCopied(v.data, from, to);
      next := views;
    } else {
      var done := events + CopyEvents(v.data, to, from, n - 1);
      var before := ToldCopy(events, views, to, from, n - 1, length, lives, was);
      next := ToldBuffer(done, before, v, to, from, n, length, lives, was);
      assert done + [CopyEvent(v.data, to, from, n - 1)] == events + CopyEvents(v.data, to, from, n);
    }
  }

  /** One buffer's worth more. */
  lemma ToldBuffer(events: seq<Event>, views: seq<View>, v: View, to: int, from: int, n: nat, length: int,
                   lives: set<Part>, was: seq<int>) returns (next: seq<View>)
    requires Told(events, views, lives, was) && n > 0 && n * IOBUFFER_SECTORS <= length
    requires 0 <= from && from + length <= |v.data| && 0 <= to && (from + length <= to || to + length <= from)
    requires Writable(v.commit.chain, v.waste, |v.data|, to + 2, length - 2)
    requires
      var u := views[|views| - 1];
      && u.commit == v.commit && u.waste == v.waste && u.f == v.f && Copied(v.data, u.data, from, to, 2, Skip(n - 1))
      && u.recent == v.recent + Sectors(to + 2, Skip(n - 1) - 2)
    ensures Told(events + [CopyEvent(v.data, to, from, n - 1)], next, lives, was) && views <= next
    ensures
      var w := next[|next| - 1];
      && w.commit == v.commit && w.waste == v.waste && w.f == v.f && Copied(v.data, w.data, from, to, 2, Skip(n))
      && w.recent == v.recent + Sectors(to + 2, Skip(n) - 2)
  {
    hide *;
    ToldSize(events, views, lives, was);
    SkipBounds(n, length);
    WritableWithin(v.commit.chain, v.waste, |v.data|, to + 2, length - 2);
    var u, a, b := views[|views| - 1], Skip(n - 1), Skip(n);
    var buffer := v.data[from + a..from + b];
    CopyEventIs(v.data, to, from, n, buffer);
    CopiedLength(v.data, u.data, from, to, 2, a);
    WritablePart(v.commit.chain, v.waste, |v.data|, to + 2, length - 2, to + a, b - a);
    CopiedSource(v.data, u.data, from, to, a, b, length);
    CopyStep(v.data, u.data, from, to, 2, a, b - a);
    SectorsJoin(to, 2, a, b);
    var w := ToldWrote(events, views, to + a, buffer, lives, was);
    next := views + [w];
  }

  lemma SkipBounds(n: nat, length: int)
    requires n > 0 && n * IOBUFFER_SECTORS <= length
    ensures 2 <= Skip(n - 1) <= Skip(n) <= length
  {
  }

  lemma CopyEventIs(was: seq<int>, to: int, from: int, n: nat, buffer: seq<int>)
    requires n > 0 && 0 <= from && from + n * IOBUFFER_SECTORS <= |was| && Skip(n - 1) <= Skip(n)
    requires from + Skip(n) <= |was| && 0 <= from + Skip(n - 1) && buffer == was[from + Skip(n - 1)..from + Skip(n)]
    ensures CopyEvent(was, to, from, n - 1) == Wrote(to + Skip(n - 1), buffer)
  {
  }

  lemma ToldSize(events: seq<Event>, views: seq<View>, lives: set<Part>, was: seq<int>)
    requires Told(events, views, lives, was)
    ensures |views| == |events| + 1
  {
    hide Faithfully, Happens;
  }

  lemma WritablePart(c: Chain, waste: set<int>, size: int, lba: int, n: int, low: int, m: int)
    requires Writable(c, waste, size, lba, n) && lba <= low && 0 <= m && low + m <= lba + n
    ensures Writable(c, waste, size, low, m)
  {
    hide Within, HeaderSector;
  }

  /** What has been copied leaves the original alone. */
  lemma CopiedSource(was: seq<int>, now: seq<int>, from: int, to: int, a: int, b: int, length: int)
    requires Copied(was, now, from, to, 2, a) && 2 <= a <= b <= length
    requires 0 <= from && from + length <= |was| && (from + length <= to || to + length <= from)
    ensures |now| == |was| && now[from + a..from + b] == was[from + a..from + b]
  {
    forall x | from + a <= x < from + b ensures now[x] == was[x] {
      assert now[x] == CopiedAt(was, from, to, 2, a, x);
    }
  }

  // ----- a move -----

  /** The headers are switched after the copy: what moves is where it was written. */
  lemma SwapFresh(v: View, c: Chain, s: int, d: int, lives: set<Part>)
    requires v.commit.chain == c && Movable(c, s, d) && Covers(v.f, lives) && Image(v.f, lives) == Lives(c, {})
    requires Refreshed(v.recent, c[s], c[d].start)
    ensures MovedFresh(v, Then(v.f, Step(c[s].start, c[d].start)), lives)
  {
    hide Linked, Redirected;
    var g := Then(v.f, Step(c[s].start, c[d].start));
    forall p | p in lives && At(g, p.start) != At(v.f, p.start) ensures Refreshed(v.recent, p, At(g, p.start)) {
      assert Moved(v.f, p) in Image(v.f, lives);
      var k :| 0 <= k < |c| && c[k] == Moved(v.f, p);
      if k != s {
        ApaChain.Apart(c, k, s);
      }
    }
  }

  lemma ToldSwap(events: seq<Event>, views: seq<View>, c: Chain, s: int, d: int, disk: Table, lives: set<Part>,
                 was: seq<int>)
    returns (w: View)
    requires Told(events, views, lives, was)
    requires
      var v := views[|views| - 1];
      && v.commit.chain == c && Movable(c, s, d) && Covers(v.f, lives) && Image(v.f, lives) == Lives(c, {})
      && Refreshed(v.recent, c[s], c[d].start)
    requires
      var v := views[|views| - 1];
      var g := Then(v.f, Step(c[s].start, c[d].start));
      && Tiled(Swapped(c, s, d)) && Holds(disk, Swapped(c, s, d))
      && Shows(Swapped(c, s, d), {c[s].start}, lives, g) && Preserved(g, lives, was, v.data)
    ensures
      var v := views[|views| - 1];
      var g := Then(v.f, Step(c[s].start, c[d].start));
      w == View(Commit(disk, Swapped(c, s, d)), {c[s].start}, g, v.data, {})
    ensures Told(events + [Committed(Commit(disk, Swapped(c, s, d)))], views + [w], lives, was)
  {
    var v := views[|views| - 1];
    var g := Then(v.f, Step(c[s].start, c[d].start));
    hide Told, Movable, Refreshed, Tiled, Holds, Swapped, Shows, Preserved, MovedFresh, Covers, Image, Lives;
    ToldSize(events, views, lives, was);
    SwapFresh(v, c, s, d, lives);
    w := View(Commit(disk, Swapped(c, s, d)), {c[s].start}, g, v.data, {});
    ToldSnoc(events, views, Committed(Commit(disk, Swapped(c, s, d))), w, lives, was);
  }

  /** A slot that may be written. */
  lemma SlotWritable(c: Chain, waste: set<int>, d: int, size: int)
    requires Tiled(c) && 0 < d < |c| && c[d].length >= 2 && 0 <= c[d].start && c[d].End() <= size
    requires Beside(Lives(c, waste), c[d].start, c[d].length)
    ensures Writable(c, waste, size, c[d].start + 2, c[d].length - 2)
  {
    ApaChain.Apart(c, 0, d);
    forall x | c[d].start + 2 <= x < c[d].End() ensures !Within(Lives(c, waste), x) && !HeaderSector(c, x) {
      NoHeader(c, d, x);
    }
  }

  lemma NoHeader(c: Chain, d: int, x: int)
    requires Tiled(c) && 0 <= d < |c| && c[d].start + 2 <= x < c[d].End()
    ensures !HeaderSector(c, x)
  {
    forall i | 0 <= i < |c| ensures x != c[i].start && x != c[i].start + 1 {
      if i != d {
        ApaChain.Apart(c, i, d);
      }
    }
  }
}
