/** The partition table in memory and on the platter: reading and writing headers, and the batches
    in which splits and merges reach the disk. */
module ApaTable {
  import opened Powers
  import opened ApaChain

  const EACCES := -13
  const LOG_SLOTS := 126

  /** One batch: what the platter holds once it is committed, and the chain that is. */
  datatype Commit = Commit(disk: Table, chain: Chain)

  /** The batches a change to chain c commits all leave a gapless, correctly linked chain in
      which every used partition but the target is untouched. */
  ghost predicate GoodCommit(commit: Commit, c: Chain, target: int)
  {
    Tiled(commit.chain) && Holds(commit.disk, commit.chain) && SameUsed(c, commit.chain, target)
  }

  ghost predicate GoodCommits(log: seq<Commit>, from: nat, c: Chain, target: int)
  {
    forall k :: from <= k < |log| ==> GoodCommit(log[k], c, target)
  }

  /** Batches that are good for a chain reached by good batches are good for the first. */
  lemma GoodCommitsTrans(log: seq<Commit>, from: nat, mid: nat, c: Chain, d: Chain, target: int)
    requires from <= mid <= |log| && SameUsed(c, d, target)
    requires forall k :: from <= k < mid ==> GoodCommit(log[k], c, target)
    requires GoodCommits(log, mid, d, target)
    ensures GoodCommits(log, from, c, target)
  {
    forall k | from <= k < |log| ensures GoodCommit(log[k], c, target) {
      if k >= mid {
        SameUsedTrans(c, d, log[k].chain, target);
      }
    }
  }

  /** Every partition has at least the given length and ends within the disk. */
  ghost predicate Bounded(c: Chain, unit: int, end: int)
  {
    forall i :: 0 <= i < |c| ==> unit <= c[i].length && c[i].End() <= end
  }

  ghost predicate IsStart(c: Chain, s: int)
  {
    exists i :: 0 <= i < |c| && c[i].start == s
  }

  /** All these are addresses of partitions. */
  ghost predicate OnStarts(c: Chain, sectors: set<int>)
  {
    forall s :: s in sectors ==> IsStart(c, s)
  }

  /** The partitions of the next chain start where there was one, or where a header is written. */
  ghost predicate NewStarts(c: Chain, next: Chain, dirty: set<int>)
  {
    forall k :: 0 <= k < |next| ==> next[k].start in dirty || IsStart(c, next[k].start)
  }

  /** A merge stays within bounds, and writes headers of partitions there are. */
  lemma JoinedBatch(c: Chain, j: nat, i: nat, body: Body, unit: int, end: int, dirty: set<int>)
    requires Sound(c) && 0 < j <= i < |c| - 1 && Bounded(c, unit, end)
    ensures Bounded(Joined(c, j, i, body), unit, end)
    ensures IsStart(Joined(c, j, i, body), c[j].start) && IsStart(Joined(c, j, i, body), c[i + 1].start)
    ensures NewStarts(c, Joined(c, j, i, body), dirty)
  {
    var d := Joined(c, j, i, body);
    JoinedParts(c, j, i, body);
    if j < i {
      Apart(c, j, i);
    }
    assert d[j].start == c[j].start && d[j + 1].start == c[i + 1].start;
    JoinedStarts(c, j, i, body, dirty);
  }

  lemma JoinedStarts(c: Chain, j: nat, i: nat, body: Body, dirty: set<int>)
    requires j <= i < |c|
    ensures NewStarts(c, Joined(c, j, i, body), dirty)
  {
    var d := Joined(c, j, i, body);
    JoinedParts(c, j, i, body);
    forall k | 0 <= k < |d| ensures IsStart(c, d[k].start) {
      assert c[if k <= j then k else k + (i - j)].start == d[k].start;
    }
  }

  lemma PrefixStarts(c: Chain, n: nat)
    requires n <= |c|
    ensures NewStarts(c, c[..n], {})
  {
    var d := c[..n];
    forall k | 0 <= k < |d| ensures IsStart(c, d[k].start) {
      assert c[k].start == d[k].start;
    }
  }

  lemma StartsTrans(c: Chain, d: Chain, e: Chain)
    requires NewStarts(c, d, {}) && NewStarts(d, e, {})
    ensures NewStarts(c, e, {})
  {
    forall k | 0 <= k < |e| ensures IsStart(c, e[k].start) {
      assert IsStart(d, e[k].start);
      var i :| 0 <= i < |d| && d[i].start == e[k].start;
    }
  }

  /** A deletion starts no partition anywhere new. */
  lemma DeletedStarts(c: Chain, i: nat)
    requires Sound(c) && 0 < i < |c|
    ensures NewStarts(c, Deleted(c, i), {})
  {
    if i == |c| - 1 {
      PrefixStarts(c, TrimTo(c, i));
    } else {
      hide NewStarts, Round, Sound, Rebodied;
      RoundSound(c, i);
      RoundStarts(c, i);
      RoundStarts(Round(c, i), DownIndex(c, i));
      StartsTrans(c, Round(c, i), Merged(c, i).0);
      DroppedStarts(c, i, Merged(c, i).0, Merged(c, i).1);
      StartsTrans(c, Merged(c, i).0, Deleted(c, i));
    }
  }

  lemma DroppedStarts(c: Chain, i: nat, d: Chain, j: nat)
    requires i < |c| && j < |d|
    ensures NewStarts(d, Dropped(c, i, d, j), {})
  {
    BodyStarts(d, j, EMPTY_BODY);
  }

  lemma BodyStarts(c: Chain, i: nat, body: Body)
    requires i < |c|
    ensures NewStarts(c, Rebodied(c, i, body), {}) && NewStarts(c, c, {})
  {
    SameStarts(c, Rebodied(c, i, body), {});
    SameStarts(c, c, {});
  }

  lemma RoundStarts(c: Chain, i: nat)
    requires Sound(c) && 0 < i < |c| - 1
    ensures NewStarts(c, Round(c, i), {})
  {
    hide NewStarts, Joined, MergeDown, MergeUp, Sound;
    DownSound(c, i);
    var j, d := DownIndex(c, i), Down(c, i);
    SameStarts(c, c, {});
    if j < i {
      JoinedStarts(c, j, i, c[j].body, {});
    }
    SameStarts(d, d, {});
    var k := MergeUp(d, j, j + 1);
    if k > j + 1 {
      JoinedStarts(d, j, k - 1, EMPTY_BODY, {});
    }
    StartsTrans(c, d, Round(c, i));
  }

  lemma HalvedBatch(c: Chain, i: nat, unit: int, end: int)
    requires Sound(c) && 0 < i < |c| - 1 && Bounded(c, unit, end) && c[i].length >= 2 * unit && c[i].length > 0
    ensures Bounded(Halved(c, i), unit, end)
    ensures IsStart(Halved(c, i), c[i].start) && IsStart(Halved(c, i), c[i].start + c[i].length / 2)
    ensures IsStart(Halved(c, i), c[i + 1].start)
  {
    var d := Halved(c, i);
    HalvedParts(c, i);
    assert d[i].start == c[i].start && d[i + 1].start == c[i].start + c[i].length / 2 &&
      d[i + 2].start == c[i + 1].start;
  }

  lemma HalvedStarts(c: Chain, i: nat, dirty: set<int>)
    requires i < |c| && c[i].start + c[i].length / 2 in dirty
    ensures NewStarts(c, Halved(c, i), dirty)
  {
    var d := Halved(c, i);
    HalvedParts(c, i);
    forall k | 0 <= k < |d| && k != i + 1 ensures IsStart(c, d[k].start) {
      assert c[if k <= i then k else k - 1].start == d[k].start;
    }
  }

  /** The three header updates that halve a partition. */
  function HalvedTable(t: Table, h: Header): Table
    requires h.next in t
  {
    var half := h.length / 2;
    t[h.start + half := Header(h.start + half, h.next, h.start, half, EMPTY_BODY)]
      [h.start := h.(length := half, next := h.start + half)]
      [h.next := t[h.next].(prev := h.start + half)]
  }

  function HalvedDirty(h: Header): set<int>
  {
    {} + {h.start + h.length / 2} + {h.start} + {h.next}
  }

  /** The headers a split writes are those of partitions there are. */
  ghost predicate HalvedWrites(h: Header, c: Chain, d: Chain)
  {
    |HalvedDirty(h)| <= LOG_SLOTS && OnStarts(d, HalvedDirty(h)) && NewStarts(c, d, HalvedDirty(h))
  }

  lemma HalvedTableHolds(t: Table, c: Chain, i: nat)
    requires Sound(c) && 0 < i < |c| - 1 && c[i].length > 1 && Holds(t, c)
    ensures c[i].start in t && t[c[i].start] == HeaderOf(c, i) && c[i + 1].start in t
    ensures HeaderOf(c, i).next == c[i + 1].start
    ensures Holds(HalvedTable(t, HeaderOf(c, i)), Halved(c, i)) && HalvedWrites(HeaderOf(c, i), c, Halved(c, i))
  {
    assert HoldsAt(t, c, i) && HoldsAt(t, c, i + 1);
    HalvedBatch(c, i, 0, c[|c| - 1].End()) by {
      EndLast(c);
    }
    HalvedStarts(c, i, HalvedDirty(HeaderOf(c, i)));
    hide Holds, Halved, IsStart, NewStarts, Sound, Bounded;
    HalvedHolds(t, c, i, HalvedTable(t, HeaderOf(c, i)));
    ThreeWrites(HeaderOf(c, i));
  }

  lemma HalvedWritesFacts(h: Header, c: Chain, d: Chain)
    requires HalvedWrites(h, c, d)
    ensures |HalvedDirty(h)| <= LOG_SLOTS && OnStarts(d, HalvedDirty(h)) && NewStarts(c, d, HalvedDirty(h))
  {
    hide OnStarts, HalvedDirty, NewStarts;
  }

  lemma ThreeWrites(h: Header)
    ensures |HalvedDirty(h)| <= LOG_SLOTS
  {
    assert |{h.start + h.length / 2} + {h.start}| <= 2;
  }

  /** No partition ends behind the last one. */
  lemma EndLast(c: Chain)
    requires Tiled(c)
    ensures Bounded(c, 0, c[|c| - 1].End())
  {
    forall i | 0 <= i < |c| ensures 0 <= c[i].length && c[i].End() <= c[|c| - 1].End() {
      assert Aligned(c[i]) && Aligned(c[|c| - 1]);
      if i < |c| - 1 {
        Apart(c, i, |c| - 1);
      }
    }
  }

  lemma TrimmedBatch(c: Chain, unit: int, end: int, dirty: set<int>)
    requires |c| > 1 && Bounded(c, unit, end)
    ensures Bounded(c[..|c| - 1], unit, end)
    ensures IsStart(c[..|c| - 1], c[0].start) && IsStart(c[..|c| - 1], c[|c| - 2].start)
    ensures NewStarts(c, c[..|c| - 1], dirty)
  {
    var d := c[..|c| - 1];
    assert d[0] == c[0] && d[|c| - 2] == c[|c| - 2];
    forall k | 0 <= k < |d| ensures IsStart(c, d[k].start) {
      assert c[k].start == d[k].start;
    }
  }

  lemma RebodiedBatch(c: Chain, i: nat, body: Body, unit: int, end: int, dirty: set<int>)
    requires i < |c| && Bounded(c, unit, end)
    ensures Bounded(Rebodied(c, i, body), unit, end) && IsStart(Rebodied(c, i, body), c[i].start)
    ensures NewStarts(c, Rebodied(c, i, body), dirty)
  {
    assert Rebodied(c, i, body)[i].start == c[i].start;
    SameStarts(c, Rebodied(c, i, body), dirty);
  }

  lemma SameStarts(c: Chain, next: Chain, dirty: set<int>)
    requires |next| == |c| && forall k :: 0 <= k < |c| ==> next[k].start == c[k].start
    ensures NewStarts(c, next, dirty)
  {
    forall k | 0 <= k < |next| ensures IsStart(c, next[k].start) {
      assert c[k].start == next[k].start;
    }
  }

  /** The platter after the dirty headers are written. */
  function Written(disk: Table, dirty: set<int>, heads: Table): Table
    requires dirty <= heads.Keys
  {
    map s | s in disk.Keys + dirty :: if s in dirty then heads[s] else disk[s]
  }

  lemma AllWritten(disk: Table, dirty: set<int>, heads: Table)
    requires dirty <= heads.Keys && disk.Keys <= heads.Keys
    requires forall s :: s in heads && s !in dirty ==> s in disk && disk[s] == heads[s]
    ensures Written(disk, dirty, heads) == heads
  {
    var after := Written(disk, dirty, heads);
    forall s ensures s in after <==> s in heads {
      if s in heads && s !in dirty {
        assert s in disk;
      }
    }
    forall s | s in heads ensures after[s] == heads[s] {
      assert s in dirty || s in disk;
    }
  }

  // ----- the record of the batches -----

  /** What the platter holds, and what chain it is, after the first k batches. */
  function CommitAt(origin: Commit, log: seq<Commit>, k: int): Commit
  {
    if 0 < k <= |log| then log[k - 1] else origin
  }

  /** A gapless chain within the disk, with right links. */
  ghost predicate Sited(commit: Commit, unit: int, end: int)
  {
    Tiled(commit.chain) && Holds(commit.disk, commit.chain) && Bounded(commit.chain, unit, end)
  }

  /** A batch writes at most 126 headers, of partitions the new chain has, and nothing else. */
  ghost predicate BatchBy(d: Commit, commit: Commit, dirty: set<int>)
  {
    && |dirty| <= LOG_SLOTS && dirty <= commit.disk.Keys
    && OnStarts(commit.chain, dirty) && NewStarts(d.chain, commit.chain, dirty)
    && commit.disk == Written(d.disk, dirty, commit.disk)
  }

  ghost predicate Batched(d: Commit, commit: Commit, unit: int, end: int)
  {
    Sited(d, unit, end) && Sited(commit, unit, end) && exists dirty :: BatchBy(d, commit, dirty)
  }

  /** The log leads from the first platter to the present one, a batch at a time. */
  ghost predicate Recording(origin: Commit, log: seq<Commit>, now: Commit, unit: int, end: int)
  {
    && Sited(now, unit, end) && now == CommitAt(origin, log, |log|)
    && forall k :: 0 <= k < |log| ==> Batched(CommitAt(origin, log, k), log[k], unit, end)
  }

  lemma RecordingSnoc(origin: Commit, log: seq<Commit>, now: Commit, next: Commit, dirty: set<int>, unit: int, end: int)
    requires Recording(origin, log, now, unit, end) && BatchBy(now, next, dirty) && Sited(next, unit, end)
    ensures Recording(origin, log + [next], next, unit, end)
  {
    hide Sited, BatchBy;
    var longer := log + [next];
    forall k | 0 <= k < |longer| ensures Batched(CommitAt(origin, longer, k), longer[k], unit, end) {
      assert CommitAt(origin, longer, k) == CommitAt(origin, log, k);
    }
  }

  /** The headers of a disk, as the cache sees them and as the platter has them.  A flush takes
      the dirty ones to the platter at once: that it may do so, whatever the power does
      meanwhile, is proved in ChainCrash of the journalled commands it stands for. */
  class PartitionTable {
    var heads: Table
    var dirty: set<int>
    var disk: Table
    ghost var chain: Chain
    ghost var log: seq<Commit>
    ghost const origin: Commit   // the platter at the start
    ghost const unit: int        // no partition is smaller
    ghost const end: int         // nor ends later

    ghost predicate Valid()
      reads this
    {
      dirty == {} && disk == heads && Sound(chain) && Holds(heads, chain) && Recorded()
    }

    ghost predicate Recorded()
      reads this`disk, this`chain, this`log
    {
      unit >= 1 && Bounded(chain, unit, end) && Recording(origin, log, Commit(disk, chain), unit, end)
    }

    /** What is not dirty is as on the platter. */
    ghost predicate Agrees()
      reads this
    {
      && dirty <= heads.Keys && disk.Keys <= heads.Keys
      && forall s :: s in heads && s !in dirty ==> s in disk && disk[s] == heads[s]
    }

    lemma InBounds()
      requires Recorded()
      ensures unit >= 1 && Bounded(chain, unit, end)
    {
    }

    constructor (disk: Table, ghost chain: Chain, ghost unit: int, ghost end: int)
      requires Sound(chain) && Holds(disk, chain) && unit >= 1 && Bounded(chain, unit, end)
      ensures Valid() && this.disk == disk && this.chain == chain && log == []
      ensures origin == Commit(disk, chain) && this.unit == unit && this.end == end
    {
      this.heads, this.dirty, this.disk, this.chain, this.log := disk, {}, disk, chain, [];
      this.origin, this.unit, this.end := Commit(disk, chain), unit, end;
    }

    method Get(sector: int) returns (header: Header)
      requires sector in heads
      ensures header == heads[sector]
    {
      header := heads[sector];
    }

    method Put(sector: int, header: Header)
      requires Agrees()
      modifies this`heads, this`dirty
      ensures Agrees() && heads == old(heads)[sector := header] && dirty == old(dirty) + {sector}
    {
      heads := heads[sector := header];
      dirty := dirty + {sector};
    }

    method FlushAllDirty(ghost next: Chain)
      requires Agrees() && Recorded() && |dirty| <= LOG_SLOTS
      requires Holds(heads, next) && Tiled(next) && Bounded(next, unit, end)
      requires OnStarts(next, dirty) && NewStarts(chain, next, dirty)
      modifies this
      ensures heads == old(heads) && disk == heads && dirty == {} && Agrees() && Recorded()
      ensures chain == next && log == old(log) + [Commit(disk, next)]
    {
      hide Holds, Tiled, Bounded, OnStarts, NewStarts, Recording;
      AllWritten(disk, dirty, heads);
      RecordingSnoc(origin, log, Commit(disk, chain), Commit(heads, next), dirty, unit, end);
      disk := Written(disk, dirty, heads);
      dirty := {};
      chain := next;
      log := log + [Commit(disk, next)];
    }

    // ----- coalescing -----

    /** How far down the partition at `sector` can grow: where, and to what length. */
    method ScanDown(sector: int, ghost i: nat) returns (at: int, length: int)
      requires Valid() && 0 < i < |chain| - 1 && sector == chain[i].start
      ensures at == chain[DownIndex(chain, i)].start && length == chain[i].End() - at
    {
      hide Recorded, IsStart, NewStarts, Bounded;
      assert HoldsAt(heads, chain, i);
      var header := Get(sector);
      length := header.length;
      at := sector;
      ghost var j := i;
      while header.start != 0
        invariant 0 < j <= i && at == chain[j].start && header == HeaderOf(chain, j)
        invariant length == chain[i].End() - chain[j].start
        invariant MergeDown(chain, j, chain[i].End()) == DownIndex(chain, i)
        decreases j
      {
        assert HoldsAt(heads, chain, j - 1) && chain[j - 1].End() == chain[j].start;
        var prev := header.prev;
        header := Get(prev);
        var total := header.length + length;
        if header.body.ptype != 0 {
          break;
        }
        if !Pow2(total) || header.start % total != 0 {
          break;
        }
        length := total;
        at := prev;
        j := j - 1;
      }
      Apart(chain, j, 0);
    }

    /** Grows the partition at `sector` over the free ones before it. */
    method DeleteFixPrev(sector: int, ghost i: nat) returns (at: int)
      requires Valid() && 0 < i < |chain| - 1 && sector == chain[i].start
      modifies this
      ensures Valid() && chain == Down(old(chain), i)
      ensures at == chain[DownIndex(old(chain), i)].start
      ensures log == if DownIndex(old(chain), i) == i then old(log) else old(log) + [Commit(disk, chain)]
    {
      hide Recorded, IsStart, NewStarts, Bounded;
      ghost var c, j := chain, DownIndex(chain, i);
      assert HoldsAt(heads, c, i);
      var header := Get(sector);
      var length;
      at, length := ScanDown(sector, i);
      MergeDownFacts(c, i, c[i].End());
      if j < i {
        Apart(c, j, i);
      }
      if length != header.length {
        Grow(at, length, header.next, j, i);
      }
      DownSound(c, i);
    }

    /** Records that partitions j to i are one. */
    method Grow(at: int, length: int, next: int, ghost j: nat, ghost i: nat)
      requires Valid() && 0 < j < i < |chain| - 1
      requires at == chain[j].start && length == chain[i].End() - chain[j].start && next == chain[i + 1].start
      requires Fits(at, length)
      modifies this
      ensures Valid() && chain == Joined(old(chain), j, i, old(chain)[j].body)
      ensures log == old(log) + [Commit(disk, chain)]
    {
      hide Recorded, IsStart, NewStarts, Bounded;
      InBounds();
      ghost var c := chain;
      assert HoldsAt(heads, c, j) && HoldsAt(heads, c, i + 1);
      Apart(c, j, i + 1);
      var header := Get(at);
      Put(at, header.(length := length, next := header.start + length));
      var after := Get(next);
      Put(next, after.(prev := header.start));
      JoinedHolds(disk, c, j, i, c[j].body, heads);
      JoinedSound(c, j, i, c[j].body);
      JoinedBatch(c, j, i, c[j].body, unit, end, dirty);
      FlushAllDirty(Joined(c, j, i, c[j].body));
    }

    /** How far up the partition at `sector` can grow: to what length, and what follows. */
    method ScanUp(sector: int, ghost i: nat) returns (length: int, next: int)
      requires Valid() && 0 < i < |chain| - 1 && sector == chain[i].start
      ensures
        var k := MergeUp(chain, i, i + 1);
        k < |chain| && next == chain[k].start && length == next - sector
    {
      hide Recorded, IsStart, NewStarts, Bounded;
      assert HoldsAt(heads, chain, i);
      var header := Get(sector);
      var start := header.start;
      length, next := header.length, header.next;
      ghost var k := i + 1;
      assert chain[i].End() == chain[k].start;
      while next != 0
        invariant i < k < |chain| && next == chain[k].start
        invariant length == chain[k].start - chain[i].start
        invariant MergeUp(chain, i, k) == MergeUp(chain, i, i + 1)
        decreases |chain| - k
      {
        assert HoldsAt(heads, chain, k);
        header := Get(next);
        var total := header.length + length;
        if header.body.ptype != 0 {
          break;
        }
        if !Pow2(total) || start % total != 0 {
          break;
        }
        assert total == chain[k].End() - start && k < |chain| - 1;
        assert chain[k].End() == chain[k + 1].start;
        length := total;
        next := header.next;
        k := k + 1;
      }
      Apart(chain, k, 0);
    }

    /** Grows the partition at `sector` over the free ones after it, emptying it if it grows. */
    method DeleteFixNext(sector: int, ghost i: nat)
      requires Valid() && 0 < i < |chain| - 1 && sector == chain[i].start
      modifies this
      ensures Valid() && chain == Up(old(chain), i)
      ensures log == if MergeUp(old(chain), i, i + 1) == i + 1 then old(log) else old(log) + [Commit(disk, chain)]
    {
      hide Fits, MergeUp, Joined, Recorded, IsStart, NewStarts, Bounded;
      ghost var c, k := chain, MergeUp(chain, i, i + 1);
      assert HoldsAt(heads, c, i) && c[i].End() == c[i + 1].start;
      var header := Get(sector);
      var length, next := ScanUp(sector, i);
      MergeUpFacts(c, i, i + 1);
      if k > i + 1 {
        Apart(c, i + 1, k);
        assert c[k - 1].End() == c[k].start;
      }
      if length != header.length {
        GrowEmpty(sector, length, next, i, k);
      }
      UpSound(c, i);
    }

    /** Records that partitions i to k - 1 are one free partition. */
    method GrowEmpty(sector: int, length: int, next: int, ghost i: nat, ghost k: nat)
      requires Valid() && 0 < i < k - 1 < |chain| - 1
      requires sector == chain[i].start && length == chain[k].start - chain[i].start && next == chain[k].start
      requires Fits(sector, length)
      modifies this
      ensures Valid() && chain == Joined(old(chain), i, k - 1, EMPTY_BODY)
      ensures log == old(log) + [Commit(disk, chain)]
    {
      hide Joined, Fits, Pow2, Aligned, Recorded, IsStart, NewStarts, Bounded;
      InBounds();
      ghost var c := chain;
      assert HoldsAt(heads, c, i) && HoldsAt(heads, c, k);
      assert c[k - 1].End() == c[k].start;
      Apart(c, i, k);
      var header := Get(sector);
      header := header.(length := length, next := next);
      MakeEmpty(sector, header);
      var after := Get(next);
      Put(next, after.(prev := header.start));
      JoinedHolds(disk, c, i, k - 1, EMPTY_BODY, heads);
      JoinedSound(c, i, k - 1, EMPTY_BODY);
      JoinedBatch(c, i, k - 1, EMPTY_BODY, unit, end, dirty);
      FlushAllDirty(Joined(c, i, k - 1, EMPTY_BODY));
    }

    /** Forgets everything about a partition but its place. */
    method MakeEmpty(sector: int, header: Header)
      requires Agrees()
      modifies this`heads, this`dirty
      ensures Agrees() && heads == old(heads)[sector := header.(body := EMPTY_BODY)] && dirty == old(dirty) + {sector}
    {
      Put(sector, Header(header.start, header.next, header.prev, header.length, EMPTY_BODY));
    }

    // ----- deletion -----

    /** The chain ends one partition earlier. */
    method TrimOne(last: int) returns (at: int, header: Header)
      requires Agrees() && Recorded() && dirty == {} && Tiled(chain) && Holds(heads, chain)
      requires |chain| > 1 && last == chain[|chain| - 1].start
      modifies this
      ensures Agrees() && Recorded() && dirty == {} && disk == heads && Holds(heads, chain)
      ensures chain == old(chain)[..|old(chain)| - 1] && log == old(log) + [Commit(disk, chain)]
      ensures at == chain[|chain| - 1].start && header == HeaderOf(chain, |chain| - 1)
    {
      hide Recorded, IsStart, NewStarts, Bounded;
      InBounds();
      ghost var c, n := chain, |chain| - 1;
      assert HoldsAt(heads, c, n) && HoldsAt(heads, c, n - 1) && HoldsAt(heads, c, 0);
      var h := Get(last);
      at := h.prev;
      h := Get(at);
      Put(at, h.(next := 0));
      var mbr := Get(0);
      Put(0, mbr.(prev := at));
      assert heads == TrimmedTable(old(heads), at);
      TrimmedHolds(old(heads), c);
      TrimmedBatch(c, unit, end, dirty);
      FlushAllDirty(c[..n]);
      assert HoldsAt(heads, c[..n], n - 1);
      header := Get(at);
    }

    /** Drops the last partition and every free one before it. */
    method DeleteLast(sector: int)
      requires Valid() && |chain| > 1 && sector == chain[|chain| - 1].start
      modifies this
      ensures Valid() && chain == old(chain)[..TrimTo(old(chain), |old(chain)| - 1)]
      ensures old(log) <= log && GoodCommits(log, |old(log)|, old(chain), sector)
    {
      hide Recorded, IsStart, NewStarts, Bounded;
      ghost var c, log0, n := chain, log, |chain|;
      var at := sector;
      var again := true;
      assert c[..n] == c;
      while again
        invariant n > 0 && Trimming(c, n, again) && CutTo(c, n, log0) && at == c[n - 1].start
        decreases n
      {
        at, again := TrimLast(at, c, n, log0);
        n := n - 1;
      }
    }

    /** The table is that of the first n partitions and every batch so far was good. */
    ghost predicate CutTo(c: Chain, n: nat, log0: seq<Commit>)
      reads this
    {
      && 0 < n <= |c| && chain == c[..n] && Tiled(c[..n])
      && Agrees() && Recorded() && dirty == {} && disk == heads && Holds(heads, chain)
      && log0 <= log && GoodCommits(log, |log0|, c, c[|c| - 1].start)
    }

    method TrimLast(last: int, ghost c: Chain, ghost n: nat, ghost log0: seq<Commit>) returns (at: int, again: bool)
      requires Trimming(c, n, true) && CutTo(c, n, log0) && last == c[n - 1].start
      modifies this
      ensures Trimming(c, n - 1, again) && CutTo(c, n - 1, log0) && at == c[n - 2].start
    {
      hide Recorded, IsStart, NewStarts, Bounded;
      TrimStep(c, n);
      var header;
      at, header := TrimOne(last);
      again := header.body.ptype == 0;
    }

    method Delete(sector: int, ghost i: nat) returns (rv: int)
      requires Valid() && i < |chain| && sector == chain[i].start
      modifies this
      ensures i == 0 ==> rv == EACCES && chain == old(chain) && disk == old(disk) && log == old(log)
      ensures i > 0 ==> rv == 0 && Valid() && chain == Deleted(old(chain), i)
      ensures i > 0 ==> old(log) <= log && GoodCommits(log, |old(log)|, old(chain), sector)
    {
      hide Recorded, IsStart, NewStarts, Bounded;
      ghost var c := chain;
      assert HoldsAt(heads, c, i);
      if i > 0 {
        Apart(c, 0, i);
      }
      var header := Get(sector);
      var start, length := header.start, header.length;
      if start == 0 {
        return EACCES;
      }
      if i < |c| - 1 {
        Apart(c, 0, i + 1);
      }
      if header.next == 0 {
        DeleteLast(sector);
      } else {
        DeleteMiddle(sector, length, i);
      }
      rv := 0;
    }

    /** One round of the two that deletion makes. */
    method DeleteRound(sector: int, ghost i: nat, ghost target: int) returns (at: int)
      requires Valid() && 0 < i < |chain| - 1 && sector == chain[i].start
      requires !chain[i].Used() || chain[i].start == target
      modifies this
      ensures Valid() && chain == Round(old(chain), i) && DownIndex(old(chain), i) < |chain|
      ensures at == chain[DownIndex(old(chain), i)].start
      ensures old(log) <= log && GoodCommits(log, |old(log)|, old(chain), target)
    {
      hide Up, Down, SameUsed, Grown, Fits, MergeUp, MergeDown, Recorded, IsStart, NewStarts, Bounded;
      ghost var c, j := chain, DownIndex(chain, i);
      DownSound(c, i);
      DownUsed(c, i, target);
      RoundUsed(c, i, target);
      at := DeleteFixPrev(sector, i);
      DownStart(c, i);
      DeleteFixNext(at, j);
    }

    method DeleteMiddle(sector: int, length: int, ghost i: nat)
      requires Valid() && 0 < i < |chain| - 1 && sector == chain[i].start && length == chain[i].length
      modifies this
      ensures Valid() && chain == Deleted(old(chain), i)
      ensures old(log) <= log && GoodCommits(log, |old(log)|, old(chain), sector)
    {
      hide Up, Down, Recorded, IsStart, NewStarts, Bounded;
      ghost var c, log0 := chain, log;
      RoundSound(c, i);
      RoundUsed(c, i, sector);
      MergedUsed(c, i);
      var at := DeleteRound(sector, i, sector);
      ghost var d, n := chain, |log|;
      at := DeleteRound(at, DownIndex(c, i), sector);
      GoodCommitsTrans(log, |log0|, n, c, d, sector);
      assert chain == Merged(c, i).0;
      EmptyIfUnchanged(at, sector, length, Merged(c, i).1, c, |log0|);
    }

    method EmptyIfUnchanged(at: int, sector: int, length: int, ghost j: nat, ghost c: Chain, ghost from: nat)
      requires Valid() && 0 < j < |chain| - 1 && at == chain[j].start
      requires SameUsed(c, chain, sector) && from <= |log| && GoodCommits(log, from, c, sector)
      modifies this
      ensures Valid() && old(log) <= log && GoodCommits(log, from, c, sector)
      ensures chain ==
        if old(chain)[j].start == sector && old(chain)[j].length == length then Rebodied(old(chain), j, EMPTY_BODY)
        else old(chain)
    {
      hide Recorded, IsStart, NewStarts, Bounded;
      InBounds();
      ghost var d := chain;
      assert HoldsAt(heads, d, j);
      var header := Get(at);
      if header.start == sector && header.length == length {
        RebodiedFacts(d, j, EMPTY_BODY, sector);
        RebodiedHolds(disk, d, j, EMPTY_BODY, disk[at := header.(body := EMPTY_BODY)]);
        SameUsedTrans(c, d, Rebodied(d, j, EMPTY_BODY), sector);
        MakeEmpty(at, header);
        RebodiedBatch(d, j, EMPTY_BODY, unit, end, dirty);
        FlushAllDirty(Rebodied(d, j, EMPTY_BODY));
      }
    }

    // ----- insertion -----

    /** Starts a free partition's header from scratch. */
    method RemovePartition(start: int, next: int, prev: int, length: int)
      requires Agrees()
      modifies this`heads, this`dirty
      ensures Agrees() && heads == old(heads)[start := Header(start, next, prev, length, EMPTY_BODY)]
      ensures dirty == old(dirty) + {start}
    {
      Put(start, Header(start, next, prev, length, EMPTY_BODY));
    }

    /** Halves the partition at `sector`, in one batch. */
    method Halve(sector: int, ghost i: nat)
      requires Valid() && 0 < i < |chain| - 1 && sector == chain[i].start && chain[i].length >= 2 * unit
      modifies this
      ensures Valid() && chain == Halved(old(chain), i) && log == old(log) + [Commit(disk, chain)]
    {
      ghost var d := Halved(chain, i);
      HalveFacts(i);
      hide *;
      var header := Get(sector);
      PutHalves(header);
      assert dirty == HalvedDirty(header);
      HalvedWritesFacts(header, chain, d);
      FlushHalves(d);
    }

    /** The three headers that change when a partition is halved. */
    method PutHalves(header: Header)
      requires Agrees() && header.next in heads
      modifies this`heads, this`dirty
      ensures Agrees() && heads == HalvedTable(old(heads), header)
      ensures dirty == old(dirty) + HalvedDirty(header)
    {
      hide Agrees;
      var next := Get(header.next);
      var half := header.length / 2;
      var empty := header.start + half;
      RemovePartition(empty, header.next, header.start, half);
      Put(header.start, header.(length := half, next := empty));
      Put(header.next, next.(prev := empty));
    }

    method FlushHalves(ghost d: Chain)
      requires Agrees() && Recorded() && |dirty| <= LOG_SLOTS
      requires Holds(heads, d) && Sound(d) && Bounded(d, unit, end) && OnStarts(d, dirty) && NewStarts(chain, d, dirty)
      modifies this
      ensures Valid() && chain == d && log == old(log) + [Commit(disk, d)]
    {
      hide Holds, Bounded, OnStarts, NewStarts, Recorded;
      FlushAllDirty(d);
    }

    lemma HalveFacts(i: nat)
      requires Valid() && 0 < i < |chain| - 1 && chain[i].length >= 2 * unit
      ensures Agrees() && Recorded() && dirty == {} && Sound(Halved(chain, i)) && Bounded(Halved(chain, i), unit, end)
      ensures chain[i].start in heads && heads[chain[i].start] == HeaderOf(chain, i) && chain[i + 1].start in heads
      ensures HeaderOf(chain, i).next == chain[i + 1].start
      ensures Holds(HalvedTable(heads, HeaderOf(chain, i)), Halved(chain, i))
      ensures HalvedWrites(HeaderOf(chain, i), chain, Halved(chain, i))
    {
      hide Recording, Holds, Halved, IsStart, Bounded, Sound, HalvedTable, HalvedWrites;
      InBounds();
      HalvedSound(chain, i);
      HalvedBatch(chain, i, unit, end);
      HalvedTableHolds(heads, chain, i);
    }

    /** Halves the partition at `sector` until it has the given size. */
    method SplitTo(sector: int, size: int, ghost i: nat)
      requires Valid() && 0 < i < |chain| - 1 && sector == chain[i].start && !chain[i].Used()
      requires Pow2(size) && unit <= size <= chain[i].length
      modifies this
      ensures Valid() && chain == Carved(old(chain), i, size)
      ensures old(log) <= log && GoodCommits(log, |old(log)|, old(chain), sector)
    {
      hide Recorded, IsStart, NewStarts, Bounded;
      ghost var c, log0 := chain, log;
      assert HoldsAt(heads, c, i);
      var h := Get(sector);
      while h.length != size
        invariant Splitting(c, i, size, log0) && h == HeaderOf(chain, i)
        decreases h.length
      {
        h := SplitOnce(sector, size, i, c, log0);
      }
    }

    /** Partition i of chain c is on its way to the given size. */
    ghost predicate Splitting(c: Chain, i: nat, size: int, log0: seq<Commit>)
      reads this
    {
      && Valid() && i < |c| && 0 < i < |chain| - 1 && !chain[i].Used() && chain[i].start == c[i].start
      && Pow2(size) && unit <= size <= chain[i].length
      && Carved(chain, i, size) == Carved(c, i, size) && SameUsed(c, chain, c[i].start)
      && log0 <= log && GoodCommits(log, |log0|, c, c[i].start)
    }

    method SplitOnce(sector: int, size: int, ghost i: nat, ghost c: Chain, ghost log0: seq<Commit>) returns (h: Header)
      requires Splitting(c, i, size, log0) && sector == chain[i].start && chain[i].length != size
      modifies this
      ensures Splitting(c, i, size, log0) && sector == chain[i].start
      ensures h == HeaderOf(chain, i) && h.length < old(chain)[i].length
    {
      hide Recorded, IsStart, NewStarts, Bounded;
      HalfBelow(size, chain[i].length) by {
        assert Aligned(chain[i]);
      }
      HalvedUsed(chain, i);
      HalvedParts(chain, i);
      SameUsedTrans(c, chain, Halved(chain, i), sector);
      Halve(sector, i);
      assert HoldsAt(heads, chain, i);
      h := Get(sector);
    }

    /** A new header over the place of the old one. */
    method FillHeader(params: Params, start: int, next: int, prev: int, length: int)
      requires Agrees()
      modifies this`heads, this`dirty
      ensures Agrees() && heads == old(heads)[start := Header(start, next, prev, length, BodyOf(params))]
      ensures dirty == old(dirty) + {start}
    {
      var body := Body(params.ptype, params.flags, params.id, 0, 0, 0, []);
      if params.flags % 2 == 1 {
        body := body.(main := params.main, number := params.number);
      }
      Put(start, Header(start, next, prev, length, body));
    }

    /** Puts a new partition at the bottom of a free one. */
    method InsertPartition(params: Params, sector: int, ghost i: nat)
      requires Valid() && 0 < i < |chain| - 1 && sector == chain[i].start && !chain[i].Used()
      requires Pow2(params.size) && unit <= params.size <= chain[i].length
      modifies this
      ensures Valid() && chain == Inserted(old(chain), i, params.size, BodyOf(params))
      ensures old(log) <= log && GoodCommits(log, |old(log)|, old(chain), sector)
    {
      hide Recorded, IsStart, NewStarts, Bounded;
      ghost var c := chain;
      CarvedFacts(c, i, params.size);
      InsertedFacts(c, i, params.size, BodyOf(params));
      SplitTo(sector, params.size, i);
      ghost var d := chain;
      assert HoldsAt(heads, d, i);
      var h := Get(sector);
      RebodiedHolds(disk, d, i, BodyOf(params), disk[sector := h.(body := BodyOf(params))]);
      FillHeader(params, h.start, h.next, h.prev, params.size);
      InBounds();
      RebodiedBatch(d, i, BodyOf(params), unit, end, dirty);
      FlushAllDirty(Rebodied(d, i, BodyOf(params)));
    }
  }
}
