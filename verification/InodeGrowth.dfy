/** Growing a file: extents taken from the zone allocator, listed under the inode and its
    indirect descriptors, and the totals the inode keeps of them. */
module InodeGrowth {
  import opened ZoneBitmap
  import opened InodeSync

  const ENOMEM := -12

  // ----- extents -----

  ghost predicate Apart(e: Extent, f: Extent)
  {
    e.sub != f.sub || e.number + e.count <= f.number || f.number + f.count <= e.number
  }

  /** The zones of e are on the disk and taken. */
  ghost predicate Lies(sizes: seq<int>, m: seq<seq<Word>>, e: Extent)
    requires |m| == |sizes|
  {
    && 0 <= e.sub < |sizes| && 0 <= e.number && 1 <= e.count <= USHRT_MAX
    && e.number + e.count <= sizes[e.sub] && AllUsed(Flat(m[e.sub]), e.number, e.count)
  }

  /** Zones n to n + k - 1 of partition s were free in m0 and are taken in m; no others changed. */
  ghost predicate Gained(sizes: seq<int>, m0: seq<seq<Word>>, m: seq<seq<Word>>, s: int, n: int, k: int)
    requires |m0| == |sizes|
  {
    && |m| == |m0| && 0 <= s < |sizes| && 0 <= k && 0 <= n && (k > 0 ==> n + k <= sizes[s] && Run(Flat(m0[s]), n, k))
    && Others(m0, m, s)
    && Flat(m[s]) == Marked(Flat(m0[s]), n, k, true)
  }

  lemma StillLies(sizes: seq<int>, m0: seq<seq<Word>>, m: seq<seq<Word>>, s: int, n: int, k: int, e: Extent)
    requires |m0| == |sizes| && Gained(sizes, m0, m, s, n, k) && Lies(sizes, m0, e)
    ensures Lies(sizes, m, e)
  {
  }

  /** What was free is no part of what was taken. */
  lemma GainedApart(sizes: seq<int>, m0: seq<seq<Word>>, m: seq<seq<Word>>, s: int, n: int, k: int, e: Extent)
    requires |m0| == |sizes| && Gained(sizes, m0, m, s, n, k) && Lies(sizes, m0, e) && k > 0
    ensures Apart(e, Extent(n, s, k))
  {
    if e.sub == s {
      RunsApart(Flat(m0[s]), n, k, e.number, e.count, if e.number < n then n else e.number);
    }
  }

  /** No zone is both free and taken. */
  lemma RunsApart(v: seq<bool>, n: int, k: int, q: int, c: int, z: int)
    requires Run(v, n, k) && AllUsed(v, q, c)
    ensures !(n <= z < n + k && q <= z < q + c)
  {
    var used := 0 <= z < |v| && v[z];
  }

  lemma GainedLies(sizes: seq<int>, m0: seq<seq<Word>>, m: seq<seq<Word>>, s: int, n: int, k: int)
    requires |m0| == |sizes| && Gained(sizes, m0, m, s, n, k) && 0 < k <= USHRT_MAX
    ensures Lies(sizes, m, Extent(n, s, k))
  {
  }

  /** The extents lie on the disk and do not overlap. */
  ghost predicate Owned(sizes: seq<int>, m: seq<seq<Word>>, data: seq<Extent>)
    requires |m| == |sizes|
  {
    && (forall k :: 0 <= k < |data| ==> Lies(sizes, m, data[k]))
    && forall j, k :: 0 <= j < k < |data| ==> Apart(data[j], data[k])
  }

  /** A new extent joins the others. */
  lemma OwnedSnoc(sizes: seq<int>, m0: seq<seq<Word>>, m: seq<seq<Word>>, data: seq<Extent>, e: Extent)
    requires |m0| == |sizes| && Owned(sizes, m0, data)
    requires Gained(sizes, m0, m, e.sub, e.number, e.count) && 0 < e.count <= USHRT_MAX
    ensures Owned(sizes, m, data + [e])
  {
    GainedLies(sizes, m0, m, e.sub, e.number, e.count);
    forall k | 0 <= k < |data| ensures Lies(sizes, m, data[k]) && Apart(data[k], e) {
      StillLies(sizes, m0, m, e.sub, e.number, e.count, data[k]);
      GainedApart(sizes, m0, m, e.sub, e.number, e.count, data[k]);
    }
  }

  /** The last extent grows by zones right behind it. */
  lemma OwnedGrow(sizes: seq<int>, m0: seq<seq<Word>>, m: seq<seq<Word>>, data: seq<Extent>, k: int)
    requires |m0| == |sizes| && Owned(sizes, m0, data) && data != [] && k >= 0
    requires
      var e := data[|data| - 1];
      Gained(sizes, m0, m, e.sub, e.number + e.count, k) && e.count + k <= USHRT_MAX
    ensures
      var n := |data| - 1;
      Owned(sizes, m, data[n := data[n].(count := data[n].count + k)])
  {
    var n := |data| - 1;
    var e := data[n];
    forall j | 0 <= j < n
      ensures Lies(sizes, m, data[j]) && Apart(data[j], e.(count := e.count + k))
    {
      StillLies(sizes, m0, m, e.sub, e.number + e.count, k, data[j]);
      if k > 0 {
        GainedApart(sizes, m0, m, e.sub, e.number + e.count, k, data[j]);
      }
    }
    GrownLies(sizes, m0, m, e, k);
  }

  lemma GrownLies(sizes: seq<int>, m0: seq<seq<Word>>, m: seq<seq<Word>>, e: Extent, k: int)
    requires |m0| == |sizes| && Lies(sizes, m0, e) && Gained(sizes, m0, m, e.sub, e.number + e.count, k)
    requires k >= 0 && e.count + k <= USHRT_MAX
    ensures Lies(sizes, m, e.(count := e.count + k))
  {
  }

  // ----- totals -----

  function Total(data: seq<Extent>): int
  {
    if data == [] then 0 else Total(data[..|data| - 1]) + data[|data| - 1].count
  }

  lemma {:induction false} TotalPositive(sizes: seq<int>, m: seq<seq<Word>>, data: seq<Extent>)
    requires |m| == |sizes| && Owned(sizes, m, data)
    ensures Total(data) >= |data|
  {
    if data != [] {
      var n := |data| - 1;
      assert Lies(sizes, m, data[n]);
      forall k | 0 <= k < n ensures Lies(sizes, m, data[..n][k]) {
        assert Lies(sizes, m, data[k]);
      }
      forall j, k | 0 <= j < k < n ensures Apart(data[..n][j], data[..n][k]) {
        assert Apart(data[j], data[k]);
      }
      TotalPositive(sizes, m, data[..n]);
    }
  }

  lemma TotalSnoc(data: seq<Extent>, e: Extent)
    ensures Total(data + [e]) == Total(data) + e.count
  {
    assert (data + [e])[..|data|] == data;
  }

  lemma TotalGrow(data: seq<Extent>, k: int)
    requires data != []
    ensures Total(data[|data| - 1 := data[|data| - 1].(count := data[|data| - 1].count + k)]) == Total(data) + k
  {
    var n := |data| - 1;
    assert data[n := data[n].(count := data[n].count + k)][..n] == data[..n];
  }

  /** The descriptors among the first n segments: the inode and the indirect ones. */
  function Heads(n: int): (h: int)
    ensures n > 0 ==> h > 0
  {
    if n <= 0 then 0 else if n <= DIRECT then 1 else (n - DIRECT - 1) / INDIRECT + 2
  }

  /** The segment that is descriptor d. */
  function HeadOf(d: int): int
  {
    if d <= 0 then 0 else DIRECT + INDIRECT * (d - 1)
  }

  lemma HeadsStep(n: int)
    requires n >= 0
    ensures Heads(n + 1) == Heads(n) + if FixIndex(n) == 0 then 1 else 0
    ensures FixIndex(n) == 0 <==> n == 0 || (n >= 114 && (n - 114) % 123 == 0)
    ensures FixIndex(n) == 0 ==> HeadOf(Heads(n)) == n
    ensures FixIndex(n) == 0 ==> FixIndex(n + 1) != 0
    ensures n > 0 ==> 0 <= HeadOf(Heads(n) - 1) < n
  {
  }

  /** The zones at worst needed to add v data zones behind n segments: every one of them an
      extent of its own, and a descriptor wherever one is due. */
  function Need(n: int, v: int): (r: int)
    requires n >= 0
    ensures v >= 0 ==> r >= v
    decreases v
  {
    if v <= 0 then 0 else if FixIndex(n) == 0 then 2 + Need(n + 2, v - 1) else 1 + Need(n + 1, v - 1)
  }

  /** The worst that can be needed covers a descriptor, an extent of one zone, and the rest. */
  lemma NeedNext(n: int, v: int)
    requires n >= 0 && v >= 1
    ensures FixIndex(n) == 0 ==> FixIndex(n + 1) != 0 && Need(n, v) == 2 + Need(n + 2, v - 1)
    ensures FixIndex(n) != 0 ==> Need(n, v) == 1 + Need(n + 1, v - 1)
    ensures Need(n, v) >= v
  {
    HeadsStep(n);
  }

  lemma {:induction false} NeedLess(n: int, v: int, k: int)
    requires n >= 0 && 0 <= k <= v
    ensures Need(n, v - k) + k <= Need(n, v)
    decreases v
  {
    if k > 0 {
      if k < v {
        NeedLess(if FixIndex(n) == 0 then n + 2 else n + 1, v - 1, k);
      }
    }
  }

  // ----- the inode -----

  /** The extents with k zones more in the last one. */
  function Grown(data: seq<Extent>, k: int): seq<Extent>
    requires data != []
  {
    data[|data| - 1 := data[|data| - 1].(count := data[|data| - 1].count + k)]
  }

  /** The totals and links of an inode are those of its extents. */
  ghost predicate Tallied(data: seq<Extent>, blocks: int, segdesg: int, last: Extent, next: seq<Extent>)
  {
    && data != [] && blocks == Total(data) && segdesg == Heads(|data|)
    && 0 <= HeadOf(segdesg - 1) < |data| && last == data[HeadOf(segdesg - 1)]
    && (forall k :: 0 <= k < |data| && FixIndex(k) == 0 ==> data[k].count == 1)
    && |next| == segdesg - 1 && forall d :: 0 <= d < |next| ==> NextAt(data, next, d)
  }

  ghost predicate NextAt(data: seq<Extent>, next: seq<Extent>, d: int)
    requires 0 <= d < |next|
  {
    0 <= HeadOf(d + 1) < |data| && next[d] == data[HeadOf(d + 1)]
  }

  lemma TallyFacts(data: seq<Extent>, blocks: int, segdesg: int, last: Extent, next: seq<Extent>)
    requires Tallied(data, blocks, segdesg, last, next)
    ensures data != [] && Grown(data, 0) == data
  {
  }

  lemma HeadIndex(d: int)
    requires d >= 0
    ensures FixIndex(HeadOf(d)) == 0
  {
  }

  /** Growing a data extent keeps the tally. */
  lemma TallyGrow(data: seq<Extent>, blocks: int, segdesg: int, last: Extent, next: seq<Extent>, k: int)
    requires Tallied(data, blocks, segdesg, last, next) && FixIndex(|data| - 1) != 0
    ensures Tallied(Grown(data, k), blocks + k, segdesg, last, next)
  {
    TotalGrow(data, k);
    HeadIndex(segdesg - 1);
    var grown := Grown(data, k);
    forall d | 0 <= d < |next| ensures NextAt(grown, next, d) {
      assert NextAt(data, next, d);
      HeadIndex(d + 1);
    }
  }

  /** Appending an extent, at a descriptor's place or elsewhere. */
  lemma TallySnoc(data: seq<Extent>, blocks: int, segdesg: int, last: Extent, next: seq<Extent>, e: Extent)
    requires Tallied(data, blocks, segdesg, last, next)
    ensures FixIndex(|data|) != 0 ==> Tallied(data + [e], blocks + e.count, segdesg, last, next)
    ensures FixIndex(|data|) == 0 && e.count == 1 ==> Tallied(data + [e], blocks + 1, segdesg + 1, e, next + [e])
  {
    TotalSnoc(data, e);
    HeadsStep(|data|);
    var longer := data + [e];
    forall d | 0 <= d < |next| ensures NextAt(longer, next, d) && NextAt(longer, next + [e], d) {
      assert NextAt(data, next, d);
    }
  }

  /** d starts with c, whose last extent may have grown. */
  ghost predicate Extends(c: seq<Extent>, d: seq<Extent>)
  {
    && 0 < |c| <= |d| && (forall k :: 0 <= k < |c| - 1 ==> d[k] == c[k])
    && d[|c| - 1].number == c[|c| - 1].number && d[|c| - 1].sub == c[|c| - 1].sub
    && d[|c| - 1].count >= c[|c| - 1].count
  }

  lemma ExtendsSelf(c: seq<Extent>)
    requires c != []
    ensures Extends(c, c)
  {
  }

  lemma ExtendsSnoc(c: seq<Extent>, d: seq<Extent>, e: Extent)
    requires Extends(c, d)
    ensures Extends(c, d + [e])
  {
  }

  lemma ExtendsGrow(c: seq<Extent>, d: seq<Extent>, k: int)
    requires Extends(c, d) && k >= 0
    ensures d != [] && Extends(c, Grown(d, k))
  {
  }

  lemma ExtendsTrans(c: seq<Extent>, d: seq<Extent>, e: seq<Extent>)
    requires Extends(c, d) && Extends(d, e)
    ensures Extends(c, e)
  {
  }

  lemma CeilNonneg(msize: int, zsize: int)
    requires zsize > 0 && msize >= 0
    ensures Ceil(msize, zsize) >= 0
  {
  }

  /** Just enough zones: one fewer would be too few. */
  lemma CeilLeast(msize: int, zsize: int)
    requires zsize > 0 && msize >= 0
    ensures Bytes(zsize, Ceil(msize, zsize), 0) >= msize > Bytes(zsize, Ceil(msize, zsize) - 1, 0)
  {
    var c := Ceil(msize, zsize);
    var r := (msize + zsize - 1) % zsize;
    assert msize + zsize - 1 == c * zsize + r;
    assert (c - 1) * zsize == c * zsize - zsize;
  }

  lemma NoNeed(n: int)
    requires n >= 0
    ensures Need(n, 0) == 0
  {
  }

  lemma NeedCovers(n: int, v: int)
    requires n >= 0 && v >= 0
    ensures Need(n, v) >= v
  {
  }

  lemma TookGained(sizes: seq<int>, m0: seq<seq<Word>>, m: seq<seq<Word>>, e: Extent)
    requires |m0| == |m| == |sizes| && 0 <= e.sub < |sizes| && Others(m0, m, e.sub)
    requires 1 <= e.count && 0 <= e.number && e.number + e.count <= sizes[e.sub]
    requires Run(Flat(m0[e.sub]), e.number, e.count)
    requires Flat(m[e.sub]) == Marked(Flat(m0[e.sub]), e.number, e.count, true)
    ensures Gained(sizes, m0, m, e.sub, e.number, e.count)
  {
  }

  /** The least zones that c zones of msize bytes fit in. */
  function Ceil(msize: int, zsize: int): int
    requires zsize > 0
  {
    (msize + zsize - 1) / zsize
  }

  lemma OwnedLast(sizes: seq<int>, m: seq<seq<Word>>, data: seq<Extent>)
    requires |m| == |sizes| && Owned(sizes, m, data) && data != []
    ensures
      var e := data[|data| - 1];
      0 <= e.sub < |sizes| && 0 <= e.number && 1 <= e.count <= USHRT_MAX
  {
    assert Lies(sizes, m, data[|data| - 1]);
  }

  lemma ExpandGained(sizes: seq<int>, m0: seq<seq<Word>>, m: seq<seq<Word>>, e: Extent, request: int, k: int)
    requires |m0| == |m| == |sizes| && 0 <= e.sub < |sizes| && 0 <= e.number && 0 <= e.count && Others(m0, m, e.sub)
    requires Longest(Flat(m0[e.sub]), sizes[e.sub], e.number + e.count, Room(e, request), k)
    requires Flat(m[e.sub]) == Marked(Flat(m0[e.sub]), e.number + e.count, k, true)
    ensures Gained(sizes, m0, m, e.sub, e.number + e.count, k) && 0 <= k <= request && e.count + k <= USHRT_MAX
  {
  }

  // ----- what growing does -----

  /** The extents of a file, the bitmaps, and how many zones the file has. */
  datatype Space = Space(data: seq<Extent>, words: seq<seq<Word>>, blocks: int)

  /** The last extent takes all the zones right behind it that are free in a row, up to the request and what its
      count can say; a descriptor's own zone takes none. */
  ghost predicate Grows(sizes: seq<int>, s: Space, t: Space, request: int, k: int)
  {
    && s.data != [] && |s.words| == |sizes| && t.data == Grown(s.data, k) && t.blocks == s.blocks + k
    && var e := s.data[|s.data| - 1];
       if FixIndex(|s.data| - 1) == 0 then k == 0 && t.words == s.words
       else
         && 0 <= e.sub < |sizes|
         && Longest(Flat(s.words[e.sub]), sizes[e.sub], e.number + e.count, Room(e, request), k)
         && Gained(sizes, s.words, t.words, e.sub, e.number + e.count, k)
  }

  /** A new extent is listed: what a search from the end of the last one comes upon. */
  ghost predicate Adds(sizes: seq<int>, s: Space, t: Space, blocks: int, e: Extent, visits: int)
  {
    && s.data != [] && |s.words| == |sizes| && t.data == s.data + [e] && t.blocks == s.blocks + e.count
    && var last := s.data[|s.data| - 1];
       && Found(s.words, sizes, Extent(last.number + last.count, last.sub, blocks), s.blocks, e, visits)
       && Gained(sizes, s.words, t.words, e.sub, e.number, e.count)
  }

  ghost predicate AddsOne(sizes: seq<int>, s: Space, t: Space, blocks: int)
  {
    exists e, visits :: Adds(sizes, s, t, blocks, e, visits)
  }

  /** A descriptor where one is due, an extent, and its growth by what is still wanted. */
  ghost predicate Segment(sizes: seq<int>, s: Space, a: Space, b: Space, t: Space, blocks: int, added: int)
  {
    && blocks >= 1 && (if FixIndex(|s.data|) == 0 then AddsOne(sizes, s, a, 1) else a == s)
    && AddsOne(sizes, a, b, blocks) && b.data != []
    && var n := b.data[|b.data| - 1].count;
       if n == blocks then t == b && added == n else Grows(sizes, b, t, blocks - n, added - n)
  }

  ghost predicate SegmentOf(sizes: seq<int>, s: Space, t: Space, blocks: int, added: int)
  {
    exists a, b :: Segment(sizes, s, a, b, t, blocks, added)
  }

  /** Of the zones wanted so many were added, in n segments, each for all that was wanting. */
  ghost predicate Filled(sizes: seq<int>, s: Space, t: Space, wanted: int, added: int, n: nat)
    decreases n, 1
  {
    if n == 0 then t == s && added == 0
    else exists mid, more :: FilledLast(sizes, s, mid, t, wanted, added, more, n)
  }

  ghost predicate FilledLast(sizes: seq<int>, s: Space, mid: Space, t: Space, wanted: int, added: int, more: int,
                             n: nat)
    requires n > 0
    decreases n, 0
  {
    Filled(sizes, s, mid, wanted, added - more, n - 1) && SegmentOf(sizes, mid, t, wanted - (added - more), more)
  }

  lemma FilledMore(sizes: seq<int>, s: Space, mid: Space, t: Space, wanted: int, added: int, more: int, n: nat)
    requires Filled(sizes, s, mid, wanted, added, n) && SegmentOf(sizes, mid, t, wanted - added, more)
    ensures Filled(sizes, s, t, wanted, added + more, n + 1)
  {
    assert FilledLast(sizes, s, mid, t, wanted, added + more, more, n + 1);
  }

  lemma AddsKeeps(sizes: seq<int>, s: Space, t: Space, blocks: int)
    requires AddsOne(sizes, s, t, blocks) && blocks >= 1
    ensures |t.data| == |s.data| + 1 && t.data[..|s.data|] == s.data && 1 <= t.data[|s.data|].count <= blocks
  {
    var e, visits :| Adds(sizes, s, t, blocks, e, visits);
    var last := s.data[|s.data| - 1];
    FoundCount(s.words, sizes, Extent(last.number + last.count, last.sub, blocks), s.blocks, e, visits);
  }

  lemma SegmentKeeps(sizes: seq<int>, s: Space, t: Space, blocks: int, added: int)
    requires SegmentOf(sizes, s, t, blocks, added)
    ensures |t.data| > |s.data| && t.data[..|s.data|] == s.data && added >= 1
  {
    hide AddsOne, Gained, Flat, Run, FixIndex;
    var a, b :| Segment(sizes, s, a, b, t, blocks, added);
    if FixIndex(|s.data|) == 0 {
      AddsKeeps(sizes, s, a, 1);
    }
    AddsKeeps(sizes, a, b, blocks);
    assert t.data[..|a.data|] == b.data[..|a.data|];
    assert t.data[..|s.data|] == t.data[..|a.data|][..|s.data|];
  }

  /** Extents are only added when zones are wanting, and those that were there stay. */
  lemma {:induction false} FilledKeeps(sizes: seq<int>, s: Space, t: Space, wanted: int, added: int, n: nat)
    requires Filled(sizes, s, t, wanted, added, n) && added <= wanted
    ensures |t.data| >= |s.data| + n && t.data[..|s.data|] == s.data && added >= n
    ensures wanted == 0 ==> t == s
    decreases n
  {
    if n > 0 {
      hide SegmentOf;
      var mid, more :| FilledLast(sizes, s, mid, t, wanted, added, more, n);
      SegmentKeeps(sizes, mid, t, wanted - (added - more), more);
      FilledKeeps(sizes, s, mid, wanted, added - more, n - 1);
      assert mid.data[..|s.data|] == t.data[..|mid.data|][..|s.data|];
    }
  }

  lemma NothingFilled(sizes: seq<int>, s: Space, wanted: int)
    ensures Filled(sizes, s, s, wanted, 0, 0)
  {
  }

  /** An inode with its descriptors.  Segment k of the file is data[k]; it is listed in
      descriptor DescOf(k), and those with FixIndex(k) = 0 are the descriptors' own zones. */
  class Inode {
    var data: seq<Extent>
    var numberBlocks: int
    var numberData: int
    var numberSegdesg: int
    var lastSegment: Extent          // the zone of the last descriptor
    var next: seq<Extent>            // where each descriptor says the next one is
    var size: int
    const zones: ZoneMap
    const zsize: int

    constructor (data: seq<Extent>, next: seq<Extent>, size: int, zones: ZoneMap, zsize: int)
      requires zones.Valid() && |zones.words| == |zones.sizes| && Owned(zones.sizes, zones.words, data)
      requires |data| >= 1 && zsize > 0 && 0 <= HeadOf(Heads(|data|) - 1) < |data| && |next| == Heads(|data|) - 1
      requires forall k :: 0 <= k < |data| && FixIndex(k) == 0 ==> data[k].count == 1
      requires forall d :: 0 <= d < |next| ==> 0 <= HeadOf(d + 1) < |data| && next[d] == data[HeadOf(d + 1)]
      ensures Valid() && this.data == data && this.size == size && this.zones == zones && this.zsize == zsize
    {
      this.data, this.next, this.size, this.zones, this.zsize := data, next, size, zones, zsize;
      numberData, numberBlocks, numberSegdesg := |data|, Total(data), Heads(|data|);
      lastSegment := data[HeadOf(Heads(|data|) - 1)];
    }

    ghost predicate Valid()
      reads this, zones
    {
      && zones.Valid() && |zones.words| == |zones.sizes| && Owned(zones.sizes, zones.words, data)
      && numberData == |data| && zsize > 0 && Tallied(data, numberBlocks, numberSegdesg, lastSegment, next)
    }

    lemma Shape()
      requires Valid()
      ensures data != [] && numberData == |data| && zsize > 0 && Extends(data, data)
    {
      hide Owned, Total, Heads, HeadOf, ZoneMap.Valid;
    }

    ghost function Now(): Space
      reads this, zones
    {
      Space(data, zones.words, numberBlocks)
    }

    /** Takes zones behind the last extent; a descriptor's own zone does not grow. */
    method ExpandSegment(segment: int, count: int) returns (ret: int)
      requires Valid() && segment == numberData - 1 && count >= 0
      modifies this, zones
      ensures Valid() && 0 <= ret <= count && zones.zfree == old(zones.zfree) - ret
      ensures numberData == old(numberData) && numberBlocks == old(numberBlocks) + ret
      ensures numberSegdesg == old(numberSegdesg) && size == old(size)
      ensures data == Grown(old(data), ret) && Grows(zones.sizes, old(Now()), Now(), count, ret)
    {
      hide Owned, Total, Longest, Run, Flat, Marked, Heads, HeadOf, FixIndex, Gained;
      TallyFacts(data, numberBlocks, numberSegdesg, lastSegment, next);
      ghost var m0, data0 := zones.words, data;
      if FixIndex(segment) == 0 {
        return 0;
      }
      var bi := data[segment];
      OwnedLast(zones.sizes, m0, data);
      ret := zones.AllocateAdditionalZones(bi, count);
      ExpandGained(zones.sizes, m0, zones.words, bi, count, ret);
      OwnedGrow(zones.sizes, m0, zones.words, data, ret);
      TallyGrow(data, numberBlocks, numberSegdesg, lastSegment, next, ret);
      if ret != 0 {
        data := data[segment := bi.(count := bi.count + ret)];
        numberBlocks := numberBlocks + ret;
      }
    }

    /** Takes zones near the end of the file and lists them as a new extent. */
    method AddExtent(segment: int, blocks: int) returns (bi: Extent)
      requires Valid() && segment == numberData - 1 && 1 <= blocks <= USHRT_MAX && zones.zfree > 0
      requires FixIndex(numberData) == 0 ==> blocks == 1
      modifies this, zones
      ensures Valid() && 1 <= bi.count <= blocks && zones.zfree == old(zones.zfree) - bi.count
      ensures numberData == old(numberData) + 1 && data == old(data) + [bi] && size == old(size)
      ensures numberBlocks == old(numberBlocks) + bi.count
      ensures numberSegdesg == old(numberSegdesg) + if FixIndex(old(numberData)) == 0 then 1 else 0
      ensures AddsOne(zones.sizes, old(Now()), Now(), blocks)
    {
      hide Owned, Total, Run, Flat, Marked, Heads, HeadOf, FixIndex, Found, Gained;
      ghost var was := Now();
      TallyFacts(data, numberBlocks, numberSegdesg, lastSegment, next);
      ghost var m0 := zones.words;
      OwnedLast(zones.sizes, m0, data);
      TotalPositive(zones.sizes, m0, data);
      var bi2 := data[segment];
      bi := Extent(bi2.number + bi2.count, bi2.sub, blocks);
      var result;
      ghost var visits;
      result, bi, visits := zones.SearchFreeZone(bi, numberBlocks);
      TookGained(zones.sizes, m0, zones.words, bi);
      OwnedSnoc(zones.sizes, m0, zones.words, data, bi);
      TallySnoc(data, numberBlocks, numberSegdesg, lastSegment, next, bi);
      if FixIndex(numberData) == 0 {
        lastSegment := bi;
        next := next + [bi];
        numberSegdesg := numberSegdesg + 1;
      }
      numberBlocks := numberBlocks + bi.count;
      numberData := numberData + 1;
      data := data + [bi];
      assert Adds(zones.sizes, was, Now(), blocks, bi, visits);
    }

    /** A new descriptor, when the next segment must be one. */
    method AddDescriptorIfDue(segment0: int) returns (segment: int)
      requires Valid() && segment0 == numberData - 1 && (FixIndex(numberData) == 0 ==> zones.zfree > 0)
      modifies this, zones
      ensures Valid() && segment == numberData - 1 && size == old(size) && Extends(old(data), data)
      ensures FixIndex(numberData) != 0
      ensures numberData == old(numberData) + if FixIndex(old(numberData)) == 0 then 1 else 0
      ensures zones.zfree == old(zones.zfree) - if FixIndex(old(numberData)) == 0 then 1 else 0
      ensures numberBlocks - numberSegdesg == old(numberBlocks) - old(numberSegdesg)
      ensures if FixIndex(old(numberData)) == 0 then AddsOne(zones.sizes, old(Now()), Now(), 1) else Now() == old(Now())
    {
      TallyFacts(data, numberBlocks, numberSegdesg, lastSegment, next);
      HeadsStep(numberData);
      ExtendsSelf(data);
      hide Valid, FixIndex, Extends, AddsOne;
      segment := segment0;
      if FixIndex(numberData) == 0 {
        ghost var data0 := data;
        var bi := AddExtent(segment, 1);
        segment := segment + 1;
        ExtendsSnoc(data0, data0, bi);
      }
    }

    /** An extent of up to `blocks` zones, grown as far as it goes. */
    method AddAndGrow(segment0: int, blocks: int) returns (added: int, segment: int, ghost mid: Space)
      requires Valid() && segment0 == numberData - 1 && 1 <= blocks <= USHRT_MAX && zones.zfree > 0
      requires FixIndex(numberData) != 0
      modifies this, zones
      ensures Valid() && segment == numberData - 1 && size == old(size) && Extends(old(data), data)
      ensures 1 <= added <= blocks && zones.zfree == old(zones.zfree) - added && numberData == old(numberData) + 1
      ensures numberBlocks == old(numberBlocks) + added && numberSegdesg == old(numberSegdesg)
      ensures AddsOne(zones.sizes, old(Now()), mid, blocks) && mid.data != []
      ensures
        var n := mid.data[|mid.data| - 1].count;
        if n == blocks then Now() == mid && added == n else Grows(zones.sizes, mid, Now(), blocks - n, added - n)
    {
      hide Valid, ZoneMap.Valid, FixIndex, Extends, Grown, AddsOne, Grows;
      Shape();
      ghost var data0 := data;
      var bi := AddExtent(segment0, blocks);
      mid := Now();
      segment, added := segment0 + 1, bi.count;
      ExtendsSnoc(data0, data0, bi);
      if blocks - bi.count != 0 {
        ghost var data1 := data;
        var more := ExpandSegment(segment, blocks - bi.count);
        ExtendsGrow(data0, data1, more);
        added := added + more;
      }
    }

    /** Adds an extent of up to `blocks` zones, behind a new descriptor when one is due, and
        lets it grow. */
    method AllocNewSegment(segment0: int, blocks: int, cacheFull: bool) returns (result: int, segment: int)
      requires Valid() && segment0 == numberData - 1 && 1 <= blocks <= USHRT_MAX
      requires zones.zfree >= Need(numberData, blocks)
      modifies this, zones
      ensures Valid() && segment == numberData - 1 >= 0 && size == old(size) && Extends(old(data), data)
      ensures cacheFull ==>
        result == ENOMEM && data == old(data) && zones.words == old(zones.words) && zones.zfree == old(zones.zfree)
      ensures !cacheFull ==> 1 <= result <= blocks && zones.zfree >= Need(numberData, blocks - result)
      ensures numberBlocks - numberSegdesg == old(numberBlocks) - old(numberSegdesg) + if cacheFull then 0 else result
      ensures if cacheFull then Now() == old(Now()) else SegmentOf(zones.sizes, old(Now()), Now(), blocks, result)
    {
      hide Valid, ZoneMap.Valid, Need, Extends, SegmentOf;
      if cacheFull {
        Shape();
        return ENOMEM, segment0;
      }
      result, segment := NewSegment(segment0, blocks);
    }

    method NewSegment(segment0: int, blocks: int) returns (result: int, segment: int)
      requires Valid() && segment0 == numberData - 1 && 1 <= blocks <= USHRT_MAX
      requires zones.zfree >= Need(numberData, blocks)
      modifies this, zones
      ensures Valid() && segment == numberData - 1 >= 0 && size == old(size) && Extends(old(data), data)
      ensures 1 <= result <= blocks && zones.zfree >= Need(numberData, blocks - result)
      ensures numberBlocks - numberSegdesg == old(numberBlocks) - old(numberSegdesg) + result
      ensures SegmentOf(zones.sizes, old(Now()), Now(), blocks, result)
    {
      hide Tallied, Owned, Need, Extends, FixIndex, ZoneMap.Valid, AddsOne, Grows;
      ghost var was := Now();
      assert numberData >= 0;
      NeedNext(numberData, blocks);
      ghost var data0 := data;
      segment := AddDescriptorIfDue(segment0);
      ghost var data1, first := data, Now();
      ghost var mid;
      result, segment, mid := AddAndGrow(segment, blocks);
      assert Segment(zones.sizes, was, first, mid, Now(), blocks, result);
      ExtendsTrans(data0, data1, data);
      NeedLess(numberData, blocks - 1, result - 1);
    }

    /** The data zones listed cover the file and msize bytes more. */
    predicate Enough(msize: int)
      reads this
    {
      (numberBlocks - numberSegdesg) * zsize >= size + msize
    }

    /** Makes room for msize more bytes, unless mode 0 finds there is enough; the buffer cache
        has room for `room` new segments. */
    method AllocZones(msize: int, mode: int, room: int)
      returns (result: int, ghost mid: Space, ghost more: int, ghost added: int, ghost n: nat)
      requires Valid() && msize >= 0 && room >= 0
      requires Ceil(msize, zsize) <= USHRT_MAX && zones.zfree >= Need(numberData, Ceil(msize, zsize))
      modifies this, zones
      ensures Valid() && size == old(size) && Extends(old(data), data)
      ensures mode == 0 && old(Enough(msize)) ==> result == 0 && data == old(data) && zones.words == old(zones.words)
      ensures mode != 0 || !old(Enough(msize)) ==> result == 0 || result == ENOMEM
      ensures (mode != 0 || !old(Enough(msize))) && result == 0 ==>
        numberBlocks - numberSegdesg == old(numberBlocks) - old(numberSegdesg) + Ceil(msize, zsize)
      ensures result == ENOMEM ==>
        numberBlocks - numberSegdesg < old(numberBlocks) - old(numberSegdesg) + Ceil(msize, zsize)
      ensures mode != 0 || !old(Enough(msize)) ==>
        && Grows(zones.sizes, old(Now()), mid, Ceil(msize, zsize), more)
        && Filled(zones.sizes, mid, Now(), Ceil(msize, zsize) - more, added, n)
        && Ended(result, Ceil(msize, zsize) - more, added, n, room)
    {
      hide Valid, ZoneMap.Valid, Enough, Ceil, Need, Extends, Grows, Filled, Ended;
      Shape();
      CeilNonneg(msize, zsize);
      if mode == 0 && Enough(msize) {
        result, mid, more, added, n := 0, Now(), 0, 0, 0;
        return;
      }
      result, mid, more, added, n := AllocAll(Ceil(msize, zsize), room);
    }

    /** All that was wanting has been added, or there was room for no more segments. */
    ghost predicate Ended(result: int, wanted: int, added: int, n: nat, room: int)
    {
      if result == 0 then added == wanted && n <= room else added < wanted && n == room
    }

    method AllocAll(val0: int, room: int)
      returns (result: int, ghost mid: Space, ghost more: int, ghost added: int, ghost n: nat)
      requires Valid() && 0 <= val0 <= USHRT_MAX && room >= 0 && zones.zfree >= Need(numberData, val0)
      modifies this, zones
      ensures Valid() && size == old(size) && Extends(old(data), data) && (result == 0 || result == ENOMEM)
      ensures result == 0 ==> numberBlocks - numberSegdesg == old(numberBlocks) - old(numberSegdesg) + val0
      ensures result == ENOMEM ==> numberBlocks - numberSegdesg < old(numberBlocks) - old(numberSegdesg) + val0
      ensures Grows(zones.sizes, old(Now()), mid, val0, more) && Ended(result, val0 - more, added, n, room)
      ensures Filled(zones.sizes, mid, Now(), val0 - more, added, n)
    {
      hide Growing, Valid, Extends, Need, Grows, Filled, SegmentOf;
      ghost var data0, before := data, numberBlocks - numberSegdesg;
      var segment, grown := ExpandLast(val0);
      mid, more, added, n := Now(), grown, 0, 0;
      NothingFilled(zones.sizes, mid, val0 - more);
      var val, left := val0 - grown, room;
      result := 0;
      while val != 0 && result >= 0
        invariant Growing(data0, before + val0 - val, segment, if result == 0 then val else 0) && left >= 0 &&
          size == old(size)
        invariant 0 <= val <= val0 && (result == 0 || (result == ENOMEM && val > 0 && left == 0))
        invariant left == room - n && added == val0 - more - val &&
          Filled(zones.sizes, mid, Now(), val0 - more, added, n)
        decreases val, result >= 0
      {
        ghost var was := Now();
        result, segment := GrowOnce(segment, val, left == 0, data0, before + val0 - val);
        if result >= 0 {
          FilledMore(zones.sizes, mid, was, Now(), val0 - more, added, result, n);
          added, n := added + result, n + 1;
          val, left, result := val - result, left - 1, 0;
        }
      }
      GrowthEnds(data0, before + val0 - val, segment, if result == 0 then val else 0);
    }

    /** First the last extent grows, as far as it goes. */
    method ExpandLast(val: int) returns (segment: int, more: int)
      requires Valid() && 0 <= val && zones.zfree >= Need(numberData, val)
      modifies this, zones
      ensures 0 <= more <= val && size == old(size)
      ensures Growing(old(data), old(numberBlocks) - old(numberSegdesg) + more, segment, val - more)
      ensures Grows(zones.sizes, old(Now()), Now(), val, more)
    {
      TallyFacts(data, numberBlocks, numberSegdesg, lastSegment, next);
      ExtendsSelf(data);
      hide Tallied, Owned, FixIndex, Extends, Need, Grown, ZoneMap.Valid, Grows;
      ghost var data0 := data;
      segment := numberData - 1;
      more := ExpandSegment(segment, val);
      ExtendsGrow(data0, data0, more);
      NeedLess(numberData, val, more);
    }

    /** The file has so many data zones, and the disk what v more can need. */
    ghost predicate Growing(data0: seq<Extent>, total: int, segment: int, v: int)
      reads this, zones
    {
      && Valid() && segment == numberData - 1 && Extends(data0, data)
      && numberBlocks - numberSegdesg == total && zones.zfree >= Need(numberData, v)
    }

    lemma GrowthEnds(data0: seq<Extent>, total: int, segment: int, v: int)
      requires Growing(data0, total, segment, v)
      ensures Valid() && Extends(data0, data) && numberBlocks - numberSegdesg == total
    {
    }

    method GrowOnce(segment0: int, val: int, cacheFull: bool, ghost data0: seq<Extent>, ghost total: int)
      returns (result: int, segment: int)
      requires Growing(data0, total, segment0, val) && 1 <= val <= USHRT_MAX
      modifies this, zones
      ensures size == old(size)
      ensures if cacheFull then result == ENOMEM && Growing(data0, total, segment, 0)
        else 1 <= result <= val && Growing(data0, total + result, segment, val - result)
      ensures if cacheFull then Now() == old(Now()) else SegmentOf(zones.sizes, old(Now()), Now(), val, result)
    {
      hide Valid, ZoneMap.Valid, Extends, Need, SegmentOf;
      Shape();
      ghost var data1 := data;
      NeedCovers(numberData, val);
      result, segment := AllocNewSegment(segment0, val, cacheFull);
      ExtendsTrans(data0, data1, data);
      Shape();
      NoNeed(numberData);
    }
  }
}
