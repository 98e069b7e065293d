/** hdck's sweep over the chain: one pass that merges every free partition downwards
    leaves nothing to merge, and no aligned extent that could be a larger free partition. */
module Coalesce {
  import opened Powers
  import opened ApaChain
  import opened ApaTable

  /** Partitions i and i + 1 are free and could be one. */
  predicate Buddies(c: Chain, i: nat)
    requires i + 1 < |c|
  {
    !c[i].Used() && !c[i + 1].Used() && Fits(c[i].start, c[i + 1].End() - c[i].start)
  }

  /** No buddies among the first n partitions. */
  ghost predicate Settled(c: Chain, n: nat)
  {
    forall i :: 0 <= i && i + 1 < n && i + 1 < |c| ==> !Buddies(c, i)
  }

  /** The sweep, from partition i on. */
  function Swept(c: Chain, i: nat): Chain
    requires Sound(c) && 0 < i <= |c|
    decreases |c| - i
  {
    if i == |c| then c
    else if c[i].Used() then Swept(c, i + 1)
    else
      DownSound(c, i);
      Swept(Down(c, i), DownIndex(c, i) + 1)
  }

  lemma DownSettles(c: Chain, i: nat)
    requires Sound(c) && 0 < i < |c| - 1 && !c[i].Used() && Settled(c, i)
    ensures Settled(Down(c, i), DownIndex(c, i) + 1)
  {
    hide MergeDown;
    var j := DownIndex(c, i);
    var d := Down(c, i);
    DownSound(c, i);
    MergeDownFacts(c, i, c[i].End());
    if j < i {
      JoinedParts(c, j, i, c[j].body);
    }
    forall k | 0 <= k && k + 1 < j + 1 && k + 1 < |d| ensures !Buddies(d, k) {
      if k + 1 < j {
        assert !Buddies(c, k);
      }
    }
  }

  /** The sweep keeps every used partition, and leaves no buddies anywhere. */
  lemma {:induction false} SweptSettled(c: Chain, i: nat)
    requires Sound(c) && 0 < i <= |c| && Settled(c, i)
    ensures Sound(Swept(c, i)) && SameUsed(c, Swept(c, i), -1)
    ensures Settled(Swept(c, i), |Swept(c, i)|)
    decreases |c| - i
  {
    if i < |c| {
      if c[i].Used() {
        SweptSettled(c, i + 1);
      } else {
        DownSound(c, i);
        DownUsed(c, i, -1);
        DownSettles(c, i);
        SweptSettled(Down(c, i), DownIndex(c, i) + 1);
        SameUsedTrans(c, Down(c, i), Swept(c, i), -1);
      }
    }
  }

  // ----- nothing larger is free -----

  /** Partition p and the extent of the given length share a sector. */
  predicate Overlaps(p: Part, start: int, length: int)
  {
    p.start < start + length && start < p.End()
  }

  /** Every partition that shares a sector with the extent is free. */
  ghost predicate AllFree(c: Chain, start: int, length: int)
  {
    forall i :: 0 <= i < |c| && Overlaps(c[i], start, length) ==> !c[i].Used()
  }

  lemma {:induction false} Locate(c: Chain, s: int, n: nat) returns (i: nat)
    requires Tiled(c) && 0 < n <= |c| && 0 <= s < c[n - 1].End()
    ensures i < n && c[i].start <= s < c[i].End()
  {
    i := n - 1;
    if s < c[i].start {
      assert c[i - 1].End() == c[i].start;
      i := Locate(c, s, n - 1);
    }
  }

  /** Half of a free extent of which a smaller partition is part is itself one partition. */
  lemma HalfTiled(c: Chain, e: int, m: int, h: int) returns (i: nat)
    requires Sound(c) && Settled(c, |c|) && Pow2(m) && m > 1 && e % m == 0 && 0 <= e
    requires h == e || h == e + m / 2
    requires e + m <= c[|c| - 1].End() && AllFree(c, e, m)
    requires exists j :: 0 <= j < |c| && Overlaps(c[j], e, m) && c[j].length < m
    ensures i < |c| && c[i].start == h && c[i].length == m / 2
    decreases m, 0
  {
    var j :| 0 <= j < |c| && Overlaps(c[j], e, m) && c[j].length < m;
    HalfAligned(e, m);
    i := Locate(c, h, |c|);
    assert Aligned(c[i]) && Aligned(c[j]);
    if c[i].length >= m {
      Dyadic(e, m, c[i].start, c[i].length);
      Apart(c, i, j);
      assert false;
    }
    HalfBelow(c[i].length, m);
    Dyadic(c[i].start, c[i].length, h, m / 2);
    if c[i].length < m / 2 {
      assert AllFree(c, h, m / 2);
      NothingLarger(c, h, m / 2, i);
    }
  }

  lemma HalfAligned(e: int, m: int)
    requires Pow2(m) && m > 1 && e % m == 0
    ensures Pow2(m / 2) && m == 2 * (m / 2) && e % (m / 2) == 0 && (e + m / 2) % (m / 2) == 0
  {
    Multiple(m / 2, 2);
    ModSplit(e, m / 2, m);
    Multiple(m / 2, 1);
    ModSum(e, m / 2, m / 2);
  }

  /** With no buddies left, an aligned power-of-two extent that properly contains a free
      partition is not entirely free. */
  lemma {:induction false} NothingLarger(c: Chain, e: int, m: int, i: nat)
    requires Sound(c) && Settled(c, |c|) && Pow2(m) && e % m == 0 && 0 <= e
    requires i < |c| && e <= c[i].start && c[i].End() <= e + m && c[i].length < m
    ensures !AllFree(c, e, m)
    decreases m, 1
  {
    if AllFree(c, e, m) {
      assert Aligned(c[i]);
      InsideChain(c, e, m, i);
      assert Overlaps(c[i], e, m);
      HalfAligned(e, m);
      var a := HalfTiled(c, e, m, e);
      var b := HalfTiled(c, e, m, e + m / 2);
      NextTo(c, a, b);
      NoHalves(c, e, m, a);
    }
  }

  /** A free extent ends before the last partition does. */
  lemma InsideChain(c: Chain, e: int, m: int, i: nat)
    requires Sound(c) && i < |c| && e <= c[i].start < e + m && AllFree(c, e, m)
    ensures e + m <= c[|c| - 1].End()
  {
    var n := |c| - 1;
    assert Aligned(c[n]);
    if i < n {
      Apart(c, i, n);
    }
    assert !Overlaps(c[n], e, m);
  }

  lemma NoHalves(c: Chain, e: int, m: int, a: nat)
    requires Settled(c, |c|) && a + 1 < |c| && Pow2(m) && e % m == 0
    requires c[a].start == e && c[a + 1].End() == e + m
    requires 0 < c[a].length < m && 0 < c[a + 1].length < m && c[a].End() == c[a + 1].start
    ensures !AllFree(c, e, m)
  {
    assert !Buddies(c, a);
    assert Overlaps(c[a], e, m) && Overlaps(c[a + 1], e, m);
  }

  lemma NextTo(c: Chain, a: nat, b: nat)
    requires Tiled(c) && a < |c| && b < |c| && c[a].End() == c[b].start && c[a].length > 0
    ensures b == a + 1
  {
    if a + 1 < |c| {
      assert c[a].End() == c[a + 1].start && Aligned(c[a + 1]);
    }
    if b < a {
      Apart(c, b, a);
    } else if b > a + 1 {
      Apart(c, a + 1, b);
    }
  }

  /** Deleting what is free leaves every free partition as large as it can be, and every used
      one where it is. */
  lemma FullyCoalesced(c: Chain, e: int, m: int, i: nat)
    requires Sound(c)
    requires Pow2(m) && e % m == 0 && 0 <= e
    requires
      var d := Swept(c, 1);
      i < |d| && e <= d[i].start && d[i].End() <= e + m && d[i].length < m
    ensures SameUsed(c, Swept(c, 1), -1)
    ensures exists j :: 0 <= j < |Swept(c, 1)| && Overlaps(Swept(c, 1)[j], e, m) && Swept(c, 1)[j].Used()
  {
    SweptSettled(c, 1);
    NothingLarger(Swept(c, 1), e, m, i);
  }

  // ----- what one deletion leaves -----

  /** No buddies but perhaps partition j and a neighbour. */
  ghost predicate SettledBut(c: Chain, j: nat)
  {
    forall k :: 0 <= k && k + 1 < |c| && k != j && k + 1 != j ==> !Buddies(c, k)
  }

  lemma JoinedSettledBut(c: Chain, j: nat, m: nat, i: nat, body: Body)
    requires j <= m <= i < |c| && SettledBut(c, m)
    ensures SettledBut(Joined(c, j, i, body), j)
  {
    var d := Joined(c, j, i, body);
    JoinedParts(c, j, i, body);
    forall k | 0 <= k && k + 1 < |d| && k != j && k + 1 != j ensures !Buddies(d, k) {
      assert !Buddies(c, if k < j then k else k + (i - j));
    }
  }

  lemma DownSettledBut(c: Chain, i: nat)
    requires Sound(c) && 0 < i < |c| - 1 && SettledBut(c, i)
    ensures SettledBut(Down(c, i), DownIndex(c, i))
  {
    hide SettledBut, Joined, MergeDown;
    var j := DownIndex(c, i);
    if j < i {
      JoinedSettledBut(c, j, i, i, c[j].body);
    }
  }

  lemma UpSettledBut(c: Chain, i: nat)
    requires Sound(c) && 0 < i < |c| - 1 && SettledBut(c, i)
    ensures i < |Up(c, i)| - 1 && SettledBut(Up(c, i), i) && !BuddyAbove(Up(c, i), i)
  {
    hide SettledBut, Joined, MergeUp, Fits, Sound;
    var k := MergeUp(c, i, i + 1);
    UpSound(c, i);
    MergeUpFacts(c, i, i + 1);
    if k > i + 1 {
      JoinedSettledBut(c, i, i, k - 1, EMPTY_BODY);
      JoinedParts(c, i, k - 1, EMPTY_BODY);
    }
  }

  lemma MergedSettledBut(c: Chain, i: nat)
    requires Sound(c) && 0 < i < |c| - 1 && SettledBut(c, i)
    ensures SettledBut(Merged(c, i).0, Merged(c, i).1) && !BuddyAbove(Merged(c, i).0, Merged(c, i).1)
  {
    hide SettledBut, Up, Down, BuddyAbove;
    RoundSettledBut(c, i);
    RoundSettledBut(Round(c, i), DownIndex(c, i));
  }

  lemma RoundSettledBut(c: Chain, i: nat)
    requires Sound(c) && 0 < i < |c| - 1 && SettledBut(c, i)
    ensures Sound(Round(c, i)) && 0 < DownIndex(c, i) < |Round(c, i)| - 1
    ensures SettledBut(Round(c, i), DownIndex(c, i)) && !BuddyAbove(Round(c, i), DownIndex(c, i))
  {
    hide SettledBut, Up, Down, BuddyAbove, Sound;
    RoundSound(c, i);
    DownSound(c, i);
    DownSettledBut(c, i);
    UpSettledBut(Down(c, i), DownIndex(c, i));
  }

  /** d is c but that partitions j to m are one. */
  ghost predicate OneBlock(c: Chain, d: Chain, j: nat, m: nat)
  {
    && j <= m < |c| && |d| == |c| - (m - j) && d[j].start == c[j].start && d[j].End() == c[m].End()
    && (forall k {:trigger d[k]} :: 0 <= k < j ==> d[k] == c[k])
    && forall k {:trigger d[k]} :: j < k < |d| ==> d[k] == c[k + (m - j)]
  }

  lemma {:induction false} BlockUp(c: Chain, d: Chain, j: nat, m: nat, k: nat)
    requires OneBlock(c, d, j, m) && j < k <= |d|
    ensures MergeUp(d, j, k) + (m - j) == MergeUp(c, j, k + (m - j))
    decreases |d| - k
  {
    hide Fits;
    if k < |d| && !d[k].Used() && Fits(d[j].start, d[k].End() - d[j].start) {
      BlockUp(c, d, j, m, k + 1);
    }
  }

  lemma {:induction false} BlockDown(c: Chain, d: Chain, j: nat, m: nat, l: nat, end: int)
    requires OneBlock(c, d, j, m) && l <= j
    ensures MergeDown(d, l, end) == MergeDown(c, l, end)
  {
    hide Fits;
    if 0 < l && !d[l - 1].Used() && Fits(d[l - 1].start, end - d[l - 1].start) {
      BlockDown(c, d, j, m, l - 1, end);
    }
  }

  lemma JoinBlock(c: Chain, d: Chain, j: nat, m: nat, l: nat, n: nat, body: Body)
    requires OneBlock(c, d, j, m) && l <= j <= n < |d|
    ensures OneBlock(c, Joined(d, l, n, body), l, n + (m - j))
  {
    JoinedParts(d, l, n, body);
  }

  /** How far the two rounds of a deletion reach, read off the chain before it: the first
      partition merged, and the first one above that is not. */
  function Reached(c: Chain, i: nat): (r: (nat, nat))
    requires Sound(c) && 0 < i < |c| - 1
  {
    var j := MergeDown(c, i, c[i].End());
    var k := MergeUp(c, j, i + 1);
    var l := MergeDown(c, j, c[k - 1].End());
    (l, MergeUp(c, l, k))
  }

  lemma BlockFacts(c: Chain, d: Chain, j: nat, m: nat)
    requires OneBlock(c, d, j, m)
    ensures j <= m < |c| && |d| == |c| - (m - j) && d[j].End() == c[m].End()
  {
  }

  lemma DownBlock(c: Chain, d: Chain, j: nat, m: nat)
    requires OneBlock(c, d, j, m)
    ensures DownIndex(d, j) == MergeDown(c, j, c[m].End()) && OneBlock(c, Down(d, j), DownIndex(d, j), m)
  {
    hide MergeDown, Joined, OneBlock;
    BlockFacts(c, d, j, m);
    BlockDown(c, d, j, m, j, d[j].End());
    var l := DownIndex(d, j);
    if l < j {
      JoinBlock(c, d, j, m, l, j, d[l].body);
    }
  }

  lemma UpBlock(c: Chain, d: Chain, j: nat, m: nat)
    requires OneBlock(c, d, j, m) && j < |d|
    ensures OneBlock(c, Up(d, j), j, MergeUp(c, j, m + 1) - 1)
  {
    hide MergeUp, Joined, OneBlock;
    BlockFacts(c, d, j, m);
    BlockUp(c, d, j, m, j + 1);
    var k := MergeUp(d, j, j + 1);
    if k > j + 1 {
      JoinBlock(c, d, j, m, j, k - 1, EMPTY_BODY);
    }
  }

  lemma RoundBlock(c: Chain, d: Chain, j: nat, m: nat)
    requires Sound(d) && 0 < j < |d| - 1 && OneBlock(c, d, j, m)
    ensures
      var l := MergeDown(c, j, c[m].End());
      DownIndex(d, j) == l && OneBlock(c, Round(d, j), l, MergeUp(c, l, m + 1) - 1)
  {
    hide MergeDown, MergeUp, Sound, Down, Up, DownIndex, OneBlock;
    BlockFacts(c, d, j, m);
    DownSound(d, j);
    DownBlock(c, d, j, m);
    UpBlock(c, Down(d, j), DownIndex(d, j), m);
  }

  lemma MergedBlock(c: Chain, i: nat)
    requires Sound(c) && 0 < i < |c| - 1
    ensures 0 < Reached(c, i).0 < Reached(c, i).1 <= |c|
    ensures Merged(c, i).1 == Reached(c, i).0 && OneBlock(c, Merged(c, i).0, Reached(c, i).0, Reached(c, i).1 - 1)
  {
    hide Fits, MergeDown, MergeUp, Round;
    RoundSound(c, i);
    RoundBlock(c, c, i, i);
    var j := DownIndex(c, i);
    RoundSound(Round(c, i), j);
    RoundBlock(c, Round(c, i), j, MergeUp(c, j, i + 1) - 1);
  }

  /** The two rounds of a deletion keep a coalesced chain coalesced exactly when the partition
      below what they merge is in use, or with it they would not fit. */
  lemma DeleteSettlesExactlyWhen(c: Chain, i: nat)
    requires Sound(c) && Settled(c, |c|) && 0 < i < |c| - 1
    ensures 0 < Reached(c, i).0 < Reached(c, i).1 <= |c|
    ensures
      var (j, k) := Reached(c, i);
      Settled(Deleted(c, i), |Deleted(c, i)|) <==>
        c[j - 1].Used() || !Fits(c[j - 1].start, c[k - 1].End() - c[j - 1].start)
  {
    hide *;
    SettledSettledBut(c, i);
    MergedSettledBut(c, i);
    MergedUsed(c, i);
    MergedBlock(c, i);
    BlockFacts(c, Merged(c, i).0, Reached(c, i).0, Reached(c, i).1 - 1);
    MergedDropped(c, i);
    DroppedSettled(c, i, Merged(c, i).0, Merged(c, i).1);
    BlockBelow(c, Merged(c, i).0, Reached(c, i).0, Reached(c, i).1 - 1);
  }

  lemma SettledSettledBut(c: Chain, i: nat)
    requires Settled(c, |c|)
    ensures SettledBut(c, i)
  {
    hide Buddies;
  }

  lemma MergedDropped(c: Chain, i: nat)
    requires Sound(c) && 0 < i < |c| - 1
    ensures 0 < Merged(c, i).1 < |Merged(c, i).0| - 1
    ensures Deleted(c, i) == Dropped(c, i, Merged(c, i).0, Merged(c, i).1)
  {
    hide Merged, Dropped, Sound;
  }

  lemma BlockBelow(c: Chain, d: Chain, j: nat, m: nat)
    requires OneBlock(c, d, j, m) && j > 0
    ensures j <= m < |c| && j < |d|
    ensures BuddyBelow(d, j) <==> !c[j - 1].Used() && Fits(c[j - 1].start, c[m].End() - c[j - 1].start)
  {
    hide Fits;
    assert d[j - 1] == c[j - 1];
  }

  lemma DroppedSettled(c: Chain, i: nat, d: Chain, j: nat)
    requires i < |c| && 0 < j < |d| - 1 && Grown(c[i], d[j]) && SettledBut(d, j) && !BuddyAbove(d, j)
    ensures |Dropped(c, i, d, j)| == |d| && (Settled(Dropped(c, i, d, j), |d|) <==> !BuddyBelow(d, j))
  {
    hide Fits;
    var e := Dropped(c, i, d, j);
    assert !e[j].Used() && e[j].start == d[j].start && e[j].End() == d[j].End();
    assert Buddies(e, j - 1) <==> BuddyBelow(d, j);
    assert !Buddies(e, j);
    forall k | 0 <= k && k + 1 < |e| && k != j && k + 1 != j ensures !Buddies(e, k) {
      assert !Buddies(d, k);
    }
  }

  /** Deleting the last partition always keeps a coalesced chain coalesced. */
  lemma LastSettles(c: Chain)
    requires Sound(c) && Settled(c, |c|) && |c| > 1
    ensures Settled(Deleted(c, |c| - 1), |Deleted(c, |c| - 1)|)
  {
    var d := Deleted(c, |c| - 1);
    forall k | 0 <= k && k + 1 < |d| ensures !Buddies(d, k) {
      assert !Buddies(c, k);
    }
  }

  function Free(start: int, length: int): Part
  {
    Part(start, length, EMPTY_BODY)
  }

  /** A coalesced chain whose partition 4 has free ones to merge with below, above, below, above
      and below again. */
  function Zigzag(body: Body): Chain
  {
    [Part(0, 32, body), Free(32, 16), Free(48, 4), Free(52, 1), Part(53, 1, body), Free(54, 2), Free(56, 8),
      Part(64, 64, body)]
  }

  function ZigzagHalfway(body: Body): Chain
  {
    [Part(0, 32, body), Free(32, 16), Free(48, 4), Free(52, 4), Free(56, 8), Part(64, 64, body)]
  }

  function ZigzagAfter(body: Body): Chain
  {
    [Part(0, 32, body), Free(32, 16), Free(48, 16), Part(64, 64, body)]
  }

  lemma ZigzagSizes()
    ensures Fits(0, 32) && Fits(32, 16) && Fits(48, 4) && Fits(52, 1) && Fits(53, 1) && Fits(54, 2) && Fits(56, 8)
    ensures Fits(64, 64)
    ensures Fits(52, 2) && Fits(52, 4) && Fits(48, 8) && Fits(48, 16) && Fits(32, 32)
    ensures !Fits(48, 6) && !Fits(52, 12) && !Fits(32, 24) && !Fits(32, 20) && !Fits(48, 5) && !Fits(54, 10)
  {
    assert Pow2(4) && Pow2(8) && Pow2(16) && Pow2(32) && Pow2(64);
    assert !Pow2(3) && !Pow2(5);
    assert !Pow2(6) && !Pow2(10);
    assert !Pow2(12) && !Pow2(20);
  }

  lemma OneBelow(c: Chain, i: nat)
    requires 1 < i < |c| && BuddyBelow(c, i)
    requires c[i - 2].Used() || !Fits(c[i - 2].start, c[i].End() - c[i - 2].start)
    ensures DownIndex(c, i) == i - 1 && Down(c, i) == Joined(c, i - 1, i, c[i - 1].body)
  {
    hide Fits, Joined;
    assert MergeDown(c, i - 1, c[i].End()) == i - 1;
  }

  lemma OneAbove(c: Chain, i: nat)
    requires 0 <= i < |c| - 2 && BuddyAbove(c, i)
    requires c[i + 2].Used() || !Fits(c[i].start, c[i + 2].End() - c[i].start)
    ensures Up(c, i) == Joined(c, i, i + 1, EMPTY_BODY)
  {
    hide Fits, Joined;
    assert MergeUp(c, i, i + 2) == i + 2;
  }

  /** A round that takes in one partition below and one above. */
  lemma OneEachWay(c: Chain, i: nat)
    requires Sound(c) && 1 < i < |c| - 2 && BuddyBelow(c, i)
    requires !c[i + 1].Used() && Fits(c[i - 1].start, c[i + 1].End() - c[i - 1].start)
    requires c[i - 2].Used() || !Fits(c[i - 2].start, c[i].End() - c[i - 2].start)
    requires c[i + 2].Used() || !Fits(c[i - 1].start, c[i + 2].End() - c[i - 1].start)
    ensures DownIndex(c, i) == i - 1
    ensures Round(c, i) == c[..i - 1] + [Free(c[i - 1].start, c[i + 1].End() - c[i - 1].start)] + c[i + 2..]
  {
    hide Fits, DownIndex, Down, Up, Sound, MergeDown, MergeUp;
    OneBelow(c, i);
    var d := Joined(c, i - 1, i, c[i - 1].body);
    JoinedParts(c, i - 1, i, c[i - 1].body);
    assert d[i - 1].start == c[i - 1].start && d[i] == c[i + 1] && d[i + 1] == c[i + 2];
    OneAbove(d, i - 1);
  }

  lemma ZigzagParts(body: Body)
    ensures EMPTY_BODY.ptype == 0
    ensures
      var c := Zigzag(body);
      && |c| == 8 && c[0] == Part(0, 32, body) && c[1] == Free(32, 16) && c[2] == Free(48, 4) && c[3] == Free(52, 1)
      && c[4] == Part(53, 1, body) && c[5] == Free(54, 2) && c[6] == Free(56, 8) && c[7] == Part(64, 64, body)
    ensures
      var d := ZigzagHalfway(body);
      && |d| == 6 && d[0] == Part(0, 32, body) && d[1] == Free(32, 16) && d[2] == Free(48, 4) && d[3] == Free(52, 4)
      && d[4] == Free(56, 8) && d[5] == Part(64, 64, body)
  {
  }

  lemma ZigzagSound(body: Body)
    requires body.ptype != 0
    ensures Sound(Zigzag(body)) && Settled(Zigzag(body), 8) && Sound(ZigzagHalfway(body))
  {
    hide Fits, Zigzag, ZigzagHalfway, EMPTY_BODY;
    ZigzagParts(body);
    ZigzagSizes();
    var c, d := Zigzag(body), ZigzagHalfway(body);
    forall i | 0 <= i < |c| ensures Aligned(c[i]) {
    }
    forall i | 0 <= i < |d| ensures Aligned(d[i]) {
    }
  }

  lemma ZigzagRounds(body: Body)
    requires body.ptype != 0 && Sound(Zigzag(body)) && Sound(ZigzagHalfway(body))
    ensures DownIndex(Zigzag(body), 4) == 3 && Round(Zigzag(body), 4) == ZigzagHalfway(body)
    ensures DownIndex(ZigzagHalfway(body), 3) == 2 && Round(ZigzagHalfway(body), 3) == ZigzagAfter(body)
  {
    hide Fits, Round, DownIndex, Sound, Zigzag, ZigzagHalfway, EMPTY_BODY;
    var c, d := Zigzag(body), ZigzagHalfway(body);
    ZigzagParts(body);
    ZigzagSizes();
    assert c[..3] + [Free(52, 4)] + c[6..] == d;
    assert d[..2] + [Free(48, 16)] + d[5..] == ZigzagAfter(body);
    OneEachWay(c, 4);
    OneEachWay(d, 3);
  }

  /** Two rounds do four of the merges, and buddies are left. */
  lemma TwoRoundsMiss(body: Body)
    requires body.ptype != 0
    ensures Sound(Zigzag(body)) && Settled(Zigzag(body), 8)
    ensures Deleted(Zigzag(body), 4) == ZigzagAfter(body) && Buddies(ZigzagAfter(body), 1)
  {
    hide Fits, Round, DownIndex, Sound, Settled, Zigzag, ZigzagHalfway, EMPTY_BODY;
    ZigzagSizes();
    ZigzagSound(body);
    ZigzagRounds(body);
    ZigzagParts(body);
    assert Merged(Zigzag(body), 4) == (ZigzagAfter(body), 2);
  }

  /** One left-to-right pass over the chain. */
  method DeleteFreePartitions(table: PartitionTable)
    requires table.Valid()
    modifies table
    ensures table.Valid() && table.chain == Swept(old(table.chain), 1)
    ensures old(table.log) <= table.log && GoodCommits(table.log, |old(table.log)|, old(table.chain), -1)
  {
    ghost var c, log0 := table.chain, table.log;
    assert HoldsAt(table.heads, c, 0);
    var mbr := table.Get(0);
    var sector := mbr.next;
    ghost var i: nat := 1;
    if |c| > 1 {
      Apart(c, 0, 1);
    }
    while sector != 0
      invariant Sweeping(table, c, log0, i)
      invariant if i < |table.chain| then sector == table.chain[i].start && sector != 0 else sector == 0
      decreases |table.chain| - i
    {
      sector, i := SweepOne(table, sector, i, c, log0);
    }
  }

  ghost predicate Sweeping(table: PartitionTable, c: Chain, log0: seq<Commit>, i: nat)
    reads table
  {
    && table.Valid() && Sound(c) && 0 < i <= |table.chain| && 0 < |c|
    && Swept(table.chain, i) == Swept(c, 1) && SameUsed(c, table.chain, -1)
    && log0 <= table.log && GoodCommits(table.log, |log0|, c, -1)
  }

  method SweepOne(table: PartitionTable, sector: int, ghost i: nat, ghost c: Chain, ghost log0: seq<Commit>)
    returns (next: int, ghost j: nat)
    requires Sweeping(table, c, log0, i) && i < |table.chain| && sector == table.chain[i].start
    modifies table
    ensures Sweeping(table, c, log0, j) && |table.chain| - j < |old(table.chain)| - i
    ensures if j < |table.chain| then next == table.chain[j].start && next != 0 else next == 0
  {
    hide SameUsed, Fits, MergeDown, Down, MergeUp, Up, PartitionTable.Recorded;
    ghost var d := table.chain;
    assert HoldsAt(table.heads, d, i);
    var header := table.Get(sector);
    var at := sector;
    ghost var k := i;
    if header.body.ptype == 0 {
      k := DownIndex(d, i);
      DownSound(d, i);
      DownUsed(d, i, -1);
      DownStart(d, i);
      SameUsedTrans(c, d, Down(d, i), -1);
      at := table.DeleteFixPrev(sector, i);
    }
    assert HoldsAt(table.heads, table.chain, k);
    header := table.Get(at);
    next := header.next;
    j := k + 1;
    if j < |table.chain| {
      Apart(table.chain, 0, j);
    }
  }
}
