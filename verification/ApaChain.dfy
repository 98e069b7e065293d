/** The partition chain: a doubly linked list of power-of-two, size-aligned partitions that
    covers the disk from sector 0, with splitting, coalescing and the batches that record them. */
module ApaChain {
  import opened Powers

  // ----- headers and chains -----

  datatype Sub = Sub(start: int, length: int)

  /** Everything a header says that is not about its place in the chain. */
  datatype Body = Body(ptype: int, flags: int, id: string, main: int, number: int, nsub: int, subs: seq<Sub>)

  datatype Header = Header(start: int, next: int, prev: int, length: int, body: Body)

  /** What a new partition is to be. */
  datatype Params = Params(id: string, size: int, ptype: int, flags: int, main: int, number: int)

  /** Only a sub partition (flag bit 0) names its main. */
  function BodyOf(params: Params): Body
  {
    if params.flags % 2 == 1 then Body(params.ptype, params.flags, params.id, params.main, params.number, 0, [])
    else Body(params.ptype, params.flags, params.id, 0, 0, 0, [])
  }

  /** What memset and the name leave of a partition. */
  const EMPTY_BODY := Body(0, 0, "__empty", 0, 0, 0, [])

  datatype Part = Part(start: int, length: int, body: Body)
  {
    predicate Used()
    {
      body.ptype != 0
    }

    function End(): int
    {
      start + length
    }
  }

  type Chain = seq<Part>
  type Table = map<int, Header>

  /** The header partition i has when the links are right: next is 0 at the end and the first
      header's prev is the last partition. */
  function HeaderOf(c: Chain, i: int): Header
    requires 0 <= i < |c|
  {
    Header(c[i].start, if i + 1 < |c| then c[i + 1].start else 0,
      if i == 0 then c[|c| - 1].start else c[i - 1].start, c[i].length, c[i].body)
  }

  /** The table's links are those of the chain. */
  ghost predicate Holds(t: Table, c: Chain)
  {
    |c| > 0 && forall i :: 0 <= i < |c| ==> HoldsAt(t, c, i)
  }

  ghost predicate HoldsAt(t: Table, c: Chain, i: int)
    requires 0 <= i < |c|
  {
    c[i].start in t && t[c[i].start] == HeaderOf(c, i)
  }

  /** A block of that length may start there. */
  predicate Fits(start: int, length: int)
  {
    Pow2(length) && start % length == 0
  }

  predicate Aligned(p: Part)
  {
    Fits(p.start, p.length)
  }

  /** The disk from sector 0 on is covered without gaps, and the first partition is in use. */
  ghost predicate Tiled(c: Chain)
  {
    && |c| > 0 && c[0].start == 0 && c[0].Used()
    && (forall i :: 0 <= i < |c| ==> Aligned(c[i]))
    && (forall i :: 0 < i < |c| ==> c[i - 1].End() == c[i].start)
  }

  ghost predicate Sound(c: Chain)
  {
    Tiled(c) && c[|c| - 1].Used()
  }

  lemma {:induction false} Rising(c: Chain, i: nat, j: nat)
    requires Tiled(c) && i < j < |c|
    ensures c[i].End() <= c[j].start && c[i].start < c[j].start
    decreases j
  {
    if i < j - 1 {
      Rising(c, i, j - 1);
    }
    assert c[j - 1].End() == c[j].start && Aligned(c[j - 1]) && Aligned(c[i]);
  }

  /** Different partitions do not overlap. */
  lemma Apart(c: Chain, i: nat, j: nat)
    requires Tiled(c) && i < |c| && j < |c| && i != j
    ensures if i < j then c[i].End() <= c[j].start else c[j].End() <= c[i].start
    ensures c[i].start != c[j].start
  {
    Rising(c, if i < j then i else j, if i < j then j else i);
  }

  /** The used partitions but the one at `target` are the same. */
  ghost predicate SameUsed(c: Chain, d: Chain, target: int)
  {
    forall p: Part :: p.Used() && p.start != target ==> (p in c <==> p in d)
  }

  // ----- changes to a chain -----

  /** Partitions j to i become one that starts where j does. */
  function Joined(c: Chain, j: nat, i: nat, body: Body): Chain
    requires j <= i < |c|
  {
    c[..j] + [Part(c[j].start, c[i].End() - c[j].start, body)] + c[i + 1..]
  }

  function JoinedAt(c: Chain, j: nat, i: nat, body: Body, k: nat): Part
    requires j <= i < |c| && k < |c| - (i - j)
  {
    if k < j then c[k] else if k == j then Part(c[j].start, c[i].End() - c[j].start, body) else c[k + (i - j)]
  }

  lemma JoinedParts(c: Chain, j: nat, i: nat, body: Body)
    requires j <= i < |c|
    ensures |Joined(c, j, i, body)| == |c| - (i - j)
    ensures forall k :: 0 <= k < |c| - (i - j) ==> Joined(c, j, i, body)[k] == JoinedAt(c, j, i, body, k)
  {
  }

  lemma JoinedSound(c: Chain, j: nat, i: nat, body: Body)
    requires Sound(c) && 0 < j <= i < |c| - 1
    requires Fits(c[j].start, c[i].End() - c[j].start)
    ensures Sound(Joined(c, j, i, body))
  {
    var d := Joined(c, j, i, body);
    JoinedParts(c, j, i, body);
    forall k | 0 < k < |d| ensures d[k - 1].End() == d[k].start {
      if k <= j {
        assert c[k - 1].End() == c[k].start;
      } else {
        assert c[k - 1 + (i - j)].End() == c[k + (i - j)].start;
      }
    }
    forall k | 0 <= k < |d| ensures Aligned(d[k]) {
      if k != j {
        assert Aligned(c[if k < j then k else k + (i - j)]);
      }
    }
  }

  /** Joining free partitions, one of them possibly the target, keeps the others in use. */
  lemma JoinedUsed(c: Chain, j: nat, i: nat, body: Body, target: int)
    requires Tiled(c) && j <= i < |c|
    requires forall k :: j <= k <= i ==> !c[k].Used() || c[k].start == target
    requires body.ptype == 0 || c[j].start == target
    ensures SameUsed(c, Joined(c, j, i, body), target)
  {
    var d := Joined(c, j, i, body);
    JoinedParts(c, j, i, body);
    forall p: Part | p.Used() && p.start != target ensures p in c <==> p in d {
      if p in c {
        var k :| 0 <= k < |c| && c[k] == p;
        assert d[if k < j then k else k - (i - j)] == p;
      }
      if p in d {
        var k :| 0 <= k < |d| && d[k] == p;
        assert c[if k < j then k else k + (i - j)] == p;
      }
    }
  }

  /** The two header updates of a merge, in the joined chain's terms. */
  lemma JoinedHolds(t: Table, c: Chain, j: nat, i: nat, body: Body, u: Table)
    requires Sound(c) && 0 < j < i < |c| - 1 && Holds(t, c)
    requires u == t[c[j].start := Header(c[j].start, c[i].End(), c[j - 1].start, c[i].End() - c[j].start, body)]
      [c[i + 1].start := HeaderOf(c, i + 1).(prev := c[j].start)]
    ensures Holds(u, Joined(c, j, i, body))
  {
    JoinedParts(c, j, i, body);
    forall k | 0 <= k < |Joined(c, j, i, body)| ensures HoldsAt(u, Joined(c, j, i, body), k) {
      JoinedHoldsAt(t, c, j, i, body, u, k);
    }
  }

  lemma JoinedHoldsAt(t: Table, c: Chain, j: nat, i: nat, body: Body, u: Table, k: nat)
    requires Sound(c) && 0 < j < i < |c| - 1 && Holds(t, c)
    requires u == t[c[j].start := Header(c[j].start, c[i].End(), c[j - 1].start, c[i].End() - c[j].start, body)]
      [c[i + 1].start := HeaderOf(c, i + 1).(prev := c[j].start)]
    requires k < |Joined(c, j, i, body)|
    ensures HoldsAt(u, Joined(c, j, i, body), k)
  {
    JoinedParts(c, j, i, body);
    Apart(c, j, i + 1);
    assert c[i].End() == c[i + 1].start;
    if k != j && k != j + 1 {
      var m := if k < j then k else k + (i - j);
      assert HoldsAt(t, c, m);
      Apart(c, m, j);
      Apart(c, m, i + 1);
    }
  }

  /** Partition i becomes two halves, the upper one empty. */
  function Halved(c: Chain, i: nat): Chain
    requires i < |c|
  {
    c[..i] + [Part(c[i].start, c[i].length / 2, c[i].body),
      Part(c[i].start + c[i].length / 2, c[i].length / 2, EMPTY_BODY)] + c[i + 1..]
  }

  function HalvedAt(c: Chain, i: nat, k: nat): Part
    requires i < |c| && k <= |c|
  {
    if k < i then c[k]
    else if k == i then Part(c[i].start, c[i].length / 2, c[i].body)
    else if k == i + 1 then Part(c[i].start + c[i].length / 2, c[i].length / 2, EMPTY_BODY)
    else c[k - 1]
  }

  lemma HalvedParts(c: Chain, i: nat)
    requires i < |c|
    ensures |Halved(c, i)| == |c| + 1
    ensures forall k :: 0 <= k <= |c| ==> Halved(c, i)[k] == HalvedAt(c, i, k)
  {
  }

  lemma HalvedSound(c: Chain, i: nat)
    requires Sound(c) && 0 < i < |c| - 1 && c[i].length > 1
    ensures Sound(Halved(c, i))
  {
    var d := Halved(c, i);
    HalvedParts(c, i);
    assert Aligned(c[i]);
    var half := c[i].length / 2;
    assert c[i].length == 2 * half;
    Multiple(half, 2);
    ModSplit(c[i].start, half, c[i].length);
    Multiple(half, 1);
    ModSum(c[i].start, half, half);
    forall k | 0 < k < |d| ensures d[k - 1].End() == d[k].start {
      if k <= i {
        assert c[k - 1].End() == c[k].start;
      } else if k > i + 1 {
        assert c[k - 2].End() == c[k - 1].start;
      }
    }
    forall k | 0 <= k < |d| ensures Aligned(d[k]) {
      if k < i || k > i + 1 {
        assert Aligned(c[if k < i then k else k - 1]);
      }
    }
  }

  lemma HalvedUsed(c: Chain, i: nat)
    requires Tiled(c) && i < |c| && !c[i].Used()
    ensures SameUsed(c, Halved(c, i), c[i].start)
  {
    var d := Halved(c, i);
    HalvedParts(c, i);
    forall p: Part | p.Used() && p.start != c[i].start ensures p in c <==> p in d {
      if p in c {
        var k :| 0 <= k < |c| && c[k] == p;
        assert d[if k < i then k else k + 1] == p;
      }
      if p in d {
        var k :| 0 <= k < |d| && d[k] == p;
        assert c[if k < i then k else k - 1] == p;
      }
    }
  }

  lemma HalvedHolds(t: Table, c: Chain, i: nat, u: Table)
    requires Sound(c) && 0 < i < |c| - 1 && c[i].length > 1 && Holds(t, c)
    requires u == t
      [c[i].start + c[i].length / 2 :=
        Header(c[i].start + c[i].length / 2, c[i + 1].start, c[i].start, c[i].length / 2, EMPTY_BODY)]
      [c[i].start := HeaderOf(c, i).(length := c[i].length / 2, next := c[i].start + c[i].length / 2)]
      [c[i + 1].start := HeaderOf(c, i + 1).(prev := c[i].start + c[i].length / 2)]
    ensures Holds(u, Halved(c, i))
  {
    HalvedParts(c, i);
    forall k | 0 <= k < |Halved(c, i)| ensures HoldsAt(u, Halved(c, i), k) {
      HalvedHoldsAt(t, c, i, u, k);
    }
  }

  lemma HalvedHoldsAt(t: Table, c: Chain, i: nat, u: Table, k: nat)
    requires Sound(c) && 0 < i < |c| - 1 && c[i].length > 1 && Holds(t, c)
    requires u == t
      [c[i].start + c[i].length / 2 :=
        Header(c[i].start + c[i].length / 2, c[i + 1].start, c[i].start, c[i].length / 2, EMPTY_BODY)]
      [c[i].start := HeaderOf(c, i).(length := c[i].length / 2, next := c[i].start + c[i].length / 2)]
      [c[i + 1].start := HeaderOf(c, i + 1).(prev := c[i].start + c[i].length / 2)]
    requires k < |Halved(c, i)|
    ensures HoldsAt(u, Halved(c, i), k)
  {
    HalvedParts(c, i);
    assert Aligned(c[i]) && c[i].End() == c[i + 1].start;
    if k < i || k > i + 2 {
      var m := if k < i then k else k - 1;
      assert HoldsAt(t, c, m);
      Apart(c, m, i);
      Apart(c, m, i + 1);
    }
  }

  // ----- insertion -----

  /** Partition i halved until it has the given size. */
  function Carved(c: Chain, i: nat, size: int): Chain
    requires i < |c|
    decreases c[i].length
  {
    if c[i].length <= 1 || c[i].length == size then c else Carved(Halved(c, i), i, size)
  }

  function Inserted(c: Chain, i: nat, size: int, body: Body): Chain
    requires i < |c|
  {
    var d := Carved(c, i, size);
    if i < |d| then Rebodied(d, i, body) else d
  }

  /** Partition i says something else about itself. */
  function Rebodied(c: Chain, i: nat, body: Body): Chain
    requires i < |c|
  {
    c[i := c[i].(body := body)]
  }

  // ----- deletion -----

  /** How far down the block that starts at partition j and ends at `end` grows. */
  function MergeDown(c: Chain, j: nat, end: int): (low: nat)
    requires j < |c|
    ensures low <= j
    decreases j
  {
    if 0 < j && !c[j - 1].Used() && Fits(c[j - 1].start, end - c[j - 1].start) then MergeDown(c, j - 1, end) else j
  }

  /** The first partition from k on that the block starting at partition i does not take. */
  function MergeUp(c: Chain, i: nat, k: nat): (high: nat)
    requires i < k <= |c|
    ensures k <= high <= |c|
    decreases |c| - k
  {
    if k < |c| && !c[k].Used() && Fits(c[i].start, c[k].End() - c[i].start) then MergeUp(c, i, k + 1) else k
  }

  function DownIndex(c: Chain, i: nat): (j: nat)
    requires i < |c|
    ensures j <= i
  {
    MergeDown(c, i, c[i].End())
  }

  function Down(c: Chain, i: nat): Chain
    requires i < |c|
  {
    var j := DownIndex(c, i);
    if j == i then c else Joined(c, j, i, c[j].body)
  }

  function Up(c: Chain, i: nat): Chain
    requires i < |c|
  {
    var k := MergeUp(c, i, i + 1);
    if k == i + 1 then c else Joined(c, i, k - 1, EMPTY_BODY)
  }

  lemma {:induction false} MergeDownFacts(c: Chain, j: nat, end: int)
    requires Tiled(c) && 0 < j < |c|
    ensures
      var low := MergeDown(c, j, end);
      && 0 < low <= j
      && (forall k :: low <= k < j ==> !c[k].Used())
      && (low < j ==> Fits(c[low].start, end - c[low].start))
      && (c[low - 1].Used() || !Fits(c[low - 1].start, end - c[low - 1].start))
  {
    hide Fits;
    if !c[j - 1].Used() && Fits(c[j - 1].start, end - c[j - 1].start) {
      MergeDownFacts(c, j - 1, end);
    }
  }

  lemma {:induction false} MergeUpFacts(c: Chain, i: nat, k: nat)
    requires Sound(c) && i < k < |c|
    ensures
      var high := MergeUp(c, i, k);
      && k <= high < |c|
      && (forall l :: k <= l < high ==> !c[l].Used())
      && (k < high ==> Fits(c[i].start, c[high - 1].End() - c[i].start))
      && (c[high].Used() || !Fits(c[i].start, c[high].End() - c[i].start))
    decreases |c| - k
  {
    hide Fits;
    if !c[k].Used() && Fits(c[i].start, c[k].End() - c[i].start) {
      MergeUpFacts(c, i, k + 1);
    }
  }

  /** The first m partitions without the free ones at the end. */
  function TrimTo(c: Chain, m: nat): (n: nat)
    requires 0 < m <= |c| && c[0].Used()
    ensures 0 < n <= m && c[n - 1].Used() && forall k :: n <= k < m ==> !c[k].Used()
  {
    if c[m - 1].Used() then m else TrimTo(c, m - 1)
  }

  lemma DownSound(c: Chain, i: nat)
    requires Sound(c) && 0 < i < |c| - 1
    ensures Sound(Down(c, i)) && 0 < DownIndex(c, i) < |Down(c, i)| - 1
    ensures |Down(c, i)| == |c| - (i - DownIndex(c, i))
  {
    hide Fits, MergeDown;
    MergeDownFacts(c, i, c[i].End());
    if DownIndex(c, i) < i {
      JoinedSound(c, DownIndex(c, i), i, c[DownIndex(c, i)].body);
    }
  }

  lemma UpSound(c: Chain, i: nat)
    requires Sound(c) && 0 < i < |c| - 1
    ensures Sound(Up(c, i)) && i < |Up(c, i)| - 1
  {
    hide Fits, MergeUp, Sound, Joined;
    MergeUpFacts(c, i, i + 1);
    var k := MergeUp(c, i, i + 1);
    if k > i + 1 {
      JoinedParts(c, i, k - 1, EMPTY_BODY);
      JoinedSound(c, i, k - 1, EMPTY_BODY);
    }
  }

  /** One round of apaDelete. */
  function Round(c: Chain, i: nat): Chain
    requires 0 < i < |c| - 1 && Sound(c)
  {
    DownSound(c, i);
    Up(Down(c, i), DownIndex(c, i))
  }

  lemma RoundSound(c: Chain, i: nat)
    requires Sound(c) && 0 < i < |c| - 1
    ensures Sound(Round(c, i)) && 0 < DownIndex(c, i) < |Round(c, i)| - 1
  {
    DownSound(c, i);
    UpSound(Down(c, i), DownIndex(c, i));
  }

  /** What became of the block being deleted: nothing yet, or it is free and has grown. */
  predicate Grown(p: Part, q: Part)
  {
    q == p || (!q.Used() && q.length > p.length && q.start <= p.start && p.End() <= q.End())
  }

  /** A block that took in others is larger than each of them. */
  lemma JoinedGrown(c: Chain, j: nat, m: nat, i: nat, body: Body)
    requires Tiled(c) && j <= m <= i < |c| && j < i && body.ptype == 0
    ensures j < |Joined(c, j, i, body)| && Grown(c[m], Joined(c, j, i, body)[j])
  {
    JoinedParts(c, j, i, body);
    Apart(c, j, i);
    if j < m {
      Apart(c, j, m);
    }
    if m < i {
      Apart(c, m, i);
    }
    assert Aligned(c[j]) && Aligned(c[i]) && Aligned(c[m]);
  }

  lemma DownUsed(c: Chain, i: nat, target: int)
    requires Sound(c) && 0 < i < |c| - 1
    requires !c[i].Used() || c[i].start == target
    ensures SameUsed(c, Down(c, i), target)
    ensures DownIndex(c, i) < |Down(c, i)| && Grown(c[i], Down(c, i)[DownIndex(c, i)])
  {
    hide Fits, MergeDown, Joined, Grown, SameUsed;
    var j := DownIndex(c, i);
    MergeDownFacts(c, i, c[i].End());
    if j < i {
      JoinedUsed(c, j, i, c[j].body, target);
      JoinedGrown(c, j, i, i, c[j].body);
    } else {
      SameUsedSelf(c, target);
      GrownSelf(c[i]);
    }
  }

  lemma GrownSelf(p: Part)
    ensures Grown(p, p)
  {
  }

  lemma UpUsed(c: Chain, i: nat, target: int)
    requires Sound(c) && 0 < i < |c| - 1
    requires !c[i].Used() || c[i].start == target
    ensures SameUsed(c, Up(c, i), target)
    ensures i < |Up(c, i)| && Grown(c[i], Up(c, i)[i])
  {
    hide Fits, MergeUp, Joined, Grown, SameUsed;
    var k := MergeUp(c, i, i + 1);
    MergeUpFacts(c, i, i + 1);
    if k > i + 1 {
      JoinedUsed(c, i, k - 1, EMPTY_BODY, target);
      JoinedGrown(c, i, i, k - 1, EMPTY_BODY);
    } else {
      SameUsedSelf(c, target);
      GrownSelf(c[i]);
    }
  }

  lemma RoundUsed(c: Chain, i: nat, target: int)
    requires Sound(c) && 0 < i < |c| - 1
    requires !c[i].Used() || c[i].start == target
    ensures SameUsed(c, Round(c, i), target)
    ensures DownIndex(c, i) < |Round(c, i)| && Grown(c[i], Round(c, i)[DownIndex(c, i)])
  {
    DownSound(c, i);
    DownUsed(c, i, target);
    UpUsed(Down(c, i), DownIndex(c, i), target);
  }

  lemma RebodiedFacts(c: Chain, i: nat, body: Body, target: int)
    requires Sound(c) && 0 < i < |c| - 1
    requires !c[i].Used() || c[i].start == target
    requires body.ptype == 0 || c[i].start == target
    ensures Sound(Rebodied(c, i, body)) && SameUsed(c, Rebodied(c, i, body), target)
  {
    var d := Rebodied(c, i, body);
    forall k | 0 <= k < |c| ensures Aligned(d[k]) {
      assert Aligned(c[k]);
    }
    forall p: Part | p.Used() && p.start != target ensures p in c <==> p in d {
      if p in c {
        var k :| 0 <= k < |c| && c[k] == p;
        assert d[k] == p;
      }
      if p in d {
        var k :| 0 <= k < |d| && d[k] == p;
        assert c[k] == p;
      }
    }
  }

  lemma RebodiedHolds(t: Table, c: Chain, i: nat, body: Body, u: Table)
    requires Sound(c) && 0 < i < |c| && Holds(t, c)
    requires u == t[c[i].start := HeaderOf(c, i).(body := body)]
    ensures Holds(u, Rebodied(c, i, body))
  {
    forall k | 0 <= k < |c| ensures HoldsAt(u, Rebodied(c, i, body), k) {
      assert HoldsAt(t, c, k);
      if k != i {
        Apart(c, k, i);
      }
    }
  }

  /** The chain apaDelete leaves, before it looks whether anything was merged. */
  function Merged(c: Chain, i: nat): (r: (Chain, nat))
    requires Sound(c) && 0 < i < |c| - 1
    ensures 0 < r.1 < |r.0| - 1 && Sound(r.0)
  {
    RoundSound(c, i);
    RoundSound(Round(c, i), DownIndex(c, i));
    (Round(Round(c, i), DownIndex(c, i)), DownIndex(Round(c, i), DownIndex(c, i)))
  }

  /** The chain without partition i. */
  function Deleted(c: Chain, i: nat): Chain
    requires Sound(c) && 0 < i < |c|
  {
    if i == |c| - 1 then c[..TrimTo(c, i)]
    else
      Dropped(c, i, Merged(c, i).0, Merged(c, i).1)
  }

  lemma MergedUsed(c: Chain, i: nat)
    requires Sound(c) && 0 < i < |c| - 1
    ensures SameUsed(c, Merged(c, i).0, c[i].start)
    ensures Grown(c[i], Merged(c, i).0[Merged(c, i).1])
  {
    var d, j := Round(c, i), DownIndex(c, i);
    RoundSound(c, i);
    RoundUsed(c, i, c[i].start);
    RoundUsed(d, j, c[i].start);
  }

  lemma PrefixUsed(c: Chain, n: nat, target: int)
    requires Tiled(c) && 0 < n <= |c|
    requires forall k :: n <= k < |c| ==> !c[k].Used() || c[k].start == target
    ensures Tiled(c[..n]) && SameUsed(c, c[..n], target)
  {
    forall p: Part | p.Used() && p.start != target ensures p in c <==> p in c[..n] {
      if p in c {
        var k :| 0 <= k < |c| && c[k] == p;
        assert c[..n][k] == p;
      }
    }
  }

  lemma PrefixBelow(c: Chain, n: nat)
    requires Tiled(c) && n < |c|
    ensures forall p :: p in c[..n] ==> p.start < c[n].start
  {
    forall p | p in c[..n] ensures p.start < c[n].start {
      var k :| 0 <= k < n && c[..n][k] == p;
      Rising(c, k, n);
    }
  }

  /** Deleting leaves a sound chain with every other used partition as it was, and the target
      no longer in use. */
  lemma DeletedFacts(c: Chain, i: nat)
    requires Sound(c) && 0 < i < |c|
    ensures Sound(Deleted(c, i)) && SameUsed(c, Deleted(c, i), c[i].start)
    ensures forall p :: p in Deleted(c, i) && p.Used() ==> p.start != c[i].start
  {
    if i == |c| - 1 {
      LastDeleted(c);
    } else {
      MergedUsed(c, i);
      InsideDeleted(c, i);
    }
  }

  lemma LastDeleted(c: Chain)
    requires Sound(c) && |c| > 1
    ensures
      var i := |c| - 1;
      && Sound(Deleted(c, i)) && SameUsed(c, Deleted(c, i), c[i].start)
      && forall p :: p in Deleted(c, i) && p.Used() ==> p.start != c[i].start
  {
    var i := |c| - 1;
    PrefixUsed(c, TrimTo(c, i), c[i].start);
    PrefixBelow(c, i);
    forall p | p in c[..TrimTo(c, i)] ensures p in c[..i] {
      var k :| 0 <= k < TrimTo(c, i) && c[k] == p;
      assert c[..i][k] == p;
    }
  }

  lemma InsideDeleted(c: Chain, i: nat)
    requires Sound(c) && 0 < i < |c| - 1
    requires SameUsed(c, Merged(c, i).0, c[i].start)
    requires Grown(c[i], Merged(c, i).0[Merged(c, i).1])
    ensures Sound(Deleted(c, i)) && SameUsed(c, Deleted(c, i), c[i].start)
    ensures forall p :: p in Deleted(c, i) && p.Used() ==> p.start != c[i].start
  {
    Unchanged(c, i, Merged(c, i).0, Merged(c, i).1);
  }

  /** The last step of a deletion: a block that did not grow is emptied. */
  function Dropped(c: Chain, i: nat, d: Chain, j: nat): Chain
    requires i < |c| && j < |d|
  {
    if d[j].start == c[i].start && d[j].length == c[i].length then Rebodied(d, j, EMPTY_BODY) else d
  }

  lemma Unchanged(c: Chain, i: nat, d: Chain, j: nat)
    requires i < |c| && Aligned(c[i]) && Sound(d) && 0 < j < |d| - 1
    requires SameUsed(c, d, c[i].start) && Grown(c[i], d[j])
    ensures Sound(Dropped(c, i, d, j)) && SameUsed(c, Dropped(c, i, d, j), c[i].start)
    ensures forall p :: p in Dropped(c, i, d, j) && p.Used() ==> p.start != c[i].start
  {
    if d[j].start == c[i].start && d[j].length == c[i].length {
      RebodiedFacts(d, j, EMPTY_BODY, c[i].start);
    }
    forall k | 0 <= k < |d| && k != j ensures d[k].start != c[i].start {
      Apart(d, k, j);
    }
  }

  // ----- insertion and its inverse -----

  lemma {:induction false} CarvedFacts(c: Chain, i: nat, size: int)
    requires Sound(c) && 0 < i < |c| - 1 && !c[i].Used()
    requires Pow2(size) && size <= c[i].length
    ensures Sound(Carved(c, i, size)) && SameUsed(c, Carved(c, i, size), c[i].start)
    ensures |c| <= |Carved(c, i, size)| && Carved(c, i, size)[i] == Part(c[i].start, size, c[i].body)
    decreases c[i].length
  {
    if c[i].length > 1 && c[i].length != size {
      assert Aligned(c[i]);
      HalfBelow(size, c[i].length);
      HalvedSound(c, i);
      HalvedUsed(c, i);
      HalvedParts(c, i);
      CarvedFacts(Halved(c, i), i, size);
    }
  }

  /** Inserting takes exactly the bottom of the free block and leaves other partitions alone. */
  lemma InsertedFacts(c: Chain, i: nat, size: int, body: Body)
    requires Sound(c) && 0 < i < |c| - 1 && !c[i].Used()
    requires Pow2(size) && size <= c[i].length
    ensures Sound(Inserted(c, i, size, body)) && SameUsed(c, Inserted(c, i, size, body), c[i].start)
    ensures i < |Inserted(c, i, size, body)| - 1
    ensures Inserted(c, i, size, body)[i] == Part(c[i].start, size, body)
  {
    CarvedFacts(c, i, size);
    RebodiedFacts(Carved(c, i, size), i, body, c[i].start);
    SameUsedTrans(c, Carved(c, i, size), Inserted(c, i, size, body), c[i].start);
  }

  lemma SameUsedSelf(c: Chain, target: int)
    ensures SameUsed(c, c, target)
  {
  }

  lemma SameUsedTrans(c: Chain, d: Chain, e: Chain, target: int)
    requires SameUsed(c, d, target) && SameUsed(d, e, target)
    ensures SameUsed(c, e, target)
  {
  }

  /** The partition before i is free and could be merged with it. */
  predicate BuddyBelow(c: Chain, i: nat)
    requires 0 < i < |c|
  {
    !c[i - 1].Used() && Fits(c[i - 1].start, c[i].End() - c[i - 1].start)
  }

  /** The partition after i is free and could be merged with it. */
  predicate BuddyAbove(c: Chain, i: nat)
    requires i + 1 < |c|
  {
    !c[i + 1].Used() && Fits(c[i].start, c[i + 1].End() - c[i].start)
  }

  /** No free neighbour of partition i could be merged with it. */
  predicate NoBuddy(c: Chain, i: nat)
    requires 0 < i < |c| - 1
  {
    !BuddyBelow(c, i) && !BuddyAbove(c, i)
  }

  /** A free remainder of a carving: it ends a merge of everything below it. */
  predicate Remainder(p: Part, q: Part)
  {
    !q.Used() && Pow2(q.End() - p.start) && q.End() - p.start <= p.length
  }

  /** d is c with partition i cut up: the bottom piece stays at i and remainders follow. */
  ghost predicate CutUp(c: Chain, i: nat, d: Chain)
    requires i < |c|
  {
    && |c| <= |d|
    && (forall k :: 0 <= k < i ==> d[k] == c[k])
    && (forall k :: i < k <= i + |d| - |c| ==> Remainder(c[i], d[k]))
    && (forall k :: i + |d| - |c| < k < |d| ==> d[k] == c[k - (|d| - |c|)])
  }

  lemma {:induction false} CarvedTail(c: Chain, i: nat, size: int)
    requires Sound(c) && 0 < i < |c| - 1 && !c[i].Used()
    requires Pow2(size) && size <= c[i].length
    ensures CutUp(c, i, Carved(c, i, size))
    ensures |Carved(c, i, size)| == |c| <==> size == c[i].length
    decreases c[i].length
  {
    assert Aligned(c[i]);
    if c[i].length > 1 && c[i].length != size {
      HalfBelow(size, c[i].length);
      HalvedSound(c, i);
      HalvedParts(c, i);
      CarvedTail(Halved(c, i), i, size);
      CutUpMore(c, i, Carved(c, i, size));
    }
  }

  lemma CutUpMore(c: Chain, i: nat, d: Chain)
    requires i < |c| && Aligned(c[i]) && c[i].length > 1
    requires CutUp(Halved(c, i), i, d)
    ensures CutUp(c, i, d) && |c| < |d|
  {
    var e := Halved(c, i);
    HalvedParts(c, i);
    var n := |d| - |c|;
    forall k | i < k <= i + n ensures Remainder(c[i], d[k]) {
      if k == i + n {
        assert d[k] == e[i + 1];
      } else {
        assert Remainder(e[i], d[k]);
      }
    }
    forall k | i + n < k < |d| ensures d[k] == c[k - n] {
      assert d[k] == e[k - n + 1];
    }
  }

  /** Upward merging from partition i, once it has reached partition l, takes it. */
  predicate Taken(d: Chain, i: nat, l: nat)
    requires i < |d| && l < |d|
  {
    !d[l].Used() && Fits(d[i].start, d[l].End() - d[i].start)
  }

  lemma {:induction false} MergeUpAll(d: Chain, i: nat, k: nat, n: nat)
    requires i < k <= n < |d|
    requires (forall l :: k <= l < n ==> Taken(d, i, l)) && !Taken(d, i, n)
    ensures MergeUp(d, i, k) == n
    decreases n - k
  {
    if k < n {
      assert Taken(d, i, k);
      MergeUpAll(d, i, k + 1, n);
    }
  }

  lemma HalfLeft(a: int)
    requires a > 0
    ensures a % (2 * a) == a
  {
    assert a / (2 * a) == 0;
  }

  /** The lowest piece of a split block has no buddy below it. */
  lemma NoBuddyBelow(p: Part, start: int, size: int, length: int)
    requires Aligned(p) && p.End() == start && Pow2(size) && Pow2(length) && size < length && start % length == 0
    ensures !Fits(p.start, size + p.length)
  {
    if Fits(p.start, size + p.length) {
      Pow2Sum(p.length, size);
      HalfBelow(size, length);
      Pow2Double(size);
      Pow2Divides(2 * size, length);
      ModSplit(start, 2 * size, length);
      hide Pow2;
      ModSum(start, p.start, 2 * size);
      HalfLeft(size);
      assert false;
    }
  }

  /** Without a buddy, a round changes nothing. */
  lemma QuietRound(c: Chain, i: nat)
    requires Sound(c) && 0 < i < |c| - 1 && NoBuddy(c, i)
    ensures DownIndex(c, i) == i && Round(c, i) == c
  {
    hide Fits, Sound, Joined;
    assert DownIndex(c, i) == i && Down(c, i) == c;
    assert MergeUp(c, i, i + 1) == i + 1;
  }

  lemma CutDown(c: Chain, i: nat, d: Chain)
    requires Sound(c) && 0 < i < |c| - 1 && CutUp(c, i, d)
    requires d[i].start == c[i].start && Pow2(d[i].length) && d[i].length < c[i].length
    ensures DownIndex(d, i) == i
  {
    assert d[i - 1] == c[i - 1];
    assert Aligned(c[i - 1]) && Aligned(c[i]) && c[i - 1].End() == c[i].start;
    NoBuddyBelow(c[i - 1], c[i].start, d[i].length, c[i].length);
  }

  lemma RemainderFits(c: Chain, i: nat, d: Chain, l: nat)
    requires i < |c| && Aligned(c[i]) && CutUp(c, i, d) && d[i].start == c[i].start
    requires i < l <= i + |d| - |c|
    ensures Taken(d, i, l)
  {
    assert Remainder(c[i], d[l]);
    Pow2Divides(d[l].End() - c[i].start, c[i].length);
    ModSplit(c[i].start, d[l].End() - c[i].start, c[i].length);
  }

  lemma CutReach(c: Chain, i: nat, d: Chain)
    requires Sound(c) && 0 < i < |c| - 1 && !BuddyAbove(c, i) && CutUp(c, i, d) && d[i].start == c[i].start
    ensures MergeUp(d, i, i + 1) == i + |d| - |c| + 1
  {
    hide Fits, Pow2;
    var n := |d| - |c|;
    assert Aligned(c[i]);
    forall l | i < l <= i + n ensures Taken(d, i, l) {
      RemainderFits(c, i, d, l);
    }
    assert d[i + n + 1] == c[i + 1];
    MergeUpAll(d, i, i + 1, i + n + 1);
  }

  lemma CutJoined(c: Chain, i: nat, d: Chain)
    requires Sound(c) && 0 < i < |c| - 1 && c[i].body == EMPTY_BODY
    requires CutUp(c, i, d) && Sound(d) && d[i].start == c[i].start
    ensures i + |d| - |c| < |d| && Joined(d, i, i + |d| - |c|, EMPTY_BODY) == c
  {
    var n := |d| - |c|;
    assert d[i + n + 1] == c[i + 1];
    assert d[i + n].End() == d[i + n + 1].start && c[i].End() == c[i + 1].start;
    JoinedParts(d, i, i + n, EMPTY_BODY);
  }

  lemma CutUpward(c: Chain, i: nat, d: Chain)
    requires Sound(c) && 0 < i < |c| - 1 && c[i].body == EMPTY_BODY && !BuddyAbove(c, i)
    requires Sound(d) && CutUp(c, i, d) && |c| < |d| && d[i].start == c[i].start
    ensures Up(d, i) == c
  {
    hide CutUp, MergeUp, Joined, Sound;
    CutReach(c, i, d);
    CutJoined(c, i, d);
  }

  lemma DeletedMerge(c: Chain, i: nat, d: Chain)
    requires Sound(c) && 0 < i < |c| - 1 && NoBuddy(c, i)
    requires Sound(d) && i < |d| - 1 && DownIndex(d, i) == i && Up(d, i) == c && d[i].length < c[i].length
    ensures Deleted(d, i) == c
  {
    assert Round(d, i) == c;
    QuietRound(c, i);
  }

  lemma DeletedWhole(c: Chain, i: nat, body: Body)
    requires Sound(c) && 0 < i < |c| - 1 && c[i].body == EMPTY_BODY && NoBuddy(c, i)
    requires Sound(Rebodied(c, i, body))
    ensures Deleted(Rebodied(c, i, body), i) == c
  {
    QuietRound(Rebodied(c, i, body), i);
    assert Rebodied(Rebodied(c, i, body), i, EMPTY_BODY) == c;
  }

  lemma DeletedCut(c: Chain, i: nat, d: Chain)
    requires Sound(c) && 0 < i < |c| - 1 && c[i].body == EMPTY_BODY && NoBuddy(c, i)
    requires Sound(d) && CutUp(c, i, d) && |c| < |d| && d[i].start == c[i].start
    requires Pow2(d[i].length) && d[i].length < c[i].length
    ensures Deleted(d, i) == c
  {
    hide Deleted, Up, Down, MergeUp, MergeDown;
    CutDown(c, i, d);
    CutUpward(c, i, d);
    DeletedMerge(c, i, d);
  }

  lemma CutUpRebodied(c: Chain, i: nat, d: Chain, body: Body)
    requires i < |c| && CutUp(c, i, d)
    ensures CutUp(c, i, Rebodied(d, i, body))
  {
    var e := Rebodied(d, i, body);
    forall k | i < k <= i + |e| - |c| ensures Remainder(c[i], e[k]) {
      assert Remainder(c[i], d[k]);
    }
  }

  // ----- splitting and merging undo each other -----

  /** What matters of a block to its cutting and its buddies is not what it says of itself. */
  lemma Emptied(c: Chain, i: nat, body: Body)
    requires Sound(c) && 0 < i < |c| - 1 && !c[i].Used() && body.ptype == 0
    ensures Sound(Rebodied(c, i, body))
    ensures BuddyBelow(Rebodied(c, i, body), i) == BuddyBelow(c, i)
    ensures BuddyAbove(Rebodied(c, i, body), i) == BuddyAbove(c, i)
  {
    RebodiedFacts(c, i, body, c[i].start);
  }

  lemma CutUpEmptied(c: Chain, i: nat, d: Chain, body: Body)
    requires i < |c| && CutUp(c, i, d)
    ensures CutUp(Rebodied(c, i, body), i, d)
  {
    var e := Rebodied(c, i, body);
    forall k | i < k <= i + |d| - |e| ensures Remainder(e[i], d[k]) {
      assert Remainder(c[i], d[k]);
    }
  }

  /** What inserting leaves, seen from the block as it would be once emptied. */
  lemma InsertedCut(c: Chain, i: nat, size: int, body: Body)
    requires Sound(c) && 0 < i < |c| - 1 && !c[i].Used()
    requires Pow2(size) && size <= c[i].length && body.ptype != 0
    ensures
      var d := Inserted(c, i, size, body);
      && Sound(d) && i < |d| - 1 && d[i] == Part(c[i].start, size, body) && CutUp(Rebodied(c, i, EMPTY_BODY), i, d)
      && (if size < c[i].length then |c| < |d| else d == Rebodied(c, i, body))
  {
    InsertedFacts(c, i, size, body);
    CarvedTail(c, i, size);
    CarvedFacts(c, i, size);
    CutUpRebodied(c, i, Carved(c, i, size), body);
    CutUpEmptied(c, i, Inserted(c, i, size, body), EMPTY_BODY);
  }

  /** Splitting a free block that no neighbour could join, and deleting what was put there,
      restores the chain; the block is empty afterwards whatever it said before. */
  lemma InsertDelete(c: Chain, i: nat, size: int, body: Body)
    requires Sound(c) && 0 < i < |c| - 1 && !c[i].Used() && NoBuddy(c, i)
    requires Pow2(size) && size <= c[i].length && body.ptype != 0
    ensures Sound(Inserted(c, i, size, body)) && i < |Inserted(c, i, size, body)| - 1
    ensures Deleted(Inserted(c, i, size, body), i) == Rebodied(c, i, EMPTY_BODY)
  {
    hide CutUp, Inserted, Deleted;
    var e := Rebodied(c, i, EMPTY_BODY);
    Emptied(c, i, EMPTY_BODY);
    InsertedCut(c, i, size, body);
    if size < c[i].length {
      DeletedCut(e, i, Inserted(c, i, size, body));
    } else {
      assert Rebodied(e, i, body) == Rebodied(c, i, body);
      DeletedWhole(e, i, body);
    }
  }

  lemma {:induction false} MergeUpAtLeast(d: Chain, i: nat, k: nat, n: nat)
    requires i < k <= n <= |d| && forall l :: k <= l < n ==> Taken(d, i, l)
    ensures MergeUp(d, i, k) >= n
    decreases n - k
  {
    if k < n {
      assert Taken(d, i, k);
      MergeUpAtLeast(d, i, k + 1, n);
    }
  }

  /** A round never lengthens the chain, and shortens it by all it takes in. */
  lemma RoundLength(c: Chain, i: nat)
    requires Sound(c) && 0 < i < |c| - 1
    ensures |Round(c, i)| <= |Down(c, i)| <= |c| && (DownIndex(c, i) < i ==> |Down(c, i)| < |c|)
    ensures DownIndex(c, i) == i ==> |Round(c, i)| == |c| - (MergeUp(c, i, i + 1) - (i + 1))
  {
    hide Fits, MergeUp, MergeDown, Joined;
    DownSound(c, i);
    var d, j := Down(c, i), DownIndex(c, i);
    MergeUpFacts(d, j, j + 1);
    var k := MergeUp(d, j, j + 1);
    if k > j + 1 {
      JoinedParts(d, j, k - 1, EMPTY_BODY);
    }
  }

  lemma DeletedLength(c: Chain, i: nat)
    requires Sound(c) && 0 < i < |c| - 1
    ensures |Deleted(c, i)| <= |Round(c, i)|
    ensures |Deleted(c, i)| == |Merged(c, i).0|
  {
    hide Round, DownIndex;
    RoundSound(c, i);
    RoundLength(Round(c, i), DownIndex(c, i));
  }

  /** A round merges a block with its buddy. */
  lemma BuddyTaken(c: Chain, i: nat)
    requires Sound(c) && 0 < i < |c| - 1 && !NoBuddy(c, i)
    ensures |Round(c, i)| < |c|
  {
    RoundLength(c, i);
    if DownIndex(c, i) == i {
      assert Taken(c, i, i + 1);
      MergeUpAtLeast(c, i, i + 1, i + 2);
    }
  }

  /** A block that had a buddy above when it was split grows past its old size at once. */
  lemma CutAbove(e: Chain, i: nat, d: Chain)
    requires Sound(e) && 0 < i < |e| - 1 && !e[i].Used() && BuddyAbove(e, i) && CutUp(e, i, d) && |e| < |d|
    requires Sound(d) && d[i].start == e[i].start && DownIndex(d, i) == i
    ensures |Round(d, i)| < |e|
  {
    hide Fits, Pow2;
    var n := |d| - |e|;
    assert Aligned(e[i]);
    forall l | i < l < i + n + 2 ensures Taken(d, i, l) {
      if l <= i + n {
        RemainderFits(e, i, d, l);
      } else {
        assert d[l] == e[i + 1];
      }
    }
    MergeUpAtLeast(d, i, i + 1, i + n + 2);
    RoundLength(d, i);
  }

  /** One that had a buddy below is whole again after the first round and joins it in the second. */
  lemma CutBelow(e: Chain, i: nat, d: Chain)
    requires Sound(e) && 0 < i < |e| - 1 && e[i].body == EMPTY_BODY && CutUp(e, i, d) && |e| < |d|
    requires BuddyBelow(e, i) && !BuddyAbove(e, i)
    requires Sound(d) && i < |d| - 1 && d[i].start == e[i].start && DownIndex(d, i) == i
    ensures |Deleted(d, i)| < |e|
  {
    hide CutUp, MergeUp, MergeDown, Joined, Up, Down;
    CutUpward(e, i, d);
    RoundOf(e, i, d);
    BuddyTaken(e, i);
    DeletedLength(d, i);
  }

  lemma RoundOf(e: Chain, i: nat, d: Chain)
    requires Sound(d) && 0 < i < |d| - 1 && DownIndex(d, i) == i && Up(d, i) == e
    ensures Round(d, i) == e
  {
  }

  /** And only such a block: with a buddy, what is deleted is merged with it, and the chain ends
      up shorter. */
  lemma InsertDeleteShrinks(c: Chain, i: nat, size: int, body: Body)
    requires Sound(c) && 0 < i < |c| - 1 && !c[i].Used() && !NoBuddy(c, i)
    requires Pow2(size) && size <= c[i].length && body.ptype != 0
    ensures Sound(Inserted(c, i, size, body)) && i < |Inserted(c, i, size, body)| - 1
    ensures |Deleted(Inserted(c, i, size, body), i)| < |c|
  {
    hide CutUp, Inserted, Deleted, Round, DownIndex, Fits;
    var e, d := Rebodied(c, i, EMPTY_BODY), Inserted(c, i, size, body);
    Emptied(c, i, EMPTY_BODY);
    InsertedCut(c, i, size, body);
    DeletedLength(d, i);
    if size == c[i].length {
      assert d[i - 1] == c[i - 1] && d[i + 1] == c[i + 1];
      BuddyTaken(d, i);
    } else {
      CutDown(e, i, d);
      if BuddyAbove(e, i) {
        CutAbove(e, i, d);
      } else {
        CutBelow(e, i, d);
      }
    }
  }

  /** Exactly when inserting and deleting cancel out. */
  lemma InsertDeleteExactlyWhen(c: Chain, i: nat, size: int, body: Body)
    requires Sound(c) && 0 < i < |c| - 1 && !c[i].Used()
    requires Pow2(size) && size <= c[i].length && body.ptype != 0
    ensures Sound(Inserted(c, i, size, body)) && i < |Inserted(c, i, size, body)| - 1
    ensures Deleted(Inserted(c, i, size, body), i) == Rebodied(c, i, EMPTY_BODY) <==> NoBuddy(c, i)
  {
    hide Inserted, Deleted, NoBuddy;
    if NoBuddy(c, i) {
      InsertDelete(c, i, size, body);
    } else {
      InsertDeleteShrinks(c, i, size, body);
    }
  }

  lemma DownStart(c: Chain, i: nat)
    requires Sound(c) && 0 < i < |c| - 1
    ensures DownIndex(c, i) < |Down(c, i)| && DownIndex(c, i) < |Round(c, i)|
    ensures c[DownIndex(c, i)].start == Down(c, i)[DownIndex(c, i)].start == Round(c, i)[DownIndex(c, i)].start
  {
    hide Fits, MergeUp, MergeDown, Sound;
    var j := DownIndex(c, i);
    DownSound(c, i);
    if j < i {
      JoinedParts(c, j, i, c[j].body);
    }
    var d := Down(c, i);
    MergeUpFacts(d, j, j + 1);
    var k := MergeUp(d, j, j + 1);
    if k > j + 1 {
      JoinedParts(d, j, k - 1, EMPTY_BODY);
    }
  }

  // ----- cutting off the end -----

  /** The two header updates that make `at` the last partition. */
  function TrimmedTable(t: Table, at: int): Table
    requires at in t && 0 in t
  {
    var u := t[at := t[at].(next := 0)];
    u[0 := u[0].(prev := at)]
  }

  lemma TrimmedHolds(t: Table, c: Chain)
    requires Tiled(c) && |c| > 1 && Holds(t, c)
    ensures c[|c| - 2].start in t && 0 in t && Holds(TrimmedTable(t, c[|c| - 2].start), c[..|c| - 1])
  {
    assert HoldsAt(t, c, |c| - 2) && HoldsAt(t, c, 0);
    var d, u := c[..|c| - 1], TrimmedTable(t, c[|c| - 2].start);
    forall k | 0 <= k < |d| ensures HoldsAt(u, d, k) {
      assert HoldsAt(t, c, k);
      if k != 0 {
        Apart(c, k, 0);
      }
      if k != |c| - 2 {
        Apart(c, k, |c| - 2);
      }
    }
  }

  /** The chain has been cut back to n partitions, and goes on being cut while the last is free. */
  ghost predicate Trimming(c: Chain, n: nat, again: bool)
  {
    && Tiled(c) && |c| > 1 && 0 < n <= |c|
    && if again then n > 1 && TrimTo(c, n - 1) == TrimTo(c, |c| - 1) else n == TrimTo(c, |c| - 1)
  }

  lemma TrimStep(c: Chain, n: nat)
    requires Trimming(c, n, true)
    ensures Trimming(c, n - 1, !c[n - 2].Used())
    ensures Tiled(c[..n - 1]) && SameUsed(c, c[..n - 1], c[|c| - 1].start)
    ensures c[..n][..n - 1] == c[..n - 1]
  {
    var m := TrimTo(c, n - 1);
    assert m == TrimTo(c, |c| - 1);
    PrefixUsed(c, n - 1, c[|c| - 1].start);
  }
}
