/** The defragmenter: used partitions are copied to lower free slots of their size, and what is
    left at the old place is removed. */
module Defrag {
  import opened Powers
  import opened ApaChain
  import opened ApaTable
  import opened Relocation
  import opened History
  import opened Packing

  const HDSK_MIN_PART_SIZE := 0x4_0000
  const APA_MAXSUB := 64

  // ----- the state a move starts from -----

  predicate PlainPart(p: Part, size: int)
  {
    && p.length >= HDSK_MIN_PART_SIZE && p.length % IOBUFFER_SECTORS == 0 && 0 <= p.start && p.End() <= size
    && |p.body.subs| <= APA_MAXSUB && (p.start == 0 ==> !IsSub(p.body) && !IsTmp(p))
  }

  /** The partitions are on the disk, of the sizes there are, and the first is no sub. */
  ghost predicate Plain(lives: set<Part>, size: int)
  {
    forall p :: p in lives ==> PlainPart(p, size)
  }

  predicate NamedBody(b: Body)
  {
    b.ptype != 0 || IsSub(b) || b.id != "_tmp"
  }

  /** No free partition is called what a left-over one is. */
  ghost predicate Blank(c: Chain)
  {
    forall i :: 0 <= i < |c| ==> NamedBody(c[i].body)
  }

  /** The committed tables all had these partitions in use, besides the waste. */
  ghost predicate Kept(log: seq<Commit>, from: int, waste: set<int>, lives: set<Part>)
  {
    forall k :: 0 <= from <= k < |log| ==> KeptAt(log[k], waste, lives)
  }

  ghost predicate KeptAt(commit: Commit, waste: set<int>, lives: set<Part>)
  {
    Tiled(commit.chain) && Holds(commit.disk, commit.chain) && Lives(commit.chain, waste) == lives
  }

  // ----- deleting -----

  lemma JoinedBlank(c: Chain, j: nat, i: nat, body: Body)
    requires Blank(c) && j <= i < |c| && NamedBody(body)
    ensures Blank(Joined(c, j, i, body))
  {
    JoinedParts(c, j, i, body);
  }

  lemma RoundBlank(c: Chain, i: nat)
    requires Sound(c) && 0 < i < |c| - 1 && Blank(c)
    ensures Blank(Round(c, i))
  {
    hide Joined, MergeDown, MergeUp, Sound;
    DownSound(c, i);
    var j := DownIndex(c, i);
    if j < i {
      JoinedBlank(c, j, i, c[j].body);
    }
    var d := Down(c, i);
    var k := MergeUp(d, j, j + 1);
    if k > j + 1 {
      JoinedBlank(d, j, k - 1, EMPTY_BODY);
    }
  }

  lemma DeletedBlank(c: Chain, i: nat)
    requires Sound(c) && 0 < i < |c| && Blank(c)
    ensures Blank(Deleted(c, i))
  {
    hide Round, TrimTo, Sound, DownIndex;
    if i < |c| - 1 {
      RoundSound(c, i);
      RoundBlank(c, i);
      RoundBlank(Round(c, i), DownIndex(c, i));
    }
  }

  lemma KeptMore(log: seq<Commit>, from: int, mid: int, c: Chain, target: int, waste: set<int>, lives: set<Part>)
    requires 0 <= from <= mid <= |log| && target in waste && Lives(c, waste) == lives
    requires forall k :: from <= k < mid ==> KeptAt(log[k], waste, lives)
    requires GoodCommits(log, mid, c, target)
    ensures Kept(log, from, waste, lives)
  {
    forall k | from <= k < |log| ensures KeptAt(log[k], waste, lives) {
      if k >= mid {
        assert GoodCommit(log[k], c, target);
        UsedLives(c, log[k].chain, target, waste);
      }
    }
  }

  ghost predicate Orderly(lives: set<Part>, waste: set<int>, size: int)
  {
    Linked(lives) && Plain(lives, size) && Tidy(lives, waste)
  }

  // ----- removing what is left over -----

  lemma LivesMinus(c: Chain, waste: set<int>)
    ensures Lives(c, waste) == Minus(Lives(c, {}), waste)
  {
  }

  lemma MinusMore(lives: set<Part>, gone: set<int>, x: int, waste: set<int>)
    ensures Minus(Minus(lives, gone), {x}) == Minus(lives, gone + {x})
    ensures gone <= waste ==> Minus(Minus(lives, gone), waste) == Minus(lives, waste)
  {
  }

  /** The partition the walk finds is the one that is left over. */
  lemma TmpIs(c: Chain, t: int, waste: set<int>, size: int)
    requires Orderly(Lives(c, {}), waste, size) && Blank(c) && 0 <= t < |c| && IsTmp(c[t]) && Tiled(c)
    ensures t > 0 && c[t] in Lives(c, {}) && waste == WasteOf(c[t])
  {
    var lives := Lives(c, {});
    assert c[t] in lives by {
      assert NamedBody(c[t].body);
    }
    assert PlainPart(c[t], size);
    var p :| p in lives && IsTmp(p) && waste == WasteOf(p);
    assert LinkedAt(lives, p);
    if c[t].start != p.start {
      var i :| 0 <= i < p.body.nsub && p.body.subs[i].start == c[t].start;
      var met := HasSub(lives, p, i);
    }
  }

  function SubStarts(b: Body, sub: int): set<int>
  {
    set j | sub < j < b.nsub && 0 <= j < |b.subs| :: b.subs[j].start
  }

  /** The next entry of the list is a sub that is still there. */
  lemma SubThere(lives: set<Part>, rest: set<Part>, tmp: Part, sub: int, size: int) returns (p: Part)
    requires Linked(lives) && Plain(lives, size) && tmp in lives && !IsSub(tmp.body) && 0 <= sub < tmp.body.nsub
    requires forall q :: q in lives && q != tmp ==> q in rest
    ensures tmp.body.nsub <= |tmp.body.subs| && p in Minus(rest, SubStarts(tmp.body, sub))
    ensures p.start == tmp.body.subs[sub].start != 0 && p.start in WasteOf(tmp) && p.start != tmp.start
    ensures SubStarts(tmp.body, sub - 1) == SubStarts(tmp.body, sub) + {p.start}
  {
    assert LinkedAt(lives, tmp);
    assert HasSub(lives, tmp, sub);
    p :| p in lives && Pair(p, tmp, sub);
    assert PlainPart(p, size);
    assert SubStarts(tmp.body, sub - 1) == SubStarts(tmp.body, sub) + {p.start};
  }

  lemma AllSubs(lives: set<Part>, tmp: Part)
    requires Linked(lives) && tmp in lives && !IsSub(tmp.body)
    ensures tmp.body.nsub <= |tmp.body.subs| && SubStarts(tmp.body, tmp.body.nsub - 1) == {}
    ensures WasteOf(tmp) == SubStarts(tmp.body, -1) + {tmp.start} && tmp.start !in SubStarts(tmp.body, -1)
  {
    assert LinkedAt(lives, tmp);
    NoSelf(lives, tmp);
  }

  lemma RestOrderly(lives: set<Part>, tmp: Part, size: int)
    requires Orderly(lives, WasteOf(tmp), size) && tmp in lives && !IsSub(tmp.body)
    ensures Orderly(Minus(lives, WasteOf(tmp)), {}, size)
  {
    LinkedMinus(lives, tmp);
    hide Linked;
  }

  /** Nobody else is where a left-over partition is. */
  lemma TmpExtent(c: Chain, tmp: Part, waste: set<int>, size: int, x: int)
    requires Tiled(c) && tmp in Lives(c, {}) && Plain(Lives(c, {}), size) && tmp.start in waste
    requires tmp.start <= x < tmp.End()
    ensures !Within(Lives(c, waste), x)
  {
    forall p | p in Lives(c, waste) ensures !(p.start <= x < p.End()) {
      LivesApart(c, {}, p, tmp);
    }
  }

  // ----- switching headers -----

  /** What partition k's header says when n subs of a moving main have been told. */
  function PartBody(c: Chain, s: int, d: int, n: int, k: int): Body
    requires 0 <= s < |c| && 0 <= d < |c| && 0 <= k < |c|
  {
    if k == d then c[s].body
    else if k == s then TmpBody(c[s].body.ptype)
    else if Named(c[s].body, n, c[k].start) then c[k].body.(main := c[d].start)
    else c[k].body
  }

  ghost predicate SwappingAt(t: Table, c: Chain, s: int, d: int, n: int, k: int)
    requires 0 <= s < |c| && 0 <= d < |c| && 0 <= k < |c|
  {
    c[k].start in t && t[c[k].start] == HeaderOf(c, k).(body := PartBody(c, s, d, n, k))
  }

  ghost predicate Swapping(t: Table, c: Chain, s: int, d: int, n: int)
  {
    0 <= s < |c| && 0 <= d < |c| && forall k :: 0 <= k < |c| ==> SwappingAt(t, c, s, d, n, k)
  }

  lemma SwapStarts(t: Table, c: Chain, s: int, d: int, u: Table)
    requires Movable(c, s, d) && Holds(t, c)
    requires u == t[c[d].start := HeaderOf(c, d).(body := c[s].body)]
      [c[s].start := HeaderOf(c, s).(body := TmpBody(c[s].body.ptype))]
    ensures Swapping(u, c, s, d, 0)
  {
    hide Linked;
    forall k | 0 <= k < |c| ensures SwappingAt(u, c, s, d, 0, k) {
      assert HoldsAt(t, c, k);
      if k != s {
        ApaChain.Apart(c, k, s);
      }
      if k != d {
        ApaChain.Apart(c, k, d);
      }
    }
  }

  lemma SwapSub(t: Table, c: Chain, s: int, d: int, n: int, k: int, u: Table)
    requires Movable(c, s, d) && Swapping(t, c, s, d, n) && 0 <= k < |c| && k != s && k != d
    requires 0 <= n < |c[s].body.subs| && c[s].body.subs[n].start == c[k].start && c[k].start in t
    requires u == t[c[k].start := t[c[k].start].(body := t[c[k].start].body.(main := c[d].start))]
    ensures Swapping(u, c, s, d, n + 1)
  {
    hide Linked;
    var more := n + 1;
    forall l | 0 <= l < |c| ensures SwappingAt(u, c, s, d, more, l) {
      assert SwappingAt(t, c, s, d, n, l);
      SwapSubAt(t, c, s, d, n, k, u, l);
    }
  }

  lemma SwapSubAt(t: Table, c: Chain, s: int, d: int, n: int, k: int, u: Table, l: int)
    requires Movable(c, s, d) && 0 <= k < |c| && k != s && k != d && 0 <= l < |c| && SwappingAt(t, c, s, d, n, l)
    requires 0 <= n < |c[s].body.subs| && c[s].body.subs[n].start == c[k].start && c[k].start in t
    requires u == t[c[k].start := t[c[k].start].(body := t[c[k].start].body.(main := c[d].start))]
    ensures SwappingAt(u, c, s, d, n + 1, l)
  {
    hide Linked;
    if l != k {
      ApaChain.Apart(c, l, k);
      assert Named(c[s].body, n + 1, c[l].start) == Named(c[s].body, n, c[l].start);
    }
  }

  lemma SwapMainDone(t: Table, c: Chain, s: int, d: int)
    requires Movable(c, s, d) && !IsSub(c[s].body) && Swapping(t, c, s, d, c[s].body.nsub)
    ensures Holds(t, Swapped(c, s, d)) && Sound(Swapped(c, s, d))
  {
    hide Linked, Redirected, Sound, Lives, Named;
    forall k | 0 <= k < |c|
      ensures c[k].start in t && t[c[k].start] == HeaderOf(c, k).(body := NewBody(c, s, d, k)) {
      assert SwappingAt(t, c, s, d, c[s].body.nsub, k);
      if k != s && k != d {
        MainReferred(c, s, d, k);
      }
    }
    hide NewBody, Swapping, SwappingAt, PartBody;
    SwappedHolds(t, c, s, d);
    SwappedSound(c, s, d);
  }

  lemma SwapSubDone(t: Table, c: Chain, s: int, d: int, m: int, i: int, u: Table)
    requires Movable(c, s, d) && 0 <= m < |c| && c[m].Used() && Pair(c[s], c[m], i) && Swapping(t, c, s, d, 0)
    requires c[m].start in t
    requires u == t[c[m].start := t[c[m].start].(body := Reentered(c[m].body, i, c[d].start))]
    ensures Holds(u, Swapped(c, s, d)) && Sound(Swapped(c, s, d))
  {
    hide Linked, Redirected, Lives, Sound;
    assert SwappingAt(t, c, s, d, 0, m);
    forall k | 0 <= k < |c|
      ensures c[k].start in u && u[c[k].start] == HeaderOf(c, k).(body := NewBody(c, s, d, k)) {
      assert SwappingAt(t, c, s, d, 0, k);
      SubReferred(c, s, d, m, i, k);
      if k != m {
        MovableApart(c, s, d, k, m);
      }
    }
    hide NewBody, Swapping, SwappingAt, PartBody, Pair;
    SwappedHolds(u, c, s, d);
    SwappedSound(c, s, d);
  }

  lemma MovableApart(c: Chain, s: int, d: int, k: int, m: int)
    requires Movable(c, s, d) && 0 <= k < |c| && 0 <= m < |c| && k != m
    ensures c[k].start != c[m].start
  {
    hide Linked;
    ApaChain.Apart(c, k, m);
  }

  /** Where the main of a moving sub is, and where on its list the sub. */
  lemma MainOf(c: Chain, s: int, d: int) returns (m: int, i: int)
    requires Movable(c, s, d) && IsSub(c[s].body)
    ensures 0 <= m < |c| && c[m].Used() && Pair(c[s], c[m], i) && m != s && m != d && c[s].body.main == c[m].start
    ensures forall j :: 0 <= j < i ==> c[m].body.subs[j].start != c[s].start
  {
    var lives := Lives(c, {});
    assert c[s] in lives;
    assert LinkedAt(lives, c[s]);
    var p, l :| p in lives && Pair(c[s], p, l);
    i := l;
    m :| 0 <= m < |c| && c[m] == p;
    hide Linked, Lives;
    SubReferred(c, s, d, m, i, m);
  }

  /** Where sub n of a moving main is. */
  lemma SubAt(c: Chain, s: int, d: int, n: int) returns (k: int)
    requires Movable(c, s, d) && !IsSub(c[s].body) && 0 <= n < c[s].body.nsub
    ensures 0 <= k < |c| && k != s && k != d && n < |c[s].body.subs| && c[s].body.subs[n].start == c[k].start
  {
    var lives := Lives(c, {});
    assert c[s] in lives;
    assert LinkedAt(lives, c[s]);
    assert HasSub(lives, c[s], n);
    var p :| p in lives && Pair(p, c[s], n);
    k :| 0 <= k < |c| && c[k] == p;
  }

  // ----- moving -----

  /** The source may be copied to the slot: both are on the disk, apart, and the slot is free. */
  lemma CopyFits(c: Chain, s: int, d: int, size: int)
    requires Movable(c, s, d) && Plain(Lives(c, {}), size)
    ensures PlainPart(c[s], size) && 0 <= c[d].start && c[d].End() <= size
    ensures c[s].End() <= c[d].start || c[d].End() <= c[s].start
    ensures Beside(Lives(c, {}), c[d].start, c[d].length)
  {
    hide Linked, Within;
    ApaChain.Apart(c, s, d);
    ApaChain.Apart(c, d, |c| - 1);
    ApaChain.Apart(c, d, 0);
    assert c[|c| - 1] in Lives(c, {}) && c[s] in Lives(c, {});
    assert PlainPart(c[|c| - 1], size);
    forall x | c[d].start <= x < c[d].End() ensures !Within(Lives(c, {}), x) {
      SlotFree(c, d, x);
    }
  }

  lemma SlotFree(c: Chain, d: int, x: int)
    requires Tiled(c) && 0 <= d < |c| && !c[d].Used() && c[d].start <= x < c[d].End()
    ensures !Within(Lives(c, {}), x)
  {
    forall p | p in Lives(c, {}) ensures !(p.start <= x < p.End()) {
      LivesApart(c, {}, p, c[d]);
    }
  }

  /** With the copy made and the headers switched, every partition has its data. */
  lemma MovedData(c: Chain, s: int, d: int, was: seq<int>, now: seq<int>)
    requires Movable(c, s, d) && Plain(Lives(c, {}), |was|)
    requires Copied(was, now, c[s].start, c[d].start, 2, c[s].length)
    ensures Preserved(Step(c[s].start, c[d].start), Lives(c, {}), was, now)
  {
    var f, lives := Step(c[s].start, c[d].start), Lives(c, {});
    hide Linked, Redirected, Copied;
    CopyFits(c, s, d, |was|);
    forall p | p in lives ensures DataOf(now, Moved(f, p)) == DataOf(was, p) {
      if p.start == c[s].start {
        var k :| 0 <= k < |c| && c[k] == p;
        if k != s {
          ApaChain.Apart(c, k, s);
        }
        CopyOf(was, now, c[s], c[d]);
      } else {
        assert PlainPart(p, |was|);
        LivesApart(c, {}, p, c[d]);
        NotCopied(was, now, c[s], c[d], p);
      }
    }
    CopiedLength(was, now, c[s].start, c[d].start, 2, c[s].length);
  }

  lemma CopyOf(was: seq<int>, now: seq<int>, source: Part, slot: Part)
    requires Copied(was, now, source.start, slot.start, 2, source.length) && slot.length == source.length > 2
    requires 0 <= source.start && source.End() <= |was| && 0 <= slot.start && slot.End() <= |was|
    ensures forall b :: DataOf(now, Part(slot.start, slot.length, b)) == DataOf(was, source)
  {
    var there, here := now[slot.start + 2..slot.End()], was[source.start + 2..source.End()];
    forall i | 0 <= i < |here| ensures there[i] == here[i] {
      var x := slot.start + 2 + i;
      assert now[x] == CopiedAt(was, source.start, slot.start, 2, source.length, x);
    }
    assert there == here;
  }

  lemma NotCopied(was: seq<int>, now: seq<int>, source: Part, slot: Part, p: Part)
    requires Copied(was, now, source.start, slot.start, 2, source.length) && slot.length == source.length
    requires 0 <= p.start && p.End() <= |was| && p.length > 2 && (p.End() <= slot.start || slot.End() <= p.start)
    ensures forall b :: DataOf(now, Part(p.start, p.length, b)) == DataOf(was, p)
  {
    var there, here := now[p.start + 2..p.End()], was[p.start + 2..p.End()];
    forall i | 0 <= i < |here| ensures there[i] == here[i] {
      var x := p.start + 2 + i;
      assert now[x] == CopiedAt(was, source.start, slot.start, 2, source.length, x);
    }
    assert there == here;
  }

  /** What a move leaves is in order, with the old place as the waste. */
  lemma MovedOrderly(c: Chain, s: int, d: int, size: int)
    requires Movable(c, s, d) && Orderly(Lives(c, {}), {}, size) && s > 0
    ensures Blank(c) ==> Blank(Swapped(c, s, d))
    ensures Orderly(Lives(Swapped(c, s, d), {}), {c[s].start}, size)
    ensures Lives(Swapped(c, s, d), {c[s].start}) == Image(Step(c[s].start, c[d].start), Lives(c, {}))
  {
    hide Linked;
    var e, f, lives := Swapped(c, s, d), Step(c[s].start, c[d].start), Lives(c, {});
    var tmp := e[s];
    SwappedLives(c, s, d);
    StepInjective(c, s, d);
    LinkedMoved(f, lives);
    CopyFits(c, s, d, size);
    SwappedTmp(c, s, d);
    ApaChain.Apart(c, 0, s);
    LinkedAdd(Lives(e, {tmp.start}), Lives(e, {}), tmp);
    hide Swapped, Redirected;
    PlainMoved(c, s, d, size);
    TidyMoved(c, s, d, lives, Lives(e, {}), tmp, f);
  }

  lemma SwappedTmp(c: Chain, s: int, d: int)
    requires Movable(c, s, d)
    ensures Swapped(c, s, d)[s] == Part(c[s].start, c[s].length, TmpBody(c[s].body.ptype))
    ensures Swapped(c, s, d)[s] in Lives(Swapped(c, s, d), {})
    ensures Lives(Swapped(c, s, d), {}) == Lives(Swapped(c, s, d), {c[s].start}) + {Swapped(c, s, d)[s]}
    ensures Blank(c) ==> Blank(Swapped(c, s, d))
  {
    hide Linked, Redirected;
    var e := Swapped(c, s, d);
    forall k | 0 <= k < |c|
      ensures e[k] == c[k].(body := NewBody(c, s, d, k)) && (k != s ==> e[k].start != c[s].start) {
      SwappedAt(c, s, d, k);
    }
    SwappedAt(c, s, d, s);
    forall p: Part ensures p in Lives(e, {}) <==> p in Lives(e, {c[s].start}) + {e[s]} {
    }
    if Blank(c) {
      forall k | 0 <= k < |c| ensures NamedBody(e[k].body) {
        assert NamedBody(c[k].body);
      }
    }
  }

  /** What the switch leaves says only of what type it was, and that it is left over. */
  lemma LeftOver(c: Chain, s: int, d: int)
    requires Movable(c, s, d)
    ensures 0 <= s < |c|
    ensures Swapped(c, s, d)[s] == Part(c[s].start, c[s].length, Body(c[s].body.ptype, 0, "_tmp", 0, 0, 0, []))
  {
    SwappedTmp(c, s, d);
    hide Linked, Swapped;
  }

  lemma LinkedAdd(lives: set<Part>, all: set<Part>, tmp: Part)
    requires Linked(lives) && all == lives + {tmp} && !IsSub(tmp.body) && tmp.body.nsub == 0 && tmp.body.subs == []
    requires forall p :: p in lives ==> p.start != tmp.start
    ensures Linked(all)
  {
    forall p | p in all ensures LinkedAt(all, p) {
      if p in lives {
        assert LinkedAt(lives, p);
        if !IsSub(p.body) {
          forall i | 0 <= i < p.body.nsub ensures HasSub(all, p, i) {
            assert HasSub(lives, p, i);
          }
        }
      }
    }
  }

  lemma PlainMoved(c: Chain, s: int, d: int, size: int)
    requires Movable(c, s, d) && Plain(Lives(c, {}), size) && s > 0
    requires 0 <= c[d].start && c[d].End() <= size
    ensures Plain(Lives(Swapped(c, s, d), {}), size)
  {
    hide Linked, Redirected, Swapped;
    var e, f, lives := Swapped(c, s, d), Step(c[s].start, c[d].start), Lives(c, {});
    SwappedLives(c, s, d);
    SwappedTmp(c, s, d);
    assert c[s] in lives;
    assert PlainPart(c[s], size);
    ApaChain.Apart(c, 0, s);
    if d > 0 {
      ApaChain.Apart(c, 0, d);
    }
    forall q | q in Lives(e, {}) ensures PlainPart(q, size) {
      if q != e[s] {
        var p :| p in lives && q == Moved(f, p);
        assert PlainPart(p, size);
        if p.start == c[s].start {
          LivesSame(c, p, c[s]);
        }
      }
    }
  }

  lemma LivesSame(c: Chain, p: Part, q: Part)
    requires Tiled(c) && p in c && q in c && p.start == q.start
    ensures p == q
  {
    if p != q {
      LivesApart(c, {}, p, q);
    }
  }

  lemma TidyMoved(c: Chain, s: int, d: int, lives: set<Part>, after: set<Part>, tmp: Part, f: map<int, int>)
    requires Tidy(lives, {}) && after == Image(f, lives) + {tmp}
    requires IsTmp(tmp) && tmp.body.nsub == 0
    ensures Tidy(after, {tmp.start})
  {
    hide Redirected;
    assert WasteOf(tmp) == {tmp.start};
    forall q | q in after && q.start != tmp.start ensures !IsTmp(q) {
      var p :| p in lives && q == Moved(f, p);
    }
  }

  // ----- runs of moves -----

  /** The other half of the block that partition k and it would form is free, or, at the end of
      the chain, missing. */
  predicate BuddyFree(c: Chain, k: int, size: int)
    requires 0 <= k < |c| && size > 0
  {
    if c[k].start % (size * 2) == 0 then k == |c| - 1 || FreeSlot(c[k + 1], size)
    else k > 0 && FreeSlot(c[k - 1], size)
  }

  /** Partition k may be moved. */
  predicate Candidate(c: Chain, k: int, size: int, mode: bool)
    requires 0 <= k < |c| && size > 0
  {
    c[k].length == size && c[k].Used() && (mode ==> BuddyFree(c, k, size))
  }

  /** The sum of the addresses. */
  function Total(c: Chain, f: map<int, int>): int
  {
    if c == [] then 0 else Total(c[..|c| - 1], f) + At(f, c[|c| - 1].start)
  }

  lemma {:induction false} TotalFalls(c: Chain, f: map<int, int>, g: map<int, int>)
    requires forall i :: 0 <= i < |c| ==> 0 <= At(g, c[i].start) <= At(f, c[i].start)
    ensures 0 <= Total(c, g) <= Total(c, f)
    ensures (exists i :: 0 <= i < |c| && At(g, c[i].start) < At(f, c[i].start)) ==> Total(c, g) < Total(c, f)
  {
    if c != [] {
      var n := |c| - 1;
      assert forall i :: 0 <= i < n ==> c[..n][i] == c[i];
      TotalFalls(c[..n], f, g);
      if i :| 0 <= i < |c| && At(g, c[i].start) < At(f, c[i].start) {
        assert i < n ==> At(g, c[..n][i].start) < At(f, c[..n][i].start);
      }
    }
  }

  /** Partitions only ever move down. */
  ghost predicate Lowering(f: map<int, int>)
  {
    forall x :: x in f ==> 0 <= f[x] <= x
  }

  /** What has become of the partitions of the start: they are where f says, with their data. */
  ghost predicate CarriedTo(c: Chain, waste: set<int>, now: seq<int>, lives: set<Part>, was: seq<int>, f: map<int, int>)
  {
    && Lives(c, waste) == Image(f, lives) && Preserved(f, lives, was, now)
    && Covers(f, lives) && Injective(f, lives) && Lowering(f) && Linked(lives)
  }

  /** A committed table shows every partition of the start somewhere, references and all. */
  ghost predicate Faithful(commit: Commit, lives: set<Part>)
  {
    Tiled(commit.chain) && Holds(commit.disk, commit.chain) && exists f, waste :: Shows(commit.chain, waste, lives, f)
  }

  ghost predicate AllFaithful(log: seq<Commit>, from: int, lives: set<Part>)
  {
    forall k :: 0 <= from <= k < |log| ==> Faithful(log[k], lives)
  }

  lemma KeptFaithful(log: seq<Commit>, from: int, mid: int, waste: set<int>, now: set<Part>, lives: set<Part>,
                     f: map<int, int>)
    requires 0 <= from <= mid <= |log| && Kept(log, mid, waste, now) && now == Image(f, lives)
    requires Covers(f, lives) && Injective(f, lives)
    requires forall k :: from <= k < mid ==> Faithful(log[k], lives)
    ensures AllFaithful(log, from, lives)
  {
    hide Holds, Tiled, Covers, Injective, Image, Lives;
    forall k | from <= k < |log| ensures Faithful(log[k], lives) {
      if k >= mid {
        assert KeptAt(log[k], waste, now);
        assert Shows(log[k].chain, waste, lives, f);
      }
    }
  }

  /** One more move. */
  lemma CarriedStep(c: Chain, s: int, d: int, lives: set<Part>, was: seq<int>, mid: seq<int>, now: seq<int>,
                    f: map<int, int>)
    requires Movable(c, s, d) && c[d].start < c[s].start && 0 <= c[d].start
    requires CarriedTo(c, {}, mid, lives, was, f)
    requires Preserved(Step(c[s].start, c[d].start), Lives(c, {}), mid, now)
    ensures CarriedTo(Swapped(c, s, d), {c[s].start}, now, lives, was, Then(f, Step(c[s].start, c[d].start)))
  {
    hide Linked, Swapped, Redirected;
    var g := Step(c[s].start, c[d].start);
    SwappedLives(c, s, d);
    ImageThen(f, g, lives);
    StepInjective(c, s, d);
    PreservedThen(f, g, lives, was, mid, now);
    InjectiveThen(f, g, lives);
  }

  lemma InjectiveThen(f: map<int, int>, g: map<int, int>, lives: set<Part>)
    requires Covers(f, lives) && Injective(f, lives) && Injective(g, Image(f, lives))
    ensures Injective(Then(f, g), lives)
  {
    forall p, q | p in lives && q in lives && At(Then(f, g), p.start) == At(Then(f, g), q.start)
      ensures p.start == q.start {
      assert Moved(f, p) in Image(f, lives) && Moved(f, q) in Image(f, lives);
    }
  }

  lemma PreservedThen(f: map<int, int>, g: map<int, int>, lives: set<Part>, was: seq<int>, mid: seq<int>, now: seq<int>)
    requires Linked(lives) && Covers(f, lives)
    requires Preserved(f, lives, was, mid) && Preserved(g, Image(f, lives), mid, now)
    ensures Preserved(Then(f, g), lives, was, now)
  {
    hide Linked, Redirected, DataOf;
    forall p | p in lives ensures DataOf(now, Moved(Then(f, g), p)) == DataOf(was, p) {
      LinkedRefs(f, lives, p);
      RedirectedThen(f, g, p.body);
      assert Moved(f, p) in Image(f, lives);
    }
  }

  lemma CarriedFrom(c0: Chain, waste: set<int>, c: Chain, s: int, lives: set<Part>, f: map<int, int>) returns (i: nat)
    requires 0 <= s < |c| && c[s].Used() && lives == Lives(c0, waste) && Lives(c, {}) == Image(f, lives)
    ensures i < |c0| && c0[i] in lives && At(f, c0[i].start) == c[s].start
  {
    hide Redirected;
    assert c[s] in Lives(c, {});
    var p :| p in lives && Moved(f, p) == c[s];
    i :| 0 <= i < |c0| && c0[i] == p;
  }

  lemma ThenLowers(f: map<int, int>, from: int, to: int, x: int)
    requires 0 <= to < from && Lowering(f) && x >= 0
    ensures 0 <= At(Then(f, Step(from, to)), x) <= At(f, x)
    ensures x in f && At(f, x) == from ==> At(Then(f, Step(from, to)), x) < At(f, x)
  {
  }

  /** Every move brings the sum of the addresses down. */
  lemma StepFalls(c0: Chain, waste: set<int>, c: Chain, s: int, d: int, lives: set<Part>, f: map<int, int>)
    requires Movable(c, s, d) && 0 <= c[d].start < c[s].start && lives == Lives(c0, waste)
    requires Lives(c, {}) == Image(f, lives) && Covers(f, lives) && Lowering(f)
    requires forall i :: 0 <= i < |c0| ==> c0[i].start >= 0
    ensures 0 <= Total(c0, Then(f, Step(c[s].start, c[d].start))) < Total(c0, f)
  {
    var i := CarriedFrom(c0, waste, c, s, lives, f);
    assert c0[i].start in f;
    hide *;
    var g := Then(f, Step(c[s].start, c[d].start));
    forall k | 0 <= k < |c0| ensures 0 <= At(g, c0[k].start) <= At(f, c0[k].start) {
      ThenLowers(f, c[s].start, c[d].start, c0[k].start);
    }
    ThenLowers(f, c[s].start, c[d].start, c0[i].start);
    TotalFalls(c0, f, g);
  }

  /** Removing what was left over changes nothing for the partitions carried. */
  lemma CarriedSame(c: Chain, waste: set<int>, mid: seq<int>, e: Chain, now: seq<int>, lives: set<Part>, was: seq<int>,
                    f: map<int, int>)
    requires CarriedTo(c, waste, mid, lives, was, f) && Lives(e, {}) == Lives(c, waste)
    requires SameData(Lives(e, {}), mid, now)
    ensures CarriedTo(e, {}, now, lives, was, f)
  {
    hide Linked, Redirected, DataOf, Lives, Moved;
    forall p | p in lives ensures DataOf(now, Moved(f, p)) == DataOf(was, p) {
      assert Moved(f, p) in Image(f, lives);
    }
  }

  lemma CarriedShows(c: Chain, waste: set<int>, now: seq<int>, lives: set<Part>, was: seq<int>, f: map<int, int>)
    requires CarriedTo(c, waste, now, lives, was, f)
    ensures Lives(c, waste) == Image(f, lives) && Covers(f, lives) && Injective(f, lives) && Lowering(f)
    ensures Linked(lives)
    ensures Shows(c, waste, lives, f) && Preserved(f, lives, was, now)
  {
    hide Linked, Image, Lives, Covers, Injective, Lowering, Preserved;
  }

  lemma OneMoreFaithful(log: seq<Commit>, from: int, lives: set<Part>, c: Chain, disk: Table, waste: set<int>,
                        f: map<int, int>)
    requires 0 <= from <= |log| && AllFaithful(log, from, lives) && Sound(c) && Holds(disk, c)
    requires Shows(c, waste, lives, f)
    ensures AllFaithful(log + [Commit(disk, c)], from, lives)
  {
    hide Holds, Shows;
    assert Faithful(Commit(disk, c), lives);
  }

  lemma PackedSome(c: Chain, d: int, size: int)
    requires size > 0 && 0 <= d < |c| && forall k :: 0 <= k < d ==> !FreeSlot(c[k], size)
    requires forall k :: d < k < |c| ==> !Candidate(c, k, size, false)
    ensures Packed(c, size)
  {
    forall i, j | 0 <= i < j < |c| && FreeSlot(c[i], size) ensures c[j].length != size || !c[j].Used() {
      assert d <= i;
      var moves := Candidate(c, j, size, false);
    }
  }

  /** What the search goes for: the first free slot of the size, and above it the last partition of the size whose
      buddy is free, or, if there is none, the last of the size. */
  ghost predicate Chosen(c: Chain, d: int, s: int, size: int)
  {
    && size > 0 && 0 <= d < s < |c| && FreeSlot(c[d], size) && (forall k :: 0 <= k < d ==> !FreeSlot(c[k], size))
    && exists mode :: LastCandidate(c, d, s, size, mode)
  }

  ghost predicate LastCandidate(c: Chain, d: int, s: int, size: int, mode: bool)
    requires size > 0 && 0 <= d < s < |c|
  {
    && Candidate(c, s, size, mode) && (forall k :: s < k < |c| ==> !Candidate(c, k, size, mode))
    && (!mode ==> forall k :: d < k < |c| ==> !Candidate(c, k, size, true))
  }

  lemma ChosenNow(c: Chain, d: int, s: int, size: int, mode: bool)
    requires size > 0 && 0 <= d < s < |c| && FreeSlot(c[d], size) && (forall k :: 0 <= k < d ==> !FreeSlot(c[k], size))
    requires LastCandidate(c, d, s, size, mode)
    ensures Chosen(c, d, s, size)
  {
  }

  /** What the search found may be moved. */
  lemma ChosenMovable(df: Defragmenter, s: int, d: int, size: int, mode: bool)
    requires df.Ready({}) && size > 0 && 0 < d < s < |df.table.chain|
    requires FreeSlot(df.table.chain[d], size) && Candidate(df.table.chain, s, size, mode)
    ensures Movable(df.table.chain, s, d) && df.table.chain[s].Used() && !df.table.chain[d].Used()
    ensures df.table.chain[d].length == df.table.chain[s].length
    ensures 0 <= df.table.chain[d].start < df.table.chain[s].start
  {
    var c := df.table.chain;
    ReadyFacts(df, {});
    hide Linked, BuddyFree, Plain, Tidy;
    ApaChain.Apart(c, d, s);
    ApaChain.Apart(c, 0, d);
  }

  lemma NothingSince(lives: set<Part>, history: seq<Event>)
    ensures Clear(lives, history, |history|)
  {
  }

  function Wipes(wiped: seq<int>): seq<Event>
  {
    if wiped == [] then [] else [Wrote(wiped[0], [0, 0])]
  }

  /** Two sectors were blanked, where that is allowed, or none. */
  ghost predicate WipedOk(wiped: seq<int>, c: Chain, was: seq<int>, now: seq<int>)
  {
    if wiped == [] then now == was
    else Writable(c, {}, |was|, wiped[0], 2) && now == Overlaid(was, wiped[0], [0, 0])
  }

  lemma NothingWiped(history: seq<Event>, log: seq<Commit>, c: Chain, data: seq<int>)
    ensures history + CommittedEach(log[|log|..]) + Wipes([]) == history && WipedOk([], c, data, data)
  {
  }

  /** A move is a copy of the data and then the commit of the new headers. */
  ghost predicate MoveTrace(source: Part, dest: int, was: seq<int>, now: seq<int>, h0: seq<Event>, h: seq<Event>,
                            commit: Commit)
  {
    && 0 <= source.start && 0 < source.length && source.End() <= |was| && source.length % IOBUFFER_SECTORS == 0
    && Copied(was, now, source.start, dest, 2, source.length)
    && h == h0 + CopyEvents(was, dest, source.start, source.length / IOBUFFER_SECTORS) + [Committed(commit)]
  }

  lemma MoveTraced(source: Part, dest: int, was: seq<int>, now: seq<int>, h0: seq<Event>, h: seq<Event>, commit: Commit,
                   lives: set<Part>)
    requires 0 <= source.start && 0 < source.length && source.End() <= |was| && source.length % IOBUFFER_SECTORS == 0
    requires Copied(was, now, source.start, dest, 2, source.length)
    requires h == h0 + CopyEvents(was, dest, source.start, source.length / IOBUFFER_SECTORS) && Clear(lives, h, |h0|)
    ensures MoveTrace(source, dest, was, now, h0, h + [Committed(commit)], commit)
    ensures Clear(lives, h + [Committed(commit)], |h0|)
  {
    hide Copied, CopyEvents, Beside;
  }

  /** Where a left-over partition was, neither a partition in use nor a header is. */
  lemma TmpWritable(c: Chain, t: int, e: Chain, waste: set<int>, size: int)
    requires Tiled(c) && Tiled(e) && 0 <= t < |c| && NewStarts(c, e, {}) && Lives(e, {}) == Lives(c, waste)
    requires c[t].length >= HDSK_MIN_PART_SIZE && Beside(Lives(c, waste), c[t].start + 0x2000, 2)
    requires 0 <= c[t].start && c[t].start + 0x2002 <= size
    ensures Writable(e, {}, size, c[t].start + 0x2000, 2)
  {
    var lba := c[t].start + 0x2000;
    FirstBefore(e, lba);
    hide Beside, Lives, Tiled, HeaderSector, NewStarts;
    forall x | lba <= x < lba + 2 ensures !HeaderSector(e, x) {
      NoHeaderWithin(c, t, e, x);
    }
  }

  lemma FirstBefore(e: Chain, lba: int)
    requires Tiled(e) && lba >= 0 && Beside(Lives(e, {}), lba, 2)
    ensures e != [] && e[0].End() <= lba
  {
    FirstWithin(e, lba);
    hide Within;
  }

  lemma FirstWithin(e: Chain, x: int)
    requires Tiled(e)
    ensures 0 <= x < e[0].End() ==> Within(Lives(e, {}), x)
  {
    assert e[0] in Lives(e, {});
  }

  lemma NoHeaderWithin(c: Chain, t: int, e: Chain, x: int)
    requires Tiled(c) && 0 <= t < |c| && NewStarts(c, e, {}) && c[t].start + 2 <= x < c[t].End()
    ensures !HeaderSector(e, x)
  {
    forall i | 0 <= i < |e| ensures x != e[i].start && x != e[i].start + 1 {
      assert IsStart(c, e[i].start);
      var k :| 0 <= k < |c| && c[k].start == e[i].start;
      if k != t {
        ApaChain.Apart(c, k, t);
      }
    }
  }

  lemma NothingWritten(lives: set<Part>, h0: seq<Event>, was: seq<int>, to: int, from: int)
    requires 0 <= from <= |was|
    ensures h0 + CopyEvents(was, to, from, 0) == h0 && Clear(lives, h0, |h0|)
  {
  }

  /** One transfer more of a copy. */
  lemma CopyMore(lives: set<Part>, h0: seq<Event>, h: seq<Event>, was: seq<int>, now: seq<int>, to: int, from: int,
                 i: nat, length: int)
    requires 0 <= from && from + length <= |was| && 0 <= to && to + length <= |was|
    requires from + length <= to || to + length <= from
    requires (i + 1) * IOBUFFER_SECTORS <= length && Copied(was, now, from, to, 2, Skip(i))
    requires h == h0 + CopyEvents(was, to, from, i) && Clear(lives, h, |h0|) && Beside(lives, to, length)
    ensures |now| == |was| && from + Skip(i) >= 0 && Skip(i) <= (i + 1) * IOBUFFER_SECTORS
    ensures
      var buffer := now[from + Skip(i)..from + (i + 1) * IOBUFFER_SECTORS];
      && Copied(was, Overlaid(now, to + Skip(i), buffer), from, to, 2, (i + 1) * IOBUFFER_SECTORS)
      && |Overlaid(now, to + Skip(i), buffer)| == |was|
      && h + [Wrote(to + Skip(i), buffer)] == h0 + CopyEvents(was, to, from, i + 1)
      && Clear(lives, h + [Wrote(to + Skip(i), buffer)], |h0|)
  {
    hide *;
    var a, b := Skip(i), (i + 1) * IOBUFFER_SECTORS;
    SkipBounds(i + 1, length);
    SkipMore(i);
    CopiedLength(was, now, from, to, 2, a);
    CopiedSource(was, now, from, to, a, b, length);
    CopyStep(was, now, from, to, 2, a, b - a);
    var buffer := now[from + a..from + b];
    CopiedLength(was, Overlaid(now, to + a, buffer), from, to, 2, b);
    CopySnoc(was, to, from, i, buffer);
    assert h + [Wrote(to + a, buffer)] == h0 + (CopyEvents(was, to, from, i) + [Wrote(to + a, buffer)]);
    BesidePart(lives, to, length, to + a, b - a);
    ClearMore(lives, h, |h0|, to + a, buffer);
  }

  lemma SkipMore(i: nat)
    ensures Skip(i + 1) == (i + 1) * IOBUFFER_SECTORS
  {
  }

  lemma CopySnoc(was: seq<int>, to: int, from: int, i: nat, buffer: seq<int>)
    requires 0 <= from && from + (i + 1) * IOBUFFER_SECTORS <= |was| && 2 <= Skip(i) <= (i + 1) * IOBUFFER_SECTORS
    requires buffer == was[from + Skip(i)..from + (i + 1) * IOBUFFER_SECTORS]
    ensures CopyEvents(was, to, from, i + 1) == CopyEvents(was, to, from, i) + [Wrote(to + Skip(i), buffer)]
  {
    SkipMore(i);
    hide Skip;
  }

  lemma BesidePart(lives: set<Part>, lba: int, n: int, low: int, m: int)
    requires Beside(lives, lba, n) && lba <= low && low + m <= lba + n
    ensures Beside(lives, low, m)
  {
    hide Within;
  }

  // ----- the history of a run -----

  /** What happened since h0 is told by the views, the tables committed are those of the log, and
      the last view is how things are. */
  ghost predicate TaleAt(h: seq<Event>, log: seq<Commit>, now: Commit, data: seq<int>, views: seq<View>, h0: nat,
                         from: nat, lives: set<Part>, was: seq<int>, f: map<int, int>)
  {
    && h0 <= |h| && from <= |log| && Told(h[h0..], views, lives, was) && CommitsOf(h[h0..]) == log[from..]
    && var v := views[|views| - 1];
       v.commit == now && v.f == f && v.data == data
  }

  lemma NowIs(table: PartitionTable)
    requires table.Valid()
    ensures Commit(table.disk, table.chain) == CommitAt(table.origin, table.log, |table.log|)
  {
    hide Sited, Batched, Holds, Sound, Bounded;
  }

  lemma TaleStarts(h: seq<Event>, log: seq<Commit>, now: Commit, was: seq<int>, waste: set<int>, lives: set<Part>,
                   f: map<int, int>)
    returns (views: seq<View>)
    requires Sound(now.chain) && Holds(now.disk, now.chain) && CarriedTo(now.chain, waste, was, lives, was, f)
    ensures TaleAt(h, log, now, was, views, |h|, |log|, lives, was, f)
    ensures views == [View(now, waste, f, was, {})]
  {
    hide Holds, Image, Preserved, Covers, Injective, Lowering, Linked, Lives;
    var v := View(now, waste, f, was, {});
    assert h[|h|..] == [] && log[|log|..] == [];
    ToldStart(v, lives, was);
    views := [v];
  }

  lemma TaleRemoved(h: seq<Event>, log0: seq<Commit>, t0: Commit, mid: seq<int>, views0: seq<View>, h0: nat, from: nat,
                    lives: set<Part>, was: seq<int>, f: map<int, int>, waste: set<int>, origin: Commit,
                    log: seq<Commit>, now: Commit, data: seq<int>, wiped: seq<int>) returns (views: seq<View>)
    requires TaleAt(h, log0, t0, mid, views0, h0, from, lives, was, f) && Image(f, lives) == Lives(now.chain, {})
    requires log0 <= log && t0 == CommitAt(origin, log0, |log0|) && now == CommitAt(origin, log, |log|)
    requires Kept(log, |log0|, waste, Lives(now.chain, {})) && WipedOk(wiped, now.chain, mid, data)
    ensures TaleAt(h + CommittedEach(log[|log0|..]) + Wipes(wiped), log, now, data, views, h0, from, lives, was, f)
    ensures views0 <= views
  {
    hide *;
    views := TaleCommits(h, log0, t0, mid, views0, h0, from, lives, was, f, waste, origin, log, now);
    views := TaleWiped(h + CommittedEach(log[|log0|..]), log, now, mid, views, h0, from, lives, was, f, data, wiped);
  }

  lemma TaleCommits(h: seq<Event>, log0: seq<Commit>, t0: Commit, mid: seq<int>, views0: seq<View>, h0: nat, from: nat,
                    lives: set<Part>, was: seq<int>, f: map<int, int>, waste: set<int>, origin: Commit,
                    log: seq<Commit>, now: Commit) returns (views: seq<View>)
    requires TaleAt(h, log0, t0, mid, views0, h0, from, lives, was, f) && Image(f, lives) == Lives(now.chain, {})
    requires log0 <= log && t0 == CommitAt(origin, log0, |log0|) && now == CommitAt(origin, log, |log|)
    requires Kept(log, |log0|, waste, Lives(now.chain, {}))
    ensures TaleAt(h + CommittedEach(log[|log0|..]), log, now, mid, views, h0, from, lives, was, f)
    ensures views0 <= views
  {
    hide *;
    TaleFacts(h, log0, t0, mid, views0, h0, from, lives, was, f);
    var events, more := h[h0..], log[|log0|..];
    KeptEach(log, |log0|, waste, Lives(now.chain, {}));
    views := ToldCommits(events, views0, more, waste, Lives(now.chain, {}), lives, was);
    ToldSize(events + CommittedEach(more), views, lives, was);
    EachCommits(h, h0, log0, from, log);
    NowLast(log0, t0, log, now, origin);
    TaleFold(h + CommittedEach(more), log, now, mid, views, h0, from, lives, was, f);
  }

  lemma NowLast(log0: seq<Commit>, t0: Commit, log: seq<Commit>, now: Commit, origin: Commit)
    requires log0 <= log && t0 == CommitAt(origin, log0, |log0|) && now == CommitAt(origin, log, |log|)
    ensures
      var more := log[|log0|..];
      if more == [] then now == t0 else now == more[|more| - 1]
  {
  }

  lemma TaleFacts(h: seq<Event>, log: seq<Commit>, now: Commit, data: seq<int>, views: seq<View>, h0: nat, from: nat,
                  lives: set<Part>, was: seq<int>, f: map<int, int>)
    requires TaleAt(h, log, now, data, views, h0, from, lives, was, f)
    ensures h0 <= |h| && from <= |log| && Told(h[h0..], views, lives, was) && CommitsOf(h[h0..]) == log[from..]
    ensures views != []
    ensures
      var v := views[|views| - 1];
      v.commit == now && v.f == f && v.data == data
  {
    hide CommitsOf;
    TaleSize(h, log, now, data, views, h0, from, lives, was, f);
    hide Told;
  }

  lemma TaleFold(h: seq<Event>, log: seq<Commit>, now: Commit, data: seq<int>, views: seq<View>, h0: nat, from: nat,
                 lives: set<Part>, was: seq<int>, f: map<int, int>)
    requires h0 <= |h| && from <= |log| && Told(h[h0..], views, lives, was) && CommitsOf(h[h0..]) == log[from..]
    requires views != []
    requires
      var v := views[|views| - 1];
      v.commit == now && v.f == f && v.data == data
    ensures TaleAt(h, log, now, data, views, h0, from, lives, was, f)
  {
    hide CommitsOf, Told;
  }

  lemma KeptEach(log: seq<Commit>, from: nat, waste: set<int>, lives: set<Part>)
    requires from <= |log| && Kept(log, from, waste, lives)
    ensures
      var more := log[from..];
      forall k {:trigger more[k]} :: 0 <= k < |more| ==>
        Tiled(more[k].chain) && Holds(more[k].disk, more[k].chain) && Lives(more[k].chain, waste) == lives
  {
    var more := log[from..];
    hide Lives, Tiled, Holds;
    forall k | 0 <= k < |more|
      ensures Tiled(more[k].chain) && Holds(more[k].disk, more[k].chain) && Lives(more[k].chain, waste) == lives {
      assert KeptAt(log[from + k], waste, lives);
    }
  }

  lemma EachCommits(h: seq<Event>, h0: nat, log0: seq<Commit>, from: nat, log: seq<Commit>)
    requires h0 <= |h| && from <= |log0| && log0 <= log && CommitsOf(h[h0..]) == log0[from..]
    ensures (h + CommittedEach(log[|log0|..]))[h0..] == h[h0..] + CommittedEach(log[|log0|..])
    ensures CommitsOf((h + CommittedEach(log[|log0|..]))[h0..]) == log[from..]
  {
    hide CommitsOf;
    var more := log[|log0|..];
    CommitsOfConcat(h[h0..], CommittedEach(more));
    CommitsOfEach(more);
    assert log[from..] == log0[from..] + more;
    assert (h + CommittedEach(more))[h0..] == h[h0..] + CommittedEach(more);
  }

  lemma TaleWiped(h: seq<Event>, log: seq<Commit>, now: Commit, mid: seq<int>, views0: seq<View>, h0: nat, from: nat,
                  lives: set<Part>, was: seq<int>, f: map<int, int>, data: seq<int>, wiped: seq<int>)
    returns (views: seq<View>)
    requires TaleAt(h, log, now, mid, views0, h0, from, lives, was, f) && Image(f, lives) == Lives(now.chain, {})
    requires WipedOk(wiped, now.chain, mid, data)
    ensures TaleAt(h + Wipes(wiped), log, now, data, views, h0, from, lives, was, f) && views0 <= views
  {
    hide Told, Image, Lives, Writable, Overlaid, CommitsOf;
    if wiped == [] {
      assert h + Wipes(wiped) == h;
      views := views0;
    } else {
      var e, events := Wrote(wiped[0], [0, 0]), h[h0..];
      ToldSize(events, views0, lives, was);
      WipedWritable(views0, events, lives, was, now.chain, wiped[0]);
      var w := ToldWrote(events, views0, wiped[0], [0, 0], lives, was);
      CommitsOfConcat(events, [e]);
      OneWrote(e);
      assert (h + [e])[h0..] == events + [e];
      views := views0 + [w];
    }
  }

  lemma OneWrote(e: Event)
    requires e.Wrote?
    ensures CommitsOf([e]) == []
  {
    assert [e][..0] == [];
  }

  lemma OneCommitted(commit: Commit)
    ensures CommitsOf([Committed(commit)]) == [commit]
  {
    assert [Committed(commit)][..0] == [];
  }

  /** What the view says is in use is in use. */
  lemma ViewLives(events: seq<Event>, views: seq<View>, lives: set<Part>, was: seq<int>)
    requires Told(events, views, lives, was)
    ensures |views| > 0
    ensures
      var v := views[|views| - 1];
      Lives(v.commit.chain, v.waste) == Image(v.f, lives) && Covers(v.f, lives) && Injective(v.f, lives)
  {
    hide Happens, Lives, Image, Preserved, Covers, Injective;
    assert Faithfully(views[|views| - 1], lives, was);
  }

  lemma WipedWritable(views: seq<View>, events: seq<Event>, lives: set<Part>, was: seq<int>, c: Chain, lba: int)
    requires Told(events, views, lives, was)
    requires
      var v := views[|views| - 1];
      v.commit.chain == c && Image(v.f, lives) == Lives(c, {}) && Writable(c, {}, |v.data|, lba, 2)
    ensures
      var v := views[|views| - 1];
      Writable(c, v.waste, |v.data|, lba, 2)
  {
    ViewLives(events, views, lives, was);
    hide Told, Image, Lives, Beside, HeaderSector;
  }

  lemma TaleMoved(h: seq<Event>, log0: seq<Commit>, t0: Commit, mid: seq<int>, views0: seq<View>, h0: nat, from: nat,
                  lives: set<Part>, was: seq<int>, f: map<int, int>, s: int, d: int, now: Commit, data: seq<int>,
                  h1: seq<Event>)
    returns (views: seq<View>)
    requires TaleAt(h, log0, t0, mid, views0, h0, from, lives, was, f) && Image(f, lives) == Lives(t0.chain, {})
    requires Movable(t0.chain, s, d) && Plain(Lives(t0.chain, {}), |mid|) && now.chain == Swapped(t0.chain, s, d)
    requires d > 0
    requires Tiled(now.chain) && Holds(now.disk, now.chain)
    requires MoveTrace(t0.chain[s], t0.chain[d].start, mid, data, h, h1, now)
    requires
      var g := Then(f, Step(t0.chain[s].start, t0.chain[d].start));
      Shows(now.chain, {t0.chain[s].start}, lives, g) && Preserved(g, lives, was, data)
    ensures
      TaleAt(h1, log0 + [now], now, data, views, h0, from, lives, was,
        Then(f, Step(t0.chain[s].start, t0.chain[d].start)))
    ensures views0 <= views
  {
    hide Told, Movable, Plain, PlainPart, Swapped, Tiled, Holds, MoveTrace, Shows, Preserved, Copied, CopyEvents,
      CommitsOf;
    hide Refreshed, Writable, Beside, Lives, Image, Covers, Injective, Skip, Sectors, Then;
    MovableTiled(t0.chain, s, d);
    TaleSize(h, log0, t0, mid, views0, h0, from, lives, was, f);
    var c, events := t0.chain, h[h0..];
    var to, start, length := c[d].start, c[s].start, c[s].length;
    var n := length / IOBUFFER_SECTORS;
    ViewLives(events, views0, lives, was);
    CopyFits(c, s, d, |mid|);
    MoveWhole(c[s], |mid|);
    MoveTraceFacts(c[s], to, mid, data, h, h1, now);
    SlotWritable(c, views0[|views0| - 1].waste, d, |mid|);
    var copied := ToldCopy(events, views0, to, start, n, length, lives, was);
    var copying := CopyEvents(mid, to, start, n);
    ViewLives(events + copying, copied, lives, was);
    var u := copied[|copied| - 1];
    CopiedUnique(mid, u.data, data, start, to, 2, length);
    AllRefreshed(u.recent, views0[|views0| - 1].recent, c[s], to);
    var w := ToldSwap(events + copying, copied, c, s, d, now.disk, lives, was);
    views := copied + [w];
    CopyCommits(mid, to, start, n);
    MoveCommits(h, h0, copying, now, log0, from);
  }

  lemma MovableTiled(c: Chain, s: int, d: int)
    requires Movable(c, s, d)
    ensures Tiled(c) && 0 <= s < |c| && 0 <= d < |c| && c[s].length == c[d].length
  {
    hide Linked, Tiled;
  }

  lemma MoveWhole(p: Part, size: int)
    requires PlainPart(p, size)
    ensures p.length >= 2 && p.length / IOBUFFER_SECTORS * IOBUFFER_SECTORS == p.length
    ensures p.length / IOBUFFER_SECTORS > 0 && Skip(p.length / IOBUFFER_SECTORS) == p.length
    ensures 0 <= p.start && p.End() <= size
  {
  }

  lemma MoveTraceFacts(source: Part, dest: int, was: seq<int>, now: seq<int>, h0: seq<Event>, h: seq<Event>,
                       commit: Commit)
    requires MoveTrace(source, dest, was, now, h0, h, commit)
    ensures 0 <= source.start && 0 < source.length && source.End() <= |was|
    ensures source.length / IOBUFFER_SECTORS * IOBUFFER_SECTORS == source.length
    ensures Copied(was, now, source.start, dest, 2, source.length)
    ensures h == h0 + CopyEvents(was, dest, source.start, source.length / IOBUFFER_SECTORS) + [Committed(commit)]
  {
    hide Copied, CopyEvents;
  }

  lemma AllRefreshed(recent: set<int>, before: set<int>, p: Part, to: int)
    requires recent == before + Sectors(to + 2, p.length - 2)
    ensures Refreshed(recent, p, to)
  {
  }

  lemma MoveCommits(h: seq<Event>, h0: nat, copying: seq<Event>, now: Commit, log0: seq<Commit>, from: nat)
    requires h0 <= |h| && from <= |log0| && CommitsOf(h[h0..]) == log0[from..] && CommitsOf(copying) == []
    ensures (h + copying + [Committed(now)])[h0..] == h[h0..] + copying + [Committed(now)]
    ensures CommitsOf((h + copying + [Committed(now)])[h0..]) == (log0 + [now])[from..]
  {
    hide CommitsOf;
    CommitsOfConcat(h[h0..], copying);
    CommitsOfConcat(h[h0..] + copying, [Committed(now)]);
    OneCommitted(now);
    assert (h + copying + [Committed(now)])[h0..] == h[h0..] + copying + [Committed(now)];
  }

  lemma {:induction false} CopyCommits(was: seq<int>, to: int, from: int, n: nat)
    requires 0 <= from && from + n * IOBUFFER_SECTORS <= |was|
    ensures CommitsOf(CopyEvents(was, to, from, n)) == []
  {
    if n > 0 {
      CopyCommits(was, to, from, n - 1);
      CommitsOfConcat(CopyEvents(was, to, from, n - 1), [CopyEvent(was, to, from, n - 1)]);
      OneWrote(CopyEvent(was, to, from, n - 1));
    }
  }

  class Defragmenter {
    const table: PartitionTable
    var data: seq<int>
    ghost var history: seq<Event>

    constructor (table: PartitionTable, data: seq<int>)
      ensures this.table == table && this.data == data && history == []
    {
      this.table, this.data, this.history := table, data, [];
    }

    /** The table is in order and nothing but the waste is left over. */
    ghost predicate Ready(waste: set<int>)
      reads this`data, table
    {
      && table.Valid() && Blank(table.chain)
      && Orderly(Lives(table.chain, {}), waste, |data|)
    }

    // ----- copying -----

    method Transfer(from: int, to: int, n: int)
      requires 0 <= from && 0 <= n && from + n <= |data| && 0 <= to && to + n <= |data|
      modifies this`data, this`history
      ensures data == Overlaid(old(data), to, old(data)[from..from + n])
      ensures history == old(history) + [Wrote(to, old(data)[from..from + n])]
    {
      var buffer := data[from..from + n];
      data := data[..to] + buffer + data[to + n..];
      history := history + [Wrote(to, buffer)];
    }

    /** Copies all but the header, a buffer at a time. */
    method CopyPartition(dest: int, start: int, length: int, ghost lives: set<Part>)
      requires length > 0 && length % IOBUFFER_SECTORS == 0
      requires 0 <= start && start + length <= |data| && 0 <= dest && dest + length <= |data|
      requires start + length <= dest || dest + length <= start
      requires Beside(lives, dest, length)
      modifies this`data, this`history
      ensures Copied(old(data), data, start, dest, 2, length)
      ensures history == old(history) + CopyEvents(old(data), dest, start, length / IOBUFFER_SECTORS)
      ensures Clear(lives, history, |old(history)|)
    {
      hide Copied, Overlaid, Within, CopyEvents, CopyEvent, Clear, Beside;
      var blocks := length / IOBUFFER_SECTORS;
      ghost var was, h0 := data, history;
      NothingCopied(was, start, dest);
      NothingWritten(lives, h0, was, dest, start);
      CopyMore(lives, h0, h0, was, data, dest, start, 0, length);
      Transfer(start + 2, dest + 2, IOBUFFER_SECTORS - 2);
      var i := 1;
      while i < blocks
        invariant 1 <= i <= blocks && |data| == |was|
        invariant Copied(was, data, start, dest, 2, i * IOBUFFER_SECTORS)
        invariant history == h0 + CopyEvents(was, dest, start, i) && Clear(lives, history, |h0|)
      {
        CopyMore(lives, h0, history, was, data, dest, start, i, length);
        Transfer(start + i * IOBUFFER_SECTORS, dest + i * IOBUFFER_SECTORS, IOBUFFER_SECTORS);
        i := i + 1;
      }
    }

    // ----- removing what is left over -----

    /** Looks for a main partition called _tmp, from the first header on. */
    method FindTmp(ghost waste: set<int>) returns (found: bool, at: int, ghost t: int)
      requires Ready(waste)
      ensures found ==> 0 < t < |table.chain| && at == table.chain[t].start && table.chain[t] in Lives(table.chain, {})
      ensures found ==> IsTmp(table.chain[t]) && waste == WasteOf(table.chain[t])
      ensures !found ==> waste == {}
    {
      hide PartitionTable.Recorded;
      hide WasteOf, Lives, Linked, Plain, Tidy, Orderly;
      ghost var c := table.chain;
      at, t := 0, 0;
      while true
        invariant 0 <= t < |c| && at == c[t].start && forall k :: 0 <= k < t ==> !IsTmp(c[k])
        decreases |c| - t
      {
        assert HoldsAt(table.heads, c, t);
        var header := table.Get(at);
        if !IsSub(header.body) {
          if header.body.id == "_tmp" {
            TmpIs(c, t, waste, |data|);
            return true, at, t;
          }
        }
        at := header.next;
        NextOf(c, t);
        if at == 0 {
          NoneLeft(c, waste, |data|);
          return false, at, t;
        }
        t := t + 1;
      }
    }

    /** On the way of a removal: the partitions at `gone` are deleted. */
    ghost predicate Removing(c0: Chain, start: set<Part>, gone: set<int>, waste: set<int>, lives: set<Part>, from: int)
      reads this, table
    {
      && table.Valid() && NewStarts(c0, table.chain, {}) && Blank(table.chain) && ThinsBelow(c0, waste, table.chain)
      && Lives(table.chain, {}) == Minus(start, gone) && gone <= waste && Lives(table.chain, waste) == lives
      && 0 <= from <= |table.log| && Kept(table.log, from, waste, lives)
    }

    method DeleteAt(sector: int, ghost p: Part, ghost c0: Chain, ghost start: set<Part>, ghost gone: set<int>,
                    ghost waste: set<int>, ghost lives: set<Part>, ghost from: int) returns (result: int)
      requires Removing(c0, start, gone, waste, lives, from)
      requires p in Minus(start, gone) && p.start == sector != 0 && sector in waste
      modifies table
      ensures result == 0 && Removing(c0, start, gone + {sector}, waste, lives, from) && old(table.log) <= table.log
    {
      hide PartitionTable.Recorded;
      hide Deleted, Minus, Sound, Holds, NewStarts, ThinsBelow;
      ghost var c := table.chain;
      PartAt(c, p);
      ghost var i :| 0 < i < |c| && c[i] == p;
      DeletedLives(c, i);
      DeletedBlank(c, i);
      DeletedBelow(c0, waste, c, i);
      DeletedStarts(c, i);
      StartsTrans(c0, c, Deleted(c, i));
      MinusMore(start, gone, sector, waste);
      ghost var before := |table.log|;
      result := table.Delete(sector, i);
      KeptMore(table.log, from, before, c, sector, waste, lives);
      LivesMinus(c, waste);
      LivesMinus(table.chain, waste);
      MinusMore(start, gone + {sector}, sector, waste);
    }

    /** Deletes the subs on the list, the last first. */
    method DeleteSubs(header: Header, ghost c0: Chain, ghost tmp: Part, ghost all: set<Part>, ghost start: set<Part>,
                      ghost waste: set<int>, ghost lives: set<Part>, ghost from: int, ghost size: int)
      requires header.body == tmp.body && waste == WasteOf(tmp)
      requires Linked(all) && Plain(all, size) && tmp in all && !IsSub(tmp.body)
      requires forall q :: q in all && q != tmp ==> q in start
      requires Removing(c0, start, {}, waste, lives, from)
      modifies table
      ensures Removing(c0, start, SubStarts(tmp.body, -1), waste, lives, from) && old(table.log) <= table.log
    {
      hide *;
      AllSubs(all, tmp);
      var sub := header.body.nsub - 1;
      NoneBelow(all, tmp);
      while sub != -1
        invariant -1 <= sub < header.body.nsub
        invariant Removing(c0, start, SubStarts(tmp.body, sub), waste, lives, from) && old(table.log) <= table.log
      {
        ghost var p := SubThere(all, start, tmp, sub, size);
        var rv := DeleteAt(header.body.subs[sub].start, p, c0, start, SubStarts(tmp.body, sub), waste, lives, from);
        sub := sub - 1;
      }
    }

    /** Deletes a left-over partition and its subs, and wipes two of its sectors. */
    method RemoveFound(at: int, ghost t: int, ghost waste: set<int>)
      requires Ready(waste) && 0 < t < |table.chain| && at == table.chain[t].start
      requires table.chain[t] in Lives(table.chain, {})
      requires IsTmp(table.chain[t]) && waste == WasteOf(table.chain[t])
      modifies this`data, this`history, table
      ensures Ready({}) && Lives(table.chain, {}) == Lives(old(table.chain), waste)
      ensures SameData(Lives(table.chain, {}), old(data), data)
      ensures old(table.log) <= table.log && Kept(table.log, |old(table.log)|, waste, Lives(table.chain, {}))
      ensures history == old(history) + CommittedEach(table.log[|old(table.log)|..]) + [Wrote(at + 0x2000, [0, 0])]
      ensures Writable(table.chain, {}, |old(data)|, at + 0x2000, 2) && data == Overlaid(old(data), at + 0x2000, [0, 0])
      ensures Clear(Lives(table.chain, {}), history, |old(history)|)
      ensures ThinsBelow(old(table.chain), waste, table.chain)
    {
      hide *;
      ghost var c, size, n := table.chain, |data|, |table.log|;
      ReadyFacts(this, waste);
      Started(c, t, waste, size);
      var lba := DeleteAll(at, t, waste);
      NothingSince(Lives(c, waste), history);
      ClearCommits(Lives(c, waste), history, |history|, table.log[n..]);
      history := history + CommittedEach(table.log[n..]);
      ReadyFacts(this, {});
      TableHolds(table);
      TmpWritable(c, t, table.chain, waste, size);
      Wipe(lba, Lives(c, waste), |old(history)|);
      ReadyNow(this);
    }

    method DeleteAll(at: int, ghost t: int, ghost waste: set<int>) returns (lba: int)
      requires Ready(waste) && 0 < t < |table.chain| && at == table.chain[t].start
      requires table.chain[t] in Lives(table.chain, {})
      requires IsTmp(table.chain[t]) && waste == WasteOf(table.chain[t])
      modifies table
      ensures Ready({}) && Lives(table.chain, {}) == Lives(old(table.chain), waste) && lba == at + 0x2000
      ensures NewStarts(old(table.chain), table.chain, {}) && ThinsBelow(old(table.chain), waste, table.chain)
      ensures old(table.log) <= table.log && Kept(table.log, |old(table.log)|, waste, Lives(table.chain, {}))
    {
      hide *;
      ghost var c, from, size := table.chain, |table.log|, |data|;
      ghost var tmp, all, lives := c[t], Lives(c, {}), Lives(c, waste);
      ReadyFacts(this, waste);
      Started(c, t, waste, size);
      LivesMinus(c, waste);
      AllSubs(all, tmp);
      var header := Unlist(at, t);
      lba := header.start + 0x2000;
      ghost var start := Lives(table.chain, {});
      ChildlessStarts(c, t);
      ChildlessBelow(c, t, waste);
      RemovingNow(this, c, waste, lives, from);
      DeleteListed(at, header, c, tmp, all, start, waste, lives, from, size, Childless(c, t)[t]);
      Removed(this, c, all, start, waste, lives, from, tmp);
    }

    method DeleteListed(at: int, header: Header, ghost c0: Chain, ghost tmp: Part, ghost all: set<Part>,
                        ghost start: set<Part>, ghost waste: set<int>, ghost lives: set<Part>, ghost from: int,
                        ghost size: int, ghost bare: Part)
      requires header.body == tmp.body && waste == WasteOf(tmp) && bare in start && bare.start == at == tmp.start != 0
      requires Linked(all) && Plain(all, size) && tmp in all && !IsSub(tmp.body)
      requires forall q :: q in all && q != tmp ==> q in start
      requires Removing(c0, start, {}, waste, lives, from)
      modifies table
      ensures Removing(c0, start, SubStarts(tmp.body, -1) + {at}, waste, lives, from) && old(table.log) <= table.log
    {
      DeleteSubs(header, c0, tmp, all, start, waste, lives, from, size);
      AllSubs(all, tmp);
      BareLeft(start, bare, SubStarts(tmp.body, -1));
      hide *;
      var rv := DeleteAt(at, bare, c0, start, SubStarts(tmp.body, -1), waste, lives, from);
    }

    /** Records that a partition has no subs. */
    method Unlist(at: int, ghost t: int) returns (header: Header)
      requires table.Valid() && 0 < t < |table.chain| && at == table.chain[t].start && table.chain[t].Used()
      modifies table
      ensures table.Valid() && table.chain == Childless(old(table.chain), t) && header == HeaderOf(old(table.chain), t)
      ensures table.log == old(table.log) + [Commit(table.disk, table.chain)]
    {
      hide PartitionTable.Recorded;
      ghost var c := table.chain;
      assert HoldsAt(table.heads, c, t);
      header := table.Get(at);
      ChildlessLives(c, t);
      table.InBounds();
      RebodiedBatch(c, t, c[t].body.(nsub := 0), table.unit, table.end, {at});
      hide IsStart, NewStarts, Bounded;
      RebodiedHolds(table.heads, c, t, c[t].body.(nsub := 0),
        table.heads[at := header.(body := header.body.(nsub := 0))]);
      hide Holds, Rebodied, Sound;
      table.Put(at, header.(body := header.body.(nsub := 0)));
      table.FlushAllDirty(Childless(c, t));
    }

    method Wipe(lba: int, ghost lives: set<Part>, ghost from: nat)
      requires 0 <= lba && lba + 2 <= |data| && Beside(lives, lba, 2)
      requires from <= |history| && Clear(lives, history, from)
      modifies this`data, this`history
      ensures data == Overlaid(old(data), lba, [0, 0]) && |data| == |old(data)| && SameData(lives, old(data), data)
      ensures history == old(history) + [Wrote(lba, [0, 0])] && Clear(lives, history, from)
    {
      WriteClear(lives, data, lba, [0, 0]);
      hide Within, Beside;
      ClearMore(lives, history, from, lba, [0, 0]);
      data := data[..lba] + [0, 0] + data[lba + 2..];
      history := history + [Wrote(lba, [0, 0])];
    }

    /** Removes what an earlier move left over. */
    method RemoveTmp(ghost waste: set<int>) returns (result: int, ghost wiped: seq<int>)
      requires Ready(waste)
      modifies this`data, this`history, table
      ensures result == 0 && Ready({}) && Lives(table.chain, {}) == Lives(old(table.chain), waste)
      ensures SameData(Lives(table.chain, {}), old(data), data)
      ensures old(table.log) <= table.log && Kept(table.log, |old(table.log)|, waste, Lives(table.chain, {}))
      ensures history == old(history) + CommittedEach(table.log[|old(table.log)|..]) + Wipes(wiped)
      ensures WipedOk(wiped, table.chain, old(data), data) && Clear(Lives(table.chain, {}), history, |old(history)|)
      ensures waste == {} ==> table.chain == old(table.chain) && table.log == old(table.log)
      ensures waste == {} ==> data == old(data) && history == old(history)
      ensures ThinsBelow(old(table.chain), waste, table.chain)
    {
      hide WasteOf, Lives, Linked, Plain, Tidy, Orderly, Ready, Writable, Clear, Overlaid, ThinsBelow;
      ThinsBelowSelf(table.chain, waste);
      var found, at, t := FindTmp(waste);
      result, wiped := 0, [];
      NothingSince(Lives(table.chain, {}), history);
      NothingWiped(history, table.log, table.chain, data);
      if found {
        WasteSome(table.chain[t]);
        RemoveFound(at, t, waste);
        wiped := [at + 0x2000];
      }
    }

    // ----- switching headers -----

    /** Gives the header at `start` to `dest`, and tells the partitions that refer to it, all in
        one batch. */
    method SwapPartition(dest: int, start: int, ghost d: int, ghost s: int)
      requires table.Valid() && Movable(table.chain, s, d) && dest == table.chain[d].start
      requires start == table.chain[s].start
      requires |table.chain[s].body.subs| <= APA_MAXSUB
      modifies table
      ensures table.Valid() && table.chain == Swapped(old(table.chain), s, d)
      ensures table.log == old(table.log) + [Commit(table.disk, table.chain)]
      ensures 0 <= s < |old(table.chain)| == |table.chain| && table.chain[s] ==
        Part(start, old(table.chain)[s].length, Body(old(table.chain)[s].body.ptype, 0, "_tmp", 0, 0, 0, []))
    {
      ghost var c := table.chain;
      LeftOver(c, s, d);
      hide *;
      var body := PlaceHeaders(dest, start, d, s);
      if IsSub(body) {
        TellMain(body.main, dest, start, d, s);
      } else {
        TellSubs(body, dest, d, s);
      }
      FlushSwapped(s, d);
    }

    /** The two headers of the move, in memory. */
    method PlaceHeaders(dest: int, start: int, ghost d: int, ghost s: int) returns (body: Body)
      requires table.Valid() && Movable(table.chain, s, d) && dest == table.chain[d].start
      requires start == table.chain[s].start
      modifies table`heads, table`dirty
      ensures table.Agrees() && table.Recorded() && |table.dirty| <= 2 && OnStarts(table.chain, table.dirty)
      ensures Swapping(table.heads, table.chain, s, d, 0)
      ensures 0 <= s < |table.chain| && 0 <= d < |table.chain| && body == table.chain[s].body
    {
      ghost var c := table.chain;
      SwapFacts(table, s, d);
      TwoStarts(c, d, s);
      hide *;
      body := PutTwo(dest, start);
      SwapStarts(table.disk, c, s, d, table.heads);
    }

    method PutTwo(dest: int, start: int) returns (body: Body)
      requires table.Agrees() && dest in table.heads && start in table.heads && table.dirty == {}
      modifies table`heads, table`dirty
      ensures table.Agrees() && table.dirty == {dest} + {start} && body == old(table.heads)[start].body
      ensures
        var to, from := old(table.heads)[dest], old(table.heads)[start];
        table.heads == old(table.heads)[dest := from.(start := to.start, next := to.next, prev := to.prev)]
          [start := Header(from.start, from.next, from.prev, from.length, TmpBody(from.body.ptype))]
    {
      hide PartitionTable.Agrees;
      var to := table.Get(dest);
      var from := table.Get(start);
      body := from.body;
      table.Put(dest, from.(start := to.start, next := to.next, prev := to.prev));
      table.Put(start, Header(from.start, from.next, from.prev, from.length, TmpBody(from.body.ptype)));
    }

    method FlushSwapped(ghost s: int, ghost d: int)
      requires table.Agrees() && table.Recorded() && |table.dirty| <= 2 + APA_MAXSUB
      requires OnStarts(table.chain, table.dirty)
      requires Movable(table.chain, s, d) && Holds(table.heads, Swapped(table.chain, s, d))
      requires Sound(Swapped(table.chain, s, d))
      modifies table
      ensures table.Valid() && table.chain == Swapped(old(table.chain), s, d)
      ensures table.log == old(table.log) + [Commit(table.disk, table.chain)]
    {
      table.InBounds();
      SwappedBatch(table.chain, s, d, table.dirty, table.unit, table.end);
      hide Holds, Movable, Swapped, OnStarts, NewStarts, Bounded, PartitionTable.Recorded, PartitionTable.Agrees;
      table.FlushAllDirty(Swapped(table.chain, s, d));
    }

    /** The main's list has the sub at its new address. */
    method TellMain(main: int, dest: int, start: int, ghost d: int, ghost s: int)
      requires table.Agrees() && |table.dirty| <= 2 && OnStarts(table.chain, table.dirty)
      requires Movable(table.chain, s, d) && Swapping(table.heads, table.chain, s, d, 0)
      requires dest == table.chain[d].start && start == table.chain[s].start
      requires IsSub(table.chain[s].body) && main == table.chain[s].body.main
      modifies table`heads, table`dirty
      ensures table.Agrees() && |table.dirty| <= 3 && OnStarts(table.chain, table.dirty)
      ensures Holds(table.heads, Swapped(table.chain, s, d)) && Sound(Swapped(table.chain, s, d))
    {
      ghost var c, t := table.chain, table.heads;
      ghost var m, i := MainOf(c, s, d);
      assert SwappingAt(t, c, s, d, 0, m);
      hide Movable, Swapping, Holds, Swapped, Sound;
      OnMore(c, table.dirty, m);
      var header := table.Get(main);
      var j := 0;
      while j < header.body.nsub && header.body.subs[j].start != start
        invariant 0 <= j <= i
        modifies {}
      {
        j := j + 1;
      }
      SwapSubDone(t, c, s, d, m, i, t[main := header.(body := Reentered(c[m].body, i, dest))]);
      var subs := header.body.subs;
      table.Put(main, header.(body := header.body.(subs := subs[j := Sub(dest, subs[j].length)])));
    }

    /** Every sub names the main's new address. */
    method TellSubs(body: Body, dest: int, ghost d: int, ghost s: int)
      requires table.Agrees() && |table.dirty| <= 2 && OnStarts(table.chain, table.dirty)
      requires Movable(table.chain, s, d) && Swapping(table.heads, table.chain, s, d, 0)
      requires dest == table.chain[d].start && body == table.chain[s].body && !IsSub(body) && |body.subs| <= APA_MAXSUB
      modifies table`heads, table`dirty
      ensures table.Agrees() && |table.dirty| <= 2 + APA_MAXSUB && OnStarts(table.chain, table.dirty)
      ensures Holds(table.heads, Swapped(table.chain, s, d)) && Sound(Swapped(table.chain, s, d))
    {
      ghost var c := table.chain;
      ListFits(c, s, d);
      hide Movable, Swapping, Holds, Swapped, Sound;
      var i := 0;
      while i < body.nsub
        invariant 0 <= i <= body.nsub && table.Agrees() && |table.dirty| <= 2 + i
        invariant Swapping(table.heads, c, s, d, i) && OnStarts(c, table.dirty)
        modifies table`heads, table`dirty
      {
        ghost var t := table.heads;
        ghost var k := SubAt(c, s, d, i);
        SwappingHas(t, c, s, d, i, k);
        OnMore(c, table.dirty, k);
        var header := table.Get(body.subs[i].start);
        table.Put(body.subs[i].start, header.(body := header.body.(main := dest)));
        SwapSub(t, c, s, d, i, k, table.heads);
        i := i + 1;
      }
      SwapMainDone(table.heads, c, s, d);
    }

    // ----- moving -----

    /** Moves a partition to a free slot of its size: the data first, then, in one batch, the
        headers. */
    method MovePartition(dest: int, start: int, ghost d: int, ghost s: int) returns (result: int)
      requires Ready({}) && 0 < d < |table.chain| && 0 < s < |table.chain| && table.chain[s].Used()
      requires dest == table.chain[d].start && start == table.chain[s].start
      modifies this`data, this`history, table
      ensures result == 0 <==> !old(table.chain)[d].Used() && old(table.chain)[d].length == old(table.chain)[s].length
      ensures result != 0 ==> result == -1 && Ready({}) && data == old(data) && history == old(history)
      ensures result != 0 ==> table.chain == old(table.chain) && table.log == old(table.log)
      ensures result == 0 ==> Ready({start}) && table.chain == Swapped(old(table.chain), s, d)
      ensures result == 0 ==> table.log == old(table.log) + [Commit(table.disk, table.chain)]
      ensures result == 0 ==> Lives(table.chain, {start}) == Image(Step(start, dest), Lives(old(table.chain), {}))
      ensures result == 0 ==> Preserved(Step(start, dest), Lives(old(table.chain), {}), old(data), data)
      ensures result == 0 ==> MoveTrace(old(table.chain)[s], dest, old(data), data, old(history), history,
        Commit(table.disk, table.chain))
      ensures Clear(Lives(old(table.chain), {}), history, |old(history)|)
    {
      hide PartitionTable.Recorded, PartitionTable.Valid, Movable, Swapped, Ready, Orderly, Lives, Image, Preserved,
        Copied;
      hide Within, Beside, Clear, CopyEvents, MoveTrace, WipedOk, Wipes, Blank, Plain, Kept, SameData, Sound, Tiled;
      ghost var c, was, h0 := table.chain, data, history;
      ReadyFacts(this, {});
      HeaderThere(table, d);
      HeaderThere(table, s);
      NothingSince(Lives(c, {}), history);
      var to := table.Get(dest);
      var from := table.Get(start);
      if to.body.ptype != 0 {
        return -1;
      }
      if to.length != from.length {
        return -1;
      }
      ghost var wiped;
      result, wiped := RemoveTmp({});
      ReadyFacts(this, {});
      NowMovable(c, s, d, |data|);
      CopyFits(c, s, d, |data|);
      CopyPartition(dest, start, to.length, Lives(c, {}));
      MovedData(c, s, d, was, data);
      CopiedLength(was, data, start, dest, 2, to.length);
      MovedOrderly(c, s, d, |data|);
      SwapPartition(dest, start, d, s);
      MoveTraced(c[s], dest, was, data, h0, history, Commit(table.disk, table.chain), Lives(c, {}));
      history := history + [Committed(Commit(table.disk, table.chain))];
      NowReady(this, c, s, d);
    }

    // ----- choosing what to move -----

    /** The first free slot of that size. */
    method FindEmptyPartition(size: int) returns (found: bool, at: int, ghost d: int)
      requires table.Valid()
      ensures found ==> 0 < d < |table.chain| && at == table.chain[d].start && FreeSlot(table.chain[d], size)
      ensures forall k :: 0 <= k < (if found then d else |table.chain|) ==> !FreeSlot(table.chain[k], size)
    {
      hide PartitionTable.Recorded;
      ghost var c := table.chain;
      at, d := 0, 0;
      while true
        invariant 0 <= d < |c| && at == c[d].start && forall k :: 0 <= k < d ==> !FreeSlot(c[k], size)
        decreases |c| - d
      {
        assert HoldsAt(table.heads, c, d);
        var header := table.Get(at);
        if header.length == size && header.body.ptype == 0 {
          return true, at, d;
        }
        at := header.next;
        NextOf(c, d);
        if at == 0 {
          return false, at, d;
        }
        d := d + 1;
      }
    }

    /** False exactly for a free partition of that size. */
    method IsPartitionOfSize(sector: int, size: int, ghost k: int) returns (r: bool)
      requires table.Valid() && 0 <= k < |table.chain| && sector == table.chain[k].start
      ensures r == !FreeSlot(table.chain[k], size)
    {
      hide PartitionTable.Recorded;
      assert HoldsAt(table.heads, table.chain, k);
      var header := table.Get(sector);
      r := true;
      if header.body.ptype == 0 {
        r := header.length != size;
      }
    }

    /** The last partition of that size in use, above the slot; in the first mode one whose buddy
        is free. */
    method FindLastUsedPartition(size: int, start: int, mode: bool, ghost d: int)
      returns (found: bool, at: int, ghost s: int)
      requires table.Valid() && 0 <= d < |table.chain| && start == table.chain[d].start && size > 0
      ensures found ==> d < s < |table.chain| && at == table.chain[s].start && Candidate(table.chain, s, size, mode)
      ensures forall k :: (if found then s else d) < k < |table.chain| ==> !Candidate(table.chain, k, size, mode)
    {
      hide PartitionTable.Recorded;
      ghost var c := table.chain;
      assert HoldsAt(table.heads, c, 0);
      var header := table.Get(0);
      at, s, found := header.prev, |c| - 1, false;
      while start < at
        invariant d <= s < |c| && at == c[s].start && !found
        invariant forall k :: s < k < |c| ==> !Candidate(c, k, size, mode)
        decreases s
      {
        assert HoldsAt(table.heads, c, s);
        assert s > d;
        header := table.Get(at);
        if header.length == size && header.body.ptype != 0 {
          if mode {
            var buddy := header.prev;
            ghost var b := s - 1;
            if header.start % (size * 2) == 0 {
              NextOf(c, s);
              buddy, b := header.next, s + 1;
              if buddy == 0 {
                found := true;
                return;
              }
            }
            var other := IsPartitionOfSize(buddy, size, b);
            if !other {
              found := true;
              return;
            }
          } else {
            found := true;
            return;
          }
        }
        at := header.prev;
        s := s - 1;
      }
      if s > d {
        ApaChain.Apart(c, d, s);
      }
    }

    // ----- the whole run -----

    /** The history since h0 is told by the views, and the last of them is how things are. */
    ghost predicate Tale(views: seq<View>, h0: nat, from: nat, lives: set<Part>, was: seq<int>, f: map<int, int>)
      reads this`data, this`history, table
    {
      && TaleAt(history, table.log, Commit(table.disk, table.chain), data, views, h0, from, lives, was, f)
      && views != [] && views[0].commit == CommitAt(table.origin, table.log, from)
    }

    /** Moves partitions of one size down until none can be. */
    method MoveSize(size: int, ghost c0: Chain, ghost waste0: set<int>, ghost was: seq<int>, ghost from: nat,
                    ghost h0: nat, ghost f0: map<int, int>, ghost views0: seq<View>)
      returns (ghost f: map<int, int>, ghost views: seq<View>)
      requires size > 0 && Ready({}) && CarriedTo(table.chain, {}, data, Lives(c0, waste0), was, f0)
      requires from <= |table.log| && AllFaithful(table.log, from, Lives(c0, waste0))
      requires Tale(views0, h0, from, Lives(c0, waste0), was, f0)
      requires forall i :: 0 <= i < |c0| ==> c0[i].start >= 0
      requires PackedUpTo(table.chain, HDSK_MIN_PART_SIZE, size)
      modifies this`data, this`history, table
      ensures Ready({}) && CarriedTo(table.chain, {}, data, Lives(c0, waste0), was, f) && Packed(table.chain, size)
      ensures PackedUpTo(table.chain, HDSK_MIN_PART_SIZE, size)
      ensures from <= |table.log| && AllFaithful(table.log, from, Lives(c0, waste0))
      ensures Tale(views, h0, from, Lives(c0, waste0), was, f) && views0 <= views
    {
      hide *;
      ghost var lives := Lives(c0, waste0);
      ghost var waste: set<int> := {};
      f, views := f0, views0;
      NoneOfSize(table.chain, size);
      var goes := true;
      while goes
        invariant Ready(waste) && CarriedTo(table.chain, waste, data, lives, was, f)
        invariant from <= |table.log| && AllFaithful(table.log, from, lives)
        invariant Tale(views, h0, from, lives, was, f) && views0 <= views
        invariant PackedUpTo(table.chain, HDSK_MIN_PART_SIZE, size) && OfSize(table.chain, waste, size)
        invariant !goes ==> waste == {} && Packed(table.chain, size)
        decreases Total(c0, f), goes
      {
        ghost var mid;
        goes, waste, f, views, mid := MoveOne(size, c0, waste0, was, from, h0, waste, f, views);
      }
    }

    /** One turn of the loop: removes the last move's remains, and moves the last partition that
        can be to the first slot. */
    method MoveOne(size: int, ghost c0: Chain, ghost waste0: set<int>, ghost was: seq<int>, ghost from: nat,
                   ghost h0: nat, ghost waste: set<int>, ghost f: map<int, int>, ghost views0: seq<View>)
      returns (goes: bool, ghost left: set<int>, ghost g: map<int, int>, ghost views: seq<View>, ghost mid: Chain)
      requires size > 0 && Ready(waste) && CarriedTo(table.chain, waste, data, Lives(c0, waste0), was, f)
      requires from <= |table.log| && AllFaithful(table.log, from, Lives(c0, waste0))
      requires Tale(views0, h0, from, Lives(c0, waste0), was, f)
      requires forall i :: 0 <= i < |c0| ==> c0[i].start >= 0
      requires PackedUpTo(table.chain, HDSK_MIN_PART_SIZE, size) && OfSize(table.chain, waste, size)
      modifies this`data, this`history, table
      ensures Ready(left) && CarriedTo(table.chain, left, data, Lives(c0, waste0), was, g)
      ensures from <= |table.log| && AllFaithful(table.log, from, Lives(c0, waste0))
      ensures Tale(views, h0, from, Lives(c0, waste0), was, g) && views0 <= views
      ensures goes ==> 0 <= Total(c0, g) < Total(c0, f)
      ensures !goes ==> left == {} && g == f && Packed(table.chain, size)
      ensures waste == {} ==> mid == old(table.chain)
      ensures goes ==> exists d, s :: Chosen(mid, d, s, size) && table.chain == Swapped(mid, s, d)
      ensures !goes ==> table.chain == mid
      ensures PackedUpTo(table.chain, HDSK_MIN_PART_SIZE, size) && OfSize(table.chain, left, size)
    {
      hide *;
      ghost var lives, c := Lives(c0, waste0), table.chain;
      ReadyTiled(this, waste);
      views := RemoveCarried(lives, was, from, h0, waste, f, views0);
      ReadyTiled(this, {});
      BelowPacked(c, waste, table.chain, HDSK_MIN_PART_SIZE, size);
      NoneOfSize(table.chain, size);
      ReadyValid(this);
      goes, left, g, mid := false, {}, f, table.chain;
      var found, at, d := FindEmptyPartition(size);
      if !found {
        PackedNone(table.chain, size);
        return;
      }
      SlotFacts(table.chain[d], size);
      var found2, start, s := FindLastUsedPartition(size, at, true, d);
      ghost var mode := true;
      if !found2 {
        found2, start, s := FindLastUsedPartition(size, at, false, d);
        mode := false;
        if !found2 {
          PackedSome(table.chain, d, size);
          return;
        }
      }
      ChosenMovable(this, s, d, size, mode);
      ChosenNow(mid, d, s, size, mode);
      CarriedShows(table.chain, {}, data, lives, was, f);
      StepFalls(c0, waste0, table.chain, s, d, lives, f);
      SwappedPacked(table.chain, s, d, HDSK_MIN_PART_SIZE);
      views := MoveCarried(at, start, d, s, lives, was, from, h0, f, views);
      goes, left, g := true, {start}, Then(f, Step(start, at));
    }

    /** Moves a partition; all the others are carried along. */
    method MoveCarried(dest: int, start: int, ghost d: int, ghost s: int, ghost lives: set<Part>, ghost was: seq<int>,
                       ghost from: nat, ghost h0: nat, ghost f: map<int, int>, ghost views0: seq<View>)
      returns (ghost views: seq<View>)
      requires Ready({}) && CarriedTo(table.chain, {}, data, lives, was, f) && Movable(table.chain, s, d)
      requires 0 < d < |table.chain| && 0 < s < |table.chain| && 0 <= table.chain[d].start < table.chain[s].start
      requires table.chain[s].Used() && !table.chain[d].Used() && table.chain[d].length == table.chain[s].length
      requires dest == table.chain[d].start && start == table.chain[s].start
      requires from <= |table.log| && AllFaithful(table.log, from, lives) && Tale(views0, h0, from, lives, was, f)
      modifies this`data, this`history, table
      ensures Ready({start}) && CarriedTo(table.chain, {start}, data, lives, was, Then(f, Step(start, dest)))
      ensures from <= |table.log| && AllFaithful(table.log, from, lives)
      ensures Tale(views, h0, from, lives, was, Then(f, Step(start, dest))) && views0 <= views
      ensures table.chain == Swapped(old(table.chain), s, d)
    {
      hide *;
      ghost var c, mid, log0, history0, t0 := table.chain, data, table.log, history, Commit(table.disk, table.chain);
      ReadyFacts(this, {});
      OrderlyPlain(Lives(c, {}), {}, |mid|);
      TaleOpen(this, views0, h0, from, lives, was, f);
      CarriedShows(c, {}, mid, lives, was, f);
      var result := MovePartition(dest, start, d, s);
      ghost var g := Then(f, Step(start, dest));
      CarriedStep(c, s, d, lives, was, mid, data, f);
      CarriedShows(table.chain, {start}, data, lives, was, g);
      ReadyFacts(this, {start});
      TableHolds(table);
      OneMoreFaithful(log0, from, lives, table.chain, table.disk, {start}, g);
      views := TaleMoved(history0, log0, t0, mid, views0, h0, from, lives, was, f, s, d,
        Commit(table.disk, table.chain), data, history);
      StartKept(table.origin, log0, table.log, from, views0, views);
      TaleClose(this, views, h0, from, lives, was, g);
    }

    method RemoveCarried(ghost lives: set<Part>, ghost was: seq<int>, ghost from: nat, ghost h0: nat,
                         ghost waste: set<int>, ghost f: map<int, int>, ghost views0: seq<View>)
      returns (ghost views: seq<View>)
      requires Ready(waste) && CarriedTo(table.chain, waste, data, lives, was, f)
      requires from <= |table.log| && AllFaithful(table.log, from, lives) && Tale(views0, h0, from, lives, was, f)
      modifies this`data, this`history, table
      ensures Ready({}) && CarriedTo(table.chain, {}, data, lives, was, f)
      ensures from <= |table.log| && AllFaithful(table.log, from, lives)
      ensures Tale(views, h0, from, lives, was, f) && views0 <= views
      ensures ThinsBelow(old(table.chain), waste, table.chain) && (waste == {} ==> table.chain == old(table.chain))
    {
      hide *;
      ghost var c, mid, log0, history0, t0 := table.chain, data, table.log, history, Commit(table.disk, table.chain);
      CarriedShows(c, waste, mid, lives, was, f);
      ReadyFacts(this, waste);
      TaleOpen(this, views0, h0, from, lives, was, f);
      NowIs(table);
      var result, wiped := RemoveTmp(waste);
      CarriedSame(c, waste, mid, table.chain, data, lives, was, f);
      FaithfulPrefix(log0, table.log, from, lives);
      KeptFaithful(table.log, from, |log0|, waste, Lives(table.chain, {}), lives, f);
      ReadyFacts(this, {});
      NowIs(table);
      views := TaleRemoved(history0, log0, t0, mid, views0, h0, from, lives, was, f, waste, table.origin, table.log,
        Commit(table.disk, table.chain), data, wiped);
      StartKept(table.origin, log0, table.log, from, views0, views);
      TaleClose(this, views, h0, from, lives, was, f);
    }

    /** The defragmenter: every size in turn, from the smallest there is. */
    method HdskThread(partitionMaxSize: int, ghost waste: set<int>)
      returns (ghost f: map<int, int>, ghost views: seq<View>)
      requires Ready(waste)
      modifies this`data, this`history, table
      ensures Ready({}) && CarriedTo(table.chain, {}, data, Lives(old(table.chain), waste), old(data), f)
      ensures PackedUpTo(table.chain, HDSK_MIN_PART_SIZE, partitionMaxSize)
      ensures |old(table.log)| <= |table.log|
      ensures AllFaithful(table.log, |old(table.log)|, Lives(old(table.chain), waste))
      ensures Tale(views, |old(history)|, |old(table.log)|, Lives(old(table.chain), waste), old(data), f)
      ensures views[0].commit == Commit(old(table.disk), old(table.chain)) && views[0].waste == waste
    {
      hide *;
      SmallestSize();
      var size := HDSK_MIN_PART_SIZE;
      ghost var c0, was, from, h0 := table.chain, data, |table.log|, |history|;
      ghost var lives := Lives(c0, waste);
      f := CarriedStarts(this, waste);
      ReadyFacts(this, waste);
      TableHolds(table);
      ghost var views0 := TaleStarts(history, table.log, Commit(table.disk, c0), was, waste, lives, f);
      NowIs(table);
      TaleClose(this, views0, h0, from, lives, was, f);
      views := RemoveCarried(lives, was, from, h0, waste, f, views0);
      NoSizesYet(table.chain, size);
      while size < partitionMaxSize
        invariant size > 0 && Pow2(size) && PackedUpTo(table.chain, HDSK_MIN_PART_SIZE, size)
        invariant Ready({}) && CarriedTo(table.chain, {}, data, lives, was, f)
        invariant from <= |table.log| && AllFaithful(table.log, from, lives)
        invariant Tale(views, h0, from, lives, was, f) && views0 <= views
      {
        f, views := MoveSize(size, c0, waste, was, from, h0, f, views);
        NextSize(table.chain, HDSK_MIN_PART_SIZE, size);
        size := size * 2;
      }
      FewerSizes(table.chain, HDSK_MIN_PART_SIZE, size, partitionMaxSize);
      views := RemoveCarried(lives, was, from, h0, {}, f, views);
    }
  }

  lemma SmallestSize()
    ensures HDSK_MIN_PART_SIZE > 0 && Pow2(HDSK_MIN_PART_SIZE)
  {
    assert Pow2(0x400) && Pow2(0x1000) && Pow2(0x4000) && Pow2(0x1_0000);
  }

  lemma ReadyTiled(d: Defragmenter, waste: set<int>)
    requires d.Ready(waste)
    ensures Tiled(d.table.chain)
  {
    ReadyFacts(d, waste);
    TableHolds(d.table);
  }

  lemma TaleOpen(d: Defragmenter, views: seq<View>, h0: nat, from: nat, lives: set<Part>, was: seq<int>,
                 f: map<int, int>)
    requires d.Tale(views, h0, from, lives, was, f)
    ensures TaleAt(d.history, d.table.log, Commit(d.table.disk, d.table.chain), d.data, views, h0, from, lives, was, f)
    ensures views != [] && views[0].commit == CommitAt(d.table.origin, d.table.log, from)
  {
    hide TaleAt;
  }

  /** The first view stays what it was. */
  lemma StartKept(origin: Commit, log0: seq<Commit>, log: seq<Commit>, from: nat, views0: seq<View>, views: seq<View>)
    requires from <= |log0| && log0 <= log && views0 != [] && views0 <= views
    requires views0[0].commit == CommitAt(origin, log0, from)
    ensures views != [] && views[0].commit == CommitAt(origin, log, from)
  {
  }

  lemma TaleClose(d: Defragmenter, views: seq<View>, h0: nat, from: nat, lives: set<Part>, was: seq<int>,
                  f: map<int, int>)
    requires TaleAt(d.history, d.table.log, Commit(d.table.disk, d.table.chain), d.data, views, h0, from, lives, was, f)
    requires views != [] && views[0].commit == CommitAt(d.table.origin, d.table.log, from)
    ensures d.Tale(views, h0, from, lives, was, f)
  {
    hide TaleAt;
  }

  lemma TaleSize(h: seq<Event>, log: seq<Commit>, now: Commit, data: seq<int>, views: seq<View>, h0: nat, from: nat,
                 lives: set<Part>, was: seq<int>, f: map<int, int>)
    requires TaleAt(h, log, now, data, views, h0, from, lives, was, f)
    ensures h0 <= |h| && |views| == |h| - h0 + 1
  {
    hide Faithfully, Happens;
  }

  lemma ReadyValid(d: Defragmenter)
    requires d.Ready({})
    ensures d.table.Valid()
  {
    ReadyFacts(d, {});
  }

  lemma TableHolds(t: PartitionTable)
    requires t.Valid()
    ensures Sound(t.chain) && Tiled(t.chain) && Holds(t.disk, t.chain)
  {
    hide Holds, Tiled;
  }

  lemma SlotFacts(p: Part, size: int)
    requires FreeSlot(p, size)
    ensures !p.Used() && p.length == size
  {
  }

  lemma FaithfulPrefix(log0: seq<Commit>, log: seq<Commit>, from: int, lives: set<Part>)
    requires log0 <= log && 0 <= from <= |log0| && AllFaithful(log0, from, lives)
    ensures forall k :: from <= k < |log0| ==> Faithful(log[k], lives)
  {
    hide Faithful;
  }

  /** At the start everything is where it is. */
  lemma CarriedStarts(d: Defragmenter, waste: set<int>) returns (f: map<int, int>)
    requires d.Ready(waste)
    ensures CarriedTo(d.table.chain, waste, d.data, Lives(d.table.chain, waste), d.data, f)
    ensures forall i :: 0 <= i < |d.table.chain| ==> d.table.chain[i].start >= 0
    ensures AllFaithful(d.table.log, |d.table.log|, Lives(d.table.chain, waste))
  {
    ReadyFacts(d, waste);
    hide *;
    var c := d.table.chain;
    var lives := Lives(c, waste);
    f := StartMap(c, waste, |d.data|);
    ImageSame(f, lives);
    SameMoved(f, lives, d.data);
    StillLinked(c, waste, |d.data|);
    StartsCarry(c, waste, d.data, f);
    NoNegative(c);
    NothingYet(d.table.log, lives);
  }

  lemma StartMap(c: Chain, waste: set<int>, size: int) returns (f: map<int, int>)
    requires Orderly(Lives(c, {}), waste, size)
    ensures Covers(f, Lives(c, waste)) && Injective(f, Lives(c, waste)) && Lowering(f)
    ensures forall x :: x in f ==> f[x] == x
  {
    hide Linked, Tidy;
    var starts := set p | p in Lives(c, waste) :: p.start;
    f := map x | x in starts :: x;
    forall p | p in Lives(c, waste) ensures p.start in f && p.start >= 0 {
      assert p.start in starts;
      assert PlainPart(p, size);
    }
  }

  lemma StartsCarry(c: Chain, waste: set<int>, data: seq<int>, f: map<int, int>)
    requires Image(f, Lives(c, waste)) == Lives(c, waste) && Preserved(f, Lives(c, waste), data, data)
    requires Covers(f, Lives(c, waste)) && Injective(f, Lives(c, waste)) && Lowering(f) && Linked(Lives(c, waste))
    ensures CarriedTo(c, waste, data, Lives(c, waste), data, f)
  {
    hide Image, Lives, Preserved, Covers, Injective, Lowering, Linked;
  }

  lemma NoNegative(c: Chain)
    requires Sound(c)
    ensures forall i :: 0 <= i < |c| ==> c[i].start >= 0
  {
    forall i | 0 <= i < |c| ensures c[i].start >= 0 {
      if i > 0 {
        ApaChain.Apart(c, 0, i);
      }
    }
  }

  lemma NothingYet(log: seq<Commit>, lives: set<Part>)
    ensures AllFaithful(log, |log|, lives)
  {
  }

  lemma SameMoved(f: map<int, int>, lives: set<Part>, data: seq<int>)
    requires forall x :: x in f ==> f[x] == x
    ensures Preserved(f, lives, data, data)
  {
    forall p | p in lives ensures DataOf(data, Moved(f, p)) == DataOf(data, p) {
      assert Moved(f, p).start == p.start && Moved(f, p).length == p.length;
    }
  }

  lemma StillLinked(c: Chain, waste: set<int>, size: int)
    requires Orderly(Lives(c, {}), waste, size)
    ensures Linked(Lives(c, waste))
  {
    hide Linked, Plain;
    LivesMinus(c, waste);
    if waste != {} {
      var p :| p in Lives(c, {}) && IsTmp(p) && waste == WasteOf(p);
      LinkedMinus(Lives(c, {}), p);
    } else {
      assert Minus(Lives(c, {}), waste) == Lives(c, {});
    }
  }

  lemma TwoStarts(c: Chain, j: int, k: int)
    requires 0 <= j < |c| && 0 <= k < |c|
    ensures OnStarts(c, {c[j].start} + {c[k].start}) && |{c[j].start} + {c[k].start}| <= 2
  {
  }

  lemma OnMore(c: Chain, sectors: set<int>, k: int)
    requires OnStarts(c, sectors) && 0 <= k < |c|
    ensures OnStarts(c, sectors + {c[k].start})
  {
  }

  /** A switch leaves every partition its place and size. */
  lemma SwappedBatch(c: Chain, s: int, d: int, dirty: set<int>, unit: int, end: int)
    requires Movable(c, s, d) && Bounded(c, unit, end) && OnStarts(c, dirty)
    ensures Bounded(Swapped(c, s, d), unit, end) && OnStarts(Swapped(c, s, d), dirty)
    ensures NewStarts(c, Swapped(c, s, d), dirty)
  {
    hide Linked, NewBody;
    var e := Swapped(c, s, d);
    forall k | 0 <= k < |c| ensures e[k].start == c[k].start && e[k].length == c[k].length {
    }
    SameStarts(c, e, dirty);
    hide NewStarts;
    forall x | x in dirty ensures IsStart(e, x) {
      var i :| 0 <= i < |c| && c[i].start == x;
      assert e[i].start == x;
    }
  }

  lemma SwapFacts(t: PartitionTable, s: int, d: int)
    requires t.Valid() && Movable(t.chain, s, d)
    ensures 0 <= s < |t.chain| && 0 <= d < |t.chain| && t.chain[s].start in t.heads && t.chain[d].start in t.heads
    ensures t.heads[t.chain[s].start] == HeaderOf(t.chain, s) && t.heads[t.chain[d].start] == HeaderOf(t.chain, d)
    ensures HeaderOf(t.chain, d).(body := t.chain[s].body) ==
      HeaderOf(t.chain, s).(start := HeaderOf(t.chain, d).start, next := HeaderOf(t.chain, d).next,
        prev := HeaderOf(t.chain, d).prev)
    ensures HeaderOf(t.chain, s).body == t.chain[s].body && HeaderOf(t.chain, s).start == t.chain[s].start
    ensures t.Agrees() && t.Recorded() && t.dirty == {} && t.disk == t.heads && Holds(t.disk, t.chain)
    ensures HeaderOf(t.chain, s).(body := TmpBody(t.chain[s].body.ptype)) ==
      Header(HeaderOf(t.chain, s).start, HeaderOf(t.chain, s).next, HeaderOf(t.chain, s).prev,
        HeaderOf(t.chain, s).length,
        TmpBody(HeaderOf(t.chain, s).body.ptype))
  {
    hide PartitionTable.Recorded;
    assert HoldsAt(t.heads, t.chain, s) && HoldsAt(t.heads, t.chain, d);
    hide Linked, Sound;
  }

  lemma ListFits(c: Chain, s: int, d: int)
    requires Movable(c, s, d) && !IsSub(c[s].body)
    ensures 0 <= c[s].body.nsub <= |c[s].body.subs|
  {
    assert c[s] in Lives(c, {});
    assert LinkedAt(Lives(c, {}), c[s]);
  }

  lemma SwappingHas(t: Table, c: Chain, s: int, d: int, n: int, k: int)
    requires Swapping(t, c, s, d, n) && 0 <= k < |c|
    ensures c[k].start in t
  {
    assert SwappingAt(t, c, s, d, n, k);
  }

  lemma BareLeft(start: set<Part>, bare: Part, gone: set<int>)
    requires bare in start && bare.start !in gone
    ensures bare in Minus(start, gone)
  {
  }

  lemma ReadyNow(d: Defragmenter)
    requires d.table.Valid() && Blank(d.table.chain) && Orderly(Lives(d.table.chain, {}), {}, |d.data|)
    ensures d.Ready({})
  {
    hide Orderly, Blank;
  }

  lemma NowMovable(c: Chain, s: int, d: int, size: int)
    requires Orderly(Lives(c, {}), {}, size) && Sound(c) && 0 < s < |c| && 0 < d < |c|
    requires c[s].Used() && !c[d].Used() && c[s].length == c[d].length
    ensures Movable(c, s, d) && Plain(Lives(c, {}), size)
  {
    hide Linked;
  }

  lemma NowReady(d: Defragmenter, c: Chain, s: int, slot: int)
    requires d.table.Valid() && 0 <= s < |c| && 0 <= slot < |c| && d.table.chain == Swapped(c, s, slot)
    requires Blank(Swapped(c, s, slot)) && Orderly(Lives(Swapped(c, s, slot), {}), {c[s].start}, |d.data|)
    ensures d.Ready({c[s].start})
  {
    hide Orderly, Blank;
  }

  lemma WasteSome(p: Part)
    ensures WasteOf(p) != {}
  {
    assert p.start in WasteOf(p);
  }

  lemma NoneBelow(all: set<Part>, tmp: Part)
    requires Linked(all) && tmp in all && !IsSub(tmp.body)
    ensures tmp.body.nsub >= 0
  {
    assert LinkedAt(all, tmp);
  }

  lemma HeaderThere(t: PartitionTable, i: int)
    requires t.Valid() && 0 <= i < |t.chain|
    ensures t.chain[i].start in t.heads && t.heads[t.chain[i].start] == HeaderOf(t.chain, i)
  {
    hide PartitionTable.Recorded, Sound;
    assert HoldsAt(t.heads, t.chain, i);
  }

  lemma ReadyFacts(d: Defragmenter, waste: set<int>)
    requires d.Ready(waste)
    ensures d.table.Valid() && Sound(d.table.chain) && Blank(d.table.chain)
    ensures Orderly(Lives(d.table.chain, {}), waste, |d.data|)
  {
    hide Orderly, Blank, Sound;
  }

  /** What a removal starts from. */
  lemma Started(c: Chain, t: int, waste: set<int>, size: int)
    requires Sound(c) && Blank(c) && Orderly(Lives(c, {}), waste, size) && 0 < t < |c| && c[t] in Lives(c, {})
    requires IsTmp(c[t]) && waste == WasteOf(c[t])
    ensures Linked(Lives(c, {})) && Plain(Lives(c, {}), size) && !IsSub(c[t].body) && c[t].start in waste
    ensures c[t].start != 0
    ensures c[t].Used() && Sound(Childless(c, t)) && Blank(Childless(c, t)) && HeaderOf(c, t).body == c[t].body
    ensures HeaderOf(c, t).start == c[t].start
    ensures Lives(Childless(c, t), waste) == Lives(c, waste)
    ensures forall q :: q in Lives(c, {}) && q != c[t] ==> q in Lives(Childless(c, t), {})
    ensures Childless(c, t)[t] in Lives(Childless(c, t), {}) && Childless(c, t)[t].start == c[t].start
    ensures 0 <= c[t].start && c[t].start + 0x2002 <= size && c[t].length >= HDSK_MIN_PART_SIZE && Tiled(c)
    ensures Beside(Lives(c, waste), c[t].start + 0x2000, 2)
  {
    hide Linked, Tidy, Within, Sound, Childless, Lives;
    ChildlessLives(c, t);
    UsedLives(c, Childless(c, t), c[t].start, waste);
    ChildlessBlank(c, t);
    assert PlainPart(c[t], size);
    StartNotZero(c, t);
    forall x | c[t].start + 0x2000 <= x < c[t].start + 0x2002 ensures !Within(Lives(c, waste), x) {
      TmpExtent(c, c[t], waste, size, x);
    }
  }

  lemma StartNotZero(c: Chain, t: int)
    requires Sound(c) && 0 < t < |c|
    ensures c[t].start != 0 && Tiled(c)
  {
    ApaChain.Apart(c, 0, t);
  }

  lemma ChildlessBlank(c: Chain, t: int)
    requires Blank(c) && 0 <= t < |c| && c[t] in Lives(c, {})
    ensures Blank(Childless(c, t))
  {
    assert NamedBody(c[t].body);
  }

  lemma OrderlyPlain(lives: set<Part>, waste: set<int>, size: int)
    requires Orderly(lives, waste, size)
    ensures Plain(lives, size)
  {
    hide Linked, Plain, Tidy;
  }

  lemma MinusNothing(c: Chain)
    ensures Minus(Lives(c, {}), {}) == Lives(c, {})
  {
  }

  lemma ChildlessStarts(c: Chain, t: int)
    requires 0 <= t < |c|
    ensures NewStarts(c, Childless(c, t), {}) && |Childless(c, t)| == |c|
  {
    SameStarts(c, Childless(c, t), {});
  }

  lemma RemovingNow(d: Defragmenter, c0: Chain, waste: set<int>, lives: set<Part>, from: int)
    requires d.table.Valid() && Blank(d.table.chain) && Lives(d.table.chain, waste) == lives
    requires NewStarts(c0, d.table.chain, {}) && ThinsBelow(c0, waste, d.table.chain)
    requires 0 <= from == |d.table.log| - 1 && d.table.log[from] == Commit(d.table.disk, d.table.chain)
    ensures d.Removing(c0, Lives(d.table.chain, {}), {}, waste, lives, from)
    ensures Minus(Lives(d.table.chain, {}), {}) == Lives(d.table.chain, {})
  {
    hide Blank, Holds, NewStarts, PartitionTable.Recorded, Lives, ThinsBelow;
    MinusNothing(d.table.chain);
    assert KeptAt(d.table.log[from], waste, lives);
  }

  lemma ChildlessBelow(c: Chain, t: int, waste: set<int>)
    requires 0 <= t < |c|
    ensures ThinsBelow(c, waste, Childless(c, t))
  {
    RebodiedBelow(c, t, c[t].body.(nsub := 0), waste);
  }

  lemma Removed(d: Defragmenter, c0: Chain, all: set<Part>, start: set<Part>, waste: set<int>, lives: set<Part>,
                from: int, tmp: Part)
    requires d.Removing(c0, start, SubStarts(tmp.body, -1) + {tmp.start}, waste, lives, from)
    requires waste == SubStarts(tmp.body, -1) + {tmp.start} == WasteOf(tmp) && lives == Minus(all, waste)
    requires Orderly(all, waste, |d.data|) && tmp in all && !IsSub(tmp.body)
    ensures d.Ready({}) && Lives(d.table.chain, {}) == lives && Kept(d.table.log, from, waste, lives)
    ensures NewStarts(c0, d.table.chain, {}) && ThinsBelow(c0, waste, d.table.chain)
  {
    hide Orderly, Blank, Kept, Lives, SubStarts, WasteOf, IsSub, ThinsBelow;
    LivesMinus(d.table.chain, waste);
    RestOrderly(all, tmp, |d.data|);
    MinusMore(start, waste, tmp.start, waste);
    MinusTwice(start, waste);
  }

  lemma MinusTwice(lives: set<Part>, waste: set<int>)
    ensures Minus(Minus(lives, waste), waste) == Minus(lives, waste)
  {
  }

  lemma NextOf(c: Chain, t: int)
    requires Tiled(c) && 0 <= t < |c|
    ensures HeaderOf(c, t).next == 0 <==> t == |c| - 1
    ensures t + 1 < |c| ==> HeaderOf(c, t).next == c[t + 1].start
  {
    if t + 1 < |c| {
      ApaChain.Apart(c, 0, t + 1);
    }
  }

  lemma NoneLeft(c: Chain, waste: set<int>, size: int)
    requires Orderly(Lives(c, {}), waste, size) && forall k :: 0 <= k < |c| ==> !IsTmp(c[k])
    ensures waste == {}
  {
  }

  /** A partition in use that is not at sector 0 has an index above 0. */
  lemma PartAt(c: Chain, p: Part)
    requires Sound(c) && p in Lives(c, {}) && p.start != 0
    ensures exists i :: 0 < i < |c| && c[i] == p
  {
    var i :| 0 <= i < |c| && c[i] == p;
    assert i > 0;
  }
}
