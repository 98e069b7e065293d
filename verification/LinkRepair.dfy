/** hdck's repair of the partition chain's links, on tables whose links may point
    anywhere: to unreadable sectors, across, or round in circles. */
module LinkRepair {
  import opened ApaChain

  const EEXIST := -17
  const EIO := -5
  const LIST_SIZE := 16384     // sectors a 64 KB buffer can list

  // ----- walks -----

  /** The link a scan follows: next on the way up, prev on the way down. */
  function Onward(h: Header, up: bool): int
  {
    if up then h.next else h.prev
  }

  function Back(h: Header, up: bool): int
  {
    if up then h.prev else h.next
  }

  function WithBack(h: Header, up: bool, sector: int): Header
  {
    if up then h.(prev := sector) else h.(next := sector)
  }

  /** The header before the i-th of a walk; the walk starts from the first header of the disk. */
  function Before(w: seq<int>, i: int): int
  {
    if 0 < i <= |w| then w[i - 1] else 0
  }

  /** Where the walk leads after its first i headers. */
  function Reach(t: Table, up: bool, w: seq<int>, i: int): int
  {
    if Before(w, i) in t then Onward(t[Before(w, i)], up) else 0
  }

  /** w lists the headers met, in order, all different. */
  ghost predicate Walk(t: Table, up: bool, w: seq<int>)
  {
    && 0 in t
    && (forall i :: 0 <= i < |w| ==> Met(t, up, w, i))
    && forall i, j :: 0 <= i < j < |w| ==> w[i] != w[j]
  }

  ghost predicate Met(t: Table, up: bool, w: seq<int>, i: int)
    requires 0 <= i < |w|
  {
    w[i] != 0 && w[i] in t && w[i] == Reach(t, up, w, i)
  }

  /** The walk goes no further: it is at the end, at a header it has met, or at no header. */
  ghost predicate Stuck(t: Table, up: bool, w: seq<int>)
  {
    var s := Reach(t, up, w, |w|);
    s == 0 || s in w || s !in t
  }

  ghost predicate Complete(t: Table, up: bool, w: seq<int>)
  {
    Walk(t, up, w) && Reach(t, up, w, |w|) == 0
  }

  /** From the first header on, each points back at the one before, and the first at the last. */
  ghost predicate BacksRight(t: Table, up: bool, w: seq<int>)
  {
    && (forall i :: 0 <= i < |w| ==> BackAt(t, up, w, i))
    && 0 in t && Back(t[0], up) == Before(w, |w|)
  }

  ghost predicate BackAt(t: Table, up: bool, w: seq<int>, i: int)
    requires 0 <= i < |w|
  {
    w[i] in t && Back(t[w[i]], up) == Before(w, i)
  }

  /** The links are right: the walk up ends, and prev is the exact inverse of next. */
  ghost predicate LinksOk(t: Table)
  {
    exists w :: Complete(t, true, w) && BacksRight(t, true, w)
  }

  // ----- what the walks determine -----

  /** There is only one way to go. */
  lemma {:induction false} OnePath(t: Table, up: bool, v: seq<int>, w: seq<int>, i: int)
    requires Walk(t, up, v) && Walk(t, up, w) && 0 <= i < |v| && i < |w|
    ensures v[i] == w[i]
    decreases i
  {
    assert Met(t, up, v, i) && Met(t, up, w, i);
    if i > 0 {
      OnePath(t, up, v, w, i - 1);
    }
  }

  lemma SameBefore(t: Table, up: bool, v: seq<int>, w: seq<int>)
    requires Walk(t, up, v) && Walk(t, up, w) && |v| <= |w|
    ensures Before(v, |v|) == Before(w, |v|) && Reach(t, up, v, |v|) == Reach(t, up, w, |v|)
  {
    if |v| > 0 {
      OnePath(t, up, v, w, |v| - 1);
    }
  }

  lemma NotLonger(t: Table, up: bool, v: seq<int>, w: seq<int>)
    requires Walk(t, up, v) && Stuck(t, up, v) && Walk(t, up, w)
    ensures |w| <= |v|
  {
    if |v| < |w| {
      assert Met(t, up, w, |v|);
      SameBefore(t, up, v, w);
      var k :| 0 <= k < |v| && v[k] == w[|v|];
      OnePath(t, up, v, w, k);
    }
  }

  /** All walks get stuck at the same place: in particular, one that is stuck anywhere but at
      the end means that no walk reaches the end. */
  lemma StuckUnique(t: Table, up: bool, v: seq<int>, w: seq<int>)
    requires Walk(t, up, v) && Stuck(t, up, v) && Walk(t, up, w) && Stuck(t, up, w)
    ensures v == w
  {
    NotLonger(t, up, v, w);
    NotLonger(t, up, w, v);
    forall i | 0 <= i < |v| ensures v[i] == w[i] {
      OnePath(t, up, v, w, i);
    }
  }

  function Reversed(w: seq<int>): (r: seq<int>)
    ensures |r| == |w|
  {
    seq(|w|, i requires 0 <= i < |w| => w[|w| - 1 - i])
  }

  /** Right links read the same from the other end: the walk down meets the same headers in
      reverse, and finds its own back links right. */
  lemma BothWays(t: Table, up: bool, w: seq<int>)
    requires Complete(t, up, w) && BacksRight(t, up, w)
    ensures Complete(t, !up, Reversed(w)) && BacksRight(t, !up, Reversed(w))
  {
    var r, n, down := Reversed(w), |w|, !up;
    forall i | 0 <= i < n ensures Met(t, down, r, i) {
      assert Met(t, up, w, n - 1 - i);
      if i > 0 {
        assert BackAt(t, up, w, n - i);
      }
    }
    forall i, j | 0 <= i < j < n ensures r[i] != r[j] {
      assert w[n - 1 - j] != w[n - 1 - i];
    }
    forall i | 0 <= i < n ensures BackAt(t, down, r, i) {
      assert Met(t, up, w, n - 1 - i);
      if i > 0 {
        assert Met(t, up, w, n - i);
      }
    }
    if n > 0 {
      assert Met(t, up, w, 0) && BackAt(t, up, w, 0);
    }
  }

  /** A table that holds a chain has nothing to repair. */
  lemma ChainLinks(t: Table, c: Chain)
    requires Tiled(c) && Holds(t, c)
    ensures LinksOk(t)
  {
    hide Aligned;
    var w := seq(|c| - 1, i requires 0 <= i < |c| - 1 => c[i + 1].start);
    assert HoldsAt(t, c, 0) && HoldsAt(t, c, |c| - 1);
    forall i | 0 <= i < |w| ensures Met(t, true, w, i) && BackAt(t, true, w, i) {
      ChainLinkAt(t, c, w, i);
    }
    forall i, j | 0 <= i < j < |w| ensures w[i] != w[j] {
      Apart(c, i + 1, j + 1);
    }
    assert Complete(t, true, w) && BacksRight(t, true, w);
  }

  lemma ChainLinkAt(t: Table, c: Chain, w: seq<int>, i: nat)
    requires Tiled(c) && Holds(t, c) && i + 1 < |c| == |w| + 1
    requires forall k :: 0 <= k < |w| ==> w[k] == c[k + 1].start
    ensures Met(t, true, w, i) && BackAt(t, true, w, i)
  {
    hide Aligned;
    assert HoldsAt(t, c, i + 1) && HoldsAt(t, c, i);
    Apart(c, 0, i + 1);
  }

  // ----- repairing along a walk -----

  /** u is t with the back links along the walk put right and nothing else touched. */
  ghost predicate Repaired(t: Table, u: Table, up: bool, w: seq<int>)
  {
    && u.Keys == t.Keys
    && (forall i :: 0 <= i < |w| ==> Mended(t, u, up, w, i))
    && forall s :: s in t && s !in w ==> u[s] == t[s]
  }

  ghost predicate Mended(t: Table, u: Table, up: bool, w: seq<int>, i: int)
    requires 0 <= i < |w|
  {
    w[i] in t && w[i] in u && u[w[i]] == WithBack(t[w[i]], up, Before(w, i))
  }

  /** A walk is no longer than the table. */
  lemma {:induction false} DistinctBound(w: seq<int>, keys: set<int>)
    requires forall i :: 0 <= i < |w| ==> w[i] in keys
    requires forall i, j :: 0 <= i < j < |w| ==> w[i] != w[j]
    ensures |w| <= |keys|
  {
    if |w| > 0 {
      var n := |w| - 1;
      DistinctBound(w[..n], keys - {w[n]});
    }
  }

  lemma WalkBound(t: Table, up: bool, w: seq<int>)
    requires Walk(t, up, w)
    ensures |w| < |t|
  {
    forall i | 0 <= i < |w| ensures w[i] in t.Keys - {0} {
      assert Met(t, up, w, i);
    }
    DistinctBound(w, t.Keys - {0});
    assert |t.Keys - {0}| == |t.Keys| - 1;
  }

  lemma ScanStart(t: Table, up: bool)
    requires 0 in t
    ensures Walk(t, up, []) && Repaired(t, t, up, []) && Reach(t, up, [], 0) == Onward(t[0], up) && 0 < |t|
  {
  }

  /** One more header met and repaired. */
  lemma ScanStep(t: Table, u: Table, up: bool, w: seq<int>, s: int)
    requires Walk(t, up, w) && Repaired(t, u, up, w)
    requires s == Reach(t, up, w, |w|) && s != 0 && s in t && s !in w
    ensures Walk(t, up, w + [s]) && |w + [s]| < |t|
    ensures s in u && Repaired(t, u[s := WithBack(u[s], up, Before(w, |w|))], up, w + [s])
    ensures Reach(t, up, w + [s], |w + [s]|) == Onward(u[s], up) && Before(w + [s], |w + [s]|) == s
    ensures Back(u[s], up) == Before(w, |w|) ==> u[s := WithBack(u[s], up, Before(w, |w|))] == u
    ensures u[s].start == t[s].start
  {
    WalkSnoc(t, up, w);
    WalkBound(t, up, w + [s]);
    RepairedSnoc(t, u, up, w, s);
  }

  lemma RepairedSnoc(t: Table, u: Table, up: bool, w: seq<int>, s: int)
    requires Repaired(t, u, up, w) && s in t && s !in w
    ensures Repaired(t, u[s := WithBack(u[s], up, Before(w, |w|))], up, w + [s])
  {
    var v, x := w + [s], u[s := WithBack(u[s], up, Before(w, |w|))];
    forall i | 0 <= i < |v| ensures Mended(t, x, up, v, i) {
      assert i < |w| ==> Mended(t, u, up, w, i);
    }
  }

  lemma WalkSnoc(t: Table, up: bool, w: seq<int>)
    requires Walk(t, up, w) && !Stuck(t, up, w)
    ensures Walk(t, up, w + [Reach(t, up, w, |w|)])
  {
    var v := w + [Reach(t, up, w, |w|)];
    forall i | 0 <= i < |v| ensures Met(t, up, v, i) {
      assert i < |w| ==> Met(t, up, w, i);
    }
  }

  /** A completed walk, repaired, has right back links once the first header's is right too. */
  lemma RepairedRight(t: Table, u: Table, up: bool, w: seq<int>)
    requires Complete(t, up, w) && Repaired(t, u, up, w)
    ensures 0 in u && Complete(u[0 := WithBack(u[0], up, Before(w, |w|))], up, w)
    ensures BacksRight(u[0 := WithBack(u[0], up, Before(w, |w|))], up, w)
  {
    var v, n := u[0 := WithBack(u[0], up, Before(w, |w|))], |w|;
    forall i | 0 <= i < n ensures w[i] != 0 {
      assert Met(t, up, w, i);
    }
    assert 0 !in w;
    forall i | 0 <= i < n ensures Met(v, up, w, i) && BackAt(v, up, w, i) {
      assert Met(t, up, w, i) && Mended(t, u, up, w, i);
      if i > 0 {
        assert Met(t, up, w, i - 1) && Mended(t, u, up, w, i - 1);
      }
    }
    if n > 0 {
      assert Met(t, up, w, n - 1) && Mended(t, u, up, w, n - 1);
    }
  }

  /** Where the links were right, the repair of a walk repairs nothing. */
  lemma NothingToRepair(t: Table, u: Table, w: seq<int>, v: seq<int>)
    requires Complete(t, true, w) && BacksRight(t, true, w)
    requires Walk(t, true, v) && Stuck(t, true, v) && Repaired(t, u, true, v)
    ensures v == w && u == t
  {
    StuckUnique(t, true, v, w);
    forall s | s in t ensures u[s] == t[s] {
      if s in w {
        var i :| 0 <= i < |w| && w[i] == s;
        assert BackAt(t, true, w, i) && Mended(t, u, true, v, i);
      }
    }
  }

  /** The walk up is barred, but with its back links repaired the walk down completes. */
  ghost predicate Salvageable(t: Table)
  {
    exists w, u :: Walk(t, true, w) && Stuck(t, true, w) && Repaired(t, u, true, w) && Completes(u, false)
  }

  ghost predicate Completes(t: Table, up: bool)
  {
    exists w :: Complete(t, up, w)
  }

  lemma RepairedUnique(t: Table, u: Table, x: Table, up: bool, w: seq<int>)
    requires Repaired(t, u, up, w) && Repaired(t, x, up, w)
    ensures u == x
  {
    forall s | s in t ensures u[s] == x[s] {
      if s in w {
        var i :| 0 <= i < |w| && w[i] == s;
        assert Mended(t, u, up, w, i) && Mended(t, x, up, w, i);
      }
    }
  }

  lemma Salvage(t: Table, u: Table, w: seq<int>)
    requires Walk(t, true, w) && Stuck(t, true, w) && Repaired(t, u, true, w)
    ensures Salvageable(t) <==> Completes(u, false)
  {
    if Salvageable(t) {
      var v, x :| Walk(t, true, v) && Stuck(t, true, v) && Repaired(t, x, true, v) && Completes(x, false);
      StuckUnique(t, true, v, w);
      RepairedUnique(t, u, x, true, w);
    }
  }

  lemma DownStuck(t: Table, w: seq<int>)
    requires Walk(t, false, w) && Stuck(t, false, w) && Reach(t, false, w, |w|) != 0
    ensures !Completes(t, false)
  {
    if v :| Complete(t, false, v) {
      StuckUnique(t, false, w, v);
    }
  }

  /** A repair changes links only. */
  lemma OnlyLinks(t: Table, u: Table, up: bool, w: seq<int>)
    requires Repaired(t, u, up, w)
    ensures u.Keys == t.Keys && forall s :: s in t ==> u[s] == t[s].(next := u[s].next, prev := u[s].prev)
  {
    forall s | s in t ensures u[s] == t[s].(next := u[s].next, prev := u[s].prev) {
      if s in w {
        var i :| 0 <= i < |w| && w[i] == s;
        assert Mended(t, u, up, w, i);
      }
    }
  }

  lemma UpDone(t: Table, u: Table, w: seq<int>)
    requires Walk(t, true, w) && Reach(t, true, w, |w|) == 0 && Repaired(t, u, true, w)
    ensures Completes(t, true)
    ensures 0 in u && LinksOk(u[0 := WithBack(u[0], true, Before(w, |w|))])
    ensures LinksOk(t) ==> u == t && u[0 := WithBack(u[0], true, Before(w, |w|))] == t
  {
    assert Complete(t, true, w);
    RepairedRight(t, u, true, w);
    if LinksOk(t) {
      var v :| Complete(t, true, v) && BacksRight(t, true, v);
      NothingToRepair(t, u, v, w);
    }
  }

  lemma UpStuck(t: Table, w: seq<int>)
    requires Walk(t, true, w) && Stuck(t, true, w) && Reach(t, true, w, |w|) != 0
    ensures !Completes(t, true)
    ensures !LinksOk(t)
  {
    if v :| Complete(t, true, v) {
      StuckUnique(t, true, w, v);
    }
  }

  lemma DownDone(t: Table, u: Table, w: seq<int>)
    requires Walk(t, false, w) && Reach(t, false, w, |w|) == 0 && Repaired(t, u, false, w)
    ensures Completes(t, false)
    ensures 0 in u && LinksOk(u[0 := WithBack(u[0], false, Before(w, |w|))])
  {
    assert Complete(t, false, w);
    RepairedRight(t, u, false, w);
    BothWays(u[0 := WithBack(u[0], false, Before(w, |w|))], false, w);
  }

  /** The headers of a disk as hdck sees them; a sector with no entry is unreadable. */
  class LinkChecker {
    var heads: Table
    const list: array<int>
    var errorLBA: int
    var errorPrevLBA: int
    var error2LBA: int
    var error2PrevLBA: int

    ghost predicate Valid()
      reads this
    {
      && 0 in heads && |heads| <= LIST_SIZE == list.Length
      && forall s :: s in heads ==> heads[s].start == s
    }

    constructor (heads: Table)
      requires 0 in heads && |heads| <= LIST_SIZE && forall s :: s in heads ==> heads[s].start == s
      ensures Valid() && this.heads == heads && fresh(list)
      ensures errorLBA == errorPrevLBA == error2LBA == error2PrevLBA == 0
    {
      this.heads := heads;
      list := new int[LIST_SIZE];
      errorLBA, errorPrevLBA, error2LBA, error2PrevLBA := 0, 0, 0, 0;
    }

    /** Lists a sector unless it is listed already. */
    method AddPartitionToList(count: nat, sector: int) returns (result: int, newCount: nat)
      requires count < list.Length
      modifies list
      ensures sector in old(list[..count]) ==> result == EEXIST && newCount == count && list[..] == old(list[..])
      ensures sector !in old(list[..count]) ==> result == 0 && newCount == count + 1
      ensures sector !in old(list[..count]) ==> list[..count + 1] == old(list[..count]) + [sector]
    {
      var i := 0;
      while i < count && list[i] != sector
        invariant 0 <= i <= count && sector !in list[..i]
      {
        i := i + 1;
      }
      if i == count {
        list[i] := sector;
        return 0, count + 1;
      }
      assert list[..count][i] == sector;
      return EEXIST, count;
    }

    /** The scan has met and repaired the headers of w and leads to sector `current`. */
    ghost predicate Scanning(t: Table, up: bool, w: seq<int>, count: nat, current: int, parent: int)
      reads this, list
    {
      && Valid() && Walk(t, up, w) && Repaired(t, heads, up, w)
      && count == |w| < list.Length && list[..count] == w
      && current == Reach(t, up, w, |w|) && parent == Before(w, |w|)
    }

    /** Up the chain along next, putting prev right. */
    method ScanUp() returns (result: int, current: int, parent: int, ghost w: seq<int>)
      requires Valid()
      modifies this`heads, list
      ensures Valid() && Walk(old(heads), true, w) && Stuck(old(heads), true, w) && Repaired(old(heads), heads, true, w)
      ensures current == Reach(old(heads), true, w, |w|) && parent == Before(w, |w|)
      ensures result == 0 <==> current == 0
    {
      hide Walk, Repaired;
      ghost var t := heads;
      ScanStart(t, true);
      var count := 0;
      result, current, parent, w := 0, heads[0].next, 0, [];
      while current != 0
        invariant Scanning(t, true, w, count, current, parent) && result == 0
        decreases |t| - |w|
      {
        OnlyLinks(t, heads, true, w);
        result, count := AddPartitionToList(count, current);
        if result < 0 {
          return;
        }
        if current !in heads {
          return EIO, current, parent, w;
        }
        ScanStep(t, heads, true, w, current);
        var header := heads[current];
        if header.prev != parent {
          header := header.(prev := parent);
          heads := heads[current := header];
        }
        w, parent, current := w + [current], header.start, header.next;
      }
    }

    /** Down the chain along prev, putting next right. */
    method ScanDown() returns (result: int, current: int, parent: int, ghost w: seq<int>)
      requires Valid()
      modifies this`heads, list
      ensures Valid() && Walk(old(heads), false, w) && Stuck(old(heads), false, w)
      ensures Repaired(old(heads), heads, false, w)
      ensures current == Reach(old(heads), false, w, |w|) && parent == Before(w, |w|)
      ensures result == 0 <==> current == 0
    {
      hide Walk, Repaired;
      ghost var t := heads;
      ScanStart(t, false);
      var count := 0;
      result, current, parent, w := 0, heads[0].prev, 0, [];
      while current != 0
        invariant Scanning(t, false, w, count, current, parent) && result == 0
        decreases |t| - |w|
      {
        OnlyLinks(t, heads, false, w);
        result, count := AddPartitionToList(count, current);
        if result < 0 {
          return;
        }
        if current !in heads {
          return EIO, current, parent, w;
        }
        ScanStep(t, heads, false, w, current);
        var header := heads[current];
        if header.next != parent {
          header := header.(next := parent);
          heads := heads[current := header];
        }
        w, parent, current := w + [current], header.start, header.prev;
      }
    }

    /** Repairs the links; 0 means they are right now. */
    method CheckLinks() returns (error: int, ghost w: seq<int>, ghost mid: Table, ghost v: seq<int>)
      requires Valid()
      modifies this, list
      ensures Valid() && error == errorLBA
      ensures error == 0 ==> LinksOk(heads)
      ensures LinksOk(old(heads)) ==> error == 0 && heads == old(heads)
      ensures error == 0 <==> Completes(old(heads), true) || Salvageable(old(heads))
      ensures Walk(old(heads), true, w) && Stuck(old(heads), true, w) && Repaired(old(heads), mid, true, w)
      ensures
        if Completes(old(heads), true) then
          errorLBA == 0 && errorPrevLBA == 0 && error2LBA == 0 && error2PrevLBA == 0
        else
          && errorPrevLBA == Before(w, |w|) && Walk(mid, false, v) && Stuck(mid, false, v)
          && if Completes(mid, false) then errorLBA == 0 && error2LBA == 0 && error2PrevLBA == 0
             else
               && errorLBA == Reach(old(heads), true, w, |w|) && error2LBA == Reach(mid, false, v, |v|)
               && error2PrevLBA == Before(v, |v|)
      ensures heads.Keys == old(heads).Keys
      ensures forall s :: s in heads ==> heads[s] == old(heads)[s].(next := heads[s].next, prev := heads[s].prev)
    {
      hide Walk, Stuck, Complete, BacksRight, Repaired;
      ghost var t := heads;
      var current, parent, result;
      v := [];
      error2LBA, errorLBA, error2PrevLBA, errorPrevLBA := 0, 0, 0, 0;
      result, current, parent, w := ScanUp();
      mid := heads;
      OnlyLinks(t, heads, true, w);
      if result == 0 {
        ghost var u := heads;
        UpDone(t, u, w);
        if heads[0].prev != parent {
          heads := heads[0 := heads[0].(prev := parent)];
        }
        assert heads == u[0 := WithBack(u[0], true, parent)];
      } else {
        UpStuck(t, w);
        Salvage(t, heads, w);
        errorLBA, errorPrevLBA := current, parent;
        v := FallBack();
      }
      error := errorLBA;
    }

    /** When the way up is barred, the way down may still mend the table. */
    method FallBack() returns (ghost v: seq<int>)
      requires Valid()
      modifies this, list
      ensures Valid() && heads.Keys == old(heads).Keys
      ensures if Completes(old(heads), false) then errorLBA == 0 && LinksOk(heads) else errorLBA == old(errorLBA)
      ensures Walk(old(heads), false, v) && Stuck(old(heads), false, v) && errorPrevLBA == old(errorPrevLBA)
      ensures
        if Completes(old(heads), false) then error2LBA == old(error2LBA) && error2PrevLBA == old(error2PrevLBA)
        else error2LBA == Reach(old(heads), false, v, |v|) && error2PrevLBA == Before(v, |v|)
      ensures forall s :: s in heads ==> heads[s] == old(heads)[s].(next := heads[s].next, prev := heads[s].prev)
    {
      hide Walk, Stuck, Complete, BacksRight, Repaired;
      ghost var u := heads;
      var current, parent, result;
      result, current, parent, v := ScanDown();
      OnlyLinks(u, heads, false, v);
      if result == 0 {
        ghost var mid := heads;
        DownDone(u, mid, v);
        if heads[0].next != parent {
          heads := heads[0 := heads[0].(next := parent)];
        }
        assert heads == mid[0 := WithBack(mid[0], false, parent)];
        errorLBA := 0;
      } else {
        DownStuck(u, v);
        error2LBA, error2PrevLBA := current, parent;
      }
    }
  }
}
