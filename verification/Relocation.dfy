/** What the partitions in use say, whatever their addresses: the references between main and sub
    partitions, and what moving a partition does to them. */
module Relocation {
  import opened ApaChain

  predicate IsSub(b: Body)
  {
    b.flags % 2 == 1
  }

  /** The partition that a move leaves behind. */
  predicate IsTmp(p: Part)
  {
    !IsSub(p.body) && p.body.id == "_tmp"
  }

  function TmpBody(ptype: int): Body
  {
    Body(ptype, 0, "_tmp", 0, 0, 0, [])
  }

  // ----- the partitions in use -----

  ghost function Lives(c: Chain, waste: set<int>): set<Part>
  {
    set p | p in c && p.Used() && p.start !in waste
  }

  lemma UsedLives(c: Chain, d: Chain, target: int, waste: set<int>)
    requires SameUsed(c, d, target) && target in waste
    ensures Lives(c, waste) == Lives(d, waste)
  {
    forall p: Part ensures p in Lives(c, waste) <==> p in Lives(d, waste) {
      var there := p.Used() && p.start != target && p in c;
    }
  }

  lemma LivesApart(c: Chain, waste: set<int>, p: Part, q: Part)
    requires Tiled(c) && p in c && q in c && p != q
    ensures p.start != q.start && (p.End() <= q.start || q.End() <= p.start)
  {
    var i :| 0 <= i < |c| && c[i] == p;
    var j :| 0 <= j < |c| && c[j] == q;
    ApaChain.Apart(c, i, j);
  }

  // ----- references -----

  /** p is the i-th sub of m and says so. */
  predicate Pair(p: Part, m: Part, i: int)
  {
    && IsSub(p.body) && !IsSub(m.body)
    && 0 <= i < m.body.nsub <= |m.body.subs|
    && m.body.subs[i] == Sub(p.start, p.length) && p.body.main == m.start
  }

  ghost predicate HasMain(lives: set<Part>, p: Part)
  {
    exists m, i :: m in lives && Pair(p, m, i)
  }

  ghost predicate HasSub(lives: set<Part>, m: Part, i: int)
  {
    exists p :: p in lives && Pair(p, m, i)
  }

  ghost predicate LinkedAt(lives: set<Part>, p: Part)
  {
    if IsSub(p.body) then HasMain(lives, p)
    else
      && 0 <= p.body.nsub <= |p.body.subs|
      && (forall i :: 0 <= i < p.body.nsub ==> HasSub(lives, p, i))
      && forall i, j :: 0 <= i < j < p.body.nsub ==> p.body.subs[i].start != p.body.subs[j].start
  }

  /** Every sub is on its main's list, every entry of a main's list is a sub of it, and no two
      partitions are at one address. */
  ghost predicate Linked(lives: set<Part>)
  {
    && (forall p :: p in lives ==> LinkedAt(lives, p))
    && forall p, q :: p in lives && q in lives && p.start == q.start ==> p == q
  }

  // ----- renaming addresses -----

  function At(f: map<int, int>, x: int): int
  {
    if x in f then f[x] else x
  }

  function MovedSub(f: map<int, int>, s: Sub): Sub
  {
    Sub(At(f, s.start), s.length)
  }

  /** The references of a body after partitions moved. */
  function Redirected(f: map<int, int>, b: Body): (r: Body)
    ensures |r.subs| == |b.subs| && r.nsub == b.nsub && r.flags == b.flags && r.ptype == b.ptype && r.id == b.id
  {
    if IsSub(b) then b.(main := At(f, b.main))
    else b.(subs := seq(|b.subs|, i requires 0 <= i < |b.subs| =>
      if i < b.nsub then MovedSub(f, b.subs[i]) else b.subs[i]))
  }

  function Moved(f: map<int, int>, p: Part): Part
  {
    Part(At(f, p.start), p.length, Redirected(f, p.body))
  }

  /** The partitions after some of them moved. */
  ghost function Image(f: map<int, int>, lives: set<Part>): set<Part>
  {
    set p | p in lives :: Moved(f, p)
  }

  /** No two partitions move to one address. */
  ghost predicate Injective(f: map<int, int>, lives: set<Part>)
  {
    forall p, q :: p in lives && q in lives && At(f, p.start) == At(f, q.start) ==> p.start == q.start
  }

  lemma PairMoved(f: map<int, int>, p: Part, m: Part, i: int)
    requires Pair(p, m, i)
    ensures Pair(Moved(f, p), Moved(f, m), i)
  {
  }

  /** Renaming keeps every reference pair. */
  lemma LinkedMoved(f: map<int, int>, lives: set<Part>)
    requires Linked(lives) && Injective(f, lives)
    ensures Linked(Image(f, lives))
  {
    hide Redirected, Pair, IsSub;
    forall q | q in Image(f, lives) ensures LinkedAt(Image(f, lives), q) {
      var p :| p in lives && q == Moved(f, p);
      LinkedAtMoved(f, lives, p);
    }
  }

  lemma LinkedAtMoved(f: map<int, int>, lives: set<Part>, p: Part)
    requires Linked(lives) && Injective(f, lives) && p in lives
    ensures LinkedAt(Image(f, lives), Moved(f, p))
  {
    var all, q := Image(f, lives), Moved(f, p);
    assert LinkedAt(lives, p);
    if IsSub(p.body) {
      var m, i :| m in lives && Pair(p, m, i);
      PairMoved(f, p, m, i);
      assert Moved(f, m) in all;
    } else {
      forall i | 0 <= i < p.body.nsub ensures HasSub(all, q, i) {
        var s := SubMoved(f, lives, p, i);
      }
      forall i, j | 0 <= i < j < p.body.nsub ensures q.body.subs[i].start != q.body.subs[j].start {
        var s := SubMoved(f, lives, p, i);
        var t := SubMoved(f, lives, p, j);
        assert p.body.subs[i].start != p.body.subs[j].start;
      }
    }
  }

  lemma SubMoved(f: map<int, int>, lives: set<Part>, m: Part, i: int) returns (p: Part)
    requires m in lives && LinkedAt(lives, m) && !IsSub(m.body) && 0 <= i < m.body.nsub
    ensures p in lives && Pair(p, m, i) && Moved(f, p) in Image(f, lives) && Pair(Moved(f, p), Moved(f, m), i)
  {
    assert HasSub(lives, m, i);
    p :| p in lives && Pair(p, m, i);
    PairMoved(f, p, m, i);
  }

  // ----- moves one after the other -----

  /** First f, then g. */
  function Then(f: map<int, int>, g: map<int, int>): (h: map<int, int>)
    ensures h.Keys == f.Keys
  {
    map x | x in f :: At(g, f[x])
  }

  /** All that a body refers to is renamed by f. */
  predicate RefsIn(f: map<int, int>, b: Body)
  {
    if IsSub(b) then b.main in f
    else b.nsub <= |b.subs| && forall i :: 0 <= i < b.nsub ==> b.subs[i].start in f
  }

  lemma RedirectedThen(f: map<int, int>, g: map<int, int>, b: Body)
    requires RefsIn(f, b)
    ensures Redirected(g, Redirected(f, b)) == Redirected(Then(f, g), b)
  {
    var h := Then(f, g);
    if !IsSub(b) {
      var two, one := Redirected(g, Redirected(f, b)).subs, Redirected(h, b).subs;
      forall i | 0 <= i < |b.subs| ensures two[i] == one[i] {
        assert Redirected(f, b).subs[i] == if i < b.nsub then MovedSub(f, b.subs[i]) else b.subs[i];
      }
      assert two == one;
    }
  }

  ghost predicate Covers(f: map<int, int>, lives: set<Part>)
  {
    forall p :: p in lives ==> p.start in f
  }

  lemma LinkedRefs(f: map<int, int>, lives: set<Part>, p: Part)
    requires Linked(lives) && Covers(f, lives) && p in lives
    ensures RefsIn(f, p.body)
  {
    assert LinkedAt(lives, p);
    if !IsSub(p.body) {
      forall i | 0 <= i < p.body.nsub ensures p.body.subs[i].start in f {
        assert HasSub(lives, p, i);
      }
    }
  }

  /** Two moves are one. */
  lemma ImageThen(f: map<int, int>, g: map<int, int>, lives: set<Part>)
    requires Linked(lives) && Covers(f, lives)
    ensures Image(g, Image(f, lives)) == Image(Then(f, g), lives)
  {
    hide Redirected, Linked;
    forall p | p in lives ensures Moved(g, Moved(f, p)) == Moved(Then(f, g), p) {
      LinkedRefs(f, lives, p);
      RedirectedThen(f, g, p.body);
    }
    forall q: Part ensures q in Image(g, Image(f, lives)) <==> q in Image(Then(f, g), lives) {
      if q in Image(g, Image(f, lives)) {
        var r :| r in Image(f, lives) && q == Moved(g, r);
        var p :| p in lives && r == Moved(f, p);
      }
      if q in Image(Then(f, g), lives) {
        var p :| p in lives && q == Moved(Then(f, g), p);
        assert Moved(f, p) in Image(f, lives);
      }
    }
  }

  /** Nothing moves. */
  lemma ImageSame(f: map<int, int>, lives: set<Part>)
    requires forall x :: x in f ==> f[x] == x
    ensures Image(f, lives) == lives
  {
    forall p | p in lives ensures Moved(f, p) == p {
      var subs := Redirected(f, p.body).subs;
      assert forall i :: 0 <= i < |subs| ==> MovedSub(f, p.body.subs[i]) == p.body.subs[i];
      if !IsSub(p.body) {
        assert subs == p.body.subs;
      }
    }
    forall p | p in lives ensures p in Image(f, lives) {
      assert Moved(f, p) == p;
    }
  }

  // ----- one partition moves -----

  function Step(from: int, to: int): map<int, int>
  {
    map[from := to]
  }

  /** What partition k says after partition s moved to d: d has the header of s, s is left to be
      removed, and references to s go to d. */
  function NewBody(c: Chain, s: int, d: int, k: int): Body
    requires 0 <= s < |c| && 0 <= d < |c| && 0 <= k < |c|
  {
    if k == d then c[s].body
    else if k == s then TmpBody(c[s].body.ptype)
    else if c[k].Used() then Redirected(Step(c[s].start, c[d].start), c[k].body)
    else c[k].body
  }

  function Swapped(c: Chain, s: int, d: int): (e: Chain)
    requires 0 <= s < |c| && 0 <= d < |c|
    ensures |e| == |c|
  {
    seq(|c|, k requires 0 <= k < |c| => c[k].(body := NewBody(c, s, d, k)))
  }

  /** Partition s is in use, d is a free slot of its size, and the references are in order. */
  ghost predicate Movable(c: Chain, s: int, d: int)
  {
    && Sound(c) && 0 <= s < |c| && 0 <= d < |c| && c[s].Used() && !c[d].Used() && c[s].length == c[d].length
    && Linked(Lives(c, {}))
  }

  lemma SwappedSound(c: Chain, s: int, d: int)
    requires Movable(c, s, d)
    ensures Sound(Swapped(c, s, d))
  {
    hide Linked, Redirected;
    var e := Swapped(c, s, d);
    forall k | 0 <= k < |c|
      ensures Aligned(e[k]) && (c[k].Used() ==> e[k].Used()) && e[k].start == c[k].start && e[k].End() == c[k].End() {
      assert Aligned(c[k]);
    }
  }

  lemma SwappedHolds(t: Table, c: Chain, s: int, d: int)
    requires Movable(c, s, d)
    requires forall k :: 0 <= k < |c| ==>
      c[k].start in t && t[c[k].start] == HeaderOf(c, k).(body := NewBody(c, s, d, k))
    ensures Holds(t, Swapped(c, s, d))
  {
    hide Linked, Redirected, NewBody, Sound, Lives, Swapped, HeaderOf;
    var e := Swapped(c, s, d);
    forall k | 0 <= k < |e| ensures HoldsAt(t, e, k) {
      SwappedHeader(c, s, d, k);
    }
  }

  lemma SwappedHeader(c: Chain, s: int, d: int, k: int)
    requires 0 <= s < |c| && 0 <= d < |c| && 0 <= k < |c|
    ensures HeaderOf(Swapped(c, s, d), k) == HeaderOf(c, k).(body := NewBody(c, s, d, k))
    ensures Swapped(c, s, d)[k].start == c[k].start
  {
    hide NewBody;
  }

  predicate Refers(b: Body, x: int)
  {
    if IsSub(b) then b.main == x
    else exists i :: 0 <= i < b.nsub && i < |b.subs| && b.subs[i].start == x
  }

  lemma NotRedirected(b: Body, from: int, to: int)
    requires !Refers(b, from)
    ensures Redirected(Step(from, to), b) == b
  {
    var subs := Redirected(Step(from, to), b).subs;
    if !IsSub(b) {
      assert subs == b.subs;
    }
  }

  /** No partition refers to itself. */
  lemma NoSelf(lives: set<Part>, p: Part)
    requires Linked(lives) && p in lives
    ensures !Refers(p.body, p.start)
  {
    assert LinkedAt(lives, p);
    if !IsSub(p.body) {
      forall i | 0 <= i < p.body.nsub ensures p.body.subs[i].start != p.start {
        assert HasSub(lives, p, i);
      }
    }
  }

  /** After the move the partitions in use are the same, at their new addresses. */
  lemma SwappedLives(c: Chain, s: int, d: int)
    requires Movable(c, s, d)
    ensures Lives(Swapped(c, s, d), {c[s].start}) == Image(Step(c[s].start, c[d].start), Lives(c, {}))
  {
    hide Linked, Redirected, Swapped;
    var e, f, lives := Swapped(c, s, d), Step(c[s].start, c[d].start), Lives(c, {});
    forall k | 0 <= k < |c| && c[k] in lives
      ensures e[if k == s then d else k] == Moved(f, c[k]) && Moved(f, c[k]) in Lives(e, {c[s].start}) {
      SwappedAt(c, s, d, k);
      SwappedAt(c, s, d, if k == s then d else k);
    }
    forall k | 0 <= k < |c| && e[k] in Lives(e, {c[s].start})
      ensures e[k] in Image(f, lives) {
      SwappedAt(c, s, d, k);
      if k == d {
        SwappedAt(c, s, d, s);
      }
    }
  }

  lemma SwappedAt(c: Chain, s: int, d: int, k: int)
    requires Movable(c, s, d) && 0 <= k < |c|
    ensures Swapped(c, s, d)[k] == c[k].(body := NewBody(c, s, d, k))
    ensures k != s && k != d && c[k].Used() ==> Swapped(c, s, d)[k] == Moved(Step(c[s].start, c[d].start), c[k])
    ensures k == s ==> Swapped(c, s, d)[d] == Moved(Step(c[s].start, c[d].start), c[s])
    ensures k == s ==> Swapped(c, s, d)[s].start == c[s].start
    ensures k != s ==> c[k].start != c[s].start
    ensures !c[k].Used() && k != d ==> !Swapped(c, s, d)[k].Used()
  {
    hide Linked, Redirected;
    if k != s {
      ApaChain.Apart(c, k, s);
    } else {
      ApaChain.Apart(c, s, d);
      assert c[s] in Lives(c, {});
      NoSelf(Lives(c, {}), c[s]);
      NotRedirected(c[s].body, c[s].start, c[d].start);
    }
  }

  /** A free slot is nobody's address. */
  lemma StepInjective(c: Chain, s: int, d: int)
    requires Movable(c, s, d)
    ensures Injective(Step(c[s].start, c[d].start), Lives(c, {}))
  {
    hide Linked;
    forall p | p in Lives(c, {}) ensures p.start != c[d].start {
      var i :| 0 <= i < |c| && c[i] == p;
      ApaChain.Apart(c, i, d);
    }
  }

  /** Entry i of the list names another address. */
  function Reentered(b: Body, i: int, x: int): Body
    requires 0 <= i < |b.subs|
  {
    b.(subs := b.subs[i := Sub(x, b.subs[i].length)])
  }

  /** When a sub moves, one entry of its main's list is all that refers to it. */
  lemma SubReferred(c: Chain, s: int, d: int, m: int, i: int, k: int)
    requires Movable(c, s, d) && 0 <= m < |c| && c[m].Used() && Pair(c[s], c[m], i) && 0 <= k < |c|
    ensures k != s && k != d ==>
      NewBody(c, s, d, k) == if k == m then Reentered(c[m].body, i, c[d].start) else c[k].body
    ensures m != s && m != d
    ensures forall j :: 0 <= j < i ==> c[m].body.subs[j].start != c[s].start
  {
    var lives, f := Lives(c, {}), Step(c[s].start, c[d].start);
    assert c[s] in lives && c[m] in lives;
    assert LinkedAt(lives, c[m]);
    if k != s && k != d && c[k].Used() {
      assert c[k] in lives;
      assert LinkedAt(lives, c[k]);
      ApaChain.Apart(c, k, s);
      if k == m {
        var one, two := Redirected(f, c[m].body).subs, c[m].body.subs[i := Sub(c[d].start, c[m].body.subs[i].length)];
        assert one == two;
      } else {
        ApaChain.Apart(c, k, m);
        NoOtherMain(lives, c[s], c[m], i, c[k]);
        NotRedirected(c[k].body, c[s].start, c[d].start);
      }
    }
  }

  lemma NoOtherMain(lives: set<Part>, p: Part, m: Part, i: int, q: Part)
    requires Linked(lives) && p in lives && m in lives && q in lives && Pair(p, m, i) && q != m && q != p
    ensures !Refers(q.body, p.start)
  {
    assert LinkedAt(lives, q);
    if IsSub(q.body) {
      var n, j :| n in lives && Pair(q, n, j);
      assert n != p;
    } else {
      forall j | 0 <= j < q.body.nsub ensures q.body.subs[j].start != p.start {
        assert HasSub(lives, q, j);
        var r :| r in lives && Pair(r, q, j);
        assert r.start == p.start ==> r == p;
      }
    }
  }

  /** x is among the first n entries of the list. */
  predicate Named(b: Body, n: int, x: int)
  {
    exists i :: 0 <= i < n && i < |b.subs| && b.subs[i].start == x
  }

  /** When a main moves, its subs are all that refer to it. */
  lemma MainReferred(c: Chain, s: int, d: int, k: int)
    requires Movable(c, s, d) && !IsSub(c[s].body) && 0 <= k < |c| && k != s && k != d
    ensures NewBody(c, s, d, k) ==
      if Named(c[s].body, c[s].body.nsub, c[k].start) then c[k].body.(main := c[d].start) else c[k].body
  {
    var lives, f := Lives(c, {}), Step(c[s].start, c[d].start);
    assert c[s] in lives;
    assert LinkedAt(lives, c[s]);
    ApaChain.Apart(c, k, s);
    if Named(c[s].body, c[s].body.nsub, c[k].start) {
      var i :| 0 <= i < c[s].body.nsub && c[s].body.subs[i].start == c[k].start;
      assert HasSub(lives, c[s], i);
      var q :| q in lives && Pair(q, c[s], i);
      var l :| 0 <= l < |c| && c[l] == q;
      if l != k {
        ApaChain.Apart(c, l, k);
      }
    } else if c[k].Used() {
      assert c[k] in lives;
      NotNamed(lives, c[s], c[k]);
      NotRedirected(c[k].body, c[s].start, c[d].start);
    }
  }

  lemma NotNamed(lives: set<Part>, m: Part, q: Part)
    requires Linked(lives) && m in lives && q in lives && q != m && !IsSub(m.body)
    requires !Named(m.body, m.body.nsub, q.start)
    ensures !Refers(q.body, m.start)
  {
    assert LinkedAt(lives, q);
    if IsSub(q.body) {
      var n, j :| n in lives && Pair(q, n, j);
      assert n.start == m.start ==> n == m;
    } else {
      forall j | 0 <= j < q.body.nsub ensures q.body.subs[j].start != m.start {
        assert HasSub(lives, q, j);
        var r :| r in lives && Pair(r, q, j);
        assert r.start == m.start ==> r == m;
      }
    }
  }

  // ----- what is to be removed -----

  /** Where a left-over main partition and its subs are. */
  function WasteOf(p: Part): set<int>
  {
    {p.start} + set i | 0 <= i < p.body.nsub && i < |p.body.subs| :: p.body.subs[i].start
  }

  /** At most one partition is left over; it and its subs are the waste. */
  ghost predicate Tidy(lives: set<Part>, waste: set<int>)
  {
    && (forall p :: p in lives && p.start !in waste ==> !IsTmp(p))
    && (waste == {} || exists p :: p in lives && IsTmp(p) && waste == WasteOf(p))
  }

  ghost function Minus(lives: set<Part>, waste: set<int>): set<Part>
  {
    set p | p in lives && p.start !in waste
  }

  /** A main and its subs refer to nothing else, nor does anything else refer to them. */
  lemma LinkedMinus(lives: set<Part>, p: Part)
    requires Linked(lives) && p in lives && !IsSub(p.body)
    ensures Linked(Minus(lives, WasteOf(p)))
  {
    var rest := Minus(lives, WasteOf(p));
    forall q | q in rest ensures LinkedAt(rest, q) {
      assert LinkedAt(lives, q);
      if IsSub(q.body) {
        var m, i :| m in lives && Pair(q, m, i);
        StaysWith(lives, p, q, m, i);
      } else {
        forall i | 0 <= i < q.body.nsub ensures HasSub(rest, q, i) {
          assert HasSub(lives, q, i);
          var r :| r in lives && Pair(r, q, i);
          StaysWith(lives, p, r, q, i);
        }
      }
    }
  }

  /** A sub stays when its main does and goes when it goes. */
  lemma StaysWith(lives: set<Part>, p: Part, q: Part, m: Part, i: int)
    requires Linked(lives) && p in lives && !IsSub(p.body) && q in lives && m in lives && Pair(q, m, i)
    ensures q.start in WasteOf(p) <==> m.start in WasteOf(p)
  {
    assert LinkedAt(lives, p);
    if m.start in WasteOf(p) && m.start != p.start {
      var j :| 0 <= j < p.body.nsub && p.body.subs[j].start == m.start;
      var met := HasSub(lives, p, j);
    }
    if q.start in WasteOf(p) && q.start != p.start {
      var j :| 0 <= j < p.body.nsub && p.body.subs[j].start == q.start;
      assert HasSub(lives, p, j);
    }
  }

  /** Deleting a partition takes it, and nothing else, from those in use. */
  lemma DeletedLives(c: Chain, i: int)
    requires Sound(c) && 0 < i < |c|
    ensures Sound(Deleted(c, i)) && Lives(Deleted(c, i), {}) == Minus(Lives(c, {}), {c[i].start})
  {
    hide Deleted;
    DeletedFacts(c, i);
    forall p: Part ensures p in Lives(Deleted(c, i), {}) <==> p in Minus(Lives(c, {}), {c[i].start}) {
      var there := p.Used() && p.start != c[i].start && p in c;
    }
  }

  /** Partition t's header says it has no subs. */
  function Childless(c: Chain, t: int): Chain
    requires 0 <= t < |c|
  {
    Rebodied(c, t, c[t].body.(nsub := 0))
  }

  lemma ChildlessLives(c: Chain, t: int)
    requires Sound(c) && 0 < t < |c| && c[t].Used()
    ensures Sound(Childless(c, t)) && SameUsed(c, Childless(c, t), c[t].start)
    ensures Childless(c, t)[t] in Lives(Childless(c, t), {}) && Childless(c, t)[t].start == c[t].start
    ensures forall p :: p in Lives(c, {}) && p != c[t] ==> p in Lives(Childless(c, t), {})
    ensures Lives(Childless(c, t), {c[t].start}) == Lives(c, {c[t].start})
  {
    var d := Childless(c, t);
    forall k | 0 <= k < |c| ensures Aligned(d[k]) {
      assert Aligned(c[k]);
    }
    forall k | 0 <= k < |c| && k != t ensures d[k] == c[k] && d[k] in d && c[k] in c {
    }
    UsedLives(c, d, c[t].start, {c[t].start});
  }
}
