/** When nothing of a size in use lies above a free slot of that size, and why neither a move of
    larger partitions nor the removal of a larger one changes that. */
module Packing {
  import opened Powers
  import opened ApaChain
  import opened Relocation

  predicate FreeSlot(p: Part, size: int)
  {
    p.length == size && !p.Used()
  }

  /** Nothing of that size in use lies above a free slot of that size. */
  ghost predicate Packed(c: Chain, size: int)
  {
    forall i, j :: 0 <= i < j < |c| && FreeSlot(c[i], size) ==> c[j].length != size || !c[j].Used()
  }

  /** So it is for every size there may be from low up to high. */
  ghost predicate PackedUpTo(c: Chain, low: int, high: int)
  {
    forall size :: Pow2(size) && low <= size < high ==> Packed(c, size)
  }

  lemma PackedNone(c: Chain, size: int)
    requires forall k :: 0 <= k < |c| ==> !FreeSlot(c[k], size)
    ensures Packed(c, size)
  {
  }

  lemma NoSizesYet(c: Chain, low: int)
    ensures PackedUpTo(c, low, low)
  {
  }

  /** Between a size and its double there is no other. */
  lemma NextSize(c: Chain, low: int, size: int)
    requires Pow2(size) && PackedUpTo(c, low, size) && Packed(c, size)
    ensures PackedUpTo(c, low, 2 * size) && Pow2(2 * size)
  {
    hide Packed;
    forall s | Pow2(s) && low <= s < 2 * size ensures Packed(c, s) {
      if s > size {
        HalfBelow(size, s);
      }
    }
    Pow2Double(size);
  }

  lemma FewerSizes(c: Chain, low: int, size: int, high: int)
    requires PackedUpTo(c, low, size) && high <= size
    ensures PackedUpTo(c, low, high)
  {
    hide Packed, Pow2;
  }

  // ----- what stays of a size -----

  /** There is such a partition in the chain, whatever else its header says. */
  ghost predicate Has(c: Chain, p: Part)
  {
    exists i :: 0 <= i < |c| && c[i].start == p.start && c[i].length == p.length && c[i].Used() == p.Used()
  }

  /** The partitions of that size in e were there before. */
  ghost predicate Thins(c: Chain, e: Chain, size: int)
  {
    forall j :: 0 <= j < |e| && e[j].length == size ==> Has(c, e[j])
  }

  lemma HasIn(c: Chain, i: int)
    requires 0 <= i < |c|
    ensures Has(c, c[i])
  {
  }

  lemma ThinsTrans(c: Chain, d: Chain, e: Chain, size: int)
    requires Thins(c, d, size) && Thins(d, e, size)
    ensures Thins(c, e, size)
  {
    forall j | 0 <= j < |e| && e[j].length == size ensures Has(c, e[j]) {
      var i :| 0 <= i < |d| && d[i].start == e[j].start && d[i].length == e[j].length && d[i].Used() == e[j].Used();
      assert Has(c, d[i]);
    }
  }

  /** Fewer partitions of a size stay packed. */
  lemma PackedThin(c: Chain, e: Chain, size: int)
    requires Tiled(c) && Tiled(e) && Packed(c, size) && Thins(c, e, size)
    ensures Packed(e, size)
  {
    hide Tiled;
    forall i, j | 0 <= i < j < |e| && FreeSlot(e[i], size) ensures e[j].length != size || !e[j].Used() {
      if e[j].length == size && e[j].Used() {
        assert Has(c, e[i]) && Has(c, e[j]);
        var k :| 0 <= k < |c| && c[k].start == e[i].start && c[k].length == size && c[k].Used() == e[i].Used();
        var l :| 0 <= l < |c| && c[l].start == e[j].start && c[l].length == size && c[l].Used() == e[j].Used();
        Rising(e, i, j);
        if l < k {
          Rising(c, l, k);
        }
        assert false;
      }
    }
  }

  // ----- removing larger ones -----

  lemma ThinsSelf(c: Chain, size: int)
    ensures Thins(c, c, size)
  {
    forall j | 0 <= j < |c| && c[j].length == size ensures Has(c, c[j]) {
      HasIn(c, j);
    }
  }

  lemma JoinedThins(c: Chain, j: nat, i: nat, body: Body, size: int)
    requires j <= i < |c| && c[i].End() - c[j].start != size
    ensures Thins(c, Joined(c, j, i, body), size)
  {
    var e := Joined(c, j, i, body);
    JoinedParts(c, j, i, body);
    forall k | 0 <= k < |e| && e[k].length == size ensures Has(c, e[k]) {
      HasIn(c, if k < j then k else k + (i - j));
    }
  }

  lemma DownThins(c: Chain, i: nat, size: int)
    requires Sound(c) && 0 < i < |c| - 1 && c[i].length > size
    ensures Thins(c, Down(c, i), size)
    ensures DownIndex(c, i) < |Down(c, i)| && Down(c, i)[DownIndex(c, i)].length > size
  {
    hide Fits, MergeDown, Joined, Thins;
    var j := DownIndex(c, i);
    MergeDownFacts(c, i, c[i].End());
    if j < i {
      JoinedGrown(c, j, i, i, c[j].body);
      JoinedParts(c, j, i, c[j].body);
      JoinedThins(c, j, i, c[j].body, size);
    } else {
      ThinsSelf(c, size);
    }
  }

  lemma UpThins(c: Chain, i: nat, size: int)
    requires Sound(c) && 0 < i < |c| - 1 && c[i].length > size
    ensures Thins(c, Up(c, i), size)
    ensures i < |Up(c, i)| && Up(c, i)[i].length > size
  {
    hide Fits, MergeUp, Joined, Thins;
    var k := MergeUp(c, i, i + 1);
    MergeUpFacts(c, i, i + 1);
    if k > i + 1 {
      JoinedGrown(c, i, i, k - 1, EMPTY_BODY);
      JoinedParts(c, i, k - 1, EMPTY_BODY);
      JoinedThins(c, i, k - 1, EMPTY_BODY, size);
    } else {
      ThinsSelf(c, size);
    }
  }

  lemma RoundThins(c: Chain, i: nat, size: int)
    requires Sound(c) && 0 < i < |c| - 1 && c[i].length > size
    ensures Thins(c, Round(c, i), size)
    ensures DownIndex(c, i) < |Round(c, i)| && Round(c, i)[DownIndex(c, i)].length > size
  {
    hide Thins, Down, Up, DownIndex;
    DownSound(c, i);
    DownThins(c, i, size);
    UpThins(Down(c, i), DownIndex(c, i), size);
    ThinsTrans(c, Down(c, i), Round(c, i), size);
  }

  lemma MergedThins(c: Chain, i: nat, size: int)
    requires Sound(c) && 0 < i < |c| - 1 && c[i].length > size
    ensures Thins(c, Merged(c, i).0, size) && Merged(c, i).0[Merged(c, i).1].length > size
  {
    hide Thins, Round, DownIndex;
    RoundSound(c, i);
    RoundThins(c, i, size);
    RoundThins(Round(c, i), DownIndex(c, i), size);
    ThinsTrans(c, Round(c, i), Merged(c, i).0, size);
  }

  /** Changing what a partition says of itself, but not whether it is in use, adds nothing. */
  lemma RebodiedThins(c: Chain, i: nat, body: Body, size: int)
    requires i < |c| && (c[i].length != size || c[i].Used() == (body.ptype != 0))
    ensures Thins(c, Rebodied(c, i, body), size)
  {
    var e := Rebodied(c, i, body);
    forall k | 0 <= k < |e| && e[k].length == size ensures Has(c, e[k]) {
      assert c[k].start == e[k].start && c[k].length == e[k].length && c[k].Used() == e[k].Used();
    }
  }

  lemma PrefixThins(c: Chain, n: nat, size: int)
    requires n <= |c|
    ensures Thins(c, c[..n], size)
  {
    forall k | 0 <= k < n && c[..n][k].length == size ensures Has(c, c[..n][k]) {
      HasIn(c, k);
    }
  }

  /** A deletion neither adds nor moves a partition smaller than the one deleted. */
  lemma DeletedThins(c: Chain, i: nat, size: int)
    requires Sound(c) && 0 < i < |c| && c[i].length > size
    ensures Thins(c, Deleted(c, i), size)
  {
    hide Thins, Merged, TrimTo, Rebodied;
    if i == |c| - 1 {
      PrefixThins(c, TrimTo(c, i), size);
    } else {
      MergedThins(c, i, size);
      var d, j := Merged(c, i).0, Merged(c, i).1;
      RebodiedThins(d, j, EMPTY_BODY, size);
      ThinsTrans(c, d, Rebodied(d, j, EMPTY_BODY), size);
    }
  }

  // ----- removing several -----

  /** All partitions that start at these addresses are larger. */
  ghost predicate Wider(c: Chain, starts: set<int>, size: int)
  {
    forall i :: 0 <= i < |c| && c[i].start in starts ==> c[i].length > size
  }

  /** Partitions smaller than all at these addresses were there before. */
  ghost predicate ThinsBelow(c: Chain, starts: set<int>, e: Chain)
  {
    forall size :: Wider(c, starts, size) ==> Thins(c, e, size)
  }

  lemma ThinsBelowSelf(c: Chain, starts: set<int>)
    ensures ThinsBelow(c, starts, c)
  {
    forall size | Wider(c, starts, size) ensures Thins(c, c, size) {
      ThinsSelf(c, size);
    }
  }

  lemma DeletedBelow(c0: Chain, starts: set<int>, c: Chain, i: nat)
    requires Sound(c) && 0 < i < |c| && c[i].start in starts && ThinsBelow(c0, starts, c)
    ensures ThinsBelow(c0, starts, Deleted(c, i))
  {
    hide Sound, Deleted, Has;
    forall size | Wider(c0, starts, size) ensures Thins(c0, Deleted(c, i), size) {
      StillWider(c0, starts, c, i, size);
      DeletedThins(c, i, size);
      ThinsTrans(c0, c, Deleted(c, i), size);
    }
  }

  /** What is left at one of the addresses has not become smaller. */
  lemma StillWider(c0: Chain, starts: set<int>, c: Chain, i: nat, size: int)
    requires i < |c| && c[i].start in starts && ThinsBelow(c0, starts, c) && Wider(c0, starts, size)
    ensures c[i].length > size
  {
    var length := c[i].length;
    if length <= size {
      assert Has(c0, c[i]) by {
        assert Wider(c0, starts, length);
      }
      assert false;
    }
  }

  lemma RebodiedBelow(c: Chain, i: nat, body: Body, starts: set<int>)
    requires i < |c| && c[i].Used() == (body.ptype != 0)
    ensures ThinsBelow(c, starts, Rebodied(c, i, body))
  {
    forall size | Wider(c, starts, size) ensures Thins(c, Rebodied(c, i, body), size) {
      RebodiedThins(c, i, body, size);
    }
  }

  /** What lies at the addresses is of that size. */
  ghost predicate OfSize(c: Chain, starts: set<int>, size: int)
  {
    forall i :: 0 <= i < |c| && c[i].start in starts ==> c[i].length == size
  }

  lemma NoneOfSize(c: Chain, size: int)
    ensures OfSize(c, {}, size)
  {
  }

  /** So the smaller sizes stay packed. */
  lemma BelowPacked(c: Chain, starts: set<int>, e: Chain, low: int, size: int)
    requires Tiled(c) && Tiled(e) && ThinsBelow(c, starts, e) && PackedUpTo(c, low, size)
    requires OfSize(c, starts, size)
    ensures PackedUpTo(e, low, size)
  {
    hide Tiled, Packed, Thins, Pow2;
    forall s | Pow2(s) && low <= s < size ensures Packed(e, s) {
      assert Wider(c, starts, s);
      PackedThin(c, e, s);
    }
  }

  // ----- moving larger ones -----

  lemma SwappedThins(c: Chain, s: int, d: int, size: int)
    requires Movable(c, s, d) && c[s].length != size
    ensures Thins(c, Swapped(c, s, d), size)
  {
    hide Linked, Redirected, NewBody, Sound;
    var e := Swapped(c, s, d);
    forall k | 0 <= k < |e| && e[k].length == size ensures Has(c, e[k]) {
      SwappedAt(c, s, d, k);
      SameUse(c, s, d, k);
      assert c[k].start == e[k].start && c[k].length == e[k].length && c[k].Used() == e[k].Used();
    }
  }

  lemma SameUse(c: Chain, s: int, d: int, k: int)
    requires 0 <= s < |c| && 0 <= d < |c| && 0 <= k < |c| && k != s && k != d
    ensures c[k].(body := NewBody(c, s, d, k)).Used() == c[k].Used()
  {
  }

  /** Moving a partition keeps the smaller sizes packed, and what is left over is of its size. */
  lemma SwappedPacked(c: Chain, s: int, d: int, low: int)
    requires Movable(c, s, d) && PackedUpTo(c, low, c[s].length)
    ensures PackedUpTo(Swapped(c, s, d), low, c[s].length)
    ensures OfSize(Swapped(c, s, d), {c[s].start}, c[s].length)
  {
    hide Linked, Redirected, Packed, Thins, Pow2, NewBody;
    var e := Swapped(c, s, d);
    SwappedSound(c, s, d);
    forall size | Pow2(size) && low <= size < c[s].length ensures Packed(e, size) {
      SwappedThins(c, s, d, size);
      PackedThin(c, e, size);
    }
    forall i | 0 <= i < |e| && e[i].start in {c[s].start} ensures e[i].length == c[s].length {
      SwappedAt(c, s, d, i);
    }
  }
}
