/** fsck's map of claimed zones: pages of 2^20 bits, four of them in memory, which stand
    for one flat set. */
module FsckMap {
  import opened ZoneBitmap

  const BUFFERS := 4
  const PAGE_BITS := 0x10_0000

  /** A page buffer: which page it holds, whether it changed, its users, its bits (word by word,
      least significant first). */
  datatype Page = Page(index: int, dirty: bool, nused: int, bits: seq<bool>)

  /** The pages as they read: a buffered page from its buffer, any other from the disk. */
  function Content(buf: seq<Page>, disk: map<int, seq<bool>>, p: int): seq<bool>
    requires |buf| == BUFFERS
  {
    if buf[0].index == p then buf[0].bits
    else if buf[1].index == p then buf[1].bits
    else if buf[2].index == p then buf[2].bits
    else if buf[3].index == p then buf[3].bits
    else if p in disk then disk[p] else []
  }

  /** Buffers hold different pages of the right size. */
  ghost predicate Pages(buf: seq<Page>)
  {
    && |buf| == BUFFERS
    && (forall j :: 0 <= j < BUFFERS ==> |buf[j].bits| == PAGE_BITS && 0 <= buf[j].index && buf[j].nused >= 0)
    && forall i, j :: 0 <= i < j < BUFFERS ==> buf[i].index != buf[j].index
  }

  ghost predicate Unbuffered(buf: seq<Page>, p: int)
  {
    forall j :: 0 <= j < |buf| ==> buf[j].index != p
  }

  /** What a page reads as, told by the buffers. */
  lemma ContentHeld(buf: seq<Page>, disk: map<int, seq<bool>>, j: int)
    requires Pages(buf) && 0 <= j < BUFFERS
    ensures Content(buf, disk, buf[j].index) == buf[j].bits
  {
    assert j == 0 || j == 1 || j == 2 || j == 3;
  }

  lemma ContentOther(buf: seq<Page>, disk: map<int, seq<bool>>, p: int)
    requires |buf| == BUFFERS && Unbuffered(buf, p)
    ensures Content(buf, disk, p) == if p in disk then disk[p] else []
  {
  }

  // ----- the flat set -----

  /** The bits of all pages in a row. */
  function Bits(buf: seq<Page>, disk: map<int, seq<bool>>, pages: int): (m: seq<bool>)
    ensures Whole(buf, disk, pages) ==> |m| == pages * PAGE_BITS
  {
    if Whole(buf, disk, pages) then
      seq(pages * PAGE_BITS, k requires 0 <= k < pages * PAGE_BITS => BitOf(buf, disk, pages, k))
    else []
  }

  predicate Whole(buf: seq<Page>, disk: map<int, seq<bool>>, pages: int)
  {
    |buf| == BUFFERS && pages >= 0 && forall p :: 0 <= p < pages ==> |Content(buf, disk, p)| == PAGE_BITS
  }

  function BitOf(buf: seq<Page>, disk: map<int, seq<bool>>, pages: int, k: int): bool
    requires Whole(buf, disk, pages) && 0 <= k < pages * PAGE_BITS
  {
    Content(buf, disk, k / PAGE_BITS)[k % PAGE_BITS]
  }

  /** The page table is sound: what is not buffered is on the disk, and a clean buffer is as the
      disk has it; with few pages nothing is ever written, for all are buffered. */
  ghost predicate Sound(buf: seq<Page>, disk: map<int, seq<bool>>, pages: int)
  {
    && Pages(buf) && pages >= 0
    && if pages <= BUFFERS then forall j :: 0 <= j < BUFFERS ==> buf[j].index == j
       else
         && (forall j :: 0 <= j < BUFFERS ==> buf[j].index < pages)
         && (forall p :: 0 <= p < pages ==> p in disk && |disk[p]| == PAGE_BITS)
         && forall j :: 0 <= j < BUFFERS && !buf[j].dirty ==> disk[buf[j].index] == buf[j].bits
  }

  lemma SoundWhole(buf: seq<Page>, disk: map<int, seq<bool>>, pages: int)
    requires Sound(buf, disk, pages)
    ensures Whole(buf, disk, pages)
  {
    forall p | 0 <= p < pages ensures |Content(buf, disk, p)| == PAGE_BITS {
      if pages <= BUFFERS {
        ContentHeld(buf, disk, p);
      }
    }
  }

  /** Two page tables read the same. */
  ghost predicate SameContent(b0: seq<Page>, d0: map<int, seq<bool>>, b1: seq<Page>, d1: map<int, seq<bool>>,
                              pages: int)
  {
    |b0| == |b1| == BUFFERS && forall p :: 0 <= p < pages ==> Content(b0, d0, p) == Content(b1, d1, p)
  }

  lemma SameBits(b0: seq<Page>, d0: map<int, seq<bool>>, b1: seq<Page>, d1: map<int, seq<bool>>, pages: int)
    requires Whole(b0, d0, pages) && Whole(b1, d1, pages) && SameContent(b0, d0, b1, d1, pages)
    ensures Bits(b0, d0, pages) == Bits(b1, d1, pages)
  {
    forall k | 0 <= k < pages * PAGE_BITS ensures BitOf(b0, d0, pages, k) == BitOf(b1, d1, pages, k) {
      assert 0 <= k / PAGE_BITS < pages;
    }
  }

  /** Use counts do not matter to what is read. */
  lemma PinContent(buf: seq<Page>, disk: map<int, seq<bool>>, pages: int, j: int, n: int)
    requires Sound(buf, disk, pages) && 0 <= j < BUFFERS && n >= 0
    ensures Sound(buf[j := buf[j].(nused := n)], disk, pages)
    ensures SameContent(buf, disk, buf[j := buf[j].(nused := n)], disk, pages)
  {
    var next := buf[j := buf[j].(nused := n)];
    assert forall i :: 0 <= i < BUFFERS ==> next[i].index == buf[i].index && next[i].bits == buf[i].bits;
  }

  /** The disk after the buffer's page is written back, if it must be. */
  function WrittenBack(buf: seq<Page>, disk: map<int, seq<bool>>, j: int): map<int, seq<bool>>
    requires 0 <= j < |buf|
  {
    if buf[j].dirty then disk[buf[j].index := buf[j].bits] else disk
  }

  lemma FewBuffered(buf: seq<Page>, disk: map<int, seq<bool>>, pages: int, p: int)
    requires Sound(buf, disk, pages) && 0 <= p < pages && Unbuffered(buf, p)
    ensures pages > BUFFERS
  {
    var held := 0 <= p < BUFFERS && buf[p].index == p;
  }

  /** Writing a dirty page back and reading another into its buffer keeps what is read. */
  lemma EvictContent(buf: seq<Page>, disk: map<int, seq<bool>>, pages: int, j: int, p: int)
    requires Sound(buf, disk, pages) && 0 <= j < BUFFERS && 0 <= p < pages && Unbuffered(buf, p)
    ensures p in WrittenBack(buf, disk, j) && |WrittenBack(buf, disk, j)[p]| == PAGE_BITS
    ensures
      var d := WrittenBack(buf, disk, j);
      var next := buf[j := Page(p, false, 1, d[p])];
      Sound(next, d, pages) && SameContent(buf, disk, next, d, pages)
  {
    FewBuffered(buf, disk, pages, p);
    var d := WrittenBack(buf, disk, j);
    var next := buf[j := Page(p, false, 1, d[p])];
    forall q | 0 <= q < pages ensures Content(buf, disk, q) == Content(next, d, q) {
      EvictPage(buf, disk, pages, j, p, q);
    }
  }

  lemma EvictPage(buf: seq<Page>, disk: map<int, seq<bool>>, pages: int, j: int, p: int, q: int)
    requires Sound(buf, disk, pages) && pages > BUFFERS && 0 <= j < BUFFERS
    requires 0 <= p < pages && 0 <= q < pages && Unbuffered(buf, p)
    requires p in WrittenBack(buf, disk, j) && |WrittenBack(buf, disk, j)[p]| == PAGE_BITS
    requires Pages(buf[j := Page(p, false, 1, WrittenBack(buf, disk, j)[p])])
    ensures
      var d := WrittenBack(buf, disk, j);
      Content(buf, disk, q) == Content(buf[j := Page(p, false, 1, d[p])], d, q)
  {
    var d := WrittenBack(buf, disk, j);
    var next := buf[j := Page(p, false, 1, d[p])];
    if q == p {
      ContentHeld(next, d, j);
      ContentOther(buf, disk, q);
    } else if q == buf[j].index {
      ContentHeld(buf, disk, j);
      ContentOther(next, d, q);
    } else if i :| 0 <= i < BUFFERS && buf[i].index == q {
      ContentHeld(buf, disk, i);
      ContentHeld(next, d, i);
    } else {
      ContentOther(buf, disk, q);
      ContentOther(next, d, q);
    }
  }

  function WithBit(page: Page, i: int): Page
    requires 0 <= i < |page.bits|
  {
    page.(dirty := true, bits := page.bits[i := true])
  }

  /** Setting a bit of a buffered page sets that bit of the flat set. */
  lemma SetContent(buf: seq<Page>, disk: map<int, seq<bool>>, pages: int, j: int, i: int)
    requires Sound(buf, disk, pages) && 0 <= j < BUFFERS && 0 <= i < PAGE_BITS && buf[j].index < pages
    requires Whole(buf, disk, pages)
    ensures Sound(buf[j := WithBit(buf[j], i)], disk, pages) && Whole(buf[j := WithBit(buf[j], i)], disk, pages)
    ensures
      var k := buf[j].index * PAGE_BITS + i;
      && 0 <= k < pages * PAGE_BITS && Bits(buf, disk, pages)[k] == buf[j].bits[i]
      && Bits(buf[j := WithBit(buf[j], i)], disk, pages) == Bits(buf, disk, pages)[k := true]
  {
    var next := buf[j := WithBit(buf[j], i)];
    SetSound(buf, disk, pages, j, i);
    SoundWhole(next, disk, pages);
    var k := buf[j].index * PAGE_BITS + i;
    assert k / PAGE_BITS == buf[j].index && k % PAGE_BITS == i;
    ContentHeld(buf, disk, j);
    var m, n := Bits(buf, disk, pages), Bits(next, disk, pages);
    assert m[k] == BitOf(buf, disk, pages, k);
    forall l | 0 <= l < |m| ensures n[l] == m[k := true][l] {
      SetBit(buf, disk, pages, j, i, l);
    }
  }

  lemma SetBit(buf: seq<Page>, disk: map<int, seq<bool>>, pages: int, j: int, i: int, l: int)
    requires Pages(buf) && 0 <= j < BUFFERS && 0 <= i < PAGE_BITS && Whole(buf, disk, pages)
    requires Pages(buf[j := WithBit(buf[j], i)]) && Whole(buf[j := WithBit(buf[j], i)], disk, pages)
    requires 0 <= l < pages * PAGE_BITS
    ensures BitOf(buf[j := WithBit(buf[j], i)], disk, pages, l) ==
      if l == buf[j].index * PAGE_BITS + i then true else BitOf(buf, disk, pages, l)
  {
    var next := buf[j := WithBit(buf[j], i)];
    ContentHeld(buf, disk, j);
    ContentHeld(next, disk, j);
    if l / PAGE_BITS != buf[j].index {
      OtherPage(buf, next, disk, j, l / PAGE_BITS);
    }
  }

  lemma SetSound(buf: seq<Page>, disk: map<int, seq<bool>>, pages: int, j: int, i: int)
    requires Sound(buf, disk, pages) && 0 <= j < BUFFERS && 0 <= i < PAGE_BITS
    ensures Sound(buf[j := WithBit(buf[j], i)], disk, pages) && Pages(buf[j := WithBit(buf[j], i)])
  {
    var next := buf[j := WithBit(buf[j], i)];
    assert forall l :: 0 <= l < BUFFERS ==> next[l].index == buf[l].index && (l != j ==> next[l] == buf[l]);
  }

  lemma OtherPage(buf: seq<Page>, next: seq<Page>, disk: map<int, seq<bool>>, j: int, p: int)
    requires |next| == |buf| == BUFFERS && 0 <= j < BUFFERS
    requires (forall i :: 0 <= i < BUFFERS && i != j ==> next[i] == buf[i]) && next[j].index == buf[j].index != p
    ensures Content(next, disk, p) == Content(buf, disk, p)
  {
  }

  // ----- claims -----

  datatype Claim = Claim(number: int, size: int)

  predicate Covers(c: Claim, z: int)
  {
    c.number <= z < c.number + c.size
  }

  predicate Disjoint(c: Claim, d: Claim)
  {
    c.size <= 0 || d.size <= 0 || c.number + c.size <= d.number || d.number + d.size <= c.number
  }

  lemma DisjointExactly(c: Claim, d: Claim)
    ensures Disjoint(c, d) <==> forall z :: Covers(c, z) ==> !Covers(d, z)
  {
    var z := if c.number < d.number then d.number else c.number;
    assert !Disjoint(c, d) ==> Covers(c, z) && Covers(d, z);
  }

  /** The claims do not overlap, and the set is exactly their union. */
  ghost predicate Claimed(v: seq<bool>, claims: seq<Claim>)
  {
    && (forall i :: 0 <= i < |claims| ==>
        0 <= claims[i].number && 0 <= claims[i].size && claims[i].number + claims[i].size <= |v|)
    && (forall i, j :: 0 <= i < j < |claims| ==> Disjoint(claims[i], claims[j]))
    && (forall z :: 0 <= z < |v| ==> (v[z] <==> exists i :: 0 <= i < |claims| && Covers(claims[i], z)))
  }

  /** A claim of zones none of which was claimed joins the others. */
  lemma ClaimJoins(v: seq<bool>, claims: seq<Claim>, c: Claim)
    requires Claimed(v, claims) && c.size >= 0 && Run(v, c.number, c.size)
    ensures Claimed(Marked(v, c.number, c.size, true), claims + [c])
  {
    var u, all := Marked(v, c.number, c.size, true), claims + [c];
    forall i | 0 <= i < |claims| ensures Disjoint(claims[i], c) {
      var z := if claims[i].number < c.number then c.number else claims[i].number;
      var met := 0 <= z < |v| && v[z] && Covers(claims[i], z);
    }
    forall z | 0 <= z < |u| ensures u[z] <==> exists i :: 0 <= i < |all| && Covers(all[i], z) {
      if v[z] {
        var i :| 0 <= i < |claims| && Covers(claims[i], z);
        assert Covers(all[i], z);
      }
      if i :| 0 <= i < |all| && Covers(all[i], z) {
        assert i < |claims| ==> Covers(claims[i], z);
      }
      assert Covers(c, z) ==> Covers(all[|claims|], z);
    }
  }

  // ----- the pager -----

  /** The ring lists the buffers nobody uses, oldest first. */
  ghost predicate RingOk(buf: seq<Page>, ring: seq<int>)
  {
    && (forall k :: 0 <= k < |ring| ==> 0 <= ring[k] < |buf|)
    && (forall k, l :: 0 <= k < l < |ring| ==> ring[k] != ring[l])
    && forall j :: 0 <= j < |buf| ==> (j in ring <==> buf[j].nused == 0)
  }

  function EmptyBits(): (m: seq<bool>)
    ensures |m| == PAGE_BITS
  {
    seq(PAGE_BITS, _ => false)
  }

  function Without(ring: seq<int>, j: int): seq<int>
  {
    if ring == [] then [] else if ring[0] == j then ring[1..] else [ring[0]] + Without(ring[1..], j)
  }

  lemma {:induction false} WithoutFacts(ring: seq<int>, j: int)
    requires forall k, l :: 0 <= k < l < |ring| ==> ring[k] != ring[l]
    ensures forall i :: i in Without(ring, j) <==> i in ring && i != j
    ensures forall k, l :: 0 <= k < l < |Without(ring, j)| ==> Without(ring, j)[k] != Without(ring, j)[l]
    ensures j in ring ==> |Without(ring, j)| == |ring| - 1
  {
    if ring != [] && ring[0] != j {
      WithoutFacts(ring[1..], j);
      assert ring[0] !in ring[1..];
      assert ring[0] !in Without(ring[1..], j);
    }
  }

  lemma SoundFacts(buf: seq<Page>, disk: map<int, seq<bool>>, pages: int, ring: seq<int>)
    requires Sound(buf, disk, pages) && RingOk(buf, ring)
    ensures |buf| == BUFFERS && pages >= 0
    ensures forall j :: 0 <= j < BUFFERS ==>
      |buf[j].bits| == PAGE_BITS && buf[j].nused >= 0 && (j in ring <==> buf[j].nused == 0)
    ensures ring != [] ==> 0 <= ring[0] < BUFFERS && ring[0] in ring
  {
  }

  function Unpinned(buf: seq<Page>, j: int): seq<Page>
  {
    if 0 <= j < |buf| && buf[j].nused != 0 then buf[j := buf[j].(nused := buf[j].nused - 1)] else buf
  }

  function Returned(buf: seq<Page>, ring: seq<int>, j: int): seq<int>
  {
    if 0 <= j < |buf| && buf[j].nused == 1 then ring + [j] else ring
  }

  /** Buffer j holds page p and is in use; if it was free it left the ring. */
  ghost predicate Pinned(buf: seq<Page>, ring: seq<int>, before: seq<int>, j: int, p: int)
  {
    && |buf| == BUFFERS && 0 <= j < BUFFERS && buf[j].index == p && buf[j].nused > 0 && |buf[j].bits| == PAGE_BITS
    && ring == Without(before, j) && (j in before <==> buf[j].nused == 1)
  }

  ghost predicate Good(buf: seq<Page>, disk: map<int, seq<bool>>, pages: int, ring: seq<int>)
  {
    Sound(buf, disk, pages) && Whole(buf, disk, pages) && RingOk(buf, ring)
  }

  lemma GoodFacts(buf: seq<Page>, disk: map<int, seq<bool>>, pages: int, ring: seq<int>)
    requires Good(buf, disk, pages, ring)
    ensures |buf| == BUFFERS && pages >= 0 && |Bits(buf, disk, pages)| == pages * PAGE_BITS
    ensures forall j :: 0 <= j < BUFFERS ==>
      |buf[j].bits| == PAGE_BITS && buf[j].nused >= 0 && (j in ring <==> buf[j].nused == 0)
    ensures ring != [] ==> 0 <= ring[0] < BUFFERS && ring[0] in ring
  {
    SoundFacts(buf, disk, pages, ring);
  }

  lemma GoodPages(buf: seq<Page>, disk: map<int, seq<bool>>, pages: int, ring: seq<int>)
    requires Good(buf, disk, pages, ring)
    ensures Pages(buf)
  {
    hide Whole, RingOk;
  }

  function MorePinned(buf: seq<Page>, j: int): seq<Page>
    requires 0 <= j < |buf|
  {
    buf[j := buf[j].(nused := buf[j].nused + 1)]
  }

  /** Pinning a buffer is not seen. */
  lemma PinGood(buf: seq<Page>, disk: map<int, seq<bool>>, pages: int, ring: seq<int>, j: int)
    requires Good(buf, disk, pages, ring) && 0 <= j < BUFFERS
    ensures Good(MorePinned(buf, j), disk, pages, Without(ring, j))
    ensures Bits(MorePinned(buf, j), disk, pages) == Bits(buf, disk, pages)
    ensures Pinned(MorePinned(buf, j), Without(ring, j), ring, j, buf[j].index)
    ensures buf[j].nused > 0 ==> Without(ring, j) == ring
  {
    hide Sound, Whole, RingOk, Content, Bits, Without, SameContent;
    SoundFacts(buf, disk, pages, ring);
    var next := MorePinned(buf, j);
    PinContent(buf, disk, pages, j, buf[j].nused + 1);
    RingPin(buf, ring, j, next[j]);
    SoundWhole(next, disk, pages);
    SameBits(buf, disk, next, disk, pages);
  }

  /** Nor is unpinning one. */
  lemma UnpinGood(buf: seq<Page>, disk: map<int, seq<bool>>, pages: int, ring: seq<int>, j: int)
    requires Good(buf, disk, pages, ring) && 0 <= j < BUFFERS
    ensures Good(Unpinned(buf, j), disk, pages, Returned(buf, ring, j))
    ensures Bits(Unpinned(buf, j), disk, pages) == Bits(buf, disk, pages)
  {
    hide Sound, Whole, RingOk, Content, Bits, SameContent;
    SoundFacts(buf, disk, pages, ring);
    if buf[j].nused != 0 {
      PinContent(buf, disk, pages, j, buf[j].nused - 1);
      RingUnpin(buf, ring, j);
      SoundWhole(Unpinned(buf, j), disk, pages);
      SameBits(buf, disk, Unpinned(buf, j), disk, pages);
    }
  }

  /** Nor is giving the oldest free buffer to another page. */
  lemma EvictGood(buf: seq<Page>, disk: map<int, seq<bool>>, pages: int, ring: seq<int>, p: int)
    requires Good(buf, disk, pages, ring) && ring != [] && 0 <= p < pages && Unbuffered(buf, p)
    ensures 0 <= ring[0] < BUFFERS == |buf| && p in WrittenBack(buf, disk, ring[0])
    ensures
      var d := WrittenBack(buf, disk, ring[0]);
      var next := buf[ring[0] := Page(p, false, 1, d[p])];
      && Good(next, d, pages, Without(ring, ring[0])) && Bits(next, d, pages) == Bits(buf, disk, pages)
      && Pinned(next, Without(ring, ring[0]), ring, ring[0], p)
  {
    hide Sound, Whole, RingOk, Content, Bits, Without, WrittenBack, Unbuffered, SameContent;
    SoundFacts(buf, disk, pages, ring);
    var j := ring[0];
    EvictContent(buf, disk, pages, j, p);
    var d := WrittenBack(buf, disk, j);
    var next := buf[j := Page(p, false, 1, d[p])];
    RingPin(buf, ring, j, next[j]);
    SoundWhole(next, d, pages);
    SameBits(buf, disk, next, d, pages);
  }

  // ----- a blank map -----

  function FreshBuffers(last: int): seq<Page>
  {
    [Page(0, false, 0, EmptyBits()), Page(1, false, 0, EmptyBits()), Page(2, false, 0, EmptyBits()),
      Page(last, false, 0, EmptyBits())]
  }

  ghost predicate BlankDisk(disk: map<int, seq<bool>>, n: int)
  {
    forall p :: 0 <= p < n ==> p in disk && disk[p] == EmptyBits()
  }

  lemma FreshSound(disk: map<int, seq<bool>>, pages: int)
    requires pages >= 0 && (pages > BUFFERS ==> BlankDisk(disk, pages))
    ensures
      var buf := FreshBuffers(if pages > BUFFERS then pages - 1 else BUFFERS - 1);
      Sound(buf, disk, pages) && Whole(buf, disk, pages) && RingOk(buf, [0, 1, 2, 3])
  {
    var buf := FreshBuffers(if pages > BUFFERS then pages - 1 else BUFFERS - 1);
    FreshPages(if pages > BUFFERS then pages - 1 else BUFFERS - 1);
    assert Sound(buf, disk, pages) by {
      hide FreshBuffers, Pages;
    }
    hide FreshBuffers, Sound, Whole, RingOk;
    SoundWhole(buf, disk, pages);
  }

  lemma FreshPages(last: int)
    requires last >= BUFFERS - 1
    ensures Pages(FreshBuffers(last)) && RingOk(FreshBuffers(last), [0, 1, 2, 3])
    ensures
      var buf := FreshBuffers(last);
      && (forall j :: 0 <= j < BUFFERS ==> buf[j].bits == EmptyBits() && !buf[j].dirty)
      && forall j :: 0 <= j < BUFFERS ==> buf[j].index == if j == BUFFERS - 1 then last else j
  {
    hide EmptyBits;
    var buf, ring := FreshBuffers(last), [0, 1, 2, 3];
    assert ring[0] == 0 && ring[1] == 1 && ring[2] == 2 && ring[3] == 3;
    forall j | 0 <= j < BUFFERS
      ensures buf[j] == Page(if j == BUFFERS - 1 then last else j, false, 0, EmptyBits()) && j in ring {
      assert j == 0 || j == 1 || j == 2 || j == 3;
    }
  }

  lemma FreshBlank(disk: map<int, seq<bool>>, pages: int, z: int)
    requires pages >= 0 && (pages > BUFFERS ==> BlankDisk(disk, pages)) && 0 <= z < pages * PAGE_BITS
    requires
      var buf := FreshBuffers(if pages > BUFFERS then pages - 1 else BUFFERS - 1);
      Whole(buf, disk, pages)
    ensures
      var buf := FreshBuffers(if pages > BUFFERS then pages - 1 else BUFFERS - 1);
      !Bits(buf, disk, pages)[z]
  {
    var buf := FreshBuffers(if pages > BUFFERS then pages - 1 else BUFFERS - 1);
    assert 0 <= z / PAGE_BITS < pages;
    assert Content(buf, disk, z / PAGE_BITS) == EmptyBits();
    assert Bits(buf, disk, pages)[z] == BitOf(buf, disk, pages, z);
  }

  /** A map with pages for the whole bytes of zones; up to 7 zones on a page of their own have no
      page. */
  lemma PageCount(size: int)
    requires size >= 0
    ensures
      var count := size / PAGE_BITS + if 0 < size / 8 % 0x2_0000 then 1 else 0;
      && 0 <= count * PAGE_BITS < size + PAGE_BITS
      && (size <= count * PAGE_BITS <==> !(0 < size % PAGE_BITS < 8))
  {
    assert size / 8 % 0x2_0000 == size % PAGE_BITS / 8;
  }

  /** A used buffer leaves the ring. */
  lemma RingPin(buf: seq<Page>, ring: seq<int>, j: int, page: Page)
    requires RingOk(buf, ring) && 0 <= j < |buf| && buf[j].nused >= 0 && page.nused > 0
    ensures RingOk(buf[j := page], Without(ring, j))
    ensures buf[j].nused > 0 ==> Without(ring, j) == ring
  {
    WithoutFacts(ring, j);
    forall k | 0 <= k < |Without(ring, j)| ensures 0 <= Without(ring, j)[k] < |buf| {
      assert Without(ring, j)[k] in ring;
    }
    if buf[j].nused > 0 {
      WithoutNone(ring, j);
    }
  }

  lemma {:induction false} WithoutNone(ring: seq<int>, j: int)
    requires j !in ring
    ensures Without(ring, j) == ring
  {
    if ring != [] {
      WithoutNone(ring[1..], j);
    }
  }

  lemma RingUnpin(buf: seq<Page>, ring: seq<int>, j: int)
    requires RingOk(buf, ring) && 0 <= j < |buf| && buf[j].nused > 0
    ensures
      var next := buf[j := buf[j].(nused := buf[j].nused - 1)];
      RingOk(next, if buf[j].nused == 1 then ring + [j] else ring)
  {
  }

  // ----- claiming zones -----

  /** From zone a on, k free zones were marked; unless r is 0 the next one was marked before. */
  ghost predicate Swept(v: seq<bool>, u: seq<bool>, a: int, k: int, r: int)
  {
    && Run(v, a, k) && u == Marked(v, a, k, true) && (r == 0 || r == 1)
    && (r == 1 ==> a + k < |v| && v[a + k])
  }

  lemma SweepStarts(v: seq<bool>, a: int)
    requires 0 <= a <= |v|
    ensures Swept(v, v, a, 0, 0)
  {
    NothingMarked(v, a);
  }

  lemma SweepOn(v: seq<bool>, u: seq<bool>, a: int, k: int)
    requires Swept(v, u, a, k, 0) && a + k < |v|
    ensures |u| == |v|
    ensures u[a + k] ==> Swept(v, u, a, k, 1)
    ensures !u[a + k] ==> Swept(v, u[a + k := true], a, k + 1, 0)
  {
    hide Run, Marked;
    InRun(v, a, k);
    MarkedJoin(v, a, k, 1);
    MarkOne(u, a + k);
  }

  lemma InRun(v: seq<bool>, a: int, k: int)
    requires Run(v, a, k)
    ensures 0 <= a <= a + k <= |v|
  {
  }

  lemma SweepJoins(v: seq<bool>, u: seq<bool>, w: seq<bool>, a: int, k: int, l: int, r: int)
    requires Swept(v, u, a, k, 0) && Swept(u, w, a + k, l, r)
    ensures Swept(v, w, a, k + l, r)
  {
    hide Run, Marked;
    InRun(v, a, k);
    InRun(u, a + k, l);
    MarkedJoin(v, a, k, l);
  }

  lemma SweptEnds(v: seq<bool>, u: seq<bool>, a: int, size: int, k: int, r: int)
    requires Swept(v, u, a, k, r) && 0 <= k <= size && (r == 0 ==> k == size) && a + size <= |v|
    requires r == 1 ==> k < size
    ensures r == 0 || r == 1
    ensures r == 0 ==> Run(v, a, size) && u == Marked(v, a, size, true)
    ensures r == 1 ==> !Run(v, a, size) && v[a + k] && u == Marked(v, a, k, true)
  {
    hide Marked;
  }

  /** Marking goes on where it stopped. */
  lemma MarkedJoin(v: seq<bool>, a: int, k: int, l: int)
    requires Run(v, a, k) && l >= 0
    ensures Marked(Marked(v, a, k, true), a + k, l, true) == Marked(v, a, k + l, true)
    ensures Run(Marked(v, a, k, true), a + k, l) ==> Run(v, a, k + l)
    ensures forall z :: a + k <= z < |v| ==> Marked(v, a, k, true)[z] == v[z]
  {
    var u := Marked(v, a, k, true);
    if Run(u, a + k, l) {
      forall z | a <= z < a + k + l ensures !v[z] {
        assert a + k <= z ==> !u[z];
      }
    }
  }

  lemma NothingMarked(v: seq<bool>, a: int)
    requires 0 <= a <= |v|
    ensures Marked(v, a, 0, true) == v && Run(v, a, 0)
  {
  }

  /** Setting one free bit is marking a run of one. */
  lemma MarkOne(v: seq<bool>, z: int)
    requires 0 <= z < |v|
    ensures Marked(v, z, 1, true) == v[z := true] && (Run(v, z, 1) <==> !v[z])
  {
  }

  ghost predicate SameShape(b0: seq<Page>, b1: seq<Page>)
  {
    |b0| == |b1| && forall j :: 0 <= j < |b0| ==>
      b1[j].index == b0[j].index && b1[j].nused == b0[j].nused && |b1[j].bits| == |b0[j].bits|
  }

  /** How many users a page has: those of its buffer, if it has one. */
  function Users(buf: seq<Page>, p: int): int
    requires |buf| == BUFFERS
  {
    if buf[0].index == p then buf[0].nused
    else if buf[1].index == p then buf[1].nused
    else if buf[2].index == p then buf[2].nused
    else if buf[3].index == p then buf[3].nused
    else 0
  }

  /** Page p has n users more than before, and every other page as many as before. */
  ghost predicate MoreUsers(b0: seq<Page>, b1: seq<Page>, p: int, n: int)
  {
    |b0| == |b1| == BUFFERS && forall q :: Users(b1, q) == Users(b0, q) + if q == p then n else 0
  }

  lemma PinUsers(buf: seq<Page>, j: int)
    requires Pages(buf) && 0 <= j < BUFFERS
    ensures MoreUsers(buf, MorePinned(buf, j), buf[j].index, 1)
  {
    assert j == 0 || j == 1 || j == 2 || j == 3;
  }

  lemma EvictUsers(buf: seq<Page>, j: int, p: int, bits: seq<bool>)
    requires Pages(buf) && 0 <= j < BUFFERS && buf[j].nused == 0 && Unbuffered(buf, p)
    ensures MoreUsers(buf, buf[j := Page(p, false, 1, bits)], p, 1)
  {
    assert j == 0 || j == 1 || j == 2 || j == 3;
  }

  lemma UnpinUsers(b0: seq<Page>, b1: seq<Page>, j: int, p: int)
    requires Pages(b1) && 0 <= j < BUFFERS && b1[j].index == p && b1[j].nused > 0 && MoreUsers(b0, b1, p, 1)
    ensures MoreUsers(b0, Unpinned(b1, j), p, 0)
  {
    assert j == 0 || j == 1 || j == 2 || j == 3;
  }

  lemma SameUsers(buf: seq<Page>)
    requires |buf| == BUFFERS
    ensures MoreUsers(buf, buf, 0, 0)
  {
  }

  lemma FreeUsers(b0: seq<Page>, buf: seq<Page>, disk: map<int, seq<bool>>, pages: int, ring: seq<int>,
                  before: seq<int>, j: int, p: int)
    requires Good(buf, disk, pages, ring) && Pinned(buf, ring, before, j, p) && MoreUsers(b0, buf, p, 1)
    ensures 0 <= j < |buf| && MoreUsers(b0, Unpinned(buf, j), 0, 0)
  {
    GoodPages(buf, disk, pages, ring);
    UnpinUsers(b0, buf, j, p);
  }

  lemma SamePage(p: int, x: int)
    requires p * PAGE_BITS <= x < p * PAGE_BITS + PAGE_BITS
    ensures x / PAGE_BITS == p
  {
  }

  lemma ShapeUsers(b0: seq<Page>, b1: seq<Page>, b2: seq<Page>, p: int, n: int)
    requires MoreUsers(b0, b1, p, n) && SameShape(b1, b2)
    ensures MoreUsers(b0, b2, p, n)
  {
    forall q ensures Users(b2, q) == Users(b1, q) {
    }
  }

  lemma MoreThenUsers(b0: seq<Page>, b1: seq<Page>, b2: seq<Page>, k: int, p: int, n: int)
    requires MoreUsers(b0, b1, k, 0) && MoreUsers(b1, b2, p, n)
    ensures MoreUsers(b0, b2, p, n)
  {
    forall q ensures Users(b2, q) == Users(b0, q) + if q == p then n else 0 {
    }
  }

  lemma ShapeSelf(buf: seq<Page>)
    ensures SameShape(buf, buf)
  {
  }

  lemma ShapeKept(b0: seq<Page>, b1: seq<Page>, j: int, i: int)
    requires SameShape(b0, b1) && 0 <= j < |b1| && 0 <= i < |b1[j].bits|
    ensures SameShape(b0, b1[j := WithBit(b1[j], i)])
  {
  }

  lemma ShapeRing(b0: seq<Page>, b1: seq<Page>, ring: seq<int>)
    requires SameShape(b0, b1) && RingOk(b0, ring)
    ensures RingOk(b1, ring)
  {
  }

  lemma SetGood(buf: seq<Page>, disk: map<int, seq<bool>>, pages: int, ring: seq<int>, j: int, i: int)
    requires Good(buf, disk, pages, ring) && 0 <= j < BUFFERS && 0 <= i < PAGE_BITS
    requires |buf| == BUFFERS && |buf[j].bits| == PAGE_BITS && 0 <= buf[j].index < pages
    ensures Good(buf[j := WithBit(buf[j], i)], disk, pages, ring)
    ensures
      var k := buf[j].index * PAGE_BITS + i;
      && 0 <= k < pages * PAGE_BITS == |Bits(buf, disk, pages)| && Bits(buf, disk, pages)[k] == buf[j].bits[i]
      && Bits(buf[j := WithBit(buf[j], i)], disk, pages) == Bits(buf, disk, pages)[k := true]
  {
    hide Sound, Whole, RingOk, Content, Bits, SameShape;
    SetContent(buf, disk, pages, j, i);
    ShapeSelf(buf);
    ShapeKept(buf, buf, j, i);
    ShapeRing(buf, buf[j := WithBit(buf[j], i)], ring);
  }

  lemma IndexKept(buf: seq<Page>, disk: map<int, seq<bool>>, pages: int, ring: seq<int>, j: int)
    requires Good(buf, disk, pages, ring) && 0 <= j < |buf|
    ensures |buf| == BUFFERS && |buf[j].bits| == PAGE_BITS && 0 <= buf[j].index
  {
    hide Whole, RingOk, Content, Bits;
  }

  lemma RingLength(buf: seq<Page>, ring: seq<int>, before: seq<int>, j: int, p: int)
    requires Pinned(buf, ring, before, j, p)
    requires forall k, l :: 0 <= k < l < |before| ==> before[k] != before[l]
    ensures |Returned(buf, ring, j)| == |before| && |ring| >= |before| - 1
  {
    WithoutFacts(before, j);
    if j !in before {
      WithoutNone(before, j);
    }
  }

  lemma ShapeJoins(b0: seq<Page>, b1: seq<Page>, b2: seq<Page>)
    requires SameShape(b0, b1) && SameShape(b1, b2)
    ensures SameShape(b0, b2)
  {
  }

  lemma ShapeFacts(b0: seq<Page>, b1: seq<Page>, j: int)
    requires SameShape(b0, b1) && 0 <= j < |b0|
    ensures |b1| == |b0| && b1[j].index == b0[j].index
  {
  }

  lemma ShapePinned(b0: seq<Page>, b1: seq<Page>, ring: seq<int>, before: seq<int>, j: int, p: int)
    requires SameShape(b0, b1) && Pinned(b0, ring, before, j, p)
    ensures Pinned(b1, ring, before, j, p)
  {
    hide Without;
  }

  lemma PinnedFacts(buf: seq<Page>, ring: seq<int>, before: seq<int>, j: int, p: int)
    requires Pinned(buf, ring, before, j, p)
    ensures 0 <= j < |buf| == BUFFERS && buf[j].index == p
  {
    hide Without;
  }

  lemma RingDistinct(buf: seq<Page>, disk: map<int, seq<bool>>, pages: int, ring: seq<int>)
    requires Good(buf, disk, pages, ring)
    ensures forall k, l :: 0 <= k < l < |ring| ==> ring[k] != ring[l]
  {
    hide Sound, Whole;
  }

  lemma WithBitFacts(page: Page, i: int)
    requires 0 <= i < |page.bits|
    ensures WithBit(page, i) == page.(dirty := true, bits := page.bits[i := true])
  {
  }

  /** Where a zone's bit is: page, word of the page, bit of the word. */
  lemma PagePlace(number: int)
    requires number >= 0
    ensures number / PAGE_BITS * PAGE_BITS + number / 32 % 0x8000 * 32 + number % 32 == number
    ensures 0 <= number / 32 % 0x8000 < 0x8000 && 0 <= number % 32 < 32
  {
    assert number / PAGE_BITS == number / 32 / 0x8000;
  }

  // ----- the on-disk bitmap -----

  /** Where bit i of bitmap block b stands in the flat set. */
  function Place(b: int, n: int, i: int): int
  {
    b * n + i
  }

  /** The zone's bit after the comparison: the replies are for whole words, and only zones of the
      partition are compared. */
  function Repaired(was: bool, view: seq<bool>, z: int, size: int, accept: int -> bool): bool
  {
    if 0 <= z < size && z < |view| && accept(z / 32) then view[z] else was
  }

  /** A bitmap block never straddles a page. */
  lemma BlockInPage(b: int, n: int)
    requires b >= 0 && n > 0 && PAGE_BITS % n == 0 && n % 32 == 0
    ensures Place(b, n, 0) % PAGE_BITS + n <= PAGE_BITS && Place(b, n, 0) >= 0 && Place(b, n, 0) % 32 == 0
  {
    var c := PAGE_BITS / n;
    assert PAGE_BITS == c * n;
    var q, r := b / c, b % c;
    BlockSplit(q, c, r, n);
    RowBound(r, c, n);
    OverPages(q, r * n, b * n);
    RowAligned(b, n, 0, b * n);
  }

  lemma OverPages(q: int, x: int, z: int)
    requires z == q * PAGE_BITS + x && 0 <= x < PAGE_BITS && q >= 0
    ensures z % PAGE_BITS == x && z >= 0
  {
  }

  lemma BlockSplit(q: int, c: int, r: int, n: int)
    ensures (q * c + r) * n == q * (c * n) + r * n
  {
  }

  lemma RowBound(r: int, c: int, n: int)
    requires 0 <= r < c && n > 0
    ensures 0 <= r * n && r * n + n <= c * n
  {
    assert (r + 1) * n <= c * n;
  }

  /** What a buffer holds is what the set holds there. */
  lemma Viewed(buf: seq<Page>, disk: map<int, seq<bool>>, pages: int, ring: seq<int>, j: int, i: int)
    requires Good(buf, disk, pages, ring) && 0 <= j < |buf| && 0 <= i < PAGE_BITS && buf[j].index < pages
    ensures |buf| == BUFFERS && 0 <= buf[j].index && |buf[j].bits| == PAGE_BITS
    ensures 0 <= buf[j].index * PAGE_BITS + i < |Bits(buf, disk, pages)| == pages * PAGE_BITS
    ensures Bits(buf, disk, pages)[buf[j].index * PAGE_BITS + i] == buf[j].bits[i]
  {
    GoodFacts(buf, disk, pages, ring);
    hide Sound, Whole, RingOk, Content, Bits, WithBit;
    IndexKept(buf, disk, pages, ring, j);
    SetContent(buf, disk, pages, j, i);
  }

  /** The first k bits of a bitmap block at zone z are compared. */
  ghost predicate Compared(was: seq<bool>, now: seq<bool>, k: int, view: seq<bool>, z: int, size: int,
                           accept: int -> bool)
  {
    && |now| == |was|
    && (forall i :: 0 <= i < |was| && i < k ==> now[i] == Repaired(was[i], view, z + i, size, accept))
    && forall i :: 0 <= i < |was| && k <= i ==> now[i] == was[i]
  }

  lemma ComparedWord(was: seq<bool>, now: seq<bool>, w: int, view: seq<bool>, z: int, size: int, accept: int -> bool,
                     word: seq<bool>, next: seq<bool>)
    requires Compared(was, now, w * 32, view, z, size, accept) && z % 32 == 0 && z >= 0 && w >= 0
    requires w * 32 + 32 <= |was| && z + w * 32 + 32 <= size <= |view| && |word| == 32
    requires word == view[z + w * 32..z + w * 32 + 32]
    requires next == if now[w * 32..w * 32 + 32] != word && accept(z / 32 + w)
      then now[..w * 32] + word + now[w * 32 + 32..] else now
    ensures Compared(was, next, w * 32 + 32, view, z, size, accept)
  {
    forall i | w * 32 <= i < w * 32 + 32 ensures next[i] == Repaired(was[i], view, z + i, size, accept) {
      assert (z + i) / 32 == z / 32 + w;
      assert word[i - w * 32] == view[z + i];
      assert now[w * 32..w * 32 + 32][i - w * 32] == now[i];
    }
  }

  /** Past the partition's end nothing is compared. */
  lemma ComparedRest(was: seq<bool>, now: seq<bool>, k: int, view: seq<bool>, z: int, size: int, accept: int -> bool)
    requires Compared(was, now, k, view, z, size, accept) && (k == |was| || z + k == size) && z >= 0
    ensures Compared(was, now, |was|, view, z, size, accept)
  {
  }

  class Pager {
    var buf: seq<Page>
    var ring: seq<int>
    var disk: map<int, seq<bool>>
    var pages: int
    ghost var claims: seq<Claim>
    ghost var honest: bool           // every claim so far was of unclaimed zones

    /** The buffers are in order. */
    ghost predicate Ready()
      reads this`buf, this`disk, this`pages, this`ring
    {
      Good(buf, disk, pages, ring)
    }

    ghost predicate Valid()
      reads this
    {
      && Ready()
      && (honest ==> Claimed(View(), claims))
    }

    /** The flat set. */
    ghost function View(): (v: seq<bool>)
      reads this`buf, this`disk, this`pages
      ensures Whole(buf, disk, pages) ==> |v| == pages * PAGE_BITS
    {
      Bits(buf, disk, pages)
    }


    /** Empty buffers and a blank map for so many zones: more pages than buffers go to disk. */
    constructor (size: int)
      requires size >= 0
      ensures Valid() && 0 <= pages * PAGE_BITS < size + PAGE_BITS
      ensures size <= pages * PAGE_BITS <==> !(0 < size % PAGE_BITS < 8)
      ensures ring == [0, 1, 2, 3] && claims == [] && honest
      ensures forall z :: 0 <= z < pages * PAGE_BITS ==> !View()[z]
    {
      hide Sound, Whole, RingOk, Content, Bits;
      PageCount(size);
      var count := size / PAGE_BITS + if 0 < size / 8 % 0x2_0000 then 1 else 0;
      pages := count;
      buf := FreshBuffers(BUFFERS - 1);
      ring := [0, 1, 2, 3];
      disk := map[];
      claims, honest := [], true;
      new;
      if count > BUFFERS {
        disk := disk[0 := buf[0].bits][1 := buf[1].bits][2 := buf[2].bits][3 := buf[3].bits];
        var i := BUFFERS;
        while i < count
          invariant BUFFERS <= i <= count && BlankDisk(disk, i) && buf == FreshBuffers(i - 1)
          invariant pages == count && ring == [0, 1, 2, 3] && claims == [] && honest
        {
          buf := buf[3 := buf[3].(index := i)];
          disk := disk[i := buf[3].bits];
          i := i + 1;
        }
      }
      FreshSound(disk, pages);
      forall z | 0 <= z < pages * PAGE_BITS ensures !View()[z] {
        FreshBlank(disk, pages, z);
      }
    }

    // ----- paging -----

    method Find(p: int) returns (j: int)
      requires |buf| == BUFFERS
      ensures if j < BUFFERS then 0 <= j && buf[j].index == p else j == BUFFERS && Unbuffered(buf, p)
    {
      j := 0;
      while j < BUFFERS && buf[j].index != p
        invariant 0 <= j <= BUFFERS && forall i :: 0 <= i < j ==> buf[i].index != p
      {
        j := j + 1;
      }
    }

    /** Pins the buffer of a page, reading the page into the oldest free buffer when it has
        none. */
    method Read(p: int) returns (j: int)
      requires Ready() && 0 <= p < pages && ring != []
      modifies this`buf, this`ring, this`disk
      ensures Ready() && View() == old(View()) && Pinned(buf, ring, old(ring), j, p)
      ensures MoreUsers(old(buf), buf, p, 1)
    {
      GoodFacts(buf, disk, pages, ring);
      hide Ready, View, Pinned, Unbuffered, Good, MoreUsers;
      j := Find(p);
      if j < BUFFERS {
        Pin(j);
      } else {
        j := ring[0];
        Evict(p);
      }
    }

    method Pin(j: int)
      requires Ready() && 0 <= j < |buf|
      modifies this`buf, this`ring
      ensures Ready() && View() == old(View()) && Pinned(buf, ring, old(ring), j, old(buf[j].index))
      ensures MoreUsers(old(buf), buf, old(buf[j].index), 1)
    {
      GoodPages(buf, disk, pages, ring);
      hide Good, Bits, Pinned, Without, MoreUsers, Pages;
      GoodFacts(buf, disk, pages, ring);
      PinGood(buf, disk, pages, ring, j);
      PinUsers(buf, j);
      ghost var b0 := buf;
      if buf[j].nused == 0 {
        ring := Without(ring, j);
      }
      buf := buf[j := buf[j].(nused := buf[j].nused + 1)];
      assert buf == MorePinned(b0, j);
      hide MorePinned;
    }

    /** Gives the oldest free buffer to another page, writing back what it had. */
    method Evict(p: int)
      requires Ready() && 0 <= p < pages && ring != [] && Unbuffered(buf, p)
      modifies this`buf, this`ring, this`disk
      ensures Ready() && View() == old(View()) && Pinned(buf, ring, old(ring), old(ring[0]), p)
      ensures MoreUsers(old(buf), buf, p, 1)
    {
      GoodPages(buf, disk, pages, ring);
      hide Good, Bits, Pinned, Without, Unbuffered, MoreUsers, Pages;
      GoodFacts(buf, disk, pages, ring);
      EvictGood(buf, disk, pages, ring, p);
      var j := ring[0];
      EvictUsers(buf, j, p, WrittenBack(buf, disk, j)[p]);
      if buf[j].dirty {
        disk := disk[buf[j].index := buf[j].bits];
      }
      buf := buf[j := Page(p, false, 1, disk[p])];
      ring := Without(ring, j);
    }

    method Free(j: int)
      requires Ready() && 0 <= j < BUFFERS
      modifies this`buf, this`ring
      ensures Ready() && View() == old(View())
      ensures buf == Unpinned(old(buf), j) && ring == Returned(old(buf), old(ring), j)
    {
      hide Good, Bits;
      GoodFacts(buf, disk, pages, ring);
      UnpinGood(buf, disk, pages, ring, j);
      if buf[j].nused != 0 {
        buf := buf[j := buf[j].(nused := buf[j].nused - 1)];
        if buf[j].nused == 0 {
          ring := ring + [j];
        }
      }
    }

    // ----- claiming -----

    /** Marks so many zones from a bit of a word of a buffered page on, until one is found marked
        or the word ends. */
    method CheckWord(j: int, zone: int, startBit: int, remaining: int) returns (r: int, left: int)
      requires Ready() && 0 <= j < |buf| && buf[j].index < pages
      requires 0 <= zone < 0x8000 && 0 <= startBit < 32 && remaining > 0
      modifies this`buf
      ensures Ready() && SameShape(old(buf), buf) && 0 <= left <= remaining && (r != 0 ==> left > 0)
      ensures Swept(old(View()), View(), old(buf[j].index) * PAGE_BITS + zone * 32 + startBit, remaining - left, r)
      ensures r == 0 ==> left == if remaining <= 32 - startBit then 0 else remaining - (32 - startBit)
      ensures r != 0 ==> remaining - left < 32 - startBit
    {
      hide Good, Bits, SameShape, Run, Marked, WithBit, Swept;
      IndexKept(buf, disk, pages, ring, j);
      ghost var v, a, b0 := View(), buf[j].index * PAGE_BITS + zone * 32 + startBit, buf;
      ShapeSelf(buf);
      GoodFacts(buf, disk, pages, ring);
      SweepStarts(v, a);
      var bit := startBit;
      left := remaining;
      while bit < 32 && left != 0
        invariant startBit <= bit <= 32 && 0 <= left && bit - startBit == remaining - left
        invariant Ready() && SameShape(b0, buf) && |buf| == BUFFERS
        invariant buf[j].index * PAGE_BITS + zone * 32 + startBit == a && |buf[j].bits| == PAGE_BITS
        invariant 0 <= buf[j].index < pages
        invariant Swept(v, View(), a, remaining - left, 0)
      {
        SetGood(buf, disk, pages, ring, j, zone * 32 + bit);
        ShapeKept(b0, buf, j, zone * 32 + bit);
        SweepOn(v, View(), a, remaining - left);
        if buf[j].bits[zone * 32 + bit] {
          return 1, left;
        }
        WithBitFacts(buf[j], zone * 32 + bit);
        buf := buf[j := buf[j].(dirty := true, bits := buf[j].bits[zone * 32 + bit := true])];
        bit, left := bit + 1, left - 1;
      }
      r := 0;
    }

    /** The same to the end of the page. */
    method CheckPage(j: int, first: int, firstBit: int, remaining: int) returns (r: int, left: int)
      requires Ready() && 0 <= j < |buf| && buf[j].index < pages
      requires 0 <= first < 0x8000 && 0 <= firstBit < 32 && remaining > 0
      modifies this`buf
      ensures Ready() && SameShape(old(buf), buf) && 0 <= left <= remaining && (r != 0 ==> left > 0)
      ensures Swept(old(View()), View(), old(buf[j].index) * PAGE_BITS + first * 32 + firstBit, remaining - left, r)
      ensures r == 0 ==>
        var room := PAGE_BITS - first * 32 - firstBit;
        left == if remaining <= room then 0 else remaining - room
      ensures r != 0 ==> remaining - left < PAGE_BITS - first * 32 - firstBit
    {
      hide Good, Bits, SameShape, Run, Marked, WithBit, Swept;
      IndexKept(buf, disk, pages, ring, j);
      ghost var v, a, b0 := View(), buf[j].index * PAGE_BITS + first * 32 + firstBit, buf;
      ShapeSelf(buf);
      GoodFacts(buf, disk, pages, ring);
      SweepStarts(v, a);
      var zone, startBit := first, firstBit;
      left := remaining;
      while zone < 0x8000 && left != 0
        invariant first <= zone <= 0x8000 && 0 <= startBit < 32 && 0 <= left <= remaining
        invariant left != 0 ==> zone * 32 + startBit == first * 32 + firstBit + (remaining - left)
        invariant left != 0 && zone == 0x8000 ==> startBit == 0
        invariant left == 0 ==> remaining <= PAGE_BITS - first * 32 - firstBit
        invariant Ready() && SameShape(b0, buf) && 0 <= j < |buf| && buf[j].index == old(buf[j].index)
        invariant Swept(v, View(), a, remaining - left, 0)
      {
        ghost var b1, u, done := buf, View(), remaining - left;
        r, left := CheckWord(j, zone, startBit, left);
        ShapeJoins(b0, b1, buf);
        SweepJoins(v, u, View(), a, done, remaining - left - done, r);
        if r != 0 {
          return;
        }
        ShapeFacts(b1, buf, j);
        zone, startBit := zone + 1, 0;
      }
      r := 0;
    }

    /** Claims a run of zones, and tells whether one of them was claimed before. */
    method CheckZones(number: int, size: int) returns (r: int, ghost done: int)
      requires Valid() && 0 <= number && 0 <= size && number + size <= pages * PAGE_BITS && ring != []
      modifies this`buf, this`ring, this`disk, this`claims, this`honest
      ensures Valid() && (r == 0 || r == 1)
      ensures r == 0 <==> Run(old(View()), number, size)
      ensures r == 0 ==> View() == Marked(old(View()), number, size, true)
      ensures r == 0 ==> claims == old(claims) + [Claim(number, size)] && honest == old(honest) && |ring| == |old(ring)|
      ensures r == 0 ==> MoreUsers(old(buf), buf, 0, 0)
      ensures r == 1 ==> 0 <= done < size && number + done < |old(View())| && old(View())[number + done]
      ensures r == 1 ==> View() == Marked(old(View()), number, done, true)
      ensures r == 1 ==> !honest && |ring| >= |old(ring)| - 1
      ensures r == 1 ==> MoreUsers(old(buf), buf, (number + done) / PAGE_BITS, 1)
    {
      hide Good, Bits, SameShape, Run, Marked, Swept, Claimed, Pinned, Returned, Unpinned, MoreUsers;
      GoodFacts(buf, disk, pages, ring);
      ghost var v, places, b0 := View(), |ring|, buf;
      SameUsers(b0);
      SweepStarts(v, number);
      PagePlace(number);
      var index, zone, startBit, remaining := number / PAGE_BITS, number / 32 % 0x8000, number % 32, size;
      while remaining != 0
        invariant 0 <= remaining <= size && 0 <= zone < 0x8000 && 0 <= startBit < 32
        invariant remaining != 0 ==> index * PAGE_BITS + zone * 32 + startBit == number + (size - remaining)
        invariant Ready() && |ring| == places && index >= 0 && claims == old(claims) && honest == old(honest)
        invariant MoreUsers(b0, buf, 0, 0)
        invariant Swept(v, View(), number, size - remaining, 0)
      {
        ghost var u, before, back, b2 := View(), ring, size - remaining, buf;
        RingDistinct(buf, disk, pages, ring);
        var j := Read(index);
        PinnedFacts(buf, ring, before, j, index);
        ghost var b1 := buf;
        MoreThenUsers(b0, b2, b1, 0, index, 1);
        var left: int;
        r, left := CheckPage(j, zone, startBit, remaining);
        ShapeUsers(b0, b1, buf, index, 1);
        ShapePinned(b1, buf, ring, before, j, index);
        RingLength(buf, ring, before, j, index);
        SweepJoins(v, u, View(), number, back, remaining - left, r);
        remaining := left;
        if r != 0 {
          done := size - remaining;
          SamePage(index, number + done);
          SweptEnds(v, View(), number, size, done, r);
          honest := false;
          return;
        }
        FreeUsers(b0, buf, disk, pages, ring, before, j, index);
        index := index + 1;
        Free(j);
        zone, startBit := 0, 0;
      }
      r, done := 0, size;
      SweptEnds(v, View(), number, size, size, r);
      if honest {
        ClaimJoins(v, claims, Claim(number, size));
      }
      claims := claims + [Claim(number, size)];
    }

    /** Claims the first zones of every partition: super block, bitmap and, in the main one, the
        log. Partitions follow one another in the set, so no claim meets another. */
    method Reserve(sizes: seq<int>, counts: seq<int>)
      requires Valid() && honest && claims == [] && ring != [] && |sizes| == |counts|
      requires forall i :: 0 <= i < |sizes| ==> 0 <= counts[i] <= sizes[i]
      requires Sum(sizes) <= pages * PAGE_BITS
      requires forall z :: 0 <= z < |View()| ==> !View()[z]
      modifies this`buf, this`ring, this`disk, this`claims, this`honest
      ensures Valid() && honest && |ring| == |old(ring)| && |claims| == |sizes|
      ensures forall i :: 0 <= i < |sizes| ==> claims[i] == Claim(Sum(sizes[..i]), counts[i])
    {
      hide *;
      ViewLength(this);
      NoneYet(sizes);
      var i, base := 0, 0;
      while i < |sizes|
        invariant 0 <= i <= |sizes| && base == Sum(sizes[..i]) && 0 <= base
        invariant Valid() && honest && |ring| == |old(ring)| && |claims| == i && |View()| == pages * PAGE_BITS
        invariant forall k :: 0 <= k < i ==> claims[k] == Claim(Sum(sizes[..k]), counts[k])
        invariant forall z :: base <= z < |View()| ==> !View()[z]
      {
        PartitionsFit(sizes, i);
        ghost var v := View();
        var r, _ := CheckZones(base, counts[i]);
        NextPartition(v, base, counts[i], sizes[i]);
        base := base + sizes[i];
        i := i + 1;
      }
    }

    // ----- comparing -----

    /** The buffer and the word of it with a zone's bit; the buffer is not pinned. */
    method GetEntry(z: int) returns (j: int, word: int)
      requires Ready() && 0 <= z < pages * PAGE_BITS && ring != []
      modifies this`buf, this`ring, this`disk
      ensures Ready() && View() == old(View()) && |ring| == |old(ring)|
      ensures 0 <= j < |buf| && buf[j].index == z / PAGE_BITS && word == z / 32 % 0x8000
    {
      hide Good, Bits, Pinned, Returned;
      RingDistinct(buf, disk, pages, ring);
      assert 0 <= z / PAGE_BITS < pages;
      j := Read(z / PAGE_BITS);
      PinnedFacts(buf, ring, old(ring), j, z / PAGE_BITS);
      RingLength(buf, ring, old(ring), j, z / PAGE_BITS);
      Free(j);
      word := z / 32 % 0x8000;
    }

    /** Compares a bitmap block word by word, replacing what differs where asked to. */
    method CompareBlock(block: seq<bool>, z: int, length: int, ghost size: int, accept: int -> bool)
      returns (now: seq<bool>, hasUpdate: bool, ghost asked: set<int>)
      requires Ready() && ring != [] && 0 <= z && z % 32 == 0 && z % PAGE_BITS + |block| <= PAGE_BITS
      requires 0 <= length <= |block| && length % 32 == 0 && z + length <= size <= pages * PAGE_BITS && length > 0
      requires length == |block| || z + length == size
      modifies this`buf, this`ring, this`disk
      ensures Ready() && View() == old(View()) && |ring| == |old(ring)|
      ensures Compared(block, now, |block|, View(), z, size, accept) && (hasUpdate <==> now != block)
      ensures forall q :: q in asked <==> Unmatched(block, View(), z, length, q)
    {
      hide Good, Bits, Compared, Ready, Noted, Unmatched;
      GoodViews(this);
      var j, first := GetEntry(z);
      now, hasUpdate, asked := block, false, {};
      NothingNoted(block, View(), z);
      ComparedNone(block, View(), z, size, accept);
      var w := 0;
      while w < length / 32
        invariant 0 <= w <= length / 32 && |now| == |block|
        invariant Compared(block, now, w * 32, View(), z, size, accept)
        invariant Noted(block, now, View(), z, w, asked, hasUpdate)
        modifies {}
      {
        ghost var was, before, noted := now, asked, hasUpdate;
        EntryViewed(this, j, z, w, first);
        var word := buf[j].bits[(first + w) * 32..(first + w) * 32 + 32];
        if now[w * 32..w * 32 + 32] != word {
          asked := asked + {z / 32 + w};
          if accept(z / 32 + w) {
            now := now[..w * 32] + word + now[w * 32 + 32..];
            hasUpdate := true;
          }
        }
        GoodViews(this);
        ComparedWord(block, was, w, View(), z, size, accept, word, now);
        WordNoted(block, was, View(), z, w, before, noted, accept(z / 32 + w), now);
        w := w + 1;
      }
      ComparedRest(block, now, length, View(), z, size, accept);
      AllNoted(block, now, View(), z, w, asked, hasUpdate);
    }

    /** Compares the main partition's bitmap, block by block, and writes back what changed. */
    method CompareBitmap(raw: seq<seq<bool>>, n: int, size: int, accept: int -> bool)
      returns (now: seq<seq<bool>>, ghost asked: seq<set<int>>, ghost written: set<int>)
      requires Ready() && ring != [] && n > 0 && n % 32 == 0 && PAGE_BITS % n == 0
      requires 0 <= size <= pages * PAGE_BITS && size % 32 == 0 && |raw| == (size + n - 1) / n
      requires forall b :: 0 <= b < |raw| ==> |raw[b]| == n
      modifies this`buf, this`ring, this`disk
      ensures Ready() && View() == old(View()) && |now| == |raw|
      ensures forall b :: 0 <= b < |raw| ==> |now[b]| == n
      ensures forall b, i :: 0 <= b < |raw| && 0 <= i < n ==>
        now[b][i] == Repaired(raw[b][i], View(), Place(b, n, i), size, accept)
      ensures |asked| == |raw| && forall b, q :: 0 <= b < |raw| ==> (q in asked[b] <==>
        Unmatched(raw[b], View(), Place(b, n, 0), if b == size / n then size % n else n, q))
      ensures forall b :: b in written <==> 0 <= b < |raw| && now[b] != raw[b]
      ensures (forall w :: accept(w)) ==> forall b, i :: 0 <= b < |raw| && 0 <= i < n && 0 <= Place(b, n, i) < size ==>
        Place(b, n, i) < |View()| && now[b][i] == View()[Place(b, n, i)]
    {
      hide Good, Bits, Compared, Ready, Place, Unmatched;
      asked, written := [], {};
      var count, unaligned := size / n, size % n;
      now := raw;
      var zone := 0;
      BlockCount(size, n);
      while (unaligned == 0 && zone < count) || (unaligned != 0 && zone < count + 1)
        invariant 0 <= zone <= |raw| == |now| && Ready() && View() == old(View()) && ring != []
        invariant forall b :: 0 <= b < zone ==> Compared(raw[b], now[b], n, View(), Place(b, n, 0), size, accept)
        invariant forall b :: zone <= b < |raw| ==> now[b] == raw[b]
        invariant |asked| == zone && forall b, q :: 0 <= b < zone ==> (q in asked[b] <==>
          Unmatched(raw[b], View(), Place(b, n, 0), if b == count then unaligned else n, q))
        invariant forall b :: b in written <==> 0 <= b < zone && now[b] != raw[b]
        decreases |raw| - zone
      {
        var length := if zone == count then unaligned else n;
        BlockInPage(zone, n);
        BlockPlace(zone, n, size);
        var z := Place(zone, n, 0);
        var block, hasUpdate;
        ghost var words;
        block, hasUpdate, words := CompareBlock(now[zone], z, length, size, accept);
        asked := asked + [words];
        if hasUpdate {
          now := now[zone := block];
          written := written + {zone};
        }
        zone := zone + 1;
      }
      forall b | 0 <= b < |raw|
        ensures |now[b]| == n
        ensures forall i :: 0 <= i < n ==> now[b][i] == Repaired(raw[b][i], View(), Place(b, n, i), size, accept) {
        ComparedAll(raw[b], now[b], View(), b, n, size, accept);
      }
      GoodViews(this);
    }
  }

  lemma ViewLength(pager: Pager)
    requires pager.Valid()
    ensures |pager.View()| == pager.pages * PAGE_BITS && |pager.buf| == BUFFERS
  {
    GoodFacts(pager.buf, pager.disk, pager.pages, pager.ring);
  }

  lemma NoneYet(sizes: seq<int>)
    ensures Sum(sizes[..0]) == 0 && sizes[..|sizes|] == sizes
  {
  }

  lemma NextPartition(v: seq<bool>, base: int, count: int, size: int)
    requires 0 <= count <= size && 0 <= base && base + size <= |v| && forall z :: base <= z < |v| ==> !v[z]
    ensures Run(v, base, count)
    ensures
      var u := Marked(v, base, count, true);
      |u| == |v| && forall z :: base + size <= z < |v| ==> !u[z]
  {
  }

  /** Each partition starts where the one before ends, and all fit the set. */
  lemma PartitionsFit(sizes: seq<int>, i: int)
    requires 0 <= i < |sizes| && forall k :: 0 <= k < |sizes| ==> sizes[k] >= 0
    ensures Sum(sizes[..i + 1]) == Sum(sizes[..i]) + sizes[i] && 0 <= Sum(sizes[..i])
    ensures Sum(sizes[..i + 1]) <= Sum(sizes)
  {
    assert sizes[..i + 1][..i] == sizes[..i];
    SumOver(sizes[..i], 0);
    SumOver(sizes, i + 1);
  }

  lemma {:induction false} SumOver(s: seq<int>, i: int)
    requires 0 <= i <= |s| && forall k :: 0 <= k < |s| ==> s[k] >= 0
    ensures 0 <= Sum(s[..i]) <= Sum(s)
    decreases |s|
  {
    if i < |s| {
      SumOver(s[..|s| - 1], i);
      assert s[..|s| - 1][..i] == s[..i];
    } else if s != [] {
      SumOver(s[..|s| - 1], |s| - 1);
      assert s[..|s| - 1][..|s| - 1] == s[..|s| - 1] && s[..i] == s;
    }
  }

  lemma GoodViews(pager: Pager)
    requires pager.Ready()
    ensures |pager.buf| == BUFFERS && |pager.View()| == pager.pages * PAGE_BITS
  {
    GoodFacts(pager.buf, pager.disk, pager.pages, pager.ring);
  }

  /** Word q is among those of the block that are compared, and differs. */
  ghost predicate Unmatched(block: seq<bool>, view: seq<bool>, z: int, length: int, q: int)
  {
    0 <= q - z / 32 < length / 32 && Differs(block, view, z, q - z / 32)
  }

  ghost predicate Differs(block: seq<bool>, view: seq<bool>, z: int, w: int)
  {
    && 0 <= w && 32 * w + 32 <= |block| && 0 <= z && z + 32 * w + 32 <= |view|
    && block[32 * w..32 * w + 32] != view[z + 32 * w..z + 32 * w + 32]
  }

  /** Up to word w the words asked about are those that differ, and something has changed if that is noted. */
  ghost predicate Noted(block: seq<bool>, now: seq<bool>, view: seq<bool>, z: int, w: int, asked: set<int>,
                        hasUpdate: bool)
  {
    && (forall q :: q in asked <==> Unmatched(block, view, z, 32 * w, q))
    && |now| == |block| && 0 <= 32 * w <= |block|
    && (hasUpdate <==> now[..32 * w] != block[..32 * w]) && now[32 * w..] == block[32 * w..]
  }

  lemma NothingNoted(block: seq<bool>, view: seq<bool>, z: int)
    ensures Noted(block, block, view, z, 0, {}, false)
  {
  }

  lemma WordNoted(block: seq<bool>, was: seq<bool>, view: seq<bool>, z: int, w: int, asked: set<int>, noted: bool,
                  accepted: bool, next: seq<bool>)
    requires Noted(block, was, view, z, w, asked, noted) && z >= 0 && w >= 0
    requires w * 32 + 32 <= |block| && z + w * 32 + 32 <= |view|
    requires
      var word := view[z + w * 32..z + w * 32 + 32];
      next == if was[w * 32..w * 32 + 32] != word && accepted then was[..w * 32] + word + was[w * 32 + 32..] else was
    ensures
      var differs := was[w * 32..w * 32 + 32] != view[z + w * 32..z + w * 32 + 32];
      Noted(block, next, view, z, w + 1, if differs then asked + {z / 32 + w} else asked,
        noted || (differs && accepted))
  {
    var word, old32 := view[z + w * 32..z + w * 32 + 32], was[w * 32..w * 32 + 32];
    assert old32 == block[w * 32..w * 32 + 32] by {
      assert old32 == was[32 * w..][..32] && block[w * 32..w * 32 + 32] == block[32 * w..][..32];
    }
    assert next[32 * w + 32..] == block[32 * w + 32..] by {
      assert was[32 * w + 32..] == was[32 * w..][32..] && block[32 * w + 32..] == block[32 * w..][32..];
    }
    assert next[..32 * w] == was[..32 * w];
    var n, b := next[..32 * (w + 1)], block[..32 * (w + 1)];
    assert n == was[..32 * w] + next[32 * w..32 * w + 32] && b == block[..32 * w] + old32;
  }

  lemma AllNoted(block: seq<bool>, now: seq<bool>, view: seq<bool>, z: int, w: int, asked: set<int>, hasUpdate: bool)
    requires Noted(block, now, view, z, w, asked, hasUpdate)
    ensures hasUpdate <==> now != block
    ensures forall q :: q in asked <==> Unmatched(block, view, z, 32 * w, q)
  {
    assert now == now[..32 * w] + now[32 * w..] && block == block[..32 * w] + block[32 * w..];
  }

  lemma ComparedNone(was: seq<bool>, view: seq<bool>, z: int, size: int, accept: int -> bool)
    ensures Compared(was, was, 0, view, z, size, accept)
  {
  }

  /** The words of the block are in the page with its first zone. */
  lemma EntryViewed(pager: Pager, j: int, z: int, w: int, first: int)
    requires pager.Ready() && 0 <= j < |pager.buf| && pager.buf[j].index == z / PAGE_BITS && first == z / 32 % 0x8000
    requires z >= 0 && z % 32 == 0 && w >= 0 && z % PAGE_BITS + w * 32 + 32 <= PAGE_BITS
    requires z + w * 32 + 32 <= pager.pages * PAGE_BITS
    ensures |pager.buf[j].bits| == PAGE_BITS && 0 <= (first + w) * 32 <= PAGE_BITS - 32
    ensures z + w * 32 + 32 <= |pager.View()|
    ensures pager.buf[j].bits[(first + w) * 32..(first + w) * 32 + 32] == pager.View()[z + w * 32..z + w * 32 + 32]
  {
    EntryPlace(z, w, pager.pages);
    SliceViewed(pager, j, (first + w) * 32, z + w * 32);
  }

  lemma EntryPlace(z: int, w: int, pages: int)
    requires z >= 0 && z % 32 == 0 && w >= 0 && z % PAGE_BITS + w * 32 + 32 <= PAGE_BITS
    requires z + w * 32 + 32 <= pages * PAGE_BITS
    ensures
      var off := (z / 32 % 0x8000 + w) * 32;
      0 <= off <= PAGE_BITS - 32 && z / PAGE_BITS * PAGE_BITS + off == z + w * 32 && z / PAGE_BITS < pages
  {
    PagePlace(z);
  }

  /** A word of a buffer is a word of the set. */
  lemma SliceViewed(pager: Pager, j: int, off: int, at: int)
    requires pager.Ready() && 0 <= j < |pager.buf| && 0 <= off <= PAGE_BITS - 32 && pager.buf[j].index < pager.pages
    requires at == pager.buf[j].index * PAGE_BITS + off
    ensures |pager.buf[j].bits| == PAGE_BITS && 0 <= at && at + 32 <= |pager.View()|
    ensures pager.buf[j].bits[off..off + 32] == pager.View()[at..at + 32]
  {
    hide Good, Bits;
    ViewedBit(pager, j, off);
    ViewedBit(pager, j, off + 31);
    var word, seen := pager.buf[j].bits[off..off + 32], pager.View()[at..at + 32];
    forall i | 0 <= i < 32 ensures word[i] == seen[i] {
      ViewedBit(pager, j, off + i);
    }
  }

  lemma ViewedBit(pager: Pager, j: int, i: int)
    requires pager.Ready() && 0 <= j < |pager.buf| && 0 <= i < PAGE_BITS && pager.buf[j].index < pager.pages
    ensures |pager.buf[j].bits| == PAGE_BITS && 0 <= pager.buf[j].index * PAGE_BITS + i < |pager.View()|
    ensures pager.View()[pager.buf[j].index * PAGE_BITS + i] == pager.buf[j].bits[i]
  {
    hide Good, Bits;
    Viewed(pager.buf, pager.disk, pager.pages, pager.ring, j, i);
  }

  lemma BlockCount(size: int, n: int)
    requires size >= 0 && n > 0
    ensures (size + n - 1) / n == if size % n == 0 then size / n else size / n + 1
  {
    var q, r := size / n, size % n;
    assert size == q * n + r;
    if r == 0 {
      CeilOf(size + n - 1, q, n);
    } else {
      CeilOf(size + n - 1, q + 1, n);
    }
  }

  lemma CeilOf(x: int, q: int, n: int)
    requires n > 0 && q * n <= x < q * n + n
    ensures x / n == q
  {
    var d := x / n - q;
    assert x == x / n * n + x % n;
    assert d * n == x / n * n - q * n;
    assert d >= 1 ==> d * n >= n;
    assert d <= -1 ==> d * n <= -n;
  }

  lemma BlockPlace(b: int, n: int, size: int)
    requires n > 0 && 0 <= b < (size + n - 1) / n && size >= 0 && n % 32 == 0 && size % 32 == 0
    ensures
      var length := if b == size / n then size % n else n;
      length > 0 && length % 32 == 0 && length <= n && Place(b, n, 0) + length <= size
      && (length == n || Place(b, n, 0) + length == size)
  {
    BlockCount(size, n);
    var q, r := size / n, size % n;
    assert size == q * n + r;
    if b == q {
      RowAligned(q, n, r, size);
    } else {
      RowBound(b, q, n);
    }
  }

  lemma RowAligned(q: int, n: int, r: int, size: int)
    requires size == q * n + r && n % 32 == 0
    ensures r % 32 == size % 32
  {
    var m := n / 32;
    assert q * n == q * m * 32 by {
      assert n == m * 32;
    }
    assert size - r == q * m * 32;
  }

  lemma ComparedAll(was: seq<bool>, now: seq<bool>, view: seq<bool>, b: int, n: int, size: int, accept: int -> bool)
    requires Compared(was, now, n, view, Place(b, n, 0), size, accept) && |was| == n
    ensures |now| == n && forall i :: 0 <= i < n ==> now[i] == Repaired(was[i], view, Place(b, n, i), size, accept)
  {
    forall i | 0 <= i < n ensures now[i] == Repaired(was[i], view, Place(b, n, i), size, accept) {
      assert Place(b, n, i) == Place(b, n, 0) + i;
    }
  }
}
