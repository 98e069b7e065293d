/** Directory packing: 512-byte sectors tiled by entries, which stand for a map from names to
    inodes. */
module Directory {

  const SECTOR := 512

  /** A length byte says how long a name is. */
  type Name = s: string | |s| <= 255

  /** An entry as read at its offset.  `alen` is its allocated length; an empty name is an entry
      of length 0. */
  datatype Dentry = Dentry(inode: int, sub: int, name: Name, alen: int, mode: int)

  function SectorEnd(o: int): int
  {
    o / SECTOR * SECTOR + SECTOR
  }

  /** What a name stands for. */
  datatype Target = Target(inode: int, sub: int, mode: int)

  /** The bytes an entry with a name of n characters takes: (n + 11) & 0x1FC. */
  function Taken(n: int): int
  {
    (n + 11) / 4 * 4 % 512
  }

  /** A directory: what each offset reads as, the offsets where entries are, its length. */
  datatype Dir = Dir(at: map<int, Dentry>, cuts: set<int>, size: int)
  {
    function Read(o: int): Dentry
    {
      if o in at then at[o] else Dentry(0, 0, "", 0, 0)
    }

    function End(o: int): int
    {
      o + Read(o).alen
    }

    /** Every sector is tiled by entries, 4-aligned and large enough for their names; names are
        unique; an entry without inode is one without name. */
    ghost predicate Valid()
    {
      && size >= 0 && size % SECTOR == 0
      && (forall s :: 0 <= s < size && s % SECTOR == 0 ==> s in cuts)
      && (forall o {:trigger EntryOk(o)} :: o in cuts ==> EntryOk(o))
      && forall o, p {:trigger Separate(o, p)} :: o in cuts && p in cuts && o < p ==> Separate(o, p)
    }

    /** One entry ends before the other starts, and they are not called the same. */
    ghost predicate Separate(o: int, p: int)
    {
      End(o) <= p && (Read(o).name == Read(p).name ==> Read(o).name == "")
    }

    ghost predicate EntryOk(o: int)
    {
      && o in at && 0 <= o < size && o % 4 == 0
      && at[o].alen % 4 == 0 && Taken(|at[o].name|) <= at[o].alen
      && (at[o].inode == 0 <==> at[o].name == "")
      && End(o) <= SectorEnd(o) && (End(o) == SectorEnd(o) || End(o) in cuts)
    }

    /** The name map the directory stands for. */
    ghost predicate Has(name: string, t: Target)
    {
      exists o :: o in cuts && Stands(o, name, t)
    }

    ghost predicate Stands(o: int, name: string, t: Target)
    {
      Read(o).name == name && name != "" && t == Target(Read(o).inode, Read(o).sub, Read(o).mode)
    }
  }

  lemma TakenFacts(n: int)
    requires 0 <= n <= 255
    ensures 8 <= Taken(n) <= 264 && Taken(n) % 4 == 0 && Taken(n) >= n + 8 && Taken(n) < n + 12
  {
  }

  // ----- changes -----

  function Filled(name: Name, t: Target, alen: int): Dentry
  {
    Dentry(t.inode, t.sub, name, alen, t.mode)
  }

  /** A new entry in the slack of the entry at p. */
  function Carved(d: Dir, p: int, name: Name, t: Target): Dir
  {
    var e := d.Read(p);
    var o := p + Taken(|e.name|);
    Dir(d.at[p := e.(alen := Taken(|e.name|))][o := Filled(name, t, e.alen - Taken(|e.name|))], d.cuts + {o}, d.size)
  }

  /** A new entry in the place of the empty one at p. */
  function Reused(d: Dir, p: int, name: Name, t: Target): Dir
  {
    d.(at := d.at[p := Filled(name, t, d.Read(p).alen)])
  }

  /** A new entry in a sector of its own. */
  function Appended(d: Dir, name: Name, t: Target): Dir
  {
    Dir(d.at[d.size := Filled(name, t, SECTOR)], d.cuts + {d.size}, d.size + SECTOR)
  }

  /** The entry at o joins the slack of the one at p before it. */
  function Merged(d: Dir, p: int, o: int): Dir
  {
    Dir(d.at[p := d.Read(p).(alen := d.Read(p).alen + d.Read(o).alen)], d.cuts - {o}, d.size)
  }

  /** The entry at o, the first of its sector, becomes empty. */
  function Emptied(d: Dir, o: int): Dir
  {
    d.(at := d.at[o := d.Read(o).(inode := 0, name := "")])
  }

  /** The last sector goes. */
  function Dropped(d: Dir, o: int): Dir
  {
    Dir(d.at, d.cuts - {o}, d.size - d.Read(o).alen)
  }

  /** The same entries at the same places. */
  ghost predicate Alike(c: Dir, d: Dir)
  {
    c.size == d.size && c.cuts == d.cuts && forall o :: o in c.cuts ==> c.Read(o) == d.Read(o)
  }

  lemma InSector(d: Dir, o: int)
    requires d.Valid() && o in d.cuts
    ensures 8 <= d.Read(o).alen <= SECTOR && d.End(o) <= SectorEnd(o) <= d.size && 0 <= o && o % 4 == 0
    ensures d.Read(o).alen % 4 == 0
    ensures o in d.at && |d.Read(o).name| <= 255 && Taken(|d.Read(o).name|) <= d.Read(o).alen
    ensures d.Read(o).inode == 0 <==> d.Read(o).name == ""
    ensures d.End(o) == SectorEnd(o) || d.End(o) in d.cuts
  {
    assert d.EntryOk(o);
    TakenFacts(|d.Read(o).name|);
  }

  /** An entry says the same but for its allocated length. */
  predicate SameStand(e: Dentry, f: Dentry)
  {
    e.(alen := 0) == f.(alen := 0)
  }

  predicate Nameable(name: Name)
  {
    |name| >= 1
  }

  ghost predicate Absent(d: Dir, name: string)
  {
    forall o :: o in d.cuts ==> d.Read(o).name != name
  }

  /** What every way of adding does to the name map. */
  lemma HasAdded(d: Dir, e: Dir, o: int, name: string, t: Target)
    requires e.cuts == d.cuts + {o} && (o in d.cuts ==> d.Read(o).name == "")
    requires forall q :: q in d.cuts && q != o ==> SameStand(d.Read(q), e.Read(q))
    requires e.Stands(o, name, t)
    ensures forall n, u :: e.Has(n, u) <==> d.Has(n, u) || (n == name && u == t)
  {
    forall n, u ensures e.Has(n, u) <==> d.Has(n, u) || (n == name && u == t) {
      if d.Has(n, u) {
        var q :| q in d.cuts && d.Stands(q, n, u);
        assert e.Stands(q, n, u);
      }
      if e.Has(n, u) {
        var q :| q in e.cuts && e.Stands(q, n, u);
        assert q != o ==> d.Stands(q, n, u);
      }
      assert o in e.cuts;
    }
  }

  /** What every way of removing does to it. */
  lemma HasRemoved(d: Dir, e: Dir, o: int)
    requires d.Valid() && o in d.cuts && d.Read(o).name != ""
    requires e.cuts == d.cuts - {o} || (e.cuts == d.cuts && e.Read(o).name == "")
    requires forall q :: q in d.cuts && q != o ==> SameStand(d.Read(q), e.Read(q))
    ensures forall n, u :: e.Has(n, u) <==> d.Has(n, u) && n != d.Read(o).name
  {
    forall n, u ensures e.Has(n, u) <==> d.Has(n, u) && n != d.Read(o).name {
      if d.Has(n, u) {
        var q :| q in d.cuts && d.Stands(q, n, u);
        assert q != o ==> e.Stands(q, n, u);
      }
      if e.Has(n, u) {
        var q :| q in e.cuts && e.Stands(q, n, u);
        assert d.Stands(q, n, u) && q != o;
        assert d.Separate(if q < o then q else o, if q < o then o else q);
      }
    }
  }

  // ----- tilings -----

  /** Between the start of an entry and its end there is no other. */
  lemma NoneInside(d: Dir, p: int, o: int)
    requires d.Valid() && p in d.cuts && p < o < d.End(p)
    ensures o !in d.cuts
  {
    assert o in d.cuts ==> d.Separate(p, o);
  }

  lemma SectorStart(o: int)
    requires o >= 0 && o % SECTOR == 0
    ensures SectorEnd(o) == o + SECTOR && o % 4 == 0
  {
  }

  lemma SectorBefore(q: int, o: int)
    requires 0 <= q && o % SECTOR == 0
    ensures q < o ==> SectorEnd(q) <= o
  {
  }

  lemma SameSector(p: int, o: int)
    requires 0 <= p <= o < SectorEnd(p)
    ensures SectorEnd(o) == SectorEnd(p) && (o != p ==> o % SECTOR != 0)
  {
  }

  lemma CarvedValid(d: Dir, p: int, name: Name, t: Target)
    requires d.Valid() && p in d.cuts && d.Read(p).name != "" && Nameable(name) && t.inode != 0 && Absent(d, name)
    requires d.Read(p).alen - Taken(|d.Read(p).name|) >= Taken(|name|)
    ensures Carved(d, p, name, t).Valid()
    ensures p + Taken(|d.Read(p).name|) !in d.cuts
    ensures forall n, u :: Carved(d, p, name, t).Has(n, u) <==> d.Has(n, u) || (n == name && u == t)
  {
    var e, o := Carved(d, p, name, t), p + Taken(|d.Read(p).name|);
    CarvedPlace(d, p, name, t);
    hide Taken, SectorEnd, Carved, Dir.EntryOk, Dir.Separate;
    forall q | q in e.cuts ensures e.EntryOk(q) {
      CarvedEntry(d, p, name, t, q);
    }
    forall q, r | q in e.cuts && r in e.cuts && q < r ensures e.Separate(q, r) {
      CarvedSeparate(d, p, name, t, q, r);
    }
    HasAdded(d, e, o, name, t);
  }

  /** The new entry lies inside the old one. */
  lemma CarvedPlace(d: Dir, p: int, name: Name, t: Target)
    requires d.Valid() && p in d.cuts && d.Read(p).name != "" && Nameable(name) && t.inode != 0 && Absent(d, name)
    requires d.Read(p).alen - Taken(|d.Read(p).name|) >= Taken(|name|)
    ensures
      var e, o := Carved(d, p, name, t), p + Taken(|d.Read(p).name|);
      && o !in d.cuts && p < o < d.End(p) && o % 4 == 0 && SectorEnd(o) == SectorEnd(p) && e.End(o) == d.End(p)
      && e.cuts == d.cuts + {o} && e.size == d.size && e.Stands(o, name, t)
      && forall q :: q in d.cuts ==> SameStand(d.Read(q), e.Read(q))
  {
    hide SectorEnd, Taken, Dir.EntryOk;
    var o := p + Taken(|d.Read(p).name|);
    InSector(d, p);
    TakenFacts(|d.Read(p).name|);
    TakenFacts(|name|);
    NoneInside(d, p, o);
    SameSector(p, o);
  }

  lemma CarvedEntry(d: Dir, p: int, name: Name, t: Target, q: int)
    requires d.Valid() && p in d.cuts && d.Read(p).name != "" && Nameable(name) && t.inode != 0 && Absent(d, name)
    requires d.Read(p).alen - Taken(|d.Read(p).name|) >= Taken(|name|)
    requires q in Carved(d, p, name, t).cuts
    ensures Carved(d, p, name, t).EntryOk(q)
  {
    hide Taken, SectorEnd, Dir.Valid, Absent, Dir.EntryOk;
    var e, o := Carved(d, p, name, t), p + Taken(|d.Read(p).name|);
    CarvedPlace(d, p, name, t);
    if q != o && q != p {
      InSector(d, q);
      OtherEntry(d, e, q);
    } else {
      CarvedHalves(d, p, name, t);
    }
  }

  /** The two parts of the entry that was cut. */
  lemma CarvedHalves(d: Dir, p: int, name: Name, t: Target)
    requires d.Valid() && p in d.cuts && d.Read(p).name != "" && Nameable(name) && t.inode != 0 && Absent(d, name)
    requires d.Read(p).alen - Taken(|d.Read(p).name|) >= Taken(|name|)
    ensures
      var e, o := Carved(d, p, name, t), p + Taken(|d.Read(p).name|);
      e.EntryOk(p) && e.EntryOk(o)
  {
    hide Taken, SectorEnd;
    CarvedPlace(d, p, name, t);
    InSector(d, p);
    TakenFacts(|d.Read(p).name|);
    TakenFacts(|name|);
    hide Dir.Valid, Absent;
  }

  /** An entry that reads the same, in a directory with at least the same entries, is still well
      formed. */
  lemma OtherEntry(d: Dir, e: Dir, q: int)
    requires d.Valid() && q in d.cuts && q in e.at && e.Read(q) == d.Read(q) && d.cuts <= e.cuts && d.size <= e.size
    ensures e.EntryOk(q)
  {
    hide Taken, SectorEnd;
    assert d.EntryOk(q);
  }

  lemma CarvedSeparate(d: Dir, p: int, name: Name, t: Target, q: int, r: int)
    requires d.Valid() && p in d.cuts && d.Read(p).name != "" && Nameable(name) && t.inode != 0 && Absent(d, name)
    requires d.Read(p).alen - Taken(|d.Read(p).name|) >= Taken(|name|)
    requires q in Carved(d, p, name, t).cuts && r in Carved(d, p, name, t).cuts && q < r
    ensures Carved(d, p, name, t).Separate(q, r)
  {
    var o := p + Taken(|d.Read(p).name|);
    InSector(d, p);
    TakenFacts(|d.Read(p).name|);
    TakenFacts(|name|);
    NoneInside(d, p, o);
    if q != o && r != o {
      assert d.Separate(q, r);
    } else if q == o {
      assert d.Separate(p, r);
    } else if q != p {
      assert d.Separate(q, p) || d.Separate(p, q);
    }
  }

  lemma ReusedValid(d: Dir, p: int, name: Name, t: Target)
    requires d.Valid() && p in d.cuts && d.Read(p).name == "" && Nameable(name) && t.inode != 0 && Absent(d, name)
    requires d.Read(p).alen >= Taken(|name|)
    ensures Reused(d, p, name, t).Valid()
    ensures forall n, u :: Reused(d, p, name, t).Has(n, u) <==> d.Has(n, u) || (n == name && u == t)
  {
    var e := Reused(d, p, name, t);
    forall q | q in e.cuts ensures e.EntryOk(q) {
      assert d.EntryOk(q);
    }
    forall q, r | q in e.cuts && r in e.cuts && q < r ensures e.Separate(q, r) {
      assert d.Separate(q, r);
    }
    HasAdded(d, e, p, name, t);
  }

  lemma AppendedValid(d: Dir, name: Name, t: Target)
    requires d.Valid() && Nameable(name) && t.inode != 0 && Absent(d, name)
    ensures Appended(d, name, t).Valid()
    ensures forall n, u :: Appended(d, name, t).Has(n, u) <==> d.Has(n, u) || (n == name && u == t)
  {
    var e := Appended(d, name, t);
    if d.size in d.cuts {
      InSector(d, d.size);
    }
    forall q | q in e.cuts ensures e.EntryOk(q) {
      AppendedEntry(d, name, t, q);
    }
    forall q, r | q in e.cuts && r in e.cuts && q < r ensures e.Separate(q, r) {
      AppendedSeparate(d, name, t, q, r);
    }
    forall s | 0 <= s < e.size && s % SECTOR == 0 ensures s in e.cuts {
      assert s < d.size || s == d.size;
    }
    hide Taken, SectorEnd, Dir.EntryOk, Dir.Separate;
    HasAdded(d, e, d.size, name, t);
  }

  lemma AppendedEntry(d: Dir, name: Name, t: Target, q: int)
    requires d.Valid() && Nameable(name) && t.inode != 0 && q in Appended(d, name, t).cuts
    ensures Appended(d, name, t).EntryOk(q)
  {
    hide Taken, SectorEnd;
    TakenFacts(|name|);
    SectorStart(d.size);
    if q in d.cuts {
      InSector(d, q);
    }
  }

  lemma AppendedSeparate(d: Dir, name: Name, t: Target, q: int, r: int)
    requires d.Valid() && Nameable(name) && t.inode != 0 && Absent(d, name)
    requires q in Appended(d, name, t).cuts && r in Appended(d, name, t).cuts && q < r
    ensures Appended(d, name, t).Separate(q, r)
  {
    if q in d.cuts {
      InSector(d, q);
    }
    if r in d.cuts {
      InSector(d, r);
      assert q in d.cuts ==> d.Separate(q, r);
    }
  }

  lemma MergedValid(d: Dir, p: int, o: int)
    requires d.Valid() && p in d.cuts && o in d.cuts && d.End(p) == o && o < SectorEnd(p) && d.Read(o).name != ""
    ensures Merged(d, p, o).Valid()
    ensures forall n, u :: Merged(d, p, o).Has(n, u) <==> d.Has(n, u) && n != d.Read(o).name
  {
    var e := Merged(d, p, o);
    InSector(d, p);
    InSector(d, o);
    SameSector(p, o);
    hide Taken, Dir.EntryOk, Dir.Separate;
    forall q | q in e.cuts ensures e.EntryOk(q) {
      MergedEntry(d, p, o, q);
    }
    forall q, r | q in e.cuts && r in e.cuts && q < r ensures e.Separate(q, r) {
      MergedSeparate(d, p, o, q, r);
    }
    HasRemoved(d, e, o);
  }

  lemma MergedEntry(d: Dir, p: int, o: int, q: int)
    requires d.Valid() && p in d.cuts && o in d.cuts && d.End(p) == o && o < SectorEnd(p) && d.Read(o).name != ""
    requires q in d.cuts && q != o
    ensures Merged(d, p, o).EntryOk(q)
  {
    hide Taken, SectorEnd;
    InSector(d, p);
    InSector(d, o);
    InSector(d, q);
    SameSector(p, o);
    assert q < p ==> d.Separate(q, p);
    assert p < q ==> d.Separate(p, q);
  }

  lemma MergedSeparate(d: Dir, p: int, o: int, q: int, r: int)
    requires d.Valid() && p in d.cuts && o in d.cuts && d.End(p) == o && o < SectorEnd(p) && d.Read(o).name != ""
    requires q in d.cuts && q != o && r in d.cuts && r != o && q < r
    ensures Merged(d, p, o).Separate(q, r)
  {
    InSector(d, p);
    InSector(d, r);
    assert d.Separate(q, r);
    assert o < r ==> d.Separate(o, r);
    assert r < o ==> d.Separate(r, o);
  }

  lemma EmptiedValid(d: Dir, o: int)
    requires d.Valid() && o in d.cuts && d.Read(o).name != ""
    ensures Emptied(d, o).Valid()
    ensures forall n, u :: Emptied(d, o).Has(n, u) <==> d.Has(n, u) && n != d.Read(o).name
  {
    var e := Emptied(d, o);
    InSector(d, o);
    TakenFacts(0);
    forall q | q in e.cuts ensures e.EntryOk(q) {
      assert d.EntryOk(q);
    }
    forall q, r | q in e.cuts && r in e.cuts && q < r ensures e.Separate(q, r) {
      assert d.Separate(q, r);
    }
    HasRemoved(d, e, o);
  }

  /** An empty entry that is all of the last sector can go with it. */
  lemma DroppedValid(d: Dir, o: int)
    requires d.Valid() && o in d.cuts && d.Read(o).name == "" && o % SECTOR == 0 && d.End(o) >= d.size
    ensures Dropped(d, o).Valid() && d.Read(o).alen == SECTOR
    ensures forall n, u :: Dropped(d, o).Has(n, u) <==> d.Has(n, u)
  {
    var e := Dropped(d, o);
    DroppedSize(d, o);
    hide SectorEnd, Taken, Dir.EntryOk, Dir.Separate;
    forall q | q in e.cuts ensures e.EntryOk(q) {
      DroppedEntry(d, o, q);
    }
    forall q, r | q in e.cuts && r in e.cuts && q < r ensures e.Separate(q, r) {
      SameSeparate(d, e, q, r);
    }
    forall n, u ensures e.Has(n, u) <==> d.Has(n, u) {
      if d.Has(n, u) {
        var q :| q in d.cuts && d.Stands(q, n, u);
        assert q in e.cuts && e.Stands(q, n, u);
      }
      if e.Has(n, u) {
        var q :| q in e.cuts && e.Stands(q, n, u);
        assert d.Stands(q, n, u);
      }
    }
  }

  lemma DroppedSize(d: Dir, o: int)
    requires d.Valid() && o in d.cuts && d.Read(o).name == "" && o % SECTOR == 0 && d.End(o) >= d.size
    ensures d.Read(o).alen == SECTOR && d.size == o + SECTOR && o >= 0
  {
    hide Taken, Dir.EntryOk;
    InSector(d, o);
    SectorStart(o);
  }

  lemma DroppedEntry(d: Dir, o: int, q: int)
    requires d.Valid() && o in d.cuts && d.Read(o).name == "" && o % SECTOR == 0 && d.End(o) >= d.size
    requires q in d.cuts && q != o
    ensures Dropped(d, o).EntryOk(q)
  {
    hide Taken, SectorEnd;
    DroppedSize(d, o);
    InSector(d, q);
    InSector(d, o);
    assert q < o ==> d.Separate(q, o);
    assert o < q ==> d.Separate(o, q);
    SectorBefore(q, o);
  }

  lemma SameSeparate(d: Dir, e: Dir, q: int, r: int)
    requires d.Valid() && q in d.cuts && r in d.cuts && q < r && e.Read(q) == d.Read(q) && e.Read(r) == d.Read(r)
    ensures e.Separate(q, r)
  {
    assert d.Separate(q, r);
  }

  /** Removing an entry carved from slack gives the slack back exactly; Removed picks that
      merge, the new entry's predecessor being the one it was carved from. */
  lemma CarveMerge(d: Dir, p: int, name: Name, t: Target)
    requires d.Valid() && p in d.cuts && d.Read(p).name != "" && Nameable(name) && t.inode != 0 && Absent(d, name)
    requires d.Read(p).alen - Taken(|d.Read(p).name|) >= Taken(|name|)
    ensures Alike(Merged(Carved(d, p, name, t), p, p + Taken(|d.Read(p).name|)), d)
  {
    var o := p + Taken(|d.Read(p).name|);
    InSector(d, p);
    TakenFacts(|d.Read(p).name|);
    TakenFacts(|name|);
    NoneInside(d, p, o);
  }

  // ----- the scan -----

  datatype Wanted = Named(name: Name) | RoomFor(name: Name)

  /** An entry meets the criterion of the scan. */
  predicate Meets(e: Dentry, w: Wanted)
  {
    match w
    case Named(name) => e.name == name
    case RoomFor(name) =>
      if e.inode != 0 || e.alen < Taken(|name|) then e.alen - Taken(|e.name|) >= Taken(|name|) else true
  }

  /** No entry before the offset meets the criterion, and none straddles it. */
  ghost predicate Passed(d: Dir, offset: int, w: Wanted)
  {
    forall o :: o in d.cuts && o < offset ==> !Meets(d.Read(o), w) && d.End(o) <= offset
  }

  /** No entry has room for the name. */
  ghost predicate Full(d: Dir, name: Name)
  {
    forall o :: o in d.cuts ==> !Meets(d.Read(o), RoomFor(name))
  }

  /** The entry at p is the first with room. */
  ghost predicate FirstRoom(d: Dir, name: Name, p: int)
  {
    p in d.cuts && Meets(d.Read(p), RoomFor(name)) && Passed(d, p, RoomFor(name))
  }

  /** What the scan asks of the bytes at an offset before it looks at them. */
  predicate Sane(d: Dir, o: int)
  {
    d.Read(o).alen % 4 == 0 && Taken(|d.Read(o).name|) <= d.Read(o).alen && d.End(o) <= SectorEnd(o)
  }

  /** The offset is in a sector that starts before the end of the directory. */
  predicate InSize(d: Dir, o: int)
  {
    0 <= o && o / SECTOR * SECTOR < d.size
  }

  /** Where the scan is after these offsets. */
  function Along(d: Dir, seen: seq<int>): int
  {
    if seen == [] then 0 else d.End(seen[|seen| - 1])
  }

  /** The offsets the scan has been at, from 0 on and each where the one before ended, in vain. */
  ghost predicate Seen(d: Dir, w: Wanted, seen: seq<int>)
  {
    forall i :: 0 <= i < |seen| ==> SeenAt(d, w, seen, i)
  }

  ghost predicate SeenAt(d: Dir, w: Wanted, seen: seq<int>, i: int)
    requires 0 <= i < |seen|
  {
    seen[i] == Along(d, seen[..i]) && InSize(d, seen[i]) && Sane(d, seen[i]) && !Meets(d.Read(seen[i]), w)
  }

  lemma SeenMore(d: Dir, w: Wanted, seen: seq<int>, o: int)
    requires Seen(d, w, seen) && o == Along(d, seen) && InSize(d, o) && Sane(d, o) && !Meets(d.Read(o), w)
    ensures Seen(d, w, seen + [o]) && Along(d, seen + [o]) == d.End(o)
  {
    hide Sane, Meets, InSize;
    var more := seen + [o];
    forall i | 0 <= i < |more| ensures SeenAt(d, w, more, i) {
      if i < |seen| {
        assert SeenAt(d, w, seen, i) && more[..i] == seen[..i];
      } else {
        assert more[..i] == seen;
      }
    }
  }

  lemma NothingSeen(d: Dir, w: Wanted)
    ensures Seen(d, w, [])
  {
  }

  lemma PassedStart(d: Dir, w: Wanted)
    ensures d.Valid() ==> Passed(d, 0, w)
  {
    if d.Valid() {
      forall o | o in d.cuts ensures o >= 0 {
        InSector(d, o);
      }
    }
  }

  lemma SectorEnter(d: Dir, offset: int)
    requires 0 <= offset < d.size
    ensures d.Valid() && offset % SECTOR == 0 ==> offset in d.cuts && SectorEnd(offset) == offset + SECTOR
    ensures d.Valid() && offset % SECTOR == 0 ==> offset + SECTOR <= d.size && (offset + SECTOR) % SECTOR == 0
  {
    if offset % SECTOR == 0 {
      SectorStart(offset);
    }
  }

  /** An entry of a tiled sector is well formed, and passing it passes nothing else. */
  lemma EntryMet(d: Dir, offset: int, w: Wanted)
    ensures
      var e := d.Read(offset);
      d.Valid() && offset in d.cuts && Passed(d, offset, w) ==>
        && e.alen % 4 == 0 && Taken(|e.name|) <= e.alen && offset + e.alen <= SectorEnd(offset)
        && (offset + e.alen == SectorEnd(offset)
          || (offset + e.alen in d.cuts && SectorEnd(offset + e.alen) == SectorEnd(offset)))
        && (!Meets(e, w) ==> Passed(d, offset + e.alen, w))
  {
    if d.Valid() && offset in d.cuts && Passed(d, offset, w) {
      InSector(d, offset);
      var end := d.End(offset);
      if end < SectorEnd(offset) {
        SameSector(offset, end);
      }
      if !Meets(d.Read(offset), w) {
        forall o | o in d.cuts && o < end ensures !Meets(d.Read(o), w) && d.End(o) <= end {
          assert offset < o ==> d.Separate(offset, o);
        }
      }
    }
  }

  lemma AllPassed(d: Dir, offset: int, w: Wanted)
    requires offset >= d.size
    ensures d.Valid() && Passed(d, offset, w) ==> forall o :: o in d.cuts ==> !Meets(d.Read(o), w)
  {
    if d.Valid() && Passed(d, offset, w) {
      forall o | o in d.cuts ensures !Meets(d.Read(o), w) {
        InSector(d, o);
      }
    }
  }

  /** What an entry with room is: one with a name and slack, or one without a name and large
      enough. */
  lemma RoomKinds(d: Dir, p: int, name: Name)
    requires d.Valid() && p in d.cuts && Meets(d.Read(p), RoomFor(name))
    ensures d.Read(p).name != "" ==> d.Read(p).alen - Taken(|d.Read(p).name|) >= Taken(|name|)
    ensures d.Read(p).name == "" ==> d.Read(p).alen >= Taken(|name|)
    ensures p in d.at
  {
    InSector(d, p);
    TakenFacts(|d.Read(p).name|);
  }

  lemma SectorOf(d: Dir, o: int)
    requires d.Valid() && o in d.cuts
    ensures
      var s := o / SECTOR * SECTOR;
      0 <= s <= o && s in d.cuts && s % SECTOR == 0 && SectorEnd(s) == SectorEnd(o)
  {
    InSector(d, o);
  }

  /** Walking a sector towards an entry does not miss it. */
  lemma NextInSector(d: Dir, q: int, o: int)
    requires d.Valid() && q in d.cuts && o in d.cuts && q < o && SectorEnd(q) == SectorEnd(o)
    ensures
      var next := d.End(q);
      && q < next <= o && next in d.cuts && SectorEnd(next) == SectorEnd(o)
      && next < SectorEnd(q) && next % SECTOR != 0
  {
    InSector(d, q);
    assert d.Separate(q, o);
    SameSector(q, o);
    SameSector(q, d.End(q));
  }

  /** A directory without a name has nothing for it. */
  lemma NotHad(d: Dir, name: Name)
    requires Absent(d, name)
    ensures forall n, u :: d.Has(n, u) ==> n != name
  {
  }

  function Added(d: Dir, p: int, name: Name, t: Target): Dir
  {
    if p == d.size then Appended(d, name, t)
    else if d.Read(p).name != "" then Carved(d, p, name, t)
    else Reused(d, p, name, t)
  }

  function Removed(d: Dir, p: int, o: int): Dir
  {
    if p != o then Merged(d, p, o)
    else if d.End(o) >= d.size then Dropped(Emptied(d, o), o)
    else Emptied(d, o)
  }

  // ----- room -----

  /** e is d with one entry more, at o, where nothing was or an entry without name: it stands for the name and the
      target, and all other entries say what they said, at the same places. */
  ghost predicate Placed(d: Dir, e: Dir, o: int, name: Name, t: Target)
  {
    && e.Valid() && e.size == d.size && e.cuts == d.cuts + {o} && (o in d.cuts ==> d.Read(o).name == "")
    && e.Stands(o, name, t) && forall q :: q in d.cuts && q != o ==> SameStand(d.Read(q), e.Read(q))
  }

  /** Such an entry fits somewhere. */
  ghost predicate CanPlace(d: Dir, name: Name, t: Target)
  {
    exists e, o :: Placed(d, e, o, name, t)
  }

  /** Where an entry goes that is given the room of the one at p. */
  function Place(d: Dir, p: int): int
  {
    if d.Read(p).name != "" then p + Taken(|d.Read(p).name|) else p
  }

  /** The entry an offset lies in. */
  lemma {:induction false} Covering(d: Dir, q: int, o: int) returns (r: int)
    requires d.Valid() && q in d.cuts && 0 <= q <= o < SectorEnd(q)
    ensures r in d.cuts && r <= o < d.End(r) && SectorEnd(r) == SectorEnd(o)
    decreases o - q
  {
    InSector(d, q);
    SameSector(q, o);
    if o < d.End(q) {
      r := q;
    } else {
      SameSector(q, d.End(q));
      r := Covering(d, d.End(q), o);
    }
  }

  /** No entry in the place of another reaches further than that did. */
  lemma NoFurther(d: Dir, e: Dir, r: int, o: int)
    requires d.Valid() && e.Valid() && d.cuts <= e.cuts && o in e.cuts && r in d.cuts && r <= o < d.End(r)
    ensures e.End(o) <= d.End(r)
  {
    InSector(d, r);
    InSector(e, o);
    SameSector(r, o);
    if d.End(r) in d.cuts {
      assert e.Separate(o, d.End(r));
    }
  }

  /** An entry in front of a new one ends where that begins. */
  lemma EndsThere(d: Dir, e: Dir, r: int, o: int)
    requires d.Valid() && e.Valid() && e.cuts == d.cuts + {o} && r in d.cuts && r < o < d.End(r)
    ensures e.End(r) == o
  {
    InSector(d, r);
    InSector(e, r);
    assert e.Separate(r, o);
    if e.End(r) != o {
      NoneInside(d, r, e.End(r));
    }
  }

  /** Wherever an entry fits, one with room lies at or before it. */
  lemma RoomOf(d: Dir, e: Dir, o: int, name: Name, t: Target) returns (r: int)
    requires d.Valid() && Placed(d, e, o, name, t)
    ensures r in d.cuts && Meets(d.Read(r), RoomFor(name)) && Place(d, r) <= o
  {
    hide SectorEnd, Taken;
    InSector(e, o);
    SectorOf(e, o);
    var s := o / SECTOR * SECTOR;
    r := Covering(d, s, o);
    InSector(d, r);
    NoFurther(d, e, r, o);
    TakenFacts(|d.Read(r).name|);
    if r != o {
      InSector(e, r);
      EndsThere(d, e, r, o);
    }
  }

  /** What goes where the first entry with room is, is placed, and nowhere lower could it be. */
  lemma LowestPlace(d: Dir, p: int, name: Name, t: Target)
    requires d.Valid() && FirstRoom(d, name, p) && Nameable(name) && t.inode != 0 && Absent(d, name)
    ensures Placed(d, Added(d, p, name, t), Place(d, p), name, t)
    ensures forall e, o :: Placed(d, e, o, name, t) ==> Place(d, p) <= o
  {
    hide Taken, SectorEnd, Dir.EntryOk, Dir.Separate;
    InSector(d, p);
    RoomKinds(d, p, name);
    if d.Read(p).name != "" {
      CarvedValid(d, p, name, t);
      CarvedPlace(d, p, name, t);
    } else {
      ReusedValid(d, p, name, t);
    }
    forall e, o | Placed(d, e, o, name, t) ensures Place(d, p) <= o {
      var r := RoomOf(d, e, o, name, t);
      FirstIsLowest(d, p, r, name);
    }
  }

  lemma FirstIsLowest(d: Dir, p: int, r: int, name: Name)
    requires d.Valid() && FirstRoom(d, name, p) && r in d.cuts && Meets(d.Read(r), RoomFor(name))
    ensures Place(d, p) <= Place(d, r)
  {
    hide Meets, SectorEnd;
    InSector(d, p);
    InSector(d, r);
    TakenFacts(|d.Read(r).name|);
    if p != r {
      assert p < r;
      assert d.Separate(p, r);
    }
  }

  lemma FullCannot(d: Dir, name: Name, t: Target)
    requires d.Valid() && Full(d, name)
    ensures !CanPlace(d, name, t)
  {
    hide Meets;
    forall e, o ensures !Placed(d, e, o, name, t) {
      if Placed(d, e, o, name, t) {
        var r := RoomOf(d, e, o, name, t);
      }
    }
  }

  /** A directory open for changes. */
  class Directory {
    var dir: Dir

    constructor (dir: Dir)
      ensures this.dir == dir
    {
      this.dir := dir;
    }

    /** The first entry that meets the criterion, and its offset; a malformed entry ends the
        scan.  It ends on any bytes. */
    method GetDentry(w: Wanted) returns (found: bool, offset: int, ghost seen: seq<int>)
      requires dir.size >= 0
      ensures Seen(dir, w, seen) && offset == Along(dir, seen)
      ensures found <==> InSize(dir, offset) && Sane(dir, offset) && Meets(dir.Read(offset), w)
      ensures !found ==> !InSize(dir, offset) || !Sane(dir, offset)
      ensures dir.Valid() && found ==> offset in dir.cuts && Meets(dir.Read(offset), w) && Passed(dir, offset, w)
      ensures dir.Valid() && !found ==> forall o :: o in dir.cuts ==> !Meets(dir.Read(o), w)
    {
      offset, seen := 0, [];
      PassedStart(dir, w);
      hide Passed, Dir.Valid, Dir.EntryOk, Taken, Meets, Seen;
      assert Seen(dir, w, seen) by {
        NothingSeen(dir, w);
      }
      while offset < dir.size
        invariant 0 <= offset && offset % SECTOR == 0 && (dir.Valid() ==> Passed(dir, offset, w))
        invariant Seen(dir, w, seen) && offset == Along(dir, seen)
        decreases dir.size - offset
      {
        var sectorEnd := offset + SECTOR;
        ghost var start := offset;
        SectorEnter(dir, offset);
        while offset < sectorEnd
          invariant start <= offset <= sectorEnd && (dir.Valid() ==> Passed(dir, offset, w))
          invariant Seen(dir, w, seen) && offset == Along(dir, seen)
          invariant dir.Valid() ==> offset == sectorEnd || (offset in dir.cuts && SectorEnd(offset) == sectorEnd)
        {
          var e := dir.Read(offset);
          TakenFacts(|e.name|);
          EntryMet(dir, offset, w);
          if e.alen % 4 != 0 || e.alen < Taken(|e.name|) || sectorEnd < offset + e.alen {
            return false, offset, seen;
          }
          if Meets(e, w) {
            return true, offset, seen;
          }
          SeenMore(dir, w, seen, offset);
          seen := seen + [offset];
          offset := offset + e.alen;
        }
      }
      AllPassed(dir, offset, w);
      found := false;
    }

    /** Adds an entry: in the slack of another, in an empty one, or in a new sector, for which
        `alloc` is what asking for room came to. */
    method AddEntry(name: Name, t: Target, alloc: int) returns (ok: bool, ghost p: int, ghost o: int)
      requires dir.Valid() && Nameable(name) && t.inode != 0 && Absent(dir, name)
      modifies this
      ensures dir.Valid()
      ensures !ok <==> alloc < 0 && !CanPlace(old(dir), name, t)
      ensures CanPlace(old(dir), name, t) ==> Placed(old(dir), dir, o, name, t)
      ensures CanPlace(old(dir), name, t) ==> forall e, q :: Placed(old(dir), e, q, name, t) ==> o <= q
      ensures !ok ==> dir == old(dir)
      ensures ok ==> dir == Added(old(dir), p, name, t)
      ensures ok ==> if CanPlace(old(dir), name, t) then FirstRoom(old(dir), name, p) else p == old(dir).size
      ensures ok ==> forall n, u :: dir.Has(n, u) <==> old(dir).Has(n, u) || (n == name && u == t)
    {
      ghost var seen;
      var found, p0;
      found, p0, seen := GetDentry(RoomFor(name));
      p, o := if found then p0 else dir.size, if found then Place(dir, p0) else dir.size;
      if found {
        LowestPlace(dir, p0, name, t);
        hide *;
        AddRoom(p0, name, t);
        return true, p, o;
      }
      FullCannot(dir, name, t);
      hide CanPlace;
      if alloc < 0 {
        return false, p, o;
      }
      AppendedValid(dir, name, t);
      var end := dir.size;
      dir := Dir(dir.at[end := Filled(name, t, SECTOR)], dir.cuts + {end}, dir.size + SECTOR);
      ok := true;
    }

    /** Writes the entry behind what the one at p takes, which is nothing when that is empty. */
    method AddRoom(p: int, name: Name, t: Target)
      requires dir.Valid() && Nameable(name) && t.inode != 0 && Absent(dir, name)
      requires p in dir.cuts && Meets(dir.Read(p), RoomFor(name))
      modifies this
      ensures dir.Valid() && dir == Added(old(dir), p, name, t)
      ensures forall n, u :: dir.Has(n, u) <==> old(dir).Has(n, u) || (n == name && u == t)
    {
      RoomKinds(dir, p, name);
      var e := dir.Read(p);
      var len := e.alen;
      if e.name != "" {
        CarvedValid(dir, p, name, t);
        len := len - Taken(|e.name|);
      } else {
        ReusedValid(dir, p, name, t);
      }
      ghost var d := dir;
      var shrunk := dir.at[p := e.(alen := e.alen - len)];
      var o := p + (e.alen - len);
      dir := Dir(shrunk[o := Filled(name, t, len)], dir.cuts + {o}, dir.size);
      InSector(d, p);
      if e.name == "" {
        assert d.at[p := e.(alen := 0)][p := Filled(name, t, len)] == d.at[p := Filled(name, t, len)];
        assert d.cuts + {p} == d.cuts;
      }
      assert dir == Added(d, p, name, t);
    }

    /** Removes an entry: into the slack of the one before it in its sector, or, if it is the
        first there, by emptying it; an empty last sector goes. */
    method RemoveEntry(name: Name) returns (removed: bool, ghost o: int, ghost p: int)
      requires dir.Valid() && Nameable(name)
      modifies this
      ensures dir.Valid()
      ensures !removed <==> Absent(old(dir), name)
      ensures !removed ==> dir == old(dir)
      ensures removed ==> o in old(dir).cuts && old(dir).Read(o).name == name && dir == Removed(old(dir), p, o)
      ensures removed ==> p in old(dir).cuts && (if o % SECTOR == 0 then p == o else old(dir).End(p) == o)
      ensures forall n, u :: dir.Has(n, u) <==> old(dir).Has(n, u) && n != name
    {
      var offset;
      ghost var seen;
      removed, offset, seen := GetDentry(Named(name));
      o, p := offset, offset;
      if !removed {
        NotHad(dir, name);
        return;
      }
      var last := Previous(offset);
      p := if last >= 0 then last else offset;
      var e := dir.Read(offset);
      InSector(dir, offset);
      if last >= 0 {
        MergedValid(dir, last, offset);
        var l := dir.Read(last);
        dir := Dir(dir.at[last := l.(alen := l.alen + e.alen)], dir.cuts - {offset}, dir.size);
      } else {
        EmptiedValid(dir, offset);
        ghost var d := Emptied(dir, offset);
        dir := dir.(at := dir.at[offset := e.(inode := 0, name := "")]);
        if offset + e.alen >= dir.size {
          DroppedValid(d, offset);
          dir := Dir(dir.at, dir.cuts - {offset}, dir.size - e.alen);
        }
      }
    }

    /** The entry before the one at offset in its sector, or -1. */
    method Previous(offset: int) returns (last: int)
      requires dir.Valid() && offset in dir.cuts
      ensures if offset % SECTOR == 0 then last == -1 else last in dir.cuts && last >= 0
      ensures last >= 0 ==> dir.End(last) == offset && offset < SectorEnd(last)
    {
      InSector(dir, offset);
      var next := offset / SECTOR * SECTOR;
      last := -1;
      SectorOf(dir, offset);
      while next != offset
        invariant 0 <= next <= offset && next in dir.cuts && SectorEnd(next) == SectorEnd(offset)
        invariant if next % SECTOR == 0 then last == -1 else last in dir.cuts && last >= 0
        invariant last >= 0 ==> dir.End(last) == next && next < SectorEnd(last)
        decreases offset - next
      {
        NextInSector(dir, next, offset);
        last := next;
        next := next + dir.Read(next).alen;
      }
    }
  }
}
