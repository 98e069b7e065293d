/** A disk drive with a volatile write cache, and the outcomes of a power cut.

    A drive holds one value per address.  Writes wait in the cache until a flush; when the
    power goes, every address independently keeps its durable value or any of the values that
    were waiting for it.  The drive is generic: the partition layer addresses single sectors,
    the file system layer addresses sectors inside partitions. */
module Device {

  datatype Write<A, V> = Write(addr: A, value: V)

  /** One command sent to the drive. */
  datatype Op<A, V> = Transfer(writes: seq<Write<A, V>>) | FlushCache

  datatype State<A, V> = State(durable: map<A, V>, pending: seq<Write<A, V>>)

  function Apply<A(==), V>(image: map<A, V>, writes: seq<Write<A, V>>): map<A, V>
  {
    if writes == [] then image
    else
      var last := writes[|writes| - 1];
      Apply(image, writes[..|writes| - 1])[last.addr := last.value]
  }

  /** What a read sees: the durable values overlaid with everything still in the cache. */
  function Settled<A(==), V>(st: State<A, V>): map<A, V>
  {
    Apply(st.durable, st.pending)
  }

  function Step<A(==), V>(st: State<A, V>, op: Op<A, V>): State<A, V>
  {
    match op
    case Transfer(writes) => State(st.durable, st.pending + writes)
    case FlushCache => State(Settled(st), [])
  }

  function Run<A(==), V>(st: State<A, V>, ops: seq<Op<A, V>>): State<A, V>
  {
    if ops == [] then st else Step(Run(st, ops[..|ops| - 1]), ops[|ops| - 1])
  }

  ghost predicate Touches<A, V>(writes: seq<Write<A, V>>, a: A)
  {
    exists i :: 0 <= i < |writes| && writes[i].addr == a
  }

  /** The value v may be found at address a after the power was cut in state st. */
  ghost predicate MayHold<A, V>(st: State<A, V>, a: A, v: V)
  {
    || (a in st.durable && st.durable[a] == v)
    || Write(a, v) in st.pending
  }

  /** The disk may look like img when the power comes back. */
  ghost predicate CrashImage<A, V>(st: State<A, V>, img: map<A, V>)
  {
    && img.Keys == st.durable.Keys
    && forall a :: a in img ==> MayHold(st, a, img[a])
  }

  /** Every write goes to an address the drive has. */
  ghost predicate Within<A, V>(writes: seq<Write<A, V>>, keys: set<A>)
  {
    forall i :: 0 <= i < |writes| ==> writes[i].addr in keys
  }

  // ----- applying writes -----

  lemma {:induction false} ApplyUntouched<A, V>(image: map<A, V>, writes: seq<Write<A, V>>, a: A)
    requires !Touches(writes, a)
    ensures a in Apply(image, writes) <==> a in image
    ensures a in image ==> Apply(image, writes)[a] == image[a]
  {
    if writes != [] {
      var n := |writes| - 1;
      forall i | 0 <= i < n ensures writes[..n][i].addr != a {
        assert writes[i].addr != a;
      }
      ApplyUntouched(image, writes[..n], a);
      assert writes[n].addr != a;
    }
  }

  lemma {:induction false} ApplyKeys<A, V>(image: map<A, V>, writes: seq<Write<A, V>>)
    requires Within(writes, image.Keys)
    ensures Apply(image, writes).Keys == image.Keys
  {
    if writes != [] {
      ApplyKeys(image, writes[..|writes| - 1]);
    }
  }

  lemma {:induction false} ApplyConcat<A, V>(image: map<A, V>, xs: seq<Write<A, V>>, ys: seq<Write<A, V>>)
    ensures Apply(image, xs + ys) == Apply(Apply(image, xs), ys)
  {
    if ys == [] {
      assert xs + ys == xs;
    } else {
      var n := |ys| - 1;
      assert (xs + ys)[..|xs + ys| - 1] == xs + ys[..n];
      ApplyConcat(image, xs, ys[..n]);
    }
  }

  /** Two images that agree at a still agree there after the same writes. */
  lemma {:induction false} ApplyAgree<A, V>(x: map<A, V>, y: map<A, V>, writes: seq<Write<A, V>>, a: A)
    requires Touches(writes, a) || (a in x && a in y && x[a] == y[a])
    ensures a in Apply(x, writes) && a in Apply(y, writes)
    ensures Apply(x, writes)[a] == Apply(y, writes)[a]
  {
    if writes != [] {
      var n := |writes| - 1;
      if writes[n].addr != a {
        if Touches(writes, a) {
          var i :| 0 <= i < |writes| && writes[i].addr == a;
          assert writes[..n][i].addr == a;
        }
        ApplyAgree(x, y, writes[..n], a);
      }
    }
  }

  /** The value an address settles to was durable or was waiting. */
  lemma {:induction false} ApplyMayHold<A, V>(image: map<A, V>, writes: seq<Write<A, V>>, a: A)
    requires a in Apply(image, writes)
    ensures MayHold(State(image, writes), a, Apply(image, writes)[a])
  {
    if writes != [] {
      var n := |writes| - 1;
      if writes[n].addr != a {
        ApplyMayHold(image, writes[..n], a);
        assert forall w :: w in writes[..n] ==> w in writes;
      } else {
        assert writes[n] in writes;
      }
    }
  }

  lemma {:induction false} RunConcat<A, V>(st: State<A, V>, xs: seq<Op<A, V>>, ys: seq<Op<A, V>>)
    ensures Run(st, xs + ys) == Run(Run(st, xs), ys)
  {
    if ys == [] {
      assert xs + ys == xs;
    } else {
      var n := |ys| - 1;
      assert (xs + ys)[..|xs + ys| - 1] == xs + ys[..n];
      RunConcat(st, xs, ys[..n]);
    }
  }

  // ----- groups of writes, one transfer each -----

  function Flatten<A, V>(groups: seq<seq<Write<A, V>>>): seq<Write<A, V>>
  {
    if groups == [] then [] else Flatten(groups[..|groups| - 1]) + groups[|groups| - 1]
  }

  function Transfers<A, V>(groups: seq<seq<Write<A, V>>>): (ops: seq<Op<A, V>>)
    ensures |ops| == |groups|
  {
    if groups == [] then [] else Transfers(groups[..|groups| - 1]) + [Transfer(groups[|groups| - 1])]
  }

  lemma {:induction false} TransfersPrefix<A, V>(groups: seq<seq<Write<A, V>>>, k: nat)
    requires k <= |groups|
    ensures Transfers(groups)[..k] == Transfers(groups[..k])
  {
    if k == |groups| {
      assert groups[..k] == groups;
    } else {
      var n := |groups| - 1;
      TransfersPrefix(groups[..n], k);
      assert groups[..n][..k] == groups[..k];
    }
  }

  lemma TransfersSnoc<A, V>(groups: seq<seq<Write<A, V>>>, group: seq<Write<A, V>>)
    ensures Transfers(groups + [group]) == Transfers(groups) + [Transfer(group)]
    ensures Flatten(groups + [group]) == Flatten(groups) + group
  {
    assert (groups + [group])[..|groups|] == groups;
  }

  lemma {:induction false} RunTransfers<A, V>(st: State<A, V>, groups: seq<seq<Write<A, V>>>)
    ensures Run(st, Transfers(groups)) == State(st.durable, st.pending + Flatten(groups))
  {
    if groups == [] {
      assert st.pending + [] == st.pending;
    } else {
      var n := |groups| - 1;
      RunTransfers(st, groups[..n]);
      assert Transfers(groups)[..n] == Transfers(groups[..n]);
      assert (st.pending + Flatten(groups[..n])) + groups[n] == st.pending + Flatten(groups);
    }
  }

  lemma {:induction false} FlattenPrefix<A, V>(groups: seq<seq<Write<A, V>>>, k: nat, w: Write<A, V>)
    requires k <= |groups| && w in Flatten(groups[..k])
    ensures w in Flatten(groups)
    decreases |groups|
  {
    if k == |groups| {
      assert groups[..k] == groups;
    } else {
      var n := |groups| - 1;
      assert groups[..n][..k] == groups[..k];
      FlattenPrefix(groups[..n], k, w);
    }
  }

  lemma FlattenOne<A, V>(group: seq<Write<A, V>>)
    ensures Flatten([group]) == group
  {
    assert [group][..0] == [];
    assert [] + group == group;
  }

  lemma {:induction false} FlattenTouches<A, V>(groups: seq<seq<Write<A, V>>>, a: A)
    ensures Touches(Flatten(groups), a) <==> exists j :: 0 <= j < |groups| && Touches(groups[j], a)
  {
    if groups != [] {
      var n := |groups| - 1;
      var rest := Flatten(groups[..n]);
      FlattenTouches(groups[..n], a);
      if Touches(rest, a) {
        var i :| 0 <= i < |rest| && rest[i].addr == a;
        assert Flatten(groups)[i].addr == a;
        var j :| 0 <= j < n && Touches(groups[..n][j], a);
        assert Touches(groups[j], a);
      }
      if Touches(groups[n], a) {
        var i :| 0 <= i < |groups[n]| && groups[n][i].addr == a;
        assert Flatten(groups)[|rest| + i].addr == a;
      }
      if Touches(Flatten(groups), a) {
        var i :| 0 <= i < |Flatten(groups)| && Flatten(groups)[i].addr == a;
        if i < |rest| {
          assert rest[i].addr == a;
        } else {
          assert groups[n][i - |rest|].addr == a;
        }
      }
      forall j | 0 <= j < n && Touches(groups[j], a) ensures Touches(rest, a) {
        assert groups[..n][j] == groups[j];
      }
    }
  }

  /** When one group alone names an address, that group decides its value. */
  lemma {:induction false} FlattenOnly<A, V>(image: map<A, V>, groups: seq<seq<Write<A, V>>>, j: nat, a: A)
    requires j < |groups| && Touches(groups[j], a)
    requires forall i :: j < i < |groups| ==> !Touches(groups[i], a)
    ensures a in Apply(image, Flatten(groups)) && a in Apply(image, groups[j])
    ensures Apply(image, Flatten(groups))[a] == Apply(image, groups[j])[a]
  {
    var n := |groups| - 1;
    var rest := Flatten(groups[..n]);
    ApplyConcat(image, rest, groups[n]);
    if j == n {
      ApplyAgree(Apply(image, rest), image, groups[n], a);
    } else {
      forall i | j < i < n ensures !Touches(groups[..n][i], a) {
        assert groups[..n][i] == groups[i];
      }
      FlattenOnly(image, groups[..n], j, a);
      ApplyUntouched(Apply(image, rest), groups[n], a);
    }
  }

  /** The drive itself.  `ops` records every command it was sent. */
  class Drive<A(==), V> {
    var durable: map<A, V>
    var pending: seq<Write<A, V>>
    ghost var ops: seq<Op<A, V>>

    constructor (image: map<A, V>)
      ensures Now() == State(image, []) && ops == []
    {
      durable, pending, ops := image, [], [];
    }

    function Now(): State<A, V>
      reads this
    {
      State(durable, pending)
    }

    method Put(writes: seq<Write<A, V>>)
      modifies this
      ensures Now() == Step(old(Now()), Transfer(writes))
      ensures ops == old(ops) + [Transfer(writes)]
    {
      pending := pending + writes;
      ops := ops + [Transfer(writes)];
    }

    method Flush()
      modifies this
      ensures Now() == Step(old(Now()), FlushCache)
      ensures ops == old(ops) + [FlushCache]
    {
      durable, pending := Apply(durable, pending), [];
      ops := ops + [FlushCache];
    }

    method Get(a: A) returns (v: V)
      requires a in Settled(Now())
      ensures v == Settled(Now())[a]
    {
      v := Apply(durable, pending)[a];
    }
  }
}
