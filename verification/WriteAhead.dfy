/** The commit protocol shared by the partition journal and the file system journal.

    A batch is first copied to a log area, then a one-unit header naming the batch is written
    between two cache flushes, then the batch is written to its home addresses, then the header
    is emptied between two more flushes.  Recovery repeats the last part.  The lemmas below say
    what can be on the disk when the power is cut after any prefix of the commands. */
module WriteAhead {
  import opened Device

  datatype Plan<A, V> = Plan(
    hdr: A, commit: V, empty: V,
    log: seq<seq<Write<A, V>>>,
    home: seq<seq<Write<A, V>>>)

  function HeaderOps<A, V>(hdr: A, value: V): (ops: seq<Op<A, V>>)
    ensures |ops| == 3
  {
    [FlushCache, Transfer([Write(hdr, value)]), FlushCache]
  }

  /** Copy home, then forget the log. */
  function InstallOps<A, V>(p: Plan<A, V>): seq<Op<A, V>>
  {
    Transfers(p.home) + HeaderOps(p.hdr, p.empty)
  }

  function CommitOps<A, V>(p: Plan<A, V>): seq<Op<A, V>>
  {
    Transfers(p.log) + HeaderOps(p.hdr, p.commit) + InstallOps(p)
  }

  /** Log, home and header lie on the drive and do not overlap. */
  ghost predicate Sound<A(!new), V>(p: Plan<A, V>, keys: set<A>)
  {
    && p.hdr in keys && Within(Flatten(p.log), keys) && Within(Flatten(p.home), keys)
    && !Touches(Flatten(p.log), p.hdr)
    && !Touches(Flatten(p.home), p.hdr)
    && forall a :: Touches(Flatten(p.log), a) ==> !Touches(Flatten(p.home), a)
  }

  /** Nothing is on its way to the header. */
  ghost predicate HeaderIdle<A, V>(st: State<A, V>, hdr: A)
  {
    && hdr in st.durable && !Touches(st.pending, hdr)
    && Within(st.pending, st.durable.Keys)
  }

  /** The disk once the log is complete. */
  function Logged<A(==), V>(st: State<A, V>, p: Plan<A, V>): map<A, V>
  {
    Apply(Settled(st), Flatten(p.log))[p.hdr := p.commit]
  }

  /** The disk once the batch is home and the log is forgotten. */
  function Installed<A(==), V>(logged: map<A, V>, p: Plan<A, V>): map<A, V>
  {
    Apply(logged, Flatten(p.home))[p.hdr := p.empty]
  }

  // ----- the three families of crash images -----

  /** The batch has not happened: outside the log area the disk is one that the cut could have
      left before the batch was started. */
  ghost predicate Untaken<A, V>(st: State<A, V>, p: Plan<A, V>, img: map<A, V>)
  {
    && img.Keys == st.durable.Keys
    && p.hdr in img && img[p.hdr] == st.durable[p.hdr]
    && forall a :: a in img && !Touches(Flatten(p.log), a) ==> MayHold(st, a, img[a])
  }

  /** The header is in place and everything but the home addresses is as logged. */
  ghost predicate Committed<A, V>(logged: map<A, V>, p: Plan<A, V>, img: map<A, V>)
  {
    && img.Keys == logged.Keys
    && p.hdr in img && img[p.hdr] == p.commit
    && forall a :: a in img && !Touches(Flatten(p.home), a) ==> img[a] == logged[a]
  }

  /** The three states a header write passes through. */
  lemma HeaderRun<A, V>(st: State<A, V>, hdr: A, value: V)
    ensures Run(st, HeaderOps(hdr, value)[..1]) == State(Settled(st), [])
    ensures Run(st, HeaderOps(hdr, value)[..2]) == State(Settled(st), [Write(hdr, value)])
    ensures Run(st, HeaderOps(hdr, value)) == State(Settled(st)[hdr := value], [])
    ensures HeaderOps(hdr, value)[..3] == HeaderOps(hdr, value)
  {
    var ops := HeaderOps<A, V>(hdr, value);
    assert ops[..3] == ops;
    assert ops[..1][..0] == ops[..0];
    assert ops[..2][..1] == ops[..1];
    assert ops[..3][..2] == ops[..2];
    assert Run(st, ops[..1]) == Step(st, FlushCache);
    var s1: State<A, V> := State(Settled(st), []);
    assert Run(st, ops[..2]) == Step(s1, Transfer([Write(hdr, value)]));
    var s2: State<A, V> := State(Settled(st), [Write(hdr, value)]);
    assert s1.pending + [Write(hdr, value)] == [Write(hdr, value)];
    assert Run(st, ops[..3]) == Step(s2, FlushCache);
    var w: seq<Write<A, V>> := [Write(hdr, value)];
    assert w[..0] == [];
    assert Apply(Settled(st), w[..0]) == Settled(st);
    assert Settled(s2) == Settled(st)[hdr := value];
  }

  // ----- copying home -----

  lemma HomePending<A, V>(d: map<A, V>, p: Plan<A, V>, k: nat, img: map<A, V>)
    requires p.hdr in d && d[p.hdr] == p.commit
    requires !Touches(Flatten(p.home), p.hdr)
    requires k <= |p.home|
    requires CrashImage(State(d, Flatten(p.home[..k])), img)
    ensures Committed(d, p, img)
  {
    var ws := Flatten(p.home[..k]);
    forall a | a in img && !Touches(Flatten(p.home), a)
      ensures img[a] == d[a]
    {
      assert MayHold(State(d, ws), a, img[a]);
      if Write(a, img[a]) in ws {
        FlattenPrefix(p.home, k, Write(a, img[a]));
      }
    }
  }

  lemma HomeSettled<A, V>(d: map<A, V>, p: Plan<A, V>, j: nat, img: map<A, V>)
    requires p.hdr in d && d[p.hdr] == p.commit
    requires !Touches(Flatten(p.home), p.hdr) && Within(Flatten(p.home), d.Keys)
    requires 1 <= j <= 3
    requires CrashImage(Run(State(d, Flatten(p.home)), HeaderOps(p.hdr, p.empty)[..j]), img)
    ensures Committed(d, p, img) || img == Installed(d, p)
  {
    var copied := Apply(d, Flatten(p.home));
    HeaderRun(State(d, Flatten(p.home)), p.hdr, p.empty);
    ApplyUntouched(d, Flatten(p.home), p.hdr);
    ApplyKeys(d, Flatten(p.home));
    forall a | a in img ensures img[a] == copied[a] || (a == p.hdr && img[a] == p.empty) {
      assert MayHold(Run(State(d, Flatten(p.home)), HeaderOps(p.hdr, p.empty)[..j]), a, img[a]);
    }
    if img[p.hdr] == p.commit {
      forall a | a in img && !Touches(Flatten(p.home), a)
        ensures img[a] == d[a]
      {
        ApplyUntouched(d, Flatten(p.home), a);
      }
    } else {
      assert img == Installed(d, p);
    }
  }

  /** A cut while the batch is being copied home leaves the log committed, or the batch done. */
  lemma InstallCrash<A, V>(d: map<A, V>, p: Plan<A, V>, k: nat, img: map<A, V>)
    requires p.hdr in d && d[p.hdr] == p.commit
    requires !Touches(Flatten(p.home), p.hdr) && Within(Flatten(p.home), d.Keys)
    requires k <= |InstallOps(p)|
    requires CrashImage(Run(State(d, []), InstallOps(p)[..k]), img)
    ensures Committed(d, p, img) || img == Installed(d, p)
  {
    var n := |p.home|;
    var st := State(d, []);
    var home := Transfers(p.home);
    if k <= n {
      assert InstallOps(p)[..k] == home[..k];
      TransfersPrefix(p.home, k);
      RunTransfers(st, p.home[..k]);
      assert [] + Flatten(p.home[..k]) == Flatten(p.home[..k]);
      HomePending(d, p, k, img);
    } else {
      RunTransfers(st, p.home);
      var tail := HeaderOps(p.hdr, p.empty);
      assert InstallOps(p)[..k] == home + tail[..k - n];
      RunConcat(st, home, tail[..k - n]);
      assert [] + Flatten(p.home) == Flatten(p.home);
      HomeSettled(d, p, k - n, img);
    }
  }

  /** Left to run, the copying ends with the batch home and nothing waiting. */
  lemma InstallDone<A, V>(d: map<A, V>, p: Plan<A, V>)
    ensures Run(State(d, []), InstallOps(p)) == State(Installed(d, p), [])
  {
    var home := Transfers(p.home);
    RunTransfers(State(d, []), p.home);
    assert [] + Flatten(p.home) == Flatten(p.home);
    RunConcat(State(d, []), home, HeaderOps(p.hdr, p.empty));
    HeaderRun(State(d, Flatten(p.home)), p.hdr, p.empty);
  }

  // ----- the whole batch -----

  lemma LoggingCrash<A(!new), V>(st: State<A, V>, p: Plan<A, V>, k: nat, img: map<A, V>)
    requires Sound(p, st.durable.Keys) && HeaderIdle(st, p.hdr)
    requires k <= |p.log|
    requires CrashImage(State(st.durable, st.pending + Flatten(p.log[..k])), img)
    ensures Untaken(st, p, img)
  {
    var ws := Flatten(p.log[..k]);
    forall a | a in img && !Touches(Flatten(p.log), a)
      ensures MayHold(st, a, img[a])
    {
      assert MayHold(State(st.durable, st.pending + ws), a, img[a]);
      if Write(a, img[a]) in ws {
        FlattenPrefix(p.log, k, Write(a, img[a]));
      }
    }
    assert MayHold(st, p.hdr, img[p.hdr]);
    IdleHolds(st, p.hdr, img[p.hdr]);
  }

  lemma IdleHolds<A, V>(st: State<A, V>, a: A, v: V)
    requires HeaderIdle(st, a) && MayHold(st, a, v)
    ensures v == st.durable[a]
  {
  }

  lemma HeaderCrash<A(!new), V>(st: State<A, V>, p: Plan<A, V>, j: nat, img: map<A, V>)
    requires Sound(p, st.durable.Keys) && HeaderIdle(st, p.hdr)
    requires 1 <= j <= 3
    requires CrashImage(
      Run(State(st.durable, st.pending + Flatten(p.log)), HeaderOps(p.hdr, p.commit)[..j]), img)
    ensures Untaken(st, p, img) || Committed(Logged(st, p), p, img)
  {
    var full := State(st.durable, st.pending + Flatten(p.log));
    var cut := Run(full, HeaderOps(p.hdr, p.commit)[..j]);
    HeaderRun(full, p.hdr, p.commit);
    ApplyConcat(st.durable, st.pending, Flatten(p.log));
    var d1 := Apply(Settled(st), Flatten(p.log));
    ApplyKeys(st.durable, st.pending);
    ApplyKeys(Settled(st), Flatten(p.log));
    forall a | a in img ensures img[a] == d1[a] || (a == p.hdr && img[a] == p.commit) {
      assert MayHold(cut, a, img[a]);
    }
    if img[p.hdr] == p.commit {
      assert Committed(Logged(st, p), p, img);
    } else {
      forall a | a in img && !Touches(Flatten(p.log), a) ensures MayHold(st, a, img[a]) {
        ApplyUntouched(Settled(st), Flatten(p.log), a);
        ApplyMayHold(st.durable, st.pending, a);
      }
      IdleHolds(st, p.hdr, img[p.hdr]);
    }
  }

  /** What a power cut after any prefix of a batch can leave behind. */
  lemma CommitCrash<A(!new), V>(st: State<A, V>, p: Plan<A, V>, k: nat, img: map<A, V>)
    requires Sound(p, st.durable.Keys) && HeaderIdle(st, p.hdr)
    requires k <= |CommitOps(p)|
    requires CrashImage(Run(st, CommitOps(p)[..k]), img)
    ensures
      || Untaken(st, p, img)
      || Committed(Logged(st, p), p, img)
      || img == Installed(Logged(st, p), p)
  {
    var m := |p.log|;
    var log := Transfers(p.log);
    var head := HeaderOps(p.hdr, p.commit);
    if k <= m {
      assert CommitOps(p)[..k] == log[..k];
      TransfersPrefix(p.log, k);
      RunTransfers(st, p.log[..k]);
      LoggingCrash(st, p, k, img);
    } else {
      RunTransfers(st, p.log);
      var full := State(st.durable, st.pending + Flatten(p.log));
      if k <= m + 3 {
        assert CommitOps(p)[..k] == log + head[..k - m];
        RunConcat(st, log, head[..k - m]);
        HeaderCrash(st, p, k - m, img);
      } else {
        var rest := InstallOps(p)[..k - m - 3];
        assert CommitOps(p)[..k] == (log + head) + rest;
        RunConcat(st, log + head, rest);
        CommitPoint(st, p);
        ApplyKeys(st.durable, st.pending);
        ApplyKeys(Settled(st), Flatten(p.log));
        InstallCrash(Logged(st, p), p, k - m - 3, img);
      }
    }
  }

  /** After the second flush the log is complete and its header durable. */
  lemma CommitPoint<A, V>(st: State<A, V>, p: Plan<A, V>)
    ensures Run(st, Transfers(p.log) + HeaderOps(p.hdr, p.commit)) == State(Logged(st, p), [])
  {
    var log := Transfers(p.log);
    RunTransfers(st, p.log);
    RunConcat(st, log, HeaderOps(p.hdr, p.commit));
    ApplyConcat(st.durable, st.pending, Flatten(p.log));
    HeaderRun(State(st.durable, st.pending + Flatten(p.log)), p.hdr, p.commit);
  }

  /** Left to run, the batch ends home, durable, with an empty header. */
  lemma CommitDone<A, V>(st: State<A, V>, p: Plan<A, V>)
    ensures Run(st, CommitOps(p)) == State(Installed(Logged(st, p), p), [])
  {
    CommitPoint(st, p);
    RunConcat(st, Transfers(p.log) + HeaderOps(p.hdr, p.commit), InstallOps(p));
    InstallDone(Logged(st, p), p);
  }

  /** A batch is its four phases, one after the other. */
  lemma CommitPhases<A, V>(st: State<A, V>, before: seq<Op<A, V>>, p: Plan<A, V>)
    ensures Run(st, CommitOps(p)) ==
      Run(Run(Run(Run(st, Transfers(p.log)), HeaderOps(p.hdr, p.commit)), Transfers(p.home)), HeaderOps(p.hdr, p.empty))
    ensures before + CommitOps(p) ==
      before + Transfers(p.log) + HeaderOps(p.hdr, p.commit) + Transfers(p.home) + HeaderOps(p.hdr, p.empty)
  {
    RunConcat(st, Transfers(p.log), HeaderOps(p.hdr, p.commit));
    RunConcat(st, Transfers(p.log) + HeaderOps(p.hdr, p.commit), InstallOps(p));
    InstallPhases(Run(st, Transfers(p.log) + HeaderOps(p.hdr, p.commit)), [], p);
  }

  lemma InstallPhases<A, V>(st: State<A, V>, before: seq<Op<A, V>>, p: Plan<A, V>)
    ensures Run(st, InstallOps(p)) == Run(Run(st, Transfers(p.home)), HeaderOps(p.hdr, p.empty))
    ensures before + InstallOps(p) == before + Transfers(p.home) + HeaderOps(p.hdr, p.empty)
  {
    RunConcat(st, Transfers(p.home), HeaderOps(p.hdr, p.empty));
  }
}
