/** The zone allocator: one bitmap per partition, read word by word and chunk by chunk, and the
    counts of free zones kept beside it. */
module ZoneBitmap {

  const BITS_PER_CHUNK := 8192
  const WORDS_PER_CHUNK := 256
  const USHRT_MAX := 65535
  const ENOSPC := -28

  /** A 32-bit word, least significant bit first; set bits are used zones. */
  type Word = w: seq<bool> | |w| == 32 witness seq(32, _ => false)

  // ----- a partition's bitmap as one sequence of zones -----

  function Zone(m: seq<Word>, z: int): bool
    requires 0 <= z < 32 * |m|
  {
    m[z / 32][z % 32]
  }

  function Flat(m: seq<Word>): (v: seq<bool>)
    ensures |v| == 32 * |m|
  {
    seq(32 * |m|, z requires 0 <= z < 32 * |m| => Zone(m, z))
  }

  /** v with the n zones from p on all on or all off. */
  function Marked(v: seq<bool>, p: int, n: int, on: bool): (u: seq<bool>)
    ensures |u| == |v|
  {
    seq(|v|, z requires 0 <= z < |v| => if p <= z < p + n then on else v[z])
  }

  lemma FlatUpdate(m: seq<Word>, k: int, i: int, on: bool)
    requires 0 <= k < |m| && 0 <= i < 32
    ensures Flat(m[k := m[k][i := on]]) == Flat(m)[32 * k + i := on]
  {
    var a, b := Flat(m[k := m[k][i := on]]), Flat(m)[32 * k + i := on];
    forall z | 0 <= z < |a| ensures a[z] == b[z] {
      assert z == 32 * (z / 32) + z % 32;
    }
  }

  lemma MarkedSnoc(v: seq<bool>, p: int, n: int, on: bool)
    requires 0 <= p && 0 <= n && p + n < |v|
    ensures Marked(v, p, n, on)[p + n := on] == Marked(v, p, n + 1, on)
  {
  }

  /** n free zones from p on. */
  ghost predicate Run(v: seq<bool>, p: int, n: int)
  {
    0 <= p && 0 <= n && p + n <= |v| && forall z :: p <= z < p + n ==> !v[z]
  }

  /** No n free zones in a row lie between from and end. */
  ghost predicate NoRun(v: seq<bool>, from: int, end: int, n: int)
  {
    forall p :: from <= p && p + n <= end ==> !Run(v, p, n)
  }

  // ----- counting -----

  /** The free zones among the first n. */
  function Clear(v: seq<bool>, n: int): (c: int)
    requires 0 <= n <= |v|
    ensures 0 <= c <= n
  {
    if n == 0 then 0 else Clear(v, n - 1) + if v[n - 1] then 0 else 1
  }

  /** Taking a run of free zones takes that many off the count, and giving it back returns them. */
  lemma {:induction false} ClearMarked(v: seq<bool>, p: int, k: int, n: int)
    requires Run(v, p, k) && p + k <= n <= |v|
    ensures Clear(Marked(v, p, k, true), n) == Clear(v, n) - k
    decreases n
  {
    if p + k < n {
      ClearMarked(v, p, k, n - 1);
    } else if k > 0 {
      ClearMarked(v, p, k - 1, n - 1);
      ClearAgree(Marked(v, p, k, true), Marked(v, p, k - 1, true), n - 1);
    } else {
      assert Marked(v, p, k, true) == v;
    }
  }

  lemma {:induction false} ClearAgree(u: seq<bool>, v: seq<bool>, n: int)
    requires |u| == |v| && 0 <= n <= |v| && forall z :: 0 <= z < n ==> u[z] == v[z]
    ensures Clear(u, n) == Clear(v, n)
  {
    if n > 0 {
      ClearAgree(u, v, n - 1);
    }
  }

  lemma {:induction false} ClearPositive(v: seq<bool>, n: int) returns (z: int)
    requires 0 <= n <= |v| && Clear(v, n) > 0
    ensures 0 <= z < n && !v[z]
  {
    if v[n - 1] {
      z := ClearPositive(v, n - 1);
    } else {
      z := n - 1;
    }
  }

  /** Freeing what was taken restores the bitmap. */
  lemma MarkedBack(v: seq<bool>, p: int, n: int)
    requires Run(v, p, n)
    ensures Marked(Marked(v, p, n, true), p, n, false) == v
  {
  }

  function Sum(s: seq<int>): int
  {
    if s == [] then 0 else Sum(s[..|s| - 1]) + s[|s| - 1]
  }

  lemma {:induction false} SumUpdate(s: seq<int>, i: int, x: int)
    requires 0 <= i < |s|
    ensures Sum(s[i := x]) == Sum(s) - s[i] + x
  {
    var n := |s| - 1;
    if i < n {
      assert s[i := x][..n] == s[..n][i := x];
      SumUpdate(s[..n], i, x);
    } else {
      assert s[i := x][..n] == s[..n];
    }
  }

  lemma {:induction false} SumPositive(s: seq<int>) returns (i: int)
    requires Sum(s) > 0
    ensures 0 <= i < |s| && s[i] > 0
  {
    var n := |s| - 1;
    if s[n] > 0 {
      i := n;
    } else {
      i := SumPositive(s[..n]);
    }
  }

  // ----- the scan -----

  /** count free zones in a row end at z, no longer ones, and no n in a row were passed. */
  ghost predicate Scanned(v: seq<bool>, from: int, z: int, n: int, count: int)
  {
    && 0 <= from <= z - count && 0 <= count < n && z <= |v|
    && Run(v, z - count, count) && NoRun(v, from, z, n)
    && (z - count == from || v[z - count - 1])
  }

  lemma ScanFree(v: seq<bool>, from: int, z: int, n: int, count: int)
    requires Scanned(v, from, z, n, count) && z < |v| && !v[z]
    ensures Run(v, z - count, count + 1)
    ensures count + 1 < n ==> Scanned(v, from, z + 1, n, count + 1)
  {
    if count + 1 < n {
      forall p | from <= p && p + n <= z + 1 ensures !Run(v, p, n) {
        if p + n == z + 1 {
          assert p <= z - count - 1 < p + n;
        }
      }
    }
  }

  lemma ScanUsed(v: seq<bool>, from: int, z: int, n: int, count: int)
    requires Scanned(v, from, z, n, count) && z < |v| && v[z]
    ensures Scanned(v, from, z + 1, n, 0)
  {
    forall p | from <= p && p + n <= z + 1 ensures !Run(v, p, n) {
      if p + n == z + 1 {
        assert p <= z < p + n;
      }
    }
  }

  /** p is the first place from `from` on with n free zones in a row, all before end. */
  ghost predicate FirstRun(v: seq<bool>, from: int, end: int, n: int, p: int)
  {
    && from <= p && p + n <= end && Run(v, p, n) && forall q :: from <= q < p ==> !Run(v, q, n)
  }

  /** The scan remembers where its current run began. */
  ghost predicate Scan(v: seq<bool>, from: int, z: int, n: int, count: int, chunk: int, pos: int, bit: int)
  {
    && Scanned(v, from, z, n, count)
    && (count > 0 ==>
      0 <= chunk && 0 <= pos < WORDS_PER_CHUNK && 0 <= bit < 32 && z - count == pos * 32 + chunk * BITS_PER_CHUNK + bit)
  }

  ghost predicate Progress(v: seq<bool>, from: int, size: int, z: int, n: int, count: int, chunk: int, pos: int,
                           bit: int)
  {
    if z < size then Scan(v, from, z, n, count, chunk, pos, bit) else NoRun(v, from, size, n)
  }

  /** The scan stands at zone z, the given word of the chunk of info. */
  ghost predicate At(size: int, info: Info, word: int, z: int)
  {
    && 0 <= info.chunk && 0 <= info.bit < 32
    && info.partitionChunks == size / BITS_PER_CHUNK && info.partitionRemainder == size % BITS_PER_CHUNK
    && (z < size || info.More() ==> z == info.chunk * BITS_PER_CHUNK + word * 32 + info.bit)
  }

  /** One bit of the scan. */
  lemma ScanBit(v: seq<bool>, from: int, size: int, z: int, n: int, count: int, chunk: int, pos: int, bit: int, c: int,
                w: int, i: int)
    requires Scan(v, from, z, n, count, chunk, pos, bit) && z < size <= |v|
    requires 0 <= c && 0 <= w < WORDS_PER_CHUNK && 0 <= i < 32 && z == w * 32 + c * BITS_PER_CHUNK + i
    ensures v[z] ==> Scan(v, from, z + 1, n, 0, chunk, pos, bit)
    ensures !v[z] && count + 1 < n && count == 0 ==> Scan(v, from, z + 1, n, 1, c, w, i)
    ensures !v[z] && count + 1 < n && count > 0 ==> Scan(v, from, z + 1, n, count + 1, chunk, pos, bit)
    ensures !v[z] && count + 1 == n && count == 0 ==> FirstRun(v, from, size, n, w * 32 + c * BITS_PER_CHUNK + i)
    ensures !v[z] && count + 1 == n && count > 0 ==>
      && 0 <= chunk && 0 <= pos < WORDS_PER_CHUNK && 0 <= bit < 32
      && FirstRun(v, from, size, n, pos * 32 + chunk * BITS_PER_CHUNK + bit)
  {
    if v[z] {
      ScanUsed(v, from, z, n, count);
    } else {
      ScanFree(v, from, z, n, count);
    }
  }

  lemma ScanDone(v: seq<bool>, from: int, size: int, z: int, n: int, count: int, chunk: int, pos: int, bit: int)
    requires Scan(v, from, z, n, count, chunk, pos, bit) && z <= size
    ensures Progress(v, from, size, z, n, count, chunk, pos, bit)
  {
  }

  lemma ScanStart(v: seq<bool>, from: int, size: int, n: int)
    requires 0 <= from && 0 < n && 0 <= size <= |v| && size % 32 == 0
    ensures Progress(v, from, size, from, n, 0, 0, 0, 0)
    ensures At(size, Setup(size, from), Setup(size, from).index, from) && 0 <= Setup(size, from).index < WORDS_PER_CHUNK
  {
    hide Scanned, NoRun, Run;
    SetupParts(size, from);
    EmptyScan(v, from, size, n);
  }

  lemma SetupParts(size: int, from: int)
    requires 0 <= from
    ensures
      var info := Setup(size, from);
      && 0 <= info.chunk && 0 <= info.index < WORDS_PER_CHUNK && 0 <= info.bit < 32
      && from == info.chunk * BITS_PER_CHUNK + info.index * 32 + info.bit
  {
  }

  lemma EmptyScan(v: seq<bool>, from: int, size: int, n: int)
    requires 0 <= from && 0 < n && 0 <= size <= |v|
    ensures if from < size then Scanned(v, from, from, n, 0) else NoRun(v, from, size, n)
  {
  }

  lemma NextWord(size: int, info: Info, word: int, z: int)
    requires At(size, info, word, z) && info.More() && 0 <= word < info.Words() && size >= 0 && size % 32 == 0
    ensures word < WORDS_PER_CHUNK && z == info.chunk * BITS_PER_CHUNK + word * 32 + info.bit
    ensures z + 32 - info.bit <= size && 0 <= info.chunk && 0 <= info.bit < 32
    ensures word + 1 <= info.(bit := 0).Words()
    ensures At(size, info.(bit := 0), word + 1, z + 32 - info.bit) && info.(bit := 0).More()
  {
  }

  lemma IndexFits(size: int, info: Info, word: int, z: int)
    requires At(size, info, word, z) && info.More() && 0 <= word < WORDS_PER_CHUNK && size >= 0 && size % 32 == 0
    ensures word <= info.Words() || z >= size
  {
  }

  lemma ScanFinished(size: int, info: Info, word: int, z: int)
    requires At(size, info, word, z) && !info.More() && 0 <= word && size >= 0
    ensures z >= size
  {
  }

  lemma ByteBound(size: int, info: Info)
    requires info.More() && 0 <= info.chunk && size >= 0 && size % 32 == 0
    requires info.partitionChunks == size / BITS_PER_CHUNK && info.partitionRemainder == size % BITS_PER_CHUNK
    ensures
      var bytes := if info.chunk == info.partitionChunks then info.partitionRemainder / 8 else 4 * WORDS_PER_CHUNK;
      && 0 <= bytes && info.chunk * BITS_PER_CHUNK + 8 * bytes <= size
      && info.chunk * BITS_PER_CHUNK + 8 * bytes ==
        if info.(chunk := info.chunk + 1).More() then (info.chunk + 1) * BITS_PER_CHUNK else size
  {
  }

  lemma NextChunk(size: int, info: Info, word: int, z: int)
    requires At(size, info, word, z) && info.More() && word >= info.Words() && size >= 0 && size % 32 == 0
    requires word == info.Words() || (z >= size && word < WORDS_PER_CHUNK)
    ensures At(size, info.(index := 0, chunk := info.chunk + 1), 0, z)
    ensures info.chunk <= size / BITS_PER_CHUNK
  {
  }

  lemma SetupAt(size: int, number: int, m: seq<Word>)
    requires Fits(size, m) && 0 <= number < 32 * |m|
    ensures
      var info := Setup(size, number);
      && 0 <= info.chunk && 0 <= info.index < WORDS_PER_CHUNK && 0 <= info.bit < 32
      && info.chunk * BITS_PER_CHUNK + info.index * 32 + info.bit == number && info.chunk * WORDS_PER_CHUNK < |m|
      && size <= 32 * |m|
  {
    SetupParts(size, number);
    hide Setup;
  }

  // ----- extension -----

  /** What an extension may ask for at most. */
  function Room(bi: Extent, request: int): int
  {
    if USHRT_MAX - bi.count < request then USHRT_MAX - bi.count else request
  }

  /** k is how many free zones in a row follow p, within the partition and the request. */
  ghost predicate Longest(v: seq<bool>, size: int, p: int, want: int, k: int)
  {
    && 0 <= k <= want
    && (k > 0 ==> Run(v, p, k) && p + k <= size)
    && (k == want || p + k >= size || (0 <= p && p + k < |v| && v[p + k]))
  }

  lemma ExtendStart(v: seq<bool>, p: int)
    ensures Marked(v, p, 0, true) == v
  {
  }

  lemma TakenCounts(v: seq<bool>, p: int, k: int, n: int)
    requires 0 <= n <= |v| && (k > 0 ==> Run(v, p, k) && p + k <= n) && 0 <= k && 0 <= p
    ensures Clear(Marked(v, p, k, true), n) == Clear(v, n) - k
  {
    if k > 0 {
      ClearMarked(v, p, k, n);
    } else {
      assert Marked(v, p, 0, true) == v;
    }
  }

  lemma SegmentCounts(size: int, m: seq<Word>, p: int, k: int)
    requires Fits(size, m) && AllUsed(Flat(m), p, k) && p + k <= size && p < 32 * |m|
    ensures Clear(Marked(Flat(m), p, k, false), size) == Clear(Flat(m), size) + k && p >= 0 && k >= 0
    ensures
      var info := Setup(size, p);
      && 0 <= info.chunk && 0 <= info.index < WORDS_PER_CHUNK && 0 <= info.bit < 32
      && info.chunk * BITS_PER_CHUNK + info.index * 32 + info.bit == p && info.chunk * WORDS_PER_CHUNK < |m|
      && size <= 32 * |m|
  {
    FreedCounts(Flat(m), p, k, size);
    SetupAt(size, p, m);
  }

  lemma LongestCounts(m: seq<Word>, p: int, k: int, n: int, want: int)
    requires Fits(n, m) && Longest(Flat(m), n, p, want, k) && 0 <= p
    ensures Clear(Marked(Flat(m), p, k, true), n) == Clear(Flat(m), n) - k && k >= 0
  {
    TakenCounts(Flat(m), p, k, n);
  }

  ghost predicate AllUsed(v: seq<bool>, p: int, n: int)
  {
    0 <= p && 0 <= n && p + n <= |v| && forall z :: p <= z < p + n ==> v[z]
  }

  lemma FreedCounts(v: seq<bool>, p: int, k: int, n: int)
    requires p + k <= n <= |v| && AllUsed(v, p, k)
    ensures Clear(Marked(v, p, k, false), n) == Clear(v, n) + k
  {
    var u := Marked(v, p, k, false);
    ClearMarked(u, p, k, n);
    assert Marked(u, p, k, true) == v;
  }

  // ----- search -----

  /** Numbers that are not negative add up to 0 only if all are 0. */
  lemma {:induction false} SumZeroOnly(s: seq<int>)
    requires (forall i :: 0 <= i < |s| ==> s[i] >= 0) && Sum(s) == 0
    ensures forall i :: 0 <= i < |s| ==> s[i] == 0
  {
    if s != [] {
      SumAtLeast(s[..|s| - 1]);
      SumZeroOnly(s[..|s| - 1]);
      forall i | 0 <= i < |s| - 1 ensures s[i] == 0 {
        assert s[..|s| - 1][i] == 0;
      }
    }
  }

  lemma {:induction false} SumAtLeast(s: seq<int>)
    requires forall i :: 0 <= i < |s| ==> s[i] >= 0
    ensures Sum(s) >= 0
  {
    if s != [] {
      SumAtLeast(s[..|s| - 1]);
    }
  }

  lemma {:induction false} SumZero(s: seq<int>)
    requires forall i :: 0 <= i < |s| ==> s[i] == 0
    ensures Sum(s) == 0
  {
    if s != [] {
      SumZero(s[..|s| - 1]);
    }
  }

  /** How many steps partition s of n is from the first one visited. */
  function Steps(n: int, first: int, s: int): int
  {
    if s >= first then s - first else s - first + n
  }

  /** A tour of n partitions has made the given number of visits and stands at bi; those it saw
      from their start had nothing free. */
  ghost predicate Touring(free: seq<int>, first: int, visits: int, bi: Extent)
  {
    && 0 <= first < |free| && 0 <= visits <= |free| && 0 <= bi.sub < |free| && bi.number >= 0 && bi.count >= 1
    && (visits > 0 ==> bi.number == 0)
    && Steps(|free|, first, bi.sub) == (if visits == |free| then 0 else visits)
    && forall s :: 0 <= s < |free| && 1 <= Steps(|free|, first, s) < visits ==> free[s] == 0
  }

  /** One more partition without what is wanted; there is a next, for not all can be full. */
  lemma TourGoesOn(free: seq<int>, first: int, visits: int, bi: Extent)
    requires Touring(free, first, visits, bi) && Sum(free) > 0
    requires bi.number == 0 ==> free[bi.sub] == 0
    ensures visits < |free|
    ensures
      var next := bi.(number := 0, sub := if bi.sub + 1 == |free| then 0 else bi.sub + 1);
      Touring(free, first, visits + 1, next)
  {
    if visits == |free| {
      SumZero(free);
    }
  }

  lemma TourStarts(free: seq<int>, bi: Extent)
    requires 0 <= bi.sub < |free| && bi.number >= 0 && bi.count >= 1
    ensures Touring(free, bi.sub, 0, bi)
  {
  }

  lemma TourAt(free: seq<int>, first: int, visits: int, bi: Extent)
    requires Touring(free, first, visits, bi)
    ensures 0 <= bi.sub < |free| && bi.number >= 0 && bi.count >= 1 && 0 <= visits <= |free|
  {
  }

  /** The lengths of run that are tried for `count`: it, its half, and so on down to 1. */
  predicate Tried(count: int, n: int)
  {
    count >= 1 && (n == count || Tried(count / 2, n))
  }

  lemma {:induction false} TriedRange(count: int, n: int)
    requires Tried(count, n)
    ensures 1 <= n <= count
  {
    if n != count {
      TriedRange(count / 2, n);
    }
  }

  /** A single zone is always tried. */
  lemma {:induction false} TriedOne(count: int)
    requires count >= 1
    ensures Tried(count, 1)
  {
    if count > 1 {
      TriedOne(count / 2);
    }
  }

  /** After n its half is tried, and nothing in between. */
  lemma {:induction false} TriedHalf(count: int, n: int, m: int)
    requires Tried(count, n)
    ensures n >= 2 ==> Tried(count, n / 2)
    ensures Tried(count, m) && m < n ==> m <= n / 2
  {
    if n != count {
      TriedHalf(count / 2, n, m);
      if Tried(count, m) && m == count {
        TriedRange(count / 2, n);
      }
    } else if Tried(count, m) && m < n {
      TriedRange(count / 2, m);
    }
  }

  /** The zones taken are the start of the first of the longest runs among those tried. */
  ghost predicate Fitting(v: seq<bool>, from: int, end: int, count: int, want: int, taken: Extent)
  {
    exists n :: FittingRun(v, from, end, count, n, taken.number) && taken.count == if n < want then n else want
  }

  ghost predicate FittingRun(v: seq<bool>, from: int, end: int, count: int, n: int, p: int)
  {
    Tried(count, n) && FirstRun(v, from, end, n, p) && NoneLonger(v, from, end, count, n)
  }

  /** No longer run of a length that is tried is there. */
  ghost predicate NoneLonger(v: seq<bool>, from: int, end: int, count: int, n: int)
  {
    forall m :: Tried(count, m) && m > n ==> NoRun(v, from, end, m)
  }

  lemma NoneLongerAtFirst(v: seq<bool>, from: int, end: int, count: int)
    requires count >= 1
    ensures Tried(count, count) && NoneLonger(v, from, end, count, count)
  {
    forall m | Tried(count, m) ensures m <= count {
      TriedRange(count, m);
    }
  }

  lemma NoneLongerNext(v: seq<bool>, from: int, end: int, count: int, n: int)
    requires Tried(count, n) && NoneLonger(v, from, end, count, n) && NoRun(v, from, end, n)
    ensures n / 2 != 0 ==> Tried(count, n / 2)
    ensures NoneLonger(v, from, end, count, n / 2)
    ensures n / 2 == 0 ==> NoRun(v, from, end, 1)
  {
    hide NoRun;
    TriedHalf(count, n, n);
    TriedRange(count, n);
    forall m | Tried(count, m) && m > n / 2 ensures NoRun(v, from, end, m) {
      TriedHalf(count, n, m);
    }
  }

  /** Fewer free zones than n make no run of n. */
  lemma TooFew(v: seq<bool>, from: int, size: int, n: int)
    requires 0 <= size <= |v| && Clear(v, size) < n
    ensures NoRun(v, from, size, n)
  {
    forall p | from <= p && p + n <= size ensures !Run(v, p, n) {
      if Run(v, p, n) {
        ClearMarked(v, p, n, size);
        assert false;
      }
    }
  }

  /** A run of any length has a zone in it. */
  lemma RunHasZone(v: seq<bool>, from: int, end: int, count: int, n: int, p: int)
    requires FittingRun(v, from, end, count, n, p)
    ensures !NoRun(v, from, end, 1)
  {
    TriedRange(count, n);
    assert Run(v, p, 1);
  }

  /** The partition of the visit after j others, going round from the first one visited. */
  function Visit(n: int, first: int, j: int): int
  {
    if first + j < n then first + j else first + j - n
  }

  /** The partition of that visit has no free zone at or after the position it is tried from. */
  ghost predicate Passed(m: seq<seq<Word>>, sizes: seq<int>, number: int, first: int, j: int)
  {
    var s := Visit(|sizes|, first, j);
    0 <= s < |m| == |sizes| && NoRun(Flat(m[s]), if j == 0 then number else 0, sizes[s], 1)
  }

  /** What a search tries for first. */
  function Most(want: int, maxCount: int): int
  {
    var bounded := if maxCount < 33 then maxCount else 32;
    if bounded < want then want else bounded
  }

  /** What a search comes upon: the partition of the last visit is the first with a free zone where it is tried,
      and the zones are the start of the first of the longest runs it tries for there. */
  ghost predicate Found(m: seq<seq<Word>>, sizes: seq<int>, bi0: Extent, maxCount: int, bi: Extent, visits: int)
  {
    var first := if bi0.sub >= |sizes| then 0 else bi0.sub;
    && 1 <= visits <= |sizes| + 1 && |m| == |sizes| && 0 <= bi.sub < |sizes|
    && bi.sub == Visit(|sizes|, first, visits - 1)
    && (forall j :: 0 <= j < visits - 1 ==> Passed(m, sizes, bi0.number, first, j))
    && Fitting(Flat(m[bi.sub]), if visits == 1 then bi0.number else 0, sizes[bi.sub], Most(bi0.count, maxCount),
      bi0.count, bi)
  }

  lemma FoundCount(m: seq<seq<Word>>, sizes: seq<int>, bi0: Extent, maxCount: int, bi: Extent, visits: int)
    requires Found(m, sizes, bi0, maxCount, bi, visits) && bi0.count >= 1
    ensures 1 <= bi.count <= bi0.count
  {
    hide Passed, Visit;
    FittingCount(Flat(m[bi.sub]), if visits == 1 then bi0.number else 0, sizes[bi.sub], Most(bi0.count, maxCount),
      bi0.count, bi);
  }

  lemma FittingCount(v: seq<bool>, from: int, end: int, count: int, want: int, taken: Extent)
    requires Fitting(v, from, end, count, want, taken) && want >= 1
    ensures 1 <= taken.count <= want
  {
    hide FirstRun, NoneLonger;
    var n :| FittingRun(v, from, end, count, n, taken.number) && taken.count == if n < want then n else want;
    TriedRange(count, n);
  }

  lemma RunCounts(m: seq<Word>, from: int, size: int, n: int, p: int, k: int)
    requires Fits(size, m) && FirstRun(Flat(m), from, size, n, p) && 1 <= k <= n
    ensures Clear(Marked(Flat(m), p, k, true), size) == Clear(Flat(m), size) - k
    ensures 0 <= p && p + k <= size && Run(Flat(m), p, k)
  {
    ClearMarked(Flat(m), p, k, size);
  }

  /** Where no single zone is found from the start, none is free. */
  lemma NoneFree(v: seq<bool>, size: int)
    requires 0 <= size <= |v| && NoRun(v, 0, size, 1)
    ensures Clear(v, size) == 0
  {
    if Clear(v, size) > 0 {
      var z := ClearPositive(v, size);
      assert Run(v, z, 1);
    }
  }

  // ----- nibbles -----

  const NIBBLE_FREE: seq<int> := [4, 3, 3, 2, 3, 2, 2, 1, 3, 2, 2, 1, 2, 1, 1, 0]

  function Value(on: bool): int
  {
    if on then 1 else 0
  }

  /** The number four bits make, as `& 0xF` and `>> 4` read them out of a byte. */
  function Nibble(w: Word, i: int): (x: int)
    requires 0 <= i < 8
    ensures 0 <= x < 16
  {
    Value(w[4 * i]) + 2 * Value(w[4 * i + 1]) + 4 * Value(w[4 * i + 2]) + 8 * Value(w[4 * i + 3])
  }

  /** The table gives the clear bits of a nibble. */
  lemma NibbleClear(m: seq<Word>, k: int, i: int)
    requires 0 <= k < |m| && 0 <= i < 8
    ensures Clear(Flat(m), 32 * k + 4 * i + 4) == Clear(Flat(m), 32 * k + 4 * i) + NIBBLE_FREE[Nibble(m[k], i)]
  {
    hide Clear, Flat;
    var z := 32 * k + 4 * i;
    FlatAt(m, k, 4 * i);
    FlatAt(m, k, 4 * i + 1);
    FlatAt(m, k, 4 * i + 2);
    FlatAt(m, k, 4 * i + 3);
    ClearStep(Flat(m), z);
    ClearStep(Flat(m), z + 1);
    ClearStep(Flat(m), z + 2);
    ClearStep(Flat(m), z + 3);
  }

  lemma FlatAt(m: seq<Word>, k: int, i: int)
    requires 0 <= k < |m| && 0 <= i < 32
    ensures Flat(m)[32 * k + i] == m[k][i]
  {
    assert (32 * k + i) / 32 == k && (32 * k + i) % 32 == i;
  }

  lemma ClearStep(v: seq<bool>, z: int)
    requires 0 <= z < |v|
    ensures Clear(v, z + 1) == Clear(v, z) + 1 - Value(v[z])
  {
  }

  lemma NothingCounted(v: seq<bool>)
    ensures Clear(v, 0) == 0
  {
  }

  // ----- the allocator -----

  /** Where a bitmap position is, and how much bitmap there is. */
  datatype Info = Info(chunk: int, index: int, bit: int, partitionChunks: int, partitionRemainder: int)
  {
    predicate More()
    {
      if partitionRemainder == 0 then chunk < partitionChunks else chunk < partitionChunks + 1
    }

    /** The words of the chunk that belong to the partition. */
    function Words(): int
    {
      if chunk == partitionChunks then partitionRemainder / 8 / 4 else WORDS_PER_CHUNK
    }
  }

  function Setup(size: int, number: int): Info
  {
    Info(number / BITS_PER_CHUNK, number % BITS_PER_CHUNK / 32, number % 32, size / BITS_PER_CHUNK,
      size % BITS_PER_CHUNK)
  }

  /** Only the bitmap of one partition changed. */
  ghost predicate Others(m: seq<seq<Word>>, n: seq<seq<Word>>, sub: int)
  {
    |m| == |n| && forall s :: 0 <= s < |m| && s != sub ==> n[s] == m[s]
  }

  /** A block segment: a run of zones of one partition. */
  datatype Extent = Extent(number: int, sub: int, count: int)

  /** The bitmaps of a mounted file system and the free counts kept beside them. */
  class ZoneMap {
    var words: seq<seq<Word>>
    const sizes: seq<int>
    var freeZone: seq<int>
    var zfree: int

    constructor (words: seq<seq<Word>>, sizes: seq<int>, freeZone: seq<int>, zfree: int)
      requires |words| == |sizes| == |freeZone| > 0 && zfree == Sum(freeZone)
      requires forall s :: 0 <= s < |sizes| ==>
        Fits(sizes[s], words[s]) && freeZone[s] == Clear(Flat(words[s]), sizes[s])
      ensures Valid() && this.words == words && this.sizes == sizes && this.freeZone == freeZone && this.zfree == zfree
    {
      this.words, this.sizes, this.freeZone, this.zfree := words, sizes, freeZone, zfree;
    }

    /** Every bitmap is stored in whole chunks; zone counts are multiples of 32. */
    ghost predicate Shaped()
      reads this
    {
      && |words| == |sizes| == |freeZone| > 0
      && forall s :: 0 <= s < |sizes| ==> Fits(sizes[s], words[s])
    }

    /** The counts are those of the bitmaps. */
    ghost predicate Valid()
      reads this
    {
      Shaped() && Counts(words)
    }

    /** The zones of partition sub. */
    ghost function Zones(sub: int): seq<bool>
      requires Shaped() && 0 <= sub < |sizes|
      reads this
    {
      Flat(words[sub])
    }

    /** Sets or clears count bits from chunk, index and bit on, over words and chunks. */
    method AllocFree(on: bool, sub: int, chunk0: int, index0: int, bit0: int, count0: int)
      requires Shaped() && 0 <= sub < |sizes| && 0 <= chunk0 && 0 <= index0 < WORDS_PER_CHUNK && 0 <= bit0 < 32
      requires 0 <= count0 && chunk0 * BITS_PER_CHUNK + index0 * 32 + bit0 + count0 <= 32 * |words[sub]|
      requires chunk0 * WORDS_PER_CHUNK < |words[sub]|
      modifies this`words
      ensures Shaped() && Others(old(words), words, sub)
      ensures Zones(sub) == Marked(old(Zones(sub)), chunk0 * BITS_PER_CHUNK + index0 * 32 + bit0, count0, on)
    {
      ghost var v0, m0, p := Flat(words[sub]), words, chunk0 * BITS_PER_CHUNK + index0 * 32 + bit0;
      var chunk, index, bit, count := chunk0, index0, bit0, count0;
      assert Marked(v0, p, 0, on) == v0;
      while true
        invariant Marking(m0, v0, sub, p, count0 - count, on) && 0 <= count <= count0
        invariant 0 <= chunk && 0 <= index < WORDS_PER_CHUNK && 0 <= bit < 32 && chunk * WORDS_PER_CHUNK < |words[sub]|
        invariant chunk * BITS_PER_CHUNK + index * 32 + bit == p + count0 - count
        decreases |words[sub]| - chunk * WORDS_PER_CHUNK
      {
        while index < WORDS_PER_CHUNK && count != 0
          invariant Marking(m0, v0, sub, p, count0 - count, on) && 0 <= count <= count0
          invariant 0 <= index <= WORDS_PER_CHUNK && 0 <= bit < 32
          invariant count != 0 ==> chunk * BITS_PER_CHUNK + index * 32 + bit == p + count0 - count
        {
          bit, count := MarkWord(on, sub, chunk * WORDS_PER_CHUNK + index, bit, count, m0, v0, p, count0);
          index, bit := index + 1, 0;
        }
        index := 0;
        if count == 0 {
          return;
        }
        chunk := chunk + 1;
      }
    }

    ghost predicate Marking(m0: seq<seq<Word>>, v0: seq<bool>, sub: int, p: int, done: int, on: bool)
      reads this
    {
      && Shaped() && 0 <= sub < |sizes| && Others(m0, words, sub) && 0 <= p && 0 <= done
      && Flat(words[sub]) == Marked(v0, p, done, on)
    }

    /** The bits of one word. */
    method MarkWord(on: bool, sub: int, k: int, bit0: int, count0: int, ghost m0: seq<seq<Word>>, ghost v0: seq<bool>,
                    ghost p: int, ghost total: int)
      returns (bit: int, count: int)
      requires Marking(m0, v0, sub, p, total - count0, on) && 0 <= k < |words[sub]| && 0 <= bit0 < 32
      requires 0 < count0 <= total
      requires 32 * k + bit0 == p + total - count0
      modifies this`words
      ensures Marking(m0, v0, sub, p, total - count, on) && 0 <= count <= count0 && bit0 <= bit <= 32
      ensures 32 * k + bit == p + total - count && (bit == 32 || count == 0)
    {
      bit, count := bit0, count0;
      while bit < 32 && count != 0
        invariant Marking(m0, v0, sub, p, total - count, on) && 0 <= count <= count0 && bit0 <= bit <= 32
        invariant 32 * k + bit == p + total - count
      {
        FlatUpdate(words[sub], k, bit, on);
        MarkedSnoc(v0, p, total - count, on);
        words := words[sub := words[sub][k := words[sub][k][bit := on]]];
        bit, count := bit + 1, count - 1;
      }
    }

    // ----- first fit -----

    /** Looks for `amount` free zones in a row at or after bi.number, and takes what bi wants
        of them. */
    method AllocZones(bi: Extent, amount: int) returns (found: bool, taken: Extent)
      requires Shaped() && 0 <= bi.sub < |sizes| && 0 <= bi.number && 0 < amount && 0 < bi.count
      modifies this`words
      ensures Shaped() && Others(old(words), words, bi.sub)
      ensures !found ==>
        taken == bi && words == old(words) && NoRun(old(Zones(bi.sub)), bi.number, sizes[bi.sub], amount)
      ensures found ==> taken.sub == bi.sub && taken.count == (if amount < bi.count then amount else bi.count)
      ensures found ==> FirstRun(old(Zones(bi.sub)), bi.number, sizes[bi.sub], amount, taken.number)
      ensures found ==> Zones(bi.sub) == Marked(old(Zones(bi.sub)), taken.number, taken.count, true)
    {
      var startChunk, startPos, startBit;
      found, startChunk, startPos, startBit := FindRun(bi.sub, bi.number, amount);
      taken := bi;
      if found {
        taken := taken.(number := startPos * 32 + startChunk * BITS_PER_CHUNK + startBit);
        if amount < taken.count {
          taken := taken.(count := amount);
        }
        AllocFree(true, bi.sub, startChunk, startPos, startBit, taken.count);
      }
    }

    /** The scan of AllocZones, over chunks, words and bits. */
    method FindRun(sub: int, from: int, amount: int)
      returns (found: bool, startChunk: int, startPos: int, startBit: int)
      requires Shaped() && 0 <= sub < |sizes| && 0 <= from && 0 < amount
      ensures found ==> 0 <= startChunk && 0 <= startPos < WORDS_PER_CHUNK && 0 <= startBit < 32
      ensures found ==>
        FirstRun(Zones(sub), from, sizes[sub], amount, startPos * 32 + startChunk * BITS_PER_CHUNK + startBit)
      ensures !found ==> NoRun(Zones(sub), from, sizes[sub], amount)
    {
      ghost var v, z := Flat(words[sub]), from;
      ScanStart(v, from, sizes[sub], amount);
      hide Scan, NoRun, FirstRun, Flat, At, Setup, Info.More, Info.Words;
      var info := Setup(sizes[sub], from);
      var count := 0;
      found, startChunk, startPos, startBit := false, 0, 0, 0;
      while info.More()
        invariant At(sizes[sub], info, info.index, z) && 0 <= info.index < WORDS_PER_CHUNK
        invariant Progress(v, from, sizes[sub], z, amount, count, startChunk, startPos, startBit)
        decreases sizes[sub] / BITS_PER_CHUNK + 1 - info.chunk
      {
        var word := info.index;
        ghost var chunk := info.chunk;
        IndexFits(sizes[sub], info, word, z);
        while word < info.Words()
          invariant At(sizes[sub], info, word, z) && 0 <= word && info.More() && info.chunk == chunk
          invariant word <= info.Words() || (z >= sizes[sub] && word < WORDS_PER_CHUNK)
          invariant Progress(v, from, sizes[sub], z, amount, count, startChunk, startPos, startBit)
        {
          NextWord(sizes[sub], info, word, z);
          found, count, startChunk, startPos, startBit :=
            ScanWord(sub, info.chunk, word, info.bit, amount, count, startChunk, startPos, startBit, from, z);
          if found {
            return;
          }
          z := z + 32 - info.bit;
          ScanDone(v, from, sizes[sub], z, amount, count, startChunk, startPos, startBit);
          info, word := info.(bit := 0), word + 1;
        }
        NextChunk(sizes[sub], info, word, z);
        info := info.(index := 0, chunk := info.chunk + 1);
      }
      ScanFinished(sizes[sub], info, info.index, z);
    }

    method ScanWord(sub: int, chunk: int, word: int, bit: int, amount: int, count0: int, chunk0: int, pos0: int,
                    bit0: int, ghost from: int, ghost z: int)
      returns (found: bool, count: int, startChunk: int, startPos: int, startBit: int)
      requires Shaped() && 0 <= sub < |sizes| && 0 <= chunk && 0 <= word < WORDS_PER_CHUNK && 0 <= bit < 32
      requires z == chunk * BITS_PER_CHUNK + word * 32 + bit && z + 32 - bit <= sizes[sub]
      requires Scan(Flat(words[sub]), from, z, amount, count0, chunk0, pos0, bit0)
      ensures !found ==> Scan(Flat(words[sub]), from, z + 32 - bit, amount, count, startChunk, startPos, startBit)
      ensures found ==> 0 <= startChunk && 0 <= startPos < WORDS_PER_CHUNK && 0 <= startBit < 32
      ensures found ==>
        FirstRun(Flat(words[sub]), from, sizes[sub], amount, startPos * 32 + startChunk * BITS_PER_CHUNK + startBit)
    {
      hide FirstRun, Flat, NoRun, Run;
      count, startChunk, startPos, startBit := count0, chunk0, pos0, bit0;
      var k := chunk * WORDS_PER_CHUNK + word;
      ghost var v := Flat(words[sub]);
      var i := bit;
      while i < 32
        invariant bit <= i <= 32 && Scan(v, from, z + i - bit, amount, count, startChunk, startPos, startBit)
      {
        FlatAt(words[sub], k, i);
        ScanBit(v, from, sizes[sub], z + i - bit, amount, count, startChunk, startPos, startBit, chunk, word, i);
        if !words[sub][k][i] {
          if count == 0 {
            startBit, startChunk, startPos := i, chunk, word;
          }
          count := count + 1;
          if count == amount {
            return true, count, startChunk, startPos, startBit;
          }
        } else {
          count := 0;
        }
        i := i + 1;
      }
      found := false;
    }

    // ----- extension -----

    /** Takes as many of the zones right behind bi as are free in a row, within the request and
        what a 16-bit count can say. */
    method AllocateAdditionalZones(bi: Extent, request: int) returns (res: int)
      requires Valid() && 0 <= bi.sub < |sizes| && 0 <= bi.number && 0 <= bi.count <= USHRT_MAX && 0 <= request
      modifies this`words, this`freeZone, this`zfree
      ensures Valid() && Others(old(words), words, bi.sub) && zfree == old(zfree) - res
      ensures Longest(old(Zones(bi.sub)), sizes[bi.sub], bi.number + bi.count, Room(bi, request), res)
      ensures Zones(bi.sub) == Marked(old(Zones(bi.sub)), bi.number + bi.count, res, true)
    {
      hide Flat, Marked, Clear, Fits, Sum, Longest;
      var count := request;
      if USHRT_MAX - bi.count < count {
        count := USHRT_MAX - bi.count;
      }
      ghost var m0, v := words, Flat(words[bi.sub]);
      assert CountOf(m0, bi.sub);
      res := ExtendRun(bi.sub, bi.number + bi.count, count);
      LongestCounts(m0[bi.sub], bi.number + bi.count, res, sizes[bi.sub], count);
      Adjust(bi.sub, -res, m0);
    }

    /** The counts of the bitmaps m. */
    ghost predicate Counts(m: seq<seq<Word>>)
      reads this`freeZone, this`zfree
    {
      && |m| == |sizes| == |freeZone| && zfree == Sum(freeZone)
      && forall s :: 0 <= s < |sizes| ==> CountOf(m, s)
    }

    ghost predicate CountOf(m: seq<seq<Word>>, s: int)
      requires 0 <= s < |m| == |sizes| == |freeZone|
      reads this`freeZone
    {
      Fits(sizes[s], m[s]) && freeZone[s] == Clear(Flat(m[s]), sizes[s])
    }

    /** Adds to the counts of a partition whose bitmap changed. */
    method Adjust(sub: int, delta: int, ghost m0: seq<seq<Word>>)
      requires Shaped() && Counts(m0) && 0 <= sub < |sizes| && Others(m0, words, sub)
      requires Fits(sizes[sub], words[sub]) && Fits(sizes[sub], m0[sub])
      requires Clear(Flat(words[sub]), sizes[sub]) == Clear(Flat(m0[sub]), sizes[sub]) + delta
      modifies this`freeZone, this`zfree
      ensures Valid() && zfree == old(zfree) + delta
      ensures freeZone == old(freeZone)[sub := old(freeZone)[sub] + delta]
    {
      hide Clear, Flat, Fits, Sum;
      SumUpdate(freeZone, sub, freeZone[sub] + delta);
      assert CountOf(m0, sub);
      freeZone := freeZone[sub := freeZone[sub] + delta];
      zfree := zfree + delta;
      forall s | 0 <= s < |sizes| ensures CountOf(words, s) {
        assert old(CountOf(m0, s));
      }
    }

    method ExtendRun(sub: int, p: int, want: int) returns (res: int)
      requires Shaped() && 0 <= sub < |sizes| && 0 <= p && 0 <= want
      modifies this`words
      ensures Shaped() && Others(old(words), words, sub)
      ensures Longest(old(Zones(sub)), sizes[sub], p, want, res)
      ensures Zones(sub) == Marked(old(Zones(sub)), p, res, true)
    {
      ghost var m0, v := words, Flat(words[sub]);
      ScanStart(v, p, sizes[sub], 1);
      ExtendStart(v, p);
      hide Flat, Marked, At, Setup, Info.More, Info.Words, Run;
      var info := Setup(sizes[sub], p);
      var count := want;
      res := 0;
      while info.More() && count != 0
        invariant Extending(m0, v, sub, p, res) && 0 <= count == want - res
        invariant count != 0 ==> At(sizes[sub], info, info.index, p + res) && 0 <= info.index < WORDS_PER_CHUNK
        decreases sizes[sub] / BITS_PER_CHUNK + 1 - info.chunk
      {
        var word := info.index;
        ghost var chunk := info.chunk;
        IndexFits(sizes[sub], info, word, p + res);
        while word < info.Words() && count != 0
          invariant Extending(m0, v, sub, p, res) && 0 <= count == want - res && 0 <= word && info.chunk == chunk
          invariant count != 0 ==> At(sizes[sub], info, word, p + res) && info.More()
          invariant count != 0 ==> word <= info.Words() || (p + res >= sizes[sub] && word < WORDS_PER_CHUNK)
          invariant chunk <= sizes[sub] / BITS_PER_CHUNK
        {
          NextWord(sizes[sub], info, word, p + res);
          var stop;
          count, res, stop := ExtendWord(sub, info.chunk * WORDS_PER_CHUNK + word, info.bit, count, res, m0, v, p,
            want);
          if stop {
            return;
          }
          info, word := info.(bit := 0), word + 1;
        }
        if count != 0 {
          NextChunk(sizes[sub], info, word, p + res);
        }
        info := info.(index := 0, chunk := info.chunk + 1);
      }
      if count != 0 {
        ScanFinished(sizes[sub], info, info.index, p + res);
      }
    }

    ghost predicate Extending(m0: seq<seq<Word>>, v: seq<bool>, sub: int, p: int, res: int)
      reads this
    {
      && Shaped() && 0 <= sub < |sizes| && Others(m0, words, sub) && 0 <= p && 0 <= res
      && Flat(words[sub]) == Marked(v, p, res, true) && (res > 0 ==> Run(v, p, res) && p + res <= sizes[sub])
    }

    method ExtendWord(sub: int, k: int, bit0: int, count0: int, res0: int, ghost m0: seq<seq<Word>>, ghost v: seq<bool>,
                      ghost p: int, ghost want: int)
      returns (count: int, res: int, stop: bool)
      requires Extending(m0, v, sub, p, res0) && 0 < count0 == want - res0 && 0 <= k < |words[sub]| && 0 <= bit0 < 32
      requires p + res0 == 32 * k + bit0 && 32 * k + 32 <= sizes[sub]
      modifies this`words
      ensures Extending(m0, v, sub, p, res) && 0 <= count == want - res
      ensures !stop ==> count == 0 || p + res == 32 * k + 32
      ensures stop ==> Longest(v, sizes[sub], p, want, res)
    {
      count, res := count0, res0;
      var bit := bit0;
      while bit < 32 && count != 0
        invariant Extending(m0, v, sub, p, res) && 0 <= count == want - res && bit0 <= bit <= 32
        invariant p + res == 32 * k + bit
      {
        FlatAt(words[sub], k, bit);
        if words[sub][k][bit] {
          return count, res, true;
        }
        FlatUpdate(words[sub], k, bit, true);
        MarkedSnoc(v, p, res, true);
        res := res + 1;
        words := words[sub := words[sub][k := words[sub][k][bit := true]]];
        bit, count := bit + 1, count - 1;
      }
      stop := false;
    }

    // ----- giving back -----

    /** Frees the zones of a segment. */
    method FreeBlockSegment(bi: Extent)
      requires Valid() && 0 <= bi.sub < |sizes| && bi.number + bi.count <= sizes[bi.sub]
      requires bi.number < 32 * |words[bi.sub]| && AllUsed(Zones(bi.sub), bi.number, bi.count)
      modifies this`words, this`freeZone, this`zfree
      ensures Valid() && Others(old(words), words, bi.sub) && zfree == old(zfree) + bi.count
      ensures Zones(bi.sub) == Marked(old(Zones(bi.sub)), bi.number, bi.count, false)
    {
      hide Flat, Marked, Clear, Fits, Setup, Sum, AllUsed;
      ghost var m0 := words;
      assert CountOf(m0, bi.sub);
      SegmentCounts(sizes[bi.sub], words[bi.sub], bi.number, bi.count);
      var info := Setup(sizes[bi.sub], bi.number);
      AllocFree(false, bi.sub, info.chunk, info.index, info.bit, bi.count);
      Adjust(bi.sub, bi.count, m0);
    }

    // ----- search -----

    /** Takes up to bi.count zones in a row from the first partition, in turn from bi's, that
        has a free zone where it is tried; fewer where there are no more together.  The loop counter is
        unsigned and its test always true: what ends the loop is that some partition has a free zone. */
    method SearchFreeZone(bi0: Extent, maxCount: int) returns (result: int, bi: Extent, ghost visits: int)
      requires Valid() && zfree > 0 && bi0.count >= 1 && bi0.number >= 0 && bi0.sub >= 0 && maxCount >= 0
      modifies this`words, this`freeZone, this`zfree
      ensures Valid() && result == 0 && 1 <= visits <= |sizes| + 1
      ensures Took(old(words), bi, bi0.count) && zfree == old(zfree) - bi.count
      ensures Found(old(words), sizes, bi0, maxCount, bi, visits)
    {
      hide Sum, Flat, Marked, Run, Fits, Clear, Took, Touring, NoRun, Fitting;
      var num, count;
      bi, num, count := SearchStart(bi0, maxCount);
      ghost var first := bi.sub;
      visits := 0;
      TourStarts(freeZone, bi);
      while num >= 0
        invariant Valid() && words == old(words) && freeZone == old(freeZone) && zfree == old(zfree)
        invariant Touring(freeZone, first, visits, bi) && bi.count == bi0.count && num >= 0
        invariant bi.sub == Visit(|sizes|, first, visits) && bi.number == if visits == 0 then bi0.number else 0
        invariant forall j :: 0 <= j < visits ==> Passed(words, sizes, bi0.number, first, j)
        decreases |sizes| + 1 - visits
      {
        TourAt(freeZone, first, visits, bi);
        ghost var here := bi;
        var found;
        found, bi, num := SearchTurn(bi, num, count);
        if found {
          return 0, bi, visits + 1;
        }
        NothingHere(here);
        TourGoesOn(freeZone, first, visits, here);
        visits := visits + 1;
      }
      result := ENOSPC;
    }

    /** A partition searched from its start in vain has nothing free. */
    lemma NothingHere(bi: Extent)
      requires Valid() && 0 <= bi.sub < |sizes| && NoRun(Flat(words[bi.sub]), bi.number, sizes[bi.sub], 1)
      ensures bi.number == 0 ==> freeZone[bi.sub] == 0
    {
      CountRange(bi.sub);
      assert CountOf(words, bi.sub);
      hide Flat, Clear, Run, Sum;
      if bi.number == 0 {
        NoneFree(Flat(words[bi.sub]), sizes[bi.sub]);
      }
    }

    /** Where the search starts, what its counter starts at, and how long a run it tries first. */
    method SearchStart(bi0: Extent, maxCount: int) returns (bi: Extent, num: int, count: int)
      requires Shaped() && bi0.count >= 1 && bi0.number >= 0 && bi0.sub >= 0 && maxCount >= 0
      ensures bi == bi0.(sub := if bi0.sub >= |sizes| then 0 else bi0.sub)
      ensures num == if bi0.number != 0 then |sizes| else |sizes| - 1
      ensures count == Most(bi0.count, maxCount)
    {
      bi := bi0;
      num := |sizes|;
      if bi.sub >= num {
        bi := bi.(sub := 0);
      }
      if bi.number != 0 {
        num := |sizes| + 1;
      }
      count := if maxCount < 33 then maxCount else 32;
      if count < bi.count {
        count := bi.count;
      }
      num := num - 1;
    }

    /** One turn of the search: a partition is tried, and left for the next. */
    method SearchTurn(bi0: Extent, num0: int, count: int) returns (found: bool, bi: Extent, num: int)
      requires Valid() && 0 <= bi0.sub < |sizes| && bi0.number >= 0 && 1 <= bi0.count <= count && num0 >= 0
      modifies this`words, this`freeZone, this`zfree
      ensures Valid() && num >= 0
      ensures found ==> Took(old(words), bi, bi0.count) && zfree == old(zfree) - bi.count
      ensures !found ==> words == old(words) && freeZone == old(freeZone) && zfree == old(zfree)
      ensures !found ==> bi == bi0.(number := 0, sub := if bi0.sub + 1 == |sizes| then 0 else bi0.sub + 1)
      ensures found ==> bi.sub == bi0.sub
      ensures found ==> Fitting(Flat(old(words)[bi0.sub]), bi0.number, sizes[bi0.sub], count, bi0.count, bi)
      ensures found <==> !NoRun(Flat(old(words)[bi0.sub]), bi0.number, sizes[bi0.sub], 1)
    {
      hide Took, Flat, Clear, Fits, Sum, NoRun, Fitting;
      num := num0;
      found, bi := TryPartition(bi0, count);
      if found {
        return;
      }
      bi := bi0.(number := 0, sub := bi0.sub + 1);
      if bi.sub == |sizes| {
        bi := bi.(sub := 0);
      }
      num := (num - 1) % 0x1_0000_0000;
    }

    /** On a full disk the search goes on for ever: after any number of turns nothing is found,
        nothing has changed, and the test of the loop still holds. */
    method SearchInVain(bi0: Extent, maxCount: int, turns: nat) returns (found: bool, bi: Extent, num: int)
      requires Valid() && zfree == 0 && bi0.count >= 1 && bi0.number >= 0 && bi0.sub >= 0 && maxCount >= 0
      modifies this`words, this`freeZone, this`zfree
      ensures !found && num >= 0
      ensures words == old(words) && freeZone == old(freeZone) && zfree == old(zfree)
    {
      hide Sum, Flat, Fits, Clear, Took;
      NothingFree();
      found := false;
      var count;
      bi, num, count := SearchStart(bi0, maxCount);
      var turn := 0;
      while turn < turns
        invariant Valid() && words == old(words) && freeZone == old(freeZone) && zfree == old(zfree)
        invariant !found && num >= 0 && 0 <= bi.sub < |sizes| && bi.number >= 0 && bi.count == bi0.count
      {
        NothingThere(bi);
        found, bi, num := SearchTurn(bi, num, count);
        turn := turn + 1;
      }
    }

    lemma NothingThere(bi: Extent)
      requires Valid() && zfree == 0 && 0 <= bi.sub < |sizes|
      ensures NoRun(Flat(words[bi.sub]), bi.number, sizes[bi.sub], 1)
    {
      NothingFree();
      CountRange(bi.sub);
      assert CountOf(words, bi.sub);
      hide Flat, Clear, Run, Sum;
      TooFew(Flat(words[bi.sub]), bi.number, sizes[bi.sub], 1);
    }

    lemma NothingFree()
      requires Valid() && zfree == 0
      ensures forall s :: 0 <= s < |sizes| ==> freeZone[s] == 0
    {
      forall s | 0 <= s < |sizes| ensures freeZone[s] >= 0 {
        CountRange(s);
      }
      SumZeroOnly(freeZone);
    }

    /** The zones of bi, at most `most` of them, were free and are taken; nothing else changed. */
    ghost predicate Took(m0: seq<seq<Word>>, bi: Extent, most: int)
      reads this
    {
      && |m0| == |words| == |sizes| && 0 <= bi.sub < |sizes| && Others(m0, words, bi.sub)
      && 1 <= bi.count <= most && 0 <= bi.number && bi.number + bi.count <= sizes[bi.sub]
      && Run(Flat(m0[bi.sub]), bi.number, bi.count)
      && Flat(words[bi.sub]) == Marked(Flat(m0[bi.sub]), bi.number, bi.count, true)
    }

    /** One partition, for ever shorter runs. */
    method TryPartition(bi: Extent, count: int) returns (found: bool, taken: Extent)
      requires Valid() && 0 <= bi.sub < |sizes| && bi.number >= 0 && 1 <= bi.count && 1 <= count
      modifies this`words, this`freeZone, this`zfree
      ensures Valid()
      ensures found ==> Took(old(words), taken, bi.count) && zfree == old(zfree) - taken.count
      ensures found ==> taken.sub == bi.sub
      ensures found ==> Fitting(Flat(old(words)[bi.sub]), bi.number, sizes[bi.sub], count, bi.count, taken)
      ensures !found ==> words == old(words) && freeZone == old(freeZone) && zfree == old(zfree)
      ensures found <==> !NoRun(Flat(old(words)[bi.sub]), bi.number, sizes[bi.sub], 1)
    {
      hide Took, Flat, Clear, Fits, Sum, FirstRun, NoRun, NoneLonger, Tried;
      ghost var v, from, end := Flat(words[bi.sub]), bi.number, sizes[bi.sub];
      found, taken := false, bi;
      var n := count;
      NoneLongerAtFirst(v, from, end, count);
      while n != 0 && !found
        invariant 0 <= n && Valid()
        invariant found ==> Took(old(words), taken, bi.count) && zfree == old(zfree) - taken.count
        invariant found ==> taken.sub == bi.sub && Fitting(v, from, end, count, bi.count, taken)
        invariant found ==> !NoRun(v, from, end, 1)
        invariant !found ==> words == old(words) && freeZone == old(freeZone) && zfree == old(zfree)
        invariant !found ==> NoneLonger(v, from, end, count, n) && (n != 0 ==> Tried(count, n))
        invariant !found && n == 0 ==> NoRun(v, from, end, 1)
        decreases n, !found
      {
        found, taken := TryRun(bi, n);
        if found {
          assert FittingRun(v, from, end, count, n, taken.number);
          RunHasZone(v, from, end, count, n, taken.number);
        } else {
          NoneLongerNext(v, from, end, count, n);
        }
        n := n / 2;
      }
    }

    method TryRun(bi: Extent, n: int) returns (found: bool, taken: Extent)
      requires Valid() && 0 <= bi.sub < |sizes| && bi.number >= 0 && 1 <= bi.count && 1 <= n
      modifies this`words, this`freeZone, this`zfree
      ensures Valid()
      ensures found ==> Took(old(words), taken, bi.count) && zfree == old(zfree) - taken.count
      ensures found ==> taken.sub == bi.sub && taken.count == if n < bi.count then n else bi.count
      ensures found ==> FirstRun(Flat(old(words)[bi.sub]), bi.number, sizes[bi.sub], n, taken.number)
      ensures !found ==> words == old(words) && freeZone == old(freeZone) && zfree == old(zfree)
      ensures !found ==> NoRun(Flat(old(words)[bi.sub]), bi.number, sizes[bi.sub], n)
    {
      hide Flat, Marked, Clear, Fits, Sum, Run, FirstRun, NoRun;
      ghost var m0 := words;
      CountRange(bi.sub);
      assert CountOf(m0, bi.sub);
      if freeZone[bi.sub] < n {
        TooFew(Flat(m0[bi.sub]), bi.number, sizes[bi.sub], n);
        return false, bi;
      }
      found, taken := AllocZones(bi, n);
      if found {
        RunCounts(m0[bi.sub], bi.number, sizes[bi.sub], n, taken.number, taken.count);
        Adjust(bi.sub, -taken.count, m0);
      }
    }

    lemma CountRange(sub: int)
      requires Valid() && 0 <= sub < |sizes|
      ensures 0 <= freeZone[sub] <= sizes[sub] <= |Flat(words[sub])|
    {
      assert CountOf(words, sub);
    }

    // ----- recount -----

    /** Counts the free zones of a partition, four at a time. */
    method CalcFreeZones(sub: int) returns (zoneFree: int)
      requires Shaped() && 0 <= sub < |sizes|
      ensures zoneFree == Clear(Zones(sub), sizes[sub])
    {
      assert Fits(sizes[sub], words[sub]);
      hide Flat, Clear;
      var info := Setup(sizes[sub], 0);
      zoneFree := 0;
      NothingCounted(Flat(words[sub]));
      while info.More()
        invariant 0 <= info.chunk && info.partitionChunks == sizes[sub] / BITS_PER_CHUNK
        invariant info.partitionRemainder == sizes[sub] % BITS_PER_CHUNK
        invariant Counted(sub, if info.More() then info.chunk * BITS_PER_CHUNK else sizes[sub], zoneFree)
        decreases sizes[sub] / BITS_PER_CHUNK + 1 - info.chunk
      {
        ByteBound(sizes[sub], info);
        var bytes := if info.chunk == info.partitionChunks then info.partitionRemainder / 8 else 4 * WORDS_PER_CHUNK;
        var i := 0;
        while i < bytes
          invariant 0 <= i <= bytes && Counted(sub, info.chunk * BITS_PER_CHUNK + 8 * i, zoneFree)
        {
          var k := info.chunk * WORDS_PER_CHUNK + i / 4;
          zoneFree := CountByte(sub, k, i % 4, zoneFree);
          i := i + 1;
        }
        info := info.(chunk := info.chunk + 1);
      }
    }

    /** Byte j of a word, low nibble and high nibble. */
    method CountByte(sub: int, k: int, j: int, count: int) returns (newCount: int)
      requires 0 <= k && 0 <= j < 4 && Counted(sub, 32 * k + 8 * j, count) && 32 * k + 8 * j + 8 <= sizes[sub]
      ensures Counted(sub, 32 * k + 8 * j + 8, newCount)
    {
      hide Flat, Clear;
      assert Fits(sizes[sub], words[sub]);
      var low, high := Nibble(words[sub][k], 2 * j), Nibble(words[sub][k], 2 * j + 1);
      NibbleClear(words[sub], k, 2 * j);
      NibbleClear(words[sub], k, 2 * j + 1);
      newCount := count + NIBBLE_FREE[low] + NIBBLE_FREE[high];
    }

    ghost predicate Counted(sub: int, z: int, n: int)
      reads this
    {
      Shaped() && 0 <= sub < |sizes| && 0 <= z <= sizes[sub] && n == Clear(Flat(words[sub]), z)
    }
  }

  ghost predicate Fits(size: int, m: seq<Word>)
  {
    0 <= size && size % 32 == 0 && size <= 32 * |m| && |m| % WORDS_PER_CHUNK == 0 && 32 * |m| - size < BITS_PER_CHUNK
  }
}
