/** The password hash: the cipher on pairs of 32-bit words, a bit at a time. */
module DesPassword {
  import opened Des
  import DesAnswers

  // ----- words -----

  /** A word is 32 bits, the most significant first; shift counts are taken modulo 32. */
  datatype KeyPair = KeyPair(lo: Bits, hi: Bits)

  predicate IsWord(w: Bits)
  {
    |w| == 32
  }

  predicate IsPair(p: KeyPair)
  {
    IsWord(p.lo) && IsWord(p.hi)
  }

  /** The 64 bits of a pair. */
  function Flat(p: KeyPair): Bits
  {
    p.hi + p.lo
  }

  function Zero(): (w: Bits)
    ensures IsWord(w)
  {
    seq(32, i => false)
  }

  function Zeros(n: int): (r: Bits)
    requires n >= 0
    ensures |r| == n
  {
    seq(n, i => false)
  }

  /** The word with one bit set. */
  function Single(p: int): (w: Bits)
    ensures IsWord(w)
  {
    seq(32, i => i == p)
  }

  function Shl(w: Bits, n: int): (r: Bits)
    requires IsWord(w)
    ensures IsWord(r)
  {
    seq(32, i requires 0 <= i < 32 => i + n % 32 < 32 && w[i + n % 32])
  }

  function Shr(w: Bits, n: int): (r: Bits)
    requires IsWord(w)
    ensures IsWord(r)
  {
    seq(32, i requires 0 <= i < 32 => 0 <= i - n % 32 && w[i - n % 32])
  }

  function And(a: Bits, b: Bits): (r: Bits)
    requires IsWord(a) && IsWord(b)
    ensures IsWord(r)
  {
    seq(32, i requires 0 <= i < 32 => a[i] && b[i])
  }

  function Or(a: Bits, b: Bits): (r: Bits)
    requires IsWord(a) && IsWord(b)
    ensures IsWord(r)
  {
    seq(32, i requires 0 <= i < 32 => a[i] || b[i])
  }

  predicate NonZero(w: Bits)
  {
    exists i :: 0 <= i < |w| && w[i]
  }

  /** A 32-bit integer as the machine has it. */
  function Signed(x: int): int
  {
    if x % 0x1_0000_0000 < 0x8000_0000 then x % 0x1_0000_0000 else x % 0x1_0000_0000 - 0x1_0000_0000
  }

  lemma Halves32(shift: int)
    requires 0 <= shift < 64
    ensures Signed(shift * 0x400_0000) >= 0 <==> shift < 32
    ensures Signed(shift * 0x400_0000) > 0 <==> 0 < shift < 32
  {
  }

  // ----- picking bits -----

  /** Only bit p of the 64 is set. */
  ghost predicate OneAt(w: KeyPair, p: int)
  {
    IsPair(w) && forall x :: 0 <= x < 32 ==> w.hi[x] == (x == p) && w.lo[x] == (x + 32 == p)
  }

  /** Bit x of what is picked so far. */
  function Picked(b: Bits, table: seq<int>, i: int, x: int): bool
  {
    0 <= x < i && x < |table| && 1 <= table[x] <= |b| && b[table[x] - 1]
  }

  ghost predicate PickedTo(w: KeyPair, b: Bits, table: seq<int>, i: int)
  {
    IsPair(w) && forall x :: 0 <= x < 32 ==> w.hi[x] == Picked(b, table, i, x) && w.lo[x] == Picked(b, table, i, x + 32)
  }

  /** The mask is moved to the bit the table names. */
  method Mask(shift: int) returns (key: KeyPair)
    requires 0 <= shift < 64
    ensures OneAt(key, shift)
  {
    Halves32(shift);
    var mask := KeyPair(Zero(), Single(0));
    if Signed(shift * 0x400_0000) >= 0 {
      if Signed(shift * 0x400_0000) > 0 {
        key := KeyPair(Or(Shr(mask.lo, shift), Shl(mask.hi, -shift)), Shr(mask.hi, shift));
      } else {
        key := KeyPair(Shr(mask.lo, shift), Shr(mask.hi, shift));
      }
    } else {
      key := KeyPair(Shr(mask.hi, shift), Zero());
    }
  }

  /** The next position, the pair shifted right as one. */
  function NextBit(perm: KeyPair): (r: KeyPair)
    requires IsPair(perm)
    ensures IsPair(r)
  {
    KeyPair(Or(Shr(perm.lo, 1), Shl(perm.hi, 31)), Shr(perm.hi, 1))
  }

  lemma NextAt(perm: KeyPair, i: int)
    requires OneAt(perm, i) && i >= 0
    ensures OneAt(NextBit(perm), i + 1)
  {
  }

  lemma BitTest(input: KeyPair, key: KeyPair, p: int)
    requires IsPair(input) && OneAt(key, p) && 0 <= p < 64
    ensures NonZero(Or(And(input.lo, key.lo), And(input.hi, key.hi))) <==> Flat(input)[p]
  {
    var w := Or(And(input.lo, key.lo), And(input.hi, key.hi));
    var x := if p < 32 then p else p - 32;
    assert w[x] == Flat(input)[p];
  }

  lemma PickMore(input: KeyPair, table: seq<int>, i: int, w: KeyPair, perm: KeyPair)
    requires IsPair(input) && 0 <= i < |table| && i < 64 && 1 <= table[i] <= 64
    requires PickedTo(w, Flat(input), table, i) && OneAt(perm, i)
    ensures
      var b := Flat(input);
      PickedTo(if b[table[i] - 1] then KeyPair(Or(w.lo, perm.lo), Or(w.hi, perm.hi)) else w, b, table, i + 1)
  {
    var b, n := Flat(input), i + 1;
    var next := if b[table[i] - 1] then KeyPair(Or(w.lo, perm.lo), Or(w.hi, perm.hi)) else w;
    forall x | 0 <= x < 32 ensures next.hi[x] == Picked(b, table, n, x) && next.lo[x] == Picked(b, table, n, x + 32) {
      PickedNext(b, table, i, x);
      PickedNext(b, table, i, x + 32);
    }
  }

  lemma PickedNext(b: Bits, table: seq<int>, i: int, x: int)
    requires |b| == 64 && 0 <= i < |table| && 1 <= table[i] <= 64
    ensures Picked(b, table, i + 1, x) == (Picked(b, table, i, x) || (x == i && b[table[i] - 1]))
  {
  }

  lemma AllPicked(w: KeyPair, b: Bits, table: seq<int>)
    requires |b| == 64 && |table| <= 64 && Picks(table, 64) && PickedTo(w, b, table, |table|)
    ensures Flat(w) == Permuted(b, table) + Zeros(64 - |table|)
  {
    var all := Permuted(b, table) + Zeros(64 - |table|);
    forall x | 0 <= x < 64 ensures Flat(w)[x] == all[x] {
      var y := if x < 32 then x else x - 32;
      assert w.hi[y] == Picked(b, table, |table|, y) && w.lo[y] == Picked(b, table, |table|, y + 32);
    }
  }

  /** The loop of every permutation: a bit of the result for each entry of the table. */
  method Permute(input: KeyPair, table: seq<int>) returns (output: KeyPair)
    requires IsPair(input) && |table| <= 64 && Picks(table, 64)
    ensures IsPair(output) && Flat(output) == Permuted(Flat(input), table) + Zeros(64 - |table|)
  {
    output := KeyPair(Zero(), Zero());
    var perm := KeyPair(Zero(), Single(0));
    assert OneAt(perm, 0) && PickedTo(output, Flat(input), table, 0);
    hide OneAt, PickedTo, Shl, Shr, Or, And, NonZero, Flat;
    FlatLength(input);
    var i := 0;
    while i < |table|
      invariant 0 <= i <= |table| && IsPair(output) && IsPair(perm)
      invariant PickedTo(output, Flat(input), table, i) && OneAt(perm, i)
    {
      var key := Mask(table[i] - 1);
      OnePair(key, table[i] - 1);
      BitTest(input, key, table[i] - 1);
      PickMore(input, table, i, output, perm);
      NextAt(perm, i);
      if NonZero(Or(And(input.lo, key.lo), And(input.hi, key.hi))) {
        output := KeyPair(Or(output.lo, perm.lo), Or(output.hi, perm.hi));
      }
      perm := KeyPair(Or(Shr(perm.lo, 1), Shl(perm.hi, 31)), Shr(perm.hi, 1));
      i := i + 1;
    }
    AllPicked(output, Flat(input), table);
  }

  lemma OnePair(w: KeyPair, p: int)
    requires OneAt(w, p)
    ensures IsPair(w)
  {
  }

  lemma FlatLength(w: KeyPair)
    requires IsPair(w)
    ensures |Flat(w)| == 64
  {
  }

  lemma PermutedPrefix(b: Bits, z: Bits, table: seq<int>)
    requires Picks(table, |b|)
    ensures Picks(table, |b + z|) && Permuted(b + z, table) == Permuted(b, table)
  {
  }

  // ----- the key schedule -----

  /** The word with the last n bits set. */
  function LowBits(n: int): (w: Bits)
    ensures IsWord(w)
  {
    seq(32, i => i >= 32 - n)
  }

  /** The pair holds 28 bits in its lower word. */
  ghost predicate Held(p: KeyPair, c: Bits)
  {
    && IsPair(p) && |c| == 28
    && forall x :: 0 <= x < 32 ==> !p.hi[x] && p.lo[x] == (x >= 4 && c[x - 4])
  }

  lemma HeldPair(p: KeyPair, c: Bits)
    requires Held(p, c)
    ensures IsPair(p)
  {
  }

  method SplitKey(key: KeyPair, ghost k: Bits) returns (c: KeyPair, d: KeyPair)
    requires IsPair(key) && |k| == 56 && Flat(key) == k + Zeros(8)
    ensures Held(c, k[..28]) && Held(d, k[28..])
  {
    SplitBits(key, k);
    c := KeyPair(Shr(key.hi, 4), Zero());
    d := KeyPair(And(Or(Shr(key.lo, 8), Shl(key.hi, 24)), LowBits(28)), And(Shr(key.hi, 8), Zero()));
  }

  lemma SplitBits(key: KeyPair, k: Bits)
    requires IsPair(key) && |k| == 56 && Flat(key) == k + Zeros(8)
    ensures forall x :: 0 <= x < 32 ==> key.hi[x] == k[x]
    ensures forall x :: 0 <= x < 24 ==> key.lo[x] == k[x + 32]
    ensures forall x :: 24 <= x < 32 ==> !key.lo[x]
  {
    var b := Flat(key);
    assert forall x :: 0 <= x < 32 ==> key.hi[x] == b[x];
    assert forall x :: 0 <= x < 32 ==> key.lo[x] == b[x + 32];
  }

  /** What the shifts and masks of a rotation by n leave in the lower and upper word. */
  lemma RotatedHeld(p: KeyPair, c: Bits, n: int)
    requires Held(p, c) && 1 <= n <= 2
    ensures
      var lo := And(Or(And(Or(Shl(p.hi, 4 + n), Shr(p.lo, 28 - n)), LowBits(n)), Shl(p.lo, n)), LowBits(28));
      var hi := And(Or(And(Shr(p.hi, 28 - n), Zero()), Or(Shl(p.hi, n), Shr(p.lo, 32 - n))), Zero());
      Held(KeyPair(lo, hi), Rotated(c, n))
  {
    var r := Rotated(c, n);
    var low := And(Or(Shl(p.hi, 4 + n), Shr(p.lo, 28 - n)), LowBits(n));
    forall x | 0 <= x < 32 ensures low[x] == (x >= 32 - n && c[x - (32 - n)]) {
    }
    var lo := And(Or(low, Shl(p.lo, n)), LowBits(28));
    forall x | 0 <= x < 32 ensures lo[x] == (x >= 4 && r[x - 4]) {
    }
  }

  /** Rotates the 28 bits left by one or two. */
  method Rotate(p: KeyPair, rotation: int, ghost c: Bits) returns (q: KeyPair)
    requires Held(p, c)
    ensures Held(q, Rotated(c, if rotation == 1 then 1 else 2))
  {
    RotatedHeld(p, c, if rotation == 1 then 1 else 2);
    hide Shl, Shr, And, Or, LowBits, Zero, Rotated;
    HeldPair(p, c);
    var key1, key2, key3, key4;
    if rotation != 1 {
      key1 := And(Or(Shl(p.hi, 6), Shr(p.lo, 26)), LowBits(2));
      key4 := Shl(p.lo, 2);
      key2 := And(Shr(p.hi, 26), Zero());
      key3 := Or(Shl(p.hi, 2), Shr(p.lo, 30));
    } else {
      key1 := And(Or(Shl(p.hi, 5), Shr(p.lo, 27)), LowBits(1));
      key4 := Shl(p.lo, 1);
      key2 := And(Shr(p.hi, 27), Zero());
      key3 := Or(Shl(p.hi, 1), Shr(p.lo, 31));
    }
    q := KeyPair(And(Or(key1, key4), LowBits(28)), And(Or(key2, key3), Zero()));
  }

  /** C and D as the 56 bits that the second choice picks from. */
  method Joined(c: KeyPair, d: KeyPair, ghost cb: Bits, ghost db: Bits) returns (p: KeyPair)
    requires Held(c, cb) && Held(d, db)
    ensures IsPair(p) && Flat(p) == cb + db + Zeros(8)
  {
    p := KeyPair(Or(Zero(), Shl(d.lo, 8)), Or(Or(Shl(c.lo, 4), Shl(d.hi, 8)), Shr(d.lo, 24)));
    ghost var all := cb + db + Zeros(8);
    forall x | 0 <= x < 32 ensures p.hi[x] == all[x] && p.lo[x] == all[x + 32] {
      JoinedAt(c, d, cb, db, x);
    }
    FlatIs(p, all);
  }

  lemma JoinedAt(c: KeyPair, d: KeyPair, cb: Bits, db: Bits, x: int)
    requires Held(c, cb) && Held(d, db) && 0 <= x < 32
    ensures Or(Or(Shl(c.lo, 4), Shl(d.hi, 8)), Shr(d.lo, 24))[x] == (cb + db + Zeros(8))[x]
    ensures Or(Zero(), Shl(d.lo, 8))[x] == (cb + db + Zeros(8))[x + 32]
  {
    var one, two, three, four := Shl(c.lo, 4), Shl(d.hi, 8), Shr(d.lo, 24), Shl(d.lo, 8);
    var y := x + 4;
    assert one[x] == (y < 32 && c.lo[y]) && !two[x];
    assert y < 32 ==> c.lo[y] == cb[x];
    assert three[x] == (x >= 24 && d.lo[x - 24]);
    assert x >= 24 ==> d.lo[x - 24] == (x >= 28 && db[x - 28]);
    assert four[x] == (x + 8 < 32 && d.lo[x + 8]);
    assert x + 8 < 32 ==> d.lo[x + 8] == db[x + 4];
    hide Shl, Shr, Held;
    assert Or(Or(one, two), three)[x] == ((one[x] || two[x]) || three[x]);
  }

  lemma FlatIs(p: KeyPair, b: Bits)
    requires IsPair(p) && |b| == 64 && forall x :: 0 <= x < 32 ==> p.hi[x] == b[x] && p.lo[x] == b[x + 32]
    ensures Flat(p) == b
  {
    var f := Flat(p);
    forall x | 0 <= x < 64 ensures f[x] == b[x] {
      var y := if x < 32 then x else x - 32;
      assert p.hi[y] == b[y] && p.lo[y] == b[y + 32];
    }
  }

  /** The sixteen round keys of a password. */
  method KeySchedule(password: KeyPair) returns (ks: seq<KeyPair>)
    requires IsPair(password)
    ensures |ks| == 16 && forall i :: 0 <= i < 16 ==> Scheduled(ks[i], Flat(password), i + 1)
  {
    hide *;
    var pairC, pairD := HalfKeys(password);
    ghost var key := Flat(password);
    FlatLength(password);
    ks := [];
    var i := 1;
    while i < 17
      invariant 1 <= i <= 17 && |ks| == i - 1
      invariant forall j :: 0 <= j < i - 1 ==> Scheduled(ks[j], key, j + 1)
    {
      HeldAt(pairC, key, true, i);
      HeldAt(pairD, key, false, i);
      var k := Choose(pairC[i], pairD[i], key, i);
      ks := ks + [k];
      i := i + 1;
    }
  }

  method Choose(c: KeyPair, d: KeyPair, ghost key: Bits, ghost i: int) returns (k: KeyPair)
    requires |key| == 64 && 1 <= i <= 16 && Held(c, HalfKey(key, i, true)) && Held(d, HalfKey(key, i, false))
    ensures Scheduled(k, key, i)
  {
    hide PC2, HalfKey, Permuted, Held;
    var input := Joined(c, d, HalfKey(key, i, true), HalfKey(key, i, false));
    ChoiceFits();
    k := Permute(input, PC2);
    ScheduledIs(k, input, key, i);
  }

  ghost predicate HeldTo(pairs: seq<KeyPair>, key: Bits, left: bool)
  {
    |key| == 64 && |pairs| <= 17 && forall j :: 0 <= j < |pairs| ==> Held(pairs[j], HalfKey(key, j, left))
  }

  lemma HeldMore(pairs: seq<KeyPair>, p: KeyPair, key: Bits, left: bool)
    requires HeldTo(pairs, key, left) && |pairs| < 17 && Held(p, HalfKey(key, |pairs|, left))
    ensures HeldTo(pairs + [p], key, left)
  {
    hide Held, HalfKey;
  }

  lemma HeldAt(pairs: seq<KeyPair>, key: Bits, left: bool, j: int)
    requires HeldTo(pairs, key, left) && 0 <= j < |pairs|
    ensures |key| == 64 && j < 17 && Held(pairs[j], HalfKey(key, j, left))
  {
    hide Held, HalfKey;
  }

  /** The next value of C or of D. */
  method Turn(pairs: seq<KeyPair>, i: int, ghost key: Bits, ghost left: bool) returns (next: seq<KeyPair>)
    requires HeldTo(pairs, key, left) && |pairs| == i + 1 && 0 <= i < 16
    ensures HeldTo(next, key, left) && |next| == i + 2
  {
    hide *;
    HeldAt(pairs, key, left, i);
    HalfKeyNext(key, i, left);
    var p := Rotate(pairs[i], ROTATIONS[i], HalfKey(key, i, left));
    HeldMore(pairs, p, key, left);
    next := pairs + [p];
  }

  lemma HeldFirst(p: KeyPair, key: Bits, left: bool)
    requires |key| == 64 && Held(p, if left then KeyBits(key)[..28] else KeyBits(key)[28..])
    ensures HeldTo([p], key, left)
  {
    HalfKeyFirst(key);
    hide Held, HalfKey, KeyBits;
  }

  /** The seventeen values of C and of D. */
  method HalfKeys(password: KeyPair) returns (pairC: seq<KeyPair>, pairD: seq<KeyPair>)
    requires IsPair(password)
    ensures HeldTo(pairC, Flat(password), true) && HeldTo(pairD, Flat(password), false) && |pairC| == |pairD| == 17
  {
    FlatLength(password);
    ghost var key := Flat(password);
    hide *;
    KeyBitsAre(key);
    var permuted := Permute(password, PC1);
    var c, d := SplitKey(permuted, KeyBits(key));
    HeldFirst(c, key, true);
    HeldFirst(d, key, false);
    pairC, pairD := [c], [d];
    var i := 0;
    while i < 16
      invariant 0 <= i <= 16 && |pairC| == |pairD| == i + 1 && HeldTo(pairC, key, true) && HeldTo(pairD, key, false)
    {
      pairC := Turn(pairC, i, key, true);
      pairD := Turn(pairD, i, key, false);
      i := i + 1;
    }
  }

  /** The pair holds a round key in its upper 48 bits. */
  ghost predicate Scheduled(k: KeyPair, key: Bits, i: int)
  {
    IsPair(k) && |key| == 64 && 1 <= i <= 16 && Flat(k) == RoundKey(key, i) + Zeros(16)
  }

  lemma ChoiceFits()
    ensures |PC2| == 48 && Picks(PC2, 64)
  {
    RoundKeyTable();
    hide PC2;
  }

  lemma KeyBitsAre(key: Bits)
    requires |key| == 64
    ensures |PC1| == 56 && Picks(PC1, 64) && KeyBits(key) == Permuted(key, PC1)
  {
    KeyTable();
    hide PC1, Permuted;
  }

  lemma ScheduledIs(k: KeyPair, input: KeyPair, key: Bits, i: int)
    requires IsPair(k) && IsPair(input) && |key| == 64 && 1 <= i <= 16
    requires |PC2| == 48 && Picks(PC2, 64) && |Flat(input)| == 64
    requires Flat(input) == HalfKey(key, i, true) + HalfKey(key, i, false) + Zeros(8)
    requires Flat(k) == Permuted(Flat(input), PC2) + Zeros(64 - |PC2|)
    ensures Scheduled(k, key, i)
  {
    RoundKeyTable();
    hide PC2, HalfKey, Flat, Permuted, Zeros;
    PermutedPrefix(HalfKey(key, i, true) + HalfKey(key, i, false), Zeros(8), PC2);
  }

  // ----- the rounds -----

  function XorWord(a: Bits, b: Bits): (r: Bits)
    requires IsWord(a) && IsWord(b)
    ensures IsWord(r)
  {
    seq(32, i requires 0 <= i < 32 => a[i] != b[i])
  }

  /** The pair holds 32 bits in its upper word and nothing in its lower. */
  ghost predicate Upper(p: KeyPair, b: Bits)
  {
    IsPair(p) && |b| == 32 && forall x :: 0 <= x < 32 ==> p.hi[x] == b[x] && !p.lo[x]
  }

  lemma UpperFlat(p: KeyPair, b: Bits)
    requires Upper(p, b)
    ensures IsPair(p) && Flat(p) == b + Zeros(32)
  {
    FlatIs(p, b + Zeros(32));
  }

  lemma FlatUpper(p: KeyPair, b: Bits)
    requires IsPair(p) && |b| == 32 && Flat(p) == b + Zeros(32)
    ensures Upper(p, b)
  {
    var f := Flat(p);
    forall x | 0 <= x < 32 ensures p.hi[x] == b[x] && !p.lo[x] {
      assert p.hi[x] == f[x] && p.lo[x] == f[x + 32];
    }
  }

  /** Bit y of 48 bits, false outside of them. */
  function Bit48(b: Bits, y: int): bool
  {
    0 <= y < |b| && b[y]
  }

  /** The pair holds the 48 bits of which the last n were shifted out at the right. */
  ghost predicate Shifted(p: KeyPair, b: Bits, n: int)
  {
    && IsPair(p) && |b| == 48
    && forall x :: 0 <= x < 32 ==> p.hi[x] == Bit48(b, x - 16 - n) && p.lo[x] == Bit48(b, x + 16 - n)
  }

  lemma FlatBits(p: KeyPair, b: Bits)
    requires IsPair(p) && |b| == 48 && Flat(p) == b + Zeros(16)
    ensures forall x :: 0 <= x < 32 ==> p.hi[x] == b[x] && p.lo[x] == Bit48(b, x + 32)
  {
    var f := Flat(p);
    forall x | 0 <= x < 32 ensures p.hi[x] == b[x] && p.lo[x] == Bit48(b, x + 32) {
      assert p.hi[x] == f[x] && p.lo[x] == f[x + 32];
    }
  }

  /** Adds the key and moves the 48 bits to the right end. */
  method Mix(e: KeyPair, k: KeyPair, ghost eb: Bits, ghost kb: Bits) returns (b: KeyPair)
    requires IsPair(e) && IsPair(k) && |eb| == |kb| == 48 && Flat(e) == eb + Zeros(16) && Flat(k) == kb + Zeros(16)
    ensures Shifted(b, Xored(eb, kb), 0)
  {
    FlatBits(e, eb);
    FlatBits(k, kb);
    hide Flat, Zeros;
    var lo, hi := Shr(XorWord(e.lo, k.lo), 16), XorWord(e.hi, k.hi);
    lo := Or(lo, Shl(hi, 16));
    hi := Shr(hi, 16);
    b := KeyPair(lo, hi);
    ghost var x := Xored(eb, kb);
    forall i | 0 <= i < 32 ensures hi[i] == Bit48(x, i - 16) && lo[i] == Bit48(x, i + 16) {
    }
  }

  function ToInt(w: Bits): int
    requires IsWord(w)
  {
    32 * Num(w[26]) + 16 * Num(w[27]) + 8 * Num(w[28]) + 4 * Num(w[29]) + 2 * Num(w[30]) + Num(w[31])
  }

  lemma IndexBits(lo: Bits)
    requires IsWord(lo)
    ensures
      var six := And(lo, LowBits(6));
      var w := Or(Or(And(lo, Single(26)), And(Shr(six, 1), LowBits(4))), And(Shl(six, 4), Single(27)));
      w[26] == lo[26] && w[27] == lo[31] && w[28] == lo[27] && w[29] == lo[28] && w[30] == lo[29] && w[31] == lo[30]
  {
  }

  /** Where in a box the six bits point. */
  method BoxIndex(lo: Bits) returns (i: int)
    requires IsWord(lo)
    ensures i == 16 * (2 * Num(lo[26]) + Num(lo[31]))
      + 8 * Num(lo[27]) + 4 * Num(lo[28]) + 2 * Num(lo[29]) + Num(lo[30])
    ensures 0 <= i < 64
  {
    IndexBits(lo);
    hide And, Or, Shl, Shr, LowBits, Single, Num;
    var six := And(lo, LowBits(6));
    var w := Or(Or(And(lo, Single(26)), And(Shr(six, 1), LowBits(4))), And(Shl(six, 4), Single(27)));
    i := ToInt(w);
  }

  /** The word with a number of four bits. */
  function NibbleWord(v: int): (w: Bits)
    ensures IsWord(w)
  {
    seq(32, i => i >= 28 && NibbleBit(v, i - 28))
  }

  /** Shifts a pair left as one. */
  method ShiftUp(lo: Bits, hi: Bits, shift: int) returns (key3: Bits, key4: Bits)
    requires IsWord(lo) && IsWord(hi) && 0 <= shift < 64
    ensures IsWord(key3) && IsWord(key4)
    ensures forall x :: 0 <= x < 32 ==> key4[x] == (x + shift < 32 && lo[x + shift])
    ensures forall x :: 0 <= x < 32 ==>
      key3[x] == if x + shift < 32 then hi[x + shift] else x + shift < 64 && lo[x + shift - 32]
  {
    Halves32(shift);
    if Signed(shift * 0x400_0000) >= 0 {
      if Signed(shift * 0x400_0000) > 0 {
        key3 := Or(Shl(hi, shift), Shr(lo, -shift));
      } else {
        key3 := Shl(hi, shift);
      }
      key4 := Shl(lo, shift);
    } else {
      key3 := Shl(lo, shift);
      key4 := Zero();
    }
  }

  /** The last 4n bits of the substitution are there. */
  ghost predicate Boxed(hi: Bits, b: Bits, n: int)
  {
    IsWord(hi) && |b| == 48 && forall x :: 0 <= x < 32 ==> hi[x] == (x >= 32 - 4 * n && BoxBit(b, x))
  }

  lemma SixOf(p: KeyPair, b: Bits, i: int)
    requires Shifted(p, b, 6 * i) && 0 <= i < 8
    ensures IsPair(p) && p.lo[26..] == b[6 * (7 - i)..6 * (7 - i) + 6]
    ensures Shifted(KeyPair(Or(Shr(p.lo, 6), Shl(p.hi, 26)), Shr(p.hi, 6)), b, 6 * (i + 1))
  {
    var one, two := p.lo[26..], b[6 * (7 - i)..6 * (7 - i) + 6];
    forall x | 0 <= x < 6 ensures one[x] == two[x] {
      assert p.lo[x + 26] == Bit48(b, x + 42 - 6 * i);
    }
  }

  lemma BoxAt(lo: Bits, b: Bits, i: int, at: int)
    requires IsWord(lo) && |b| == 48 && 0 <= i < 8 && lo[26..] == b[6 * (7 - i)..6 * (7 - i) + 6]
    requires at == 16 * (2 * Num(lo[26]) + Num(lo[31]))
      + 8 * Num(lo[27]) + 4 * Num(lo[28]) + 2 * Num(lo[29]) + Num(lo[30])
    ensures 0 <= at < 64 && |SBOX| == 8 && |SBOX[7 - i]| == 64
    ensures SBOX[7 - i][at] == Box(7 - i, b[6 * (7 - i)..6 * (7 - i) + 6])
  {
    BoxTable(7 - i);
    CellAt(lo, at);
    hide SBOX, Cell;
  }

  lemma CellAt(lo: Bits, at: int)
    requires IsWord(lo)
    requires at == 16 * (2 * Num(lo[26]) + Num(lo[31]))
      + 8 * Num(lo[27]) + 4 * Num(lo[28]) + 2 * Num(lo[29]) + Num(lo[30])
    ensures at == Cell(lo[26..])
  {
    hide Num;
    var six := lo[26..];
    assert six[0] == lo[26] && six[1] == lo[27] && six[2] == lo[28] && six[3] == lo[29] && six[4] == lo[30] &&
      six[5] == lo[31];
  }

  lemma BoxedMore(hi: Bits, b: Bits, i: int, v: int, key3: Bits)
    requires Boxed(hi, b, i) && 0 <= i < 8 && IsWord(key3)
    requires v == Box(7 - i, b[6 * (7 - i)..6 * (7 - i) + 6])
    requires forall x :: 0 <= x < 32 ==> key3[x] == (x + 4 * i < 32 && NibbleWord(v)[x + 4 * i])
    ensures Boxed(Or(hi, key3), b, i + 1)
  {
    hide Box, NibbleBit;
    var next := Or(hi, key3);
    forall x | 0 <= x < 32 ensures next[x] == (x >= 32 - 4 * (i + 1) && BoxBit(b, x)) {
      if 28 - 4 * i <= x < 32 - 4 * i {
        assert x / 4 == 7 - i && x % 4 == x + 4 * i - 28;
      }
    }
  }

  /** The eight boxes, the last first. */
  method Substitute(e: KeyPair, ghost b: Bits) returns (s: KeyPair)
    requires Shifted(e, b, 0)
    ensures Upper(s, Substituted(b))
  {
    PairShifted(e, b, 0);
    var eVal := e;
    var lo, hi := Zero(), Zero();
    assert Boxed(hi, b, 0);
    hide Shifted, Boxed, Shl, Shr, Or, SBOX, Box, NibbleWord, BoxBit, Substituted;
    var i, shift := 0, 32;
    while i < 8
      invariant 0 <= i <= 8 && shift == 32 + 4 * i && IsPair(eVal) && IsWord(hi) && lo == Zero()
      invariant Shifted(eVal, b, 6 * i) && Boxed(hi, b, i)
    {
      SixOf(eVal, b, i);
      var at := BoxIndex(eVal.lo);
      BoxAt(eVal.lo, b, i, at);
      var v := SBOX[7 - i][at];
      eVal := KeyPair(Or(Shr(eVal.lo, 6), Shl(eVal.hi, 26)), Shr(eVal.hi, 6));
      var key3, key4 := ShiftUp(NibbleWord(v), Zero(), shift);
      NothingBelow(lo, key4);
      BoxedMore(hi, b, i, v, key3);
      lo, hi := Or(lo, key4), Or(hi, key3);
      i, shift := i + 1, shift + 4;
    }
    s := KeyPair(lo, hi);
    AllBoxed(lo, hi, b);
  }

  lemma PairShifted(e: KeyPair, b: Bits, n: int)
    requires Shifted(e, b, n)
    ensures IsPair(e) && |b| == 48
  {
  }

  lemma NothingBelow(lo: Bits, key4: Bits)
    requires lo == Zero() && IsWord(key4) && forall x :: 0 <= x < 32 ==> !key4[x]
    ensures Or(lo, key4) == Zero()
  {
  }

  lemma AllBoxed(lo: Bits, hi: Bits, b: Bits)
    requires lo == Zero() && Boxed(hi, b, 8)
    ensures Upper(KeyPair(lo, hi), Substituted(b))
  {
    hide BoxBit;
  }

  /** The cipher function of a round. */
  method RoundFunction(r: KeyPair, k: KeyPair, ghost rb: Bits, ghost kb: Bits) returns (p: KeyPair)
    requires Upper(r, rb) && IsPair(k) && |kb| == 48 && Flat(k) == kb + Zeros(16)
    ensures |rb| == 32 && Upper(p, Scrambled(rb, kb))
  {
    UpperFlat(r, rb);
    ExpansionFits(rb);
    PermutationFits();
    hide *;
    var e := Permute(r, EXPANSION);
    var b := Mix(e, k, Permuted(rb, EXPANSION), kb);
    ghost var x := Xored(Permuted(rb, EXPANSION), kb);
    var s := Substitute(b, x);
    UpperFlat(s, Substituted(x));
    PermutedPrefix(Substituted(x), Zeros(32), PERMUTATION);
    p := Permute(s, PERMUTATION);
    FlatUpper(p, Permuted(Substituted(x), PERMUTATION));
    ScrambledIs(rb, kb);
  }

  lemma ExpansionFits(rb: Bits)
    requires |rb| == 32
    ensures |EXPANSION| == 48 && Picks(EXPANSION, 32) && Picks(EXPANSION, 64)
    ensures Permuted(rb + Zeros(32), EXPANSION) == Permuted(rb, EXPANSION)
  {
    ExpansionTable();
    hide EXPANSION;
    PermutedPrefix(rb, Zeros(32), EXPANSION);
  }

  lemma PermutationFits()
    ensures |PERMUTATION| == 32 && Picks(PERMUTATION, 32) && Picks(PERMUTATION, 64)
  {
    PermutationTable();
    hide PERMUTATION;
  }

  lemma ScrambledIs(rb: Bits, kb: Bits)
    requires |rb| == 32 && |kb| == 48
    ensures |EXPANSION| == 48 && Picks(EXPANSION, 32) && |PERMUTATION| == 32 && Picks(PERMUTATION, 32)
    ensures Scrambled(rb, kb) == Permuted(Substituted(Xored(Permuted(rb, EXPANSION), kb)), PERMUTATION)
  {
    ExpansionTable();
    PermutationTable();
    hide EXPANSION, PERMUTATION, Permuted, Substituted, Xored, Picks;
  }

  lemma UpperPair(p: KeyPair, b: Bits)
    requires Upper(p, b)
    ensures IsPair(p) && |b| == 32
  {
  }

  lemma UpperXor(l: KeyPair, p: KeyPair, lb: Bits, pb: Bits)
    requires Upper(l, lb) && Upper(p, pb)
    ensures Upper(KeyPair(XorWord(l.lo, p.lo), XorWord(l.hi, p.hi)), Xored(lb, pb))
  {
  }

  /** The sixteen rounds; the lower words stay empty. */
  method SixteenRounds(l0: KeyPair, r0: KeyPair, ks: seq<KeyPair>, ghost h: Halves, ghost keys: seq<Bits>)
    returns (l: KeyPair, r: KeyPair)
    requires Upper(l0, h.l) && Upper(r0, h.r) && Full(h) && |ks| == |keys| == 16 && Keys(keys)
    requires forall i :: 0 <= i < 16 ==> IsPair(ks[i]) && Flat(ks[i]) == keys[i] + Zeros(16)
    ensures Upper(l, Rounds(h, keys).l) && Upper(r, Rounds(h, keys).r)
  {
    hide Upper, Flat, Zeros, Scrambled, XorWord, Xored;
    l, r := l0, r0;
    var j := 0;
    assert keys[..0] == [];
    while j < 16
      invariant 0 <= j <= 16 && Upper(l, Rounds(h, keys[..j]).l) && Upper(r, Rounds(h, keys[..j]).r)
    {
      ghost var g := Rounds(h, keys[..j]);
      UpperPair(l, g.l);
      var p := RoundFunction(r, ks[j], g.r, keys[j]);
      UpperPair(p, Scrambled(g.r, keys[j]));
      UpperXor(l, p, g.l, Scrambled(g.r, keys[j]));
      l, r := r, KeyPair(XorWord(l.lo, p.lo), XorWord(l.hi, p.hi));
      RoundsSnoc(h, keys, j);
      j := j + 1;
    }
    assert keys[..16] == keys;
  }

  lemma RoundsSnoc(h: Halves, keys: seq<Bits>, j: int)
    requires Full(h) && Keys(keys) && 0 <= j < |keys|
    ensures Rounds(h, keys[..j + 1]) == Round(Rounds(h, keys[..j]), keys[j])
  {
    hide Round;
    assert keys[..j + 1][..j] == keys[..j];
  }

  // ----- the whole cipher -----

  lemma RoundKeyAt(key: Bits, n: int, i: int)
    requires |key| == 64 && 0 <= i < n <= 16
    ensures RoundKeys(key, n)[i] == RoundKey(key, i + 1)
  {
    hide RoundKey;
  }

  /** The halves of the permuted block, each alone in an upper word. */
  lemma SplitBlock(p: KeyPair, b: Bits)
    requires IsPair(p) && |b| == 64 && Flat(p) == b
    ensures Upper(KeyPair(And(p.lo, Zero()), p.hi), b[..32]) && Upper(KeyPair(Zero(), Shl(p.lo, 0)), b[32..])
  {
    forall x | 0 <= x < 32 ensures p.hi[x] == b[x] && p.lo[x] == b[x + 32] {
    }
  }

  lemma JoinBlock(l: KeyPair, r: KeyPair, g: Halves)
    requires Upper(l, g.l) && Upper(r, g.r)
    ensures IsPair(l) && IsPair(r) && Flat(KeyPair(Or(r.lo, Shr(l.hi, 0)), Or(r.hi, Zero()))) == g.r + g.l
  {
    FlatIs(KeyPair(Or(r.lo, Shr(l.hi, 0)), Or(r.hi, Zero())), g.r + g.l);
  }

  /** Enciphers the partition's identifier with the password. */
  method DESEncryptPassword(id: KeyPair, password: KeyPair) returns (out: KeyPair)
    requires IsPair(id) && IsPair(password)
    ensures IsPair(out) && |Flat(id)| == 64 && |Flat(password)| == 64
    ensures Flat(out) == Enciphered(Flat(id), RoundKeys(Flat(password), 16))
    ensures DesAnswers.Known(Flat(password), Flat(id), Flat(out))
  {
    FlatLength(id);
    FlatLength(password);
    OuterTables();
    ghost var key, b := Flat(password), Flat(id);
    ghost var keys := RoundKeys(key, 16);
    hide *;
    var ks := KeySchedule(password);
    KeysAre(ks, key);
    var permuted := Permute(id, IP);
    OneWhole(Permuted(b, IP));
    ghost var p := Permuted(b, IP);
    ghost var h := Halves(p[..32], p[32..]);
    SplitBlock(permuted, p);
    HalvesFull(h);
    var l, r := SixteenRounds(KeyPair(And(permuted.lo, Zero()), permuted.hi), KeyPair(Zero(), Shl(permuted.lo, 0)), ks,
      h, keys);
    ghost var g := Rounds(h, keys);
    JoinBlock(l, r, g);
    var input := KeyPair(Or(r.lo, Shr(l.hi, 0)), Or(r.hi, Zero()));
    out := Permute(input, FP);
    EncipheredIs(b, keys, h, out);
    DesAnswers.KnownAnswers(key, b);
  }

  lemma OneWhole(b: Bits)
    ensures b + Zeros(0) == b
  {
  }

  lemma HalvesFull(h: Halves)
    requires |h.l| == |h.r| == 32
    ensures Full(h)
  {
  }

  lemma KeysAre(ks: seq<KeyPair>, key: Bits)
    requires |ks| == 16 && |key| == 64 && forall i :: 0 <= i < 16 ==> Scheduled(ks[i], key, i + 1)
    ensures |RoundKeys(key, 16)| == 16 && Keys(RoundKeys(key, 16))
    ensures forall i :: 0 <= i < 16 ==> IsPair(ks[i]) && Flat(ks[i]) == RoundKeys(key, 16)[i] + Zeros(16)
  {
    hide RoundKeys, RoundKey, Flat, Zeros;
    forall i | 0 <= i < 16 ensures IsPair(ks[i]) && Flat(ks[i]) == RoundKeys(key, 16)[i] + Zeros(16) {
      var n := i + 1;
      assert Scheduled(ks[i], key, n);
      RoundKeyAt(key, 16, i);
    }
  }

  lemma EncipheredIs(b: Bits, keys: seq<Bits>, h: Halves, out: KeyPair)
    requires |b| == 64 && Keys(keys) && IsPair(out)
    requires |IP| == |FP| == 64 && Picks(IP, 64) && Picks(FP, 64)
    requires var p := Permuted(b, IP); h == Halves(p[..32], p[32..])
    requires
      var g := Rounds(h, keys);
      Flat(out) == Permuted(g.r + g.l, FP) + Zeros(0)
    ensures Flat(out) == Enciphered(b, keys)
  {
    hide IP, FP, Permuted, Rounds, Picks, Flat;
  }
}
