/** The block cipher of FIPS PUB 46-3 over bit sequences: its tables, what they have to satisfy,
    enciphering, deciphering, and that the one undoes the other. */
module Des {
  type Bits = seq<bool>

  // ----- tables -----

  const PC1: seq<int> :=
    [57, 49, 41, 33, 25, 17, 9, 1] + [58, 50, 42, 34, 26, 18, 10, 2] +
    [59, 51, 43, 35, 27, 19, 11, 3] + [60, 52, 44, 36, 63, 55, 47, 39] +
    [31, 23, 15, 7, 62, 54, 46, 38] + [30, 22, 14, 6, 61, 53, 45, 37] +
    [29, 21, 13, 5, 28, 20, 12, 4]

  const ROTATIONS: seq<int> :=
    [1, 1, 2, 2, 2, 2, 2, 2] + [1, 2, 2, 2, 2, 2, 2, 1]

  const PC2: seq<int> :=
    [14, 17, 11, 24, 1, 5, 3, 28] + [15, 6, 21, 10, 23, 19, 12, 4] +
    [26, 8, 16, 7, 27, 20, 13, 2] + [41, 52, 31, 37, 47, 55, 30, 40] +
    [51, 45, 33, 48, 44, 49, 39, 56] + [34, 53, 46, 42, 50, 36, 29, 32]

  const IP: seq<int> :=
    [58, 50, 42, 34, 26, 18, 10, 2] + [60, 52, 44, 36, 28, 20, 12, 4] +
    [62, 54, 46, 38, 30, 22, 14, 6] + [64, 56, 48, 40, 32, 24, 16, 8] +
    [57, 49, 41, 33, 25, 17, 9, 1] + [59, 51, 43, 35, 27, 19, 11, 3] +
    [61, 53, 45, 37, 29, 21, 13, 5] + [63, 55, 47, 39, 31, 23, 15, 7]

  const EXPANSION: seq<int> :=
    [32, 1, 2, 3, 4, 5, 4, 5] + [6, 7, 8, 9, 8, 9, 10, 11] +
    [12, 13, 12, 13, 14, 15, 16, 17] + [16, 17, 18, 19, 20, 21, 20, 21] +
    [22, 23, 24, 25, 24, 25, 26, 27] + [28, 29, 28, 29, 30, 31, 32, 1]

  const PERMUTATION: seq<int> :=
    [16, 7, 20, 21, 29, 12, 28, 17] + [1, 15, 23, 26, 5, 18, 31, 10] +
    [2, 8, 24, 14, 32, 27, 3, 9] + [19, 13, 30, 6, 22, 11, 4, 25]

  const FP: seq<int> :=
    [40, 8, 48, 16, 56, 24, 64, 32] + [39, 7, 47, 15, 55, 23, 63, 31] +
    [38, 6, 46, 14, 54, 22, 62, 30] + [37, 5, 45, 13, 53, 21, 61, 29] +
    [36, 4, 44, 12, 52, 20, 60, 28] + [35, 3, 43, 11, 51, 19, 59, 27] +
    [34, 2, 42, 10, 50, 18, 58, 26] + [33, 1, 41, 9, 49, 17, 57, 25]

  const BOX0: seq<int> :=
    (([14, 4, 13, 1, 2, 15, 11, 8] + [3, 10, 6, 12, 5, 9, 0, 7]) +
     ([0, 15, 7, 4, 14, 2, 13, 1] + [10, 6, 12, 11, 9, 5, 3, 8])) +
    (([4, 1, 14, 8, 13, 6, 2, 11] + [15, 12, 9, 7, 3, 10, 5, 0]) +
     ([15, 12, 8, 2, 4, 9, 1, 7] + [5, 11, 3, 14, 10, 0, 6, 13]))

  const BOX1: seq<int> :=
    (([15, 1, 8, 14, 6, 11, 3, 4] + [9, 7, 2, 13, 12, 0, 5, 10]) +
     ([3, 13, 4, 7, 15, 2, 8, 14] + [12, 0, 1, 10, 6, 9, 11, 5])) +
    (([0, 14, 7, 11, 10, 4, 13, 1] + [5, 8, 12, 6, 9, 3, 2, 15]) +
     ([13, 8, 10, 1, 3, 15, 4, 2] + [11, 6, 7, 12, 0, 5, 14, 9]))

  const BOX2: seq<int> :=
    (([10, 0, 9, 14, 6, 3, 15, 5] + [1, 13, 12, 7, 11, 4, 2, 8]) +
     ([13, 7, 0, 9, 3, 4, 6, 10] + [2, 8, 5, 14, 12, 11, 15, 1])) +
    (([13, 6, 4, 9, 8, 15, 3, 0] + [11, 1, 2, 12, 5, 10, 14, 7]) +
     ([1, 10, 13, 0, 6, 9, 8, 7] + [4, 15, 14, 3, 11, 5, 2, 12]))

  const BOX3: seq<int> :=
    (([7, 13, 14, 3, 0, 6, 9, 10] + [1, 2, 8, 5, 11, 12, 4, 15]) +
     ([13, 8, 11, 5, 6, 15, 0, 3] + [4, 7, 2, 12, 1, 10, 14, 9])) +
    (([10, 6, 9, 0, 12, 11, 7, 13] + [15, 1, 3, 14, 5, 2, 8, 4]) +
     ([3, 15, 0, 6, 10, 1, 13, 8] + [9, 4, 5, 11, 12, 7, 2, 14]))

  const BOX4: seq<int> :=
    (([2, 12, 4, 1, 7, 10, 11, 6] + [8, 5, 3, 15, 13, 0, 14, 9]) +
     ([14, 11, 2, 12, 4, 7, 13, 1] + [5, 0, 15, 10, 3, 9, 8, 6])) +
    (([4, 2, 1, 11, 10, 13, 7, 8] + [15, 9, 12, 5, 6, 3, 0, 14]) +
     ([11, 8, 12, 7, 1, 14, 2, 13] + [6, 15, 0, 9, 10, 4, 5, 3]))

  const BOX5: seq<int> :=
    (([12, 1, 10, 15, 9, 2, 6, 8] + [0, 13, 3, 4, 14, 7, 5, 11]) +
     ([10, 15, 4, 2, 7, 12, 9, 5] + [6, 1, 13, 14, 0, 11, 3, 8])) +
    (([9, 14, 15, 5, 2, 8, 12, 3] + [7, 0, 4, 10, 1, 13, 11, 6]) +
     ([4, 3, 2, 12, 9, 5, 15, 10] + [11, 14, 1, 7, 6, 0, 8, 13]))

  const BOX6: seq<int> :=
    (([4, 11, 2, 14, 15, 0, 8, 13] + [3, 12, 9, 7, 5, 10, 6, 1]) +
     ([13, 0, 11, 7, 4, 9, 1, 10] + [14, 3, 5, 12, 2, 15, 8, 6])) +
    (([1, 4, 11, 13, 12, 3, 7, 14] + [10, 15, 6, 8, 0, 5, 9, 2]) +
     ([6, 11, 13, 8, 1, 4, 10, 7] + [9, 5, 0, 15, 14, 2, 3, 12]))

  const BOX7: seq<int> :=
    (([13, 2, 8, 4, 6, 15, 11, 1] + [10, 9, 3, 14, 5, 0, 12, 7]) +
     ([1, 15, 13, 8, 10, 3, 7, 4] + [12, 5, 6, 11, 0, 14, 9, 2])) +
    (([7, 11, 4, 1, 9, 12, 14, 2] + [0, 6, 10, 13, 15, 3, 5, 8]) +
     ([2, 1, 14, 7, 4, 10, 8, 13] + [15, 12, 9, 0, 3, 5, 6, 11]))

  const SBOX: seq<seq<int>> := [BOX0, BOX1, BOX2, BOX3, BOX4, BOX5, BOX6, BOX7]

  /** All entries name one of n bits, counted from 1. */
  ghost predicate Picks(table: seq<int>, n: int)
  {
    forall i :: 0 <= i < |table| ==> 1 <= table[i] <= n
  }

  lemma KeyTable()
    ensures |PC1| == 56 && Picks(PC1, 64)
  {
  }

  lemma RoundKeyTable()
    ensures |PC2| == 48 && Picks(PC2, 56)
  {
  }

  lemma ExpansionTable()
    ensures |EXPANSION| == 48 && Picks(EXPANSION, 32)
  {
  }

  lemma PermutationTable()
    ensures |PERMUTATION| == 32 && Picks(PERMUTATION, 32)
  {
  }

  lemma RotationTable()
    ensures |ROTATIONS| == 16
  {
  }

  lemma BoxTable(k: int)
    requires 0 <= k < 8
    ensures |SBOX| == 8 && |SBOX[k]| == 64
  {
  }

  /** FP puts back what IP moved, and IP what FP moved. */
  ghost predicate Undone(i: int)
  {
    && 0 <= i < 64 && |IP| == |FP| == 64 && 1 <= FP[i] <= 64 && 1 <= IP[i] <= 64
    && IP[FP[i] - 1] == i + 1 && FP[IP[i] - 1] == i + 1
  }

  ghost predicate Sixteen(a: int)
  {
    && Undone(a) && Undone(a + 1) && Undone(a + 2) && Undone(a + 3) && Undone(a + 4) && Undone(a + 5)
    && Undone(a + 6) && Undone(a + 7) && Undone(a + 8) && Undone(a + 9) && Undone(a + 10) && Undone(a + 11)
    && Undone(a + 12) && Undone(a + 13) && Undone(a + 14) && Undone(a + 15)
  }

  lemma UndoneQuarter0()
    ensures Sixteen(0)
  {
  }

  lemma UndoneQuarter1()
    ensures Sixteen(16)
  {
  }

  lemma UndoneQuarter2()
    ensures Sixteen(32)
  {
  }

  lemma UndoneQuarter3()
    ensures Sixteen(48)
  {
  }

  lemma UndoneIn(a: int, i: int)
    requires Sixteen(a) && a <= i < a + 16
    ensures Undone(i)
  {
    hide Undone;
    assert i == a || i == a + 1 || i == a + 2 || i == a + 3 || i == a + 4 || i == a + 5 || i == a + 6 || i == a + 7
      || i == a + 8 || i == a + 9 || i == a + 10 || i == a + 11 || i == a + 12 || i == a + 13
      || i == a + 14 || i == a + 15;
  }

  lemma FinalUndoesInitial(i: int)
    requires 0 <= i < 64
    ensures Undone(i)
  {
    hide Undone, Sixteen;
    UndoneQuarter0();
    UndoneQuarter1();
    UndoneQuarter2();
    UndoneQuarter3();
    UndoneIn(i / 16 * 16, i);
  }

  lemma OuterTables()
    ensures |IP| == |FP| == 64 && Picks(IP, 64) && Picks(FP, 64)
  {
    hide IP, FP;
    FinalUndoesInitial(0);
    forall i | 0 <= i < 64 ensures 1 <= FP[i] <= 64 && 1 <= IP[i] <= 64 {
      FinalUndoesInitial(i);
    }
  }

  // ----- permuting -----

  /** Bit i of the result is the bit the table's entry i names. */
  function Permuted(b: Bits, table: seq<int>): (r: Bits)
    requires Picks(table, |b|)
    ensures |r| == |table|
  {
    seq(|table|, i requires 0 <= i < |table| => b[table[i] - 1])
  }

  lemma InitialThenFinal(b: Bits)
    requires |b| == 64
    ensures |IP| == |FP| == 64 && Picks(IP, 64) && Picks(FP, 64)
    ensures Permuted(Permuted(b, IP), FP) == b && Permuted(Permuted(b, FP), IP) == b
  {
    OuterTables();
    hide IP, FP;
    var one, two := Permuted(Permuted(b, IP), FP), Permuted(Permuted(b, FP), IP);
    forall i | 0 <= i < 64 ensures one[i] == b[i] && two[i] == b[i] {
      FinalUndoesInitial(i);
    }
  }

  // ----- rounds -----

  function Xored(a: Bits, b: Bits): (r: Bits)
    requires |a| == |b|
    ensures |r| == |a|
  {
    seq(|a|, i requires 0 <= i < |a| => a[i] != b[i])
  }

  lemma XoredTwice(a: Bits, b: Bits)
    requires |a| == |b|
    ensures Xored(Xored(a, b), b) == a
  {
  }

  function Num(b: bool): (n: int)
    ensures 0 <= n <= 1
  {
    if b then 1 else 0
  }

  /** Where in a box its six bits point: the outer two choose the row, the inner four the column. */
  function Cell(b: Bits): (i: int)
    requires |b| == 6
    ensures 0 <= i < 64
  {
    var row, column := 2 * Num(b[0]) + Num(b[5]), 8 * Num(b[1]) + 4 * Num(b[2]) + 2 * Num(b[3]) + Num(b[4]);
    16 * row + column
  }

  /** What box k makes of its six bits. */
  function Box(k: int, b: Bits): int
    requires 0 <= k < 8 && |b| == 6
  {
    BoxTable(k);
    SBOX[k][Cell(b)]
  }

  /** Bit i, from the left, of a number of four bits. */
  function NibbleBit(x: int, i: int): bool
  {
    if i == 0 then x / 8 % 2 == 1 else if i == 1 then x / 4 % 2 == 1 else if i == 2 then x / 2 % 2 == 1 else x % 2 == 1
  }

  function BoxBit(b: Bits, x: int): bool
    requires |b| == 48 && 0 <= x < 32
  {
    NibbleBit(Box(x / 4, b[6 * (x / 4)..6 * (x / 4) + 6]), x % 4)
  }

  function Substituted(b: Bits): (r: Bits)
    requires |b| == 48
    ensures |r| == 32
  {
    seq(32, x requires 0 <= x < 32 => BoxBit(b, x))
  }

  function Scrambled(r: Bits, k: Bits): (s: Bits)
    requires |r| == 32 && |k| == 48
    ensures |s| == 32
  {
    ExpansionTable();
    PermutationTable();
    Permuted(Substituted(Xored(Permuted(r, EXPANSION), k)), PERMUTATION)
  }

  datatype Halves = Halves(l: Bits, r: Bits)

  predicate Full(h: Halves)
  {
    |h.l| == 32 && |h.r| == 32
  }

  predicate Keys(ks: seq<Bits>)
  {
    forall i :: 0 <= i < |ks| ==> |ks[i]| == 48
  }

  function Round(h: Halves, k: Bits): (g: Halves)
    requires Full(h) && |k| == 48
    ensures Full(g)
  {
    Halves(h.r, Xored(h.l, Scrambled(h.r, k)))
  }

  function Rounds(h: Halves, ks: seq<Bits>): (g: Halves)
    requires Full(h) && Keys(ks)
    ensures Full(g)
  {
    if ks == [] then h else Round(Rounds(h, ks[..|ks| - 1]), ks[|ks| - 1])
  }

  function Swap(h: Halves): Halves
  {
    Halves(h.r, h.l)
  }

  function Reversed(ks: seq<Bits>): (r: seq<Bits>)
    ensures |r| == |ks| && forall i :: 0 <= i < |ks| ==> r[i] == ks[|ks| - 1 - i]
  {
    if ks == [] then [] else [ks[|ks| - 1]] + Reversed(ks[..|ks| - 1])
  }

  lemma ReversedTwice(ks: seq<Bits>)
    ensures Reversed(Reversed(ks)) == ks
  {
  }

  lemma ReversedKeys(ks: seq<Bits>)
    requires Keys(ks)
    ensures Keys(Reversed(ks))
  {
  }

  /** A round, the halves swapped before and after, undoes itself, whatever the key. */
  lemma RoundUndone(h: Halves, k: Bits)
    requires Full(h) && |k| == 48
    ensures Swap(Round(Swap(Round(h, k)), k)) == h
  {
    hide Scrambled, Xored;
    XoredTwice(h.l, Scrambled(h.r, k));
  }

  /** The first round may be taken first. */
  lemma {:induction false} RoundsFirst(h: Halves, k: Bits, ks: seq<Bits>)
    requires Full(h) && |k| == 48 && Keys(ks)
    ensures Keys([k] + ks) && Rounds(h, [k] + ks) == Rounds(Round(h, k), ks)
    decreases |ks|
  {
    var all := [k] + ks;
    hide Round;
    if ks == [] {
      assert all[..0] == [] && all == [k];
    } else {
      var n := |ks| - 1;
      assert all[..|all| - 1] == [k] + ks[..n] && all[|all| - 1] == ks[n];
      RoundsFirst(h, k, ks[..n]);
    }
  }

  /** All the rounds with the keys in reverse undo all the rounds. */
  lemma {:induction false} RoundsUndone(h: Halves, ks: seq<Bits>)
    requires Full(h) && Keys(ks)
    ensures Keys(Reversed(ks)) && Rounds(Swap(Rounds(h, ks)), Reversed(ks)) == Swap(h)
    decreases |ks|
  {
    ReversedKeys(ks);
    hide Round;
    if ks != [] {
      var n := |ks| - 1;
      var rest, k := ks[..n], ks[n];
      RoundsUndone(h, rest);
      RoundUndone(Rounds(h, rest), k);
      RoundsFirst(Swap(Rounds(h, ks)), k, Reversed(rest));
    }
  }

  // ----- the cipher -----

  /** Initial permutation, a round for each key, final permutation of the swapped halves. */
  function Enciphered(b: Bits, ks: seq<Bits>): (c: Bits)
    requires |b| == 64 && Keys(ks)
    ensures |c| == 64
  {
    OuterTables();
    var p := Permuted(b, IP);
    var h := Rounds(Halves(p[..32], p[32..]), ks);
    Permuted(h.r + h.l, FP)
  }

  /** The same with the keys in reverse. */
  function Deciphered(c: Bits, ks: seq<Bits>): (b: Bits)
    requires |c| == 64 && Keys(ks)
    ensures |b| == 64
  {
    ReversedKeys(ks);
    Enciphered(c, Reversed(ks))
  }

  /** For every key schedule deciphering undoes enciphering. */
  lemma DecipherEncipher(b: Bits, ks: seq<Bits>)
    requires |b| == 64 && Keys(ks)
    ensures Deciphered(Enciphered(b, ks), ks) == b
  {
    hide IP, FP, Round, Permuted, Reversed;
    OuterTables();
    ReversedKeys(ks);
    var p := Permuted(b, IP);
    var h := Halves(p[..32], p[32..]);
    var g := Rounds(h, ks);
    InitialThenFinal(g.r + g.l);
    var q := g.r + g.l;
    assert Halves(q[..32], q[32..]) == Swap(g);
    RoundsUndone(h, ks);
    assert Swap(h).r + Swap(h).l == p;
    InitialThenFinal(b);
  }

  lemma EncipherDecipher(c: Bits, ks: seq<Bits>)
    requires |c| == 64 && Keys(ks)
    ensures Enciphered(Deciphered(c, ks), ks) == c
  {
    ReversedKeys(ks);
    ReversedTwice(ks);
    hide Enciphered, Reversed;
    DecipherEncipher(c, Reversed(ks));
  }

  /** So the cipher is a bijection of 64-bit blocks. */
  lemma Bijection(ks: seq<Bits>)
    requires Keys(ks)
    ensures forall b, c :: |b| == 64 && |c| == 64 && Enciphered(b, ks) == Enciphered(c, ks) ==> b == c
    ensures forall c: Bits :: |c| == 64 ==> exists b: Bits :: |b| == 64 && Enciphered(b, ks) == c
  {
    hide Enciphered, Deciphered;
    forall b, c | |b| == 64 && |c| == 64 && Enciphered(b, ks) == Enciphered(c, ks) ensures b == c {
      DecipherEncipher(b, ks);
      DecipherEncipher(c, ks);
    }
    forall c: Bits | |c| == 64 ensures exists b: Bits :: |b| == 64 && Enciphered(b, ks) == c {
      EncipherDecipher(c, ks);
    }
  }

  // ----- the key schedule -----

  function Rotated(c: Bits, n: int): (r: Bits)
    requires 0 <= n <= |c|
    ensures |r| == |c|
  {
    c[n..] + c[..n]
  }

  /** By how much the halves of the key have been rotated after i steps. */
  function Turned(i: int): (n: int)
    requires 0 <= i <= 16
    ensures i <= n <= 2 * i
  {
    RotationTable();
    if i == 0 then 0 else (if ROTATIONS[i - 1] == 1 then 1 else 2) + Turned(i - 1)
  }

  /** Sixteen steps are one whole turn. */
  lemma WholeTurn()
    ensures Turned(16) == 28
  {
    assert Turned(4) == 6 && Turned(8) == 14 && Turned(12) == 21;
  }

  function KeyBits(key: Bits): (k: Bits)
    requires |key| == 64
    ensures |k| == 56
  {
    KeyTable();
    Permuted(key, PC1)
  }

  /** C and D after i steps. */
  function HalfKey(key: Bits, i: int, left: bool): (c: Bits)
    requires |key| == 64 && 0 <= i <= 16
    ensures |c| == 28
  {
    WholeTurn();
    TurnedBelow(i);
    Rotated(if left then KeyBits(key)[..28] else KeyBits(key)[28..], Turned(i))
  }

  lemma {:induction false} TurnedBelow(i: int)
    requires 0 <= i <= 16
    ensures 0 <= Turned(i) <= Turned(16)
    decreases 16 - i
  {
    hide ROTATIONS;
    if i < 16 {
      TurnedBelow(i + 1);
    }
  }

  lemma RotatedTwice(c: Bits, n: int, m: int)
    requires 0 <= n && 0 <= m && n + m <= |c|
    ensures Rotated(Rotated(c, n), m) == Rotated(c, n + m)
  {
    var d := c[n..] + c[..n];
    assert d[m..] == c[n + m..] + c[..n];
    assert d[..m] == c[n..n + m];
    assert c[..n] + c[n..n + m] == c[..n + m];
  }

  lemma HalfKeyNext(key: Bits, i: int, left: bool)
    requires |key| == 64 && 0 <= i < 16
    ensures |ROTATIONS| == 16
    ensures HalfKey(key, i + 1, left) == Rotated(HalfKey(key, i, left), if ROTATIONS[i] == 1 then 1 else 2)
  {
    hide PC1, ROTATIONS;
    RotationTable();
    WholeTurn();
    TurnedBelow(i + 1);
    var c := if left then KeyBits(key)[..28] else KeyBits(key)[28..];
    RotatedTwice(c, Turned(i), if ROTATIONS[i] == 1 then 1 else 2);
  }

  lemma HalfKeyFirst(key: Bits)
    requires |key| == 64
    ensures HalfKey(key, 0, true) == KeyBits(key)[..28] && HalfKey(key, 0, false) == KeyBits(key)[28..]
  {
    hide PC1, ROTATIONS;
  }

  function RoundKey(key: Bits, i: int): (k: Bits)
    requires |key| == 64 && 1 <= i <= 16
    ensures |k| == 48
  {
    RoundKeyTable();
    Permuted(HalfKey(key, i, true) + HalfKey(key, i, false), PC2)
  }

  /** The first n round keys. */
  function RoundKeys(key: Bits, n: int): (ks: seq<Bits>)
    requires |key| == 64 && 0 <= n <= 16
    ensures |ks| == n && Keys(ks)
  {
    if n == 0 then [] else RoundKeys(key, n - 1) + [RoundKey(key, n)]
  }

  /** The last step brings both halves back to where they started. */
  lemma FullCircle(key: Bits, left: bool)
    requires |key| == 64
    ensures HalfKey(key, 16, left) == HalfKey(key, 0, left)
  {
    hide PC1, ROTATIONS;
    WholeTurn();
  }
}
