/** The cipher's steps on numbers, and that each is the step of the cipher on the bits of the numbers. */
module DesNumbers {
  import opened Des

  // ----- numbers as bits -----

  /** 64 bits. */
  datatype Number = Number(v: bv64)

  /** A number from byte q, counted from the right, upwards. */
  function Part(n: Number, q: int): Number
  {
    Number(
      if q == 0 then n.v else if q == 1 then n.v >> 8 else if q == 2 then n.v >> 16 else if q == 3 then n.v >> 24
      else if q == 4 then n.v >> 32 else if q == 5 then n.v >> 40 else if q == 6 then n.v >> 48 else n.v >> 56)
  }

  /** Bit r of the lowest byte. */
  predicate Low(n: Number, r: int)
  {
    if r == 0 then n.v & 1 != 0 else if r == 1 then n.v & 2 != 0
    else if r == 2 then n.v & 4 != 0 else if r == 3 then n.v & 8 != 0
    else if r == 4 then n.v & 16 != 0 else if r == 5 then n.v & 32 != 0
    else if r == 6 then n.v & 64 != 0 else n.v & 128 != 0
  }

  predicate Bit(n: Number, p: int)
  {
    Low(Part(n, p / 8), p % 8)
  }

  /** The lowest w bits of a number, from the left. */
  function Word(n: Number, w: nat): (b: Bits)
    ensures |b| == w
  {
    seq(w, i => Bit(n, w - 1 - i))
  }

  lemma Byte0(x: bv64)
    ensures (Bit(Number(x), 0) <==> x & 0x1 != 0) && (Bit(Number(x), 1) <==> x & 0x2 != 0)
    ensures (Bit(Number(x), 2) <==> x & 0x4 != 0) && (Bit(Number(x), 3) <==> x & 0x8 != 0)
    ensures (Bit(Number(x), 4) <==> x & 0x10 != 0) && (Bit(Number(x), 5) <==> x & 0x20 != 0)
    ensures (Bit(Number(x), 6) <==> x & 0x40 != 0) && (Bit(Number(x), 7) <==> x & 0x80 != 0)
  {
  }

  lemma Byte1(x: bv64)
    ensures (Bit(Number(x), 8) <==> x & 0x100 != 0) && (Bit(Number(x), 9) <==> x & 0x200 != 0)
    ensures (Bit(Number(x), 10) <==> x & 0x400 != 0) && (Bit(Number(x), 11) <==> x & 0x800 != 0)
    ensures (Bit(Number(x), 12) <==> x & 0x1000 != 0) && (Bit(Number(x), 13) <==> x & 0x2000 != 0)
    ensures (Bit(Number(x), 14) <==> x & 0x4000 != 0) && (Bit(Number(x), 15) <==> x & 0x8000 != 0)
  {
  }

  lemma Byte2(x: bv64)
    ensures (Bit(Number(x), 16) <==> x & 0x10000 != 0) && (Bit(Number(x), 17) <==> x & 0x20000 != 0)
    ensures (Bit(Number(x), 18) <==> x & 0x40000 != 0) && (Bit(Number(x), 19) <==> x & 0x80000 != 0)
    ensures (Bit(Number(x), 20) <==> x & 0x100000 != 0) && (Bit(Number(x), 21) <==> x & 0x200000 != 0)
    ensures (Bit(Number(x), 22) <==> x & 0x400000 != 0) && (Bit(Number(x), 23) <==> x & 0x800000 != 0)
  {
  }

  lemma Byte3(x: bv64)
    ensures (Bit(Number(x), 24) <==> x & 0x1000000 != 0) && (Bit(Number(x), 25) <==> x & 0x2000000 != 0)
    ensures (Bit(Number(x), 26) <==> x & 0x4000000 != 0) && (Bit(Number(x), 27) <==> x & 0x8000000 != 0)
    ensures (Bit(Number(x), 28) <==> x & 0x10000000 != 0) && (Bit(Number(x), 29) <==> x & 0x20000000 != 0)
    ensures (Bit(Number(x), 30) <==> x & 0x40000000 != 0) && (Bit(Number(x), 31) <==> x & 0x80000000 != 0)
  {
  }

  lemma Byte4(x: bv64)
    ensures (Bit(Number(x), 32) <==> x & 0x100000000 != 0) && (Bit(Number(x), 33) <==> x & 0x200000000 != 0)
    ensures (Bit(Number(x), 34) <==> x & 0x400000000 != 0) && (Bit(Number(x), 35) <==> x & 0x800000000 != 0)
    ensures (Bit(Number(x), 36) <==> x & 0x1000000000 != 0) && (Bit(Number(x), 37) <==> x & 0x2000000000 != 0)
    ensures (Bit(Number(x), 38) <==> x & 0x4000000000 != 0) && (Bit(Number(x), 39) <==> x & 0x8000000000 != 0)
  {
  }

  lemma Byte5(x: bv64)
    ensures (Bit(Number(x), 40) <==> x & 0x10000000000 != 0) && (Bit(Number(x), 41) <==> x & 0x20000000000 != 0)
    ensures (Bit(Number(x), 42) <==> x & 0x40000000000 != 0) && (Bit(Number(x), 43) <==> x & 0x80000000000 != 0)
    ensures (Bit(Number(x), 44) <==> x & 0x100000000000 != 0) && (Bit(Number(x), 45) <==> x & 0x200000000000 != 0)
    ensures (Bit(Number(x), 46) <==> x & 0x400000000000 != 0) && (Bit(Number(x), 47) <==> x & 0x800000000000 != 0)
  {
  }

  lemma Byte6(x: bv64)
    ensures (Bit(Number(x), 48) <==> x & 0x1000000000000 != 0) && (Bit(Number(x), 49) <==> x & 0x2000000000000 != 0)
    ensures (Bit(Number(x), 50) <==> x & 0x4000000000000 != 0) && (Bit(Number(x), 51) <==> x & 0x8000000000000 != 0)
    ensures (Bit(Number(x), 52) <==> x & 0x10000000000000 != 0) && (Bit(Number(x), 53) <==> x & 0x20000000000000 != 0)
    ensures (Bit(Number(x), 54) <==> x & 0x40000000000000 != 0) && (Bit(Number(x), 55) <==> x & 0x80000000000000 != 0)
  {
  }

  lemma Byte7(x: bv64)
    ensures (Bit(Number(x), 56) <==> x & 0x100000000000000 != 0) && (Bit(Number(x), 57) <==> x & 0x200000000000000 != 0)
    ensures (Bit(Number(x), 58) <==> x & 0x400000000000000 != 0) && (Bit(Number(x), 59) <==> x & 0x800000000000000 != 0)
    ensures (Bit(Number(x), 60) <==> x & 0x1000000000000000 != 0) &&
      (Bit(Number(x), 61) <==> x & 0x2000000000000000 != 0)
    ensures (Bit(Number(x), 62) <==> x & 0x4000000000000000 != 0) &&
      (Bit(Number(x), 63) <==> x & 0x8000000000000000 != 0)
  {
  }

  // ----- permutations -----

  /** Bit i of m, from the left, is the bit of n that the table names. */
  ghost predicate Moved(n: Number, w: int, table: seq<int>, m: Number, i: int)
    requires 0 <= i < |table|
  {
    Bit(m, |table| - 1 - i) == Bit(n, w - table[i])
  }

  ghost predicate MovedEight(n: Number, w: int, table: seq<int>, m: Number, a: int)
  {
    && 0 <= a && a + 8 <= |table|
    && Moved(n, w, table, m, a) && Moved(n, w, table, m, a + 1) && Moved(n, w, table, m, a + 2)
    && Moved(n, w, table, m, a + 3) && Moved(n, w, table, m, a + 4) && Moved(n, w, table, m, a + 5)
    && Moved(n, w, table, m, a + 6) && Moved(n, w, table, m, a + 7)
  }

  ghost predicate Row(table: seq<int>, a: int, t0: int, t1: int, t2: int, t3: int, t4: int, t5: int, t6: int, t7: int)
  {
    && 0 <= a && a + 8 <= |table| && table[a] == t0 && table[a + 1] == t1 && table[a + 2] == t2 && table[a + 3] == t3
    && table[a + 4] == t4 && table[a + 5] == t5 && table[a + 6] == t6 && table[a + 7] == t7
  }

  /** Eight bits of m from the left, from bit a on, are those bits of n. */
  ghost predicate Copied(n: Number, w: int, m: Number, u: int, a: int, t0: int, t1: int, t2: int, t3: int, t4: int,
                         t5: int, t6: int, t7: int)
  {
    && Bit(m, u - 1 - a) == Bit(n, w - t0) && Bit(m, u - 2 - a) == Bit(n, w - t1)
    && Bit(m, u - 3 - a) == Bit(n, w - t2) && Bit(m, u - 4 - a) == Bit(n, w - t3)
    && Bit(m, u - 5 - a) == Bit(n, w - t4) && Bit(m, u - 6 - a) == Bit(n, w - t5)
    && Bit(m, u - 7 - a) == Bit(n, w - t6) && Bit(m, u - 8 - a) == Bit(n, w - t7)
  }

  lemma CopiedMoves(n: Number, w: int, table: seq<int>, m: Number, a: int, t0: int, t1: int, t2: int, t3: int, t4: int,
                    t5: int, t6: int, t7: int)
    requires Row(table, a, t0, t1, t2, t3, t4, t5, t6, t7)
    requires Copied(n, w, m, |table|, a, t0, t1, t2, t3, t4, t5, t6, t7)
    ensures MovedEight(n, w, table, m, a)
  {
    hide Bit;
  }

  lemma MovedOne(n: Number, w: int, table: seq<int>, m: Number, i: int)
    requires 0 <= i < |table| && MovedEight(n, w, table, m, i / 8 * 8)
    ensures Moved(n, w, table, m, i)
  {
    hide Moved;
    var j := i % 8;
    assert j == 0 || j == 1 || j == 2 || j == 3 || j == 4 || j == 5 || j == 6 || j == 7;
  }

  lemma PermutedWord(n: Number, w: nat, table: seq<int>, m: Number)
    requires Picks(table, w)
    requires forall i :: 0 <= i < |table| ==> MovedEight(n, w, table, m, i / 8 * 8)
    ensures Permuted(Word(n, w), table) == Word(m, |table|)
  {
    hide Bit, MovedEight;
    forall i | 0 <= i < |table| ensures Permuted(Word(n, w), table)[i] == Word(m, |table|)[i] {
      MovedOne(n, w, table, m, i);
    }
  }

  /** The permutation after the boxes. */
  function Mixed(x: bv64): bv64
  {
    (((x >> 16) & 1) << 31) | (((x >> 25) & 1) << 30) | (((x >> 12) & 1) << 29) | (((x >> 11) & 1) << 28) |
    (((x >> 3) & 1) << 27) | (((x >> 20) & 1) << 26) | (((x >> 4) & 1) << 25) | (((x >> 15) & 1) << 24) |
    (((x >> 31) & 1) << 23) | (((x >> 17) & 1) << 22) | (((x >> 9) & 1) << 21) | (((x >> 6) & 1) << 20) |
    (((x >> 27) & 1) << 19) | (((x >> 14) & 1) << 18) | (((x >> 1) & 1) << 17) | (((x >> 22) & 1) << 16) |
    (((x >> 30) & 1) << 15) | (((x >> 24) & 1) << 14) | (((x >> 8) & 1) << 13) | (((x >> 18) & 1) << 12) |
    (((x >> 0) & 1) << 11) | (((x >> 5) & 1) << 10) | (((x >> 29) & 1) << 9) | (((x >> 23) & 1) << 8) |
    (((x >> 13) & 1) << 7) | (((x >> 19) & 1) << 6) | (((x >> 2) & 1) << 5) | (((x >> 26) & 1) << 4) |
    (((x >> 10) & 1) << 3) | (((x >> 21) & 1) << 2) | (((x >> 28) & 1) << 1) | ((x >> 7) & 1)
  }

  lemma MixedRaw(x: bv64)
    ensures (Mixed(x) & 0x80000000 != 0 <==> x & 0x10000 != 0) && (Mixed(x) & 0x40000000 != 0 <==> x & 0x2000000 != 0)
    ensures (Mixed(x) & 0x20000000 != 0 <==> x & 0x1000 != 0) && (Mixed(x) & 0x10000000 != 0 <==> x & 0x800 != 0)
    ensures (Mixed(x) & 0x8000000 != 0 <==> x & 0x8 != 0) && (Mixed(x) & 0x4000000 != 0 <==> x & 0x100000 != 0)
    ensures (Mixed(x) & 0x2000000 != 0 <==> x & 0x10 != 0) && (Mixed(x) & 0x1000000 != 0 <==> x & 0x8000 != 0)
    ensures (Mixed(x) & 0x800000 != 0 <==> x & 0x80000000 != 0) && (Mixed(x) & 0x400000 != 0 <==> x & 0x20000 != 0)
    ensures (Mixed(x) & 0x200000 != 0 <==> x & 0x200 != 0) && (Mixed(x) & 0x100000 != 0 <==> x & 0x40 != 0)
    ensures (Mixed(x) & 0x80000 != 0 <==> x & 0x8000000 != 0) && (Mixed(x) & 0x40000 != 0 <==> x & 0x4000 != 0)
    ensures (Mixed(x) & 0x20000 != 0 <==> x & 0x2 != 0) && (Mixed(x) & 0x10000 != 0 <==> x & 0x400000 != 0)
    ensures (Mixed(x) & 0x8000 != 0 <==> x & 0x40000000 != 0) && (Mixed(x) & 0x4000 != 0 <==> x & 0x1000000 != 0)
    ensures (Mixed(x) & 0x2000 != 0 <==> x & 0x100 != 0) && (Mixed(x) & 0x1000 != 0 <==> x & 0x40000 != 0)
    ensures (Mixed(x) & 0x800 != 0 <==> x & 0x1 != 0) && (Mixed(x) & 0x400 != 0 <==> x & 0x20 != 0)
    ensures (Mixed(x) & 0x200 != 0 <==> x & 0x20000000 != 0) && (Mixed(x) & 0x100 != 0 <==> x & 0x800000 != 0)
    ensures (Mixed(x) & 0x80 != 0 <==> x & 0x2000 != 0) && (Mixed(x) & 0x40 != 0 <==> x & 0x80000 != 0)
    ensures (Mixed(x) & 0x20 != 0 <==> x & 0x4 != 0) && (Mixed(x) & 0x10 != 0 <==> x & 0x4000000 != 0)
    ensures (Mixed(x) & 0x8 != 0 <==> x & 0x400 != 0) && (Mixed(x) & 0x4 != 0 <==> x & 0x200000 != 0)
    ensures (Mixed(x) & 0x2 != 0 <==> x & 0x10000000 != 0) && (Mixed(x) & 0x1 != 0 <==> x & 0x80 != 0)
  {
  }

  lemma MixedCopies0(x: bv64)
    ensures Copied(Number(x), 32, Number(Mixed(x)), 32, 0, 16, 7, 20, 21, 29, 12, 28, 17)
    ensures Copied(Number(x), 32, Number(Mixed(x)), 32, 8, 1, 15, 23, 26, 5, 18, 31, 10)
    ensures Copied(Number(x), 32, Number(Mixed(x)), 32, 16, 2, 8, 24, 14, 32, 27, 3, 9)
  {
    MixedRaw(x);
    Byte0(x); Byte1(x); Byte2(x); Byte3(x); Byte1(Mixed(x)); Byte2(Mixed(x)); Byte3(Mixed(x));
    hide Bit, Mixed;
  }

  lemma MixedCopies24(x: bv64)
    ensures Copied(Number(x), 32, Number(Mixed(x)), 32, 24, 19, 13, 30, 6, 22, 11, 4, 25)
  {
    MixedRaw(x);
    Byte0(x); Byte1(x); Byte2(x); Byte3(x); Byte0(Mixed(x));
    hide Bit, Mixed;
  }

  lemma MixedRow0()
    ensures Row(PERMUTATION, 0, 16, 7, 20, 21, 29, 12, 28, 17)
  {
  }

  lemma MixedRow8()
    ensures Row(PERMUTATION, 8, 1, 15, 23, 26, 5, 18, 31, 10)
  {
  }

  lemma MixedRow16()
    ensures Row(PERMUTATION, 16, 2, 8, 24, 14, 32, 27, 3, 9)
  {
  }

  lemma MixedRow24()
    ensures Row(PERMUTATION, 24, 19, 13, 30, 6, 22, 11, 4, 25)
  {
  }

  lemma MixedWord(x: bv64)
    ensures |PERMUTATION| == 32 && Picks(PERMUTATION, 32) &&
      Permuted(Word(Number(x), 32), PERMUTATION) == Word(Number(Mixed(x)), 32)
  {
    hide Bit, Mixed, MovedEight, Row, Copied, PERMUTATION, Word;
    PermutationTable();
    MixedCopies0(x); MixedCopies24(x);
    MixedRow0();
    CopiedMoves(Number(x), 32, PERMUTATION, Number(Mixed(x)), 0, 16, 7, 20, 21, 29, 12, 28, 17);
    MixedRow8();
    CopiedMoves(Number(x), 32, PERMUTATION, Number(Mixed(x)), 8, 1, 15, 23, 26, 5, 18, 31, 10);
    MixedRow16();
    CopiedMoves(Number(x), 32, PERMUTATION, Number(Mixed(x)), 16, 2, 8, 24, 14, 32, 27, 3, 9);
    MixedRow24();
    CopiedMoves(Number(x), 32, PERMUTATION, Number(Mixed(x)), 24, 19, 13, 30, 6, 22, 11, 4, 25);
    PermutedWord(Number(x), 32, PERMUTATION, Number(Mixed(x)));
  }

  /** The half with the bits that neighbouring boxes share written twice. */
  function Expanded(x: bv64): bv64
  {
    ((x & 1) << 47) | ((x & 0xF800_0000) << 15) | ((x & 0x1F80_0000) << 13) | ((x & 0x01F8_0000) << 11) |
    ((x & 0x001F_8000) << 9) | ((x & 0x0001_F800) << 7) | ((x & 0x0000_1F80) << 5) | ((x & 0x0000_01F8) << 3) |
    ((x & 0x0000_001F) << 1) | ((x & 0x8000_0000) >> 31)
  }

  lemma ExpandedRaw(x: bv64)
    ensures (Expanded(x) & 0x800000000000 != 0 <==> x & 0x1 != 0) &&
      (Expanded(x) & 0x400000000000 != 0 <==> x & 0x80000000 != 0)
    ensures (Expanded(x) & 0x200000000000 != 0 <==> x & 0x40000000 != 0) &&
      (Expanded(x) & 0x100000000000 != 0 <==> x & 0x20000000 != 0)
    ensures (Expanded(x) & 0x80000000000 != 0 <==> x & 0x10000000 != 0) &&
      (Expanded(x) & 0x40000000000 != 0 <==> x & 0x8000000 != 0)
    ensures (Expanded(x) & 0x20000000000 != 0 <==> x & 0x10000000 != 0) &&
      (Expanded(x) & 0x10000000000 != 0 <==> x & 0x8000000 != 0)
    ensures (Expanded(x) & 0x8000000000 != 0 <==> x & 0x4000000 != 0) &&
      (Expanded(x) & 0x4000000000 != 0 <==> x & 0x2000000 != 0)
    ensures (Expanded(x) & 0x2000000000 != 0 <==> x & 0x1000000 != 0) &&
      (Expanded(x) & 0x1000000000 != 0 <==> x & 0x800000 != 0)
    ensures (Expanded(x) & 0x800000000 != 0 <==> x & 0x1000000 != 0) &&
      (Expanded(x) & 0x400000000 != 0 <==> x & 0x800000 != 0)
    ensures (Expanded(x) & 0x200000000 != 0 <==> x & 0x400000 != 0) &&
      (Expanded(x) & 0x100000000 != 0 <==> x & 0x200000 != 0)
    ensures (Expanded(x) & 0x80000000 != 0 <==> x & 0x100000 != 0) &&
      (Expanded(x) & 0x40000000 != 0 <==> x & 0x80000 != 0)
    ensures (Expanded(x) & 0x20000000 != 0 <==> x & 0x100000 != 0) &&
      (Expanded(x) & 0x10000000 != 0 <==> x & 0x80000 != 0)
    ensures (Expanded(x) & 0x8000000 != 0 <==> x & 0x40000 != 0) && (Expanded(x) & 0x4000000 != 0 <==> x & 0x20000 != 0)
    ensures (Expanded(x) & 0x2000000 != 0 <==> x & 0x10000 != 0) && (Expanded(x) & 0x1000000 != 0 <==> x & 0x8000 != 0)
    ensures (Expanded(x) & 0x800000 != 0 <==> x & 0x10000 != 0) && (Expanded(x) & 0x400000 != 0 <==> x & 0x8000 != 0)
    ensures (Expanded(x) & 0x200000 != 0 <==> x & 0x4000 != 0) && (Expanded(x) & 0x100000 != 0 <==> x & 0x2000 != 0)
    ensures (Expanded(x) & 0x80000 != 0 <==> x & 0x1000 != 0) && (Expanded(x) & 0x40000 != 0 <==> x & 0x800 != 0)
    ensures (Expanded(x) & 0x20000 != 0 <==> x & 0x1000 != 0) && (Expanded(x) & 0x10000 != 0 <==> x & 0x800 != 0)
    ensures (Expanded(x) & 0x8000 != 0 <==> x & 0x400 != 0) && (Expanded(x) & 0x4000 != 0 <==> x & 0x200 != 0)
    ensures (Expanded(x) & 0x2000 != 0 <==> x & 0x100 != 0) && (Expanded(x) & 0x1000 != 0 <==> x & 0x80 != 0)
    ensures (Expanded(x) & 0x800 != 0 <==> x & 0x100 != 0) && (Expanded(x) & 0x400 != 0 <==> x & 0x80 != 0)
    ensures (Expanded(x) & 0x200 != 0 <==> x & 0x40 != 0) && (Expanded(x) & 0x100 != 0 <==> x & 0x20 != 0)
    ensures (Expanded(x) & 0x80 != 0 <==> x & 0x10 != 0) && (Expanded(x) & 0x40 != 0 <==> x & 0x8 != 0)
    ensures (Expanded(x) & 0x20 != 0 <==> x & 0x10 != 0) && (Expanded(x) & 0x10 != 0 <==> x & 0x8 != 0)
    ensures (Expanded(x) & 0x8 != 0 <==> x & 0x4 != 0) && (Expanded(x) & 0x4 != 0 <==> x & 0x2 != 0)
    ensures (Expanded(x) & 0x2 != 0 <==> x & 0x1 != 0) && (Expanded(x) & 0x1 != 0 <==> x & 0x80000000 != 0)
  {
  }

  lemma ExpandedCopies0(x: bv64)
    ensures Copied(Number(x), 32, Number(Expanded(x)), 48, 0, 32, 1, 2, 3, 4, 5, 4, 5)
    ensures Copied(Number(x), 32, Number(Expanded(x)), 48, 8, 6, 7, 8, 9, 8, 9, 10, 11)
    ensures Copied(Number(x), 32, Number(Expanded(x)), 48, 16, 12, 13, 12, 13, 14, 15, 16, 17)
  {
    ExpandedRaw(x);
    Byte0(x); Byte1(x); Byte2(x); Byte3(x); Byte3(Expanded(x)); Byte4(Expanded(x)); Byte5(Expanded(x));
    hide Bit, Expanded;
  }

  lemma ExpandedCopies24(x: bv64)
    ensures Copied(Number(x), 32, Number(Expanded(x)), 48, 24, 16, 17, 18, 19, 20, 21, 20, 21)
    ensures Copied(Number(x), 32, Number(Expanded(x)), 48, 32, 22, 23, 24, 25, 24, 25, 26, 27)
    ensures Copied(Number(x), 32, Number(Expanded(x)), 48, 40, 28, 29, 28, 29, 30, 31, 32, 1)
  {
    ExpandedRaw(x);
    Byte0(x); Byte1(x); Byte2(x); Byte3(x); Byte0(Expanded(x)); Byte1(Expanded(x)); Byte2(Expanded(x));
    hide Bit, Expanded;
  }

  lemma ExpandedRow0()
    ensures Row(EXPANSION, 0, 32, 1, 2, 3, 4, 5, 4, 5)
  {
  }

  lemma ExpandedRow8()
    ensures Row(EXPANSION, 8, 6, 7, 8, 9, 8, 9, 10, 11)
  {
  }

  lemma ExpandedRow16()
    ensures Row(EXPANSION, 16, 12, 13, 12, 13, 14, 15, 16, 17)
  {
  }

  lemma ExpandedRow24()
    ensures Row(EXPANSION, 24, 16, 17, 18, 19, 20, 21, 20, 21)
  {
  }

  lemma ExpandedRow32()
    ensures Row(EXPANSION, 32, 22, 23, 24, 25, 24, 25, 26, 27)
  {
  }

  lemma ExpandedRow40()
    ensures Row(EXPANSION, 40, 28, 29, 28, 29, 30, 31, 32, 1)
  {
  }

  lemma ExpandedWord(x: bv64)
    ensures |EXPANSION| == 48 && Picks(EXPANSION, 32) &&
      Permuted(Word(Number(x), 32), EXPANSION) == Word(Number(Expanded(x)), 48)
  {
    hide Bit, Expanded, MovedEight, Row, Copied, EXPANSION, Word;
    ExpansionTable();
    ExpandedCopies0(x); ExpandedCopies24(x);
    ExpandedRow0();
    CopiedMoves(Number(x), 32, EXPANSION, Number(Expanded(x)), 0, 32, 1, 2, 3, 4, 5, 4, 5);
    ExpandedRow8();
    CopiedMoves(Number(x), 32, EXPANSION, Number(Expanded(x)), 8, 6, 7, 8, 9, 8, 9, 10, 11);
    ExpandedRow16();
    CopiedMoves(Number(x), 32, EXPANSION, Number(Expanded(x)), 16, 12, 13, 12, 13, 14, 15, 16, 17);
    ExpandedRow24();
    CopiedMoves(Number(x), 32, EXPANSION, Number(Expanded(x)), 24, 16, 17, 18, 19, 20, 21, 20, 21);
    ExpandedRow32();
    CopiedMoves(Number(x), 32, EXPANSION, Number(Expanded(x)), 32, 22, 23, 24, 25, 24, 25, 26, 27);
    ExpandedRow40();
    CopiedMoves(Number(x), 32, EXPANSION, Number(Expanded(x)), 40, 28, 29, 28, 29, 30, 31, 32, 1);
    PermutedWord(Number(x), 32, EXPANSION, Number(Expanded(x)));
  }

  /** The key of a round. */
  function Selected(x: bv64): bv64
  {
    (((x >> 42) & 1) << 47) | (((x >> 39) & 1) << 46) | (x & 0x200000000000) | (((x >> 32) & 1) << 44) |
    (((x >> 55) & 1) << 43) | (((x >> 51) & 1) << 42) | (((x >> 53) & 1) << 41) | (((x >> 28) & 1) << 40) |
    (((x >> 41) & 1) << 39) | (((x >> 50) & 1) << 38) | (((x >> 35) & 1) << 37) | (((x >> 46) & 1) << 36) |
    (((x >> 33) & 1) << 35) | (((x >> 37) & 1) << 34) | (((x >> 44) & 1) << 33) | (((x >> 52) & 1) << 32) |
    (((x >> 30) & 1) << 31) | (((x >> 48) & 1) << 30) | (((x >> 40) & 1) << 29) | (((x >> 49) & 1) << 28) |
    (((x >> 29) & 1) << 27) | (((x >> 36) & 1) << 26) | (((x >> 43) & 1) << 25) | (((x >> 54) & 1) << 24) |
    (((x >> 15) & 1) << 23) | (((x >> 4) & 1) << 22) | (((x >> 25) & 1) << 21) | (((x >> 19) & 1) << 20) |
    (((x >> 9) & 1) << 19) | (((x >> 1) & 1) << 18) | (((x >> 26) & 1) << 17) | (x & 0x10000) |
    (((x >> 5) & 1) << 15) | (((x >> 11) & 1) << 14) | (((x >> 23) & 1) << 13) | (((x >> 8) & 1) << 12) |
    (((x >> 12) & 1) << 11) | (((x >> 7) & 1) << 10) | (((x >> 17) & 1) << 9) | (((x >> 0) & 1) << 8) |
    (((x >> 22) & 1) << 7) | (((x >> 3) & 1) << 6) | (((x >> 10) & 1) << 5) | (((x >> 14) & 1) << 4) |
    (((x >> 6) & 1) << 3) | (((x >> 20) & 1) << 2) | (((x >> 27) & 1) << 1) | ((x >> 24) & 1)
  }

  lemma SelectedRaw(x: bv64)
    ensures (Selected(x) & 0x800000000000 != 0 <==> x & 0x40000000000 != 0) &&
      (Selected(x) & 0x400000000000 != 0 <==> x & 0x8000000000 != 0)
    ensures (Selected(x) & 0x200000000000 != 0 <==> x & 0x200000000000 != 0) &&
      (Selected(x) & 0x100000000000 != 0 <==> x & 0x100000000 != 0)
    ensures (Selected(x) & 0x80000000000 != 0 <==> x & 0x80000000000000 != 0) &&
      (Selected(x) & 0x40000000000 != 0 <==> x & 0x8000000000000 != 0)
    ensures (Selected(x) & 0x20000000000 != 0 <==> x & 0x20000000000000 != 0) &&
      (Selected(x) & 0x10000000000 != 0 <==> x & 0x10000000 != 0)
    ensures (Selected(x) & 0x8000000000 != 0 <==> x & 0x20000000000 != 0) &&
      (Selected(x) & 0x4000000000 != 0 <==> x & 0x4000000000000 != 0)
    ensures (Selected(x) & 0x2000000000 != 0 <==> x & 0x800000000 != 0) &&
      (Selected(x) & 0x1000000000 != 0 <==> x & 0x400000000000 != 0)
    ensures (Selected(x) & 0x800000000 != 0 <==> x & 0x200000000 != 0) &&
      (Selected(x) & 0x400000000 != 0 <==> x & 0x2000000000 != 0)
    ensures (Selected(x) & 0x200000000 != 0 <==> x & 0x100000000000 != 0) &&
      (Selected(x) & 0x100000000 != 0 <==> x & 0x10000000000000 != 0)
    ensures (Selected(x) & 0x80000000 != 0 <==> x & 0x40000000 != 0) &&
      (Selected(x) & 0x40000000 != 0 <==> x & 0x1000000000000 != 0)
    ensures (Selected(x) & 0x20000000 != 0 <==> x & 0x10000000000 != 0) &&
      (Selected(x) & 0x10000000 != 0 <==> x & 0x2000000000000 != 0)
    ensures (Selected(x) & 0x8000000 != 0 <==> x & 0x20000000 != 0) &&
      (Selected(x) & 0x4000000 != 0 <==> x & 0x1000000000 != 0)
    ensures (Selected(x) & 0x2000000 != 0 <==> x & 0x80000000000 != 0) &&
      (Selected(x) & 0x1000000 != 0 <==> x & 0x40000000000000 != 0)
    ensures (Selected(x) & 0x800000 != 0 <==> x & 0x8000 != 0) && (Selected(x) & 0x400000 != 0 <==> x & 0x10 != 0)
    ensures (Selected(x) & 0x200000 != 0 <==> x & 0x2000000 != 0) && (Selected(x) & 0x100000 != 0 <==> x & 0x80000 != 0)
    ensures (Selected(x) & 0x80000 != 0 <==> x & 0x200 != 0) && (Selected(x) & 0x40000 != 0 <==> x & 0x2 != 0)
    ensures (Selected(x) & 0x20000 != 0 <==> x & 0x4000000 != 0) && (Selected(x) & 0x10000 != 0 <==> x & 0x10000 != 0)
    ensures (Selected(x) & 0x8000 != 0 <==> x & 0x20 != 0) && (Selected(x) & 0x4000 != 0 <==> x & 0x800 != 0)
    ensures (Selected(x) & 0x2000 != 0 <==> x & 0x800000 != 0) && (Selected(x) & 0x1000 != 0 <==> x & 0x100 != 0)
    ensures (Selected(x) & 0x800 != 0 <==> x & 0x1000 != 0) && (Selected(x) & 0x400 != 0 <==> x & 0x80 != 0)
    ensures (Selected(x) & 0x200 != 0 <==> x & 0x20000 != 0) && (Selected(x) & 0x100 != 0 <==> x & 0x1 != 0)
    ensures (Selected(x) & 0x80 != 0 <==> x & 0x400000 != 0) && (Selected(x) & 0x40 != 0 <==> x & 0x8 != 0)
    ensures (Selected(x) & 0x20 != 0 <==> x & 0x400 != 0) && (Selected(x) & 0x10 != 0 <==> x & 0x4000 != 0)
    ensures (Selected(x) & 0x8 != 0 <==> x & 0x40 != 0) && (Selected(x) & 0x4 != 0 <==> x & 0x100000 != 0)
    ensures (Selected(x) & 0x2 != 0 <==> x & 0x8000000 != 0) && (Selected(x) & 0x1 != 0 <==> x & 0x1000000 != 0)
  {
  }

  lemma SelectedCopies0(x: bv64)
    ensures Copied(Number(x), 56, Number(Selected(x)), 48, 0, 14, 17, 11, 24, 1, 5, 3, 28)
    ensures Copied(Number(x), 56, Number(Selected(x)), 48, 8, 15, 6, 21, 10, 23, 19, 12, 4)
    ensures Copied(Number(x), 56, Number(Selected(x)), 48, 16, 26, 8, 16, 7, 27, 20, 13, 2)
  {
    SelectedRaw(x);
    Byte3(x); Byte4(x); Byte5(x); Byte6(x); Byte3(Selected(x)); Byte4(Selected(x)); Byte5(Selected(x));
    hide Bit, Selected;
  }

  lemma SelectedCopies24(x: bv64)
    ensures Copied(Number(x), 56, Number(Selected(x)), 48, 24, 41, 52, 31, 37, 47, 55, 30, 40)
    ensures Copied(Number(x), 56, Number(Selected(x)), 48, 32, 51, 45, 33, 48, 44, 49, 39, 56)
    ensures Copied(Number(x), 56, Number(Selected(x)), 48, 40, 34, 53, 46, 42, 50, 36, 29, 32)
  {
    SelectedRaw(x);
    Byte0(x); Byte1(x); Byte2(x); Byte3(x); Byte0(Selected(x)); Byte1(Selected(x)); Byte2(Selected(x));
    hide Bit, Selected;
  }

  lemma SelectedRow0()
    ensures Row(PC2, 0, 14, 17, 11, 24, 1, 5, 3, 28)
  {
  }

  lemma SelectedRow8()
    ensures Row(PC2, 8, 15, 6, 21, 10, 23, 19, 12, 4)
  {
  }

  lemma SelectedRow16()
    ensures Row(PC2, 16, 26, 8, 16, 7, 27, 20, 13, 2)
  {
  }

  lemma SelectedRow24()
    ensures Row(PC2, 24, 41, 52, 31, 37, 47, 55, 30, 40)
  {
  }

  lemma SelectedRow32()
    ensures Row(PC2, 32, 51, 45, 33, 48, 44, 49, 39, 56)
  {
  }

  lemma SelectedRow40()
    ensures Row(PC2, 40, 34, 53, 46, 42, 50, 36, 29, 32)
  {
  }

  lemma SelectedWord(x: bv64)
    ensures |PC2| == 48 && Picks(PC2, 56) && Permuted(Word(Number(x), 56), PC2) == Word(Number(Selected(x)), 48)
  {
    hide Bit, Selected, MovedEight, Row, Copied, PC2, Word;
    RoundKeyTable();
    SelectedCopies0(x); SelectedCopies24(x);
    SelectedRow0();
    CopiedMoves(Number(x), 56, PC2, Number(Selected(x)), 0, 14, 17, 11, 24, 1, 5, 3, 28);
    SelectedRow8();
    CopiedMoves(Number(x), 56, PC2, Number(Selected(x)), 8, 15, 6, 21, 10, 23, 19, 12, 4);
    SelectedRow16();
    CopiedMoves(Number(x), 56, PC2, Number(Selected(x)), 16, 26, 8, 16, 7, 27, 20, 13, 2);
    SelectedRow24();
    CopiedMoves(Number(x), 56, PC2, Number(Selected(x)), 24, 41, 52, 31, 37, 47, 55, 30, 40);
    SelectedRow32();
    CopiedMoves(Number(x), 56, PC2, Number(Selected(x)), 32, 51, 45, 33, 48, 44, 49, 39, 56);
    SelectedRow40();
    CopiedMoves(Number(x), 56, PC2, Number(Selected(x)), 40, 34, 53, 46, 42, 50, 36, 29, 32);
    PermutedWord(Number(x), 56, PC2, Number(Selected(x)));
  }

  /** The bits of a key that count. */
  function Chosen(x: bv64): bv64
  {
    (((x >> 7) & 1) << 55) | (((x >> 15) & 1) << 54) | (((x >> 23) & 1) << 53) | (((x >> 31) & 1) << 52) |
    (((x >> 39) & 1) << 51) | (((x >> 47) & 1) << 50) | (((x >> 55) & 1) << 49) | (((x >> 63) & 1) << 48) |
    (((x >> 6) & 1) << 47) | (((x >> 14) & 1) << 46) | (((x >> 22) & 1) << 45) | (((x >> 30) & 1) << 44) |
    (((x >> 38) & 1) << 43) | (((x >> 46) & 1) << 42) | (((x >> 54) & 1) << 41) | (((x >> 62) & 1) << 40) |
    (((x >> 5) & 1) << 39) | (((x >> 13) & 1) << 38) | (((x >> 21) & 1) << 37) | (((x >> 29) & 1) << 36) |
    (((x >> 37) & 1) << 35) | (((x >> 45) & 1) << 34) | (((x >> 53) & 1) << 33) | (((x >> 61) & 1) << 32) |
    (((x >> 4) & 1) << 31) | (((x >> 12) & 1) << 30) | (((x >> 20) & 1) << 29) | (x & 0x10000000) |
    (((x >> 1) & 1) << 27) | (((x >> 9) & 1) << 26) | (((x >> 17) & 1) << 25) | (((x >> 25) & 1) << 24) |
    (((x >> 33) & 1) << 23) | (((x >> 41) & 1) << 22) | (((x >> 49) & 1) << 21) | (((x >> 57) & 1) << 20) |
    (((x >> 2) & 1) << 19) | (((x >> 10) & 1) << 18) | (((x >> 18) & 1) << 17) | (((x >> 26) & 1) << 16) |
    (((x >> 34) & 1) << 15) | (((x >> 42) & 1) << 14) | (((x >> 50) & 1) << 13) | (((x >> 58) & 1) << 12) |
    (((x >> 3) & 1) << 11) | (((x >> 11) & 1) << 10) | (((x >> 19) & 1) << 9) | (((x >> 27) & 1) << 8) |
    (((x >> 35) & 1) << 7) | (((x >> 43) & 1) << 6) | (((x >> 51) & 1) << 5) | (((x >> 59) & 1) << 4) |
    (((x >> 36) & 1) << 3) | (((x >> 44) & 1) << 2) | (((x >> 52) & 1) << 1) | ((x >> 60) & 1)
  }

  lemma ChosenRaw(x: bv64)
    ensures (Chosen(x) & 0x80000000000000 != 0 <==> x & 0x80 != 0) &&
      (Chosen(x) & 0x40000000000000 != 0 <==> x & 0x8000 != 0)
    ensures (Chosen(x) & 0x20000000000000 != 0 <==> x & 0x800000 != 0) &&
      (Chosen(x) & 0x10000000000000 != 0 <==> x & 0x80000000 != 0)
    ensures (Chosen(x) & 0x8000000000000 != 0 <==> x & 0x8000000000 != 0) &&
      (Chosen(x) & 0x4000000000000 != 0 <==> x & 0x800000000000 != 0)
    ensures (Chosen(x) & 0x2000000000000 != 0 <==> x & 0x80000000000000 != 0) &&
      (Chosen(x) & 0x1000000000000 != 0 <==> x & 0x8000000000000000 != 0)
    ensures (Chosen(x) & 0x800000000000 != 0 <==> x & 0x40 != 0) &&
      (Chosen(x) & 0x400000000000 != 0 <==> x & 0x4000 != 0)
    ensures (Chosen(x) & 0x200000000000 != 0 <==> x & 0x400000 != 0) &&
      (Chosen(x) & 0x100000000000 != 0 <==> x & 0x40000000 != 0)
    ensures (Chosen(x) & 0x80000000000 != 0 <==> x & 0x4000000000 != 0) &&
      (Chosen(x) & 0x40000000000 != 0 <==> x & 0x400000000000 != 0)
    ensures (Chosen(x) & 0x20000000000 != 0 <==> x & 0x40000000000000 != 0) &&
      (Chosen(x) & 0x10000000000 != 0 <==> x & 0x4000000000000000 != 0)
    ensures (Chosen(x) & 0x8000000000 != 0 <==> x & 0x20 != 0) && (Chosen(x) & 0x4000000000 != 0 <==> x & 0x2000 != 0)
    ensures (Chosen(x) & 0x2000000000 != 0 <==> x & 0x200000 != 0) &&
      (Chosen(x) & 0x1000000000 != 0 <==> x & 0x20000000 != 0)
    ensures (Chosen(x) & 0x800000000 != 0 <==> x & 0x2000000000 != 0) &&
      (Chosen(x) & 0x400000000 != 0 <==> x & 0x200000000000 != 0)
    ensures (Chosen(x) & 0x200000000 != 0 <==> x & 0x20000000000000 != 0) &&
      (Chosen(x) & 0x100000000 != 0 <==> x & 0x2000000000000000 != 0)
    ensures (Chosen(x) & 0x80000000 != 0 <==> x & 0x10 != 0) && (Chosen(x) & 0x40000000 != 0 <==> x & 0x1000 != 0)
    ensures (Chosen(x) & 0x20000000 != 0 <==> x & 0x100000 != 0) &&
      (Chosen(x) & 0x10000000 != 0 <==> x & 0x10000000 != 0)
    ensures (Chosen(x) & 0x8000000 != 0 <==> x & 0x2 != 0) && (Chosen(x) & 0x4000000 != 0 <==> x & 0x200 != 0)
    ensures (Chosen(x) & 0x2000000 != 0 <==> x & 0x20000 != 0) && (Chosen(x) & 0x1000000 != 0 <==> x & 0x2000000 != 0)
    ensures (Chosen(x) & 0x800000 != 0 <==> x & 0x200000000 != 0) &&
      (Chosen(x) & 0x400000 != 0 <==> x & 0x20000000000 != 0)
    ensures (Chosen(x) & 0x200000 != 0 <==> x & 0x2000000000000 != 0) &&
      (Chosen(x) & 0x100000 != 0 <==> x & 0x200000000000000 != 0)
    ensures (Chosen(x) & 0x80000 != 0 <==> x & 0x4 != 0) && (Chosen(x) & 0x40000 != 0 <==> x & 0x400 != 0)
    ensures (Chosen(x) & 0x20000 != 0 <==> x & 0x40000 != 0) && (Chosen(x) & 0x10000 != 0 <==> x & 0x4000000 != 0)
    ensures (Chosen(x) & 0x8000 != 0 <==> x & 0x400000000 != 0) && (Chosen(x) & 0x4000 != 0 <==> x & 0x40000000000 != 0)
    ensures (Chosen(x) & 0x2000 != 0 <==> x & 0x4000000000000 != 0) &&
      (Chosen(x) & 0x1000 != 0 <==> x & 0x400000000000000 != 0)
    ensures (Chosen(x) & 0x800 != 0 <==> x & 0x8 != 0) && (Chosen(x) & 0x400 != 0 <==> x & 0x800 != 0)
    ensures (Chosen(x) & 0x200 != 0 <==> x & 0x80000 != 0) && (Chosen(x) & 0x100 != 0 <==> x & 0x8000000 != 0)
    ensures (Chosen(x) & 0x80 != 0 <==> x & 0x800000000 != 0) && (Chosen(x) & 0x40 != 0 <==> x & 0x80000000000 != 0)
    ensures (Chosen(x) & 0x20 != 0 <==> x & 0x8000000000000 != 0) &&
      (Chosen(x) & 0x10 != 0 <==> x & 0x800000000000000 != 0)
    ensures (Chosen(x) & 0x8 != 0 <==> x & 0x1000000000 != 0) && (Chosen(x) & 0x4 != 0 <==> x & 0x100000000000 != 0)
    ensures (Chosen(x) & 0x2 != 0 <==> x & 0x10000000000000 != 0) &&
      (Chosen(x) & 0x1 != 0 <==> x & 0x1000000000000000 != 0)
  {
  }

  lemma ChosenCopies0(x: bv64)
    ensures Copied(Number(x), 64, Number(Chosen(x)), 56, 0, 57, 49, 41, 33, 25, 17, 9, 1)
    ensures Copied(Number(x), 64, Number(Chosen(x)), 56, 8, 58, 50, 42, 34, 26, 18, 10, 2)
    ensures Copied(Number(x), 64, Number(Chosen(x)), 56, 16, 59, 51, 43, 35, 27, 19, 11, 3)
  {
    ChosenRaw(x);
    Byte0(x); Byte1(x); Byte2(x); Byte3(x); Byte4(x); Byte5(x); Byte6(x); Byte7(x); Byte4(Chosen(x));
    Byte5(Chosen(x)); Byte6(Chosen(x));
    hide Bit, Chosen;
  }

  lemma ChosenCopies24(x: bv64)
    ensures Copied(Number(x), 64, Number(Chosen(x)), 56, 24, 60, 52, 44, 36, 63, 55, 47, 39)
    ensures Copied(Number(x), 64, Number(Chosen(x)), 56, 32, 31, 23, 15, 7, 62, 54, 46, 38)
    ensures Copied(Number(x), 64, Number(Chosen(x)), 56, 40, 30, 22, 14, 6, 61, 53, 45, 37)
  {
    ChosenRaw(x);
    Byte0(x); Byte1(x); Byte2(x); Byte3(x); Byte4(x); Byte5(x); Byte6(x); Byte7(x); Byte1(Chosen(x));
    Byte2(Chosen(x)); Byte3(Chosen(x));
    hide Bit, Chosen;
  }

  lemma ChosenCopies48(x: bv64)
    ensures Copied(Number(x), 64, Number(Chosen(x)), 56, 48, 29, 21, 13, 5, 28, 20, 12, 4)
  {
    ChosenRaw(x);
    Byte4(x); Byte5(x); Byte6(x); Byte7(x); Byte0(Chosen(x));
    hide Bit, Chosen;
  }

  lemma ChosenRow0()
    ensures Row(PC1, 0, 57, 49, 41, 33, 25, 17, 9, 1)
  {
  }

  lemma ChosenRow8()
    ensures Row(PC1, 8, 58, 50, 42, 34, 26, 18, 10, 2)
  {
  }

  lemma ChosenRow16()
    ensures Row(PC1, 16, 59, 51, 43, 35, 27, 19, 11, 3)
  {
  }

  lemma ChosenRow24()
    ensures Row(PC1, 24, 60, 52, 44, 36, 63, 55, 47, 39)
  {
  }

  lemma ChosenRow32()
    ensures Row(PC1, 32, 31, 23, 15, 7, 62, 54, 46, 38)
  {
  }

  lemma ChosenRow40()
    ensures Row(PC1, 40, 30, 22, 14, 6, 61, 53, 45, 37)
  {
  }

  lemma ChosenRow48()
    ensures Row(PC1, 48, 29, 21, 13, 5, 28, 20, 12, 4)
  {
  }

  lemma ChosenWord(x: bv64)
    ensures |PC1| == 56 && Picks(PC1, 64) && Permuted(Word(Number(x), 64), PC1) == Word(Number(Chosen(x)), 56)
  {
    hide Bit, Chosen, MovedEight, Row, Copied, PC1, Word;
    KeyTable();
    ChosenCopies0(x); ChosenCopies24(x); ChosenCopies48(x);
    ChosenRow0();
    CopiedMoves(Number(x), 64, PC1, Number(Chosen(x)), 0, 57, 49, 41, 33, 25, 17, 9, 1);
    ChosenRow8();
    CopiedMoves(Number(x), 64, PC1, Number(Chosen(x)), 8, 58, 50, 42, 34, 26, 18, 10, 2);
    ChosenRow16();
    CopiedMoves(Number(x), 64, PC1, Number(Chosen(x)), 16, 59, 51, 43, 35, 27, 19, 11, 3);
    ChosenRow24();
    CopiedMoves(Number(x), 64, PC1, Number(Chosen(x)), 24, 60, 52, 44, 36, 63, 55, 47, 39);
    ChosenRow32();
    CopiedMoves(Number(x), 64, PC1, Number(Chosen(x)), 32, 31, 23, 15, 7, 62, 54, 46, 38);
    ChosenRow40();
    CopiedMoves(Number(x), 64, PC1, Number(Chosen(x)), 40, 30, 22, 14, 6, 61, 53, 45, 37);
    ChosenRow48();
    CopiedMoves(Number(x), 64, PC1, Number(Chosen(x)), 48, 29, 21, 13, 5, 28, 20, 12, 4);
    PermutedWord(Number(x), 64, PC1, Number(Chosen(x)));
  }

  /** The initial permutation. */
  function Initial(x: bv64): bv64
  {
    (((x >> 6) & 1) << 63) | (((x >> 14) & 1) << 62) | (((x >> 22) & 1) << 61) | (((x >> 30) & 1) << 60) |
    (((x >> 38) & 1) << 59) | (((x >> 46) & 1) << 58) | (((x >> 54) & 1) << 57) | (((x >> 62) & 1) << 56) |
    (((x >> 4) & 1) << 55) | (((x >> 12) & 1) << 54) | (((x >> 20) & 1) << 53) | (((x >> 28) & 1) << 52) |
    (((x >> 36) & 1) << 51) | (((x >> 44) & 1) << 50) | (((x >> 52) & 1) << 49) | (((x >> 60) & 1) << 48) |
    (((x >> 2) & 1) << 47) | (((x >> 10) & 1) << 46) | (((x >> 18) & 1) << 45) | (((x >> 26) & 1) << 44) |
    (((x >> 34) & 1) << 43) | (x & 0x40000000000) | (((x >> 50) & 1) << 41) | (((x >> 58) & 1) << 40) |
    (((x >> 0) & 1) << 39) | (((x >> 8) & 1) << 38) | (((x >> 16) & 1) << 37) | (((x >> 24) & 1) << 36) |
    (((x >> 32) & 1) << 35) | (((x >> 40) & 1) << 34) | (((x >> 48) & 1) << 33) | (((x >> 56) & 1) << 32) |
    (((x >> 7) & 1) << 31) | (((x >> 15) & 1) << 30) | (((x >> 23) & 1) << 29) | (((x >> 31) & 1) << 28) |
    (((x >> 39) & 1) << 27) | (((x >> 47) & 1) << 26) | (((x >> 55) & 1) << 25) | (((x >> 63) & 1) << 24) |
    (((x >> 5) & 1) << 23) | (((x >> 13) & 1) << 22) | (x & 0x200000) | (((x >> 29) & 1) << 20) |
    (((x >> 37) & 1) << 19) | (((x >> 45) & 1) << 18) | (((x >> 53) & 1) << 17) | (((x >> 61) & 1) << 16) |
    (((x >> 3) & 1) << 15) | (((x >> 11) & 1) << 14) | (((x >> 19) & 1) << 13) | (((x >> 27) & 1) << 12) |
    (((x >> 35) & 1) << 11) | (((x >> 43) & 1) << 10) | (((x >> 51) & 1) << 9) | (((x >> 59) & 1) << 8) |
    (((x >> 1) & 1) << 7) | (((x >> 9) & 1) << 6) | (((x >> 17) & 1) << 5) | (((x >> 25) & 1) << 4) |
    (((x >> 33) & 1) << 3) | (((x >> 41) & 1) << 2) | (((x >> 49) & 1) << 1) | ((x >> 57) & 1)
  }

  lemma InitialRaw(x: bv64)
    ensures (Initial(x) & 0x8000000000000000 != 0 <==> x & 0x40 != 0) &&
      (Initial(x) & 0x4000000000000000 != 0 <==> x & 0x4000 != 0)
    ensures (Initial(x) & 0x2000000000000000 != 0 <==> x & 0x400000 != 0) &&
      (Initial(x) & 0x1000000000000000 != 0 <==> x & 0x40000000 != 0)
    ensures (Initial(x) & 0x800000000000000 != 0 <==> x & 0x4000000000 != 0) &&
      (Initial(x) & 0x400000000000000 != 0 <==> x & 0x400000000000 != 0)
    ensures (Initial(x) & 0x200000000000000 != 0 <==> x & 0x40000000000000 != 0) &&
      (Initial(x) & 0x100000000000000 != 0 <==> x & 0x4000000000000000 != 0)
    ensures (Initial(x) & 0x80000000000000 != 0 <==> x & 0x10 != 0) &&
      (Initial(x) & 0x40000000000000 != 0 <==> x & 0x1000 != 0)
    ensures (Initial(x) & 0x20000000000000 != 0 <==> x & 0x100000 != 0) &&
      (Initial(x) & 0x10000000000000 != 0 <==> x & 0x10000000 != 0)
    ensures (Initial(x) & 0x8000000000000 != 0 <==> x & 0x1000000000 != 0) &&
      (Initial(x) & 0x4000000000000 != 0 <==> x & 0x100000000000 != 0)
    ensures (Initial(x) & 0x2000000000000 != 0 <==> x & 0x10000000000000 != 0) &&
      (Initial(x) & 0x1000000000000 != 0 <==> x & 0x1000000000000000 != 0)
    ensures (Initial(x) & 0x800000000000 != 0 <==> x & 0x4 != 0) &&
      (Initial(x) & 0x400000000000 != 0 <==> x & 0x400 != 0)
    ensures (Initial(x) & 0x200000000000 != 0 <==> x & 0x40000 != 0) &&
      (Initial(x) & 0x100000000000 != 0 <==> x & 0x4000000 != 0)
    ensures (Initial(x) & 0x80000000000 != 0 <==> x & 0x400000000 != 0) &&
      (Initial(x) & 0x40000000000 != 0 <==> x & 0x40000000000 != 0)
    ensures (Initial(x) & 0x20000000000 != 0 <==> x & 0x4000000000000 != 0) &&
      (Initial(x) & 0x10000000000 != 0 <==> x & 0x400000000000000 != 0)
    ensures (Initial(x) & 0x8000000000 != 0 <==> x & 0x1 != 0) && (Initial(x) & 0x4000000000 != 0 <==> x & 0x100 != 0)
    ensures (Initial(x) & 0x2000000000 != 0 <==> x & 0x10000 != 0) &&
      (Initial(x) & 0x1000000000 != 0 <==> x & 0x1000000 != 0)
    ensures (Initial(x) & 0x800000000 != 0 <==> x & 0x100000000 != 0) &&
      (Initial(x) & 0x400000000 != 0 <==> x & 0x10000000000 != 0)
    ensures (Initial(x) & 0x200000000 != 0 <==> x & 0x1000000000000 != 0) &&
      (Initial(x) & 0x100000000 != 0 <==> x & 0x100000000000000 != 0)
    ensures (Initial(x) & 0x80000000 != 0 <==> x & 0x80 != 0) && (Initial(x) & 0x40000000 != 0 <==> x & 0x8000 != 0)
    ensures (Initial(x) & 0x20000000 != 0 <==> x & 0x800000 != 0) &&
      (Initial(x) & 0x10000000 != 0 <==> x & 0x80000000 != 0)
    ensures (Initial(x) & 0x8000000 != 0 <==> x & 0x8000000000 != 0) &&
      (Initial(x) & 0x4000000 != 0 <==> x & 0x800000000000 != 0)
    ensures (Initial(x) & 0x2000000 != 0 <==> x & 0x80000000000000 != 0) &&
      (Initial(x) & 0x1000000 != 0 <==> x & 0x8000000000000000 != 0)
    ensures (Initial(x) & 0x800000 != 0 <==> x & 0x20 != 0) && (Initial(x) & 0x400000 != 0 <==> x & 0x2000 != 0)
    ensures (Initial(x) & 0x200000 != 0 <==> x & 0x200000 != 0) && (Initial(x) & 0x100000 != 0 <==> x & 0x20000000 != 0)
    ensures (Initial(x) & 0x80000 != 0 <==> x & 0x2000000000 != 0) &&
      (Initial(x) & 0x40000 != 0 <==> x & 0x200000000000 != 0)
    ensures (Initial(x) & 0x20000 != 0 <==> x & 0x20000000000000 != 0) &&
      (Initial(x) & 0x10000 != 0 <==> x & 0x2000000000000000 != 0)
    ensures (Initial(x) & 0x8000 != 0 <==> x & 0x8 != 0) && (Initial(x) & 0x4000 != 0 <==> x & 0x800 != 0)
    ensures (Initial(x) & 0x2000 != 0 <==> x & 0x80000 != 0) && (Initial(x) & 0x1000 != 0 <==> x & 0x8000000 != 0)
    ensures (Initial(x) & 0x800 != 0 <==> x & 0x800000000 != 0) && (Initial(x) & 0x400 != 0 <==> x & 0x80000000000 != 0)
    ensures (Initial(x) & 0x200 != 0 <==> x & 0x8000000000000 != 0) &&
      (Initial(x) & 0x100 != 0 <==> x & 0x800000000000000 != 0)
    ensures (Initial(x) & 0x80 != 0 <==> x & 0x2 != 0) && (Initial(x) & 0x40 != 0 <==> x & 0x200 != 0)
    ensures (Initial(x) & 0x20 != 0 <==> x & 0x20000 != 0) && (Initial(x) & 0x10 != 0 <==> x & 0x2000000 != 0)
    ensures (Initial(x) & 0x8 != 0 <==> x & 0x200000000 != 0) && (Initial(x) & 0x4 != 0 <==> x & 0x20000000000 != 0)
    ensures (Initial(x) & 0x2 != 0 <==> x & 0x2000000000000 != 0) &&
      (Initial(x) & 0x1 != 0 <==> x & 0x200000000000000 != 0)
  {
  }

  lemma InitialCopies0(x: bv64)
    ensures Copied(Number(x), 64, Number(Initial(x)), 64, 0, 58, 50, 42, 34, 26, 18, 10, 2)
    ensures Copied(Number(x), 64, Number(Initial(x)), 64, 8, 60, 52, 44, 36, 28, 20, 12, 4)
    ensures Copied(Number(x), 64, Number(Initial(x)), 64, 16, 62, 54, 46, 38, 30, 22, 14, 6)
  {
    InitialRaw(x);
    Byte0(x); Byte1(x); Byte2(x); Byte3(x); Byte4(x); Byte5(x); Byte6(x); Byte7(x); Byte5(Initial(x));
    Byte6(Initial(x)); Byte7(Initial(x));
    hide Bit, Initial;
  }

  lemma InitialCopies24(x: bv64)
    ensures Copied(Number(x), 64, Number(Initial(x)), 64, 24, 64, 56, 48, 40, 32, 24, 16, 8)
    ensures Copied(Number(x), 64, Number(Initial(x)), 64, 32, 57, 49, 41, 33, 25, 17, 9, 1)
    ensures Copied(Number(x), 64, Number(Initial(x)), 64, 40, 59, 51, 43, 35, 27, 19, 11, 3)
  {
    InitialRaw(x);
    Byte0(x); Byte1(x); Byte2(x); Byte3(x); Byte4(x); Byte5(x); Byte6(x); Byte7(x); Byte2(Initial(x));
    Byte3(Initial(x)); Byte4(Initial(x));
    hide Bit, Initial;
  }

  lemma InitialCopies48(x: bv64)
    ensures Copied(Number(x), 64, Number(Initial(x)), 64, 48, 61, 53, 45, 37, 29, 21, 13, 5)
    ensures Copied(Number(x), 64, Number(Initial(x)), 64, 56, 63, 55, 47, 39, 31, 23, 15, 7)
  {
    InitialRaw(x);
    Byte0(x); Byte1(x); Byte2(x); Byte3(x); Byte4(x); Byte5(x); Byte6(x); Byte7(x); Byte0(Initial(x));
    Byte1(Initial(x));
    hide Bit, Initial;
  }

  lemma InitialRow0()
    ensures Row(IP, 0, 58, 50, 42, 34, 26, 18, 10, 2)
  {
  }

  lemma InitialRow8()
    ensures Row(IP, 8, 60, 52, 44, 36, 28, 20, 12, 4)
  {
  }

  lemma InitialRow16()
    ensures Row(IP, 16, 62, 54, 46, 38, 30, 22, 14, 6)
  {
  }

  lemma InitialRow24()
    ensures Row(IP, 24, 64, 56, 48, 40, 32, 24, 16, 8)
  {
  }

  lemma InitialRow32()
    ensures Row(IP, 32, 57, 49, 41, 33, 25, 17, 9, 1)
  {
  }

  lemma InitialRow40()
    ensures Row(IP, 40, 59, 51, 43, 35, 27, 19, 11, 3)
  {
  }

  lemma InitialRow48()
    ensures Row(IP, 48, 61, 53, 45, 37, 29, 21, 13, 5)
  {
  }

  lemma InitialRow56()
    ensures Row(IP, 56, 63, 55, 47, 39, 31, 23, 15, 7)
  {
  }

  lemma InitialWord(x: bv64)
    ensures |IP| == 64 && Picks(IP, 64) && Permuted(Word(Number(x), 64), IP) == Word(Number(Initial(x)), 64)
  {
    hide Bit, Initial, MovedEight, Row, Copied, IP, Word;
    OuterTables();
    InitialCopies0(x); InitialCopies24(x); InitialCopies48(x);
    InitialRow0();
    CopiedMoves(Number(x), 64, IP, Number(Initial(x)), 0, 58, 50, 42, 34, 26, 18, 10, 2);
    InitialRow8();
    CopiedMoves(Number(x), 64, IP, Number(Initial(x)), 8, 60, 52, 44, 36, 28, 20, 12, 4);
    InitialRow16();
    CopiedMoves(Number(x), 64, IP, Number(Initial(x)), 16, 62, 54, 46, 38, 30, 22, 14, 6);
    InitialRow24();
    CopiedMoves(Number(x), 64, IP, Number(Initial(x)), 24, 64, 56, 48, 40, 32, 24, 16, 8);
    InitialRow32();
    CopiedMoves(Number(x), 64, IP, Number(Initial(x)), 32, 57, 49, 41, 33, 25, 17, 9, 1);
    InitialRow40();
    CopiedMoves(Number(x), 64, IP, Number(Initial(x)), 40, 59, 51, 43, 35, 27, 19, 11, 3);
    InitialRow48();
    CopiedMoves(Number(x), 64, IP, Number(Initial(x)), 48, 61, 53, 45, 37, 29, 21, 13, 5);
    InitialRow56();
    CopiedMoves(Number(x), 64, IP, Number(Initial(x)), 56, 63, 55, 47, 39, 31, 23, 15, 7);
    PermutedWord(Number(x), 64, IP, Number(Initial(x)));
  }

  // ----- sums -----

  /** z is the sum of x and y without carries. */
  ghost predicate Summed(x: Number, y: Number, z: Number)
  {
    z.v == x.v ^ y.v
  }

  ghost predicate Adds(x: Number, y: Number, z: Number, p: int)
  {
    Bit(z, p) == (Bit(x, p) != Bit(y, p))
  }

  ghost predicate AddsEight(x: Number, y: Number, z: Number, p: int)
  {
    && Adds(x, y, z, p) && Adds(x, y, z, p + 1) && Adds(x, y, z, p + 2) && Adds(x, y, z, p + 3)
    && Adds(x, y, z, p + 4) && Adds(x, y, z, p + 5) && Adds(x, y, z, p + 6) && Adds(x, y, z, p + 7)
  }

  lemma ByteSum0(x: bv64, y: bv64, z: bv64)
    requires z == x ^ y
    ensures Bit(Number(z), 0) == (Bit(Number(x), 0) != Bit(Number(y), 0))
    ensures Bit(Number(z), 1) == (Bit(Number(x), 1) != Bit(Number(y), 1))
    ensures Bit(Number(z), 2) == (Bit(Number(x), 2) != Bit(Number(y), 2))
    ensures Bit(Number(z), 3) == (Bit(Number(x), 3) != Bit(Number(y), 3))
    ensures Bit(Number(z), 4) == (Bit(Number(x), 4) != Bit(Number(y), 4))
    ensures Bit(Number(z), 5) == (Bit(Number(x), 5) != Bit(Number(y), 5))
    ensures Bit(Number(z), 6) == (Bit(Number(x), 6) != Bit(Number(y), 6))
    ensures Bit(Number(z), 7) == (Bit(Number(x), 7) != Bit(Number(y), 7))
  {
    Byte0(x);
    Byte0(y);
    Byte0(z);
    hide Bit;
  }

  lemma ByteSum1(x: bv64, y: bv64, z: bv64)
    requires z == x ^ y
    ensures Bit(Number(z), 8) == (Bit(Number(x), 8) != Bit(Number(y), 8))
    ensures Bit(Number(z), 9) == (Bit(Number(x), 9) != Bit(Number(y), 9))
    ensures Bit(Number(z), 10) == (Bit(Number(x), 10) != Bit(Number(y), 10))
    ensures Bit(Number(z), 11) == (Bit(Number(x), 11) != Bit(Number(y), 11))
    ensures Bit(Number(z), 12) == (Bit(Number(x), 12) != Bit(Number(y), 12))
    ensures Bit(Number(z), 13) == (Bit(Number(x), 13) != Bit(Number(y), 13))
    ensures Bit(Number(z), 14) == (Bit(Number(x), 14) != Bit(Number(y), 14))
    ensures Bit(Number(z), 15) == (Bit(Number(x), 15) != Bit(Number(y), 15))
  {
    Byte1(x);
    Byte1(y);
    Byte1(z);
    hide Bit;
  }

  lemma ByteSum2(x: bv64, y: bv64, z: bv64)
    requires z == x ^ y
    ensures Bit(Number(z), 16) == (Bit(Number(x), 16) != Bit(Number(y), 16))
    ensures Bit(Number(z), 17) == (Bit(Number(x), 17) != Bit(Number(y), 17))
    ensures Bit(Number(z), 18) == (Bit(Number(x), 18) != Bit(Number(y), 18))
    ensures Bit(Number(z), 19) == (Bit(Number(x), 19) != Bit(Number(y), 19))
    ensures Bit(Number(z), 20) == (Bit(Number(x), 20) != Bit(Number(y), 20))
    ensures Bit(Number(z), 21) == (Bit(Number(x), 21) != Bit(Number(y), 21))
    ensures Bit(Number(z), 22) == (Bit(Number(x), 22) != Bit(Number(y), 22))
    ensures Bit(Number(z), 23) == (Bit(Number(x), 23) != Bit(Number(y), 23))
  {
    Byte2(x);
    Byte2(y);
    Byte2(z);
    hide Bit;
  }

  lemma ByteSum3(x: bv64, y: bv64, z: bv64)
    requires z == x ^ y
    ensures Bit(Number(z), 24) == (Bit(Number(x), 24) != Bit(Number(y), 24))
    ensures Bit(Number(z), 25) == (Bit(Number(x), 25) != Bit(Number(y), 25))
    ensures Bit(Number(z), 26) == (Bit(Number(x), 26) != Bit(Number(y), 26))
    ensures Bit(Number(z), 27) == (Bit(Number(x), 27) != Bit(Number(y), 27))
    ensures Bit(Number(z), 28) == (Bit(Number(x), 28) != Bit(Number(y), 28))
    ensures Bit(Number(z), 29) == (Bit(Number(x), 29) != Bit(Number(y), 29))
    ensures Bit(Number(z), 30) == (Bit(Number(x), 30) != Bit(Number(y), 30))
    ensures Bit(Number(z), 31) == (Bit(Number(x), 31) != Bit(Number(y), 31))
  {
    Byte3(x);
    Byte3(y);
    Byte3(z);
    hide Bit;
  }

  lemma ByteSum4(x: bv64, y: bv64, z: bv64)
    requires z == x ^ y
    ensures Bit(Number(z), 32) == (Bit(Number(x), 32) != Bit(Number(y), 32))
    ensures Bit(Number(z), 33) == (Bit(Number(x), 33) != Bit(Number(y), 33))
    ensures Bit(Number(z), 34) == (Bit(Number(x), 34) != Bit(Number(y), 34))
    ensures Bit(Number(z), 35) == (Bit(Number(x), 35) != Bit(Number(y), 35))
    ensures Bit(Number(z), 36) == (Bit(Number(x), 36) != Bit(Number(y), 36))
    ensures Bit(Number(z), 37) == (Bit(Number(x), 37) != Bit(Number(y), 37))
    ensures Bit(Number(z), 38) == (Bit(Number(x), 38) != Bit(Number(y), 38))
    ensures Bit(Number(z), 39) == (Bit(Number(x), 39) != Bit(Number(y), 39))
  {
    Byte4(x);
    Byte4(y);
    Byte4(z);
    hide Bit;
  }

  lemma ByteSum5(x: bv64, y: bv64, z: bv64)
    requires z == x ^ y
    ensures Bit(Number(z), 40) == (Bit(Number(x), 40) != Bit(Number(y), 40))
    ensures Bit(Number(z), 41) == (Bit(Number(x), 41) != Bit(Number(y), 41))
    ensures Bit(Number(z), 42) == (Bit(Number(x), 42) != Bit(Number(y), 42))
    ensures Bit(Number(z), 43) == (Bit(Number(x), 43) != Bit(Number(y), 43))
    ensures Bit(Number(z), 44) == (Bit(Number(x), 44) != Bit(Number(y), 44))
    ensures Bit(Number(z), 45) == (Bit(Number(x), 45) != Bit(Number(y), 45))
    ensures Bit(Number(z), 46) == (Bit(Number(x), 46) != Bit(Number(y), 46))
    ensures Bit(Number(z), 47) == (Bit(Number(x), 47) != Bit(Number(y), 47))
  {
    Byte5(x);
    Byte5(y);
    Byte5(z);
    hide Bit;
  }

  lemma SumBit(x: bv64, y: bv64, z: bv64, p: int)
    requires Summed(Number(x), Number(y), Number(z)) && 0 <= p < 48
    ensures Adds(Number(x), Number(y), Number(z), p)
  {
    hide Bit, Summed, Adds;
    if p < 8 {
      ByteAdds0(x, y, z);
    } else if p < 16 {
      ByteAdds1(x, y, z);
    } else if p < 24 {
      ByteAdds2(x, y, z);
    } else if p < 32 {
      ByteAdds3(x, y, z);
    } else if p < 40 {
      ByteAdds4(x, y, z);
    } else {
      ByteAdds5(x, y, z);
    }
    AddsOne(Number(x), Number(y), Number(z), p / 8 * 8, p);
  }

  lemma AddsOne(x: Number, y: Number, z: Number, a: int, p: int)
    requires AddsEight(x, y, z, a) && a <= p < a + 8
    ensures Adds(x, y, z, p)
  {
    hide Adds;
    assert p == a || p == a + 1 || p == a + 2 || p == a + 3 || p == a + 4 || p == a + 5 || p == a + 6 || p == a + 7;
  }

  lemma ByteBits0(x: bv64, y: bv64, z: bv64)
    requires Summed(Number(x), Number(y), Number(z))
    ensures Bit(Number(z), 0) == (Bit(Number(x), 0) != Bit(Number(y), 0))
    ensures Bit(Number(z), 1) == (Bit(Number(x), 1) != Bit(Number(y), 1))
    ensures Bit(Number(z), 2) == (Bit(Number(x), 2) != Bit(Number(y), 2))
    ensures Bit(Number(z), 3) == (Bit(Number(x), 3) != Bit(Number(y), 3))
    ensures Bit(Number(z), 4) == (Bit(Number(x), 4) != Bit(Number(y), 4))
    ensures Bit(Number(z), 5) == (Bit(Number(x), 5) != Bit(Number(y), 5))
    ensures Bit(Number(z), 6) == (Bit(Number(x), 6) != Bit(Number(y), 6))
    ensures Bit(Number(z), 7) == (Bit(Number(x), 7) != Bit(Number(y), 7))
  {
    hide Summed, Bit;
    SumIs(x, y, z);
    ByteSum0(x, y, z);
  }

  lemma ByteBits1(x: bv64, y: bv64, z: bv64)
    requires Summed(Number(x), Number(y), Number(z))
    ensures Bit(Number(z), 8) == (Bit(Number(x), 8) != Bit(Number(y), 8))
    ensures Bit(Number(z), 9) == (Bit(Number(x), 9) != Bit(Number(y), 9))
    ensures Bit(Number(z), 10) == (Bit(Number(x), 10) != Bit(Number(y), 10))
    ensures Bit(Number(z), 11) == (Bit(Number(x), 11) != Bit(Number(y), 11))
    ensures Bit(Number(z), 12) == (Bit(Number(x), 12) != Bit(Number(y), 12))
    ensures Bit(Number(z), 13) == (Bit(Number(x), 13) != Bit(Number(y), 13))
    ensures Bit(Number(z), 14) == (Bit(Number(x), 14) != Bit(Number(y), 14))
    ensures Bit(Number(z), 15) == (Bit(Number(x), 15) != Bit(Number(y), 15))
  {
    hide Summed, Bit;
    SumIs(x, y, z);
    ByteSum1(x, y, z);
  }

  lemma ByteBits2(x: bv64, y: bv64, z: bv64)
    requires Summed(Number(x), Number(y), Number(z))
    ensures Bit(Number(z), 16) == (Bit(Number(x), 16) != Bit(Number(y), 16))
    ensures Bit(Number(z), 17) == (Bit(Number(x), 17) != Bit(Number(y), 17))
    ensures Bit(Number(z), 18) == (Bit(Number(x), 18) != Bit(Number(y), 18))
    ensures Bit(Number(z), 19) == (Bit(Number(x), 19) != Bit(Number(y), 19))
    ensures Bit(Number(z), 20) == (Bit(Number(x), 20) != Bit(Number(y), 20))
    ensures Bit(Number(z), 21) == (Bit(Number(x), 21) != Bit(Number(y), 21))
    ensures Bit(Number(z), 22) == (Bit(Number(x), 22) != Bit(Number(y), 22))
    ensures Bit(Number(z), 23) == (Bit(Number(x), 23) != Bit(Number(y), 23))
  {
    hide Summed, Bit;
    SumIs(x, y, z);
    ByteSum2(x, y, z);
  }

  lemma ByteBits3(x: bv64, y: bv64, z: bv64)
    requires Summed(Number(x), Number(y), Number(z))
    ensures Bit(Number(z), 24) == (Bit(Number(x), 24) != Bit(Number(y), 24))
    ensures Bit(Number(z), 25) == (Bit(Number(x), 25) != Bit(Number(y), 25))
    ensures Bit(Number(z), 26) == (Bit(Number(x), 26) != Bit(Number(y), 26))
    ensures Bit(Number(z), 27) == (Bit(Number(x), 27) != Bit(Number(y), 27))
    ensures Bit(Number(z), 28) == (Bit(Number(x), 28) != Bit(Number(y), 28))
    ensures Bit(Number(z), 29) == (Bit(Number(x), 29) != Bit(Number(y), 29))
    ensures Bit(Number(z), 30) == (Bit(Number(x), 30) != Bit(Number(y), 30))
    ensures Bit(Number(z), 31) == (Bit(Number(x), 31) != Bit(Number(y), 31))
  {
    hide Summed, Bit;
    SumIs(x, y, z);
    ByteSum3(x, y, z);
  }

  lemma ByteBits4(x: bv64, y: bv64, z: bv64)
    requires Summed(Number(x), Number(y), Number(z))
    ensures Bit(Number(z), 32) == (Bit(Number(x), 32) != Bit(Number(y), 32))
    ensures Bit(Number(z), 33) == (Bit(Number(x), 33) != Bit(Number(y), 33))
    ensures Bit(Number(z), 34) == (Bit(Number(x), 34) != Bit(Number(y), 34))
    ensures Bit(Number(z), 35) == (Bit(Number(x), 35) != Bit(Number(y), 35))
    ensures Bit(Number(z), 36) == (Bit(Number(x), 36) != Bit(Number(y), 36))
    ensures Bit(Number(z), 37) == (Bit(Number(x), 37) != Bit(Number(y), 37))
    ensures Bit(Number(z), 38) == (Bit(Number(x), 38) != Bit(Number(y), 38))
    ensures Bit(Number(z), 39) == (Bit(Number(x), 39) != Bit(Number(y), 39))
  {
    hide Summed, Bit;
    SumIs(x, y, z);
    ByteSum4(x, y, z);
  }

  lemma ByteBits5(x: bv64, y: bv64, z: bv64)
    requires Summed(Number(x), Number(y), Number(z))
    ensures Bit(Number(z), 40) == (Bit(Number(x), 40) != Bit(Number(y), 40))
    ensures Bit(Number(z), 41) == (Bit(Number(x), 41) != Bit(Number(y), 41))
    ensures Bit(Number(z), 42) == (Bit(Number(x), 42) != Bit(Number(y), 42))
    ensures Bit(Number(z), 43) == (Bit(Number(x), 43) != Bit(Number(y), 43))
    ensures Bit(Number(z), 44) == (Bit(Number(x), 44) != Bit(Number(y), 44))
    ensures Bit(Number(z), 45) == (Bit(Number(x), 45) != Bit(Number(y), 45))
    ensures Bit(Number(z), 46) == (Bit(Number(x), 46) != Bit(Number(y), 46))
    ensures Bit(Number(z), 47) == (Bit(Number(x), 47) != Bit(Number(y), 47))
  {
    hide Summed, Bit;
    SumIs(x, y, z);
    ByteSum5(x, y, z);
  }

  lemma SumIs(x: bv64, y: bv64, z: bv64)
    requires Summed(Number(x), Number(y), Number(z))
    ensures z == x ^ y
  {
  }

  lemma ByteAdds0(x: bv64, y: bv64, z: bv64)
    requires Summed(Number(x), Number(y), Number(z))
    ensures AddsEight(Number(x), Number(y), Number(z), 0)
  {
    hide Bit, Summed;
    ByteBits0(x, y, z);
  }

  lemma ByteAdds1(x: bv64, y: bv64, z: bv64)
    requires Summed(Number(x), Number(y), Number(z))
    ensures AddsEight(Number(x), Number(y), Number(z), 8)
  {
    hide Bit, Summed;
    ByteBits1(x, y, z);
  }

  lemma ByteAdds2(x: bv64, y: bv64, z: bv64)
    requires Summed(Number(x), Number(y), Number(z))
    ensures AddsEight(Number(x), Number(y), Number(z), 16)
  {
    hide Bit, Summed;
    ByteBits2(x, y, z);
  }

  lemma ByteAdds3(x: bv64, y: bv64, z: bv64)
    requires Summed(Number(x), Number(y), Number(z))
    ensures AddsEight(Number(x), Number(y), Number(z), 24)
  {
    hide Bit, Summed;
    ByteBits3(x, y, z);
  }

  lemma ByteAdds4(x: bv64, y: bv64, z: bv64)
    requires Summed(Number(x), Number(y), Number(z))
    ensures AddsEight(Number(x), Number(y), Number(z), 32)
  {
    hide Bit, Summed;
    ByteBits4(x, y, z);
  }

  lemma ByteAdds5(x: bv64, y: bv64, z: bv64)
    requires Summed(Number(x), Number(y), Number(z))
    ensures AddsEight(Number(x), Number(y), Number(z), 40)
  {
    hide Bit, Summed;
    ByteBits5(x, y, z);
  }

  lemma SumWord(x: bv64, y: bv64, z: bv64, w: nat)
    requires Summed(Number(x), Number(y), Number(z)) && w <= 48
    ensures Xored(Word(Number(x), w), Word(Number(y), w)) == Word(Number(z), w)
  {
    hide Bit, Summed;
    forall i | 0 <= i < w ensures Xored(Word(Number(x), w), Word(Number(y), w))[i] == Word(Number(z), w)[i] {
      SumBit(x, y, z, w - 1 - i);
    }
  }

  // ----- halves of a block -----

  lemma JoinedRaw(l: bv64, r: bv64, p: bv64)
    requires p == (l << 32) | r && l < 0x1_0000_0000 && r < 0x1_0000_0000
    ensures (p & 0x1 != 0 <==> r & 0x1 != 0) && (p & 0x100000000 != 0 <==> l & 0x1 != 0)
    ensures (p & 0x2 != 0 <==> r & 0x2 != 0) && (p & 0x200000000 != 0 <==> l & 0x2 != 0)
    ensures (p & 0x4 != 0 <==> r & 0x4 != 0) && (p & 0x400000000 != 0 <==> l & 0x4 != 0)
    ensures (p & 0x8 != 0 <==> r & 0x8 != 0) && (p & 0x800000000 != 0 <==> l & 0x8 != 0)
    ensures (p & 0x10 != 0 <==> r & 0x10 != 0) && (p & 0x1000000000 != 0 <==> l & 0x10 != 0)
    ensures (p & 0x20 != 0 <==> r & 0x20 != 0) && (p & 0x2000000000 != 0 <==> l & 0x20 != 0)
    ensures (p & 0x40 != 0 <==> r & 0x40 != 0) && (p & 0x4000000000 != 0 <==> l & 0x40 != 0)
    ensures (p & 0x80 != 0 <==> r & 0x80 != 0) && (p & 0x8000000000 != 0 <==> l & 0x80 != 0)
    ensures (p & 0x100 != 0 <==> r & 0x100 != 0) && (p & 0x10000000000 != 0 <==> l & 0x100 != 0)
    ensures (p & 0x200 != 0 <==> r & 0x200 != 0) && (p & 0x20000000000 != 0 <==> l & 0x200 != 0)
    ensures (p & 0x400 != 0 <==> r & 0x400 != 0) && (p & 0x40000000000 != 0 <==> l & 0x400 != 0)
    ensures (p & 0x800 != 0 <==> r & 0x800 != 0) && (p & 0x80000000000 != 0 <==> l & 0x800 != 0)
    ensures (p & 0x1000 != 0 <==> r & 0x1000 != 0) && (p & 0x100000000000 != 0 <==> l & 0x1000 != 0)
    ensures (p & 0x2000 != 0 <==> r & 0x2000 != 0) && (p & 0x200000000000 != 0 <==> l & 0x2000 != 0)
    ensures (p & 0x4000 != 0 <==> r & 0x4000 != 0) && (p & 0x400000000000 != 0 <==> l & 0x4000 != 0)
    ensures (p & 0x8000 != 0 <==> r & 0x8000 != 0) && (p & 0x800000000000 != 0 <==> l & 0x8000 != 0)
    ensures (p & 0x10000 != 0 <==> r & 0x10000 != 0) && (p & 0x1000000000000 != 0 <==> l & 0x10000 != 0)
    ensures (p & 0x20000 != 0 <==> r & 0x20000 != 0) && (p & 0x2000000000000 != 0 <==> l & 0x20000 != 0)
    ensures (p & 0x40000 != 0 <==> r & 0x40000 != 0) && (p & 0x4000000000000 != 0 <==> l & 0x40000 != 0)
    ensures (p & 0x80000 != 0 <==> r & 0x80000 != 0) && (p & 0x8000000000000 != 0 <==> l & 0x80000 != 0)
    ensures (p & 0x100000 != 0 <==> r & 0x100000 != 0) && (p & 0x10000000000000 != 0 <==> l & 0x100000 != 0)
    ensures (p & 0x200000 != 0 <==> r & 0x200000 != 0) && (p & 0x20000000000000 != 0 <==> l & 0x200000 != 0)
    ensures (p & 0x400000 != 0 <==> r & 0x400000 != 0) && (p & 0x40000000000000 != 0 <==> l & 0x400000 != 0)
    ensures (p & 0x800000 != 0 <==> r & 0x800000 != 0) && (p & 0x80000000000000 != 0 <==> l & 0x800000 != 0)
    ensures (p & 0x1000000 != 0 <==> r & 0x1000000 != 0) && (p & 0x100000000000000 != 0 <==> l & 0x1000000 != 0)
    ensures (p & 0x2000000 != 0 <==> r & 0x2000000 != 0) && (p & 0x200000000000000 != 0 <==> l & 0x2000000 != 0)
    ensures (p & 0x4000000 != 0 <==> r & 0x4000000 != 0) && (p & 0x400000000000000 != 0 <==> l & 0x4000000 != 0)
    ensures (p & 0x8000000 != 0 <==> r & 0x8000000 != 0) && (p & 0x800000000000000 != 0 <==> l & 0x8000000 != 0)
    ensures (p & 0x10000000 != 0 <==> r & 0x10000000 != 0) && (p & 0x1000000000000000 != 0 <==> l & 0x10000000 != 0)
    ensures (p & 0x20000000 != 0 <==> r & 0x20000000 != 0) && (p & 0x2000000000000000 != 0 <==> l & 0x20000000 != 0)
    ensures (p & 0x40000000 != 0 <==> r & 0x40000000 != 0) && (p & 0x4000000000000000 != 0 <==> l & 0x40000000 != 0)
    ensures (p & 0x80000000 != 0 <==> r & 0x80000000 != 0) && (p & 0x8000000000000000 != 0 <==> l & 0x80000000 != 0)
  {
  }

  ghost predicate JoinedAt(l: Number, r: Number, p: Number, i: int)
  {
    Bit(p, i) == Bit(r, i) && Bit(p, i + 32) == Bit(l, i)
  }

  ghost predicate JoinedEight(l: Number, r: Number, p: Number, i: int)
  {
    && JoinedAt(l, r, p, i) && JoinedAt(l, r, p, i + 1) && JoinedAt(l, r, p, i + 2) && JoinedAt(l, r, p, i + 3)
    && JoinedAt(l, r, p, i + 4) && JoinedAt(l, r, p, i + 5) && JoinedAt(l, r, p, i + 6) && JoinedAt(l, r, p, i + 7)
  }

  lemma JoinedByte0(l: bv64, r: bv64, p: bv64)
    requires p == (l << 32) | r && l < 0x1_0000_0000 && r < 0x1_0000_0000
    ensures JoinedEight(Number(l), Number(r), Number(p), 0)
  {
    JoinedRaw(l, r, p);
    Byte0(l);
    Byte0(r);
    Byte0(p);
    Byte4(p);
    hide Bit;
  }

  lemma JoinedByte1(l: bv64, r: bv64, p: bv64)
    requires p == (l << 32) | r && l < 0x1_0000_0000 && r < 0x1_0000_0000
    ensures JoinedEight(Number(l), Number(r), Number(p), 8)
  {
    JoinedRaw(l, r, p);
    Byte1(l);
    Byte1(r);
    Byte1(p);
    Byte5(p);
    hide Bit;
  }

  lemma JoinedByte2(l: bv64, r: bv64, p: bv64)
    requires p == (l << 32) | r && l < 0x1_0000_0000 && r < 0x1_0000_0000
    ensures JoinedEight(Number(l), Number(r), Number(p), 16)
  {
    JoinedRaw(l, r, p);
    Byte2(l);
    Byte2(r);
    Byte2(p);
    Byte6(p);
    hide Bit;
  }

  lemma JoinedByte3(l: bv64, r: bv64, p: bv64)
    requires p == (l << 32) | r && l < 0x1_0000_0000 && r < 0x1_0000_0000
    ensures JoinedEight(Number(l), Number(r), Number(p), 24)
  {
    JoinedRaw(l, r, p);
    Byte3(l);
    Byte3(r);
    Byte3(p);
    Byte7(p);
    hide Bit;
  }

  lemma JoinedWord(l: bv64, r: bv64, p: bv64)
    requires p == (l << 32) | r && l < 0x1_0000_0000 && r < 0x1_0000_0000
    ensures Word(Number(p), 64) == Word(Number(l), 32) + Word(Number(r), 32)
  {
    hide Bit, JoinedAt, JoinedEight;
    JoinedByte0(l, r, p);
    JoinedByte1(l, r, p);
    JoinedByte2(l, r, p);
    JoinedByte3(l, r, p);
    JoinedBits(Number(l), Number(r), Number(p));
  }

  lemma JoinedOne(l: Number, r: Number, p: Number, i: int)
    requires JoinedEight(l, r, p, 0) && JoinedEight(l, r, p, 8) && JoinedEight(l, r, p, 16) && JoinedEight(l, r, p, 24)
    requires 0 <= i < 32
    ensures JoinedAt(l, r, p, i)
  {
    hide JoinedAt;
    var a, j := i / 8 * 8, i % 8;
    assert a == 0 || a == 8 || a == 16 || a == 24;
    assert j == 0 || j == 1 || j == 2 || j == 3 || j == 4 || j == 5 || j == 6 || j == 7;
  }

  lemma JoinedBits(l: Number, r: Number, p: Number)
    requires JoinedEight(l, r, p, 0) && JoinedEight(l, r, p, 8) && JoinedEight(l, r, p, 16) && JoinedEight(l, r, p, 24)
    ensures Word(p, 64) == Word(l, 32) + Word(r, 32)
  {
    hide Bit, JoinedEight;
    forall i | 0 <= i < 64 ensures Word(p, 64)[i] == (Word(l, 32) + Word(r, 32))[i] {
      JoinedOne(l, r, p, if i < 32 then 31 - i else 63 - i);
    }
  }

  // ----- rotations -----

  /** Both halves of 56 bits rotated by one, as a permutation. */
  const ROLL: seq<int> := seq(56, i => if i == 27 || i == 55 then i - 26 else i + 2)

  lemma RollTable()
    ensures |ROLL| == 56 && Picks(ROLL, 56)
  {
  }

  /** The key with both halves rotated by one. */
  function Rolled(x: bv64): bv64
  {
    ((x << 1) & 0x00FF_FFFF_EFFF_FFFE) | ((x >> 27) & 0x1000_0001)
  }

  lemma RolledRaw(x: bv64)
    ensures (Rolled(x) & 0x80000000000000 != 0 <==> x & 0x40000000000000 != 0) &&
      (Rolled(x) & 0x40000000000000 != 0 <==> x & 0x20000000000000 != 0)
    ensures (Rolled(x) & 0x20000000000000 != 0 <==> x & 0x10000000000000 != 0) &&
      (Rolled(x) & 0x10000000000000 != 0 <==> x & 0x8000000000000 != 0)
    ensures (Rolled(x) & 0x8000000000000 != 0 <==> x & 0x4000000000000 != 0) &&
      (Rolled(x) & 0x4000000000000 != 0 <==> x & 0x2000000000000 != 0)
    ensures (Rolled(x) & 0x2000000000000 != 0 <==> x & 0x1000000000000 != 0) &&
      (Rolled(x) & 0x1000000000000 != 0 <==> x & 0x800000000000 != 0)
    ensures (Rolled(x) & 0x800000000000 != 0 <==> x & 0x400000000000 != 0) &&
      (Rolled(x) & 0x400000000000 != 0 <==> x & 0x200000000000 != 0)
    ensures (Rolled(x) & 0x200000000000 != 0 <==> x & 0x100000000000 != 0) &&
      (Rolled(x) & 0x100000000000 != 0 <==> x & 0x80000000000 != 0)
    ensures (Rolled(x) & 0x80000000000 != 0 <==> x & 0x40000000000 != 0) &&
      (Rolled(x) & 0x40000000000 != 0 <==> x & 0x20000000000 != 0)
    ensures (Rolled(x) & 0x20000000000 != 0 <==> x & 0x10000000000 != 0) &&
      (Rolled(x) & 0x10000000000 != 0 <==> x & 0x8000000000 != 0)
    ensures (Rolled(x) & 0x8000000000 != 0 <==> x & 0x4000000000 != 0) &&
      (Rolled(x) & 0x4000000000 != 0 <==> x & 0x2000000000 != 0)
    ensures (Rolled(x) & 0x2000000000 != 0 <==> x & 0x1000000000 != 0) &&
      (Rolled(x) & 0x1000000000 != 0 <==> x & 0x800000000 != 0)
    ensures (Rolled(x) & 0x800000000 != 0 <==> x & 0x400000000 != 0) &&
      (Rolled(x) & 0x400000000 != 0 <==> x & 0x200000000 != 0)
    ensures (Rolled(x) & 0x200000000 != 0 <==> x & 0x100000000 != 0) &&
      (Rolled(x) & 0x100000000 != 0 <==> x & 0x80000000 != 0)
    ensures (Rolled(x) & 0x80000000 != 0 <==> x & 0x40000000 != 0) &&
      (Rolled(x) & 0x40000000 != 0 <==> x & 0x20000000 != 0)
    ensures (Rolled(x) & 0x20000000 != 0 <==> x & 0x10000000 != 0) &&
      (Rolled(x) & 0x10000000 != 0 <==> x & 0x80000000000000 != 0)
    ensures (Rolled(x) & 0x8000000 != 0 <==> x & 0x4000000 != 0) && (Rolled(x) & 0x4000000 != 0 <==> x & 0x2000000 != 0)
    ensures (Rolled(x) & 0x2000000 != 0 <==> x & 0x1000000 != 0) && (Rolled(x) & 0x1000000 != 0 <==> x & 0x800000 != 0)
    ensures (Rolled(x) & 0x800000 != 0 <==> x & 0x400000 != 0) && (Rolled(x) & 0x400000 != 0 <==> x & 0x200000 != 0)
    ensures (Rolled(x) & 0x200000 != 0 <==> x & 0x100000 != 0) && (Rolled(x) & 0x100000 != 0 <==> x & 0x80000 != 0)
    ensures (Rolled(x) & 0x80000 != 0 <==> x & 0x40000 != 0) && (Rolled(x) & 0x40000 != 0 <==> x & 0x20000 != 0)
    ensures (Rolled(x) & 0x20000 != 0 <==> x & 0x10000 != 0) && (Rolled(x) & 0x10000 != 0 <==> x & 0x8000 != 0)
    ensures (Rolled(x) & 0x8000 != 0 <==> x & 0x4000 != 0) && (Rolled(x) & 0x4000 != 0 <==> x & 0x2000 != 0)
    ensures (Rolled(x) & 0x2000 != 0 <==> x & 0x1000 != 0) && (Rolled(x) & 0x1000 != 0 <==> x & 0x800 != 0)
    ensures (Rolled(x) & 0x800 != 0 <==> x & 0x400 != 0) && (Rolled(x) & 0x400 != 0 <==> x & 0x200 != 0)
    ensures (Rolled(x) & 0x200 != 0 <==> x & 0x100 != 0) && (Rolled(x) & 0x100 != 0 <==> x & 0x80 != 0)
    ensures (Rolled(x) & 0x80 != 0 <==> x & 0x40 != 0) && (Rolled(x) & 0x40 != 0 <==> x & 0x20 != 0)
    ensures (Rolled(x) & 0x20 != 0 <==> x & 0x10 != 0) && (Rolled(x) & 0x10 != 0 <==> x & 0x8 != 0)
    ensures (Rolled(x) & 0x8 != 0 <==> x & 0x4 != 0) && (Rolled(x) & 0x4 != 0 <==> x & 0x2 != 0)
    ensures (Rolled(x) & 0x2 != 0 <==> x & 0x1 != 0) && (Rolled(x) & 0x1 != 0 <==> x & 0x8000000 != 0)
  {
  }

  lemma RolledCopies0(x: bv64)
    ensures Copied(Number(x), 56, Number(Rolled(x)), 56, 0, 2, 3, 4, 5, 6, 7, 8, 9)
    ensures Copied(Number(x), 56, Number(Rolled(x)), 56, 8, 10, 11, 12, 13, 14, 15, 16, 17)
    ensures Copied(Number(x), 56, Number(Rolled(x)), 56, 16, 18, 19, 20, 21, 22, 23, 24, 25)
  {
    RolledRaw(x);
    Byte3(x); Byte4(x); Byte5(x); Byte6(x); Byte4(Rolled(x)); Byte5(Rolled(x)); Byte6(Rolled(x));
    hide Bit, Rolled;
  }

  lemma RolledCopies24(x: bv64)
    ensures Copied(Number(x), 56, Number(Rolled(x)), 56, 24, 26, 27, 28, 1, 30, 31, 32, 33)
    ensures Copied(Number(x), 56, Number(Rolled(x)), 56, 32, 34, 35, 36, 37, 38, 39, 40, 41)
    ensures Copied(Number(x), 56, Number(Rolled(x)), 56, 40, 42, 43, 44, 45, 46, 47, 48, 49)
  {
    RolledRaw(x);
    Byte0(x); Byte1(x); Byte2(x); Byte3(x); Byte6(x); Byte1(Rolled(x)); Byte2(Rolled(x)); Byte3(Rolled(x));
    hide Bit, Rolled;
  }

  lemma RolledCopies48(x: bv64)
    ensures Copied(Number(x), 56, Number(Rolled(x)), 56, 48, 50, 51, 52, 53, 54, 55, 56, 29)
  {
    RolledRaw(x);
    Byte0(x); Byte3(x); Byte0(Rolled(x));
    hide Bit, Rolled;
  }

  lemma RolledRow0()
    ensures Row(ROLL, 0, 2, 3, 4, 5, 6, 7, 8, 9)
  {
  }

  lemma RolledRow8()
    ensures Row(ROLL, 8, 10, 11, 12, 13, 14, 15, 16, 17)
  {
  }

  lemma RolledRow16()
    ensures Row(ROLL, 16, 18, 19, 20, 21, 22, 23, 24, 25)
  {
  }

  lemma RolledRow24()
    ensures Row(ROLL, 24, 26, 27, 28, 1, 30, 31, 32, 33)
  {
  }

  lemma RolledRow32()
    ensures Row(ROLL, 32, 34, 35, 36, 37, 38, 39, 40, 41)
  {
  }

  lemma RolledRow40()
    ensures Row(ROLL, 40, 42, 43, 44, 45, 46, 47, 48, 49)
  {
  }

  lemma RolledRow48()
    ensures Row(ROLL, 48, 50, 51, 52, 53, 54, 55, 56, 29)
  {
  }

  lemma RolledWord(x: bv64)
    ensures |ROLL| == 56 && Picks(ROLL, 56) && Permuted(Word(Number(x), 56), ROLL) == Word(Number(Rolled(x)), 56)
  {
    hide Bit, Rolled, MovedEight, Row, Copied, ROLL, Word;
    RollTable();
    RolledCopies0(x); RolledCopies24(x); RolledCopies48(x);
    RolledRow0();
    CopiedMoves(Number(x), 56, ROLL, Number(Rolled(x)), 0, 2, 3, 4, 5, 6, 7, 8, 9);
    RolledRow8();
    CopiedMoves(Number(x), 56, ROLL, Number(Rolled(x)), 8, 10, 11, 12, 13, 14, 15, 16, 17);
    RolledRow16();
    CopiedMoves(Number(x), 56, ROLL, Number(Rolled(x)), 16, 18, 19, 20, 21, 22, 23, 24, 25);
    RolledRow24();
    CopiedMoves(Number(x), 56, ROLL, Number(Rolled(x)), 24, 26, 27, 28, 1, 30, 31, 32, 33);
    RolledRow32();
    CopiedMoves(Number(x), 56, ROLL, Number(Rolled(x)), 32, 34, 35, 36, 37, 38, 39, 40, 41);
    RolledRow40();
    CopiedMoves(Number(x), 56, ROLL, Number(Rolled(x)), 40, 42, 43, 44, 45, 46, 47, 48, 49);
    RolledRow48();
    CopiedMoves(Number(x), 56, ROLL, Number(Rolled(x)), 48, 50, 51, 52, 53, 54, 55, 56, 29);
    PermutedWord(Number(x), 56, ROLL, Number(Rolled(x)));
  }

  /** The two halves of a key. */
  ghost predicate Halved(x: Number, c: Bits, d: Bits)
  {
    |c| == |d| == 28 && Word(x, 56) == c + d
  }

  lemma RolledHalves(x: bv64, c: Bits, d: Bits)
    requires Halved(Number(x), c, d)
    ensures Halved(Number(Rolled(x)), Rotated(c, 1), Rotated(d, 1))
  {
    hide Bit, Rolled, Word, ROLL, Permuted, Rotated;
    RolledWord(x);
    RollIs(c, d);
  }

  lemma RollIs(c: Bits, d: Bits)
    requires |c| == |d| == 28
    ensures |ROLL| == 56 && Picks(ROLL, 56) && Permuted(c + d, ROLL) == Rotated(c, 1) + Rotated(d, 1)
  {
    RollTable();
    forall i | 0 <= i < 56 ensures Permuted(c + d, ROLL)[i] == (Rotated(c, 1) + Rotated(d, 1))[i] {
    }
  }

  /** The key rotated as a round says. */
  function KeyRolled(x: bv64, t: int): bv64
  {
    if t == 1 then Rolled(x) else Rolled(Rolled(x))
  }

  lemma KeyRolledHalves(x: bv64, t: int, c: Bits, d: Bits)
    requires Halved(Number(x), c, d)
    ensures
      var n := if t == 1 then 1 else 2;
      |c| == |d| == 28 && Halved(Number(KeyRolled(x, t)), Rotated(c, n), Rotated(d, n))
  {
    hide Rolled, Rotated;
    HalvedLengths(Number(x), c, d);
    hide Halved;
    RolledHalves(x, c, d);
    if t != 1 {
      RolledHalves(Rolled(x), Rotated(c, 1), Rotated(d, 1));
      RotatedTwice(c, 1, 1);
      RotatedTwice(d, 1, 1);
    }
  }

  lemma HalvedLengths(x: Number, c: Bits, d: Bits)
    requires Halved(x, c, d)
    ensures |c| == |d| == 28
  {
    hide Word;
  }

  // ----- boxes -----

  /** Where in a box six bits point. */
  function Place(y: bv64): int
  {
    (if y & 32 != 0 then 32 else 0) + (if y & 1 != 0 then 16 else 0) + (if y & 16 != 0 then 8 else 0)
    + (if y & 8 != 0 then 4 else 0) + (if y & 4 != 0 then 2 else 0) + (if y & 2 != 0 then 1 else 0)
  }

  /** The four bits d are those of the entry v. */
  ghost predicate Stands(d: bv64, v: int)
  {
    && (d & 8 != 0 <==> NibbleBit(v, 0)) && (d & 4 != 0 <==> NibbleBit(v, 1))
    && (d & 2 != 0 <==> NibbleBit(v, 2)) && (d & 1 != 0 <==> NibbleBit(v, 3))
  }

  ghost predicate Entries(b: seq<int>, r: int, v0: int, v1: int, v2: int, v3: int, v4: int, v5: int, v6: int, v7: int,
                          v8: int, v9: int, v10: int, v11: int, v12: int, v13: int, v14: int, v15: int)
  {
    && |b| == 64 && 0 <= r < 4
    && b[16 * r + 0] == v0 && b[16 * r + 1] == v1 && b[16 * r + 2] == v2 && b[16 * r + 3] == v3
    && b[16 * r + 4] == v4 && b[16 * r + 5] == v5 && b[16 * r + 6] == v6 && b[16 * r + 7] == v7
    && b[16 * r + 8] == v8 && b[16 * r + 9] == v9 && b[16 * r + 10] == v10 && b[16 * r + 11] == v11
    && b[16 * r + 12] == v12 && b[16 * r + 13] == v13 && b[16 * r + 14] == v14 && b[16 * r + 15] == v15
  }

  lemma Places()
    ensures Place(0) == 0 && Place(1) == 16 && Place(2) == 1 && Place(3) == 17
    ensures Place(4) == 2 && Place(5) == 18 && Place(6) == 3 && Place(7) == 19
    ensures Place(8) == 4 && Place(9) == 20 && Place(10) == 5 && Place(11) == 21
    ensures Place(12) == 6 && Place(13) == 22 && Place(14) == 7 && Place(15) == 23
    ensures Place(16) == 8 && Place(17) == 24 && Place(18) == 9 && Place(19) == 25
    ensures Place(20) == 10 && Place(21) == 26 && Place(22) == 11 && Place(23) == 27
    ensures Place(24) == 12 && Place(25) == 28 && Place(26) == 13 && Place(27) == 29
    ensures Place(28) == 14 && Place(29) == 30 && Place(30) == 15 && Place(31) == 31
    ensures Place(32) == 32 && Place(33) == 48 && Place(34) == 33 && Place(35) == 49
    ensures Place(36) == 34 && Place(37) == 50 && Place(38) == 35 && Place(39) == 51
    ensures Place(40) == 36 && Place(41) == 52 && Place(42) == 37 && Place(43) == 53
    ensures Place(44) == 38 && Place(45) == 54 && Place(46) == 39 && Place(47) == 55
    ensures Place(48) == 40 && Place(49) == 56 && Place(50) == 41 && Place(51) == 57
    ensures Place(52) == 42 && Place(53) == 58 && Place(54) == 43 && Place(55) == 59
    ensures Place(56) == 44 && Place(57) == 60 && Place(58) == 45 && Place(59) == 61
    ensures Place(60) == 46 && Place(61) == 62 && Place(62) == 47 && Place(63) == 63
  {
  }

  lemma Digits()
    ensures Stands(0, 0) && Stands(1, 1) && Stands(2, 2) && Stands(3, 3)
    ensures Stands(4, 4) && Stands(5, 5) && Stands(6, 6) && Stands(7, 7)
    ensures Stands(8, 8) && Stands(9, 9) && Stands(10, 10) && Stands(11, 11)
    ensures Stands(12, 12) && Stands(13, 13) && Stands(14, 14) && Stands(15, 15)
  {
  }

  ghost predicate BoxedAt(x: Number, s: Number, q: int)
    requires 0 <= q < 8
  {
    var v := Box(q, Word(x, 48)[6 * q..6 * q + 6]);
    && Bit(s, 31 - 4 * q) == NibbleBit(v, 0) && Bit(s, 30 - 4 * q) == NibbleBit(v, 1)
    && Bit(s, 29 - 4 * q) == NibbleBit(v, 2) && Bit(s, 28 - 4 * q) == NibbleBit(v, 3)
  }

  lemma PlaceOf(y: bv64, s: Bits)
    requires |s| == 6
    requires s[0] == (y & 32 != 0) && s[1] == (y & 16 != 0) && s[2] == (y & 8 != 0)
    requires s[3] == (y & 4 != 0) && s[4] == (y & 2 != 0) && s[5] == (y & 1 != 0)
    ensures Place(y) == Cell(s)
  {
  }

  function Out0(y: bv64): bv64
  {
    ((if y & 33 == 0 then 0xE4D1_2FB8_3A6C_5907 else if y & 33 == 1 then 0x0F74_E2D1_A6CB_9538
      else if y & 33 == 32 then 0x41E8_D62B_FC97_3A50 else 0xFC82_4917_5B3E_A06D) >> (60 - ((y >> 1) & 15) * 4)) & 15
  }

  lemma Outs0()
    ensures Out0(0) == 14 && Out0(1) == 0 && Out0(2) == 4 && Out0(3) == 15
    ensures Out0(4) == 13 && Out0(5) == 7 && Out0(6) == 1 && Out0(7) == 4
    ensures Out0(8) == 2 && Out0(9) == 14 && Out0(10) == 15 && Out0(11) == 2
    ensures Out0(12) == 11 && Out0(13) == 13 && Out0(14) == 8 && Out0(15) == 1
    ensures Out0(16) == 3 && Out0(17) == 10 && Out0(18) == 10 && Out0(19) == 6
    ensures Out0(20) == 6 && Out0(21) == 12 && Out0(22) == 12 && Out0(23) == 11
    ensures Out0(24) == 5 && Out0(25) == 9 && Out0(26) == 9 && Out0(27) == 5
    ensures Out0(28) == 0 && Out0(29) == 3 && Out0(30) == 7 && Out0(31) == 8
    ensures Out0(32) == 4 && Out0(33) == 15 && Out0(34) == 1 && Out0(35) == 12
    ensures Out0(36) == 14 && Out0(37) == 8 && Out0(38) == 8 && Out0(39) == 2
    ensures Out0(40) == 13 && Out0(41) == 4 && Out0(42) == 6 && Out0(43) == 9
    ensures Out0(44) == 2 && Out0(45) == 1 && Out0(46) == 11 && Out0(47) == 7
    ensures Out0(48) == 15 && Out0(49) == 5 && Out0(50) == 12 && Out0(51) == 11
    ensures Out0(52) == 9 && Out0(53) == 3 && Out0(54) == 7 && Out0(55) == 14
    ensures Out0(56) == 3 && Out0(57) == 10 && Out0(58) == 10 && Out0(59) == 0
    ensures Out0(60) == 5 && Out0(61) == 6 && Out0(62) == 0 && Out0(63) == 13
  {
  }

  lemma Top0()
    ensures Entries(BOX0, 0, 14, 4, 13, 1, 2, 15, 11, 8, 3, 10, 6, 12, 5, 9, 0, 7)
    ensures Entries(BOX0, 1, 0, 15, 7, 4, 14, 2, 13, 1, 10, 6, 12, 11, 9, 5, 3, 8)
  {
  }

  lemma Bottom0()
    ensures Entries(BOX0, 2, 4, 1, 14, 8, 13, 6, 2, 11, 15, 12, 9, 7, 3, 10, 5, 0)
    ensures Entries(BOX0, 3, 15, 12, 8, 2, 4, 9, 1, 7, 5, 11, 3, 14, 10, 0, 6, 13)
  {
  }

  lemma Fits0(y: bv64)
    requires y < 64
    ensures |BOX0| == 64 && 0 <= Place(y) < 64 && Stands(Out0(y), BOX0[Place(y)])
  {
    Places();
    Digits();
    Outs0();
    Top0();
    Bottom0();
    hide BOX0, Place, Stands, Out0;
    assert y == 0 || y == 1 || y == 2 || y == 3 || y == 4 || y == 5 || y == 6 || y == 7 || y == 8 || y == 9 ||
      y == 10 ||
      y == 11 || y == 12 || y == 13 || y == 14 || y == 15 || y == 16 || y == 17 || y == 18 || y == 19 || y == 20 ||
      y == 21 || y == 22 || y == 23 || y == 24 || y == 25 || y == 26 || y == 27 || y == 28 || y == 29 || y == 30 ||
      y == 31 || y == 32 || y == 33 || y == 34 || y == 35 || y == 36 || y == 37 || y == 38 || y == 39 || y == 40 ||
      y == 41 || y == 42 || y == 43 || y == 44 || y == 45 || y == 46 || y == 47 || y == 48 || y == 49 || y == 50 ||
      y == 51 || y == 52 || y == 53 || y == 54 || y == 55 || y == 56 || y == 57 || y == 58 || y == 59 || y == 60 ||
      y == 61 || y == 62 || y == 63;
  }

  lemma Six0(x: bv64, y: bv64)
    requires y == (x >> 42) & 63
    ensures y < 64
    ensures (y & 32 != 0 <==> x & 0x800000000000 != 0) && (y & 16 != 0 <==> x & 0x400000000000 != 0)
    ensures (y & 8 != 0 <==> x & 0x200000000000 != 0) && (y & 4 != 0 <==> x & 0x100000000000 != 0)
    ensures (y & 2 != 0 <==> x & 0x80000000000 != 0) && (y & 1 != 0 <==> x & 0x40000000000 != 0)
  {
  }

  lemma Four0(s: bv64, d: bv64)
    requires d == (s >> 28) & 15
    ensures (d & 8 != 0 <==> s & 0x80000000 != 0) && (d & 4 != 0 <==> s & 0x40000000 != 0)
    ensures (d & 2 != 0 <==> s & 0x20000000 != 0) && (d & 1 != 0 <==> s & 0x10000000 != 0)
  {
  }

  lemma Place0(x: bv64, y: bv64)
    requires y == (x >> 42) & 63
    ensures y < 64 && Place(y) == Cell(Word(Number(x), 48)[0..6])
  {
    Six0(x, y);
    Byte5(x);
    hide Bit, Place;
    var six := Word(Number(x), 48)[0..6];
    assert six[0] == Bit(Number(x), 47) && six[1] == Bit(Number(x), 46) && six[2] == Bit(Number(x), 45) &&
      six[3] == Bit(Number(x), 44) && six[4] == Bit(Number(x), 43) && six[5] == Bit(Number(x), 42);
    PlaceOf(y, six);
  }

  lemma Box0(x: bv64, s: bv64, y: bv64, d: bv64)
    requires y == (x >> 42) & 63 && d == (s >> 28) & 15 && Out0(y) == d
    ensures BoxedAt(Number(x), Number(s), 0)
  {
    Place0(x, y);
    Four0(s, d);
    Byte3(s);
    Fits0(y);
    BoxTable(0);
    hide Bit, BOX0, BOX1, BOX2, BOX3, BOX4, BOX5, BOX6, BOX7, Out0, Place, NibbleBit, Word, Cell;
  }

  function Out1(y: bv64): bv64
  {
    ((if y & 33 == 0 then 0xF18E_6B34_972D_C05A else if y & 33 == 1 then 0x3D47_F28E_C01A_69B5
      else if y & 33 == 32 then 0x0E7B_A4D1_58C6_932F else 0xD8A1_3F42_B67C_05E9) >> (60 - ((y >> 1) & 15) * 4)) & 15
  }

  lemma Outs1()
    ensures Out1(0) == 15 && Out1(1) == 3 && Out1(2) == 1 && Out1(3) == 13
    ensures Out1(4) == 8 && Out1(5) == 4 && Out1(6) == 14 && Out1(7) == 7
    ensures Out1(8) == 6 && Out1(9) == 15 && Out1(10) == 11 && Out1(11) == 2
    ensures Out1(12) == 3 && Out1(13) == 8 && Out1(14) == 4 && Out1(15) == 14
    ensures Out1(16) == 9 && Out1(17) == 12 && Out1(18) == 7 && Out1(19) == 0
    ensures Out1(20) == 2 && Out1(21) == 1 && Out1(22) == 13 && Out1(23) == 10
    ensures Out1(24) == 12 && Out1(25) == 6 && Out1(26) == 0 && Out1(27) == 9
    ensures Out1(28) == 5 && Out1(29) == 11 && Out1(30) == 10 && Out1(31) == 5
    ensures Out1(32) == 0 && Out1(33) == 13 && Out1(34) == 14 && Out1(35) == 8
    ensures Out1(36) == 7 && Out1(37) == 10 && Out1(38) == 11 && Out1(39) == 1
    ensures Out1(40) == 10 && Out1(41) == 3 && Out1(42) == 4 && Out1(43) == 15
    ensures Out1(44) == 13 && Out1(45) == 4 && Out1(46) == 1 && Out1(47) == 2
    ensures Out1(48) == 5 && Out1(49) == 11 && Out1(50) == 8 && Out1(51) == 6
    ensures Out1(52) == 12 && Out1(53) == 7 && Out1(54) == 6 && Out1(55) == 12
    ensures Out1(56) == 9 && Out1(57) == 0 && Out1(58) == 3 && Out1(59) == 5
    ensures Out1(60) == 2 && Out1(61) == 14 && Out1(62) == 15 && Out1(63) == 9
  {
  }

  lemma Top1()
    ensures Entries(BOX1, 0, 15, 1, 8, 14, 6, 11, 3, 4, 9, 7, 2, 13, 12, 0, 5, 10)
    ensures Entries(BOX1, 1, 3, 13, 4, 7, 15, 2, 8, 14, 12, 0, 1, 10, 6, 9, 11, 5)
  {
  }

  lemma Bottom1()
    ensures Entries(BOX1, 2, 0, 14, 7, 11, 10, 4, 13, 1, 5, 8, 12, 6, 9, 3, 2, 15)
    ensures Entries(BOX1, 3, 13, 8, 10, 1, 3, 15, 4, 2, 11, 6, 7, 12, 0, 5, 14, 9)
  {
  }

  lemma Fits1(y: bv64)
    requires y < 64
    ensures |BOX1| == 64 && 0 <= Place(y) < 64 && Stands(Out1(y), BOX1[Place(y)])
  {
    Places();
    Digits();
    Outs1();
    Top1();
    Bottom1();
    hide BOX1, Place, Stands, Out1;
    assert y == 0 || y == 1 || y == 2 || y == 3 || y == 4 || y == 5 || y == 6 || y == 7 || y == 8 || y == 9 ||
      y == 10 ||
      y == 11 || y == 12 || y == 13 || y == 14 || y == 15 || y == 16 || y == 17 || y == 18 || y == 19 || y == 20 ||
      y == 21 || y == 22 || y == 23 || y == 24 || y == 25 || y == 26 || y == 27 || y == 28 || y == 29 || y == 30 ||
      y == 31 || y == 32 || y == 33 || y == 34 || y == 35 || y == 36 || y == 37 || y == 38 || y == 39 || y == 40 ||
      y == 41 || y == 42 || y == 43 || y == 44 || y == 45 || y == 46 || y == 47 || y == 48 || y == 49 || y == 50 ||
      y == 51 || y == 52 || y == 53 || y == 54 || y == 55 || y == 56 || y == 57 || y == 58 || y == 59 || y == 60 ||
      y == 61 || y == 62 || y == 63;
  }

  lemma Six1(x: bv64, y: bv64)
    requires y == (x >> 36) & 63
    ensures y < 64
    ensures (y & 32 != 0 <==> x & 0x20000000000 != 0) && (y & 16 != 0 <==> x & 0x10000000000 != 0)
    ensures (y & 8 != 0 <==> x & 0x8000000000 != 0) && (y & 4 != 0 <==> x & 0x4000000000 != 0)
    ensures (y & 2 != 0 <==> x & 0x2000000000 != 0) && (y & 1 != 0 <==> x & 0x1000000000 != 0)
  {
  }

  lemma Four1(s: bv64, d: bv64)
    requires d == (s >> 24) & 15
    ensures (d & 8 != 0 <==> s & 0x8000000 != 0) && (d & 4 != 0 <==> s & 0x4000000 != 0)
    ensures (d & 2 != 0 <==> s & 0x2000000 != 0) && (d & 1 != 0 <==> s & 0x1000000 != 0)
  {
  }

  lemma Place1(x: bv64, y: bv64)
    requires y == (x >> 36) & 63
    ensures y < 64 && Place(y) == Cell(Word(Number(x), 48)[6..12])
  {
    Six1(x, y);
    Byte4(x); Byte5(x);
    hide Bit, Place;
    var six := Word(Number(x), 48)[6..12];
    assert six[0] == Bit(Number(x), 41) && six[1] == Bit(Number(x), 40) && six[2] == Bit(Number(x), 39) &&
      six[3] == Bit(Number(x), 38) && six[4] == Bit(Number(x), 37) && six[5] == Bit(Number(x), 36);
    PlaceOf(y, six);
  }

  lemma Box1(x: bv64, s: bv64, y: bv64, d: bv64)
    requires y == (x >> 36) & 63 && d == (s >> 24) & 15 && Out1(y) == d
    ensures BoxedAt(Number(x), Number(s), 1)
  {
    Place1(x, y);
    Four1(s, d);
    Byte3(s);
    Fits1(y);
    BoxTable(1);
    hide Bit, BOX0, BOX1, BOX2, BOX3, BOX4, BOX5, BOX6, BOX7, Out1, Place, NibbleBit, Word, Cell;
  }

  function Out2(y: bv64): bv64
  {
    ((if y & 33 == 0 then 0xA09E_63F5_1DC7_B428 else if y & 33 == 1 then 0xD709_346A_285E_CBF1
      else if y & 33 == 32 then 0xD649_8F30_B12C_5AE7 else 0x1AD0_6987_4FE3_B52C) >> (60 - ((y >> 1) & 15) * 4)) & 15
  }

  lemma Outs2()
    ensures Out2(0) == 10 && Out2(1) == 13 && Out2(2) == 0 && Out2(3) == 7
    ensures Out2(4) == 9 && Out2(5) == 0 && Out2(6) == 14 && Out2(7) == 9
    ensures Out2(8) == 6 && Out2(9) == 3 && Out2(10) == 3 && Out2(11) == 4
    ensures Out2(12) == 15 && Out2(13) == 6 && Out2(14) == 5 && Out2(15) == 10
    ensures Out2(16) == 1 && Out2(17) == 2 && Out2(18) == 13 && Out2(19) == 8
    ensures Out2(20) == 12 && Out2(21) == 5 && Out2(22) == 7 && Out2(23) == 14
    ensures Out2(24) == 11 && Out2(25) == 12 && Out2(26) == 4 && Out2(27) == 11
    ensures Out2(28) == 2 && Out2(29) == 15 && Out2(30) == 8 && Out2(31) == 1
    ensures Out2(32) == 13 && Out2(33) == 1 && Out2(34) == 6 && Out2(35) == 10
    ensures Out2(36) == 4 && Out2(37) == 13 && Out2(38) == 9 && Out2(39) == 0
    ensures Out2(40) == 8 && Out2(41) == 6 && Out2(42) == 15 && Out2(43) == 9
    ensures Out2(44) == 3 && Out2(45) == 8 && Out2(46) == 0 && Out2(47) == 7
    ensures Out2(48) == 11 && Out2(49) == 4 && Out2(50) == 1 && Out2(51) == 15
    ensures Out2(52) == 2 && Out2(53) == 14 && Out2(54) == 12 && Out2(55) == 3
    ensures Out2(56) == 5 && Out2(57) == 11 && Out2(58) == 10 && Out2(59) == 5
    ensures Out2(60) == 14 && Out2(61) == 2 && Out2(62) == 7 && Out2(63) == 12
  {
  }

  lemma Top2()
    ensures Entries(BOX2, 0, 10, 0, 9, 14, 6, 3, 15, 5, 1, 13, 12, 7, 11, 4, 2, 8)
    ensures Entries(BOX2, 1, 13, 7, 0, 9, 3, 4, 6, 10, 2, 8, 5, 14, 12, 11, 15, 1)
  {
  }

  lemma Bottom2()
    ensures Entries(BOX2, 2, 13, 6, 4, 9, 8, 15, 3, 0, 11, 1, 2, 12, 5, 10, 14, 7)
    ensures Entries(BOX2, 3, 1, 10, 13, 0, 6, 9, 8, 7, 4, 15, 14, 3, 11, 5, 2, 12)
  {
  }

  lemma Fits2(y: bv64)
    requires y < 64
    ensures |BOX2| == 64 && 0 <= Place(y) < 64 && Stands(Out2(y), BOX2[Place(y)])
  {
    Places();
    Digits();
    Outs2();
    Top2();
    Bottom2();
    hide BOX2, Place, Stands, Out2;
    assert y == 0 || y == 1 || y == 2 || y == 3 || y == 4 || y == 5 || y == 6 || y == 7 || y == 8 || y == 9 ||
      y == 10 ||
      y == 11 || y == 12 || y == 13 || y == 14 || y == 15 || y == 16 || y == 17 || y == 18 || y == 19 || y == 20 ||
      y == 21 || y == 22 || y == 23 || y == 24 || y == 25 || y == 26 || y == 27 || y == 28 || y == 29 || y == 30 ||
      y == 31 || y == 32 || y == 33 || y == 34 || y == 35 || y == 36 || y == 37 || y == 38 || y == 39 || y == 40 ||
      y == 41 || y == 42 || y == 43 || y == 44 || y == 45 || y == 46 || y == 47 || y == 48 || y == 49 || y == 50 ||
      y == 51 || y == 52 || y == 53 || y == 54 || y == 55 || y == 56 || y == 57 || y == 58 || y == 59 || y == 60 ||
      y == 61 || y == 62 || y == 63;
  }

  lemma Six2(x: bv64, y: bv64)
    requires y == (x >> 30) & 63
    ensures y < 64
    ensures (y & 32 != 0 <==> x & 0x800000000 != 0) && (y & 16 != 0 <==> x & 0x400000000 != 0)
    ensures (y & 8 != 0 <==> x & 0x200000000 != 0) && (y & 4 != 0 <==> x & 0x100000000 != 0)
    ensures (y & 2 != 0 <==> x & 0x80000000 != 0) && (y & 1 != 0 <==> x & 0x40000000 != 0)
  {
  }

  lemma Four2(s: bv64, d: bv64)
    requires d == (s >> 20) & 15
    ensures (d & 8 != 0 <==> s & 0x800000 != 0) && (d & 4 != 0 <==> s & 0x400000 != 0)
    ensures (d & 2 != 0 <==> s & 0x200000 != 0) && (d & 1 != 0 <==> s & 0x100000 != 0)
  {
  }

  lemma Place2(x: bv64, y: bv64)
    requires y == (x >> 30) & 63
    ensures y < 64 && Place(y) == Cell(Word(Number(x), 48)[12..18])
  {
    Six2(x, y);
    Byte3(x); Byte4(x);
    hide Bit, Place;
    var six := Word(Number(x), 48)[12..18];
    assert six[0] == Bit(Number(x), 35) && six[1] == Bit(Number(x), 34) && six[2] == Bit(Number(x), 33) &&
      six[3] == Bit(Number(x), 32) && six[4] == Bit(Number(x), 31) && six[5] == Bit(Number(x), 30);
    PlaceOf(y, six);
  }

  lemma Box2(x: bv64, s: bv64, y: bv64, d: bv64)
    requires y == (x >> 30) & 63 && d == (s >> 20) & 15 && Out2(y) == d
    ensures BoxedAt(Number(x), Number(s), 2)
  {
    Place2(x, y);
    Four2(s, d);
    Byte2(s);
    Fits2(y);
    BoxTable(2);
    hide Bit, BOX0, BOX1, BOX2, BOX3, BOX4, BOX5, BOX6, BOX7, Out2, Place, NibbleBit, Word, Cell;
  }

  function Out3(y: bv64): bv64
  {
    ((if y & 33 == 0 then 0x7DE3_069A_1285_BC4F else if y & 33 == 1 then 0xD8B5_6F03_472C_1AE9
      else if y & 33 == 32 then 0xA690_CB7D_F13E_5284 else 0x3F06_A1D8_945B_C72E) >> (60 - ((y >> 1) & 15) * 4)) & 15
  }

  lemma Outs3()
    ensures Out3(0) == 7 && Out3(1) == 13 && Out3(2) == 13 && Out3(3) == 8
    ensures Out3(4) == 14 && Out3(5) == 11 && Out3(6) == 3 && Out3(7) == 5
    ensures Out3(8) == 0 && Out3(9) == 6 && Out3(10) == 6 && Out3(11) == 15
    ensures Out3(12) == 9 && Out3(13) == 0 && Out3(14) == 10 && Out3(15) == 3
    ensures Out3(16) == 1 && Out3(17) == 4 && Out3(18) == 2 && Out3(19) == 7
    ensures Out3(20) == 8 && Out3(21) == 2 && Out3(22) == 5 && Out3(23) == 12
    ensures Out3(24) == 11 && Out3(25) == 1 && Out3(26) == 12 && Out3(27) == 10
    ensures Out3(28) == 4 && Out3(29) == 14 && Out3(30) == 15 && Out3(31) == 9
    ensures Out3(32) == 10 && Out3(33) == 3 && Out3(34) == 6 && Out3(35) == 15
    ensures Out3(36) == 9 && Out3(37) == 0 && Out3(38) == 0 && Out3(39) == 6
    ensures Out3(40) == 12 && Out3(41) == 10 && Out3(42) == 11 && Out3(43) == 1
    ensures Out3(44) == 7 && Out3(45) == 13 && Out3(46) == 13 && Out3(47) == 8
    ensures Out3(48) == 15 && Out3(49) == 9 && Out3(50) == 1 && Out3(51) == 4
    ensures Out3(52) == 3 && Out3(53) == 5 && Out3(54) == 14 && Out3(55) == 11
    ensures Out3(56) == 5 && Out3(57) == 12 && Out3(58) == 2 && Out3(59) == 7
    ensures Out3(60) == 8 && Out3(61) == 2 && Out3(62) == 4 && Out3(63) == 14
  {
  }

  lemma Top3()
    ensures Entries(BOX3, 0, 7, 13, 14, 3, 0, 6, 9, 10, 1, 2, 8, 5, 11, 12, 4, 15)
    ensures Entries(BOX3, 1, 13, 8, 11, 5, 6, 15, 0, 3, 4, 7, 2, 12, 1, 10, 14, 9)
  {
  }

  lemma Bottom3()
    ensures Entries(BOX3, 2, 10, 6, 9, 0, 12, 11, 7, 13, 15, 1, 3, 14, 5, 2, 8, 4)
    ensures Entries(BOX3, 3, 3, 15, 0, 6, 10, 1, 13, 8, 9, 4, 5, 11, 12, 7, 2, 14)
  {
  }

  lemma Fits3(y: bv64)
    requires y < 64
    ensures |BOX3| == 64 && 0 <= Place(y) < 64 && Stands(Out3(y), BOX3[Place(y)])
  {
    Places();
    Digits();
    Outs3();
    Top3();
    Bottom3();
    hide BOX3, Place, Stands, Out3;
    assert y == 0 || y == 1 || y == 2 || y == 3 || y == 4 || y == 5 || y == 6 || y == 7 || y == 8 || y == 9 ||
      y == 10 ||
      y == 11 || y == 12 || y == 13 || y == 14 || y == 15 || y == 16 || y == 17 || y == 18 || y == 19 || y == 20 ||
      y == 21 || y == 22 || y == 23 || y == 24 || y == 25 || y == 26 || y == 27 || y == 28 || y == 29 || y == 30 ||
      y == 31 || y == 32 || y == 33 || y == 34 || y == 35 || y == 36 || y == 37 || y == 38 || y == 39 || y == 40 ||
      y == 41 || y == 42 || y == 43 || y == 44 || y == 45 || y == 46 || y == 47 || y == 48 || y == 49 || y == 50 ||
      y == 51 || y == 52 || y == 53 || y == 54 || y == 55 || y == 56 || y == 57 || y == 58 || y == 59 || y == 60 ||
      y == 61 || y == 62 || y == 63;
  }

  lemma Six3(x: bv64, y: bv64)
    requires y == (x >> 24) & 63
    ensures y < 64
    ensures (y & 32 != 0 <==> x & 0x20000000 != 0) && (y & 16 != 0 <==> x & 0x10000000 != 0)
    ensures (y & 8 != 0 <==> x & 0x8000000 != 0) && (y & 4 != 0 <==> x & 0x4000000 != 0)
    ensures (y & 2 != 0 <==> x & 0x2000000 != 0) && (y & 1 != 0 <==> x & 0x1000000 != 0)
  {
  }

  lemma Four3(s: bv64, d: bv64)
    requires d == (s >> 16) & 15
    ensures (d & 8 != 0 <==> s & 0x80000 != 0) && (d & 4 != 0 <==> s & 0x40000 != 0)
    ensures (d & 2 != 0 <==> s & 0x20000 != 0) && (d & 1 != 0 <==> s & 0x10000 != 0)
  {
  }

  lemma Place3(x: bv64, y: bv64)
    requires y == (x >> 24) & 63
    ensures y < 64 && Place(y) == Cell(Word(Number(x), 48)[18..24])
  {
    Six3(x, y);
    Byte3(x);
    hide Bit, Place;
    var six := Word(Number(x), 48)[18..24];
    assert six[0] == Bit(Number(x), 29) && six[1] == Bit(Number(x), 28) && six[2] == Bit(Number(x), 27) &&
      six[3] == Bit(Number(x), 26) && six[4] == Bit(Number(x), 25) && six[5] == Bit(Number(x), 24);
    PlaceOf(y, six);
  }

  lemma Box3(x: bv64, s: bv64, y: bv64, d: bv64)
    requires y == (x >> 24) & 63 && d == (s >> 16) & 15 && Out3(y) == d
    ensures BoxedAt(Number(x), Number(s), 3)
  {
    Place3(x, y);
    Four3(s, d);
    Byte2(s);
    Fits3(y);
    BoxTable(3);
    hide Bit, BOX0, BOX1, BOX2, BOX3, BOX4, BOX5, BOX6, BOX7, Out3, Place, NibbleBit, Word, Cell;
  }

  function Out4(y: bv64): bv64
  {
    ((if y & 33 == 0 then 0x2C41_7AB6_853F_D0E9 else if y & 33 == 1 then 0xEB2C_47D1_50FA_3986
      else if y & 33 == 32 then 0x421B_AD78_F9C5_630E else 0xB8C7_1E2D_6F09_A453) >> (60 - ((y >> 1) & 15) * 4)) & 15
  }

  lemma Outs4()
    ensures Out4(0) == 2 && Out4(1) == 14 && Out4(2) == 12 && Out4(3) == 11
    ensures Out4(4) == 4 && Out4(5) == 2 && Out4(6) == 1 && Out4(7) == 12
    ensures Out4(8) == 7 && Out4(9) == 4 && Out4(10) == 10 && Out4(11) == 7
    ensures Out4(12) == 11 && Out4(13) == 13 && Out4(14) == 6 && Out4(15) == 1
    ensures Out4(16) == 8 && Out4(17) == 5 && Out4(18) == 5 && Out4(19) == 0
    ensures Out4(20) == 3 && Out4(21) == 15 && Out4(22) == 15 && Out4(23) == 10
    ensures Out4(24) == 13 && Out4(25) == 3 && Out4(26) == 0 && Out4(27) == 9
    ensures Out4(28) == 14 && Out4(29) == 8 && Out4(30) == 9 && Out4(31) == 6
    ensures Out4(32) == 4 && Out4(33) == 11 && Out4(34) == 2 && Out4(35) == 8
    ensures Out4(36) == 1 && Out4(37) == 12 && Out4(38) == 11 && Out4(39) == 7
    ensures Out4(40) == 10 && Out4(41) == 1 && Out4(42) == 13 && Out4(43) == 14
    ensures Out4(44) == 7 && Out4(45) == 2 && Out4(46) == 8 && Out4(47) == 13
    ensures Out4(48) == 15 && Out4(49) == 6 && Out4(50) == 9 && Out4(51) == 15
    ensures Out4(52) == 12 && Out4(53) == 0 && Out4(54) == 5 && Out4(55) == 9
    ensures Out4(56) == 6 && Out4(57) == 10 && Out4(58) == 3 && Out4(59) == 4
    ensures Out4(60) == 0 && Out4(61) == 5 && Out4(62) == 14 && Out4(63) == 3
  {
  }

  lemma Top4()
    ensures Entries(BOX4, 0, 2, 12, 4, 1, 7, 10, 11, 6, 8, 5, 3, 15, 13, 0, 14, 9)
    ensures Entries(BOX4, 1, 14, 11, 2, 12, 4, 7, 13, 1, 5, 0, 15, 10, 3, 9, 8, 6)
  {
  }

  lemma Bottom4()
    ensures Entries(BOX4, 2, 4, 2, 1, 11, 10, 13, 7, 8, 15, 9, 12, 5, 6, 3, 0, 14)
    ensures Entries(BOX4, 3, 11, 8, 12, 7, 1, 14, 2, 13, 6, 15, 0, 9, 10, 4, 5, 3)
  {
  }

  lemma Fits4(y: bv64)
    requires y < 64
    ensures |BOX4| == 64 && 0 <= Place(y) < 64 && Stands(Out4(y), BOX4[Place(y)])
  {
    Places();
    Digits();
    Outs4();
    Top4();
    Bottom4();
    hide BOX4, Place, Stands, Out4;
    assert y == 0 || y == 1 || y == 2 || y == 3 || y == 4 || y == 5 || y == 6 || y == 7 || y == 8 || y == 9 ||
      y == 10 ||
      y == 11 || y == 12 || y == 13 || y == 14 || y == 15 || y == 16 || y == 17 || y == 18 || y == 19 || y == 20 ||
      y == 21 || y == 22 || y == 23 || y == 24 || y == 25 || y == 26 || y == 27 || y == 28 || y == 29 || y == 30 ||
      y == 31 || y == 32 || y == 33 || y == 34 || y == 35 || y == 36 || y == 37 || y == 38 || y == 39 || y == 40 ||
      y == 41 || y == 42 || y == 43 || y == 44 || y == 45 || y == 46 || y == 47 || y == 48 || y == 49 || y == 50 ||
      y == 51 || y == 52 || y == 53 || y == 54 || y == 55 || y == 56 || y == 57 || y == 58 || y == 59 || y == 60 ||
      y == 61 || y == 62 || y == 63;
  }

  lemma Six4(x: bv64, y: bv64)
    requires y == (x >> 18) & 63
    ensures y < 64
    ensures (y & 32 != 0 <==> x & 0x800000 != 0) && (y & 16 != 0 <==> x & 0x400000 != 0)
    ensures (y & 8 != 0 <==> x & 0x200000 != 0) && (y & 4 != 0 <==> x & 0x100000 != 0)
    ensures (y & 2 != 0 <==> x & 0x80000 != 0) && (y & 1 != 0 <==> x & 0x40000 != 0)
  {
  }

  lemma Four4(s: bv64, d: bv64)
    requires d == (s >> 12) & 15
    ensures (d & 8 != 0 <==> s & 0x8000 != 0) && (d & 4 != 0 <==> s & 0x4000 != 0)
    ensures (d & 2 != 0 <==> s & 0x2000 != 0) && (d & 1 != 0 <==> s & 0x1000 != 0)
  {
  }

  lemma Place4(x: bv64, y: bv64)
    requires y == (x >> 18) & 63
    ensures y < 64 && Place(y) == Cell(Word(Number(x), 48)[24..30])
  {
    Six4(x, y);
    Byte2(x);
    hide Bit, Place;
    var six := Word(Number(x), 48)[24..30];
    assert six[0] == Bit(Number(x), 23) && six[1] == Bit(Number(x), 22) && six[2] == Bit(Number(x), 21) &&
      six[3] == Bit(Number(x), 20) && six[4] == Bit(Number(x), 19) && six[5] == Bit(Number(x), 18);
    PlaceOf(y, six);
  }

  lemma Box4(x: bv64, s: bv64, y: bv64, d: bv64)
    requires y == (x >> 18) & 63 && d == (s >> 12) & 15 && Out4(y) == d
    ensures BoxedAt(Number(x), Number(s), 4)
  {
    Place4(x, y);
    Four4(s, d);
    Byte1(s);
    Fits4(y);
    BoxTable(4);
    hide Bit, BOX0, BOX1, BOX2, BOX3, BOX4, BOX5, BOX6, BOX7, Out4, Place, NibbleBit, Word, Cell;
  }

  function Out5(y: bv64): bv64
  {
    ((if y & 33 == 0 then 0xC1AF_9268_0D34_E75B else if y & 33 == 1 then 0xAF42_7C95_61DE_0B38
      else if y & 33 == 32 then 0x9EF5_28C3_704A_1DB6 else 0x432C_95FA_BE17_608D) >> (60 - ((y >> 1) & 15) * 4)) & 15
  }

  lemma Outs5()
    ensures Out5(0) == 12 && Out5(1) == 10 && Out5(2) == 1 && Out5(3) == 15
    ensures Out5(4) == 10 && Out5(5) == 4 && Out5(6) == 15 && Out5(7) == 2
    ensures Out5(8) == 9 && Out5(9) == 7 && Out5(10) == 2 && Out5(11) == 12
    ensures Out5(12) == 6 && Out5(13) == 9 && Out5(14) == 8 && Out5(15) == 5
    ensures Out5(16) == 0 && Out5(17) == 6 && Out5(18) == 13 && Out5(19) == 1
    ensures Out5(20) == 3 && Out5(21) == 13 && Out5(22) == 4 && Out5(23) == 14
    ensures Out5(24) == 14 && Out5(25) == 0 && Out5(26) == 7 && Out5(27) == 11
    ensures Out5(28) == 5 && Out5(29) == 3 && Out5(30) == 11 && Out5(31) == 8
    ensures Out5(32) == 9 && Out5(33) == 4 && Out5(34) == 14 && Out5(35) == 3
    ensures Out5(36) == 15 && Out5(37) == 2 && Out5(38) == 5 && Out5(39) == 12
    ensures Out5(40) == 2 && Out5(41) == 9 && Out5(42) == 8 && Out5(43) == 5
    ensures Out5(44) == 12 && Out5(45) == 15 && Out5(46) == 3 && Out5(47) == 10
    ensures Out5(48) == 7 && Out5(49) == 11 && Out5(50) == 0 && Out5(51) == 14
    ensures Out5(52) == 4 && Out5(53) == 1 && Out5(54) == 10 && Out5(55) == 7
    ensures Out5(56) == 1 && Out5(57) == 6 && Out5(58) == 13 && Out5(59) == 0
    ensures Out5(60) == 11 && Out5(61) == 8 && Out5(62) == 6 && Out5(63) == 13
  {
  }

  lemma Top5()
    ensures Entries(BOX5, 0, 12, 1, 10, 15, 9, 2, 6, 8, 0, 13, 3, 4, 14, 7, 5, 11)
    ensures Entries(BOX5, 1, 10, 15, 4, 2, 7, 12, 9, 5, 6, 1, 13, 14, 0, 11, 3, 8)
  {
  }

  lemma Bottom5()
    ensures Entries(BOX5, 2, 9, 14, 15, 5, 2, 8, 12, 3, 7, 0, 4, 10, 1, 13, 11, 6)
    ensures Entries(BOX5, 3, 4, 3, 2, 12, 9, 5, 15, 10, 11, 14, 1, 7, 6, 0, 8, 13)
  {
  }

  lemma Fits5(y: bv64)
    requires y < 64
    ensures |BOX5| == 64 && 0 <= Place(y) < 64 && Stands(Out5(y), BOX5[Place(y)])
  {
    Places();
    Digits();
    Outs5();
    Top5();
    Bottom5();
    hide BOX5, Place, Stands, Out5;
    assert y == 0 || y == 1 || y == 2 || y == 3 || y == 4 || y == 5 || y == 6 || y == 7 || y == 8 || y == 9 ||
      y == 10 ||
      y == 11 || y == 12 || y == 13 || y == 14 || y == 15 || y == 16 || y == 17 || y == 18 || y == 19 || y == 20 ||
      y == 21 || y == 22 || y == 23 || y == 24 || y == 25 || y == 26 || y == 27 || y == 28 || y == 29 || y == 30 ||
      y == 31 || y == 32 || y == 33 || y == 34 || y == 35 || y == 36 || y == 37 || y == 38 || y == 39 || y == 40 ||
      y == 41 || y == 42 || y == 43 || y == 44 || y == 45 || y == 46 || y == 47 || y == 48 || y == 49 || y == 50 ||
      y == 51 || y == 52 || y == 53 || y == 54 || y == 55 || y == 56 || y == 57 || y == 58 || y == 59 || y == 60 ||
      y == 61 || y == 62 || y == 63;
  }

  lemma Six5(x: bv64, y: bv64)
    requires y == (x >> 12) & 63
    ensures y < 64
    ensures (y & 32 != 0 <==> x & 0x20000 != 0) && (y & 16 != 0 <==> x & 0x10000 != 0)
    ensures (y & 8 != 0 <==> x & 0x8000 != 0) && (y & 4 != 0 <==> x & 0x4000 != 0)
    ensures (y & 2 != 0 <==> x & 0x2000 != 0) && (y & 1 != 0 <==> x & 0x1000 != 0)
  {
  }

  lemma Four5(s: bv64, d: bv64)
    requires d == (s >> 8) & 15
    ensures (d & 8 != 0 <==> s & 0x800 != 0) && (d & 4 != 0 <==> s & 0x400 != 0)
    ensures (d & 2 != 0 <==> s & 0x200 != 0) && (d & 1 != 0 <==> s & 0x100 != 0)
  {
  }

  lemma Place5(x: bv64, y: bv64)
    requires y == (x >> 12) & 63
    ensures y < 64 && Place(y) == Cell(Word(Number(x), 48)[30..36])
  {
    Six5(x, y);
    Byte1(x); Byte2(x);
    hide Bit, Place;
    var six := Word(Number(x), 48)[30..36];
    assert six[0] == Bit(Number(x), 17) && six[1] == Bit(Number(x), 16) && six[2] == Bit(Number(x), 15) &&
      six[3] == Bit(Number(x), 14) && six[4] == Bit(Number(x), 13) && six[5] == Bit(Number(x), 12);
    PlaceOf(y, six);
  }

  lemma Box5(x: bv64, s: bv64, y: bv64, d: bv64)
    requires y == (x >> 12) & 63 && d == (s >> 8) & 15 && Out5(y) == d
    ensures BoxedAt(Number(x), Number(s), 5)
  {
    Place5(x, y);
    Four5(s, d);
    Byte1(s);
    Fits5(y);
    BoxTable(5);
    hide Bit, BOX0, BOX1, BOX2, BOX3, BOX4, BOX5, BOX6, BOX7, Out5, Place, NibbleBit, Word, Cell;
  }

  function Out6(y: bv64): bv64
  {
    ((if y & 33 == 0 then 0x4B2E_F08D_3C97_5A61 else if y & 33 == 1 then 0xD0B7_491A_E35C_2F86
      else if y & 33 == 32 then 0x14BD_C37E_AF68_0592 else 0x6BD8_14A7_950F_E23C) >> (60 - ((y >> 1) & 15) * 4)) & 15
  }

  lemma Outs6()
    ensures Out6(0) == 4 && Out6(1) == 13 && Out6(2) == 11 && Out6(3) == 0
    ensures Out6(4) == 2 && Out6(5) == 11 && Out6(6) == 14 && Out6(7) == 7
    ensures Out6(8) == 15 && Out6(9) == 4 && Out6(10) == 0 && Out6(11) == 9
    ensures Out6(12) == 8 && Out6(13) == 1 && Out6(14) == 13 && Out6(15) == 10
    ensures Out6(16) == 3 && Out6(17) == 14 && Out6(18) == 12 && Out6(19) == 3
    ensures Out6(20) == 9 && Out6(21) == 5 && Out6(22) == 7 && Out6(23) == 12
    ensures Out6(24) == 5 && Out6(25) == 2 && Out6(26) == 10 && Out6(27) == 15
    ensures Out6(28) == 6 && Out6(29) == 8 && Out6(30) == 1 && Out6(31) == 6
    ensures Out6(32) == 1 && Out6(33) == 6 && Out6(34) == 4 && Out6(35) == 11
    ensures Out6(36) == 11 && Out6(37) == 13 && Out6(38) == 13 && Out6(39) == 8
    ensures Out6(40) == 12 && Out6(41) == 1 && Out6(42) == 3 && Out6(43) == 4
    ensures Out6(44) == 7 && Out6(45) == 10 && Out6(46) == 14 && Out6(47) == 7
    ensures Out6(48) == 10 && Out6(49) == 9 && Out6(50) == 15 && Out6(51) == 5
    ensures Out6(52) == 6 && Out6(53) == 0 && Out6(54) == 8 && Out6(55) == 15
    ensures Out6(56) == 0 && Out6(57) == 14 && Out6(58) == 5 && Out6(59) == 2
    ensures Out6(60) == 9 && Out6(61) == 3 && Out6(62) == 2 && Out6(63) == 12
  {
  }

  lemma Top6()
    ensures Entries(BOX6, 0, 4, 11, 2, 14, 15, 0, 8, 13, 3, 12, 9, 7, 5, 10, 6, 1)
    ensures Entries(BOX6, 1, 13, 0, 11, 7, 4, 9, 1, 10, 14, 3, 5, 12, 2, 15, 8, 6)
  {
  }

  lemma Bottom6()
    ensures Entries(BOX6, 2, 1, 4, 11, 13, 12, 3, 7, 14, 10, 15, 6, 8, 0, 5, 9, 2)
    ensures Entries(BOX6, 3, 6, 11, 13, 8, 1, 4, 10, 7, 9, 5, 0, 15, 14, 2, 3, 12)
  {
  }

  lemma Fits6(y: bv64)
    requires y < 64
    ensures |BOX6| == 64 && 0 <= Place(y) < 64 && Stands(Out6(y), BOX6[Place(y)])
  {
    Places();
    Digits();
    Outs6();
    Top6();
    Bottom6();
    hide BOX6, Place, Stands, Out6;
    assert y == 0 || y == 1 || y == 2 || y == 3 || y == 4 || y == 5 || y == 6 || y == 7 || y == 8 || y == 9 ||
      y == 10 ||
      y == 11 || y == 12 || y == 13 || y == 14 || y == 15 || y == 16 || y == 17 || y == 18 || y == 19 || y == 20 ||
      y == 21 || y == 22 || y == 23 || y == 24 || y == 25 || y == 26 || y == 27 || y == 28 || y == 29 || y == 30 ||
      y == 31 || y == 32 || y == 33 || y == 34 || y == 35 || y == 36 || y == 37 || y == 38 || y == 39 || y == 40 ||
      y == 41 || y == 42 || y == 43 || y == 44 || y == 45 || y == 46 || y == 47 || y == 48 || y == 49 || y == 50 ||
      y == 51 || y == 52 || y == 53 || y == 54 || y == 55 || y == 56 || y == 57 || y == 58 || y == 59 || y == 60 ||
      y == 61 || y == 62 || y == 63;
  }

  lemma Six6(x: bv64, y: bv64)
    requires y == (x >> 6) & 63
    ensures y < 64
    ensures (y & 32 != 0 <==> x & 0x800 != 0) && (y & 16 != 0 <==> x & 0x400 != 0)
    ensures (y & 8 != 0 <==> x & 0x200 != 0) && (y & 4 != 0 <==> x & 0x100 != 0)
    ensures (y & 2 != 0 <==> x & 0x80 != 0) && (y & 1 != 0 <==> x & 0x40 != 0)
  {
  }

  lemma Four6(s: bv64, d: bv64)
    requires d == (s >> 4) & 15
    ensures (d & 8 != 0 <==> s & 0x80 != 0) && (d & 4 != 0 <==> s & 0x40 != 0)
    ensures (d & 2 != 0 <==> s & 0x20 != 0) && (d & 1 != 0 <==> s & 0x10 != 0)
  {
  }

  lemma Place6(x: bv64, y: bv64)
    requires y == (x >> 6) & 63
    ensures y < 64 && Place(y) == Cell(Word(Number(x), 48)[36..42])
  {
    Six6(x, y);
    Byte0(x); Byte1(x);
    hide Bit, Place;
    var six := Word(Number(x), 48)[36..42];
    assert six[0] == Bit(Number(x), 11) && six[1] == Bit(Number(x), 10) && six[2] == Bit(Number(x), 9) &&
      six[3] == Bit(Number(x), 8) && six[4] == Bit(Number(x), 7) && six[5] == Bit(Number(x), 6);
    PlaceOf(y, six);
  }

  lemma Box6(x: bv64, s: bv64, y: bv64, d: bv64)
    requires y == (x >> 6) & 63 && d == (s >> 4) & 15 && Out6(y) == d
    ensures BoxedAt(Number(x), Number(s), 6)
  {
    Place6(x, y);
    Four6(s, d);
    Byte0(s);
    Fits6(y);
    BoxTable(6);
    hide Bit, BOX0, BOX1, BOX2, BOX3, BOX4, BOX5, BOX6, BOX7, Out6, Place, NibbleBit, Word, Cell;
  }

  function Out7(y: bv64): bv64
  {
    ((if y & 33 == 0 then 0xD284_6FB1_A93E_50C7 else if y & 33 == 1 then 0x1FD8_A374_C56B_0E92
      else if y & 33 == 32 then 0x7B41_9CE2_06AD_F358 else 0x21E7_4A8D_FC90_356B) >> (60 - ((y >> 1) & 15) * 4)) & 15
  }

  lemma Outs7()
    ensures Out7(0) == 13 && Out7(1) == 1 && Out7(2) == 2 && Out7(3) == 15
    ensures Out7(4) == 8 && Out7(5) == 13 && Out7(6) == 4 && Out7(7) == 8
    ensures Out7(8) == 6 && Out7(9) == 10 && Out7(10) == 15 && Out7(11) == 3
    ensures Out7(12) == 11 && Out7(13) == 7 && Out7(14) == 1 && Out7(15) == 4
    ensures Out7(16) == 10 && Out7(17) == 12 && Out7(18) == 9 && Out7(19) == 5
    ensures Out7(20) == 3 && Out7(21) == 6 && Out7(22) == 14 && Out7(23) == 11
    ensures Out7(24) == 5 && Out7(25) == 0 && Out7(26) == 0 && Out7(27) == 14
    ensures Out7(28) == 12 && Out7(29) == 9 && Out7(30) == 7 && Out7(31) == 2
    ensures Out7(32) == 7 && Out7(33) == 2 && Out7(34) == 11 && Out7(35) == 1
    ensures Out7(36) == 4 && Out7(37) == 14 && Out7(38) == 1 && Out7(39) == 7
    ensures Out7(40) == 9 && Out7(41) == 4 && Out7(42) == 12 && Out7(43) == 10
    ensures Out7(44) == 14 && Out7(45) == 8 && Out7(46) == 2 && Out7(47) == 13
    ensures Out7(48) == 0 && Out7(49) == 15 && Out7(50) == 6 && Out7(51) == 12
    ensures Out7(52) == 10 && Out7(53) == 9 && Out7(54) == 13 && Out7(55) == 0
    ensures Out7(56) == 15 && Out7(57) == 3 && Out7(58) == 3 && Out7(59) == 5
    ensures Out7(60) == 5 && Out7(61) == 6 && Out7(62) == 8 && Out7(63) == 11
  {
  }

  lemma Top7()
    ensures Entries(BOX7, 0, 13, 2, 8, 4, 6, 15, 11, 1, 10, 9, 3, 14, 5, 0, 12, 7)
    ensures Entries(BOX7, 1, 1, 15, 13, 8, 10, 3, 7, 4, 12, 5, 6, 11, 0, 14, 9, 2)
  {
  }

  lemma Bottom7()
    ensures Entries(BOX7, 2, 7, 11, 4, 1, 9, 12, 14, 2, 0, 6, 10, 13, 15, 3, 5, 8)
    ensures Entries(BOX7, 3, 2, 1, 14, 7, 4, 10, 8, 13, 15, 12, 9, 0, 3, 5, 6, 11)
  {
  }

  lemma Fits7(y: bv64)
    requires y < 64
    ensures |BOX7| == 64 && 0 <= Place(y) < 64 && Stands(Out7(y), BOX7[Place(y)])
  {
    Places();
    Digits();
    Outs7();
    Top7();
    Bottom7();
    hide BOX7, Place, Stands, Out7;
    assert y == 0 || y == 1 || y == 2 || y == 3 || y == 4 || y == 5 || y == 6 || y == 7 || y == 8 || y == 9 ||
      y == 10 ||
      y == 11 || y == 12 || y == 13 || y == 14 || y == 15 || y == 16 || y == 17 || y == 18 || y == 19 || y == 20 ||
      y == 21 || y == 22 || y == 23 || y == 24 || y == 25 || y == 26 || y == 27 || y == 28 || y == 29 || y == 30 ||
      y == 31 || y == 32 || y == 33 || y == 34 || y == 35 || y == 36 || y == 37 || y == 38 || y == 39 || y == 40 ||
      y == 41 || y == 42 || y == 43 || y == 44 || y == 45 || y == 46 || y == 47 || y == 48 || y == 49 || y == 50 ||
      y == 51 || y == 52 || y == 53 || y == 54 || y == 55 || y == 56 || y == 57 || y == 58 || y == 59 || y == 60 ||
      y == 61 || y == 62 || y == 63;
  }

  lemma Six7(x: bv64, y: bv64)
    requires y == (x >> 0) & 63
    ensures y < 64
    ensures (y & 32 != 0 <==> x & 0x20 != 0) && (y & 16 != 0 <==> x & 0x10 != 0)
    ensures (y & 8 != 0 <==> x & 0x8 != 0) && (y & 4 != 0 <==> x & 0x4 != 0)
    ensures (y & 2 != 0 <==> x & 0x2 != 0) && (y & 1 != 0 <==> x & 0x1 != 0)
  {
  }

  lemma Four7(s: bv64, d: bv64)
    requires d == (s >> 0) & 15
    ensures (d & 8 != 0 <==> s & 0x8 != 0) && (d & 4 != 0 <==> s & 0x4 != 0)
    ensures (d & 2 != 0 <==> s & 0x2 != 0) && (d & 1 != 0 <==> s & 0x1 != 0)
  {
  }

  lemma Place7(x: bv64, y: bv64)
    requires y == (x >> 0) & 63
    ensures y < 64 && Place(y) == Cell(Word(Number(x), 48)[42..48])
  {
    Six7(x, y);
    Byte0(x);
    hide Bit, Place;
    var six := Word(Number(x), 48)[42..48];
    assert six[0] == Bit(Number(x), 5) && six[1] == Bit(Number(x), 4) && six[2] == Bit(Number(x), 3) &&
      six[3] == Bit(Number(x), 2) && six[4] == Bit(Number(x), 1) && six[5] == Bit(Number(x), 0);
    PlaceOf(y, six);
  }

  lemma Box7(x: bv64, s: bv64, y: bv64, d: bv64)
    requires y == (x >> 0) & 63 && d == (s >> 0) & 15 && Out7(y) == d
    ensures BoxedAt(Number(x), Number(s), 7)
  {
    Place7(x, y);
    Four7(s, d);
    Byte0(s);
    Fits7(y);
    BoxTable(7);
    hide Bit, BOX0, BOX1, BOX2, BOX3, BOX4, BOX5, BOX6, BOX7, Out7, Place, NibbleBit, Word, Cell;
  }

  /** The boxes take x to s. */
  ghost predicate Leaves(x: Number, s: Number)
  {
    && Out0((x.v >> 42) & 63) == (s.v >> 28) & 15
    && Out1((x.v >> 36) & 63) == (s.v >> 24) & 15
    && Out2((x.v >> 30) & 63) == (s.v >> 20) & 15
    && Out3((x.v >> 24) & 63) == (s.v >> 16) & 15
    && Out4((x.v >> 18) & 63) == (s.v >> 12) & 15
    && Out5((x.v >> 12) & 63) == (s.v >> 8) & 15
    && Out6((x.v >> 6) & 63) == (s.v >> 4) & 15
    && Out7((x.v >> 0) & 63) == (s.v >> 0) & 15
  }

  lemma Boxed0(x: bv64, s: bv64)
    requires Leaves(Number(x), Number(s))
    ensures BoxedAt(Number(x), Number(s), 0)
  {
    var y, d := (x >> 42) & 63, (s >> 28) & 15;
    assert Out0(y) == d;
    hide Out0, Out1, Out2, Out3, Out4, Out5, Out6, Out7, Leaves, BoxedAt;
    Box0(x, s, y, d);
  }

  lemma Boxed1(x: bv64, s: bv64)
    requires Leaves(Number(x), Number(s))
    ensures BoxedAt(Number(x), Number(s), 1)
  {
    var y, d := (x >> 36) & 63, (s >> 24) & 15;
    assert Out1(y) == d;
    hide Out0, Out1, Out2, Out3, Out4, Out5, Out6, Out7, Leaves, BoxedAt;
    Box1(x, s, y, d);
  }

  lemma Boxed2(x: bv64, s: bv64)
    requires Leaves(Number(x), Number(s))
    ensures BoxedAt(Number(x), Number(s), 2)
  {
    var y, d := (x >> 30) & 63, (s >> 20) & 15;
    assert Out2(y) == d;
    hide Out0, Out1, Out2, Out3, Out4, Out5, Out6, Out7, Leaves, BoxedAt;
    Box2(x, s, y, d);
  }

  lemma Boxed3(x: bv64, s: bv64)
    requires Leaves(Number(x), Number(s))
    ensures BoxedAt(Number(x), Number(s), 3)
  {
    var y, d := (x >> 24) & 63, (s >> 16) & 15;
    assert Out3(y) == d;
    hide Out0, Out1, Out2, Out3, Out4, Out5, Out6, Out7, Leaves, BoxedAt;
    Box3(x, s, y, d);
  }

  lemma Boxed4(x: bv64, s: bv64)
    requires Leaves(Number(x), Number(s))
    ensures BoxedAt(Number(x), Number(s), 4)
  {
    var y, d := (x >> 18) & 63, (s >> 12) & 15;
    assert Out4(y) == d;
    hide Out0, Out1, Out2, Out3, Out4, Out5, Out6, Out7, Leaves, BoxedAt;
    Box4(x, s, y, d);
  }

  lemma Boxed5(x: bv64, s: bv64)
    requires Leaves(Number(x), Number(s))
    ensures BoxedAt(Number(x), Number(s), 5)
  {
    var y, d := (x >> 12) & 63, (s >> 8) & 15;
    assert Out5(y) == d;
    hide Out0, Out1, Out2, Out3, Out4, Out5, Out6, Out7, Leaves, BoxedAt;
    Box5(x, s, y, d);
  }

  lemma Boxed6(x: bv64, s: bv64)
    requires Leaves(Number(x), Number(s))
    ensures BoxedAt(Number(x), Number(s), 6)
  {
    var y, d := (x >> 6) & 63, (s >> 4) & 15;
    assert Out6(y) == d;
    hide Out0, Out1, Out2, Out3, Out4, Out5, Out6, Out7, Leaves, BoxedAt;
    Box6(x, s, y, d);
  }

  lemma Boxed7(x: bv64, s: bv64)
    requires Leaves(Number(x), Number(s))
    ensures BoxedAt(Number(x), Number(s), 7)
  {
    var y, d := (x >> 0) & 63, (s >> 0) & 15;
    assert Out7(y) == d;
    hide Out0, Out1, Out2, Out3, Out4, Out5, Out6, Out7, Leaves, BoxedAt;
    Box7(x, s, y, d);
  }

  lemma AllBoxed(x: bv64, s: bv64)
    requires Leaves(Number(x), Number(s))
    ensures forall q :: 0 <= q < 8 ==> BoxedAt(Number(x), Number(s), q)
  {
    hide Leaves, BoxedAt;
    Boxed0(x, s);
    Boxed1(x, s);
    Boxed2(x, s);
    Boxed3(x, s);
    Boxed4(x, s);
    Boxed5(x, s);
    Boxed6(x, s);
    Boxed7(x, s);
  }

  lemma BoxedWord(x: bv64, s: bv64)
    requires Leaves(Number(x), Number(s))
    ensures Substituted(Word(Number(x), 48)) == Word(Number(s), 32)
  {
    hide Leaves, Bit, Box, NibbleBit;
    AllBoxed(x, s);
    forall i | 0 <= i < 32 ensures Substituted(Word(Number(x), 48))[i] == Word(Number(s), 32)[i] {
      var q := i / 4;
      assert BoxedAt(Number(x), Number(s), q);
    }
  }
}
