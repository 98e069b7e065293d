/** Known answers of the cipher: the nineteen of the substitution table test of NIST SP 800-17,
    which between them reach every entry of every box.  Each is followed round by round. */
module DesAnswers {
  import opened Des
  import opened DesNumbers

  // ----- following the cipher -----

  /** A round rotates the key c by t to d and takes the halves l and r to r and g; x enters the boxes and s leaves
      them. */
  ghost predicate Step(t: int, c: bv64, d: bv64, l: bv64, r: bv64, x: bv64, s: bv64, g: bv64)
  {
    && KeyRolled(c, t) == d && Summed(Number(Expanded(r)), Number(Selected(d)), Number(x))
    && Leaves(Number(x), Number(s)) && Summed(Number(l), Number(Mixed(s)), Number(g))
  }

  function Begun(l: Number, r: Number): (h: Halves)
    ensures Full(h)
  {
    Halves(Word(l, 32), Word(r, 32))
  }

  lemma ScrambledWord(r: bv64, k: bv64, x: bv64, s: bv64)
    requires Summed(Number(Expanded(r)), Number(k), Number(x)) && Leaves(Number(x), Number(s))
    ensures Scrambled(Word(Number(r), 32), Word(Number(k), 48)) == Word(Number(Mixed(s)), 32)
  {
    hide Word, Expanded, Leaves, Mixed, Summed, EXPANSION, PERMUTATION, Permuted, Substituted, Xored;
    ExpansionTable();
    PermutationTable();
    ExpandedWord(r);
    SumWord(Expanded(r), k, x, 48);
    BoxedWord(x, s);
    MixedWord(s);
  }

  lemma RoundWord(l: bv64, r: bv64, k: bv64, x: bv64, s: bv64, g: bv64)
    requires Summed(Number(Expanded(r)), Number(k), Number(x)) && Leaves(Number(x), Number(s))
    requires Summed(Number(l), Number(Mixed(s)), Number(g))
    ensures Round(Begun(Number(l), Number(r)), Word(Number(k), 48)) == Begun(Number(r), Number(g))
  {
    hide Word, Expanded, Leaves, Mixed, Summed, Scrambled, Xored;
    ScrambledWord(r, k, x, s);
    SumWord(l, Mixed(s), g, 32);
  }

  lemma RotationOf(n: int)
    requires 0 <= n < 16
    ensures |ROTATIONS| == 16 && (ROTATIONS[n] == 1 <==> n == 0 || n == 1 || n == 8 || n == 15)
  {
  }

  lemma NextHalfKeys(key: Bits, n: int, t: int, c: bv64)
    requires |key| == 64 && 0 <= n < 16 && t == if n == 0 || n == 1 || n == 8 || n == 15 then 1 else 2
    requires Halved(Number(c), HalfKey(key, n, true), HalfKey(key, n, false))
    ensures Halved(Number(KeyRolled(c, t)), HalfKey(key, n + 1, true), HalfKey(key, n + 1, false))
  {
    hide HalfKey, Halved, KeyRolled, ROTATIONS, Rotated;
    RotationOf(n);
    HalfKeyNext(key, n, true);
    HalfKeyNext(key, n, false);
    KeyRolledHalves(c, t, HalfKey(key, n, true), HalfKey(key, n, false));
  }

  lemma NextRoundKey(key: Bits, n: int, d: bv64)
    requires |key| == 64 && 1 <= n <= 16
    requires Halved(Number(d), HalfKey(key, n, true), HalfKey(key, n, false))
    ensures RoundKey(key, n) == Word(Number(Selected(d)), 48)
  {
    hide HalfKey, Word, Selected, PC2, Permuted;
    RoundKeyTable();
    SelectedWord(d);
  }

  /** What n rounds make of a key and a block. */
  ghost predicate Reached(key: Bits, h: Halves, n: int, c: Number, l: Number, r: Number)
  {
    && |key| == 64 && Full(h) && 0 <= n <= 16
    && Halved(c, HalfKey(key, n, true), HalfKey(key, n, false))
    && Rounds(h, RoundKeys(key, n)) == Begun(l, r)
  }

  lemma OneRound(key: Bits, h: Halves, n: int, t: int, c: bv64, d: bv64, l: bv64, r: bv64, x: bv64, s: bv64, g: bv64)
    requires 0 <= n < 16 && t == if n == 0 || n == 1 || n == 8 || n == 15 then 1 else 2
    requires Reached(key, h, n, Number(c), Number(l), Number(r)) && Step(t, c, d, l, r, x, s, g)
    ensures Reached(key, h, n + 1, Number(d), Number(r), Number(g))
  {
    hide HalfKey, Halved, Begun, Selected, Expanded, Leaves, Mixed, Summed, Round, RoundKey, KeyRolled, Word;
    NextHalfKeys(key, n, t, c);
    NextRoundKey(key, n + 1, d);
    RoundWord(l, r, Selected(d), x, s, g);
    var ks, k := RoundKeys(key, n), RoundKey(key, n + 1);
    assert RoundKeys(key, n + 1) == ks + [k] && (ks + [k])[..n] == ks;
  }

  /** So rounds that have been followed count. */
  lemma Followed(key: Bits, h: Halves)
    ensures forall n: int, t, c, d, l, r, x, s, g
      {:trigger Reached(key, h, n, Number(c), Number(l), Number(r)), Step(t, c, d, l, r, x, s, g)} ::
      && 0 <= n < 16 && t == (if n == 0 || n == 1 || n == 8 || n == 15 then 1 else 2)
      && Reached(key, h, n, Number(c), Number(l), Number(r)) && Step(t, c, d, l, r, x, s, g)
      ==> Reached(key, h, n + 1, Number(d), Number(r), Number(g))
  {
    hide Reached, Step;
    forall n: int, t, c, d, l, r, x, s, g
      {:trigger Reached(key, h, n, Number(c), Number(l), Number(r)), Step(t, c, d, l, r, x, s, g)} |
      && 0 <= n < 16 && t == (if n == 0 || n == 1 || n == 8 || n == 15 then 1 else 2)
      && Reached(key, h, n, Number(c), Number(l), Number(r)) && Step(t, c, d, l, r, x, s, g)
      ensures Reached(key, h, n + 1, Number(d), Number(r), Number(g))
    {
      OneRound(key, h, n, t, c, d, l, r, x, s, g);
    }
  }

  /** The permuted key and block, and the answer permuted, which is the last halves swapped. */
  ghost predicate Ends(key: bv64, b: bv64, a: bv64, c: bv64, l: bv64, r: bv64, l1: bv64, r1: bv64)
  {
    && Chosen(key) == c && Initial(b) == (l << 32) | r && Initial(a) == (r1 << 32) | l1
    && l < 0x1_0000_0000 && r < 0x1_0000_0000 && l1 < 0x1_0000_0000 && r1 < 0x1_0000_0000
  }

  function Bits64(n: bv64): (b: Bits)
    ensures |b| == 64
  {
    Word(Number(n), 64)
  }

  function First(b: Bits): (h: Halves)
    requires |b| == 64
    ensures Full(h)
  {
    OuterTables();
    var p := Permuted(b, IP);
    Halves(p[..32], p[32..])
  }

  /** The cipher takes block b to a under the key. */
  ghost predicate Answers(key: bv64, b: bv64, a: bv64)
  {
    Enciphered(Bits64(b), RoundKeys(Bits64(key), 16)) == Bits64(a)
  }

  lemma Begins(key: bv64, b: bv64, a: bv64, c: bv64, l: bv64, r: bv64, l1: bv64, r1: bv64)
    requires Ends(key, b, a, c, l, r, l1, r1)
    ensures Reached(Bits64(key), First(Bits64(b)), 0, Number(c), Number(l), Number(r))
  {
    hide Chosen, Initial, Word, PC1, IP, Permuted;
    OuterTables();
    KeyTable();
    HalfKeyFirst(Bits64(key));
    ChosenWord(key);
    InitialWord(b);
    JoinedWord(l, r, Initial(b));
  }

  lemma Finishes(key: bv64, b: bv64, a: bv64, c: bv64, l: bv64, r: bv64, d: bv64, l1: bv64, r1: bv64)
    requires Ends(key, b, a, c, l, r, l1, r1)
    requires Reached(Bits64(key), First(Bits64(b)), 16, Number(d), Number(l1), Number(r1))
    ensures Answers(key, b, a)
  {
    hide Chosen, Initial, Word, IP, FP, Permuted, Rounds, RoundKeys, HalfKey, Halved;
    OuterTables();
    InitialWord(a);
    JoinedWord(r1, l1, Initial(a));
    InitialThenFinal(Bits64(a));
  }

  // ----- the answers -----

  lemma Rounds0a()
    ensures Step(1, 0x02D943AF0C9715, 0x05B2874E192E2B, 0xEC3C6473, 0x0E7210E4,
      0x75096435D66E, 0x39D9D322, 0x49130331)
    ensures Step(1, 0x05B2874E192E2B, 0x0B650E8C325C57, 0x0E7210E4, 0x49130331,
      0x0110D6C6229C, 0xEC756E0C, 0x92DF8258)
    ensures Step(2, 0x0B650E8C325C57, 0x2D943A00C9715F, 0x49130331, 0x92DF8258,
      0xCC38BB957B29, 0xBD67CE74, 0xDAEE550F)
    ensures Step(2, 0x2D943A00C9715F, 0xB650E80325C57C, 0x92DF8258, 0xDAEE550F,
      0xA5204CCB3826, 0x47D99E11, 0x65FE4B00)
    ensures Step(2, 0xB650E80325C57C, 0xD943A02C9715F0, 0xDAEE550F, 0x65FE4B00,
      0x7C2A9566D62E, 0x81F23F52, 0xEC1D3483)
    ensures Step(2, 0xD943A02C9715F0, 0x650E80B25C57C3, 0x65FE4B00, 0xEC1D3483,
      0x3640B1A689BB, 0xD70912D5, 0x874E8373)
    ensures Step(2, 0x650E80B25C57C3, 0x943A02D9715F0C, 0xEC1D3483, 0x874E8373,
      0xE921DF493350, 0xA799511A, 0x029B57D3)
    ensures Step(2, 0x943A02D9715F0C, 0x50E80B65C57C32, 0x874E8373, 0x029B57D3,
      0xB06D7DED1617, 0x2EE2465B, 0xCD31886F)
  {
  }

  lemma Rounds0b()
    ensures Step(1, 0x50E80B65C57C32, 0xA1D016CB8AF864, 0x029B57D3, 0xCD31886F,
      0xEFB36775E944, 0x05668BD8, 0x19EA27C6)
    ensures Step(2, 0xA1D016CB8AF864, 0x87405B2E2BE192, 0xCD31886F, 0x19EA27C6,
      0x174708E7E81E, 0x7C20A617, 0xCE1B02D1)
    ensures Step(2, 0x87405B2E2BE192, 0x1D016CA8AF864B, 0x19EA27C6, 0xCE1B02D1,
      0xE1A59E1D75C9, 0x307FCECA, 0x849D3589)
    ensures Step(2, 0x1D016CA8AF864B, 0x7405B282BE192E, 0xCE1B02D1, 0x849D3589,
      0x02D9DFAE4617, 0xE409EF5B, 0x55ADA809)
    ensures Step(2, 0x7405B282BE192E, 0xD016CA1AF864B8, 0x849D3589, 0x55ADA809,
      0x63165AA5A4A4, 0x5BCC17C4, 0xE4A4C4E2)
    ensures Step(2, 0xD016CA1AF864B8, 0x405B287BE192E2, 0x55ADA809, 0xE4A4C4E2,
      0x7123A2CD3B8E, 0x0756F1E1, 0x30F8D498)
    ensures Step(2, 0x405B287BE192E2, 0x016CA1DF864B8A, 0xE4A4C4E2, 0x30F8D498,
      0xEB033344E2A3, 0xA5F45801, 0xD0219FF6)
    ensures Step(1, 0x016CA1DF864B8A, 0x02D943AF0C9715, 0x30F8D498, 0xD0219FF6,
      0x7A1B3935E68E, 0x7D3CDBA1, 0x05D42ACF)
  {
  }

  lemma Ends0()
    ensures Ends(0x7CA110454A1A6E57, 0x01A1D6D039776742, 0x690F5B0D9A26939B, 0x02D943AF0C9715, 0xEC3C6473, 0x0E7210E4,
      0xD0219FF6, 0x05D42ACF)
  {
  }

  lemma Answer0()
    ensures Answers(0x7CA110454A1A6E57, 0x01A1D6D039776742, 0x690F5B0D9A26939B)
  {
    hide *;
    Ends0();
    Rounds0a();
    Rounds0b();
    Begins(0x7CA110454A1A6E57, 0x01A1D6D039776742, 0x690F5B0D9A26939B, 0x02D943AF0C9715, 0xEC3C6473, 0x0E7210E4,
      0xD0219FF6, 0x05D42ACF);
    var k, f := Bits64(0x7CA110454A1A6E57), First(Bits64(0x01A1D6D039776742));
    Followed(k, f);
    Finishes(0x7CA110454A1A6E57, 0x01A1D6D039776742, 0x690F5B0D9A26939B, 0x02D943AF0C9715, 0xEC3C6473, 0x0E7210E4,
      0x02D943AF0C9715, 0xD0219FF6, 0x05D42ACF);
  }

  lemma Rounds1a()
    ensures Step(1, 0x34ACCA5C0D0946, 0x695994A81A128D, 0xE7D37772, 0xAA38BDE0,
      0x13539E47B047, 0xD75F50D8, 0x0906A721)
    ensures Step(1, 0x695994A81A128D, 0xD2B3294034251B, 0xAA38BDE0, 0x0906A721,
      0xBD8FBC14F866, 0x7C782561, 0xAE21133E)
    ensures Step(2, 0xD2B3294034251B, 0x4ACCA530D0946C, 0x0906A721, 0xAE21133E,
      0x80D5190AC111, 0x48C1CC2C, 0x900B2209)
    ensures Step(2, 0x4ACCA530D0946C, 0x2B3294D34251B0, 0xAE21133E, 0x900B2209,
      0xAD8282F0DEC2, 0x9C3D0922, 0x3AAB2768)
    ensures Step(2, 0x2B3294D34251B0, 0xACCA534D0946C0, 0x900B2209, 0x3AAB2768,
      0x018DD08BEF6B, 0xEC31263A, 0x1EA1A495)
    ensures Step(2, 0xACCA534D0946C0, 0xB3294D24251B03, 0x3AAB2768, 0x1EA1A495,
      0xB5F479DFCDAA, 0x152C9B8C, 0x038B571F)
    ensures Step(2, 0xB3294D24251B03, 0xCCA534A0946C0D, 0x1EA1A495, 0x038B571F,
      0x2C387BAA898A, 0x2D17D2DF, 0xB1DFFEA4)
    ensures Step(2, 0xCCA534A0946C0D, 0x3294D2B251B034, 0x038B571F, 0xB1DFFEA4,
      0x9935E31E5D8D, 0x80EFC287, 0x826C4E7A)
  {
  }

  lemma Rounds1b()
    ensures Step(1, 0x3294D2B251B034, 0x6529A564A36068, 0xB1DFFEA4, 0x826C4E7A,
      0x3207B32661AD, 0xB08445E8, 0xB94BC9AF)
    ensures Step(2, 0x6529A564A36068, 0x94A695928D81A1, 0x826C4E7A, 0xB94BC9AF,
      0x26EB5354885F, 0xE187F962, 0x33BAB9FA)
    ensures Step(2, 0x94A695928D81A1, 0x529A566A360684, 0xB94BC9AF, 0x33BAB9FA,
      0x1AF66A7739D2, 0x12CB8E89, 0x602AC0E4)
    ensures Step(2, 0x529A566A360684, 0x4A695998D81A12, 0x33BAB9FA, 0x602AC0E4,
      0x0531623C7F8E, 0x00061221, 0x13DAA5FA)
    ensures Step(2, 0x4A695998D81A12, 0x29A5665360684A, 0x602AC0E4, 0x13DAA5FA,
      0xAD721574FF2D, 0x9A628598, 0x2BE3E0EB)
    ensures Step(2, 0x29A5665360684A, 0xA695994D81A128, 0x13DAA5FA, 0x2BE3E0EB,
      0x4F1DB373A715, 0x6BC4ED66, 0x42C55252)
    ensures Step(2, 0xA695994D81A128, 0x9A5665260684A3, 0x2BE3E0EB, 0x42C55252,
      0xBCC1120CC584, 0x7392B678, 0x44932761)
    ensures Step(1, 0x9A5665260684A3, 0x34ACCA5C0D0946, 0x42C55252, 0x44932761,
      0x43FD2487BB08, 0x3929B076, 0xE1DF14B4)
  {
  }

  lemma Ends1()
    ensures Ends(0x0131D9619DC1376E, 0x5CD54CA83DEF57DA, 0x7A389D10354BD271, 0x34ACCA5C0D0946, 0xE7D37772, 0xAA38BDE0,
      0x44932761, 0xE1DF14B4)
  {
  }

  lemma Answer1()
    ensures Answers(0x0131D9619DC1376E, 0x5CD54CA83DEF57DA, 0x7A389D10354BD271)
  {
    hide *;
    Ends1();
    Rounds1a();
    Rounds1b();
    Begins(0x0131D9619DC1376E, 0x5CD54CA83DEF57DA, 0x7A389D10354BD271, 0x34ACCA5C0D0946, 0xE7D37772, 0xAA38BDE0,
      0x44932761, 0xE1DF14B4);
    var k, f := Bits64(0x0131D9619DC1376E), First(Bits64(0x5CD54CA83DEF57DA));
    Followed(k, f);
    Finishes(0x0131D9619DC1376E, 0x5CD54CA83DEF57DA, 0x7A389D10354BD271, 0x34ACCA5C0D0946, 0xE7D37772, 0xAA38BDE0,
      0x34ACCA5C0D0946, 0x44932761, 0xE1DF14B4);
  }

  lemma Rounds2a()
    ensures Step(1, 0x82104A0FDC938C, 0x0420941FB92719, 0xE6EC3440, 0x24E80AB1,
      0xF1D7547E64C5, 0x5BF8653D, 0xA8E1D9AE)
    ensures Step(1, 0x0420941FB92719, 0x0841282F724E33, 0x24E80AB1, 0xA8E1D9AE,
      0x51232B81FEEA, 0x67F1482C, 0xF8EDCD85)
    ensures Step(2, 0x0841282F724E33, 0x2104A08DC938CF, 0xA8E1D9AE, 0xF8EDCD85,
      0x3D131BF2D1C0, 0x1CFA0F7D, 0xB698F4D0)
    ensures Step(2, 0x2104A08DC938CF, 0x8412820724E33F, 0xF8EDCD85, 0xB698F4D0,
      0x121EF19407F0, 0xDD59CC60, 0x6D7009DF)
    ensures Step(2, 0x8412820724E33F, 0x104A082C938CFD, 0xB698F4D0, 0x6D7009DF,
      0xB51AAAC6D990, 0x1CFB6FDA, 0x28E7D50F)
    ensures Step(2, 0x104A082C938CFD, 0x412820824E33F7, 0x6D7009DF, 0x28E7D50F,
      0xB5134C9637D6, 0x1C69C36E, 0xE44F2DA9)
    ensures Step(2, 0x412820824E33F7, 0x04A0821938CFDC, 0x28E7D50F, 0xE44F2DA9,
      0x91CA5E4DE92C, 0xE56F0BBE, 0xB204237A)
    ensures Step(2, 0x04A0821938CFDC, 0x12820844E33F72, 0xE44F2DA9, 0xB204237A,
      0x5AE1985F915D, 0xC1EBA6B9, 0x6FAEE064)
  {
  }

  lemma Rounds2b()
    ensures Step(1, 0x12820844E33F72, 0x25041089C67EE4, 0xB204237A, 0x6FAEE064,
      0xB7BD1978EDB3, 0x1521988C, 0x0B04634D)
    ensures Step(2, 0x25041089C67EE4, 0x9410420719FB92, 0x6FAEE064, 0x0B04634D,
      0x8D2308CF364F, 0xC7F0FE24, 0x1A0B25D8)
    ensures Step(2, 0x9410420719FB92, 0x5041082C67EE49, 0x0B04634D, 0x1A0B25D8,
      0x0F717F1BFD0A, 0xFC0E1D6F, 0x33DEDD37)
    ensures Step(2, 0x5041082C67EE49, 0x410420919FB927, 0x1A0B25D8, 0x33DEDD37,
      0x1B7ABCFA52AB, 0x1CF8E20A, 0x1724240E)
    ensures Step(2, 0x410420919FB927, 0x041082567EE49C, 0x33DEDD37, 0x1724240E,
      0x4BA388E286A8, 0xA35062A9, 0x7F7B93B6)
    ensures Step(2, 0x041082567EE49C, 0x10420949FB9271, 0x1724240E, 0x7F7B93B6,
      0x2F5A7713D623, 0x276B4851, 0xC5716E5A)
    ensures Step(2, 0x10420949FB9271, 0x41082507EE49C6, 0x7F7B93B6, 0xC5716E5A,
      0x70AFE183B46C, 0x0BC340EE, 0xB724D697)
    ensures Step(1, 0x41082507EE49C6, 0x82104A0FDC938C, 0xC5716E5A, 0xB724D697,
      0xD2C319D0E868, 0x9DF1C869, 0x58EC234C)
  {
  }

  lemma Ends2()
    ensures Ends(0x07A1133E4A0B2686, 0x0248D43806F67172, 0x868EBB51CAB4599A, 0x82104A0FDC938C, 0xE6EC3440, 0x24E80AB1,
      0xB724D697, 0x58EC234C)
  {
  }

  lemma Answer2()
    ensures Answers(0x07A1133E4A0B2686, 0x0248D43806F67172, 0x868EBB51CAB4599A)
  {
    hide *;
    Ends2();
    Rounds2a();
    Rounds2b();
    Begins(0x07A1133E4A0B2686, 0x0248D43806F67172, 0x868EBB51CAB4599A, 0x82104A0FDC938C, 0xE6EC3440, 0x24E80AB1,
      0xB724D697, 0x58EC234C);
    var k, f := Bits64(0x07A1133E4A0B2686), First(Bits64(0x0248D43806F67172));
    Followed(k, f);
    Finishes(0x07A1133E4A0B2686, 0x0248D43806F67172, 0x868EBB51CAB4599A, 0x82104A0FDC938C, 0xE6EC3440, 0x24E80AB1,
      0x82104A0FDC938C, 0xB724D697, 0x58EC234C);
  }

  lemma Rounds3a()
    ensures Step(1, 0x800E55CB49C8B1, 0x001CAB96939163, 0x6F297237, 0x2010BCA4,
      0xC12EA3F82E04, 0xF7AFE108, 0xA6ED81E1)
    ensures Step(1, 0x001CAB96939163, 0x0039572D2722C6, 0x2010BCA4, 0xA6ED81E1,
      0xE0DD75CF3908, 0x38E5FEB6, 0x933FAB0B)
    ensures Step(2, 0x0039572D2722C6, 0x00E55C849C8B1B, 0xA6ED81E1, 0x933FAB0B,
      0x6A59DB0B1913, 0x9A0ACBB5, 0xF501AD82)
    ensures Step(2, 0x00E55C849C8B1B, 0x03957202722C6D, 0x933FAB0B, 0xF501AD82,
      0xFAA677F57FE9, 0x04CB5EC4, 0x234AAA72)
    ensures Step(2, 0x03957202722C6D, 0x0E55C809C8B1B4, 0xF501AD82, 0x234AAA72,
      0xD4186585FF27, 0x3310B897, 0x8203E721)
    ensures Step(2, 0x0E55C809C8B1B4, 0x3957200722C6D2, 0x234AAA72, 0x8203E721,
      0x46D7671EEF3A, 0xA4F6C393, 0x24AD9167)
    ensures Step(2, 0x3957200722C6D2, 0xE55C800C8B1B49, 0x8203E721, 0x24AD9167,
      0x5AC718D15044, 0xCD2BCDD8, 0x19DF077C)
    ensures Step(2, 0xE55C800C8B1B49, 0x957200322C6D27, 0x24AD9167, 0x19DF077C,
      0x26EDB6B43AC8, 0xE1CE2F46, 0x345E628F)
  {
  }

  lemma Rounds3b()
    ensures Step(1, 0x957200322C6D27, 0x2AE4007458DA4E, 0x19DF077C, 0x345E628F,
      0x3D9264AE1C82, 0x1639E4F2, 0xDEC903A3)
    ensures Step(2, 0x2AE4007458DA4E, 0xAB9001C1636939, 0x345E628F, 0xDEC903A3,
      0xF1D482C1AED6, 0x5BDDF72E, 0xD9719765)
    ensures Step(2, 0xAB9001C1636939, 0xAE4007258DA4E4, 0xDEC903A3, 0xD9719765,
      0xF173BB594F22, 0x5A57F39B, 0x31A6BB20)
    ensures Step(2, 0xAE4007258DA4E4, 0xB9001CA6369391, 0xD9719765, 0x31A6BB20,
      0x141C41B57604, 0x734D2E58, 0x034045AF)
    ensures Step(2, 0xB9001CA6369391, 0xE40072A8DA4E45, 0x31A6BB20, 0x034045AF,
      0x8A260D38DEE0, 0x1EB06927, 0x65A89696)
    ensures Step(2, 0xE40072A8DA4E45, 0x9001CAB3693916, 0x034045AF, 0x65A89696,
      0x7994793F8C2D, 0x762C11A8, 0x6B40F3F8)
    ensures Step(2, 0x9001CAB3693916, 0x40072AEDA4E458, 0x65A89696, 0x6B40F3F8,
      0xB5C6A8B85F8B, 0x154C8423, 0x64ABCACC)
    ensures Step(1, 0x40072AEDA4E458, 0x800E55CB49C8B1, 0x6B40F3F8, 0x64ABCACC,
      0xA815D11493CB, 0x63E427A3, 0x2B630C75)
  {
  }

  lemma Ends3()
    ensures Ends(0x3849674C2602319E, 0x51454B582DDF440A, 0x7178876E01F19B2A, 0x800E55CB49C8B1, 0x6F297237, 0x2010BCA4,
      0x64ABCACC, 0x2B630C75)
  {
  }

  lemma Answer3()
    ensures Answers(0x3849674C2602319E, 0x51454B582DDF440A, 0x7178876E01F19B2A)
  {
    hide *;
    Ends3();
    Rounds3a();
    Rounds3b();
    Begins(0x3849674C2602319E, 0x51454B582DDF440A, 0x7178876E01F19B2A, 0x800E55CB49C8B1, 0x6F297237, 0x2010BCA4,
      0x64ABCACC, 0x2B630C75);
    var k, f := Bits64(0x3849674C2602319E), First(Bits64(0x51454B582DDF440A));
    Followed(k, f);
    Finishes(0x3849674C2602319E, 0x51454B582DDF440A, 0x7178876E01F19B2A, 0x800E55CB49C8B1, 0x6F297237, 0x2010BCA4,
      0x800E55CB49C8B1, 0x64ABCACC, 0x2B630C75);
  }

  lemma Rounds4a()
    ensures Step(1, 0xEA30EAEB8E52AE, 0xD461D5D71CA55D, 0x777A6672, 0x82CA52E1,
      0xB907F1D8466E, 0xB9195A22, 0xC3D42030)
    ensures Step(1, 0xD461D5D71CA55D, 0xA8C3ABBE394ABA, 0x82CA52E1, 0xC3D42030,
      0x3FC2806FC5F7, 0x12379BC0, 0x77BA62E6)
    ensures Step(2, 0xA8C3ABBE394ABA, 0xA30EAEE8E52AEB, 0xC3D42030, 0x77BA62E6,
      0xF0512E3DB2C6, 0x549D1B94, 0x75F49143)
    ensures Step(2, 0xA30EAEE8E52AEB, 0x8C3ABBA394ABAE, 0x77BA62E6, 0x75F49143,
      0xC651A7E6DE43, 0x5AE6AFEF, 0x2EC1DF49)
    ensures Step(2, 0x8C3ABBA394ABAE, 0x30EAEEAE52AEB8, 0x75F49143, 0x2EC1DF49,
      0xF76B09052CB4, 0x6636EDFA, 0x2AA227DE)
    ensures Step(2, 0x30EAEEAE52AEB8, 0xC3ABBA894ABAE3, 0x2EC1DF49, 0x2AA227DE,
      0x7DF9738C3177, 0x85D48FB0, 0x3960AA50)
    ensures Step(2, 0xC3ABBA894ABAE3, 0x0EAEEA352AEB8E, 0x2AA227DE, 0x3960AA50,
      0xFAC71BCB14F1, 0x0D2A9B3F, 0x11C84BAA)
    ensures Step(2, 0x0EAEEA352AEB8E, 0x3ABBA8C4ABAE39, 0x3960AA50, 0x11C84BAA,
      0x6C99E2FE9E34, 0x5F06390A, 0x412A5AC2)
  {
  }

  lemma Rounds4b()
    ensures Step(1, 0x3ABBA8C4ABAE39, 0x75775189575C72, 0x11C84BAA, 0x412A5AC2,
      0x92FA316A9CBB, 0xE28909F5, 0xC358E4CB)
    ensures Step(2, 0x75775189575C72, 0xD5DD46155D71CA, 0x412A5AC2, 0xC358E4CB,
      0x693192678A8A, 0x90E2313F, 0x6BE97764)
    ensures Step(2, 0xD5DD46155D71CA, 0x5775187575C729, 0xC358E4CB, 0x6BE97764,
      0x940CAF317AFD, 0x8F18BE46, 0xB6E2A433)
    ensures Step(2, 0x5775187575C729, 0x5DD461D5D71CA5, 0x6BE97764, 0xB6E2A433,
      0x4F80C4536E02, 0x697E3A02, 0x5F82A5A0)
    ensures Step(2, 0x5DD461D5D71CA5, 0x775187575C7295, 0xB6E2A433, 0x5F82A5A0,
      0x7CA7F42AB095, 0x8B13A5B6, 0x7128C09A)
    ensures Step(2, 0x775187575C7295, 0xDD461D5D71CA55, 0x5F82A5A0, 0x7128C09A,
      0xA7D894AB556B, 0x4E68D15A, 0x349D05F4)
    ensures Step(2, 0xDD461D5D71CA55, 0x75187575C72957, 0x7128C09A, 0x349D05F4,
      0x09D335C7CC21, 0x4BF56BA2, 0xA507351F)
    ensures Step(1, 0x75187575C72957, 0xEA30EAEB8E52AE, 0x349D05F4, 0xA507351F,
      0xBE8697A606AC, 0x7A4C19AE, 0x4C96B397)
  {
  }

  lemma Ends4()
    ensures Ends(0x04B915BA43FEB5B6, 0x42FD443059577FA2, 0xAF37FB421F8C4095, 0xEA30EAEB8E52AE, 0x777A6672, 0x82CA52E1,
      0xA507351F, 0x4C96B397)
  {
  }

  lemma Answer4()
    ensures Answers(0x04B915BA43FEB5B6, 0x42FD443059577FA2, 0xAF37FB421F8C4095)
  {
    hide *;
    Ends4();
    Rounds4a();
    Rounds4b();
    Begins(0x04B915BA43FEB5B6, 0x42FD443059577FA2, 0xAF37FB421F8C4095, 0xEA30EAEB8E52AE, 0x777A6672, 0x82CA52E1,
      0xA507351F, 0x4C96B397);
    var k, f := Bits64(0x04B915BA43FEB5B6), First(Bits64(0x42FD443059577FA2));
    Followed(k, f);
    Finishes(0x04B915BA43FEB5B6, 0x42FD443059577FA2, 0xAF37FB421F8C4095, 0xEA30EAEB8E52AE, 0x777A6672, 0x82CA52E1,
      0xEA30EAEB8E52AE, 0xA507351F, 0x4C96B397);
  }

  lemma Rounds5a()
    ensures Step(1, 0xD4D87C7C2B094E, 0xA9B0F8F856129D, 0x34D66533, 0x2280AEA6,
      0x7F72CD1DDACA, 0x8C40C34F, 0x3D694D03)
    ensures Step(1, 0xA9B0F8F856129D, 0x5361F1F0AC253B, 0x2280AEA6, 0x3D694D03,
      0xEEBEAFF11966, 0x0FA806D1, 0x60B8E7FB)
    ensures Step(2, 0x5361F1F0AC253B, 0x4D87C7D2B094EC, 0x3D694D03, 0x60B8E7FB,
      0x65DD10D0539A, 0x9B21C4D0, 0xFEF50D0C)
    ensures Step(2, 0x4D87C7D2B094EC, 0x361F1F5AC253B0, 0x60B8E7FB, 0xFEF50D0C,
      0xEC3C1CED16CB, 0x0DB446F3, 0x6686BAE6)
    ensures Step(2, 0x361F1F5AC253B0, 0xD87C7D4B094EC2, 0xFEF50D0C, 0x6686BAE6,
      0x8CE38A621337, 0xC456D480, 0xDB309D15)
    ensures Step(2, 0xD87C7D4B094EC2, 0x61F1F53C253B0A, 0x6686BAE6, 0xDB309D15,
      0x9C7FCC40F0E9, 0x27C98504, 0xA787D99E)
    ensures Step(2, 0x61F1F53C253B0A, 0x87C7D4D094EC2B, 0xDB309D15, 0xA787D99E,
      0x992CFB6BDD89, 0x87F7088A, 0x07F3CC00)
    ensures Step(2, 0x87C7D4D094EC2B, 0x1F1F536253B0AC, 0xA787D99E, 0x07F3CC00,
      0x943459440EC4, 0x8D215C28, 0x1F0B9D82)
  {
  }

  lemma Rounds5b()
    ensures Step(1, 0x1F1F536253B0AC, 0x3E3EA6C4A76158, 0x07F3CC00, 0x1F0B9D82,
      0xE927C58C8E5C, 0xA71B89EC, 0xDA23AA71)
    ensures Step(2, 0x3E3EA6C4A76158, 0xF8FA9B029D8561, 0x1F0B9D82, 0xDA23AA71,
      0x91FA0064F28F, 0xE5873504, 0xBFCB6E3A)
    ensures Step(2, 0xF8FA9B029D8561, 0xE3EA6C3A761584, 0xDA23AA71, 0xBFCB6E3A,
      0x744A0D95DF53, 0x3880C335, 0xD90F8553)
    ensures Step(2, 0xE3EA6C3A761584, 0x8FA9B0F9D85612, 0xBFCB6E3A, 0xD90F8553,
      0x826CA19C8210, 0x4B1379FA, 0x41958ABB)
    ensures Step(2, 0x8FA9B0F9D85612, 0x3EA6C3E761584A, 0xD90F8553, 0x41958ABB,
      0x56F533E21D2F, 0xC2C4646D, 0x919A18FB)
    ensures Step(2, 0x3EA6C3E761584A, 0xFA9B0F8D856129, 0x41958ABB, 0x919A18FB,
      0xD497C70CA6A4, 0x3F15B2A4, 0xA4BDDC08)
    ensures Step(2, 0xFA9B0F8D856129, 0xEA6C3E361584A7, 0x919A18FB, 0xA4BDDC08,
      0xFFA9E4480575, 0xD3095C59, 0x6B0ED0B1)
    ensures Step(1, 0xEA6C3E361584A7, 0xD4D87C7C2B094E, 0xA4BDDC08, 0x6B0ED0B1,
      0xBC1FD27D47E8, 0x73C26369, 0xECC8338A)
  {
  }

  lemma Ends5()
    ensures Ends(0x0113B970FD34F2CE, 0x059B5E0851CF143A, 0x86A560F10EC6D85B, 0xD4D87C7C2B094E, 0x34D66533, 0x2280AEA6,
      0x6B0ED0B1, 0xECC8338A)
  {
  }

  lemma Answer5()
    ensures Answers(0x0113B970FD34F2CE, 0x059B5E0851CF143A, 0x86A560F10EC6D85B)
  {
    hide *;
    Ends5();
    Rounds5a();
    Rounds5b();
    Begins(0x0113B970FD34F2CE, 0x059B5E0851CF143A, 0x86A560F10EC6D85B, 0xD4D87C7C2B094E, 0x34D66533, 0x2280AEA6,
      0x6B0ED0B1, 0xECC8338A);
    var k, f := Bits64(0x0113B970FD34F2CE), First(Bits64(0x059B5E0851CF143A));
    Followed(k, f);
    Finishes(0x0113B970FD34F2CE, 0x059B5E0851CF143A, 0x86A560F10EC6D85B, 0xD4D87C7C2B094E, 0x34D66533, 0x2280AEA6,
      0xD4D87C7C2B094E, 0x6B0ED0B1, 0xECC8338A);
  }

  lemma Rounds6a()
    ensures Step(1, 0xE49ECE4B0F820E, 0xC93D9C961F041D, 0xFE963371, 0x8C5804B3,
      0x28A0977396C3, 0xFB0CE6FF, 0xB528ED9A)
    ensures Step(1, 0xC93D9C961F041D, 0x927B393C3E083A, 0x8C5804B3, 0xB528ED9A,
      0x631E6F237EB3, 0x5BB8775C, 0xE264E55D)
    ensures Step(2, 0x927B393C3E083A, 0x49ECE4E0F820EB, 0xB528ED9A, 0xE264E55D,
      0x1457C2640F37, 0x741D3C90, 0x03287F41)
    ensures Step(2, 0x49ECE4E0F820EB, 0x27B39393E083AC, 0xE264E55D, 0x03287F41,
      0xF3A324975EC3, 0x53F9C12F, 0x2F63083B)
    ensures Step(2, 0x27B39393E083AC, 0x9ECE4E4F820EB0, 0x03287F41, 0x2F63083B,
      0x191294EFE7D5, 0x1C384666, 0x07167B3F)
    ensures Step(2, 0x9ECE4E4F820EB0, 0x7B39392E083AC3, 0x2F63083B, 0x07167B3F,
      0xB6CFD30124F4, 0x1DC72D3A, 0xB5287DA1)
    ensures Step(2, 0x7B39392E083AC3, 0xECE4E49820EB0F, 0x07167B3F, 0xB5287DA1,
      0x35FD51B3EC51, 0xD5E4769C, 0x2DB3AA80)
    ensures Step(2, 0xECE4E49820EB0F, 0xB393927083AC3E, 0xB5287DA1, 0x2DB3AA80,
      0x5E365B10B660, 0xB8CA4C27, 0xA5E772CB)
  {
  }

  lemma Rounds6b()
    ensures Step(1, 0xB393927083AC3E, 0x672724F107587C, 0x2DB3AA80, 0xA5E772CB,
      0x737BF7FB9C0E, 0x0C7BE6A1, 0xA8DEA65D)
    ensures Step(2, 0x672724F107587C, 0x9C9C93D41D61F0, 0xA5E772CB, 0xA8DEA65D,
      0x085D7B0356E7, 0x44E721F7, 0x27B4CF7E)
    ensures Step(2, 0x9C9C93D41D61F0, 0x72724F607587C1, 0xA8DEA65D, 0x27B4CF7E,
      0x224630ECFE50, 0x27BF45EA, 0x6488D100)
    ensures Step(2, 0x72724F607587C1, 0xC9C93D91D61F04, 0x27B4CF7E, 0x6488D100,
      0x2DA0366252A5, 0x20AED20E, 0x0ED2DC1A)
    ensures Step(2, 0xC9C93D91D61F04, 0x2724F677587C10, 0x6488D100, 0x0ED2DC1A,
      0xE69A791DC841, 0xA36CC561, 0x251DAF4C)
    ensures Step(2, 0x2724F677587C10, 0x9C93D9CD61F041, 0x0ED2DC1A, 0x251DAF4C,
      0x4C4B5F56E3C3, 0x6889F3AF, 0xA7FC73FB)
    ensures Step(2, 0x9C93D9CD61F041, 0x724F672587C107, 0x251DAF4C, 0xA7FC73FB,
      0x4262C3BD4CE6, 0x3B48D351, 0x4620C50E)
    ensures Step(1, 0x724F672587C107, 0xE49ECE4B0F820E, 0xA7FC73FB, 0x4620C50E,
      0xEA2B82DDAA1F, 0xAE0D97C2, 0x464641A2)
  {
  }

  lemma Ends6()
    ensures Ends(0x0170F175468FB5E6, 0x0756D8E0774761D2, 0x0CD3DA020021DC09, 0xE49ECE4B0F820E, 0xFE963371, 0x8C5804B3,
      0x4620C50E, 0x464641A2)
  {
  }

  lemma Answer6()
    ensures Answers(0x0170F175468FB5E6, 0x0756D8E0774761D2, 0x0CD3DA020021DC09)
  {
    hide *;
    Ends6();
    Rounds6a();
    Rounds6b();
    Begins(0x0170F175468FB5E6, 0x0756D8E0774761D2, 0x0CD3DA020021DC09, 0xE49ECE4B0F820E, 0xFE963371, 0x8C5804B3,
      0x4620C50E, 0x464641A2);
    var k, f := Bits64(0x0170F175468FB5E6), First(Bits64(0x0756D8E0774761D2));
    Followed(k, f);
    Finishes(0x0170F175468FB5E6, 0x0756D8E0774761D2, 0x0CD3DA020021DC09, 0xE49ECE4B0F820E, 0xFE963371, 0x8C5804B3,
      0xE49ECE4B0F820E, 0x4620C50E, 0x464641A2);
  }

  lemma Rounds7a()
    ensures Step(1, 0xA8E5FEDE58C9E4, 0x51CBFDBCB193C9, 0xC12D2732, 0x28BBF8A1,
      0xC4A09874284C, 0x5B0B816B, 0x0877CB70)
    ensures Step(1, 0x51CBFDBCB193C9, 0xA397FB69632793, 0x28BBF8A1, 0x0877CB70,
      0xDFAD53A87C03, 0xE3E7D2AF, 0xC15C2784)
    ensures Step(2, 0xA397FB69632793, 0x8E5FEDA58C9E4E, 0x0877CB70, 0xC15C2784,
      0xBCDCC28E9460, 0x78FD89E7, 0x9D6C7417)
    ensures Step(2, 0x8E5FEDA58C9E4E, 0x397FB6A6327939, 0xC15C2784, 0x9D6C7417,
      0x293436585BFB, 0xF01EF475, 0xE688B96E)
    ensures Step(2, 0x397FB6A6327939, 0xE5FEDA88C9E4E5, 0x9D6C7417, 0xE688B96E,
      0x9A2E16CE8EE7, 0x8E55F227, 0x78C368A7)
    ensures Step(2, 0xE5FEDA88C9E4E5, 0x97FB6A33279396, 0xE688B96E, 0x78C368A7,
      0x96E97C580B0F, 0x81D8FC74, 0xD11DFC86)
    ensures Step(2, 0x97FB6A33279396, 0x5FEDA8EC9E4E58, 0x78C368A7, 0xD11DFC86,
      0x8E5D00A5F673, 0xCA27182C, 0x800BFC83)
    ensures Step(2, 0x5FEDA8EC9E4E58, 0x7FB6A392793963, 0xD11DFC86, 0x800BFC83,
      0x37CF06CA4D8B, 0xD2E39F83, 0x20FE5589)
  {
  }

  lemma Rounds7b()
    ensures Step(1, 0x7FB6A392793963, 0xFF6D4724F272C6, 0x800BFC83, 0x20FE5589,
      0x2E4E872492CE, 0x27A54791, 0x422F879E)
    ensures Step(2, 0xFF6D4724F272C6, 0xFDB51CB3C9CB19, 0x20FE5589, 0x422F879E,
      0x8F2232398D2D, 0xC8616E68, 0xB843D105)
    ensures Step(2, 0xFDB51CB3C9CB19, 0xF6D472FF272C64, 0x422F879E, 0xB843D105,
      0x545D9AC9EA20, 0xC4CC9BC7, 0x739C3EEF)
    ensures Step(2, 0xF6D472FF272C64, 0xDB51CBFC9CB193, 0xB843D105, 0x739C3EEF,
      0xE74701C9EA58, 0xAC2D9B15, 0x0BEBEB71)
    ensures Step(2, 0xDB51CBFC9CB193, 0x6D472FF272C64F, 0x739C3EEF, 0x0BEBEB71,
      0x1283BE59685E, 0xDA54F467, 0x1603A245)
    ensures Step(2, 0x6D472FF272C64F, 0xB51CBFD9CB193C, 0x0BEBEB71, 0x1603A245,
      0x51AFC181B8C9, 0x60CD4BBA, 0x91CC5C30)
    ensures Step(2, 0xB51CBFD9CB193C, 0xD472FF672C64F2, 0x1603A245, 0x91CC5C30,
      0x32C1D5590598, 0xBD92F075, 0x31DFEDF7)
    ensures Step(1, 0xD472FF672C64F2, 0xA8E5FEDE58C9E4, 0x91CC5C30, 0x31DFEDF7,
      0x75025B476B30, 0x393A5A70, 0xA7B01A76)
  {
  }

  lemma Ends7()
    ensures Ends(0x43297FAD38E373FE, 0x762514B829BF486A, 0xEA676B2CB7DB2B7A, 0xA8E5FEDE58C9E4, 0xC12D2732, 0x28BBF8A1,
      0x31DFEDF7, 0xA7B01A76)
  {
  }

  lemma Answer7()
    ensures Answers(0x43297FAD38E373FE, 0x762514B829BF486A, 0xEA676B2CB7DB2B7A)
  {
    hide *;
    Ends7();
    Rounds7a();
    Rounds7b();
    Begins(0x43297FAD38E373FE, 0x762514B829BF486A, 0xEA676B2CB7DB2B7A, 0xA8E5FEDE58C9E4, 0xC12D2732, 0x28BBF8A1,
      0x31DFEDF7, 0xA7B01A76);
    var k, f := Bits64(0x43297FAD38E373FE), First(Bits64(0x762514B829BF486A));
    Followed(k, f);
    Finishes(0x43297FAD38E373FE, 0x762514B829BF486A, 0xEA676B2CB7DB2B7A, 0xA8E5FEDE58C9E4, 0xC12D2732, 0x28BBF8A1,
      0xA8E5FEDE58C9E4, 0x31DFEDF7, 0xA7B01A76);
  }

  lemma Rounds8a()
    ensures Step(1, 0x22384AAE79360C, 0x4470954CF26C19, 0x122F2237, 0x0A6153A1,
      0xF51187E81EF4, 0x6CE53A2A, 0xAA04B5A3)
    ensures Step(1, 0x4470954CF26C19, 0x88E12A89E4D833, 0x0A6153A1, 0xAA04B5A3,
      0xF97C299E5494, 0x0ABA72C3, 0x6E1F5A64)
    ensures Step(2, 0x88E12A89E4D833, 0x2384AA279360CE, 0xAA04B5A3, 0x6E1F5A64,
      0xF7ECA6886555, 0x6F102F56, 0xFC3E571B)
    ensures Step(2, 0x2384AA279360CE, 0x8E12A88E4D8339, 0x6E1F5A64, 0xFC3E571B,
      0xB367ECD17935, 0x2617CEB9, 0xB17B447D)
    ensures Step(2, 0x8E12A88E4D8339, 0x384AA229360CE7, 0xFC3E571B, 0xB17B447D,
      0x9CB6FCA444D4, 0x22B81A33, 0x8A1C585F)
    ensures Step(2, 0x384AA229360CE7, 0xE12A8884D8339E, 0xB17B447D, 0x8A1C585F,
      0xAFE0BB713E3B, 0x9F07E105, 0x70B73CCF)
    ensures Step(2, 0xE12A8884D8339E, 0x84AA223360CE79, 0x8A1C585F, 0x70B73CCF,
      0x93D9A47757A7, 0xEE998117, 0x4D96F32F)
    ensures Step(2, 0x84AA223360CE79, 0x12A888ED8339E4, 0x70B73CCF, 0x4D96F32F,
      0xC59D37799755, 0x562B9086, 0x91F5BCB8)
  {
  }

  lemma Rounds8b()
    ensures Step(1, 0x12A888ED8339E4, 0x255111CB0673C9, 0x4D96F32F, 0x91F5BCB8,
      0x586D4FF78AAA, 0xCEE3513C, 0xA75B561B)
    ensures Step(2, 0x255111CB0673C9, 0x9544470C19CF26, 0x91F5BCB8, 0xA75B561B,
      0x48B3B63510C1, 0xA25ED601, 0xF410A6F0)
    ensures Step(2, 0x9544470C19CF26, 0x55111C20673C9B, 0xA75B561B, 0xF410A6F0,
      0x7AE3CC159841, 0x71A92061, 0x274B99DD)
    ensures Step(2, 0x55111C20673C9B, 0x544470919CF26C, 0xF410A6F0, 0x274B99DD,
      0x11BF525796A7, 0xD922F6A7, 0xD5FE6A5F)
    ensures Step(2, 0x544470919CF26C, 0x5111C25673C9B0, 0x274B99DD, 0xD5FE6A5F,
      0xABB41DD6946B, 0x651E09EA, 0x3B196F8C)
    ensures Step(2, 0x5111C25673C9B0, 0x44470959CF26C1, 0xD5FE6A5F, 0x3B196F8C,
      0x8E9853ACDBF3, 0xC317E97C, 0x0A2A9EFF)
    ensures Step(2, 0x44470959CF26C1, 0x111C25573C9B06, 0x3B196F8C, 0x0A2A9EFF,
      0x144697F18FFB, 0x784C0EC5, 0x2B20F5E7)
    ensures Step(1, 0x111C25573C9B06, 0x22384AAE79360C, 0x0A2A9EFF, 0x2B20F5E7,
      0xB7431B41B7E8, 0x1CFA8B69, 0x1753B3A9)
  {
  }

  lemma Ends8()
    ensures Ends(0x07A7137045DA2A16, 0x3BDD119049372802, 0xDFD64A815CAF1A0F, 0x22384AAE79360C, 0x122F2237, 0x0A6153A1,
      0x2B20F5E7, 0x1753B3A9)
  {
  }

  lemma Answer8()
    ensures Answers(0x07A7137045DA2A16, 0x3BDD119049372802, 0xDFD64A815CAF1A0F)
  {
    hide *;
    Ends8();
    Rounds8a();
    Rounds8b();
    Begins(0x07A7137045DA2A16, 0x3BDD119049372802, 0xDFD64A815CAF1A0F, 0x22384AAE79360C, 0x122F2237, 0x0A6153A1,
      0x2B20F5E7, 0x1753B3A9);
    var k, f := Bits64(0x07A7137045DA2A16), First(Bits64(0x3BDD119049372802));
    Followed(k, f);
    Finishes(0x07A7137045DA2A16, 0x3BDD119049372802, 0xDFD64A815CAF1A0F, 0x22384AAE79360C, 0x122F2237, 0x0A6153A1,
      0x22384AAE79360C, 0x2B20F5E7, 0x1753B3A9);
  }

  lemma Rounds9a()
    ensures Step(1, 0x3432E26D0A9E24, 0x6865C4CA153C49, 0x4C963736, 0xA279ACA5,
      0x365352F4DC65, 0xDA62599E, 0x36599711)
    ensures Step(1, 0x6865C4CA153C49, 0xD0CB89842A7893, 0xA279ACA5, 0x36599711,
      0xC273D09CA7B2, 0xF1A17216, 0x00DF6F03)
    ensures Step(2, 0xD0CB89842A7893, 0x432E2630A9E24D, 0x36599711, 0x00DF6F03,
      0x219AA52CC95E, 0x26F076D7, 0x506E9CAC)
    ensures Step(2, 0x432E2630A9E24D, 0x0CB898D2A78934, 0x00DF6F03, 0x506E9CAC,
      0x4F61DBAE6758, 0x669AE585, 0x459BC4FA)
    ensures Step(2, 0x0CB898D2A78934, 0x32E2634A9E24D0, 0x506E9CAC, 0x459BC4FA,
      0x12216790B1DA, 0xDE061C70, 0x22B608B6)
    ensures Step(2, 0x32E2634A9E24D0, 0xCB898D0A789342, 0x459BC4FA, 0x22B608B6,
      0x4C75DFB90D22, 0x67E9806B, 0x8C880BAE)
    ensures Step(2, 0xCB898D0A789342, 0x2E263439E24D0A, 0x22B608B6, 0x8C880BAE,
      0xE2504C010FAE, 0x3AD92022, 0xE6BD0F74)
    ensures Step(2, 0x2E263439E24D0A, 0xB898D0C789342A, 0x8C880BAE, 0xE6BD0F74,
      0x3ED67CB243C8, 0x14C87FA6, 0xBCAF2E55)
  {
  }

  lemma Rounds9b()
    ensures Step(1, 0xB898D0C789342A, 0x7131A19F126854, 0xE6BD0F74, 0xBCAF2E55,
      0xAC923FF780B4, 0x9F6E51BA, 0x8C727B23)
    ensures Step(2, 0x7131A19F126854, 0xC4C6865C49A153, 0xBCAF2E55, 0x8C727B23,
      0x0C5B25E8788D, 0xF4303247, 0x981DA4E3)
    ensures Step(2, 0xC4C6865C49A153, 0x131A197126854F, 0x8C727B23, 0x981DA4E3,
      0xDEA32554846E, 0xE4F0F9E2, 0xB9E5DCB6)
    ensures Step(2, 0x131A197126854F, 0x4C6865C49A153C, 0x981DA4E3, 0xB9E5DCB6,
      0x6B6B88BD2FC9, 0x9600DDCA, 0xE18B84F8)
    ensures Step(2, 0x4C6865C49A153C, 0x31A197126854F1, 0xB9E5DCB6, 0xE18B84F8,
      0x033533B01A49, 0xE6C47A1A, 0xC3424F26)
    ensures Step(2, 0x31A197126854F1, 0xC6865C49A153C4, 0xE18B84F8, 0xC3424F26,
      0xE88A912CD516, 0xA6F4799E, 0x9F0CB74D)
    ensures Step(2, 0xC6865C49A153C4, 0x1A197136854F12, 0xC3424F26, 0x9F0CB74D,
      0xDAEF67359A6B, 0x7126D01A, 0xE8049D20)
    ensures Step(1, 0x1A197136854F12, 0x3432E26D0A9E24, 0x9F0CB74D, 0xE8049D20,
      0x17CF81D56322, 0x727D048B, 0x530F2D02)
  {
  }

  lemma Ends9()
    ensures Ends(0x04689104C2FD3B2F, 0x26955F6835AF609A, 0x5C513C9C4886C088, 0x3432E26D0A9E24, 0x4C963736, 0xA279ACA5,
      0xE8049D20, 0x530F2D02)
  {
  }

  lemma Answer9()
    ensures Answers(0x04689104C2FD3B2F, 0x26955F6835AF609A, 0x5C513C9C4886C088)
  {
    hide *;
    Ends9();
    Rounds9a();
    Rounds9b();
    Begins(0x04689104C2FD3B2F, 0x26955F6835AF609A, 0x5C513C9C4886C088, 0x3432E26D0A9E24, 0x4C963736, 0xA279ACA5,
      0xE8049D20, 0x530F2D02);
    var k, f := Bits64(0x04689104C2FD3B2F), First(Bits64(0x26955F6835AF609A));
    Followed(k, f);
    Finishes(0x04689104C2FD3B2F, 0x26955F6835AF609A, 0x5C513C9C4886C088, 0x3432E26D0A9E24, 0x4C963736, 0xA279ACA5,
      0x3432E26D0A9E24, 0xE8049D20, 0x530F2D02);
  }

  lemma Rounds10a()
    ensures Step(1, 0x2AE64D5B5D924B, 0x55CC9AA6BB2497, 0x5EC53732, 0x00A016F5,
      0x406C4F7DF08E, 0x3E4368B1, 0x8C8839A1)
    ensures Step(1, 0x55CC9AA6BB2497, 0xAB99354D76492E, 0x00A016F5, 0x8C8839A1,
      0xDB92A619EFD4, 0x70301BC3, 0x3492BCF2)
    ensures Step(2, 0xAB99354D76492E, 0xAE64D525D924BB, 0x8C8839A1, 0x3492BCF2,
      0xE4C4B9083241, 0xA3DCCF41, 0xD93D42E9)
    ensures Step(2, 0xAE64D525D924BB, 0xB99354A76492ED, 0x3492BCF2, 0xD93D42E9,
      0xE1AA960ADA9A, 0x30F5CF30, 0xA3B78BFC)
    ensures Step(2, 0xB99354A76492ED, 0xE64D52AD924BB5, 0xD93D42E9, 0xA3B78BFC,
      0xDA25908F88EE, 0x7E7181B2, 0x1E36E4FE)
    ensures Step(2, 0xE64D52AD924BB5, 0x99354AB6492ED7, 0xA3B78BFC, 0x1E36E4FE,
      0xA2EAC50FD254, 0xD19BB843, 0x1665423E)
    ensures Step(2, 0x99354AB6492ED7, 0x64D52AE924BB5D, 0x1E36E4FE, 0x1665423E,
      0x88BDA36818B7, 0x12CF0A40, 0xCE47F5BC)
    ensures Step(2, 0x64D52AE924BB5D, 0x9354AB9492ED76, 0x1665423E, 0xCE47F5BC,
      0xBCFD5F3C4FC5, 0x7EE91ACD, 0xEE5CC949)
  {
  }

  lemma Rounds10b()
    ensures Step(1, 0x9354AB9492ED76, 0x26A9573925DAEC, 0xCE47F5BC, 0xEE5CC949,
      0xC68AC7ECE608, 0x5A954856, 0x1859649E)
    ensures Step(2, 0x26A9573925DAEC, 0x9AA55CC4976BB2, 0xEE5CC949, 0x1859649E,
      0xA32346FF62E8, 0xD8633A99, 0x54B541CE)
    ensures Step(2, 0x9AA55CC4976BB2, 0x6A9573225DAEC9, 0x1859649E, 0x54B541CE,
      0xBC9B97197BB0, 0x7F0C1EE0, 0x6861B2C5)
    ensures Step(2, 0x6A9573225DAEC9, 0xAA55CC9976BB24, 0x54B541CE, 0x6861B2C5,
      0x7A3133528C8D, 0x789432F7, 0x728FDE6D)
    ensures Step(2, 0xAA55CC9976BB24, 0xA9573265DAEC92, 0x6861B2C5, 0x728FDE6D,
      0x34CAB339A5EF, 0xD3F467CD, 0x24D44B6A)
    ensures Step(2, 0xA9573265DAEC92, 0xA55CC9A76BB249, 0x728FDE6D, 0x24D44B6A,
      0xCAE4E29E609D, 0xC18675B9, 0x584B23E4)
    ensures Step(2, 0xA55CC9A76BB249, 0x957326ADAEC925, 0x24D44B6A, 0x584B23E4,
      0x07DD3E028C1B, 0x0E2422AE, 0x6CFE5FDF)
    ensures Step(1, 0x957326ADAEC925, 0x2AE64D5B5D924B, 0x584B23E4, 0x6CFE5FDF,
      0x02276C92F731, 0xEEF71A6F, 0xA4B0BCD0)
  {
  }

  lemma Ends10()
    ensures Ends(0x37D06BB516CB7546, 0x164D5E404F275232, 0x0A2AEEAE3FF4AB77, 0x2AE64D5B5D924B, 0x5EC53732, 0x00A016F5,
      0x6CFE5FDF, 0xA4B0BCD0)
  {
  }

  lemma Answer10()
    ensures Answers(0x37D06BB516CB7546, 0x164D5E404F275232, 0x0A2AEEAE3FF4AB77)
  {
    hide *;
    Ends10();
    Rounds10a();
    Rounds10b();
    Begins(0x37D06BB516CB7546, 0x164D5E404F275232, 0x0A2AEEAE3FF4AB77, 0x2AE64D5B5D924B, 0x5EC53732, 0x00A016F5,
      0x6CFE5FDF, 0xA4B0BCD0);
    var k, f := Bits64(0x37D06BB516CB7546), First(Bits64(0x164D5E404F275232));
    Followed(k, f);
    Finishes(0x37D06BB516CB7546, 0x164D5E404F275232, 0x0A2AEEAE3FF4AB77, 0x2AE64D5B5D924B, 0x5EC53732, 0x00A016F5,
      0x2AE64D5B5D924B, 0x6CFE5FDF, 0xA4B0BCD0);
  }

  lemma Rounds11a()
    ensures Step(1, 0x20E0049F5CD9B1, 0x41C0092EB9B363, 0xD5787633, 0xA015EDA5,
      0xC030E24A0405, 0xFD76593D, 0xEBB58805)
    ensures Step(1, 0x41C0092EB9B363, 0x8380124D7366C7, 0xA015EDA5, 0xEBB58805,
      0xFD757FCA07B4, 0xDA5E991A, 0xDFDE5DE7)
    ensures Step(2, 0x8380124D7366C7, 0x0E004925CD9B1F, 0xEBB58805, 0xDFDE5DE7,
      0xFB9EE4F0C6CE, 0x005906F1, 0x6D84844C)
    ensures Step(2, 0x0E004925CD9B1F, 0x38012487366C7D, 0xDFDE5DE7, 0x6D84844C,
      0x33B929224125, 0xB54A7F2E, 0xE7393B1D)
    ensures Step(2, 0x38012487366C7D, 0xE004920CD9B1F5, 0x6D84844C, 0xE7393B1D,
      0x3AE1F74CD575, 0x819B0959, 0xF354ED0C)
    ensures Step(2, 0xE004920CD9B1F5, 0x8012483366C7D7, 0xE7393B1D, 0xF354ED0C,
      0x73C8A199BFE0, 0x0263BBC7, 0x164A13B8)
    ensures Step(2, 0x8012483366C7D7, 0x004920ED9B1F5C, 0xF354ED0C, 0x164A13B8,
      0x0AD6FE51079F, 0x44B43012, 0xD5567C98)
    ensures Step(2, 0x004920ED9B1F5C, 0x012483866C7D73, 0x164A13B8, 0xD5567C98,
      0x9AA2EC494D49, 0x8447530A, 0xBEAD23A8)
  {
  }

  lemma Rounds11b()
    ensures Step(1, 0x012483866C7D73, 0x0249070CD8FAE6, 0xD5567C98, 0xBEAD23A8,
      0x4FCD680E91CF, 0x62ECB974, 0xA647CB7C)
    ensures Step(2, 0x0249070CD8FAE6, 0x09241C0363EB9B, 0xBEAD23A8, 0xA647CB7C,
      0xF4E24B083C28, 0x643FCFA9, 0x23C99DF5)
    ensures Step(2, 0x09241C0363EB9B, 0x2490700D8FAE6C, 0xA647CB7C, 0x23C99DF5,
      0x923857545DC1, 0xE81CF4F1, 0x81DB55B5)
    ensures Step(2, 0x2490700D8FAE6C, 0x9241C0063EB9B3, 0x23C99DF5, 0x81DB55B5,
      0x882FC65C62AF, 0x11C3AF0D, 0xBAA8F45F)
    ensures Step(2, 0x9241C0063EB9B3, 0x49070028FAE6CD, 0x81DB55B5, 0xBAA8F45F,
      0x5BD538E2A501, 0xCEC56891, 0x5356CC24)
    ensures Step(2, 0x49070028FAE6CD, 0x241C0093EB9B36, 0xBAA8F45F, 0x5356CC24,
      0xA928AF987B89, 0x6768B2EA, 0xD39B328A)
    ensures Step(2, 0x241C0093EB9B36, 0x9070024FAE6CD8, 0x5356CC24, 0xD39B328A,
      0x426776E8322E, 0x3BFE3FF2, 0x252DBBEB)
    ensures Step(1, 0x9070024FAE6CD8, 0x20E0049F5CD9B1, 0xD39B328A, 0x252DBBEB,
      0xB3B95B2DA2C1, 0x25DA7791, 0xF5FE5953)
  {
  }

  lemma Ends11()
    ensures Ends(0x1F08260D1AC2465E, 0x6B056E18759F5CCA, 0xEF1BF03E5DFA575A, 0x20E0049F5CD9B1, 0xD5787633, 0xA015EDA5,
      0x252DBBEB, 0xF5FE5953)
  {
  }

  lemma Answer11()
    ensures Answers(0x1F08260D1AC2465E, 0x6B056E18759F5CCA, 0xEF1BF03E5DFA575A)
  {
    hide *;
    Ends11();
    Rounds11a();
    Rounds11b();
    Begins(0x1F08260D1AC2465E, 0x6B056E18759F5CCA, 0xEF1BF03E5DFA575A, 0x20E0049F5CD9B1, 0xD5787633, 0xA015EDA5,
      0x252DBBEB, 0xF5FE5953);
    var k, f := Bits64(0x1F08260D1AC2465E), First(Bits64(0x6B056E18759F5CCA));
    Followed(k, f);
    Finishes(0x1F08260D1AC2465E, 0x6B056E18759F5CCA, 0xEF1BF03E5DFA575A, 0x20E0049F5CD9B1, 0xD5787633, 0xA015EDA5,
      0x20E0049F5CD9B1, 0x252DBBEB, 0xF5FE5953);
  }

  lemma Rounds12a()
    ensures Step(1, 0x20CBECBB488311, 0x4197D966910623, 0xCE242C3A, 0x0CC81AAE,
      0xD534BD20F478, 0x30D275EF, 0xE2730391)
    ensures Step(1, 0x4197D966910623, 0x832FB2CD220C46, 0x0CC81AAE, 0xE2730391,
      0x18CF50863E88, 0x1321B356, 0xEFFA7A08)
    ensures Step(2, 0x832FB2CD220C46, 0x0CBECB2488311B, 0xE2730391, 0xEFFA7A08,
      0x8115FE697911, 0x4CE40EBC, 0xF85A96AC)
    ensures Step(2, 0x0CBECB2488311B, 0x32FB2C8220C46D, 0xEFFA7A08, 0xF85A96AC,
      0x5DB5C7EA5421, 0xB9E53232, 0x4D512D8E)
    ensures Step(2, 0x32FB2C8220C46D, 0xCBECB2088311B4, 0xF85A96AC, 0x4D512D8E,
      0xC9B6F5D4025E, 0xC9B50C47, 0x6CC04F80)
    ensures Step(2, 0xCBECB2088311B4, 0x2FB2C8320C46D2, 0x4D512D8E, 0x6CC04F80,
      0x52745859F838, 0x612BF81F, 0xF617E76A)
    ensures Step(2, 0x2FB2C8320C46D2, 0xBECB20C8311B48, 0x6CC04F80, 0xF617E76A,
      0x74151DF9B31B, 0x33CEEB8E, 0x35A73C63)
    ensures Step(2, 0xBECB20C8311B48, 0xFB2C8320C46D22, 0xF617E76A, 0x35A73C63,
      0x64B4559B73B6, 0x9222B7DD, 0x9DE7CFC5)
  {
  }

  lemma Rounds12b()
    ensures Step(1, 0xFB2C8320C46D22, 0xF659065188DA44, 0x35A73C63, 0x9DE7CFC5,
      0xC4E4BC7D9612, 0x54D86059, 0x3BB2B5B1)
    ensures Step(2, 0xF659065188DA44, 0xD9641976236910, 0x9DE7CFC5, 0x3BB2B5B1,
      0x224C6839EFB2, 0x274C6B26, 0xCDC0B935)
    ensures Step(2, 0xD9641976236910, 0x659065F88DA441, 0x3BB2B5B1, 0xCDC0B935,
      0xF6F8C8CE0881, 0x62A0F941, 0x4AA61E35)
    ensures Step(2, 0x659065F88DA441, 0x964197D2369106, 0xCDC0B935, 0x4AA61E35,
      0xFC0CB8ABDBAE, 0xDF15D8E2, 0x385E6D26)
    ensures Step(2, 0x964197D2369106, 0x59065F68DA4418, 0x4AA61E35, 0x385E6D26,
      0x8BAB31658BFA, 0x13393E73, 0xBC9452FB)
    ensures Step(2, 0x59065F68DA4418, 0x64197D93691062, 0x385E6D26, 0xBC9452FB,
      0xCCF28F1FDF7E, 0xBE33C838, 0xE7926B30)
    ensures Step(2, 0x64197D93691062, 0x9065F65DA44188, 0xBC9452FB, 0xE7926B30,
      0x99E100375DF2, 0x8A97D1F6, 0x5B4A67DA)
    ensures Step(1, 0x9065F65DA44188, 0x20CBECBB488311, 0xE7926B30, 0x5B4A67DA,
      0x6CDE7EC8EF77, 0x58B49830, 0xD09AFE36)
  {
  }

  lemma Ends12()
    ensures Ends(0x584023641ABA6176, 0x004BD6EF09176062, 0x88BF0DB6D70DEE56, 0x20CBECBB488311, 0xCE242C3A, 0x0CC81AAE,
      0x5B4A67DA, 0xD09AFE36)
  {
  }

  lemma Answer12()
    ensures Answers(0x584023641ABA6176, 0x004BD6EF09176062, 0x88BF0DB6D70DEE56)
  {
    hide *;
    Ends12();
    Rounds12a();
    Rounds12b();
    Begins(0x584023641ABA6176, 0x004BD6EF09176062, 0x88BF0DB6D70DEE56, 0x20CBECBB488311, 0xCE242C3A, 0x0CC81AAE,
      0x5B4A67DA, 0xD09AFE36);
    var k, f := Bits64(0x584023641ABA6176), First(Bits64(0x004BD6EF09176062));
    Followed(k, f);
    Finishes(0x584023641ABA6176, 0x004BD6EF09176062, 0x88BF0DB6D70DEE56, 0x20CBECBB488311, 0xCE242C3A, 0x0CC81AAE,
      0x20CBECBB488311, 0x5B4A67DA, 0xD09AFE36);
  }

  lemma Rounds13a()
    ensures Step(1, 0x40126049D9C22E, 0x8024C083B3845D, 0xF1843226, 0xA0F417F0,
      0xB817A8EBDCCC, 0xB38C385B, 0x8B1669E4)
    ensures Step(1, 0x8024C083B3845D, 0x004981176708BA, 0xA0F417F0, 0x8B1669E4,
      0x14788E52F9C8, 0x776A3A86, 0xD097D507)
    ensures Step(2, 0x004981176708BA, 0x0126044D9C22E9, 0x8B1669E4, 0xD097D507,
      0x4A946FF00D40, 0xA3280C0D, 0xD3962388)
    ensures Step(2, 0x0126044D9C22E9, 0x04981106708BA7, 0xD097D507, 0xD3962388,
      0x7A3EAABEA9D5, 0x78ABD886, 0x61D95660)
    ensures Step(2, 0x04981106708BA7, 0x12604409C22E9D, 0xD3962388, 0x61D95660,
      0x102FE2E2A4E3, 0xD1C66831, 0xC153FE0A)
    ensures Step(2, 0x12604409C22E9D, 0x4981100708BA76, 0x61D95660, 0xC153FE0A,
      0x642AC201085C, 0x919D206C, 0xED490382)
    ensures Step(2, 0x4981100708BA76, 0x2604401C22E9D9, 0xC153FE0A, 0xED490382,
      0xF6EA42422B5F, 0x616D8EA2, 0x50702847)
    ensures Step(2, 0x2604401C22E9D9, 0x981100408BA767, 0xED490382, 0x50702847,
      0xA6000088B126, 0x40A72C21, 0x7D099E0E)
  {
  }

  lemma Rounds13b()
    ensures Step(1, 0x981100408BA767, 0x30220091174ECE, 0x50702847, 0x7D099E0E,
      0x1C2953C28621, 0x41D7F252, 0xF707F9C7)
    ensures Step(2, 0x30220091174ECE, 0xC08802445D3B38, 0x7D099E0E, 0xF707F9C7,
      0xF2E08CA4E6CB, 0x510918F3, 0xCF1B524D)
    ensures Step(2, 0xC08802445D3B38, 0x0220093174ECE1, 0xF707F9C7, 0xCF1B524D,
      0xD4C8EE2A87E6, 0x33ADA261, 0x3637A601)
    ensures Step(2, 0x0220093174ECE1, 0x088024C5D3B384, 0xCF1B524D, 0x3637A601,
      0x9EC52F5BFE87, 0x2DC8FD58, 0xF4063195)
    ensures Step(2, 0x088024C5D3B384, 0x220093074ECE11, 0x3637A601, 0xF4063195,
      0xA88818E07F1A, 0x66DB6290, 0xF05225D0)
    ensures Step(2, 0x220093074ECE11, 0x88024C0D3B3845, 0xF4063195, 0xF05225D0,
      0x76A2A403F5AE, 0x34392D72, 0x6214174B)
    ensures Step(2, 0x88024C0D3B3845, 0x20093024ECE117, 0xF05225D0, 0x6214174B,
      0xB24486DCDBC6, 0x27D39974, 0x070342E0)
    ensures Step(1, 0x20093024ECE117, 0x40126049D9C22E, 0x6214174B, 0x070342E0,
      0x006E873DF7D7, 0xEEA5186B, 0x9A8E885F)
  {
  }

  lemma Ends13()
    ensures Ends(0x025816164629B007, 0x480D39006EE762F2, 0xA1F9915541020B56, 0x40126049D9C22E, 0xF1843226, 0xA0F417F0,
      0x070342E0, 0x9A8E885F)
  {
  }

  lemma Answer13()
    ensures Answers(0x025816164629B007, 0x480D39006EE762F2, 0xA1F9915541020B56)
  {
    hide *;
    Ends13();
    Rounds13a();
    Rounds13b();
    Begins(0x025816164629B007, 0x480D39006EE762F2, 0xA1F9915541020B56, 0x40126049D9C22E, 0xF1843226, 0xA0F417F0,
      0x070342E0, 0x9A8E885F);
    var k, f := Bits64(0x025816164629B007), First(Bits64(0x480D39006EE762F2));
    Followed(k, f);
    Finishes(0x025816164629B007, 0x480D39006EE762F2, 0xA1F9915541020B56, 0x40126049D9C22E, 0xF1843226, 0xA0F417F0,
      0x40126049D9C22E, 0x070342E0, 0x9A8E885F);
  }

  lemma Rounds14a()
    ensures Step(1, 0xA8137E3A4CC9FE, 0x5026FC749993FD, 0x9FC26233, 0xA8D2F8A1,
      0x34B328A4A84F, 0xD2FC1264, 0xFB73F755)
    ensures Step(1, 0x5026FC749993FD, 0xA04DF8E93327FA, 0xA8D2F8A1, 0xFB73F755,
      0x355F09B77CC4, 0xD1E62758, 0xA223092F)
    ensures Step(2, 0xA04DF8E93327FA, 0x8137E3A4CC9FEA, 0xFB73F755, 0xA223092F,
      0x28CF6E1BD5B7, 0xF32D1870, 0x09E32113)
    ensures Step(2, 0x8137E3A4CC9FEA, 0x04DF8EA3327FA9, 0xA223092F, 0x09E32113,
      0x45C52CB8F7D3, 0xA5C78565, 0x23F27617)
    ensures Step(2, 0x04DF8EA3327FA9, 0x137E3A8CC9FEA4, 0x09E32113, 0x23F27617,
      0x30C0F2A12C1C, 0xB371ADAC, 0xD46247BC)
    ensures Step(2, 0x137E3A8CC9FEA4, 0x4DF8EA0327FA93, 0x23F27617, 0xD46247BC,
      0x0EFD47CDB2E8, 0xF2E5FB99, 0xD857CD90)
    ensures Step(2, 0x4DF8EA0327FA93, 0x37E3A81C9FEA4C, 0xD46247BC, 0xD857CD90,
      0x0CF7DF7EDEFF, 0xFE196F2B, 0x08CCE966)
    ensures Step(2, 0x37E3A81C9FEA4C, 0xDF8EA0427FA933, 0xD857CD90, 0x08CCE966,
      0xC9D38A80F888, 0xCB564546, 0x9C883DB8)
  {
  }

  lemma Rounds14b()
    ensures Step(1, 0xDF8EA0427FA933, 0xBF1D4094FF5266, 0x08CCE966, 0x9C883DB8,
      0xC0D72200176D, 0xF8262A88, 0x10247BE1)
    ensures Step(2, 0xBF1D4094FF5266, 0xFC750263FD4999, 0x9C883DB8, 0x10247BE1,
      0x245AA14E0AD7, 0xE4F3094B, 0x005B96AC)
    ensures Step(2, 0xFC750263FD4999, 0xF1D409BFF52664, 0x10247BE1, 0x005B96AC,
      0x9B31BEE175F7, 0x86E46EC0, 0x40916A7C)
    ensures Step(2, 0xF1D409BFF52664, 0xC75026FFD49993, 0x005B96AC, 0x40916A7C,
      0x294A7B533E7F, 0xF2673EEB, 0xF8A80823)
    ensures Step(2, 0xC75026FFD49993, 0x1D409BFF52664F, 0x40916A7C, 0xF8A80823,
      0xAA6C9C2B02F8, 0x6B14A79F, 0x0FBB90D5)
    ensures Step(2, 0x1D409BFF52664F, 0x75026FCD49993F, 0xF8A80823, 0x0FBB90D5,
      0x9710361DCF69, 0x8BAEC534, 0xBB647D4F)
    ensures Step(2, 0x75026FCD49993F, 0xD409BF152664FF, 0x0FBB90D5, 0xBB647D4F,
      0x86062F792D26, 0xF0B89D61, 0x3A2B3F9B)
    ensures Step(1, 0xD409BF152664FF, 0xA8137E3A4CC9FE, 0xBB647D4F, 0x3A2B3F9B,
      0x90EF7A6B282C, 0xE422001E, 0xB1A6FF7B)
  {
  }

  lemma Ends14()
    ensures Ends(0x49793EBC79B3258F, 0x437540C8698F3CFA, 0x6FBF1CAFCFFD0556, 0xA8137E3A4CC9FE, 0x9FC26233, 0xA8D2F8A1,
      0x3A2B3F9B, 0xB1A6FF7B)
  {
  }

  lemma Answer14()
    ensures Answers(0x49793EBC79B3258F, 0x437540C8698F3CFA, 0x6FBF1CAFCFFD0556)
  {
    hide *;
    Ends14();
    Rounds14a();
    Rounds14b();
    Begins(0x49793EBC79B3258F, 0x437540C8698F3CFA, 0x6FBF1CAFCFFD0556, 0xA8137E3A4CC9FE, 0x9FC26233, 0xA8D2F8A1,
      0x3A2B3F9B, 0xB1A6FF7B);
    var k, f := Bits64(0x49793EBC79B3258F), First(Bits64(0x437540C8698F3CFA));
    Followed(k, f);
    Finishes(0x49793EBC79B3258F, 0x437540C8698F3CFA, 0x6FBF1CAFCFFD0556, 0xA8137E3A4CC9FE, 0x9FC26233, 0xA8D2F8A1,
      0xA8137E3A4CC9FE, 0x3A2B3F9B, 0xB1A6FF7B);
  }

  lemma Rounds15a()
    ensures Step(1, 0xA245E25E59D25E, 0x448BC4BCB3A4BD, 0x54D03337, 0x881A02F5,
      0x84C0DFC3F0CD, 0xF379FD07, 0xA157D9D9)
    ensures Step(1, 0x448BC4BCB3A4BD, 0x8917896967497B, 0x881A02F5, 0xA157D9D9,
      0x0C8847AAED28, 0xF615D369, 0x65AEBCE7)
    ensures Step(2, 0x8917896967497B, 0x245E25A59D25EE, 0xA157D9D9, 0x65AEBCE7,
      0x226B57482363, 0x2B8C5111, 0xC35BA299)
    ensures Step(2, 0x245E25A59D25EE, 0x917896867497B9, 0x65AEBCE7, 0xC35BA299,
      0x8871B13AC917, 0x17E96CBB, 0xBFA9F138)
    ensures Step(2, 0x917896867497B9, 0x45E25A29D25EE5, 0xC35BA299, 0xBFA9F138,
      0x7F051EF2C64E, 0x85CF0C21, 0x539AFFC1)
    ensures Step(2, 0x45E25A29D25EE5, 0x17896897497B96, 0xBFA9F138, 0x539AFFC1,
      0xAB198700A293, 0x6B952205, 0x7B812A98)
    ensures Step(2, 0x17896897497B96, 0x5E25A24D25EE59, 0x539AFFC1, 0x7B812A98,
      0xDB31B35E158B, 0x76E4A473, 0x1089605F)
    ensures Step(2, 0x5E25A24D25EE59, 0x7896891497B967, 0x7B812A98, 0x1089605F,
      0x5DB75337F9F2, 0xB9F7DD86, 0xCE4E59B7)
  {
  }

  lemma Rounds15b()
    ensures Step(1, 0x7896891497B967, 0xF12D12292F72CE, 0x1089605F, 0xCE4E59B7,
      0x4FCB333233F4, 0x6234B3AA, 0x7DABD6DA)
    ensures Step(2, 0xF12D12292F72CE, 0xC4B448B4BDCB3A, 0xCE4E59B7, 0x7DABD6DA,
      0x96DF5E3526A0, 0x842FDDA7, 0x7F8865CA)
    ensures Step(2, 0xC4B448B4BDCB3A, 0x12D122F2F72CE9, 0x7DABD6DA, 0x7F8865CA,
      0x3EE3E81159B8, 0x11AC4DDF, 0x67BDAFB5)
    ensures Step(2, 0x12D122F2F72CE9, 0x4B448BCBDCB3A4, 0x7F8865CA, 0x67BDAFB5,
      0x64C52A6D412D, 0x93CB9328, 0x96690088)
    ensures Step(2, 0x4B448BCBDCB3A4, 0x2D122F1F72CE92, 0x67BDAFB5, 0x96690088,
      0x5D2D126E52E6, 0xB7229291, 0x045DE5A2)
    ensures Step(2, 0x2D122F1F72CE92, 0xB448BC4DCB3A4B, 0x96690088, 0x045DE5A2,
      0x4AF77DEFD6CF, 0xA2F248F4, 0xC0BC07AD)
    ensures Step(2, 0xB448BC4DCB3A4B, 0xD122F1272CE92F, 0x045DE5A2, 0xC0BC07AD,
      0x9890B5B62C0A, 0x8F052EAF, 0xDCF7B91B)
    ensures Step(1, 0xD122F1272CE92F, 0xA245E25E59D25E, 0xC0BC07AD, 0xDCF7B91B,
      0x248B1F202029, 0xE6397144, 0x2428A559)
  {
  }

  lemma Ends15()
    ensures Ends(0x4FB05E1515AB73A7, 0x072D43A077075292, 0x2F22E49BAB7CA1AC, 0xA245E25E59D25E, 0x54D03337, 0x881A02F5,
      0xDCF7B91B, 0x2428A559)
  {
  }

  lemma Answer15()
    ensures Answers(0x4FB05E1515AB73A7, 0x072D43A077075292, 0x2F22E49BAB7CA1AC)
  {
    hide *;
    Ends15();
    Rounds15a();
    Rounds15b();
    Begins(0x4FB05E1515AB73A7, 0x072D43A077075292, 0x2F22E49BAB7CA1AC, 0xA245E25E59D25E, 0x54D03337, 0x881A02F5,
      0xDCF7B91B, 0x2428A559);
    var k, f := Bits64(0x4FB05E1515AB73A7), First(Bits64(0x072D43A077075292));
    Followed(k, f);
    Finishes(0x4FB05E1515AB73A7, 0x072D43A077075292, 0x2F22E49BAB7CA1AC, 0xA245E25E59D25E, 0x54D03337, 0x881A02F5,
      0xA245E25E59D25E, 0xDCF7B91B, 0x2428A559);
  }

  lemma Rounds16a()
    ensures Step(1, 0xA21FEA8A09CDF4, 0x443FD514139BE9, 0x4E6E2E7C, 0x52CA82AB,
      0x5B9472CB8A1A, 0xC02191C0, 0xEFFE8E79)
    ensures Step(1, 0x443FD514139BE9, 0x887FAA282737D2, 0x52CA82AB, 0xEFFE8E79,
      0x1941D708DDD9, 0x129CC9F0, 0x05DEB7E8)
    ensures Step(2, 0x887FAA282737D2, 0x21FEA8A09CDF4A, 0xEFFE8E79, 0x05DEB7E8,
      0xE208B7C6872C, 0x306B626E, 0x6789889F)
    ensures Step(2, 0x21FEA8A09CDF4A, 0x87FAA282737D28, 0x05DEB7E8, 0x6789889F,
      0xD82201E4CE0A, 0x716DA60F, 0x8CFD6D06)
    ensures Step(2, 0x87FAA282737D28, 0x1FEA8A29CDF4A0, 0x6789889F, 0x8CFD6D06,
      0x216EA02404BE, 0x2DAA4CC8, 0x7FD5CBC2)
    ensures Step(2, 0x1FEA8A29CDF4A0, 0x7FAA288737D282, 0x8CFD6D06, 0x7FD5CBC2,
      0x191BF84A7011, 0x1C755C4C, 0x30E07D38)
    ensures Step(2, 0x7FAA288737D282, 0xFEA8A21CDF4A09, 0x7FD5CBC2, 0x30E07D38,
      0x755A1324CA26, 0x318746C1, 0xFFA190C9)
    ensures Step(2, 0xFEA8A21CDF4A09, 0xFAA288737D2827, 0x30E07D38, 0xFFA190C9,
      0x905C9AFFD7D6, 0xE41C386E, 0x0C72EBC8)
  {
  }

  lemma Rounds16b()
    ensures Step(1, 0xFAA288737D2827, 0xF54510F6FA504E, 0xFFA190C9, 0x0C72EBC8,
      0x8ED24843548C, 0xC43081CB, 0xF23338DC)
    ensures Step(2, 0xF54510F6FA504E, 0xD51443FBE94139, 0x0C72EBC8, 0xF23338DC,
      0xE30A6FEEA72A, 0x3568486C, 0x1467ADBE)
    ensures Step(2, 0xD51443FBE94139, 0x54510FFFA504E6, 0xF23338DC, 0x1467ADBE,
      0x1BF8A6F219D7, 0x1960048B, 0xFA3870D3)
    ensures Step(2, 0x54510FFFA504E6, 0x51443FDE94139B, 0x1467ADBE, 0xFA3870D3,
      0x6E7C35542BE1, 0x51B5F172, 0xB3715838)
    ensures Step(2, 0x51443FDE94139B, 0x4510FF5A504E6F, 0xFA3870D3, 0xB3715838,
      0x0B056783C00F, 0x45564B44, 0xEE4D80E3)
    ensures Step(2, 0x4510FF5A504E6F, 0x1443FD594139BE, 0xB3715838, 0xEE4D80E3,
      0xA437FF85CBC4, 0x4D1EB578, 0x9C29ACE0)
    ensures Step(2, 0x1443FD594139BE, 0x510FF54504E6FA, 0xEE4D80E3, 0x9C29ACE0,
      0x9F04B41B1378, 0x25D31B1F, 0x502EEBD3)
    ensures Step(1, 0x510FF54504E6FA, 0xA21FEA8A09CDF4, 0x9C29ACE0, 0x502EEBD3,
      0x60AF6F84AA9C, 0x5B28B23C, 0xF7016806)
  {
  }

  lemma Ends16()
    ensures Ends(0x49E95D6D4CA229BF, 0x02FE55778117F12A, 0x5A6B612CC26CCE4A, 0xA21FEA8A09CDF4, 0x4E6E2E7C, 0x52CA82AB,
      0x502EEBD3, 0xF7016806)
  {
  }

  lemma Answer16()
    ensures Answers(0x49E95D6D4CA229BF, 0x02FE55778117F12A, 0x5A6B612CC26CCE4A)
  {
    hide *;
    Ends16();
    Rounds16a();
    Rounds16b();
    Begins(0x49E95D6D4CA229BF, 0x02FE55778117F12A, 0x5A6B612CC26CCE4A, 0xA21FEA8A09CDF4, 0x4E6E2E7C, 0x52CA82AB,
      0x502EEBD3, 0xF7016806);
    var k, f := Bits64(0x49E95D6D4CA229BF), First(Bits64(0x02FE55778117F12A));
    Followed(k, f);
    Finishes(0x49E95D6D4CA229BF, 0x02FE55778117F12A, 0x5A6B612CC26CCE4A, 0xA21FEA8A09CDF4, 0x4E6E2E7C, 0x52CA82AB,
      0xA21FEA8A09CDF4, 0x502EEBD3, 0xF7016806);
  }

  lemma Rounds17a()
    ensures Step(1, 0xAA9840AE2C828C, 0x5530815C590519, 0xAC3F2723, 0xA26057A0,
      0x2100C179ECE7, 0x297D9B57, 0x1B045D47)
    ensures Step(1, 0x5530815C590519, 0xAA6102A8B20A33, 0xA26057A0, 0x1B045D47,
      0xA17030634908, 0xDAAFD4B6, 0x41AEC2CF)
    ensures Step(2, 0xAA6102A8B20A33, 0xA9840AA2C828CE, 0x1B045D47, 0x41AEC2CF,
      0x2E1515543296, 0x2DC2FF0E, 0x226B3EFF)
    ensures Step(2, 0xA9840AA2C828CE, 0xA6102AAB20A338, 0x41AEC2CF, 0x226B3EFF,
      0x9A2D4E7747BD, 0x8EEA8416, 0x0265C3B3)
    ensures Step(2, 0xA6102AAB20A338, 0x9840AAAC828CE2, 0x226B3EFF, 0x0265C3B3,
      0xCC7E03669B8C, 0xB75839EB, 0x5EF8502C)
    ensures Step(2, 0x9840AAAC828CE2, 0x6102AAA20A338B, 0x0265C3B3, 0x5EF8502C,
      0x6D7BB9161E18, 0x5A0C2405, 0x426D5B59)
    ensures Step(2, 0x6102AAA20A338B, 0x840AAA9828CE2C, 0x5EF8502C, 0x426D5B59,
      0xE9AF5837AA80, 0xA02BDD3D, 0xE53C7E40)
    ensures Step(2, 0x840AAA9828CE2C, 0x102AAA60A338B2, 0x426D5B59, 0xE53C7E40,
      0x1004727A2C01, 0xDF219EA1, 0xB3C59746)
  {
  }

  lemma Rounds17b()
    ensures Step(1, 0x102AAA60A338B2, 0x205554C1467164, 0xE53C7E40, 0xB3C59746,
      0xD86CAFCA7094, 0x7E189CB3, 0x9236F01B)
    ensures Step(2, 0x205554C1467164, 0x8155530519C590, 0xB3C59746, 0x9236F01B,
      0x525BC9A914C2, 0x6A76D632, 0xD4AA014A)
    ensures Step(2, 0x8155530519C590, 0x05554C24671641, 0x9236F01B, 0xD4AA014A,
      0xEAE73C0B21FD, 0xA128C076, 0x91A0B67F)
    ensures Step(2, 0x05554C24671641, 0x155530819C5905, 0xD4AA014A, 0x91A0B67F,
      0x4A6A654ABAEA, 0xAB60554C, 0xBC376366)
    ensures Step(2, 0x155530819C5905, 0x5554C206716414, 0x91A0B67F, 0xBC376366,
      0x9FDAEFD36BB9, 0x2E98CAE3, 0xC49EB92E)
    ensures Step(2, 0x5554C206716414, 0x55530819C59051, 0xBC376366, 0xC49EB92E,
      0x61679C9E00D6, 0x5D84790E, 0x843992D4)
    ensures Step(2, 0x55530819C59051, 0x554C2057164146, 0xC49EB92E, 0x843992D4,
      0xC1D430EC44B4, 0xFB1F4ACA, 0x18606B6D)
    ensures Step(1, 0x554C2057164146, 0xAA9840AE2C828C, 0x843992D4, 0x18606B6D,
      0x81011A8F6F18, 0x499C8A95, 0x93114BB5)
  {
  }

  lemma Ends17()
    ensures Ends(0x018310DC409B26D6, 0x1D9D5C5018F728C2, 0x5F4C038ED12B2E41, 0xAA9840AE2C828C, 0xAC3F2723, 0xA26057A0,
      0x18606B6D, 0x93114BB5)
  {
  }

  lemma Answer17()
    ensures Answers(0x018310DC409B26D6, 0x1D9D5C5018F728C2, 0x5F4C038ED12B2E41)
  {
    hide *;
    Ends17();
    Rounds17a();
    Rounds17b();
    Begins(0x018310DC409B26D6, 0x1D9D5C5018F728C2, 0x5F4C038ED12B2E41, 0xAA9840AE2C828C, 0xAC3F2723, 0xA26057A0,
      0x18606B6D, 0x93114BB5);
    var k, f := Bits64(0x018310DC409B26D6), First(Bits64(0x1D9D5C5018F728C2));
    Followed(k, f);
    Finishes(0x018310DC409B26D6, 0x1D9D5C5018F728C2, 0x5F4C038ED12B2E41, 0xAA9840AE2C828C, 0xAC3F2723, 0xA26057A0,
      0xAA9840AE2C828C, 0x18606B6D, 0x93114BB5);
  }

  lemma Rounds18a()
    ensures Step(1, 0xA0C6843F4CDCFF, 0x418D087E99B9FF, 0xB2873272, 0x007DF8A4,
      0x81231008E846, 0x47F1C864, 0x6792F746)
    ensures Step(1, 0x418D087E99B9FF, 0x831A10ED3373FF, 0x007DF8A4, 0x6792F746,
      0x387E7B357553, 0x87B7DE55, 0xF789A198)
    ensures Step(2, 0x831A10ED3373FF, 0x0C6843A4CDCFFF, 0x6792F746, 0xF789A198,
      0x4EA4590FC909, 0x6421BBBA, 0xDCB051D3)
    ensures Step(2, 0x0C6843A4CDCFFF, 0x31A10E83373FFD, 0xF789A198, 0xDCB051D3,
      0xCDBCC043E1CA, 0xB9F7867F, 0x7872FEB6)
    ensures Step(2, 0x31A10E83373FFD, 0xC6843A0CDCFFF4, 0xDCB051D3, 0x7872FEB6,
      0xB76FB0A52912, 0x167F1DB9, 0x22F16D8C)
    ensures Step(2, 0xC6843A0CDCFFF4, 0x1A10E83373FFD3, 0x7872FEB6, 0x22F16D8C,
      0x5570BA58E3E5, 0xCA02F8AE, 0x01BC7A17)
    ensures Step(2, 0x1A10E83373FFD3, 0x6843A0CDCFFF4C, 0x22F16D8C, 0x01BC7A17,
      0xC6A959A43A55, 0x54D11F16, 0x94D2CCB6)
    ensures Step(2, 0x6843A0CDCFFF4C, 0xA10E83173FFD33, 0x01BC7A17, 0x94D2CCB6,
      0x911EE7924E98, 0xEC561F55, 0x3745C02F)
  {
  }

  lemma Rounds18b()
    ensures Step(1, 0xA10E83173FFD33, 0x421D063E7FFA66, 0x94D2CCB6, 0x3745C02F,
      0x1BE0305FCBC0, 0x1FAFAB7D, 0x4FAAB140)
    ensures Step(2, 0x421D063E7FFA66, 0x087418D9FFE99B, 0x3745C02F, 0x4FAAB140,
      0x80CFD18F5DD7, 0x43C481FB, 0x7C563D2E)
    ensures Step(2, 0x087418D9FFE99B, 0x21D06347FFA66E, 0x4FAAB140, 0x7C563D2E,
      0x2D9C6CA00BB1, 0x2647ACEF, 0x96F9AFF9)
    ensures Step(2, 0x21D06347FFA66E, 0x87418D0FFE99B9, 0x7C563D2E, 0x96F9AFF9,
      0x92A783270034, 0xE488474A, 0x74E09E76)
    ensures Step(2, 0x87418D0FFE99B9, 0x1D06342FFA66E7, 0x96F9AFF9, 0x74E09E76,
      0xBE524D716413, 0x7A30E435, 0xD1F52157)
    ensures Step(2, 0x1D06342FFA66E7, 0x7418D08FE99B9F, 0x74E09E76, 0xD1F52157,
      0xA87CAD6F576C, 0x671D918E, 0x99E26C07)
    ensures Step(2, 0x7418D08FE99B9F, 0xD063421FA66E7F, 0xD1F52157, 0x99E26C07,
      0xE6A6255B6374, 0xA4B0FA1A, 0xEE5322C3)
    ensures Step(1, 0xD063421FA66E7F, 0xA0C6843F4CDCFF, 0x99E26C07, 0xEE5322C3,
      0x3E52AE669BFC, 0x1A3D3975, 0x6FFA50E1)
  {
  }

  lemma Ends18()
    ensures Ends(0x1C587F1C13924FEF, 0x305532286D6F295A, 0x63FAC0D034D9F793, 0xA0C6843F4CDCFF, 0xB2873272, 0x007DF8A4,
      0xEE5322C3, 0x6FFA50E1)
  {
  }

  lemma Answer18()
    ensures Answers(0x1C587F1C13924FEF, 0x305532286D6F295A, 0x63FAC0D034D9F793)
  {
    hide *;
    Ends18();
    Rounds18a();
    Rounds18b();
    Begins(0x1C587F1C13924FEF, 0x305532286D6F295A, 0x63FAC0D034D9F793, 0xA0C6843F4CDCFF, 0xB2873272, 0x007DF8A4,
      0xEE5322C3, 0x6FFA50E1);
    var k, f := Bits64(0x1C587F1C13924FEF), First(Bits64(0x305532286D6F295A));
    Followed(k, f);
    Finishes(0x1C587F1C13924FEF, 0x305532286D6F295A, 0x63FAC0D034D9F793, 0xA0C6843F4CDCFF, 0xB2873272, 0x007DF8A4,
      0xA0C6843F4CDCFF, 0xEE5322C3, 0x6FFA50E1);
  }

  /** What is known of the cipher's result c on block b under a key. */
  ghost predicate Known(key: Bits, b: Bits, c: Bits)
  {
    && (key == Bits64(0x7CA110454A1A6E57) && b == Bits64(0x01A1D6D039776742) ==> c == Bits64(0x690F5B0D9A26939B))
    && (key == Bits64(0x0131D9619DC1376E) && b == Bits64(0x5CD54CA83DEF57DA) ==> c == Bits64(0x7A389D10354BD271))
    && (key == Bits64(0x07A1133E4A0B2686) && b == Bits64(0x0248D43806F67172) ==> c == Bits64(0x868EBB51CAB4599A))
    && (key == Bits64(0x3849674C2602319E) && b == Bits64(0x51454B582DDF440A) ==> c == Bits64(0x7178876E01F19B2A))
    && (key == Bits64(0x04B915BA43FEB5B6) && b == Bits64(0x42FD443059577FA2) ==> c == Bits64(0xAF37FB421F8C4095))
    && (key == Bits64(0x0113B970FD34F2CE) && b == Bits64(0x059B5E0851CF143A) ==> c == Bits64(0x86A560F10EC6D85B))
    && (key == Bits64(0x0170F175468FB5E6) && b == Bits64(0x0756D8E0774761D2) ==> c == Bits64(0x0CD3DA020021DC09))
    && (key == Bits64(0x43297FAD38E373FE) && b == Bits64(0x762514B829BF486A) ==> c == Bits64(0xEA676B2CB7DB2B7A))
    && (key == Bits64(0x07A7137045DA2A16) && b == Bits64(0x3BDD119049372802) ==> c == Bits64(0xDFD64A815CAF1A0F))
    && (key == Bits64(0x04689104C2FD3B2F) && b == Bits64(0x26955F6835AF609A) ==> c == Bits64(0x5C513C9C4886C088))
    && (key == Bits64(0x37D06BB516CB7546) && b == Bits64(0x164D5E404F275232) ==> c == Bits64(0x0A2AEEAE3FF4AB77))
    && (key == Bits64(0x1F08260D1AC2465E) && b == Bits64(0x6B056E18759F5CCA) ==> c == Bits64(0xEF1BF03E5DFA575A))
    && (key == Bits64(0x584023641ABA6176) && b == Bits64(0x004BD6EF09176062) ==> c == Bits64(0x88BF0DB6D70DEE56))
    && (key == Bits64(0x025816164629B007) && b == Bits64(0x480D39006EE762F2) ==> c == Bits64(0xA1F9915541020B56))
    && (key == Bits64(0x49793EBC79B3258F) && b == Bits64(0x437540C8698F3CFA) ==> c == Bits64(0x6FBF1CAFCFFD0556))
    && (key == Bits64(0x4FB05E1515AB73A7) && b == Bits64(0x072D43A077075292) ==> c == Bits64(0x2F22E49BAB7CA1AC))
    && (key == Bits64(0x49E95D6D4CA229BF) && b == Bits64(0x02FE55778117F12A) ==> c == Bits64(0x5A6B612CC26CCE4A))
    && (key == Bits64(0x018310DC409B26D6) && b == Bits64(0x1D9D5C5018F728C2) ==> c == Bits64(0x5F4C038ED12B2E41))
    && (key == Bits64(0x1C587F1C13924FEF) && b == Bits64(0x305532286D6F295A) ==> c == Bits64(0x63FAC0D034D9F793))
  }

  lemma KnownAnswers(key: Bits, b: Bits)
    requires |key| == 64 && |b| == 64
    ensures Known(key, b, Enciphered(b, RoundKeys(key, 16)))
  {
    hide Bits64, Enciphered, RoundKeys;
    Answer0();
    Answer1();
    Answer2();
    Answer3();
    Answer4();
    Answer5();
    Answer6();
    Answer7();
    Answer8();
    Answer9();
    Answer10();
    Answer11();
    Answer12();
    Answer13();
    Answer14();
    Answer15();
    Answer16();
    Answer17();
    Answer18();
  }
}
