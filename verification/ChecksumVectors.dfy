/** Known answers: the checksums of the empty payload and of the payload of a single byte one, which pin every constant,
    rotation and shift of the algorithm. Each exclusive or is worked out byte by byte. */
module ChecksumVectors {
  import opened Bytes
  import opened Bits
  import opened Checksum

  lemma Powers()
    ensures Pow2(0) == 1 && Pow2(8) == 0x100 && Pow2(16) == 0x1_0000 && Pow2(24) == 0x100_0000 && Pow2(32) == 0x1_0000_0000
    ensures Pow2(40) == 0x100_0000_0000 && Pow2(48) == 0x1_0000_0000_0000 && Pow2(56) == 0x100_0000_0000_0000
    ensures Pow2(13) == 0x2000 && Pow2(17) == 0x2_0000 && Pow2(27) == 0x800_0000 && Pow2(29) == 0x2000_0000 && Pow2(30) == 0x4000_0000
    ensures Pow2(31) == 0x8000_0000 && Pow2(35) == 0x8_0000_0000 && Pow2(47) == 0x8000_0000_0000 && Pow2(51) == 0x8_0000_0000_0000
  {
    assert Pow2(8) == 0x100;
    assert Pow2(16) == 0x1_0000;
    assert Pow2(24) == 0x100_0000;
    assert Pow2(32) == 0x1_0000_0000;
    assert Pow2(40) == 0x100_0000_0000;
    assert Pow2(48) == 0x1_0000_0000_0000;
  }

  lemma Rotations()
    ensures RotL(SEED[1], 13) == 0xEF37_2FE9_4F82_B3C6
    ensures RotL(SEED[2], 29) == 0x5A32_5DA0_7A36_A946
    ensures RotL(SEED[3], 47) == 0xB217_D03B_0EB2_3C5E
  {
    hide Pow2, Shr;
    Powers();
    ShrIsDivision(SEED[1], 51);
    ShrIsDivision(SEED[2], 35);
    ShrIsDivision(SEED[3], 17);
  }

  lemma JoinFirstLow()
    ensures Xor(0x84222325, 0x4F82B3C6, 32) == 0xCBA090E3
  {
    hide Xor, Pow2;
    Powers();
    XorTopByte(24, 0x1000000, 0x84, 0x4F, 0x222325, 0x82B3C6);
    XorTopByte(16, 0x10000, 0x22, 0x82, 0x2325, 0xB3C6);
    XorTopByte(8, 0x100, 0x23, 0xB3, 0x25, 0xC6);
    XorTopByte(0, 0x1, 0x25, 0xC6, 0x0, 0x0);
    NoBits(0, 0);
  }

  lemma JoinFirst()
    ensures Xor(0xCBF29CE484222325, 0xEF372FE94F82B3C6, 64) == 0x24C5B30DCBA090E3
  {
    hide Xor, Pow2;
    Powers();
    JoinFirstLow();
    XorTopByte(56, 0x100000000000000, 0xCB, 0xEF, 0xF29CE484222325, 0x372FE94F82B3C6);
    XorTopByte(48, 0x1000000000000, 0xF2, 0x37, 0x9CE484222325, 0x2FE94F82B3C6);
    XorTopByte(40, 0x10000000000, 0x9C, 0x2F, 0xE484222325, 0xE94F82B3C6);
    XorTopByte(32, 0x100000000, 0xE4, 0xE9, 0x84222325, 0x4F82B3C6);
  }

  lemma JoinSecondLow()
    ensures Xor(0xCBA090E3, 0x7A36A946, 32) == 0xB19639A5
  {
    hide Xor, Pow2;
    Powers();
    XorTopByte(24, 0x1000000, 0xCB, 0x7A, 0xA090E3, 0x36A946);
    XorTopByte(16, 0x10000, 0xA0, 0x36, 0x90E3, 0xA946);
    XorTopByte(8, 0x100, 0x90, 0xA9, 0xE3, 0x46);
    XorTopByte(0, 0x1, 0xE3, 0x46, 0x0, 0x0);
    NoBits(0, 0);
  }

  lemma JoinSecond()
    ensures Xor(0x24C5B30DCBA090E3, 0x5A325DA07A36A946, 64) == 0x7EF7EEADB19639A5
  {
    hide Xor, Pow2;
    Powers();
    JoinSecondLow();
    XorTopByte(56, 0x100000000000000, 0x24, 0x5A, 0xC5B30DCBA090E3, 0x325DA07A36A946);
    XorTopByte(48, 0x1000000000000, 0xC5, 0x32, 0xB30DCBA090E3, 0x5DA07A36A946);
    XorTopByte(40, 0x10000000000, 0xB3, 0x5D, 0xDCBA090E3, 0xA07A36A946);
    XorTopByte(32, 0x100000000, 0xD, 0xA0, 0xCBA090E3, 0x7A36A946);
  }

  lemma JoinThirdLow()
    ensures Xor(0xB19639A5, 0xEB23C5E, 32) == 0xBF2405FB
  {
    hide Xor, Pow2;
    Powers();
    XorTopByte(24, 0x1000000, 0xB1, 0xE, 0x9639A5, 0xB23C5E);
    XorTopByte(16, 0x10000, 0x96, 0xB2, 0x39A5, 0x3C5E);
    XorTopByte(8, 0x100, 0x39, 0x3C, 0xA5, 0x5E);
    XorTopByte(0, 0x1, 0xA5, 0x5E, 0x0, 0x0);
    NoBits(0, 0);
  }

  lemma JoinThird()
    ensures Xor(0x7EF7EEADB19639A5, 0xB217D03B0EB23C5E, 64) == 0xCCE03E96BF2405FB
  {
    hide Xor, Pow2;
    Powers();
    JoinThirdLow();
    XorTopByte(56, 0x100000000000000, 0x7E, 0xB2, 0xF7EEADB19639A5, 0x17D03B0EB23C5E);
    XorTopByte(48, 0x1000000000000, 0xF7, 0x17, 0xEEADB19639A5, 0xD03B0EB23C5E);
    XorTopByte(40, 0x10000000000, 0xEE, 0xD0, 0xADB19639A5, 0x3B0EB23C5E);
    XorTopByte(32, 0x100000000, 0xAD, 0x3B, 0xB19639A5, 0xEB23C5E);
  }

  lemma JoinEmptyLow()
    ensures Xor(0xBF2405FB, 0x0, 32) == 0xBF2405FB
  {
    hide Xor, Pow2;
    Powers();
    XorTopByte(24, 0x1000000, 0xBF, 0x0, 0x2405FB, 0x0);
    XorTopByte(16, 0x10000, 0x24, 0x0, 0x5FB, 0x0);
    XorTopByte(8, 0x100, 0x5, 0x0, 0xFB, 0x0);
    XorTopByte(0, 0x1, 0xFB, 0x0, 0x0, 0x0);
    NoBits(0, 0);
  }

  lemma JoinEmpty()
    ensures Xor(0xCCE03E96BF2405FB, 0x0, 64) == 0xCCE03E96BF2405FB
  {
    hide Xor, Pow2;
    Powers();
    JoinEmptyLow();
    XorTopByte(56, 0x100000000000000, 0xCC, 0x0, 0xE03E96BF2405FB, 0x0);
    XorTopByte(48, 0x1000000000000, 0xE0, 0x0, 0x3E96BF2405FB, 0x0);
    XorTopByte(40, 0x10000000000, 0x3E, 0x0, 0x96BF2405FB, 0x0);
    XorTopByte(32, 0x100000000, 0x96, 0x0, 0xBF2405FB, 0x0);
  }

  lemma FoldEmptyLow()
    ensures Xor(0xBF2405FB, 0x3380FA5A, 32) == 0x8CA4FFA1
  {
    hide Xor, Pow2;
    Powers();
    XorTopByte(24, 0x1000000, 0xBF, 0x33, 0x2405FB, 0x80FA5A);
    XorTopByte(16, 0x10000, 0x24, 0x80, 0x5FB, 0xFA5A);
    XorTopByte(8, 0x100, 0x5, 0xFA, 0xFB, 0x5A);
    XorTopByte(0, 0x1, 0xFB, 0x5A, 0x0, 0x0);
    NoBits(0, 0);
  }

  lemma FoldEmpty()
    ensures Xor(0xCCE03E96BF2405FB, 0x33380FA5A, 64) == 0xCCE03E958CA4FFA1
  {
    hide Xor, Pow2;
    Powers();
    FoldEmptyLow();
    XorTopByte(56, 0x100000000000000, 0xCC, 0x0, 0xE03E96BF2405FB, 0x33380FA5A);
    XorTopByte(48, 0x1000000000000, 0xE0, 0x0, 0x3E96BF2405FB, 0x33380FA5A);
    XorTopByte(40, 0x10000000000, 0x3E, 0x0, 0x96BF2405FB, 0x33380FA5A);
    XorTopByte(32, 0x100000000, 0x96, 0x3, 0xBF2405FB, 0x3380FA5A);
  }

  lemma RefoldEmptyLow()
    ensures Xor(0x834BC059, 0x4359CB10, 32) == 0xC0120B49
  {
    hide Xor, Pow2;
    Powers();
    XorTopByte(24, 0x1000000, 0x83, 0x43, 0x4BC059, 0x59CB10);
    XorTopByte(16, 0x10000, 0x4B, 0x59, 0xC059, 0xCB10);
    XorTopByte(8, 0x100, 0xC0, 0xCB, 0x59, 0x10);
    XorTopByte(0, 0x1, 0x59, 0x10, 0x0, 0x0);
    NoBits(0, 0);
  }

  lemma RefoldEmpty()
    ensures Xor(0x621ACE58834BC059, 0xC4359CB10, 64) == 0x621ACE54C0120B49
  {
    hide Xor, Pow2;
    Powers();
    RefoldEmptyLow();
    XorTopByte(56, 0x100000000000000, 0x62, 0x0, 0x1ACE58834BC059, 0xC4359CB10);
    XorTopByte(48, 0x1000000000000, 0x1A, 0x0, 0xCE58834BC059, 0xC4359CB10);
    XorTopByte(40, 0x10000000000, 0xCE, 0x0, 0x58834BC059, 0xC4359CB10);
    XorTopByte(32, 0x100000000, 0x58, 0xC, 0x834BC059, 0x4359CB10);
  }

  lemma LastEmptyLow()
    ensures Xor(0x17493503, 0xE0FE6456, 32) == 0xF7B75155
  {
    hide Xor, Pow2;
    Powers();
    XorTopByte(24, 0x1000000, 0x17, 0xE0, 0x493503, 0xFE6456);
    XorTopByte(16, 0x10000, 0x49, 0xFE, 0x3503, 0x6456);
    XorTopByte(8, 0x100, 0x35, 0x64, 0x3, 0x56);
    XorTopByte(0, 0x1, 0x3, 0x56, 0x0, 0x0);
    NoBits(0, 0);
  }

  lemma LastEmpty()
    ensures Xor(0x707F322B17493503, 0xE0FE6456, 64) == 0x707F322BF7B75155
  {
    hide Xor, Pow2;
    Powers();
    LastEmptyLow();
    XorTopByte(56, 0x100000000000000, 0x70, 0x0, 0x7F322B17493503, 0xE0FE6456);
    XorTopByte(48, 0x1000000000000, 0x7F, 0x0, 0x322B17493503, 0xE0FE6456);
    XorTopByte(40, 0x10000000000, 0x32, 0x0, 0x2B17493503, 0xE0FE6456);
    XorTopByte(32, 0x100000000, 0x2B, 0x0, 0x17493503, 0xE0FE6456);
  }

  lemma JoinOneLow()
    ensures Xor(0xBF2405FB, 0x1, 32) == 0xBF2405FA
  {
    hide Xor, Pow2;
    Powers();
    XorTopByte(24, 0x1000000, 0xBF, 0x0, 0x2405FB, 0x1);
    XorTopByte(16, 0x10000, 0x24, 0x0, 0x5FB, 0x1);
    XorTopByte(8, 0x100, 0x5, 0x0, 0xFB, 0x1);
    XorTopByte(0, 0x1, 0xFB, 0x1, 0x0, 0x0);
    NoBits(0, 0);
  }

  lemma JoinOne()
    ensures Xor(0xCCE03E96BF2405FB, 0x1, 64) == 0xCCE03E96BF2405FA
  {
    hide Xor, Pow2;
    Powers();
    JoinOneLow();
    XorTopByte(56, 0x100000000000000, 0xCC, 0x0, 0xE03E96BF2405FB, 0x1);
    XorTopByte(48, 0x1000000000000, 0xE0, 0x0, 0x3E96BF2405FB, 0x1);
    XorTopByte(40, 0x10000000000, 0x3E, 0x0, 0x96BF2405FB, 0x1);
    XorTopByte(32, 0x100000000, 0x96, 0x0, 0xBF2405FB, 0x1);
  }

  lemma FoldOneLow()
    ensures Xor(0xBF2405FA, 0x3380FA5A, 32) == 0x8CA4FFA0
  {
    hide Xor, Pow2;
    Powers();
    XorTopByte(24, 0x1000000, 0xBF, 0x33, 0x2405FA, 0x80FA5A);
    XorTopByte(16, 0x10000, 0x24, 0x80, 0x5FA, 0xFA5A);
    XorTopByte(8, 0x100, 0x5, 0xFA, 0xFA, 0x5A);
    XorTopByte(0, 0x1, 0xFA, 0x5A, 0x0, 0x0);
    NoBits(0, 0);
  }

  lemma FoldOne()
    ensures Xor(0xCCE03E96BF2405FA, 0x33380FA5A, 64) == 0xCCE03E958CA4FFA0
  {
    hide Xor, Pow2;
    Powers();
    FoldOneLow();
    XorTopByte(56, 0x100000000000000, 0xCC, 0x0, 0xE03E96BF2405FA, 0x33380FA5A);
    XorTopByte(48, 0x1000000000000, 0xE0, 0x0, 0x3E96BF2405FA, 0x33380FA5A);
    XorTopByte(40, 0x10000000000, 0x3E, 0x0, 0x96BF2405FA, 0x33380FA5A);
    XorTopByte(32, 0x100000000, 0x96, 0x3, 0xBF2405FA, 0x3380FA5A);
  }

  lemma RefoldOneLow()
    ensures Xor(0x6666DAA0, 0x5850DD6C, 32) == 0x3E3607CC
  {
    hide Xor, Pow2;
    Powers();
    XorTopByte(24, 0x1000000, 0x66, 0x58, 0x66DAA0, 0x50DD6C);
    XorTopByte(16, 0x10000, 0x66, 0x50, 0xDAA0, 0xDD6C);
    XorTopByte(8, 0x100, 0xDA, 0xDD, 0xA0, 0x6C);
    XorTopByte(0, 0x1, 0xA0, 0x6C, 0x0, 0x0);
    NoBits(0, 0);
  }

  lemma RefoldOne()
    ensures Xor(0xA2C286EB6666DAA0, 0x145850DD6C, 64) == 0xA2C286FF3E3607CC
  {
    hide Xor, Pow2;
    Powers();
    RefoldOneLow();
    XorTopByte(56, 0x100000000000000, 0xA2, 0x0, 0xC286EB6666DAA0, 0x145850DD6C);
    XorTopByte(48, 0x1000000000000, 0xC2, 0x0, 0x86EB6666DAA0, 0x145850DD6C);
    XorTopByte(40, 0x10000000000, 0x86, 0x0, 0xEB6666DAA0, 0x145850DD6C);
    XorTopByte(32, 0x100000000, 0xEB, 0x14, 0x6666DAA0, 0x5850DD6C);
  }

  lemma LastOneLow()
    ensures Xor(0x5429B444, 0x76E550BE, 32) == 0x22CCE4FA
  {
    hide Xor, Pow2;
    Powers();
    XorTopByte(24, 0x1000000, 0x54, 0x76, 0x29B444, 0xE550BE);
    XorTopByte(16, 0x10000, 0x29, 0xE5, 0xB444, 0x50BE);
    XorTopByte(8, 0x100, 0xB4, 0x50, 0x44, 0xBE);
    XorTopByte(0, 0x1, 0x44, 0xBE, 0x0, 0x0);
    NoBits(0, 0);
  }

  lemma LastOne()
    ensures Xor(0x3B72A85F5429B444, 0x76E550BE, 64) == 0x3B72A85F22CCE4FA
  {
    hide Xor, Pow2;
    Powers();
    LastOneLow();
    XorTopByte(56, 0x100000000000000, 0x3B, 0x0, 0x72A85F5429B444, 0x76E550BE);
    XorTopByte(48, 0x1000000000000, 0x72, 0x0, 0xA85F5429B444, 0x76E550BE);
    XorTopByte(40, 0x10000000000, 0xA8, 0x0, 0x5F5429B444, 0x76E550BE);
    XorTopByte(32, 0x100000000, 0x5F, 0x0, 0x5429B444, 0x76E550BE);
  }

  lemma ScrambleEmpty()
    ensures Scramble(0xCCE0_3E96_BF24_05FB) == 0x707F_322B_F7B7_5155
  {
    hide Pow2, Shr, Xor;
    Powers();
    ShrIsDivision(0xCCE0_3E96_BF24_05FB, 30);
    FoldEmpty();
    ShrIsDivision(0x621A_CE58_834B_C059, 27);
    RefoldEmpty();
    ShrIsDivision(0x707F_322B_1749_3503, 31);
    LastEmpty();
  }

  lemma ScrambleOne()
    ensures Scramble(0xCCE0_3E96_BF24_05FA) == 0x3B72_A85F_22CC_E4FA
  {
    hide Pow2, Shr, Xor;
    Powers();
    ShrIsDivision(0xCCE0_3E96_BF24_05FA, 30);
    FoldOne();
    ShrIsDivision(0xA2C2_86EB_6666_DAA0, 27);
    RefoldOne();
    ShrIsDivision(0x3B72_A85F_5429_B444, 31);
    LastOne();
  }

  lemma WordOne()
    ensures Word([1]) == 1
  {
    var z: seq<byte> := seq(7, _ => 0);
    ZeroBytes(7);
    assert ([1] + z)[1..] == z;
  }

  lemma {:induction false} ZeroBytes(n: nat)
    ensures FromLE(seq(n, _ => 0)) == 0
  {
    if n > 0 {
      ZeroBytes(n - 1);
      assert seq(n, _ => 0)[1..] == seq(n - 1, _ => 0);
    }
  }

  lemma KnownAnswers()
    ensures Sum([]) == 0x707F_322B_F7B7_5155
    ensures Sum([1]) == 0x3B72_A85F_22CC_E4FA
  {
    hide RotL, Xor, Scramble, Word;
    Rotations();
    JoinFirst();
    JoinSecond();
    JoinThird();
    JoinEmpty();
    JoinOne();
    ScrambleEmpty();
    ScrambleOne();
    WordOne();
    var none: seq<byte> := [];
    var one: seq<byte> := [1];
    assert none[0..] == none && one[0..] == one;
  }
}
