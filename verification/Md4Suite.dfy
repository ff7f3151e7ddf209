/**
 The test suite of RFC 1320, section A.5: seven messages and their digests. The constants are the words of each
 block and the registers after its three rounds.
 */
module Md4Suite {
  import opened Words
  import opened Md4Spec
  import opened Md4Native
  import opened Md4Blocks

  const ALPHABET := "abcdefghijklmnopqrstuvwxyz"
  const MIXED := "ABCDEFGHIJKLMNOPQRSTUVWXYZ" + ALPHABET + "0123456789"
  /** The ten digits, eight times */
  const DIGITS: string := seq(80, i requires 0 <= i < 80 => "1234567890"[i % 10])

  lemma AlphabetCodes()
    ensures forall i :: 0 <= i < 26 ==> Ascii(ALPHABET)[i] as int == 0x61 + i
  {
  }

  lemma CapitalCodes()
    ensures forall i :: 0 <= i < 26 ==> "ABCDEFGHIJKLMNOPQRSTUVWXYZ"[i] as int == 0x41 + i
  {
  }

  lemma DigitCodes()
    ensures forall i :: 0 <= i < 10 ==> "0123456789"[i] as int == 0x30 + i
  {
  }

  lemma MixedCodes()
    ensures forall i :: 0 <= i < 62 ==>
      Ascii(MIXED)[i] as int == if i < 26 then 0x41 + i else if i < 52 then 0x61 + (i - 26) else 0x30 + (i - 52)
  {
    AlphabetCodes();
    CapitalCodes();
    DigitCodes();
    forall i | 0 <= i < 62
      ensures Ascii(MIXED)[i] as int == if i < 26 then 0x41 + i else if i < 52 then 0x61 + (i - 26) else 0x30 + (i - 52)
    {
      if 26 <= i < 52 {
        assert Ascii(ALPHABET)[i - 26] as int == 0x61 + (i - 26);
      }
    }
  }

  lemma TenCodes()
    ensures forall i :: 0 <= i < 10 ==> "1234567890"[i] as int == 0x30 + (i + 1) % 10
  {
  }

  lemma DigitsCodes()
    ensures forall i :: 0 <= i < 80 ==> Ascii(DIGITS)[i] as int == 0x30 + (i + 1) % 10
  {
    TenCodes();
    forall i | 0 <= i < 80 ensures Ascii(DIGITS)[i] as int == 0x30 + (i + 1) % 10 {
      assert "1234567890"[i % 10] as int == 0x30 + (i % 10 + 1) % 10;
    }
  }

  const EMPTY_WORDS := Words16(
    0x0000_0080, 0, 0, 0, 0, 0, 0, 0,
    0, 0, 0, 0, 0, 0, 0, 0)
  const EMPTY_F: Regs<bv32> := Regs(0xaddc_b303, 0x3665_f296, 0x8ee8_f245, 0xa483_a664)
  const EMPTY_G: Regs<bv32> := Regs(0x3748_91bf, 0x6f95_2b2e, 0xb49a_4dae, 0x0a15_c329)
  const EMPTY_H: Regs<bv32> := Regs(0x798a_b330, 0x421b_bf48, 0x3e9e_5fb9, 0xb057_6c6a)

  lemma EmptyWord0()
    ensures var b := Padded(Ascii(""));
      |b| == 64 && Spells(b, 0, 0x0000_0080)
  {
    hide Padded;
    PaddedBytes(Ascii(""));
  }

  lemma EmptyQuarter0()
    ensures var b := Padded(Ascii(""));
      |b| == 64 && Quarter(b, 0, 0x0000_0080, 0, 0, 0)
  {
    hide Padded, Spells;
    EmptyWord0();
    ZeroWord(Ascii(""), 4);
    ZeroWord(Ascii(""), 8);
    ZeroWord(Ascii(""), 12);
  }

  lemma EmptyF()
    ensures RoundF(START, EMPTY_WORDS) == EMPTY_F
  {
  }

  lemma EmptyG()
    ensures RoundG(EMPTY_F, EMPTY_WORDS) == EMPTY_G
  {
  }

  lemma EmptyH()
    ensures RoundH(EMPTY_G, EMPTY_WORDS) == EMPTY_H
  {
  }

  lemma EmptyEnds()
    ensures Ends(
              [0x31, 0xd6, 0xcf, 0xe0, 0xd1, 0x6a, 0xe9, 0x31, 0xb7, 0x3c, 0x59, 0xd7, 0xe0, 0xc0, 0x89, 0xc0],
              START, EMPTY_H)
  {
  }

  lemma EmptyDigest()
    ensures Digest(Ascii("")) ==
            [0x31, 0xd6, 0xcf, 0xe0, 0xd1, 0x6a, 0xe9, 0x31, 0xb7, 0x3c, 0x59, 0xd7, 0xe0, 0xc0, 0x89, 0xc0]
  {
    hide RoundF, RoundG, RoundH, Digest, Padded, Ends, Quarter;
    EmptyQuarter0();
    ZeroQuarter(Ascii(""), 16);
    ZeroQuarter(Ascii(""), 32);
    LastQuarter(Ascii(""), 0);
    HeldQuarters(Padded(Ascii("")), 0, EMPTY_WORDS);
    EmptyF();
    EmptyG();
    EmptyH();
    EmptyEnds();
    OneBlockDigest(Ascii(""),
      [0x31, 0xd6, 0xcf, 0xe0, 0xd1, 0x6a, 0xe9, 0x31, 0xb7, 0x3c, 0x59, 0xd7, 0xe0, 0xc0, 0x89, 0xc0],
      EMPTY_WORDS, EMPTY_F, EMPTY_G, EMPTY_H);
  }

  const A_WORDS := Words16(
    0x0000_8061, 0, 0, 0, 0, 0, 0, 0,
    0, 0, 0, 0, 0, 0, 0x0000_0008, 0)
  const A_F: Regs<bv32> := Regs(0xa761_ceff, 0x2407_188f, 0x109e_38e8, 0x67c2_3a8e)
  const A_G: Regs<bv32> := Regs(0x5dc7_5c65, 0x72b2_8e8f, 0x2b03_2915, 0xb70f_618a)
  const A_H: Regs<bv32> := Regs(0x4be7_c2bc, 0x5671_3794, 0x624a_8126, 0x14c9_8265)

  lemma AWord0()
    ensures var b := Padded(Ascii("a"));
      |b| == 64 && Spells(b, 0, 0x0000_8061)
  {
    hide Padded;
    PaddedBytes(Ascii("a"));
  }

  lemma AQuarter0()
    ensures var b := Padded(Ascii("a"));
      |b| == 64 && Quarter(b, 0, 0x0000_8061, 0, 0, 0)
  {
    hide Padded, Spells;
    AWord0();
    ZeroWord(Ascii("a"), 4);
    ZeroWord(Ascii("a"), 8);
    ZeroWord(Ascii("a"), 12);
  }

  lemma AF()
    ensures RoundF(START, A_WORDS) == A_F
  {
  }

  lemma AG()
    ensures RoundG(A_F, A_WORDS) == A_G
  {
  }

  lemma AH()
    ensures RoundH(A_G, A_WORDS) == A_H
  {
  }

  lemma AEnds()
    ensures Ends(
              [0xbd, 0xe5, 0x2c, 0xb3, 0x1d, 0xe3, 0x3e, 0x46, 0x24, 0x5e, 0x05, 0xfb, 0xdb, 0xd6, 0xfb, 0x24],
              START, A_H)
  {
  }

  lemma ADigest()
    ensures Digest(Ascii("a")) ==
            [0xbd, 0xe5, 0x2c, 0xb3, 0x1d, 0xe3, 0x3e, 0x46, 0x24, 0x5e, 0x05, 0xfb, 0xdb, 0xd6, 0xfb, 0x24]
  {
    hide RoundF, RoundG, RoundH, Digest, Padded, Ends, Quarter;
    AQuarter0();
    ZeroQuarter(Ascii("a"), 16);
    ZeroQuarter(Ascii("a"), 32);
    LastQuarter(Ascii("a"), 0x0000_0008);
    HeldQuarters(Padded(Ascii("a")), 0, A_WORDS);
    AF();
    AG();
    AH();
    AEnds();
    OneBlockDigest(Ascii("a"),
      [0xbd, 0xe5, 0x2c, 0xb3, 0x1d, 0xe3, 0x3e, 0x46, 0x24, 0x5e, 0x05, 0xfb, 0xdb, 0xd6, 0xfb, 0x24],
      A_WORDS, A_F, A_G, A_H);
  }

  const ABC_WORDS := Words16(
    0x8063_6261, 0, 0, 0, 0, 0, 0, 0,
    0, 0, 0, 0, 0, 0, 0x0000_0018, 0)
  const ABC_F: Regs<bv32> := Regs(0xa299_a540, 0xda71_7395, 0x24ba_adcb, 0x04e1_9293)
  const ABC_G: Regs<bv32> := Regs(0x7296_594c, 0x8e53_1b8f, 0x3dd4_2422, 0x4e7e_1748)
  const ABC_H: Regs<bv32> := Regs(0x12bc_25a3, 0x630a_7626, 0x4f4f_e461, 0x8d40_5204)

  lemma AbcWord0()
    ensures var b := Padded(Ascii("abc"));
      |b| == 64 && Spells(b, 0, 0x8063_6261)
  {
    hide Padded;
    PaddedBytes(Ascii("abc"));
  }

  lemma AbcQuarter0()
    ensures var b := Padded(Ascii("abc"));
      |b| == 64 && Quarter(b, 0, 0x8063_6261, 0, 0, 0)
  {
    hide Padded, Spells;
    AbcWord0();
    ZeroWord(Ascii("abc"), 4);
    ZeroWord(Ascii("abc"), 8);
    ZeroWord(Ascii("abc"), 12);
  }

  lemma AbcF()
    ensures RoundF(START, ABC_WORDS) == ABC_F
  {
  }

  lemma AbcG()
    ensures RoundG(ABC_F, ABC_WORDS) == ABC_G
  {
  }

  lemma AbcH()
    ensures RoundH(ABC_G, ABC_WORDS) == ABC_H
  {
  }

  lemma AbcEnds()
    ensures Ends(
              [0xa4, 0x48, 0x01, 0x7a, 0xaf, 0x21, 0xd8, 0x52, 0x5f, 0xc1, 0x0a, 0xe8, 0x7a, 0xa6, 0x72, 0x9d],
              START, ABC_H)
  {
  }

  lemma AbcDigest()
    ensures Digest(Ascii("abc")) ==
            [0xa4, 0x48, 0x01, 0x7a, 0xaf, 0x21, 0xd8, 0x52, 0x5f, 0xc1, 0x0a, 0xe8, 0x7a, 0xa6, 0x72, 0x9d]
  {
    hide RoundF, RoundG, RoundH, Digest, Padded, Ends, Quarter;
    AbcQuarter0();
    ZeroQuarter(Ascii("abc"), 16);
    ZeroQuarter(Ascii("abc"), 32);
    LastQuarter(Ascii("abc"), 0x0000_0018);
    HeldQuarters(Padded(Ascii("abc")), 0, ABC_WORDS);
    AbcF();
    AbcG();
    AbcH();
    AbcEnds();
    OneBlockDigest(Ascii("abc"),
      [0xa4, 0x48, 0x01, 0x7a, 0xaf, 0x21, 0xd8, 0x52, 0x5f, 0xc1, 0x0a, 0xe8, 0x7a, 0xa6, 0x72, 0x9d],
      ABC_WORDS, ABC_F, ABC_G, ABC_H);
  }

  const MESSAGE_WORDS := Words16(
    0x7373_656d, 0x2065_6761, 0x6567_6964, 0x0080_7473, 0, 0, 0, 0,
    0, 0, 0, 0, 0, 0, 0x0000_0070, 0)
  const MESSAGE_F: Regs<bv32> := Regs(0x47e0_a24d, 0x358d_6640, 0x6731_a2c2, 0xf0ba_5991)
  const MESSAGE_G: Regs<bv32> := Regs(0x5fc2_48ad, 0xed2e_24e6, 0x4dc3_1bad, 0x73d9_6ee7)
  const MESSAGE_H: Regs<bv32> := Regs(0x19c4_f0d8, 0xf8d1_a8db, 0x6d8d_aa1a, 0x3acf_736b)

  lemma MessageQuarter0()
    ensures var b := Padded(Ascii("message digest"));
      |b| == 64 && Quarter(b, 0, 0x7373_656d, 0x2065_6761, 0x6567_6964, 0x0080_7473)
  {
    hide Padded;
    PaddedBytes(Ascii("message digest"));
  }

  lemma MessageF()
    ensures RoundF(START, MESSAGE_WORDS) == MESSAGE_F
  {
  }

  lemma MessageG()
    ensures RoundG(MESSAGE_F, MESSAGE_WORDS) == MESSAGE_G
  {
  }

  lemma MessageH()
    ensures RoundH(MESSAGE_G, MESSAGE_WORDS) == MESSAGE_H
  {
  }

  lemma MessageEnds()
    ensures Ends(
              [0xd9, 0x13, 0x0a, 0x81, 0x64, 0x54, 0x9f, 0xe8, 0x18, 0x87, 0x48, 0x06, 0xe1, 0xc7, 0x01, 0x4b],
              START, MESSAGE_H)
  {
  }

  lemma MessageDigest()
    ensures Digest(Ascii("message digest")) ==
            [0xd9, 0x13, 0x0a, 0x81, 0x64, 0x54, 0x9f, 0xe8, 0x18, 0x87, 0x48, 0x06, 0xe1, 0xc7, 0x01, 0x4b]
  {
    hide RoundF, RoundG, RoundH, Digest, Padded, Ends, Quarter;
    MessageQuarter0();
    ZeroQuarter(Ascii("message digest"), 16);
    ZeroQuarter(Ascii("message digest"), 32);
    LastQuarter(Ascii("message digest"), 0x0000_0070);
    HeldQuarters(Padded(Ascii("message digest")), 0, MESSAGE_WORDS);
    MessageF();
    MessageG();
    MessageH();
    MessageEnds();
    OneBlockDigest(Ascii("message digest"),
      [0xd9, 0x13, 0x0a, 0x81, 0x64, 0x54, 0x9f, 0xe8, 0x18, 0x87, 0x48, 0x06, 0xe1, 0xc7, 0x01, 0x4b],
      MESSAGE_WORDS, MESSAGE_F, MESSAGE_G, MESSAGE_H);
  }

  const ALPHABET_WORDS := Words16(
    0x6463_6261, 0x6867_6665, 0x6c6b_6a69, 0x706f_6e6d, 0x7473_7271, 0x7877_7675, 0x0080_7a79, 0,
    0, 0, 0, 0, 0, 0, 0x0000_00d0, 0)
  const ALPHABET_F: Regs<bv32> := Regs(0x2df7_16ba, 0x52af_bb11, 0xb48e_be32, 0x89d2_9083)
  const ALPHABET_G: Regs<bv32> := Regs(0x1fb0_2aa9, 0x1e08_e69d, 0x5152_e7dc, 0x50d1_ed79)
  const ALPHABET_H: Regs<bv32> := Regs(0xc8d7_7bd6, 0xdded_fa01, 0xcb32_cbf0, 0x98fa_ed69)

  lemma AlphabetQuarter0()
    ensures var b := Padded(Ascii(ALPHABET));
      |b| == 64 && Quarter(b, 0, 0x6463_6261, 0x6867_6665, 0x6c6b_6a69, 0x706f_6e6d)
  {
    hide Padded, Ascii;
    PaddedBytes(Ascii(ALPHABET));
    AlphabetCodes();
  }

  lemma AlphabetQuarter1()
    ensures var b := Padded(Ascii(ALPHABET));
      |b| == 64 && Quarter(b, 16, 0x7473_7271, 0x7877_7675, 0x0080_7a79, 0)
  {
    hide Padded, Ascii;
    PaddedBytes(Ascii(ALPHABET));
    AlphabetCodes();
  }

  lemma AlphabetF()
    ensures RoundF(START, ALPHABET_WORDS) == ALPHABET_F
  {
  }

  lemma AlphabetG()
    ensures RoundG(ALPHABET_F, ALPHABET_WORDS) == ALPHABET_G
  {
  }

  lemma AlphabetH()
    ensures RoundH(ALPHABET_G, ALPHABET_WORDS) == ALPHABET_H
  {
  }

  lemma AlphabetEnds()
    ensures Ends(
              [0xd7, 0x9e, 0x1c, 0x30, 0x8a, 0xa5, 0xbb, 0xcd, 0xee, 0xa8, 0xed, 0x63, 0xdf, 0x41, 0x2d, 0xa9],
              START, ALPHABET_H)
  {
  }

  lemma AlphabetDigest()
    ensures Digest(Ascii(ALPHABET)) ==
            [0xd7, 0x9e, 0x1c, 0x30, 0x8a, 0xa5, 0xbb, 0xcd, 0xee, 0xa8, 0xed, 0x63, 0xdf, 0x41, 0x2d, 0xa9]
  {
    hide RoundF, RoundG, RoundH, Digest, Padded, Ends, Quarter;
    AlphabetQuarter0();
    AlphabetQuarter1();
    ZeroQuarter(Ascii(ALPHABET), 32);
    LastQuarter(Ascii(ALPHABET), 0x0000_00d0);
    HeldQuarters(Padded(Ascii(ALPHABET)), 0, ALPHABET_WORDS);
    AlphabetF();
    AlphabetG();
    AlphabetH();
    AlphabetEnds();
    OneBlockDigest(Ascii(ALPHABET),
      [0xd7, 0x9e, 0x1c, 0x30, 0x8a, 0xa5, 0xbb, 0xcd, 0xee, 0xa8, 0xed, 0x63, 0xdf, 0x41, 0x2d, 0xa9],
      ALPHABET_WORDS, ALPHABET_F, ALPHABET_G, ALPHABET_H);
  }

  const MIXED_WORDS := Words16(
    0x4443_4241, 0x4847_4645, 0x4c4b_4a49, 0x504f_4e4d, 0x5453_5251, 0x5857_5655, 0x6261_5a59, 0x6665_6463,
    0x6a69_6867, 0x6e6d_6c6b, 0x7271_706f, 0x7675_7473, 0x7a79_7877, 0x3332_3130, 0x3736_3534, 0x0080_3938)
  const MIXED_F: Regs<bv32> := Regs(0x73de_f48f, 0x3741_0d7b, 0xe4ed_3227, 0xf814_13c3)
  const MIXED_G: Regs<bv32> := Regs(0x1f07_4e76, 0x3a4c_19f1, 0x1940_d024, 0x0f13_bdd4)
  const MIXED_H: Regs<bv32> := Regs(0xcc9b_5c59, 0x759a_067b, 0xaac3_8972, 0x5ea2_3812)

  const MIXED_LAST_WORDS := Words16(
    0, 0, 0, 0, 0, 0, 0, 0,
    0, 0, 0, 0, 0, 0, 0x0000_01f0, 0)
  const MIXED_SUM: Regs<bv32> := Regs(0x33e0_7f5a, 0x6567_b204, 0x437e_6670, 0x6ed4_8c88)
  const MIXED_LAST_F: Regs<bv32> := Regs(0xb4be_1210, 0x1f45_209c, 0x5ded_23c9, 0xda1e_24ec)
  const MIXED_LAST_G: Regs<bv32> := Regs(0x88f4_0164, 0xb01c_e610, 0xf1aa_e5d9, 0x21d3_5e3f)
  const MIXED_LAST_H: Regs<bv32> := Regs(0x4ea4_bfaa, 0xd073_8fee, 0x9da9_7fac, 0x761c_5acb)

  lemma MixedQuarter0()
    ensures var b := Padded(Ascii(MIXED));
      |b| == 128 && Quarter(b, 0, 0x4443_4241, 0x4847_4645, 0x4c4b_4a49, 0x504f_4e4d)
  {
    hide Padded, Ascii;
    PaddedBytes(Ascii(MIXED));
    MixedCodes();
  }

  lemma MixedQuarter1()
    ensures var b := Padded(Ascii(MIXED));
      |b| == 128 && Quarter(b, 16, 0x5453_5251, 0x5857_5655, 0x6261_5a59, 0x6665_6463)
  {
    hide Padded, Ascii;
    PaddedBytes(Ascii(MIXED));
    MixedCodes();
  }

  lemma MixedQuarter2()
    ensures var b := Padded(Ascii(MIXED));
      |b| == 128 && Quarter(b, 32, 0x6a69_6867, 0x6e6d_6c6b, 0x7271_706f, 0x7675_7473)
  {
    hide Padded, Ascii;
    PaddedBytes(Ascii(MIXED));
    MixedCodes();
  }

  lemma MixedQuarter3()
    ensures var b := Padded(Ascii(MIXED));
      |b| == 128 && Quarter(b, 48, 0x7a79_7877, 0x3332_3130, 0x3736_3534, 0x0080_3938)
  {
    hide Padded, Ascii;
    PaddedBytes(Ascii(MIXED));
    MixedCodes();
  }

  lemma MixedF()
    ensures RoundF(START, MIXED_WORDS) == MIXED_F
  {
  }

  lemma MixedG()
    ensures RoundG(MIXED_F, MIXED_WORDS) == MIXED_G
  {
  }

  lemma MixedH()
    ensures RoundH(MIXED_G, MIXED_WORDS) == MIXED_H
  {
  }

  lemma MixedLastF()
    ensures RoundF(MIXED_SUM, MIXED_LAST_WORDS) == MIXED_LAST_F
  {
  }

  lemma MixedLastG()
    ensures RoundG(MIXED_LAST_F, MIXED_LAST_WORDS) == MIXED_LAST_G
  {
  }

  lemma MixedLastH()
    ensures RoundH(MIXED_LAST_G, MIXED_LAST_WORDS) == MIXED_LAST_H
  {
  }

  lemma MixedAdds()
    ensures Adds(MIXED_SUM, START, MIXED_H)
  {
  }

  lemma MixedEnds()
    ensures Ends(
              [0x04, 0x3f, 0x85, 0x82, 0xf2, 0x41, 0xdb, 0x35, 0x1c, 0xe6, 0x27, 0xe1, 0x53, 0xe7, 0xf0, 0xe4],
              MIXED_SUM, MIXED_LAST_H)
  {
  }

  lemma MixedDigest()
    ensures Digest(Ascii(MIXED)) ==
            [0x04, 0x3f, 0x85, 0x82, 0xf2, 0x41, 0xdb, 0x35, 0x1c, 0xe6, 0x27, 0xe1, 0x53, 0xe7, 0xf0, 0xe4]
  {
    hide RoundF, RoundG, RoundH, Digest, Padded, Ends, Adds, Quarter;
    MixedQuarter0();
    MixedQuarter1();
    MixedQuarter2();
    MixedQuarter3();
    ZeroQuarter(Ascii(MIXED), 64);
    ZeroQuarter(Ascii(MIXED), 80);
    ZeroQuarter(Ascii(MIXED), 96);
    LastQuarter(Ascii(MIXED), 0x0000_01f0);
    HeldQuarters(Padded(Ascii(MIXED)), 0, MIXED_WORDS);
    HeldQuarters(Padded(Ascii(MIXED)), 64, MIXED_LAST_WORDS);
    MixedF();
    MixedG();
    MixedH();
    MixedAdds();
    MixedLastF();
    MixedLastG();
    MixedLastH();
    MixedEnds();
    TwoBlockDigest(Ascii(MIXED),
      [0x04, 0x3f, 0x85, 0x82, 0xf2, 0x41, 0xdb, 0x35, 0x1c, 0xe6, 0x27, 0xe1, 0x53, 0xe7, 0xf0, 0xe4],
      MIXED_WORDS, MIXED_F, MIXED_G, MIXED_H,
      MIXED_SUM, MIXED_LAST_WORDS, MIXED_LAST_F, MIXED_LAST_G, MIXED_LAST_H);
  }

  const DIGITS_WORDS := Words16(
    0x3433_3231, 0x3837_3635, 0x3231_3039, 0x3635_3433, 0x3039_3837, 0x3433_3231, 0x3837_3635, 0x3231_3039,
    0x3635_3433, 0x3039_3837, 0x3433_3231, 0x3837_3635, 0x3231_3039, 0x3635_3433, 0x3039_3837, 0x3433_3231)
  const DIGITS_F: Regs<bv32> := Regs(0x5b19_8744, 0x69c1_d515, 0xaf15_4e59, 0x4414_9fab)
  const DIGITS_G: Regs<bv32> := Regs(0x9bf3_fedc, 0x5226_907c, 0xaaf8_8901, 0x18a3_a247)
  const DIGITS_H: Regs<bv32> := Regs(0xd5b8_7097, 0x2e1f_a46e, 0x3285_5a14, 0xb421_7ca4)

  const DIGITS_LAST_WORDS := Words16(
    0x3837_3635, 0x3231_3039, 0x3635_3433, 0x3039_3837, 0x0000_0080, 0, 0, 0,
    0, 0, 0, 0, 0, 0, 0x0000_0280, 0)
  const DIGITS_SUM: Regs<bv32> := Regs(0x3cfd_9398, 0x1ded_4ff7, 0xcb40_3712, 0xc453_d11a)
  const DIGITS_LAST_F: Regs<bv32> := Regs(0x28cf_b725, 0xa6bb_5e94, 0x3d56_9f89, 0xd4ad_2f1f)
  const DIGITS_LAST_G: Regs<bv32> := Regs(0x7dce_8f4b, 0x3d5c_c4df, 0x4904_e5dc, 0xf6f9_6238)
  const DIGITS_LAST_H: Regs<bv32> := Regs(0x9f4f_a84b, 0xfc04_e8a5, 0x4b3b_078a, 0x71b1_fb35)

  lemma DigitsQuarter0()
    ensures var b := Padded(Ascii(DIGITS));
      |b| == 128 && Quarter(b, 0, 0x3433_3231, 0x3837_3635, 0x3231_3039, 0x3635_3433)
  {
    hide Padded, Ascii;
    PaddedBytes(Ascii(DIGITS));
    DigitsCodes();
  }

  lemma DigitsQuarter1()
    ensures var b := Padded(Ascii(DIGITS));
      |b| == 128 && Quarter(b, 16, 0x3039_3837, 0x3433_3231, 0x3837_3635, 0x3231_3039)
  {
    hide Padded, Ascii;
    PaddedBytes(Ascii(DIGITS));
    DigitsCodes();
  }

  lemma DigitsQuarter2()
    ensures var b := Padded(Ascii(DIGITS));
      |b| == 128 && Quarter(b, 32, 0x3635_3433, 0x3039_3837, 0x3433_3231, 0x3837_3635)
  {
    hide Padded, Ascii;
    PaddedBytes(Ascii(DIGITS));
    DigitsCodes();
  }

  lemma DigitsQuarter3()
    ensures var b := Padded(Ascii(DIGITS));
      |b| == 128 && Quarter(b, 48, 0x3231_3039, 0x3635_3433, 0x3039_3837, 0x3433_3231)
  {
    hide Padded, Ascii;
    PaddedBytes(Ascii(DIGITS));
    DigitsCodes();
  }

  lemma DigitsQuarter4()
    ensures var b := Padded(Ascii(DIGITS));
      |b| == 128 && Quarter(b, 64, 0x3837_3635, 0x3231_3039, 0x3635_3433, 0x3039_3837)
  {
    hide Padded, Ascii;
    PaddedBytes(Ascii(DIGITS));
    DigitsCodes();
  }

  lemma DigitsWord5()
    ensures var b := Padded(Ascii(DIGITS));
      |b| == 128 && Spells(b, 80, 0x0000_0080)
  {
    hide Padded, Ascii;
    PaddedBytes(Ascii(DIGITS));
  }

  lemma DigitsQuarter5()
    ensures var b := Padded(Ascii(DIGITS));
      |b| == 128 && Quarter(b, 80, 0x0000_0080, 0, 0, 0)
  {
    hide Padded, Spells;
    DigitsWord5();
    ZeroWord(Ascii(DIGITS), 84);
    ZeroWord(Ascii(DIGITS), 88);
    ZeroWord(Ascii(DIGITS), 92);
  }

  lemma DigitsF()
    ensures RoundF(START, DIGITS_WORDS) == DIGITS_F
  {
  }

  lemma DigitsG()
    ensures RoundG(DIGITS_F, DIGITS_WORDS) == DIGITS_G
  {
  }

  lemma DigitsH()
    ensures RoundH(DIGITS_G, DIGITS_WORDS) == DIGITS_H
  {
  }

  lemma DigitsLastF()
    ensures RoundF(DIGITS_SUM, DIGITS_LAST_WORDS) == DIGITS_LAST_F
  {
  }

  lemma DigitsLastG()
    ensures RoundG(DIGITS_LAST_F, DIGITS_LAST_WORDS) == DIGITS_LAST_G
  {
  }

  lemma DigitsLastH()
    ensures RoundH(DIGITS_LAST_G, DIGITS_LAST_WORDS) == DIGITS_LAST_H
  {
  }

  lemma DigitsAdds()
    ensures Adds(DIGITS_SUM, START, DIGITS_H)
  {
  }

  lemma DigitsEnds()
    ensures Ends(
              [0xe3, 0x3b, 0x4d, 0xdc, 0x9c, 0x38, 0xf2, 0x19, 0x9c, 0x3e, 0x7b, 0x16, 0x4f, 0xcc, 0x05, 0x36],
              DIGITS_SUM, DIGITS_LAST_H)
  {
  }

  lemma DigitsDigest()
    ensures Digest(Ascii(DIGITS)) ==
            [0xe3, 0x3b, 0x4d, 0xdc, 0x9c, 0x38, 0xf2, 0x19, 0x9c, 0x3e, 0x7b, 0x16, 0x4f, 0xcc, 0x05, 0x36]
  {
    hide RoundF, RoundG, RoundH, Digest, Padded, Ends, Adds, Quarter;
    DigitsQuarter0();
    DigitsQuarter1();
    DigitsQuarter2();
    DigitsQuarter3();
    DigitsQuarter4();
    DigitsQuarter5();
    ZeroQuarter(Ascii(DIGITS), 96);
    LastQuarter(Ascii(DIGITS), 0x0000_0280);
    HeldQuarters(Padded(Ascii(DIGITS)), 0, DIGITS_WORDS);
    HeldQuarters(Padded(Ascii(DIGITS)), 64, DIGITS_LAST_WORDS);
    DigitsF();
    DigitsG();
    DigitsH();
    DigitsAdds();
    DigitsLastF();
    DigitsLastG();
    DigitsLastH();
    DigitsEnds();
    TwoBlockDigest(Ascii(DIGITS),
      [0xe3, 0x3b, 0x4d, 0xdc, 0x9c, 0x38, 0xf2, 0x19, 0x9c, 0x3e, 0x7b, 0x16, 0x4f, 0xcc, 0x05, 0x36],
      DIGITS_WORDS, DIGITS_F, DIGITS_G, DIGITS_H,
      DIGITS_SUM, DIGITS_LAST_WORDS, DIGITS_LAST_F, DIGITS_LAST_G, DIGITS_LAST_H);
  }
}
