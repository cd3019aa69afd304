/** A digest of the test suite in section A.5 of RFC 1321, from the specification alone: it
    fixes the tables, shifts, orders and initial values that the proofs take from there. */
module Md5TestSuite {
  import opened Md5

  /** The words of the one block of "abc", padded. */
  predicate AbcWords(x: seq<uint32>) {
    |x| == 16 && x[0] == 0x80636261 && x[14] == 24 && forall i :: 0 <= i < 16 && i != 0 && i != 14 ==> x[i] == 0
  }

  lemma NoSteps(x: seq<uint32>, q: Quad, i: nat)
    requires |x| == 16
    ensures Steps(q, x, i, 0) == q
  {
  }

  /** Operation i with its intermediate values. */
  lemma Operation(x: seq<uint32>, i: nat, n: nat, a: uint32, b: uint32, c: uint32, d: uint32,
                  f: uint32, s: nat, sum: uint32, shifted: uint32, b': uint32)
    requires |x| == 16 && 0 < s < 32
    requires Auxiliary(i, b, c, d) == f && Shift(i) == s
    requires Add(Add(Add(a, f), x[Index(i)]), Sine(i)) == sum
    requires S(sum, s) == shifted && Add(b, shifted) == b'
    ensures Steps(Quad(a, b, c, d), x, i, n + 1) == Steps(Quad(d, b', b, c), x, i + 1, n)
  {
    hide Auxiliary, S, Sine, Index, Shift, Add;
  }

  lemma Values0()
    ensures Auxiliary(0, 0xEFCDAB89, 0x98BADCFE, 0x10325476) == 0x98BADCFE && S(0x57CE06D8, 7) == 0xE7036C2B
    ensures Auxiliary(1, 0xD6D117B4, 0xEFCDAB89, 0x98BADCFE) == 0xCEEBCBCA && S(0xC7E5D796, 12) == 0x5D796C7E
    ensures Auxiliary(2, 0x344A8432, 0xD6D117B4, 0xEFCDAB89) == 0xDFC52FB9 && S(0x9CA07D92, 17) == 0xFB253940
    ensures Auxiliary(3, 0x2F6FBD72, 0x344A8432, 0xD6D117B4) == 0xF4DA86B6 && S(0xA666012D, 22) == 0x4B699980
  {
  }

  lemma Steps0(x: seq<uint32>)
    requires AbcWords(x)
    ensures Steps(Quad(0x67452301, 0xEFCDAB89, 0x98BADCFE, 0x10325476), x, 0, 4) ==
      Quad(0xD6D117B4, 0x7AD956F2, 0x2F6FBD72, 0x344A8432)
  {
    hide Steps, Auxiliary, S;
    Values0();
    Operation(x, 0, 3, 0x67452301, 0xEFCDAB89, 0x98BADCFE, 0x10325476,
              0x98BADCFE, 7, 0x57CE06D8, 0xE7036C2B, 0xD6D117B4);
    Operation(x, 1, 2, 0x10325476, 0xD6D117B4, 0xEFCDAB89, 0x98BADCFE,
              0xCEEBCBCA, 12, 0xC7E5D796, 0x5D796C7E, 0x344A8432);
    Operation(x, 2, 1, 0x98BADCFE, 0x344A8432, 0xD6D117B4, 0xEFCDAB89,
              0xDFC52FB9, 17, 0x9CA07D92, 0xFB253940, 0x2F6FBD72);
    Operation(x, 3, 0, 0xEFCDAB89, 0x2F6FBD72, 0x344A8432, 0xD6D117B4,
              0xF4DA86B6, 22, 0xA666012D, 0x4B699980, 0x7AD956F2);
    NoSteps(x, Quad(0xD6D117B4, 0x7AD956F2, 0x2F6FBD72, 0x344A8432), 4);
  }

  lemma Values4()
    ensures Auxiliary(4, 0x7AD956F2, 0x2F6FBD72, 0x344A8432) == 0x2E4B9472 && S(0xFA98BBD5, 7) == 0x4C5DEAFD
    ensures Auxiliary(5, 0xC73741EF, 0x7AD956F2, 0x2F6FBD72) == 0x6A59FCF2 && S(0xE62C474E, 12) == 0xC474EE62
    ensures Auxiliary(6, 0x8BAC3051, 0xC73741EF, 0x7AD956F2) == 0xF37546E3 && S(0xCB154A68, 17) == 0x94D1962A
    ensures Auxiliary(7, 0x207DC67B, 0x8BAC3051, 0xC73741EF) == 0xC72E01D5 && S(0x3F4DEDC8, 22) == 0x720FD37B
  {
  }

  lemma Steps4(x: seq<uint32>)
    requires AbcWords(x)
    ensures Steps(Quad(0xD6D117B4, 0x7AD956F2, 0x2F6FBD72, 0x344A8432), x, 4, 4) ==
      Quad(0xC73741EF, 0x928D99F6, 0x207DC67B, 0x8BAC3051)
  {
    hide Steps, Auxiliary, S;
    Values4();
    Operation(x, 4, 3, 0xD6D117B4, 0x7AD956F2, 0x2F6FBD72, 0x344A8432,
              0x2E4B9472, 7, 0xFA98BBD5, 0x4C5DEAFD, 0xC73741EF);
    Operation(x, 5, 2, 0x344A8432, 0xC73741EF, 0x7AD956F2, 0x2F6FBD72,
              0x6A59FCF2, 12, 0xE62C474E, 0xC474EE62, 0x8BAC3051);
    Operation(x, 6, 1, 0x2F6FBD72, 0x8BAC3051, 0xC73741EF, 0x7AD956F2,
              0xF37546E3, 17, 0xCB154A68, 0x94D1962A, 0x207DC67B);
    Operation(x, 7, 0, 0x7AD956F2, 0x207DC67B, 0x8BAC3051, 0xC73741EF,
              0xC72E01D5, 22, 0x3F4DEDC8, 0x720FD37B, 0x928D99F6);
    NoSteps(x, Quad(0xC73741EF, 0x928D99F6, 0x207DC67B, 0x8BAC3051), 8);
  }

  lemma Values8()
    ensures Auxiliary(8, 0x928D99F6, 0x207DC67B, 0x8BAC3051) == 0x092DA073 && S(0x39E57B3A, 7) == 0xF2BD9D1C
    ensures Auxiliary(9, 0x854B3712, 0x928D99F6, 0x207DC67B) == 0xA03DD17B && S(0xB72EF97B, 12) == 0xEF97BB72
    ensures Auxiliary(10, 0x74E2F284, 0x854B3712, 0x928D99F6) == 0x864F3B72 && S(0xA6CC5D9E, 17) == 0xBB3D4D98
    ensures Auxiliary(11, 0x3020401C, 0x74E2F284, 0x854B3712) == 0xB56B7706 && S(0xD155E8BA, 22) == 0x2EB4557A
  {
  }

  lemma Steps8(x: seq<uint32>)
    requires AbcWords(x)
    ensures Steps(Quad(0xC73741EF, 0x928D99F6, 0x207DC67B, 0x8BAC3051), x, 8, 4) ==
      Quad(0x854B3712, 0x5ED49596, 0x3020401C, 0x74E2F284)
  {
    hide Steps, Auxiliary, S;
    Values8();
    Operation(x, 8, 3, 0xC73741EF, 0x928D99F6, 0x207DC67B, 0x8BAC3051,
              0x092DA073, 7, 0x39E57B3A, 0xF2BD9D1C, 0x854B3712);
    Operation(x, 9, 2, 0x8BAC3051, 0x854B3712, 0x928D99F6, 0x207DC67B,
              0xA03DD17B, 12, 0xB72EF97B, 0xEF97BB72, 0x74E2F284);
    Operation(x, 10, 1, 0x207DC67B, 0x74E2F284, 0x854B3712, 0x928D99F6,
              0x864F3B72, 17, 0xA6CC5D9E, 0xBB3D4D98, 0x3020401C);
    Operation(x, 11, 0, 0x928D99F6, 0x3020401C, 0x74E2F284, 0x854B3712,
              0xB56B7706, 22, 0xD155E8BA, 0x2EB4557A, 0x5ED49596);
    NoSteps(x, Quad(0x854B3712, 0x5ED49596, 0x3020401C, 0x74E2F284), 12);
  }

  lemma Values12()
    ensures Auxiliary(12, 0x5ED49596, 0x3020401C, 0x74E2F284) == 0x30226214 && S(0x20FDAA48, 7) == 0x7ED52410
    ensures Auxiliary(13, 0xDDA9B9A6, 0x5ED49596, 0x3020401C) == 0x7C80D19E && S(0xEEFC35B5, 12) == 0xC35B5EEF
    ensures Auxiliary(14, 0xA1051895, 0xDDA9B9A6, 0x5ED49596) == 0xDFD19D86 && S(0xB66B2148, 17) == 0x42916CD6
    ensures Auxiliary(15, 0xE396856B, 0xA1051895, 0xDDA9B9A6) == 0xBD2D3885 && S(0x65B5D63C, 22) == 0x8F196D75
  {
  }

  lemma Steps12(x: seq<uint32>)
    requires AbcWords(x)
    ensures Steps(Quad(0x854B3712, 0x5ED49596, 0x3020401C, 0x74E2F284), x, 12, 4) ==
      Quad(0xDDA9B9A6, 0x72AFF2E0, 0xE396856B, 0xA1051895)
  {
    hide Steps, Auxiliary, S;
    Values12();
    Operation(x, 12, 3, 0x854B3712, 0x5ED49596, 0x3020401C, 0x74E2F284,
              0x30226214, 7, 0x20FDAA48, 0x7ED52410, 0xDDA9B9A6);
    Operation(x, 13, 2, 0x74E2F284, 0xDDA9B9A6, 0x5ED49596, 0x3020401C,
              0x7C80D19E, 12, 0xEEFC35B5, 0xC35B5EEF, 0xA1051895);
    Operation(x, 14, 1, 0x3020401C, 0xA1051895, 0xDDA9B9A6, 0x5ED49596,
              0xDFD19D86, 17, 0xB66B2148, 0x42916CD6, 0xE396856B);
    Operation(x, 15, 0, 0x5ED49596, 0xE396856B, 0xA1051895, 0xDDA9B9A6,
              0xBD2D3885, 22, 0x65B5D63C, 0x8F196D75, 0x72AFF2E0);
    NoSteps(x, Quad(0xDDA9B9A6, 0x72AFF2E0, 0xE396856B, 0xA1051895), 16);
  }

  lemma Values16()
    ensures Auxiliary(16, 0x72AFF2E0, 0xE396856B, 0xA1051895) == 0x629795EA && S(0x365F74F2, 5) == 0xCBEE9E46
    ensures Auxiliary(17, 0x3E9E9126, 0x72AFF2E0, 0xE396856B) == 0x32BFF3A2 && S(0x9405BF77, 9) == 0x0B7EEF28
    ensures Auxiliary(18, 0x4A1D804E, 0x3E9E9126, 0x72AFF2E0) == 0x4E1D8146 && S(0x58126102, 14) == 0x98409604
    ensures Auxiliary(19, 0xE25E1652, 0x4A1D804E, 0x3E9E9126) == 0x621F104A && S(0x3EE92D35, 20) == 0xD353EE92
  {
  }

  lemma Steps16(x: seq<uint32>)
    requires AbcWords(x)
    ensures Steps(Quad(0xDDA9B9A6, 0x72AFF2E0, 0xE396856B, 0xA1051895), x, 16, 4) ==
      Quad(0x3E9E9126, 0xB5B204E4, 0xE25E1652, 0x4A1D804E)
  {
    hide Steps, Auxiliary, S;
    Values16();
    Operation(x, 16, 3, 0xDDA9B9A6, 0x72AFF2E0, 0xE396856B, 0xA1051895,
              0x629795EA, 5, 0x365F74F2, 0xCBEE9E46, 0x3E9E9126);
    Operation(x, 17, 2, 0xA1051895, 0x3E9E9126, 0x72AFF2E0, 0xE396856B,
              0x32BFF3A2, 9, 0x9405BF77, 0x0B7EEF28, 0x4A1D804E);
    Operation(x, 18, 1, 0xE396856B, 0x4A1D804E, 0x3E9E9126, 0x72AFF2E0,
              0x4E1D8146, 14, 0x58126102, 0x98409604, 0xE25E1652);
    Operation(x, 19, 0, 0x72AFF2E0, 0xE25E1652, 0x4A1D804E, 0x3E9E9126,
              0x621F104A, 20, 0x3EE92D35, 0xD353EE92, 0xB5B204E4);
    NoSteps(x, Quad(0x3E9E9126, 0xB5B204E4, 0xE25E1652, 0x4A1D804E), 20);
  }

  lemma Values20()
    ensures Auxiliary(20, 0xB5B204E4, 0xE25E1652, 0x4A1D804E) == 0xA0521654 && S(0xB51FB7D7, 5) == 0xA3F6FAF6
    ensures Auxiliary(21, 0x59A8FFDA, 0xB5B204E4, 0xE25E1652) == 0x55A816F6 && S(0xA209AB97, 9) == 0x13572F44
    ensures Auxiliary(22, 0x6D002F1E, 0x59A8FFDA, 0xB5B204E4) == 0x6D08FF1E && S(0x2808FBF1, 14) == 0x3EFC4A02
    ensures Auxiliary(23, 0xABFC7920, 0x6D002F1E, 0x59A8FFDA) == 0x2DA87904 && S(0xCB2E79B0, 20) == 0x9B0CB2E7
  {
  }

  lemma Steps20(x: seq<uint32>)
    requires AbcWords(x)
    ensures Steps(Quad(0x3E9E9126, 0xB5B204E4, 0xE25E1652, 0x4A1D804E), x, 20, 4) ==
      Quad(0x59A8FFDA, 0x47092C07, 0xABFC7920, 0x6D002F1E)
  {
    hide Steps, Auxiliary, S;
    Values20();
    Operation(x, 20, 3, 0x3E9E9126, 0xB5B204E4, 0xE25E1652, 0x4A1D804E,
              0xA0521654, 5, 0xB51FB7D7, 0xA3F6FAF6, 0x59A8FFDA);
    Operation(x, 21, 2, 0x4A1D804E, 0x59A8FFDA, 0xB5B204E4, 0xE25E1652,
              0x55A816F6, 9, 0xA209AB97, 0x13572F44, 0x6D002F1E);
    Operation(x, 22, 1, 0xE25E1652, 0x6D002F1E, 0x59A8FFDA, 0xB5B204E4,
              0x6D08FF1E, 14, 0x2808FBF1, 0x3EFC4A02, 0xABFC7920);
    Operation(x, 23, 0, 0xB5B204E4, 0xABFC7920, 0x6D002F1E, 0x59A8FFDA,
              0x2DA87904, 20, 0xCB2E79B0, 0x9B0CB2E7, 0x47092C07);
    NoSteps(x, Quad(0x59A8FFDA, 0x47092C07, 0xABFC7920, 0x6D002F1E), 24);
  }

  lemma Values24()
    ensures Auxiliary(24, 0x47092C07, 0xABFC7920, 0x6D002F1E) == 0xC7FC7C26 && S(0x438749E6, 5) == 0x70E93CC8
    ensures Auxiliary(25, 0xB7F268CF, 0x47092C07, 0xABFC7920) == 0xE7F16C07 && S(0x1828A313, 9) == 0x51462630
    ensures Auxiliary(26, 0x09388EFF, 0xB7F268CF, 0x47092C07) == 0xB1FA4CCF && S(0x52CBD376, 14) == 0xF4DD94B2
    ensures Auxiliary(27, 0xFE1623B1, 0x09388EFF, 0xB7F268CF) == 0xBE1AA6B1 && S(0x4A7DE7A5, 20) == 0x7A54A7DE
  {
  }

  lemma Steps24(x: seq<uint32>)
    requires AbcWords(x)
    ensures Steps(Quad(0x59A8FFDA, 0x47092C07, 0xABFC7920, 0x6D002F1E), x, 24, 4) ==
      Quad(0xB7F268CF, 0x786ACB8F, 0xFE1623B1, 0x09388EFF)
  {
    hide Steps, Auxiliary, S;
    Values24();
    Operation(x, 24, 3, 0x59A8FFDA, 0x47092C07, 0xABFC7920, 0x6D002F1E,
              0xC7FC7C26, 5, 0x438749E6, 0x70E93CC8, 0xB7F268CF);
    Operation(x, 25, 2, 0x6D002F1E, 0xB7F268CF, 0x47092C07, 0xABFC7920,
              0xE7F16C07, 9, 0x1828A313, 0x51462630, 0x09388EFF);
    Operation(x, 26, 1, 0xABFC7920, 0x09388EFF, 0xB7F268CF, 0x47092C07,
              0xB1FA4CCF, 14, 0x52CBD376, 0xF4DD94B2, 0xFE1623B1);
    Operation(x, 27, 0, 0x47092C07, 0xFE1623B1, 0x09388EFF, 0xB7F268CF,
              0xBE1AA6B1, 20, 0x4A7DE7A5, 0x7A54A7DE, 0x786ACB8F);
    NoSteps(x, Quad(0xB7F268CF, 0x786ACB8F, 0xFE1623B1, 0x09388EFF), 28);
  }

  lemma Values28()
    ensures Auxiliary(28, 0x786ACB8F, 0xFE1623B1, 0x09388EFF) == 0xFE2EAB8F && S(0x6004FD63, 5) == 0x009FAC6C
    ensures Auxiliary(29, 0x790A77FB, 0x786ACB8F, 0xFE1623B1) == 0x786AEBBF && S(0x7E931EB6, 9) == 0x263D6CFD
    ensures Auxiliary(30, 0x9F47E4F8, 0x790A77FB, 0x786ACB8F) == 0x1942F4F8 && S(0x7EC81B82, 14) == 0x06E09FB2
    ensures Auxiliary(31, 0xA62884AA, 0x9F47E4F8, 0x790A77FB) == 0xA64D84AA && S(0xABE29CC3, 20) == 0xCC3ABE29
  {
  }

  lemma Steps28(x: seq<uint32>)
    requires AbcWords(x)
    ensures Steps(Quad(0xB7F268CF, 0x786ACB8F, 0xFE1623B1, 0x09388EFF), x, 28, 4) ==
      Quad(0x790A77FB, 0x726342D3, 0xA62884AA, 0x9F47E4F8)
  {
    hide Steps, Auxiliary, S;
    Values28();
    Operation(x, 28, 3, 0xB7F268CF, 0x786ACB8F, 0xFE1623B1, 0x09388EFF,
              0xFE2EAB8F, 5, 0x6004FD63, 0x009FAC6C, 0x790A77FB);
    Operation(x, 29, 2, 0x09388EFF, 0x790A77FB, 0x786ACB8F, 0xFE1623B1,
              0x786AEBBF, 9, 0x7E931EB6, 0x263D6CFD, 0x9F47E4F8);
    Operation(x, 30, 1, 0xFE1623B1, 0x9F47E4F8, 0x790A77FB, 0x786ACB8F,
              0x1942F4F8, 14, 0x7EC81B82, 0x06E09FB2, 0xA62884AA);
    Operation(x, 31, 0, 0x786ACB8F, 0xA62884AA, 0x9F47E4F8, 0x790A77FB,
              0xA64D84AA, 20, 0xABE29CC3, 0xCC3ABE29, 0x726342D3);
    NoSteps(x, Quad(0x790A77FB, 0x726342D3, 0xA62884AA, 0x9F47E4F8), 32);
  }

  lemma Values32()
    ensures Auxiliary(32, 0x726342D3, 0xA62884AA, 0x9F47E4F8) == 0x4B0C2281 && S(0xC410D3BE, 4) == 0x410D3BEC
    ensures Auxiliary(33, 0xB3707EBF, 0x726342D3, 0xA62884AA) == 0x673BB8C6 && S(0x8DF5943F, 11) == 0xACA1FC6F
    ensures Auxiliary(34, 0x60127B2E, 0xB3707EBF, 0x726342D3) == 0xA1014742 && S(0xB4C72D0E, 16) == 0x2D0EB4C7
    ensures Auxiliary(35, 0x8D212FF5, 0x60127B2E, 0xB3707EBF) == 0x5E432A64 && S(0xCE8BA55B, 23) == 0xADE745D2
  {
  }

  lemma Steps32(x: seq<uint32>)
    requires AbcWords(x)
    ensures Steps(Quad(0x790A77FB, 0x726342D3, 0xA62884AA, 0x9F47E4F8), x, 32, 4) ==
      Quad(0xB3707EBF, 0x3B0875C7, 0x8D212FF5, 0x60127B2E)
  {
    hide Steps, Auxiliary, S;
    Values32();
    Operation(x, 32, 3, 0x790A77FB, 0x726342D3, 0xA62884AA, 0x9F47E4F8,
              0x4B0C2281, 4, 0xC410D3BE, 0x410D3BEC, 0xB3707EBF);
    Operation(x, 33, 2, 0x9F47E4F8, 0xB3707EBF, 0x726342D3, 0xA62884AA,
              0x673BB8C6, 11, 0x8DF5943F, 0xACA1FC6F, 0x60127B2E);
    Operation(x, 34, 1, 0xA62884AA, 0x60127B2E, 0xB3707EBF, 0x726342D3,
              0xA1014742, 16, 0xB4C72D0E, 0x2D0EB4C7, 0x8D212FF5);
    Operation(x, 35, 0, 0x726342D3, 0x8D212FF5, 0x60127B2E, 0xB3707EBF,
              0x5E432A64, 23, 0xCE8BA55B, 0xADE745D2, 0x3B0875C7);
    NoSteps(x, Quad(0xB3707EBF, 0x3B0875C7, 0x8D212FF5, 0x60127B2E), 36);
  }

  lemma Values36()
    ensures Auxiliary(36, 0x3B0875C7, 0x8D212FF5, 0x60127B2E) == 0xD63B211C && S(0x2E6A8A1F, 4) == 0xE6A8A1F2
    ensures Auxiliary(37, 0x21B117B9, 0x3B0875C7, 0x8D212FF5) == 0x97984D8B && S(0x43899862, 11) == 0x4CC3121C
    ensures Auxiliary(38, 0x6E7429D5, 0x21B117B9, 0x3B0875C7) == 0x74CD4BAB && S(0xF8A9C700, 16) == 0xC700F8A9
    ensures Auxiliary(39, 0x3575227E, 0x6E7429D5, 0x21B117B9) == 0x7AB01C12 && S(0x74784E49, 23) == 0x24BA3C27
  {
  }

  lemma Steps36(x: seq<uint32>)
    requires AbcWords(x)
    ensures Steps(Quad(0xB3707EBF, 0x3B0875C7, 0x8D212FF5, 0x60127B2E), x, 36, 4) ==
      Quad(0x21B117B9, 0x5A2F5EA5, 0x3575227E, 0x6E7429D5)
  {
    hide Steps, Auxiliary, S;
    Values36();
    Operation(x, 36, 3, 0xB3707EBF, 0x3B0875C7, 0x8D212FF5, 0x60127B2E,
              0xD63B211C, 4, 0x2E6A8A1F, 0xE6A8A1F2, 0x21B117B9);
    Operation(x, 37, 2, 0x60127B2E, 0x21B117B9, 0x3B0875C7, 0x8D212FF5,
              0x97984D8B, 11, 0x43899862, 0x4CC3121C, 0x6E7429D5);
    Operation(x, 38, 1, 0x8D212FF5, 0x6E7429D5, 0x21B117B9, 0x3B0875C7,
              0x74CD4BAB, 16, 0xF8A9C700, 0xC700F8A9, 0x3575227E);
    Operation(x, 39, 0, 0x3B0875C7, 0x3575227E, 0x6E7429D5, 0x21B117B9,
              0x7AB01C12, 23, 0x74784E49, 0x24BA3C27, 0x5A2F5EA5);
    NoSteps(x, Quad(0x21B117B9, 0x5A2F5EA5, 0x3575227E, 0x6E7429D5), 40);
  }

  lemma Values40()
    ensures Auxiliary(40, 0x5A2F5EA5, 0x3575227E, 0x6E7429D5) == 0x012E550E && S(0x4B7AEB8D, 4) == 0xB7AEB8D4
    ensures Auxiliary(41, 0x11DE1779, 0x5A2F5EA5, 0x3575227E) == 0x7E846BA2 && S(0x57FD1FD2, 11) == 0xE8FE92BF
    ensures Auxiliary(42, 0xFADCAA38, 0x11DE1779, 0x5A2F5EA5) == 0xB12DE3E4 && S(0xBB9236E7, 16) == 0x36E7BB92
    ensures Auxiliary(43, 0x31C465CA, 0xFADCAA38, 0x11DE1779) == 0xDAC6D88B && S(0x397E5435, 23) == 0x1A9CBF2A
  {
  }

  lemma Steps40(x: seq<uint32>)
    requires AbcWords(x)
    ensures Steps(Quad(0x21B117B9, 0x5A2F5EA5, 0x3575227E, 0x6E7429D5), x, 40, 4) ==
      Quad(0x11DE1779, 0x4C6124F4, 0x31C465CA, 0xFADCAA38)
  {
    hide Steps, Auxiliary, S;
    Values40();
    Operation(x, 40, 3, 0x21B117B9, 0x5A2F5EA5, 0x3575227E, 0x6E7429D5,
              0x012E550E, 4, 0x4B7AEB8D, 0xB7AEB8D4, 0x11DE1779);
    Operation(x, 41, 2, 0x6E7429D5, 0x11DE1779, 0x5A2F5EA5, 0x3575227E,
              0x7E846BA2, 11, 0x57FD1FD2, 0xE8FE92BF, 0xFADCAA38);
    Operation(x, 42, 1, 0x3575227E, 0xFADCAA38, 0x11DE1779, 0x5A2F5EA5,
              0xB12DE3E4, 16, 0xBB9236E7, 0x36E7BB92, 0x31C465CA);
    Operation(x, 43, 0, 0x5A2F5EA5, 0x31C465CA, 0xFADCAA38, 0x11DE1779,
              0xDAC6D88B, 23, 0x397E5435, 0x1A9CBF2A, 0x4C6124F4);
    NoSteps(x, Quad(0x11DE1779, 0x4C6124F4, 0x31C465CA, 0xFADCAA38), 44);
  }

  lemma Values44()
    ensures Auxiliary(44, 0x4C6124F4, 0x31C465CA, 0xFADCAA38) == 0x8779EB06 && S(0x732CD2B8, 4) == 0x32CD2B87
    ensures Auxiliary(45, 0x7F2E507B, 0x4C6124F4, 0x31C465CA) == 0x028B1145 && S(0xE4435562, 11) == 0x1AAB1722
    ensures Auxiliary(46, 0x99D9679D, 0x7F2E507B, 0x4C6124F4) == 0xAA961312 && S(0xFBFCF5D4, 16) == 0xF5D4FBFC
    ensures Auxiliary(47, 0x8FAE6399, 0x99D9679D, 0x7F2E507B) == 0x6959547F && S(0x7A66CFD8, 23) == 0xEC3D3367
  {
  }

  lemma Steps44(x: seq<uint32>)
    requires AbcWords(x)
    ensures Steps(Quad(0x11DE1779, 0x4C6124F4, 0x31C465CA, 0xFADCAA38), x, 44, 4) ==
      Quad(0x7F2E507B, 0x7BEB9700, 0x8FAE6399, 0x99D9679D)
  {
    hide Steps, Auxiliary, S;
    Values44();
    Operation(x, 44, 3, 0x11DE1779, 0x4C6124F4, 0x31C465CA, 0xFADCAA38,
              0x8779EB06, 4, 0x732CD2B8, 0x32CD2B87, 0x7F2E507B);
    Operation(x, 45, 2, 0xFADCAA38, 0x7F2E507B, 0x4C6124F4, 0x31C465CA,
              0x028B1145, 11, 0xE4435562, 0x1AAB1722, 0x99D9679D);
    Operation(x, 46, 1, 0x31C465CA, 0x99D9679D, 0x7F2E507B, 0x4C6124F4,
              0xAA961312, 16, 0xFBFCF5D4, 0xF5D4FBFC, 0x8FAE6399);
    Operation(x, 47, 0, 0x4C6124F4, 0x8FAE6399, 0x99D9679D, 0x7F2E507B,
              0x6959547F, 23, 0x7A66CFD8, 0xEC3D3367, 0x7BEB9700);
    NoSteps(x, Quad(0x7F2E507B, 0x7BEB9700, 0x8FAE6399, 0x99D9679D), 48);
  }

  lemma Values48()
    ensures Auxiliary(48, 0x7BEB9700, 0x8FAE6399, 0x99D9679D) == 0xF041FCFB && S(0xE3FCD21B, 6) == 0xFF3486F8
    ensures Auxiliary(49, 0x7B201DF8, 0x7BEB9700, 0x8FAE6399) == 0x009A0AFE && S(0xDD9E7232, 10) == 0x79C8CB76
    ensures Auxiliary(50, 0xF4E8E96E, 0x7B201DF8, 0x7BEB9700) == 0x8FDCF407 && S(0xCB1F7B5F, 15) == 0xBDAFE58F
    ensures Auxiliary(51, 0xB298CEFD, 0xF4E8E96E, 0x7B201DF8) == 0x42370791 && S(0xBAB63ECA, 21) == 0xD95756C7
  {
  }

  lemma Steps48(x: seq<uint32>)
    requires AbcWords(x)
    ensures Steps(Quad(0x7F2E507B, 0x7BEB9700, 0x8FAE6399, 0x99D9679D), x, 48, 4) ==
      Quad(0x7B201DF8, 0x8BF025C4, 0xB298CEFD, 0xF4E8E96E)
  {
    hide Steps, Auxiliary, S;
    Values48();
    Operation(x, 48, 3, 0x7F2E507B, 0x7BEB9700, 0x8FAE6399, 0x99D9679D,
              0xF041FCFB, 6, 0xE3FCD21B, 0xFF3486F8, 0x7B201DF8);
    Operation(x, 49, 2, 0x99D9679D, 0x7B201DF8, 0x7BEB9700, 0x8FAE6399,
              0x009A0AFE, 10, 0xDD9E7232, 0x79C8CB76, 0xF4E8E96E);
    Operation(x, 50, 1, 0x8FAE6399, 0xF4E8E96E, 0x7B201DF8, 0x7BEB9700,
              0x8FDCF407, 15, 0xCB1F7B5F, 0xBDAFE58F, 0xB298CEFD);
    Operation(x, 51, 0, 0x7BEB9700, 0xB298CEFD, 0xF4E8E96E, 0x7B201DF8,
              0x42370791, 21, 0xBAB63ECA, 0xD95756C7, 0x8BF025C4);
    NoSteps(x, Quad(0x7B201DF8, 0x8BF025C4, 0xB298CEFD, 0xF4E8E96E), 52);
  }

  lemma Values52()
    ensures Auxiliary(52, 0x8BF025C4, 0xB298CEFD, 0xF4E8E96E) == 0x396FF928 && S(0x19EB70E3, 6) == 0x7ADC38C6
    ensures Auxiliary(53, 0x06CC5E8A, 0x8BF025C4, 0xB298CEFD) == 0xC41F5A4E && S(0x4815104E, 10) == 0x54413920
    ensures Auxiliary(54, 0x5B0D97AA, 0x06CC5E8A, 0x8BF025C4) == 0x79C38131 && S(0x2C4C44AB, 15) == 0x22559626
    ensures Auxiliary(55, 0x7D632DD0, 0x5B0D97AA, 0x06CC5E8A) == 0xA67E3A5F && S(0xB7F2BDF4, 21) == 0xBE96FE57
  {
  }

  lemma Steps52(x: seq<uint32>)
    requires AbcWords(x)
    ensures Steps(Quad(0x7B201DF8, 0x8BF025C4, 0xB298CEFD, 0xF4E8E96E), x, 52, 4) ==
      Quad(0x06CC5E8A, 0x3BFA2C27, 0x7D632DD0, 0x5B0D97AA)
  {
    hide Steps, Auxiliary, S;
    Values52();
    Operation(x, 52, 3, 0x7B201DF8, 0x8BF025C4, 0xB298CEFD, 0xF4E8E96E,
              0x396FF928, 6, 0x19EB70E3, 0x7ADC38C6, 0x06CC5E8A);
    Operation(x, 53, 2, 0xF4E8E96E, 0x06CC5E8A, 0x8BF025C4, 0xB298CEFD,
              0xC41F5A4E, 10, 0x4815104E, 0x54413920, 0x5B0D97AA);
    Operation(x, 54, 1, 0xB298CEFD, 0x5B0D97AA, 0x06CC5E8A, 0x8BF025C4,
              0x79C38131, 15, 0x2C4C44AB, 0x22559626, 0x7D632DD0);
    Operation(x, 55, 0, 0x8BF025C4, 0x7D632DD0, 0x5B0D97AA, 0x06CC5E8A,
              0xA67E3A5F, 21, 0xB7F2BDF4, 0xBE96FE57, 0x3BFA2C27);
    NoSteps(x, Quad(0x06CC5E8A, 0x3BFA2C27, 0x7D632DD0, 0x5B0D97AA), 56);
  }

  lemma Values56()
    ensures Auxiliary(56, 0x3BFA2C27, 0x7D632DD0, 0x5B0D97AA) == 0xC29941A7 && S(0x390E1E80, 6) == 0x4387A00E
    ensures Auxiliary(57, 0x7F81CC35, 0x3BFA2C27, 0x7D632DD0) == 0xC467F218 && S(0x1DA270A2, 10) == 0x89C28876
    ensures Auxiliary(58, 0x094454AB, 0x7F81CC35, 0x3BFA2C27) == 0xB2C41BCE && S(0xD3288CB2, 15) == 0x46596994
    ensures Auxiliary(59, 0x4F9DBE3F, 0x094454AB, 0x7F81CC35) == 0xC6BBEB54 && S(0x50BE291C, 21) == 0x238A17C5
  {
  }

  lemma Steps56(x: seq<uint32>)
    requires AbcWords(x)
    ensures Steps(Quad(0x06CC5E8A, 0x3BFA2C27, 0x7D632DD0, 0x5B0D97AA), x, 56, 4) ==
      Quad(0x7F81CC35, 0x7327D604, 0x4F9DBE3F, 0x094454AB)
  {
    hide Steps, Auxiliary, S;
    Values56();
    Operation(x, 56, 3, 0x06CC5E8A, 0x3BFA2C27, 0x7D632DD0, 0x5B0D97AA,
              0xC29941A7, 6, 0x390E1E80, 0x4387A00E, 0x7F81CC35);
    Operation(x, 57, 2, 0x5B0D97AA, 0x7F81CC35, 0x3BFA2C27, 0x7D632DD0,
              0xC467F218, 10, 0x1DA270A2, 0x89C28876, 0x094454AB);
    Operation(x, 58, 1, 0x7D632DD0, 0x094454AB, 0x7F81CC35, 0x3BFA2C27,
              0xB2C41BCE, 15, 0xD3288CB2, 0x46596994, 0x4F9DBE3F);
    Operation(x, 59, 0, 0x3BFA2C27, 0x4F9DBE3F, 0x094454AB, 0x7F81CC35,
              0xC6BBEB54, 21, 0x50BE291C, 0x238A17C5, 0x7327D604);
    NoSteps(x, Quad(0x7F81CC35, 0x7327D604, 0x4F9DBE3F, 0x094454AB), 60);
  }

  lemma Values60()
    ensures Auxiliary(60, 0x7327D604, 0x4F9DBE3F, 0x094454AB) == 0xB822416B && S(0x2EF78C22, 6) == 0xBDE3088B
    ensures Auxiliary(61, 0x310ADE8F, 0x7327D604, 0x4F9DBE3F) == 0xC24D09CB && S(0x88CC50AB, 10) == 0x3142AE23
    ensures Auxiliary(62, 0x624D8CB2, 0x310ADE8F, 0x7327D604) == 0xDFD77374 && S(0x5A4D046E, 15) == 0x82372D26
    ensures Auxiliary(63, 0xE484B9D8, 0x624D8CB2, 0x310ADE8F) == 0x8CB8354A && S(0xEB66DEDF, 21) == 0xDBFD6CDB
  {
  }

  lemma Steps60(x: seq<uint32>)
    requires AbcWords(x)
    ensures Steps(Quad(0x7F81CC35, 0x7327D604, 0x4F9DBE3F, 0x094454AB), x, 60, 4) ==
      Quad(0x310ADE8F, 0xC08226B3, 0xE484B9D8, 0x624D8CB2)
  {
    hide Steps, Auxiliary, S;
    Values60();
    Operation(x, 60, 3, 0x7F81CC35, 0x7327D604, 0x4F9DBE3F, 0x094454AB,
              0xB822416B, 6, 0x2EF78C22, 0xBDE3088B, 0x310ADE8F);
    Operation(x, 61, 2, 0x094454AB, 0x310ADE8F, 0x7327D604, 0x4F9DBE3F,
              0xC24D09CB, 10, 0x88CC50AB, 0x3142AE23, 0x624D8CB2);
    Operation(x, 62, 1, 0x4F9DBE3F, 0x624D8CB2, 0x310ADE8F, 0x7327D604,
              0xDFD77374, 15, 0x5A4D046E, 0x82372D26, 0xE484B9D8);
    Operation(x, 63, 0, 0x7327D604, 0xE484B9D8, 0x624D8CB2, 0x310ADE8F,
              0x8CB8354A, 21, 0xEB66DEDF, 0xDBFD6CDB, 0xC08226B3);
    NoSteps(x, Quad(0x310ADE8F, 0xC08226B3, 0xE484B9D8, 0x624D8CB2), 64);
  }

  lemma Round1(x: seq<uint32>)
    requires AbcWords(x)
    ensures Steps(Quad(0x67452301, 0xEFCDAB89, 0x98BADCFE, 0x10325476), x, 0, 16) ==
      Quad(0xDDA9B9A6, 0x72AFF2E0, 0xE396856B, 0xA1051895)
  {
    hide Steps;
    JoinSteps(x, 0, Quad(0x67452301, 0xEFCDAB89, 0x98BADCFE, 0x10325476));
    Steps0(x);
    Steps4(x);
    Steps8(x);
    Steps12(x);
  }

  lemma Round2(x: seq<uint32>)
    requires AbcWords(x)
    ensures Steps(Quad(0xDDA9B9A6, 0x72AFF2E0, 0xE396856B, 0xA1051895), x, 16, 16) ==
      Quad(0x790A77FB, 0x726342D3, 0xA62884AA, 0x9F47E4F8)
  {
    hide Steps;
    JoinSteps(x, 16, Quad(0xDDA9B9A6, 0x72AFF2E0, 0xE396856B, 0xA1051895));
    Steps16(x);
    Steps20(x);
    Steps24(x);
    Steps28(x);
  }

  lemma Round3(x: seq<uint32>)
    requires AbcWords(x)
    ensures Steps(Quad(0x790A77FB, 0x726342D3, 0xA62884AA, 0x9F47E4F8), x, 32, 16) ==
      Quad(0x7F2E507B, 0x7BEB9700, 0x8FAE6399, 0x99D9679D)
  {
    hide Steps;
    JoinSteps(x, 32, Quad(0x790A77FB, 0x726342D3, 0xA62884AA, 0x9F47E4F8));
    Steps32(x);
    Steps36(x);
    Steps40(x);
    Steps44(x);
  }

  lemma Round4(x: seq<uint32>)
    requires AbcWords(x)
    ensures Steps(Quad(0x7F2E507B, 0x7BEB9700, 0x8FAE6399, 0x99D9679D), x, 48, 16) ==
      Quad(0x310ADE8F, 0xC08226B3, 0xE484B9D8, 0x624D8CB2)
  {
    hide Steps;
    JoinSteps(x, 48, Quad(0x7F2E507B, 0x7BEB9700, 0x8FAE6399, 0x99D9679D));
    Steps48(x);
    Steps52(x);
    Steps56(x);
    Steps60(x);
  }

  lemma AllRounds(x: seq<uint32>)
    requires AbcWords(x)
    ensures Plus(INITIAL, Steps(INITIAL, x, 0, 64)) == Quad(0x98500190, 0xB04FD23C, 0x7D3F96D6, 0x727FE128)
  {
    hide Steps;
    StepsSplit(INITIAL, x, 0, 16, 48);
    StepsSplit(Steps(INITIAL, x, 0, 16), x, 16, 16, 32);
    StepsSplit(Steps(Steps(INITIAL, x, 0, 16), x, 16, 16), x, 32, 16, 16);
    Round1(x);
    Round2(x);
    Round3(x);
    Round4(x);
  }

  lemma AbcPadded(message: seq<byte>)
    requires message == [97, 98, 99]
    ensures |Padded(message, 3)| == 64 && AbcWords(Words(Padded(message, 3)))
  {
    var p := Padded(message, 3);
    assert LengthField(3) == [24, 0, 0, 0, 0, 0, 0, 0];
    assert Padding(3) == [0x80] + seq(52, i => 0);
    assert p[0] == 97 && p[1] == 98 && p[2] == 99 && p[3] == 0x80 && p[56] == 24;
    assert forall i :: 4 <= i < 64 && i != 56 ==> p[i] == 0;
  }

  lemma OneBlock(q: Quad, data: Block)
    ensures Hash(q, data) == Plus(q, Steps(q, Words(data), 0, 64))
  {
    assert data[..64] == data && data[64..] == [];
  }

  lemma EncodedDigest(q: Quad)
    requires q == Quad(0x98500190, 0xB04FD23C, 0x7D3F96D6, 0x727FE128)
    ensures Encode(q) == [144, 1, 80, 152, 60, 210, 79, 176, 214, 150, 63, 125, 40, 225, 127, 114]
  {
  }

  /** MD5 ("abc") = 900150983cd24fb0d6963f7d28e17f72 */
  lemma DigestOfAbc(message: seq<byte>)
    requires message == [97, 98, 99]
    ensures Digest(message) == [144, 1, 80, 152, 60, 210, 79, 176, 214, 150, 63, 125, 40, 225, 127, 114]
  {
    hide Steps, Hash, Padded, Words, Encode, AbcWords;
    AbcPadded(message);
    var p: Block := Padded(message, 3);
    OneBlock(INITIAL, p);
    AllRounds(Words(p));
    EncodedDigest(Hash(INITIAL, p));
  }
}
