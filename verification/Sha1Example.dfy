/** The example of FIPS 180 for the message "abc", worked through word by word and round by round, and where the
    constants come from: what Sha1Spec says, said without it. */
module Sha1Example {
  import opened Sha1Spec

  const ABC: seq<Byte> := [0x61, 0x62, 0x63]

  /** The padded message: one block. */
  lemma Padded()
    ensures var b := Pad(ABC);
      && |b| == 64 && b[0] == 0x61 && b[1] == 0x62 && b[2] == 0x63 && b[3] == 0x80
      && (forall i :: 4 <= i < 63 ==> b[i] == 0) && b[63] == 24
  {
    assert |Zeros(Fill(3))| == 52;
    forall i | 1 <= i < 8 ensures ByteOf(24, i) == 0 { Below(24, i); }
    assert ByteOf(24, 0) == 24 by { assert Pow256(0) == 1; }
  }

  lemma {:induction false} Below(n: nat, i: nat)
    requires n < 256 && i > 0
    ensures n < Pow256(i) && ByteOf(n, i) == 0
  {
    PowAbove(i);
    var p := Pow256(i);
    hide Pow256;
    assert n / p == 0;
  }

  lemma {:induction false} PowAbove(i: nat)
    requires i > 0
    ensures Pow256(i) >= 256
  {
    if i > 1 { PowAbove(i - 1); } else { assert Pow256(1) == 256 * Pow256(0); }
  }

  lemma Words0()
    ensures |Pad(ABC)| == 64
    ensures W(Pad(ABC), 0) == 0x61626380 && W(Pad(ABC), 15) == 24
    ensures forall t :: 1 <= t < 15 ==> W(Pad(ABC), t) == 0
  {
    Padded();
  }

  /** The words the schedule adds. */
  lemma Word(t: nat, w3: Word, w8: Word, w14: Word, w16: Word)
    requires |Pad(ABC)| == 64 && t >= 16
    requires W(Pad(ABC), t - 3) == w3 && W(Pad(ABC), t - 8) == w8 && W(Pad(ABC), t - 14) == w14 && W(Pad(ABC), t - 16) == w16
    ensures W(Pad(ABC), t) == Rotl(w3 ^ w8 ^ w14 ^ w16, 1)
  {}

  lemma Words1()
    ensures |Pad(ABC)| == 64
    ensures W(Pad(ABC), 16) == 0xC2C4C700 && W(Pad(ABC), 17) == 0x00000000 && W(Pad(ABC), 18) == 0x00000030 && W(Pad(ABC), 19) == 0x85898E01
    ensures W(Pad(ABC), 20) == 0x00000000 && W(Pad(ABC), 21) == 0x00000060 && W(Pad(ABC), 22) == 0x0B131C03 && W(Pad(ABC), 23) == 0x00000030
    ensures W(Pad(ABC), 24) == 0x85898EC1 && W(Pad(ABC), 25) == 0x16263806 && W(Pad(ABC), 26) == 0x00000000 && W(Pad(ABC), 27) == 0x00000180
    ensures W(Pad(ABC), 28) == 0x2C4C700C && W(Pad(ABC), 29) == 0x000000F0 && W(Pad(ABC), 30) == 0x93AFB507 && W(Pad(ABC), 31) == 0x5898E048
    ensures W(Pad(ABC), 32) == 0x8E9A9202 && W(Pad(ABC), 33) == 0x00000600 && W(Pad(ABC), 34) == 0xB131C0F0 && W(Pad(ABC), 35) == 0x16263BC6
    ensures W(Pad(ABC), 36) == 0x4EBED41E && W(Pad(ABC), 37) == 0x626380A1 && W(Pad(ABC), 38) == 0x16263806 && W(Pad(ABC), 39) == 0x000018C0
    ensures W(Pad(ABC), 40) == 0xD2E138C4 && W(Pad(ABC), 41) == 0x00000F00 && W(Pad(ABC), 42) == 0x3AFB5079 && W(Pad(ABC), 43) == 0x898E04E5
    ensures W(Pad(ABC), 44) == 0xE2BA3C2B && W(Pad(ABC), 45) == 0x000060C0 && W(Pad(ABC), 46) == 0x053A37CD && W(Pad(ABC), 47) == 0x74458547
  {
    Words0();
    hide W, Pad, ABC;
    Word(16, 0x00000000, 0x00000000, 0x00000000, 0x61626380);
    Word(17, 0x00000000, 0x00000000, 0x00000000, 0x00000000);
    Word(18, 0x00000018, 0x00000000, 0x00000000, 0x00000000);
    Word(19, 0xC2C4C700, 0x00000000, 0x00000000, 0x00000000);
    Word(20, 0x00000000, 0x00000000, 0x00000000, 0x00000000);
    Word(21, 0x00000030, 0x00000000, 0x00000000, 0x00000000);
    Word(22, 0x85898E01, 0x00000000, 0x00000000, 0x00000000);
    Word(23, 0x00000000, 0x00000018, 0x00000000, 0x00000000);
    Word(24, 0x00000060, 0xC2C4C700, 0x00000000, 0x00000000);
    Word(25, 0x0B131C03, 0x00000000, 0x00000000, 0x00000000);
    Word(26, 0x00000030, 0x00000030, 0x00000000, 0x00000000);
    Word(27, 0x85898EC1, 0x85898E01, 0x00000000, 0x00000000);
    Word(28, 0x16263806, 0x00000000, 0x00000000, 0x00000000);
    Word(29, 0x00000000, 0x00000060, 0x00000018, 0x00000000);
    Word(30, 0x00000180, 0x0B131C03, 0xC2C4C700, 0x00000000);
    Word(31, 0x2C4C700C, 0x00000030, 0x00000000, 0x00000018);
    Word(32, 0x000000F0, 0x85898EC1, 0x00000030, 0xC2C4C700);
    Word(33, 0x93AFB507, 0x16263806, 0x85898E01, 0x00000000);
    Word(34, 0x5898E048, 0x00000000, 0x00000000, 0x00000030);
    Word(35, 0x8E9A9202, 0x00000180, 0x00000060, 0x85898E01);
    Word(36, 0x00000600, 0x2C4C700C, 0x0B131C03, 0x00000000);
    Word(37, 0xB131C0F0, 0x000000F0, 0x00000030, 0x00000060);
    Word(38, 0x16263BC6, 0x93AFB507, 0x85898EC1, 0x0B131C03);
    Word(39, 0x4EBED41E, 0x5898E048, 0x16263806, 0x00000030);
    Word(40, 0x626380A1, 0x8E9A9202, 0x00000000, 0x85898EC1);
    Word(41, 0x16263806, 0x00000600, 0x00000180, 0x16263806);
    Word(42, 0x000018C0, 0xB131C0F0, 0x2C4C700C, 0x00000000);
    Word(43, 0xD2E138C4, 0x16263BC6, 0x000000F0, 0x00000180);
    Word(44, 0x00000F00, 0x4EBED41E, 0x93AFB507, 0x2C4C700C);
    Word(45, 0x3AFB5079, 0x626380A1, 0x5898E048, 0x000000F0);
    Word(46, 0x898E04E5, 0x16263806, 0x8E9A9202, 0x93AFB507);
    Word(47, 0xE2BA3C2B, 0x000018C0, 0x00000600, 0x5898E048);
  }

  lemma Words2()
    ensures |Pad(ABC)| == 64
    ensures W(Pad(ABC), 48) == 0xDA9415ED && W(Pad(ABC), 49) == 0x26380A16 && W(Pad(ABC), 50) == 0x626383A1 && W(Pad(ABC), 51) == 0x4EBF54DE
    ensures W(Pad(ABC), 52) == 0x3835B44B && W(Pad(ABC), 53) == 0x0000F600 && W(Pad(ABC), 54) == 0x1E84C7A3 && W(Pad(ABC), 55) == 0x98E04D98
    ensures W(Pad(ABC), 56) == 0x651D16A0 && W(Pad(ABC), 57) == 0x62658CA1 && W(Pad(ABC), 58) == 0x458544D6 && W(Pad(ABC), 59) == 0x44584CB7
    ensures W(Pad(ABC), 60) == 0x7BA06619 && W(Pad(ABC), 61) == 0x6380AEA2 && W(Pad(ABC), 62) == 0x0AE55269 && W(Pad(ABC), 63) == 0x627B49A1
    ensures W(Pad(ABC), 64) == 0x7CD45C9D && W(Pad(ABC), 65) == 0x000F0000 && W(Pad(ABC), 66) == 0xFB50753A && W(Pad(ABC), 67) == 0xEC6765E8
    ensures W(Pad(ABC), 68) == 0xBA3C2BE2 && W(Pad(ABC), 69) == 0x0060C000 && W(Pad(ABC), 70) == 0x3A37CD05 && W(Pad(ABC), 71) == 0x458546F4
    ensures W(Pad(ABC), 72) == 0xB8599DD6 && W(Pad(ABC), 73) == 0x380A1A26 && W(Pad(ABC), 74) == 0x01E02203 && W(Pad(ABC), 75) == 0xE7CC3456
    ensures W(Pad(ABC), 76) == 0xE6E60B69 && W(Pad(ABC), 77) == 0x00F60A00 && W(Pad(ABC), 78) == 0x5795EF4F && W(Pad(ABC), 79) == 0x822E0879
  {
    Words1();
    hide W, Pad, ABC;
    Word(48, 0x000060C0, 0xD2E138C4, 0xB131C0F0, 0x8E9A9202);
    Word(49, 0x053A37CD, 0x00000F00, 0x16263BC6, 0x00000600);
    Word(50, 0x74458547, 0x3AFB5079, 0x4EBED41E, 0xB131C0F0);
    Word(51, 0xDA9415ED, 0x898E04E5, 0x626380A1, 0x16263BC6);
    Word(52, 0x26380A16, 0xE2BA3C2B, 0x16263806, 0x4EBED41E);
    Word(53, 0x626383A1, 0x000060C0, 0x000018C0, 0x626380A1);
    Word(54, 0x4EBF54DE, 0x053A37CD, 0xD2E138C4, 0x16263806);
    Word(55, 0x3835B44B, 0x74458547, 0x00000F00, 0x000018C0);
    Word(56, 0x0000F600, 0xDA9415ED, 0x3AFB5079, 0xD2E138C4);
    Word(57, 0x1E84C7A3, 0x26380A16, 0x898E04E5, 0x00000F00);
    Word(58, 0x98E04D98, 0x626383A1, 0xE2BA3C2B, 0x3AFB5079);
    Word(59, 0x651D16A0, 0x4EBF54DE, 0x000060C0, 0x898E04E5);
    Word(60, 0x62658CA1, 0x3835B44B, 0x053A37CD, 0xE2BA3C2B);
    Word(61, 0x458544D6, 0x0000F600, 0x74458547, 0x000060C0);
    Word(62, 0x44584CB7, 0x1E84C7A3, 0xDA9415ED, 0x053A37CD);
    Word(63, 0x7BA06619, 0x98E04D98, 0x26380A16, 0x74458547);
    Word(64, 0x6380AEA2, 0x651D16A0, 0x626383A1, 0xDA9415ED);
    Word(65, 0x0AE55269, 0x62658CA1, 0x4EBF54DE, 0x26380A16);
    Word(66, 0x627B49A1, 0x458544D6, 0x3835B44B, 0x626383A1);
    Word(67, 0x7CD45C9D, 0x44584CB7, 0x0000F600, 0x4EBF54DE);
    Word(68, 0x000F0000, 0x7BA06619, 0x1E84C7A3, 0x3835B44B);
    Word(69, 0xFB50753A, 0x6380AEA2, 0x98E04D98, 0x0000F600);
    Word(70, 0xEC6765E8, 0x0AE55269, 0x651D16A0, 0x1E84C7A3);
    Word(71, 0xBA3C2BE2, 0x627B49A1, 0x62658CA1, 0x98E04D98);
    Word(72, 0x0060C000, 0x7CD45C9D, 0x458544D6, 0x651D16A0);
    Word(73, 0x3A37CD05, 0x000F0000, 0x44584CB7, 0x62658CA1);
    Word(74, 0x458546F4, 0xFB50753A, 0x7BA06619, 0x458544D6);
    Word(75, 0xB8599DD6, 0xEC6765E8, 0x6380AEA2, 0x44584CB7);
    Word(76, 0x380A1A26, 0xBA3C2BE2, 0x0AE55269, 0x7BA06619);
    Word(77, 0x01E02203, 0x0060C000, 0x627B49A1, 0x6380AEA2);
    Word(78, 0xE7CC3456, 0x3A37CD05, 0x7CD45C9D, 0x0AE55269);
    Word(79, 0xE6E60B69, 0x458546F4, 0x000F0000, 0x627B49A1);
  }

  lemma OneRound(t: nat, r: Regs, w: Word)
    requires |Pad(ABC)| == 64 && Rounds(IV, Pad(ABC), t) == r && W(Pad(ABC), t) == w
    ensures Rounds(IV, Pad(ABC), t + 1) == Round(r, t, w)
  {}

  lemma Rounds20()
    ensures |Pad(ABC)| == 64 && Rounds(IV, Pad(ABC), 20) == Regs(0xFD9E1D7D, 0xDC64901D, 0x20AA99CA, 0xD3A49608, 0xC82F758B)
  {
    Words0(); Words1();
    assert Rounds(IV, Pad(ABC), 0) == Regs(0x67452301, 0xEFCDAB89, 0x98BADCFE, 0x10325476, 0xC3D2E1F0);
    hide Rounds, W, Pad, ABC, IV;
    OneRound(0, Regs(0x67452301, 0xEFCDAB89, 0x98BADCFE, 0x10325476, 0xC3D2E1F0), 0x61626380);
    OneRound(1, Regs(0x0116FC33, 0x67452301, 0x7BF36AE2, 0x98BADCFE, 0x10325476), 0x00000000);
    OneRound(2, Regs(0x8990536D, 0x0116FC33, 0x59D148C0, 0x7BF36AE2, 0x98BADCFE), 0x00000000);
    OneRound(3, Regs(0xA1390F08, 0x8990536D, 0xC045BF0C, 0x59D148C0, 0x7BF36AE2), 0x00000000);
    OneRound(4, Regs(0xCDD8E11B, 0xA1390F08, 0x626414DB, 0xC045BF0C, 0x59D148C0), 0x00000000);
    OneRound(5, Regs(0xCFD499DE, 0xCDD8E11B, 0x284E43C2, 0x626414DB, 0xC045BF0C), 0x00000000);
    OneRound(6, Regs(0x3FC7CA40, 0xCFD499DE, 0xF3763846, 0x284E43C2, 0x626414DB), 0x00000000);
    OneRound(7, Regs(0x993E30C1, 0x3FC7CA40, 0xB3F52677, 0xF3763846, 0x284E43C2), 0x00000000);
    OneRound(8, Regs(0x9E8C07D4, 0x993E30C1, 0x0FF1F290, 0xB3F52677, 0xF3763846), 0x00000000);
    OneRound(9, Regs(0x4B6AE328, 0x9E8C07D4, 0x664F8C30, 0x0FF1F290, 0xB3F52677), 0x00000000);
    OneRound(10, Regs(0x8351F929, 0x4B6AE328, 0x27A301F5, 0x664F8C30, 0x0FF1F290), 0x00000000);
    OneRound(11, Regs(0xFBDA9E89, 0x8351F929, 0x12DAB8CA, 0x27A301F5, 0x664F8C30), 0x00000000);
    OneRound(12, Regs(0x63188FE4, 0xFBDA9E89, 0x60D47E4A, 0x12DAB8CA, 0x27A301F5), 0x00000000);
    OneRound(13, Regs(0x4607B664, 0x63188FE4, 0x7EF6A7A2, 0x60D47E4A, 0x12DAB8CA), 0x00000000);
    OneRound(14, Regs(0x9128F695, 0x4607B664, 0x18C623F9, 0x7EF6A7A2, 0x60D47E4A), 0x00000000);
    OneRound(15, Regs(0x196BEE77, 0x9128F695, 0x1181ED99, 0x18C623F9, 0x7EF6A7A2), 0x00000018);
    OneRound(16, Regs(0x20BDD62F, 0x196BEE77, 0x644A3DA5, 0x1181ED99, 0x18C623F9), 0xC2C4C700);
    OneRound(17, Regs(0x4E925823, 0x20BDD62F, 0xC65AFB9D, 0x644A3DA5, 0x1181ED99), 0x00000000);
    OneRound(18, Regs(0x82AA6728, 0x4E925823, 0xC82F758B, 0xC65AFB9D, 0x644A3DA5), 0x00000030);
    OneRound(19, Regs(0xDC64901D, 0x82AA6728, 0xD3A49608, 0xC82F758B, 0xC65AFB9D), 0x85898E01);
  }

  lemma Rounds40()
    ensures |Pad(ABC)| == 64 && Rounds(IV, Pad(ABC), 40) == Regs(0x32DE1CBA, 0x4C986405, 0xF718E5CF, 0x03D447F6, 0xF72EEC32)
  {
    Rounds20(); Words1();
    hide Rounds, W, Pad, ABC, IV;
    OneRound(20, Regs(0xFD9E1D7D, 0xDC64901D, 0x20AA99CA, 0xD3A49608, 0xC82F758B), 0x00000000);
    OneRound(21, Regs(0x1A37B0CA, 0xFD9E1D7D, 0x77192407, 0x20AA99CA, 0xD3A49608), 0x00000060);
    OneRound(22, Regs(0x33A23BFC, 0x1A37B0CA, 0x7F67875F, 0x77192407, 0x20AA99CA), 0x0B131C03);
    OneRound(23, Regs(0x21283486, 0x33A23BFC, 0x868DEC32, 0x7F67875F, 0x77192407), 0x00000030);
    OneRound(24, Regs(0xD541F12D, 0x21283486, 0x0CE88EFF, 0x868DEC32, 0x7F67875F), 0x85898EC1);
    OneRound(25, Regs(0xC7567DC6, 0xD541F12D, 0x884A0D21, 0x0CE88EFF, 0x868DEC32), 0x16263806);
    OneRound(26, Regs(0x48413BA4, 0xC7567DC6, 0x75507C4B, 0x884A0D21, 0x0CE88EFF), 0x00000000);
    OneRound(27, Regs(0xBE35FBD5, 0x48413BA4, 0xB1D59F71, 0x75507C4B, 0x884A0D21), 0x00000180);
    OneRound(28, Regs(0x4AA84D97, 0xBE35FBD5, 0x12104EE9, 0xB1D59F71, 0x75507C4B), 0x2C4C700C);
    OneRound(29, Regs(0x8370B52E, 0x4AA84D97, 0x6F8D7EF5, 0x12104EE9, 0xB1D59F71), 0x000000F0);
    OneRound(30, Regs(0xC5FBAF5D, 0x8370B52E, 0xD2AA1365, 0x6F8D7EF5, 0x12104EE9), 0x93AFB507);
    OneRound(31, Regs(0x1267B407, 0xC5FBAF5D, 0xA0DC2D4B, 0xD2AA1365, 0x6F8D7EF5), 0x5898E048);
    OneRound(32, Regs(0x3B845D33, 0x1267B407, 0x717EEBD7, 0xA0DC2D4B, 0xD2AA1365), 0x8E9A9202);
    OneRound(33, Regs(0x046FAA0A, 0x3B845D33, 0xC499ED01, 0x717EEBD7, 0xA0DC2D4B), 0x00000600);
    OneRound(34, Regs(0x2C0EBC11, 0x046FAA0A, 0xCEE1174C, 0xC499ED01, 0x717EEBD7), 0xB131C0F0);
    OneRound(35, Regs(0x21796AD4, 0x2C0EBC11, 0x811BEA82, 0xCEE1174C, 0xC499ED01), 0x16263BC6);
    OneRound(36, Regs(0xDCBBB0CB, 0x21796AD4, 0x4B03AF04, 0x811BEA82, 0xCEE1174C), 0x4EBED41E);
    OneRound(37, Regs(0x0F511FD8, 0xDCBBB0CB, 0x085E5AB5, 0x4B03AF04, 0x811BEA82), 0x626380A1);
    OneRound(38, Regs(0xDC63973F, 0x0F511FD8, 0xF72EEC32, 0x085E5AB5, 0x4B03AF04), 0x16263806);
    OneRound(39, Regs(0x4C986405, 0xDC63973F, 0x03D447F6, 0xF72EEC32, 0x085E5AB5), 0x000018C0);
  }

  lemma Rounds60()
    ensures |Pad(ABC)| == 64 && Rounds(IV, Pad(ABC), 60) == Regs(0x3F52DE5A, 0x09D785FD, 0x3498BFD4, 0xF211824F, 0xD79915AB)
  {
    Rounds40(); Words1(); Words2();
    hide Rounds, W, Pad, ABC, IV;
    OneRound(40, Regs(0x32DE1CBA, 0x4C986405, 0xF718E5CF, 0x03D447F6, 0xF72EEC32), 0xD2E138C4);
    OneRound(41, Regs(0xFC87DEDF, 0x32DE1CBA, 0x53261901, 0xF718E5CF, 0x03D447F6), 0x00000F00);
    OneRound(42, Regs(0x970A0D5C, 0xFC87DEDF, 0x8CB7872E, 0x53261901, 0xF718E5CF), 0x3AFB5079);
    OneRound(43, Regs(0x7F193DC5, 0x970A0D5C, 0xFF21F7B7, 0x8CB7872E, 0x53261901), 0x898E04E5);
    OneRound(44, Regs(0xEE1B1AAF, 0x7F193DC5, 0x25C28357, 0xFF21F7B7, 0x8CB7872E), 0xE2BA3C2B);
    OneRound(45, Regs(0x40F28E09, 0xEE1B1AAF, 0x5FC64F71, 0x25C28357, 0xFF21F7B7), 0x000060C0);
    OneRound(46, Regs(0x1C51E1F2, 0x40F28E09, 0xFB86C6AB, 0x5FC64F71, 0x25C28357), 0x053A37CD);
    OneRound(47, Regs(0xA01B846C, 0x1C51E1F2, 0x503CA382, 0xFB86C6AB, 0x5FC64F71), 0x74458547);
    OneRound(48, Regs(0xBEAD02CA, 0xA01B846C, 0x8714787C, 0x503CA382, 0xFB86C6AB), 0xDA9415ED);
    OneRound(49, Regs(0xBAF39337, 0xBEAD02CA, 0x2806E11B, 0x8714787C, 0x503CA382), 0x26380A16);
    OneRound(50, Regs(0x120731C5, 0xBAF39337, 0xAFAB40B2, 0x2806E11B, 0x8714787C), 0x626383A1);
    OneRound(51, Regs(0x641DB2CE, 0x120731C5, 0xEEBCE4CD, 0xAFAB40B2, 0x2806E11B), 0x4EBF54DE);
    OneRound(52, Regs(0x3847AD66, 0x641DB2CE, 0x4481CC71, 0xEEBCE4CD, 0xAFAB40B2), 0x3835B44B);
    OneRound(53, Regs(0xE490436D, 0x3847AD66, 0x99076CB3, 0x4481CC71, 0xEEBCE4CD), 0x0000F600);
    OneRound(54, Regs(0x27E9F1D8, 0xE490436D, 0x8E11EB59, 0x99076CB3, 0x4481CC71), 0x1E84C7A3);
    OneRound(55, Regs(0x7B71F76D, 0x27E9F1D8, 0x792410DB, 0x8E11EB59, 0x99076CB3), 0x98E04D98);
    OneRound(56, Regs(0x5E6456AF, 0x7B71F76D, 0x09FA7C76, 0x792410DB, 0x8E11EB59), 0x651D16A0);
    OneRound(57, Regs(0xC846093F, 0x5E6456AF, 0x5EDC7DDB, 0x09FA7C76, 0x792410DB), 0x62658CA1);
    OneRound(58, Regs(0xD262FF50, 0xC846093F, 0xD79915AB, 0x5EDC7DDB, 0x09FA7C76), 0x458544D6);
    OneRound(59, Regs(0x09D785FD, 0xD262FF50, 0xF211824F, 0xD79915AB, 0x5EDC7DDB), 0x44584CB7);
  }

  lemma Rounds80()
    ensures |Pad(ABC)| == 64 && Rounds(IV, Pad(ABC), 80) == Regs(0x42541B35, 0x5738D5E1, 0x21834873, 0x681E6DF6, 0xD8FDF6AD)
  {
    Rounds60(); Words2();
    hide Rounds, W, Pad, ABC, IV;
    OneRound(60, Regs(0x3F52DE5A, 0x09D785FD, 0x3498BFD4, 0xF211824F, 0xD79915AB), 0x7BA06619);
    OneRound(61, Regs(0xD756C147, 0x3F52DE5A, 0x4275E17F, 0x3498BFD4, 0xF211824F), 0x6380AEA2);
    OneRound(62, Regs(0x548C9CB2, 0xD756C147, 0x8FD4B796, 0x4275E17F, 0x3498BFD4), 0x0AE55269);
    OneRound(63, Regs(0xB66C020B, 0x548C9CB2, 0xF5D5B051, 0x8FD4B796, 0x4275E17F), 0x627B49A1);
    OneRound(64, Regs(0x6B61C9E1, 0xB66C020B, 0x9523272C, 0xF5D5B051, 0x8FD4B796), 0x7CD45C9D);
    OneRound(65, Regs(0x19DFA7AC, 0x6B61C9E1, 0xED9B0082, 0x9523272C, 0xF5D5B051), 0x000F0000);
    OneRound(66, Regs(0x101655F9, 0x19DFA7AC, 0x5AD87278, 0xED9B0082, 0x9523272C), 0xFB50753A);
    OneRound(67, Regs(0x0C3DF2B4, 0x101655F9, 0x0677E9EB, 0x5AD87278, 0xED9B0082), 0xEC6765E8);
    OneRound(68, Regs(0x78DD4D2B, 0x0C3DF2B4, 0x4405957E, 0x0677E9EB, 0x5AD87278), 0xBA3C2BE2);
    OneRound(69, Regs(0x497093C0, 0x78DD4D2B, 0x030F7CAD, 0x4405957E, 0x0677E9EB), 0x0060C000);
    OneRound(70, Regs(0x3F2588C2, 0x497093C0, 0xDE37534A, 0x030F7CAD, 0x4405957E), 0x3A37CD05);
    OneRound(71, Regs(0xC199F8C7, 0x3F2588C2, 0x125C24F0, 0xDE37534A, 0x030F7CAD), 0x458546F4);
    OneRound(72, Regs(0x39859DE7, 0xC199F8C7, 0x8FC96230, 0x125C24F0, 0xDE37534A), 0xB8599DD6);
    OneRound(73, Regs(0xEDB42DE4, 0x39859DE7, 0xF0667E31, 0x8FC96230, 0x125C24F0), 0x380A1A26);
    OneRound(74, Regs(0x11793F6F, 0xEDB42DE4, 0xCE616779, 0xF0667E31, 0x8FC96230), 0x01E02203);
    OneRound(75, Regs(0x5EE76897, 0x11793F6F, 0x3B6D0B79, 0xCE616779, 0xF0667E31), 0xE7CC3456);
    OneRound(76, Regs(0x63F7DAB7, 0x5EE76897, 0xC45E4FDB, 0x3B6D0B79, 0xCE616779), 0xE6E60B69);
    OneRound(77, Regs(0xA079B7D9, 0x63F7DAB7, 0xD7B9DA25, 0xC45E4FDB, 0x3B6D0B79), 0x00F60A00);
    OneRound(78, Regs(0x860D21CC, 0xA079B7D9, 0xD8FDF6AD, 0xD7B9DA25, 0xC45E4FDB), 0x5795EF4F);
    OneRound(79, Regs(0x5738D5E1, 0x860D21CC, 0x681E6DF6, 0xD8FDF6AD, 0xD7B9DA25), 0x822E0879);
  }

  /** The digest of "abc". */
  lemma DigestOfAbc()
    ensures Sha1(ABC) == [0xA9, 0x99, 0x3E, 0x36, 0x47, 0x06, 0x81, 0x6A, 0xBA, 0x3E,
                          0x25, 0x71, 0x78, 0x50, 0xC2, 0x6C, 0x9C, 0xD0, 0xD8, 0x9D]
  {
    Compressed();
    Written(Regs(0xA9993E36, 0x4706816A, 0xBA3E2571, 0x7850C26C, 0x9CD0D89D));
    hide Absorb, Digest, Pad, ABC, IV;
  }

  lemma Compressed()
    ensures Absorb(IV, Pad(ABC)) == Regs(0xA9993E36, 0x4706816A, 0xBA3E2571, 0x7850C26C, 0x9CD0D89D)
  {
    Rounds80();
    var block := Pad(ABC);
    assert block[..64] == block && block[64..] == [];
    hide Rounds, Pad, ABC, W;
    assert Absorb(IV, block) == Absorb(Compress(IV, block), []) == Compress(IV, block);
  }

  lemma Written(r: Regs)
    requires r == Regs(0xA9993E36, 0x4706816A, 0xBA3E2571, 0x7850C26C, 0x9CD0D89D)
    ensures Digest(r) == [0xA9, 0x99, 0x3E, 0x36, 0x47, 0x06, 0x81, 0x6A, 0xBA, 0x3E,
                          0x25, 0x71, 0x78, 0x50, 0xC2, 0x6C, 0x9C, 0xD0, 0xD8, 0x9D]
  {}

  /** The initial value is the bytes 01, 23, .. EF, and back, FE .. 10, and F0 E1 D2 C3, the words little-endian. */
  lemma InitialBytes()
    ensures IV.a == BigEndian(0x67, 0x45, 0x23, 0x01) && IV.b == BigEndian(0xEF, 0xCD, 0xAB, 0x89)
    ensures IV.c == BigEndian(0x98, 0xBA, 0xDC, 0xFE) && IV.d == BigEndian(0x10, 0x32, 0x54, 0x76)
    ensures IV.e == BigEndian(0xC3, 0xD2, 0xE1, 0xF0)
  {}

  /** The constants of the rounds are 2^30 times the square roots of 2, 3, 5 and 10, cut to whole numbers. */
  lemma RoundConstants(t: nat)
    requires t < 80
    ensures K(t) == if t < 20 then 0x5A827999 else if t < 40 then 0x6ED9EBA1 else if t < 60 then 0x8F1BBCDC else 0xCA62C1D6
    ensures Root(0x5A827999, 2) && Root(0x6ED9EBA1, 3) && Root(0x8F1BBCDC, 5) && Root(0xCA62C1D6, 10)
  {}

  predicate Root(k: nat, n: nat) { k * k <= n * 0x1000_0000_0000_0000 < (k + 1) * (k + 1) }
}
