/** The test vectors of RFC 3174 and one of RFC 9562, worked out on the specification. They pin down the constants,
    functions, schedule, padding and order of octets. */
module Sha1Vectors {
  import opened Sha1Standard

  // ----- Working out the rounds of one block

  /** The sixteen words of the schedule from some place on. */
  datatype Window = Window(w0: bv32, w1: bv32, w2: bv32, w3: bv32, w4: bv32, w5: bv32, w6: bv32, w7: bv32,
                           w8: bv32, w9: bv32, w10: bv32, w11: bv32, w12: bv32, w13: bv32, w14: bv32, w15: bv32)

  datatype Engine = Engine(d: Digest, w: Window)

  /** The words of the block from the t-th on. */
  predicate WindowAt(m: Message, t: nat, w: Window)
    requires |m| == BLOCK_BYTES
  {
    && W(m, t) == w.w0 && W(m, t + 1) == w.w1 && W(m, t + 2) == w.w2 && W(m, t + 3) == w.w3
    && W(m, t + 4) == w.w4 && W(m, t + 5) == w.w5 && W(m, t + 6) == w.w6 && W(m, t + 7) == w.w7
    && W(m, t + 8) == w.w8 && W(m, t + 9) == w.w9 && W(m, t + 10) == w.w10 && W(m, t + 11) == w.w11
    && W(m, t + 12) == w.w12 && W(m, t + 13) == w.w13 && W(m, t + 14) == w.w14 && W(m, t + 15) == w.w15
  }

  /** A word of the block itself. */
  lemma OwnWord(m: Message, k: nat, b0: bv8, b1: bv8, b2: bv8, b3: bv8)
    requires |m| == BLOCK_BYTES && k < 16
    requires m[4 * k] == b0 && m[4 * k + 1] == b1 && m[4 * k + 2] == b2 && m[4 * k + 3] == b3
    ensures W(m, k) == WordOf(b0, b1, b2, b3)
  {
    hide WordOf;
  }

  predicate Runs(e: Engine, h: Digest, m: Message, t: nat)
    requires |m| == BLOCK_BYTES
  {
    e.d == Rounds(h, m, t) && WindowAt(m, t, e.w)
  }

  function NextWord(w: Window): bv32 {
    Scheduled(w.w13, w.w8, w.w2, w.w0)
  }

  function Shifted(w: Window): Window {
    Window(w.w1, w.w2, w.w3, w.w4, w.w5, w.w6, w.w7, w.w8, w.w9, w.w10, w.w11, w.w12, w.w13, w.w14, w.w15, NextWord(w))
  }

  function Turn(e: Engine, t: nat): Engine {
    Engine(Round(e.d, t, e.w.w0), Shifted(e.w))
  }

  function FiveTurns(e: Engine, t: nat): Engine {
    Turn(Turn(Turn(Turn(Turn(e, t), t + 1), t + 2), t + 3), t + 4)
  }

  lemma NextWordIsScheduled(m: Message, t: nat, w: Window)
    requires |m| == BLOCK_BYTES && WindowAt(m, t, w)
    ensures W(m, t + 16) == NextWord(w)
  {
    hide Scheduled;
    var u := t + 16;
    assert u - 3 == t + 13 && u - 8 == t + 8 && u - 14 == t + 2 && u - 16 == t;
    assert W(m, u) == Scheduled(W(m, u - 3), W(m, u - 8), W(m, u - 14), W(m, u - 16));
  }

  lemma TurnRuns(e: Engine, h: Digest, m: Message, t: nat)
    requires |m| == BLOCK_BYTES && Runs(e, h, m, t)
    ensures Runs(Turn(e, t), h, m, t + 1)
  {
    NextWordIsScheduled(m, t, e.w);
    hide W, NextWord, Round;
  }

  lemma FiveTurnsRun(e: Engine, h: Digest, m: Message, t: nat)
    requires |m| == BLOCK_BYTES && Runs(e, h, m, t)
    ensures Runs(FiveTurns(e, t), h, m, t + 5)
  {
    hide Runs, Turn;
    TurnRuns(e, h, m, t);
    TurnRuns(Turn(e, t), h, m, t + 1);
    TurnRuns(Turn(Turn(e, t), t + 1), h, m, t + 2);
    TurnRuns(Turn(Turn(Turn(e, t), t + 1), t + 2), h, m, t + 3);
    TurnRuns(Turn(Turn(Turn(Turn(e, t), t + 1), t + 2), t + 3), h, m, t + 4);
  }

  function TenTurns(e: Engine, t: nat): Engine {
    FiveTurns(FiveTurns(e, t), t + 5)
  }

  lemma TenTurnsRun(e: Engine, h: Digest, m: Message, t: nat)
    requires |m| == BLOCK_BYTES && Runs(e, h, m, t)
    ensures Runs(TenTurns(e, t), h, m, t + 10)
  {
    hide Runs, FiveTurns;
    FiveTurnsRun(e, h, m, t);
    FiveTurnsRun(FiveTurns(e, t), h, m, t + 5);
  }

  /** Eighty rounds, ten at a time. */
  lemma {:induction false} TracedRuns(trace: seq<Engine>, h: Digest, m: Message, n: nat)
    requires |m| == BLOCK_BYTES && n < |trace| && Runs(trace[0], h, m, 0)
    requires forall k | 0 <= k < |trace| - 1 :: TenTurns(trace[k], 10 * k) == trace[k + 1]
    ensures Runs(trace[n], h, m, 10 * n)
  {
    hide Runs, TenTurns;
    if n > 0 {
      TracedRuns(trace, h, m, n - 1);
      TenTurnsRun(trace[n - 1], h, m, 10 * (n - 1));
    }
  }

  lemma TracedCompress(trace: seq<Engine>, h: Digest, m: Message)
    requires |m| == BLOCK_BYTES && |trace| == 9 && Runs(trace[0], h, m, 0)
    requires forall k | 0 <= k < 8 :: TenTurns(trace[k], 10 * k) == trace[k + 1]
    ensures Compress(h, m) == Added(h, trace[8].d)
  {
    hide TenTurns, WindowAt;
    TracedRuns(trace, h, m, 8);
  }

  // ----- "abc"

  const ABC: Message :=
    [0x61, 0x62, 0x63]

  const ABC_BLOCK: Message :=
    [0x61, 0x62, 0x63, 0x80, 0x00, 0x00, 0x00, 0x00, 0x00, 0x00, 0x00, 0x00, 0x00, 0x00, 0x00, 0x00]
    + [0x00, 0x00, 0x00, 0x00, 0x00, 0x00, 0x00, 0x00, 0x00, 0x00, 0x00, 0x00, 0x00, 0x00, 0x00, 0x00]
    + [0x00, 0x00, 0x00, 0x00, 0x00, 0x00, 0x00, 0x00, 0x00, 0x00, 0x00, 0x00, 0x00, 0x00, 0x00, 0x00]
    + [0x00, 0x00, 0x00, 0x00, 0x00, 0x00, 0x00, 0x00, 0x00, 0x00, 0x00, 0x00, 0x00, 0x00, 0x00, 0x18]

  const ABC_00 := Engine(
    Digest(0x67452301, 0xEFCDAB89, 0x98BADCFE, 0x10325476, 0xC3D2E1F0),
    Window(0x61626380, 0x00000000, 0x00000000, 0x00000000, 0x00000000, 0x00000000, 0x00000000, 0x00000000,
           0x00000000, 0x00000000, 0x00000000, 0x00000000, 0x00000000, 0x00000000, 0x00000000, 0x00000018))

  const ABC_10 := Engine(
    Digest(0x8351F929, 0x4B6AE328, 0x27A301F5, 0x664F8C30, 0x0FF1F290),
    Window(0x00000000, 0x00000000, 0x00000000, 0x00000000, 0x00000000, 0x00000018, 0xC2C4C700, 0x00000000,
           0x00000030, 0x85898E01, 0x00000000, 0x00000060, 0x0B131C03, 0x00000030, 0x85898EC1, 0x16263806))

  const ABC_20 := Engine(
    Digest(0xFD9E1D7D, 0xDC64901D, 0x20AA99CA, 0xD3A49608, 0xC82F758B),
    Window(0x00000000, 0x00000060, 0x0B131C03, 0x00000030, 0x85898EC1, 0x16263806, 0x00000000, 0x00000180,
           0x2C4C700C, 0x000000F0, 0x93AFB507, 0x5898E048, 0x8E9A9202, 0x00000600, 0xB131C0F0, 0x16263BC6))

  const ABC_30 := Engine(
    Digest(0xC5FBAF5D, 0x8370B52E, 0xD2AA1365, 0x6F8D7EF5, 0x12104EE9),
    Window(0x93AFB507, 0x5898E048, 0x8E9A9202, 0x00000600, 0xB131C0F0, 0x16263BC6, 0x4EBED41E, 0x626380A1,
           0x16263806, 0x000018C0, 0xD2E138C4, 0x00000F00, 0x3AFB5079, 0x898E04E5, 0xE2BA3C2B, 0x000060C0))

  const ABC_40 := Engine(
    Digest(0x32DE1CBA, 0x4C986405, 0xF718E5CF, 0x03D447F6, 0xF72EEC32),
    Window(0xD2E138C4, 0x00000F00, 0x3AFB5079, 0x898E04E5, 0xE2BA3C2B, 0x000060C0, 0x053A37CD, 0x74458547,
           0xDA9415ED, 0x26380A16, 0x626383A1, 0x4EBF54DE, 0x3835B44B, 0x0000F600, 0x1E84C7A3, 0x98E04D98))

  const ABC_50 := Engine(
    Digest(0x120731C5, 0xBAF39337, 0xAFAB40B2, 0x2806E11B, 0x8714787C),
    Window(0x626383A1, 0x4EBF54DE, 0x3835B44B, 0x0000F600, 0x1E84C7A3, 0x98E04D98, 0x651D16A0, 0x62658CA1,
           0x458544D6, 0x44584CB7, 0x7BA06619, 0x6380AEA2, 0x0AE55269, 0x627B49A1, 0x7CD45C9D, 0x000F0000))

  const ABC_60 := Engine(
    Digest(0x3F52DE5A, 0x09D785FD, 0x3498BFD4, 0xF211824F, 0xD79915AB),
    Window(0x7BA06619, 0x6380AEA2, 0x0AE55269, 0x627B49A1, 0x7CD45C9D, 0x000F0000, 0xFB50753A, 0xEC6765E8,
           0xBA3C2BE2, 0x0060C000, 0x3A37CD05, 0x458546F4, 0xB8599DD6, 0x380A1A26, 0x01E02203, 0xE7CC3456))

  const ABC_70 := Engine(
    Digest(0x3F2588C2, 0x497093C0, 0xDE37534A, 0x030F7CAD, 0x4405957E),
    Window(0x3A37CD05, 0x458546F4, 0xB8599DD6, 0x380A1A26, 0x01E02203, 0xE7CC3456, 0xE6E60B69, 0x00F60A00,
           0x5795EF4F, 0x822E0879, 0x7E577CE2, 0x07EF2103, 0x8544E945, 0xEB39DAB8, 0xC205991A, 0x80AECB63))

  const ABC_80 := Engine(
    Digest(0x42541B35, 0x5738D5E1, 0x21834873, 0x681E6DF6, 0xD8FDF6AD),
    Window(0x7E577CE2, 0x07EF2103, 0x8544E945, 0xEB39DAB8, 0xC205991A, 0x80AECB63, 0x7D84CA48, 0x7B499B62,
           0x8E8010A8, 0x4B5B8A77, 0x3216B69A, 0x0507E88D, 0x705BEE96, 0x60C0FF00, 0xA28362D0, 0x1DA6B91D))

  const ABC_02 := Engine(
    Digest(0x8990536D, 0x0116FC33, 0x59D148C0, 0x7BF36AE2, 0x98BADCFE),
    Window(0x00000000, 0x00000000, 0x00000000, 0x00000000, 0x00000000, 0x00000000, 0x00000000, 0x00000000,
           0x00000000, 0x00000000, 0x00000000, 0x00000000, 0x00000000, 0x00000018, 0xC2C4C700, 0x00000000))

  const ABC_04 := Engine(
    Digest(0xCDD8E11B, 0xA1390F08, 0x626414DB, 0xC045BF0C, 0x59D148C0),
    Window(0x00000000, 0x00000000, 0x00000000, 0x00000000, 0x00000000, 0x00000000, 0x00000000, 0x00000000,
           0x00000000, 0x00000000, 0x00000000, 0x00000018, 0xC2C4C700, 0x00000000, 0x00000030, 0x85898E01))

  const ABC_05 := Engine(
    Digest(0xCFD499DE, 0xCDD8E11B, 0x284E43C2, 0x626414DB, 0xC045BF0C),
    Window(0x00000000, 0x00000000, 0x00000000, 0x00000000, 0x00000000, 0x00000000, 0x00000000, 0x00000000,
           0x00000000, 0x00000000, 0x00000018, 0xC2C4C700, 0x00000000, 0x00000030, 0x85898E01, 0x00000000))

  lemma AbcTurns00()
    ensures Turn(Turn(ABC_00, 0), 1) == ABC_02
  {
  }

  lemma AbcTurns02()
    ensures Turn(Turn(ABC_02, 2), 3) == ABC_04
  {
  }

  lemma AbcTurns04()
    ensures Turn(ABC_04, 4) == ABC_05
  {
  }

  lemma AbcTurns05()
    ensures FiveTurns(ABC_05, 5) == ABC_10
  {
  }

  lemma AbcRounds00()
    ensures TenTurns(ABC_00, 0) == ABC_10
  {
    hide Turn;
    AbcTurns00();
    AbcTurns02();
    AbcTurns04();
    AbcTurns05();
  }

  lemma AbcRounds10()
    ensures TenTurns(ABC_10, 10) == ABC_20
  {
  }

  lemma AbcRounds20()
    ensures TenTurns(ABC_20, 20) == ABC_30
  {
  }

  lemma AbcRounds30()
    ensures TenTurns(ABC_30, 30) == ABC_40
  {
  }

  lemma AbcRounds40()
    ensures TenTurns(ABC_40, 40) == ABC_50
  {
  }

  lemma AbcRounds50()
    ensures TenTurns(ABC_50, 50) == ABC_60
  {
  }

  lemma AbcRounds60()
    ensures TenTurns(ABC_60, 60) == ABC_70
  {
  }

  lemma AbcRounds70()
    ensures TenTurns(ABC_70, 70) == ABC_80
  {
  }

  lemma AbcWords00()
    ensures |ABC_BLOCK| == BLOCK_BYTES
    ensures W(ABC_BLOCK, 0) == 0x61626380 && W(ABC_BLOCK, 1) == 0x00000000
         && W(ABC_BLOCK, 2) == 0x00000000 && W(ABC_BLOCK, 3) == 0x00000000
  {
    hide W;
    OwnWord(ABC_BLOCK, 0, 0x61, 0x62, 0x63, 0x80);
    OwnWord(ABC_BLOCK, 1, 0x00, 0x00, 0x00, 0x00);
    OwnWord(ABC_BLOCK, 2, 0x00, 0x00, 0x00, 0x00);
    OwnWord(ABC_BLOCK, 3, 0x00, 0x00, 0x00, 0x00);
  }

  lemma AbcWords04()
    ensures |ABC_BLOCK| == BLOCK_BYTES
    ensures W(ABC_BLOCK, 4) == 0x00000000 && W(ABC_BLOCK, 5) == 0x00000000
         && W(ABC_BLOCK, 6) == 0x00000000 && W(ABC_BLOCK, 7) == 0x00000000
  {
    hide W;
    OwnWord(ABC_BLOCK, 4, 0x00, 0x00, 0x00, 0x00);
    OwnWord(ABC_BLOCK, 5, 0x00, 0x00, 0x00, 0x00);
    OwnWord(ABC_BLOCK, 6, 0x00, 0x00, 0x00, 0x00);
    OwnWord(ABC_BLOCK, 7, 0x00, 0x00, 0x00, 0x00);
  }

  lemma AbcWords08()
    ensures |ABC_BLOCK| == BLOCK_BYTES
    ensures W(ABC_BLOCK, 8) == 0x00000000 && W(ABC_BLOCK, 9) == 0x00000000
         && W(ABC_BLOCK, 10) == 0x00000000 && W(ABC_BLOCK, 11) == 0x00000000
  {
    hide W;
    OwnWord(ABC_BLOCK, 8, 0x00, 0x00, 0x00, 0x00);
    OwnWord(ABC_BLOCK, 9, 0x00, 0x00, 0x00, 0x00);
    OwnWord(ABC_BLOCK, 10, 0x00, 0x00, 0x00, 0x00);
    OwnWord(ABC_BLOCK, 11, 0x00, 0x00, 0x00, 0x00);
  }

  lemma AbcWords12()
    ensures |ABC_BLOCK| == BLOCK_BYTES
    ensures W(ABC_BLOCK, 12) == 0x00000000 && W(ABC_BLOCK, 13) == 0x00000000
         && W(ABC_BLOCK, 14) == 0x00000000 && W(ABC_BLOCK, 15) == 0x00000018
  {
    hide W;
    OwnWord(ABC_BLOCK, 12, 0x00, 0x00, 0x00, 0x00);
    OwnWord(ABC_BLOCK, 13, 0x00, 0x00, 0x00, 0x00);
    OwnWord(ABC_BLOCK, 14, 0x00, 0x00, 0x00, 0x00);
    OwnWord(ABC_BLOCK, 15, 0x00, 0x00, 0x00, 0x18);
  }

  lemma AbcStarts()
    ensures |ABC_BLOCK| == BLOCK_BYTES && WindowAt(ABC_BLOCK, 0, ABC_00.w)
  {
    hide W;
    AbcWords00();
    AbcWords04();
    AbcWords08();
    AbcWords12();
  }

  lemma AbcCompressed()
    ensures |ABC_BLOCK| == BLOCK_BYTES
    ensures Compress(ABC_00.d, ABC_BLOCK)
         == Digest(0xA9993E36, 0x4706816A, 0xBA3E2571, 0x7850C26C, 0x9CD0D89D)
  {
    AbcStarts();
    AbcRounds00();
    AbcRounds10();
    AbcRounds20();
    AbcRounds30();
    AbcRounds40();
    AbcRounds50();
    AbcRounds60();
    AbcRounds70();
    hide TenTurns, WindowAt, Compress;
    TracedCompress([ABC_00, ABC_10, ABC_20, ABC_30, ABC_40, ABC_50, ABC_60, ABC_70, ABC_80],
                   ABC_00.d, ABC_BLOCK);
  }


  // ----- The 56 octets of the second vector

  const LONG: Message :=
    [0x61, 0x62, 0x63, 0x64, 0x62, 0x63, 0x64, 0x65, 0x63, 0x64, 0x65, 0x66, 0x64, 0x65, 0x66, 0x67]
    + [0x65, 0x66, 0x67, 0x68, 0x66, 0x67, 0x68, 0x69, 0x67, 0x68, 0x69, 0x6A, 0x68, 0x69, 0x6A, 0x6B]
    + [0x69, 0x6A, 0x6B, 0x6C, 0x6A, 0x6B, 0x6C, 0x6D, 0x6B, 0x6C, 0x6D, 0x6E, 0x6C, 0x6D, 0x6E, 0x6F]
    + [0x6D, 0x6E, 0x6F, 0x70, 0x6E, 0x6F, 0x70, 0x71]

  const LONG_BLOCK1: Message :=
    [0x61, 0x62, 0x63, 0x64, 0x62, 0x63, 0x64, 0x65, 0x63, 0x64, 0x65, 0x66, 0x64, 0x65, 0x66, 0x67]
    + [0x65, 0x66, 0x67, 0x68, 0x66, 0x67, 0x68, 0x69, 0x67, 0x68, 0x69, 0x6A, 0x68, 0x69, 0x6A, 0x6B]
    + [0x69, 0x6A, 0x6B, 0x6C, 0x6A, 0x6B, 0x6C, 0x6D, 0x6B, 0x6C, 0x6D, 0x6E, 0x6C, 0x6D, 0x6E, 0x6F]
    + [0x6D, 0x6E, 0x6F, 0x70, 0x6E, 0x6F, 0x70, 0x71, 0x80, 0x00, 0x00, 0x00, 0x00, 0x00, 0x00, 0x00]

  const LONG1_00 := Engine(
    Digest(0x67452301, 0xEFCDAB89, 0x98BADCFE, 0x10325476, 0xC3D2E1F0),
    Window(0x61626364, 0x62636465, 0x63646566, 0x64656667, 0x65666768, 0x66676869, 0x6768696A, 0x68696A6B,
           0x696A6B6C, 0x6A6B6C6D, 0x6B6C6D6E, 0x6C6D6E6F, 0x6D6E6F70, 0x6E6F7071, 0x80000000, 0x00000000))

  const LONG1_10 := Engine(
    Digest(0x6350AFDA, 0xC565C35E, 0xD160CFC3, 0x36C132D6, 0x65AE1462),
    Window(0x6B6C6D6E, 0x6C6D6E6F, 0x6D6E6F70, 0x6E6F7071, 0x80000000, 0x00000000, 0x0A063A3E, 0xD8DADCDF,
           0xDADCDEC0, 0xC8D2B4BE, 0x6F757B5B, 0x757B5967, 0x8DA16D70, 0xDAEEFABA, 0xFAF6CAB6, 0xA6FB675A))

  const LONG1_20 := Engine(
    Digest(0x6C445652, 0x944B1BD1, 0x509AE70D, 0x1AC1A012, 0x5098DF8E),
    Window(0x6F757B5B, 0x757B5967, 0x8DA16D70, 0xDAEEFABA, 0xFAF6CAB6, 0xA6FB675A, 0x0C604CC8, 0x604CC02C,
           0x49C0E6E2, 0x2EE8CBBC, 0xCFD72EC4, 0x97E9810E, 0x0989CBE8, 0xF24843FE, 0x5C40D0BA, 0xA8D9CC3B))

  const LONG1_30 := Engine(
    Digest(0x05B457B2, 0xE1122421, 0x3549A991, 0xCA5CBDF1, 0x96850B06),
    Window(0xCFD72EC4, 0x97E9810E, 0x0989CBE8, 0xF24843FE, 0x5C40D0BA, 0xA8D9CC3B, 0xB2B9666E, 0xBA7B71B7,
           0x20B28A72, 0xB28AF500, 0x8AC87842, 0x289ADDF4, 0x56D51F21, 0xD96B7FD2, 0x3868E778, 0xAB5E4848))

  const LONG1_40 := Engine(
    Digest(0xADEB7478, 0x24957F22, 0x50FE1EBA, 0x564CFF26, 0xAADF0CBB),
    Window(0x8AC87842, 0x289ADDF4, 0x56D51F21, 0xD96B7FD2, 0x3868E778, 0xAB5E4848, 0x7F0E2118, 0xDE87A111,
           0xE8BE56B0, 0x1A0AE652, 0xCD5611C8, 0x46EF29DC, 0x60D3DA6D, 0xDDF3BA6E, 0x2737F5E9, 0x4888A710))

  const LONG1_50 := Engine(
    Digest(0x7E846F58, 0x88341600, 0x3229A424, 0xA8AB53C0, 0xB1BA8907),
    Window(0xCD5611C8, 0x46EF29DC, 0x60D3DA6D, 0xDDF3BA6E, 0x2737F5E9, 0x4888A710, 0xD2A1177B, 0x9999633B,
           0xD6C69D03, 0xCCF6127B, 0x7C58FE6D, 0xFDD99C68, 0xF8E32074, 0xE0BA3C7D, 0x152198D6, 0x7B3F1982))

  const LONG1_60 := Engine(
    Digest(0x9EF775C3, 0xF03D3782, 0xEB029E53, 0xE9A06DC8, 0x1DDB0E44),
    Window(0x7C58FE6D, 0xFDD99C68, 0xF8E32074, 0xE0BA3C7D, 0x152198D6, 0x7B3F1982, 0x37F2D5B7, 0x8596323E,
           0x810790D6, 0xBEA0A942, 0x11C7E1B1, 0x6158D101, 0x5FCD77D9, 0x7F2F12E6, 0xF868CFB1, 0xD6E997E9))

  const LONG1_70 := Engine(
    Digest(0xFDF6EFFF, 0x2C7B07BD, 0x5B45F27F, 0x452A0B6A, 0x440DF4B5),
    Window(0x11C7E1B1, 0x6158D101, 0x5FCD77D9, 0x7F2F12E6, 0xF868CFB1, 0xD6E997E9, 0xF526B852, 0xB7578DCC,
           0x55D99DF4, 0x1FF69958, 0x94936EE9, 0xA8BF495D, 0xA2D62710, 0xF298C4F8, 0x9AB300D1, 0x94F3A53F))

  const LONG1_80 := Engine(
    Digest(0x8CE34517, 0xD3AD7C25, 0x6B4E1883, 0x74351CD2, 0x86838382),
    Window(0x94936EE9, 0xA8BF495D, 0xA2D62710, 0xF298C4F8, 0x9AB300D1, 0x94F3A53F, 0xD2979EC9, 0x3664B4DD,
           0x4F8AE77D, 0xA7DCA537, 0x33F9C85D, 0xB9587341, 0x3B210081, 0x1F56F3EC, 0x550A3D2B, 0x7418C8B3))

  lemma Long1Rounds00()
    ensures TenTurns(LONG1_00, 0) == LONG1_10
  {
  }

  lemma Long1Rounds10()
    ensures TenTurns(LONG1_10, 10) == LONG1_20
  {
  }

  lemma Long1Rounds20()
    ensures TenTurns(LONG1_20, 20) == LONG1_30
  {
  }

  lemma Long1Rounds30()
    ensures TenTurns(LONG1_30, 30) == LONG1_40
  {
  }

  lemma Long1Rounds40()
    ensures TenTurns(LONG1_40, 40) == LONG1_50
  {
  }

  lemma Long1Rounds50()
    ensures TenTurns(LONG1_50, 50) == LONG1_60
  {
  }

  lemma Long1Rounds60()
    ensures TenTurns(LONG1_60, 60) == LONG1_70
  {
  }

  lemma Long1Rounds70()
    ensures TenTurns(LONG1_70, 70) == LONG1_80
  {
  }

  lemma Long1Words00()
    ensures |LONG_BLOCK1| == BLOCK_BYTES
    ensures W(LONG_BLOCK1, 0) == 0x61626364 && W(LONG_BLOCK1, 1) == 0x62636465
         && W(LONG_BLOCK1, 2) == 0x63646566 && W(LONG_BLOCK1, 3) == 0x64656667
  {
    hide W;
    OwnWord(LONG_BLOCK1, 0, 0x61, 0x62, 0x63, 0x64);
    OwnWord(LONG_BLOCK1, 1, 0x62, 0x63, 0x64, 0x65);
    OwnWord(LONG_BLOCK1, 2, 0x63, 0x64, 0x65, 0x66);
    OwnWord(LONG_BLOCK1, 3, 0x64, 0x65, 0x66, 0x67);
  }

  lemma Long1Words04()
    ensures |LONG_BLOCK1| == BLOCK_BYTES
    ensures W(LONG_BLOCK1, 4) == 0x65666768 && W(LONG_BLOCK1, 5) == 0x66676869
         && W(LONG_BLOCK1, 6) == 0x6768696A && W(LONG_BLOCK1, 7) == 0x68696A6B
  {
    hide W;
    OwnWord(LONG_BLOCK1, 4, 0x65, 0x66, 0x67, 0x68);
    OwnWord(LONG_BLOCK1, 5, 0x66, 0x67, 0x68, 0x69);
    OwnWord(LONG_BLOCK1, 6, 0x67, 0x68, 0x69, 0x6A);
    OwnWord(LONG_BLOCK1, 7, 0x68, 0x69, 0x6A, 0x6B);
  }

  lemma Long1Words08()
    ensures |LONG_BLOCK1| == BLOCK_BYTES
    ensures W(LONG_BLOCK1, 8) == 0x696A6B6C && W(LONG_BLOCK1, 9) == 0x6A6B6C6D
         && W(LONG_BLOCK1, 10) == 0x6B6C6D6E && W(LONG_BLOCK1, 11) == 0x6C6D6E6F
  {
    hide W;
    OwnWord(LONG_BLOCK1, 8, 0x69, 0x6A, 0x6B, 0x6C);
    OwnWord(LONG_BLOCK1, 9, 0x6A, 0x6B, 0x6C, 0x6D);
    OwnWord(LONG_BLOCK1, 10, 0x6B, 0x6C, 0x6D, 0x6E);
    OwnWord(LONG_BLOCK1, 11, 0x6C, 0x6D, 0x6E, 0x6F);
  }

  lemma Long1Words12()
    ensures |LONG_BLOCK1| == BLOCK_BYTES
    ensures W(LONG_BLOCK1, 12) == 0x6D6E6F70 && W(LONG_BLOCK1, 13) == 0x6E6F7071
         && W(LONG_BLOCK1, 14) == 0x80000000 && W(LONG_BLOCK1, 15) == 0x00000000
  {
    hide W;
    OwnWord(LONG_BLOCK1, 12, 0x6D, 0x6E, 0x6F, 0x70);
    OwnWord(LONG_BLOCK1, 13, 0x6E, 0x6F, 0x70, 0x71);
    OwnWord(LONG_BLOCK1, 14, 0x80, 0x00, 0x00, 0x00);
    OwnWord(LONG_BLOCK1, 15, 0x00, 0x00, 0x00, 0x00);
  }

  lemma Long1Starts()
    ensures |LONG_BLOCK1| == BLOCK_BYTES && WindowAt(LONG_BLOCK1, 0, LONG1_00.w)
  {
    hide W;
    Long1Words00();
    Long1Words04();
    Long1Words08();
    Long1Words12();
  }

  lemma Long1Compressed()
    ensures |LONG_BLOCK1| == BLOCK_BYTES
    ensures Compress(LONG1_00.d, LONG_BLOCK1)
         == Digest(0xF4286818, 0xC37B27AE, 0x0408F581, 0x84677148, 0x4A566572)
  {
    Long1Starts();
    Long1Rounds00();
    Long1Rounds10();
    Long1Rounds20();
    Long1Rounds30();
    Long1Rounds40();
    Long1Rounds50();
    Long1Rounds60();
    Long1Rounds70();
    hide TenTurns, WindowAt, Compress;
    TracedCompress([LONG1_00, LONG1_10, LONG1_20, LONG1_30, LONG1_40, LONG1_50, LONG1_60, LONG1_70, LONG1_80],
                   LONG1_00.d, LONG_BLOCK1);
  }

  const LONG_BLOCK2: Message :=
    [0x00, 0x00, 0x00, 0x00, 0x00, 0x00, 0x00, 0x00, 0x00, 0x00, 0x00, 0x00, 0x00, 0x00, 0x00, 0x00]
    + [0x00, 0x00, 0x00, 0x00, 0x00, 0x00, 0x00, 0x00, 0x00, 0x00, 0x00, 0x00, 0x00, 0x00, 0x00, 0x00]
    + [0x00, 0x00, 0x00, 0x00, 0x00, 0x00, 0x00, 0x00, 0x00, 0x00, 0x00, 0x00, 0x00, 0x00, 0x00, 0x00]
    + [0x00, 0x00, 0x00, 0x00, 0x00, 0x00, 0x00, 0x00, 0x00, 0x00, 0x00, 0x00, 0x00, 0x00, 0x01, 0xC0]

  const LONG2_00 := Engine(
    Digest(0xF4286818, 0xC37B27AE, 0x0408F581, 0x84677148, 0x4A566572),
    Window(0x00000000, 0x00000000, 0x00000000, 0x00000000, 0x00000000, 0x00000000, 0x00000000, 0x00000000,
           0x00000000, 0x00000000, 0x00000000, 0x00000000, 0x00000000, 0x00000000, 0x00000000, 0x000001C0))

  const LONG2_10 := Engine(
    Digest(0xB8538ACA, 0xFDDE1DE1, 0xF1A51A04, 0xF9FE80DD, 0x1510E457),
    Window(0x00000000, 0x00000000, 0x00000000, 0x00000000, 0x00000000, 0x000001C0, 0x00000000, 0x00000000,
           0x00000380, 0x00000000, 0x00000000, 0x00000700, 0x00000000, 0x00000380, 0x00000E00, 0x00000000))

  const LONG2_20 := Engine(
    Digest(0xD8992153, 0xC2EB709F, 0x2946D62F, 0x9541F6DB, 0x365DC8D8),
    Window(0x00000000, 0x00000700, 0x00000000, 0x00000380, 0x00000E00, 0x00000000, 0x00000000, 0x00001C00,
           0x00000000, 0x00000D80, 0x00003800, 0x00000480, 0x00000000, 0x00007000, 0x00000E00, 0x00003600))

  const LONG2_30 := Engine(
    Digest(0x0A2FB108, 0x2429BE5F, 0xD7105B6B, 0x142F390D, 0x7BB14148),
    Window(0x00003800, 0x00000480, 0x00000000, 0x00007000, 0x00000E00, 0x00003600, 0x0000E000, 0x00000E00,
           0x00000000, 0x0001CE00, 0x00000000, 0x0000D800, 0x00038000, 0x00004F00, 0x00000000, 0x00070E00))

  const LONG2_40 := Engine(
    Digest(0x03BB6310, 0x84E2A5F2, 0x21F56E03, 0xB3BD6B84, 0x1A5B6901),
    Window(0x00000000, 0x0000D800, 0x00038000, 0x00004F00, 0x00000000, 0x00070E00, 0x0000EE00, 0x00037500,
           0x000E0000, 0x0000E000, 0x00003600, 0x001CEE00, 0x00000000, 0x000DF000, 0x00380000, 0x0004C600))

  const LONG2_50 := Engine(
    Digest(0x850D411C, 0xDC8E7F26, 0x11BE4EDA, 0x9CC5815A, 0xB0F40CFA),
    Window(0x00003600, 0x001CEE00, 0x00000000, 0x000DF000, 0x00380000, 0x0004C600, 0x0000E000, 0x0070EE00,
           0x000EE000, 0x00369E00, 0x00E00000, 0x000ED600, 0x0000E000, 0x01CEA600, 0x00000000, 0x00D80000))

  const LONG2_60 := Engine(
    Digest(0xA65818F7, 0x5B086C42, 0xB9E15956, 0xEA1256A6, 0xDB69CB9F),
    Window(0x00E00000, 0x000ED600, 0x0000E000, 0x01CEA600, 0x00000000, 0x00D80000, 0x0380E000, 0x004F0000,
           0x00000000, 0x070E0000, 0x00EE0000, 0x03751C00, 0x0E000000, 0x00E0E000, 0x00363800, 0x1CEE9000))

  const LONG2_70 := Engine(
    Digest(0x989DD165, 0x76C0563B, 0xFD889AEF, 0xC20FA430, 0x62DA1E06),
    Window(0x00EE0000, 0x03751C00, 0x0E000000, 0x00E0E000, 0x00363800, 0x1CEE9000, 0x00000000, 0x0DF09000,
           0x3800E000, 0x04C77400, 0x00E0E000, 0x70EE0000, 0x0EE35800, 0x369EE000, 0xE0000000, 0x0ED1A800))

  const LONG2_80 := Engine(
    Digest(0x906FD62C, 0x58C0AAC0, 0xB6A55520, 0x74E9B89D, 0x9AF00B7F),
    Window(0x00E0E000, 0x70EE0000, 0x0EE35800, 0x369EE000, 0xE0000000, 0x0ED1A800, 0x00E00000, 0xCEA51001,
           0x000EE000, 0xD800E000, 0x80E0E003, 0x4F1C0000, 0x00000000, 0x0E0D5807, 0xEE380000, 0x7518C803))

  const LONG2_02 := Engine(
    Digest(0x4D3DC58F, 0x2DF257E9, 0x3D0A1A06, 0xB0DEC9EB, 0x0408F581),
    Window(0x00000000, 0x00000000, 0x00000000, 0x00000000, 0x00000000, 0x00000000, 0x00000000, 0x00000000,
           0x00000000, 0x00000000, 0x00000000, 0x00000000, 0x00000000, 0x000001C0, 0x00000000, 0x00000000))

  const LONG2_04 := Engine(
    Digest(0xEEF743C6, 0xC352BB05, 0xD34F7163, 0x4B7C95FA, 0x3D0A1A06),
    Window(0x00000000, 0x00000000, 0x00000000, 0x00000000, 0x00000000, 0x00000000, 0x00000000, 0x00000000,
           0x00000000, 0x00000000, 0x00000000, 0x000001C0, 0x00000000, 0x00000000, 0x00000380, 0x00000000))

  const LONG2_05 := Engine(
    Digest(0x41E34277, 0xEEF743C6, 0x70D4AEC1, 0xD34F7163, 0x4B7C95FA),
    Window(0x00000000, 0x00000000, 0x00000000, 0x00000000, 0x00000000, 0x00000000, 0x00000000, 0x00000000,
           0x00000000, 0x00000000, 0x000001C0, 0x00000000, 0x00000000, 0x00000380, 0x00000000, 0x00000000))

  lemma Long2Turns00()
    ensures Turn(Turn(LONG2_00, 0), 1) == LONG2_02
  {
  }

  lemma Long2Turns02()
    ensures Turn(Turn(LONG2_02, 2), 3) == LONG2_04
  {
  }

  lemma Long2Turns04()
    ensures Turn(LONG2_04, 4) == LONG2_05
  {
  }

  lemma Long2Turns05()
    ensures FiveTurns(LONG2_05, 5) == LONG2_10
  {
  }

  lemma Long2Rounds00()
    ensures TenTurns(LONG2_00, 0) == LONG2_10
  {
    hide Turn;
    Long2Turns00();
    Long2Turns02();
    Long2Turns04();
    Long2Turns05();
  }

  lemma Long2Rounds10()
    ensures TenTurns(LONG2_10, 10) == LONG2_20
  {
  }

  lemma Long2Rounds20()
    ensures TenTurns(LONG2_20, 20) == LONG2_30
  {
  }

  lemma Long2Rounds30()
    ensures TenTurns(LONG2_30, 30) == LONG2_40
  {
  }

  lemma Long2Rounds40()
    ensures TenTurns(LONG2_40, 40) == LONG2_50
  {
  }

  lemma Long2Rounds50()
    ensures TenTurns(LONG2_50, 50) == LONG2_60
  {
  }

  lemma Long2Rounds60()
    ensures TenTurns(LONG2_60, 60) == LONG2_70
  {
  }

  lemma Long2Rounds70()
    ensures TenTurns(LONG2_70, 70) == LONG2_80
  {
  }

  lemma Long2Words00()
    ensures |LONG_BLOCK2| == BLOCK_BYTES
    ensures W(LONG_BLOCK2, 0) == 0x00000000 && W(LONG_BLOCK2, 1) == 0x00000000
         && W(LONG_BLOCK2, 2) == 0x00000000 && W(LONG_BLOCK2, 3) == 0x00000000
  {
    hide W;
    OwnWord(LONG_BLOCK2, 0, 0x00, 0x00, 0x00, 0x00);
    OwnWord(LONG_BLOCK2, 1, 0x00, 0x00, 0x00, 0x00);
    OwnWord(LONG_BLOCK2, 2, 0x00, 0x00, 0x00, 0x00);
    OwnWord(LONG_BLOCK2, 3, 0x00, 0x00, 0x00, 0x00);
  }

  lemma Long2Words04()
    ensures |LONG_BLOCK2| == BLOCK_BYTES
    ensures W(LONG_BLOCK2, 4) == 0x00000000 && W(LONG_BLOCK2, 5) == 0x00000000
         && W(LONG_BLOCK2, 6) == 0x00000000 && W(LONG_BLOCK2, 7) == 0x00000000
  {
    hide W;
    OwnWord(LONG_BLOCK2, 4, 0x00, 0x00, 0x00, 0x00);
    OwnWord(LONG_BLOCK2, 5, 0x00, 0x00, 0x00, 0x00);
    OwnWord(LONG_BLOCK2, 6, 0x00, 0x00, 0x00, 0x00);
    OwnWord(LONG_BLOCK2, 7, 0x00, 0x00, 0x00, 0x00);
  }

  lemma Long2Words08()
    ensures |LONG_BLOCK2| == BLOCK_BYTES
    ensures W(LONG_BLOCK2, 8) == 0x00000000 && W(LONG_BLOCK2, 9) == 0x00000000
         && W(LONG_BLOCK2, 10) == 0x00000000 && W(LONG_BLOCK2, 11) == 0x00000000
  {
    hide W;
    OwnWord(LONG_BLOCK2, 8, 0x00, 0x00, 0x00, 0x00);
    OwnWord(LONG_BLOCK2, 9, 0x00, 0x00, 0x00, 0x00);
    OwnWord(LONG_BLOCK2, 10, 0x00, 0x00, 0x00, 0x00);
    OwnWord(LONG_BLOCK2, 11, 0x00, 0x00, 0x00, 0x00);
  }

  lemma Long2Words12()
    ensures |LONG_BLOCK2| == BLOCK_BYTES
    ensures W(LONG_BLOCK2, 12) == 0x00000000 && W(LONG_BLOCK2, 13) == 0x00000000
         && W(LONG_BLOCK2, 14) == 0x00000000 && W(LONG_BLOCK2, 15) == 0x000001C0
  {
    hide W;
    OwnWord(LONG_BLOCK2, 12, 0x00, 0x00, 0x00, 0x00);
    OwnWord(LONG_BLOCK2, 13, 0x00, 0x00, 0x00, 0x00);
    OwnWord(LONG_BLOCK2, 14, 0x00, 0x00, 0x00, 0x00);
    OwnWord(LONG_BLOCK2, 15, 0x00, 0x00, 0x01, 0xC0);
  }

  lemma Long2Starts()
    ensures |LONG_BLOCK2| == BLOCK_BYTES && WindowAt(LONG_BLOCK2, 0, LONG2_00.w)
  {
    hide W;
    Long2Words00();
    Long2Words04();
    Long2Words08();
    Long2Words12();
  }

  lemma Long2Compressed()
    ensures |LONG_BLOCK2| == BLOCK_BYTES
    ensures Compress(LONG2_00.d, LONG_BLOCK2)
         == Digest(0x84983E44, 0x1C3BD26E, 0xBAAE4AA1, 0xF95129E5, 0xE54670F1)
  {
    Long2Starts();
    Long2Rounds00();
    Long2Rounds10();
    Long2Rounds20();
    Long2Rounds30();
    Long2Rounds40();
    Long2Rounds50();
    Long2Rounds60();
    Long2Rounds70();
    hide TenTurns, WindowAt, Compress;
    TracedCompress([LONG2_00, LONG2_10, LONG2_20, LONG2_30, LONG2_40, LONG2_50, LONG2_60, LONG2_70, LONG2_80],
                   LONG2_00.d, LONG_BLOCK2);
  }


  // ----- The DNS name space and "www.example.com"

  const NAMED: Message :=
    [0x6B, 0xA7, 0xB8, 0x10, 0x9D, 0xAD, 0x11, 0xD1, 0x80, 0xB4, 0x00, 0xC0, 0x4F, 0xD4, 0x30, 0xC8]
    + [0x77, 0x77, 0x77, 0x2E, 0x65, 0x78, 0x61, 0x6D, 0x70, 0x6C, 0x65, 0x2E, 0x63, 0x6F, 0x6D]

  const NAMED_BLOCK: Message :=
    [0x6B, 0xA7, 0xB8, 0x10, 0x9D, 0xAD, 0x11, 0xD1, 0x80, 0xB4, 0x00, 0xC0, 0x4F, 0xD4, 0x30, 0xC8]
    + [0x77, 0x77, 0x77, 0x2E, 0x65, 0x78, 0x61, 0x6D, 0x70, 0x6C, 0x65, 0x2E, 0x63, 0x6F, 0x6D, 0x80]
    + [0x00, 0x00, 0x00, 0x00, 0x00, 0x00, 0x00, 0x00, 0x00, 0x00, 0x00, 0x00, 0x00, 0x00, 0x00, 0x00]
    + [0x00, 0x00, 0x00, 0x00, 0x00, 0x00, 0x00, 0x00, 0x00, 0x00, 0x00, 0x00, 0x00, 0x00, 0x00, 0xF8]

  const NAMED_00 := Engine(
    Digest(0x67452301, 0xEFCDAB89, 0x98BADCFE, 0x10325476, 0xC3D2E1F0),
    Window(0x6BA7B810, 0x9DAD11D1, 0x80B400C0, 0x4FD430C8, 0x7777772E, 0x6578616D, 0x706C652E, 0x636F6D80,
           0x00000000, 0x00000000, 0x00000000, 0x00000000, 0x00000000, 0x00000000, 0x00000000, 0x000000F8))

  const NAMED_10 := Engine(
    Digest(0xA5DDF865, 0x0F582AB4, 0x3388F942, 0xF4B62E6A, 0xB3F1745E),
    Window(0x00000000, 0x00000000, 0x00000000, 0x00000000, 0x00000000, 0x000000F8, 0xD62771A1, 0xA4F24233,
           0xEF86EE2D, 0xF9164009, 0x47D2A067, 0xD323C581, 0x12F44A4F, 0x497B9A3E, 0x0A096840, 0x6C0C10F9))

  const NAMED_20 := Engine(
    Digest(0x9459308A, 0xF26D6A67, 0xD8968D88, 0x45ADDB3A, 0x654C87FB),
    Window(0x47D2A067, 0xD323C581, 0x12F44A4F, 0x497B9A3E, 0x0A096840, 0x6C0C10F9, 0x4DFAE827, 0xE63E5093,
           0x57BD613C, 0x3DB25ABD, 0x45DAD6FA, 0x74697393, 0x1C355AE2, 0xE8658872, 0x238FABFD, 0xA07D1FF3))

  const NAMED_30 := Engine(
    Digest(0xCD716B6A, 0xA370C9EA, 0x9D088C8F, 0xE7759918, 0x7C6EF050),
    Window(0x45DAD6FA, 0x74697393, 0x1C355AE2, 0xE8658872, 0x238FABFD, 0xA07D1FF3, 0xD5FC06CD, 0x08CB5DFF,
           0xFAB5D60D, 0x09C5FF33, 0xA61B0EF4, 0x31C43C2B, 0x601BBBAA, 0xBBD43653, 0xECBF1A41, 0x42179EF6))

  const NAMED_40 := Engine(
    Digest(0x8D6ECBDD, 0x74C8917E, 0x1277FAB4, 0xC4AAA289, 0xBA7A19BD),
    Window(0xA61B0EF4, 0x31C43C2B, 0x601BBBAA, 0xBBD43653, 0xECBF1A41, 0x42179EF6, 0x311CD88C, 0xF2EC3D26,
           0xB76CC23B, 0x9180E64C, 0xC9085778, 0x481D6CC9, 0xA4EC599A, 0x1422D685, 0x4B5ED978, 0xDC034F48))

  const NAMED_50 := Engine(
    Digest(0x3673AC36, 0x74E3BFCC, 0xAC036BFA, 0xC3C688C0, 0xA11E5F6B),
    Window(0xC9085778, 0x481D6CC9, 0xA4EC599A, 0x1422D685, 0x4B5ED978, 0xDC034F48, 0xCA9D43C0, 0xA19C6A98,
           0x335F73B7, 0xF6870F58, 0xB1A7E39F, 0x2F0C0DC5, 0x7753992E, 0x1D90EF7A, 0x37EBB68D, 0x1EA4F266))

  const NAMED_60 := Engine(
    Digest(0xF7AD0E81, 0xF7E0D38B, 0x55B12FD8, 0x77AE042B, 0x781D816E),
    Window(0xB1A7E39F, 0x2F0C0DC5, 0x7753992E, 0x1D90EF7A, 0x37EBB68D, 0x1EA4F266, 0x8657245E, 0x3AA60733,
           0x81632236, 0xC2F560AC, 0x986C094B, 0xC2D9D139, 0x19B9CCAC, 0xA3A73DDB, 0x8CECCA9F, 0xF5299205))

  const NAMED_70 := Engine(
    Digest(0xEEC27222, 0x63B5826B, 0xB810CF8A, 0x90AF3D89, 0x9B564FB2),
    Window(0x986C094B, 0xC2D9D139, 0x19B9CCAC, 0xA3A73DDB, 0x8CECCA9F, 0xF5299205, 0xC860CAB9, 0xF90A9118,
           0x5BFB69DA, 0x131A0D38, 0xA21F9ECE, 0xB8BD42A9, 0x3185839F, 0x5ECAD6A9, 0xD3A546DA, 0x91474625))

  const NAMED_80 := Engine(
    Digest(0xC791427C, 0xF9599B02, 0xBD264967, 0x987C522C, 0x6A1B5C45),
    Window(0xA21F9ECE, 0xB8BD42A9, 0x3185839F, 0x5ECAD6A9, 0xD3A546DA, 0x91474625, 0x09C8F529, 0x43834E01,
           0x4C1BBDB1, 0xCFF630BD, 0x6D159B70, 0x3DE4D00A, 0x1F91AA09, 0x2C8482EA, 0x9B91A46F, 0xEF6B5733))

  lemma NamedRounds00()
    ensures TenTurns(NAMED_00, 0) == NAMED_10
  {
  }

  lemma NamedRounds10()
    ensures TenTurns(NAMED_10, 10) == NAMED_20
  {
  }

  lemma NamedRounds20()
    ensures TenTurns(NAMED_20, 20) == NAMED_30
  {
  }

  lemma NamedRounds30()
    ensures TenTurns(NAMED_30, 30) == NAMED_40
  {
  }

  lemma NamedRounds40()
    ensures TenTurns(NAMED_40, 40) == NAMED_50
  {
  }

  lemma NamedRounds50()
    ensures TenTurns(NAMED_50, 50) == NAMED_60
  {
  }

  lemma NamedRounds60()
    ensures TenTurns(NAMED_60, 60) == NAMED_70
  {
  }

  lemma NamedRounds70()
    ensures TenTurns(NAMED_70, 70) == NAMED_80
  {
  }

  lemma NamedWords00()
    ensures |NAMED_BLOCK| == BLOCK_BYTES
    ensures W(NAMED_BLOCK, 0) == 0x6BA7B810 && W(NAMED_BLOCK, 1) == 0x9DAD11D1
         && W(NAMED_BLOCK, 2) == 0x80B400C0 && W(NAMED_BLOCK, 3) == 0x4FD430C8
  {
    hide W;
    OwnWord(NAMED_BLOCK, 0, 0x6B, 0xA7, 0xB8, 0x10);
    OwnWord(NAMED_BLOCK, 1, 0x9D, 0xAD, 0x11, 0xD1);
    OwnWord(NAMED_BLOCK, 2, 0x80, 0xB4, 0x00, 0xC0);
    OwnWord(NAMED_BLOCK, 3, 0x4F, 0xD4, 0x30, 0xC8);
  }

  lemma NamedWords04()
    ensures |NAMED_BLOCK| == BLOCK_BYTES
    ensures W(NAMED_BLOCK, 4) == 0x7777772E && W(NAMED_BLOCK, 5) == 0x6578616D
         && W(NAMED_BLOCK, 6) == 0x706C652E && W(NAMED_BLOCK, 7) == 0x636F6D80
  {
    hide W;
    OwnWord(NAMED_BLOCK, 4, 0x77, 0x77, 0x77, 0x2E);
    OwnWord(NAMED_BLOCK, 5, 0x65, 0x78, 0x61, 0x6D);
    OwnWord(NAMED_BLOCK, 6, 0x70, 0x6C, 0x65, 0x2E);
    OwnWord(NAMED_BLOCK, 7, 0x63, 0x6F, 0x6D, 0x80);
  }

  lemma NamedWords08()
    ensures |NAMED_BLOCK| == BLOCK_BYTES
    ensures W(NAMED_BLOCK, 8) == 0x00000000 && W(NAMED_BLOCK, 9) == 0x00000000
         && W(NAMED_BLOCK, 10) == 0x00000000 && W(NAMED_BLOCK, 11) == 0x00000000
  {
    hide W;
    OwnWord(NAMED_BLOCK, 8, 0x00, 0x00, 0x00, 0x00);
    OwnWord(NAMED_BLOCK, 9, 0x00, 0x00, 0x00, 0x00);
    OwnWord(NAMED_BLOCK, 10, 0x00, 0x00, 0x00, 0x00);
    OwnWord(NAMED_BLOCK, 11, 0x00, 0x00, 0x00, 0x00);
  }

  lemma NamedWords12()
    ensures |NAMED_BLOCK| == BLOCK_BYTES
    ensures W(NAMED_BLOCK, 12) == 0x00000000 && W(NAMED_BLOCK, 13) == 0x00000000
         && W(NAMED_BLOCK, 14) == 0x00000000 && W(NAMED_BLOCK, 15) == 0x000000F8
  {
    hide W;
    OwnWord(NAMED_BLOCK, 12, 0x00, 0x00, 0x00, 0x00);
    OwnWord(NAMED_BLOCK, 13, 0x00, 0x00, 0x00, 0x00);
    OwnWord(NAMED_BLOCK, 14, 0x00, 0x00, 0x00, 0x00);
    OwnWord(NAMED_BLOCK, 15, 0x00, 0x00, 0x00, 0xF8);
  }

  lemma NamedStarts()
    ensures |NAMED_BLOCK| == BLOCK_BYTES && WindowAt(NAMED_BLOCK, 0, NAMED_00.w)
  {
    hide W;
    NamedWords00();
    NamedWords04();
    NamedWords08();
    NamedWords12();
  }

  lemma NamedCompressed()
    ensures |NAMED_BLOCK| == BLOCK_BYTES
    ensures Compress(NAMED_00.d, NAMED_BLOCK)
         == Digest(0x2ED6657D, 0xE927468B, 0x55E12665, 0xA8AEA6A2, 0x2DEE3E35)
  {
    NamedStarts();
    NamedRounds00();
    NamedRounds10();
    NamedRounds20();
    NamedRounds30();
    NamedRounds40();
    NamedRounds50();
    NamedRounds60();
    NamedRounds70();
    hide TenTurns, WindowAt, Compress;
    TracedCompress([NAMED_00, NAMED_10, NAMED_20, NAMED_30, NAMED_40, NAMED_50, NAMED_60, NAMED_70, NAMED_80],
                   NAMED_00.d, NAMED_BLOCK);
  }

  // ----- The vectors

  /** Section 7.3 of RFC 3174, TEST1. */
  lemma AbcDigest()
    ensures DigestBytes(Sha1(ABC))
         == [0xA9, 0x99, 0x3E, 0x36, 0x47, 0x06, 0x81, 0x6A, 0xBA, 0x3E,
          0x25, 0x71, 0x78, 0x50, 0xC2, 0x6C, 0x9C, 0xD0, 0xD8, 0x9D]
  {
    AbcPadded();
    AbcCompressed();
    hide Compress, Pad;
    assert Blocks(ABC_BLOCK, 1) == Compress(Blocks(ABC_BLOCK, 0), Block(ABC_BLOCK, 0));
    assert Block(ABC_BLOCK, 0) == ABC_BLOCK;
  }

  lemma AbcPadded()
    ensures Pad(ABC) == ABC_BLOCK
  {
    AbcLength();
    hide BigEndian32;
  }

  lemma AbcLength()
    ensures BigEndian32(0) == [0, 0, 0, 0] && BigEndian32(24) == [0, 0, 0, 0x18]
  {
  }

  lemma LongBlocks(m: Message)
    requires m == LONG_BLOCK1 + LONG_BLOCK2
    ensures |m| == 2 * BLOCK_BYTES && SoFar(m) == Digest(0x84983E44, 0x1C3BD26E, 0xBAAE4AA1, 0xF95129E5, 0xE54670F1)
  {
    Long1Compressed();
    Long2Compressed();
    hide Compress;
    assert Block(m, 0) == LONG_BLOCK1 && Block(m, 1) == LONG_BLOCK2;
    assert Blocks(m, 1) == Compress(Blocks(m, 0), Block(m, 0));
    assert Blocks(m, 2) == Compress(Blocks(m, 1), Block(m, 1));
  }

  /** Section 7.3 of RFC 3174, TEST2a. */
  lemma LongDigest()
    ensures DigestBytes(Sha1(LONG))
         == [0x84, 0x98, 0x3E, 0x44, 0x1C, 0x3B, 0xD2, 0x6E, 0xBA, 0xAE,
          0x4A, 0xA1, 0xF9, 0x51, 0x29, 0xE5, 0xE5, 0x46, 0x70, 0xF1]
  {
    LongPadded();
    hide Compress, Pad, SoFar;
    LongBlocks(Pad(LONG));
  }

  lemma LongPadded()
    ensures Pad(LONG) == LONG_BLOCK1 + LONG_BLOCK2
  {
    LongLength();
    hide BigEndian32;
    assert Zeros(Gap(56)) == Zeros(7) + Zeros(56);
    LongFirstBlock();
    LongSecondBlock();
    assert Pad(LONG) == (LONG + [0x80] + Zeros(7)) + (Zeros(56) + BigEndian32(0) + BigEndian32(448));
  }

  lemma LongFirstBlock()
    ensures |LONG| == 56 && LONG_BLOCK1 == LONG + [0x80] + Zeros(7)
  {
  }

  lemma LongSecondBlock()
    ensures LONG_BLOCK2 == Zeros(56) + [0, 0, 0, 0] + [0, 0, 0x01, 0xC0]
  {
  }

  lemma LongLength()
    ensures BigEndian32(0) == [0, 0, 0, 0] && BigEndian32(448) == [0, 0, 0x01, 0xC0]
  {
    assert OctetOf(448, 0) == 0xC0 && OctetOf(1, 0) == 0x01 && OctetOf(0, 0) == 0;
    assert OctetOf(448, 1) == OctetOf(1, 0);
    assert OctetOf(448, 2) == OctetOf(1, 1) == OctetOf(0, 0);
    assert OctetOf(448, 3) == OctetOf(1, 2) == OctetOf(0, 1) == OctetOf(0, 0);
  }

  /** The hash behind the name-based UUID of appendix A.4 of RFC 9562. */
  lemma NamedDigest()
    ensures DigestBytes(Sha1(NAMED))
         == [0x2E, 0xD6, 0x65, 0x7D, 0xE9, 0x27, 0x46, 0x8B, 0x55, 0xE1,
          0x26, 0x65, 0xA8, 0xAE, 0xA6, 0xA2, 0x2D, 0xEE, 0x3E, 0x35]
  {
    NamedPadded();
    NamedCompressed();
    hide Compress, Pad;
    assert Blocks(NAMED_BLOCK, 1) == Compress(Blocks(NAMED_BLOCK, 0), Block(NAMED_BLOCK, 0));
    assert Block(NAMED_BLOCK, 0) == NAMED_BLOCK;
  }

  lemma NamedPadded()
    ensures Pad(NAMED) == NAMED_BLOCK
  {
    NamedLength();
    hide BigEndian32;
  }

  lemma NamedLength()
    ensures BigEndian32(0) == [0, 0, 0, 0] && BigEndian32(248) == [0, 0, 0, 0xF8]
  {
  }
}
