/** SHA-1 as RFC 3174 defines it: section 3 (operations), 4 (padding), 5 (functions and constants), 6.1 (method 1). */
module Sha1Standard {

  type Message = seq<bv8>

  datatype Digest = Digest(a: bv32, b: bv32, c: bv32, d: bv32, e: bv32)

  const INITIAL := Digest(0x67452301, 0xEFCDAB89, 0x98BADCFE, 0x10325476, 0xC3D2E1F0)

  const BLOCK_BYTES := 64

  // ----- Circular shifts

  function S1(x: bv32): bv32 { (x << 1) | (x >> 31) }

  function S5(x: bv32): bv32 { (x << 5) | (x >> 27) }

  function S30(x: bv32): bv32 { (x << 30) | (x >> 2) }

  // ----- One block

  function F(t: nat, b: bv32, c: bv32, d: bv32): bv32 {
    if t < 20 then (b & c) | (!b & d)
    else if t < 40 then b ^ c ^ d
    else if t < 60 then (b & c) | (b & d) | (c & d)
    else b ^ c ^ d
  }

  function K(t: nat): bv32 {
    if t < 20 then 0x5A827999 else if t < 40 then 0x6ED9EBA1 else if t < 60 then 0x8F1BBCDC else 0xCA62C1D6
  }

  function WordOf(b0: bv8, b1: bv8, b2: bv8, b3: bv8): bv32 {
    ((b0 as bv32) << 24) | ((b1 as bv32) << 16) | ((b2 as bv32) << 8) | (b3 as bv32)
  }

  function Scheduled(x: bv32, y: bv32, z: bv32, u: bv32): bv32 {
    S1(x ^ y ^ z ^ u)
  }

  function W(block: Message, t: nat): bv32
    requires |block| == BLOCK_BYTES
  {
    if t < 16 then WordOf(block[4 * t], block[4 * t + 1], block[4 * t + 2], block[4 * t + 3])
    else Scheduled(W(block, t - 3), W(block, t - 8), W(block, t - 14), W(block, t - 16))
  }

  /** A sum modulo 2^32; the order of the summands is immaterial. */
  function Temp(shifted: bv32, f: bv32, e: bv32, k: bv32, w: bv32): bv32 {
    Sum(Sum(Sum(Sum(shifted, f), e), k), w)
  }

  function Round(h: Digest, t: nat, w: bv32): Digest {
    Digest(Temp(S5(h.a), F(t, h.b, h.c, h.d), h.e, K(t), w), h.a, S30(h.b), h.c, h.d)
  }

  /** The five words after the first t rounds. */
  function Rounds(h: Digest, block: Message, t: nat): Digest
    requires |block| == BLOCK_BYTES
  {
    if t == 0 then h else Round(Rounds(h, block, t - 1), t - 1, W(block, t - 1))
  }

  function Compress(h: Digest, block: Message): Digest
    requires |block| == BLOCK_BYTES
  {
    Added(h, Rounds(h, block, 80))
  }

  function Added(h: Digest, r: Digest): Digest {
    Digest(Sum(h.a, r.a), Sum(h.b, r.b), Sum(h.c, r.c), Sum(h.d, r.d), Sum(h.e, r.e))
  }

  /** A sum modulo 2^32. */
  function Sum(x: bv32, y: bv32): bv32 {
    x + y
  }

  // ----- A message

  function Block(m: Message, i: nat): (block: Message)
    requires BLOCK_BYTES * (i + 1) <= |m|
    ensures |block| == BLOCK_BYTES
  {
    m[BLOCK_BYTES * i..][..BLOCK_BYTES]
  }

  /** The state after the first n blocks of a message. */
  function Blocks(m: Message, n: nat): Digest
    requires BLOCK_BYTES * n <= |m|
  {
    if n == 0 then INITIAL else Compress(Blocks(m, n - 1), Block(m, n - 1))
  }

  lemma {:induction false} BlocksOfPrefix(m: Message, octet: bv8, n: nat)
    requires BLOCK_BYTES * n <= |m|
    ensures Blocks(m + [octet], n) == Blocks(m, n)
  {
    if n > 0 {
      BlocksOfPrefix(m, octet, n - 1);
      assert Block(m + [octet], n - 1) == Block(m, n - 1);
    }
  }

  function Tail(m: Message, n: nat): (tail: Message)
    requires n <= |m|
    ensures |tail| == n
  {
    m[|m| - n..]
  }

  /** The state after the whole blocks of a message of any length. */
  function SoFar(m: Message): Digest {
    Blocks(m, |m| / BLOCK_BYTES)
  }

  lemma SoFarSnoc(m: Message, octet: bv8)
    ensures var n := m + [octet];
            if |n| % BLOCK_BYTES == 0 then
              |m| % BLOCK_BYTES == BLOCK_BYTES - 1 && SoFar(n) == Compress(SoFar(m), Tail(n, BLOCK_BYTES))
            else |n| % BLOCK_BYTES == |m| % BLOCK_BYTES + 1 && SoFar(n) == SoFar(m)
  {
    hide Compress;
    var n, k := m + [octet], |m| / BLOCK_BYTES;
    BlocksOfPrefix(m, octet, k);
    if |n| % BLOCK_BYTES == 0 {
      assert Block(n, k) == Tail(n, BLOCK_BYTES);
    }
  }

  function Zeros(n: nat): Message {
    seq(n, _ => 0)
  }

  /** The i-th octet from the right of a number. */
  function OctetOf(x: nat, i: nat): bv8 {
    if i == 0 then (x % 256) as bv8 else OctetOf(x / 256, i - 1)
  }

  function BigEndian32(x: nat): Message {
    [OctetOf(x, 3), OctetOf(x, 2), OctetOf(x, 1), OctetOf(x, 0)]
  }

  /** Zeros between the 1-bit and the length: as few as make the total a multiple of 64 octets. */
  function Gap(n: nat): nat {
    (55 - n) % BLOCK_BYTES
  }

  /** The length in bits as two words, the high one first. */
  function Pad(msg: Message): Message {
    var bits := 8 * |msg|;
    msg + [0x80] + Zeros(Gap(|msg|)) + BigEndian32(bits / 0x1_0000_0000) + BigEndian32(bits)
  }

  lemma GapFits(n: nat)
    ensures (n + Gap(n) + 9) % BLOCK_BYTES == 0 && Gap(n) < BLOCK_BYTES
  {
    var q := (55 - n) / BLOCK_BYTES;
    assert n + Gap(n) + 9 == BLOCK_BYTES * (1 - q);
  }

  /** The message word makes a difference in every round. */
  lemma RoundDependsOnWord(h: Digest, t: nat, w: bv32, w': bv32)
    requires Round(h, t, w) == Round(h, t, w')
    ensures w == w'
  {
    hide Sum, S5, S30, F, K;
    SumCancels(Sum(Sum(Sum(S5(h.a), F(t, h.b, h.c, h.d)), h.e), K(t)), w, w');
  }

  /** Addition modulo 2^32 can be undone; four bits at a time. */
  lemma SumCancels(x: bv32, y: bv32, z: bv32)
    requires Sum(x, y) == Sum(x, z)
    ensures y == z
  {
    hide Sum;
    SumCancels8(x, y, z);
    SumCancels12(x, y, z);
    SumCancels16(x, y, z);
    SumCancels20(x, y, z);
    SumCancels24(x, y, z);
    SumCancels28(x, y, z);
    SumCancels32(x, y, z);
  }

  lemma SumCancels8(x: bv32, y: bv32, z: bv32)
    requires Sum(x, y) == Sum(x, z)
    ensures y & 0xFF == z & 0xFF
  {
  }

  lemma SumCancels12(x: bv32, y: bv32, z: bv32)
    requires Sum(x, y) == Sum(x, z) && y & 0xFF == z & 0xFF
    ensures y & 0xFFF == z & 0xFFF
  {
  }

  lemma SumCancels16(x: bv32, y: bv32, z: bv32)
    requires Sum(x, y) == Sum(x, z) && y & 0xFFF == z & 0xFFF
    ensures y & 0xFFFF == z & 0xFFFF
  {
  }

  lemma SumCancels20(x: bv32, y: bv32, z: bv32)
    requires Sum(x, y) == Sum(x, z) && y & 0xFFFF == z & 0xFFFF
    ensures y & 0xF_FFFF == z & 0xF_FFFF
  {
  }

  lemma SumCancels24(x: bv32, y: bv32, z: bv32)
    requires Sum(x, y) == Sum(x, z) && y & 0xF_FFFF == z & 0xF_FFFF
    ensures y & 0xFF_FFFF == z & 0xFF_FFFF
  {
  }

  lemma SumCancels28(x: bv32, y: bv32, z: bv32)
    requires Sum(x, y) == Sum(x, z) && y & 0xFF_FFFF == z & 0xFF_FFFF
    ensures y & 0xFFF_FFFF == z & 0xFFF_FFFF
  {
  }

  lemma SumCancels32(x: bv32, y: bv32, z: bv32)
    requires Sum(x, y) == Sum(x, z) && y & 0xFFF_FFFF == z & 0xFFF_FFFF
    ensures y == z
  {
  }

  lemma PadIsWholeBlocks(msg: Message)
    ensures |Pad(msg)| % BLOCK_BYTES == 0
  {
    GapFits(|msg|);
    assert |Pad(msg)| == |msg| + Gap(|msg|) + 9;
  }

  function Sha1(msg: Message): Digest {
    SoFar(Pad(msg))
  }

  function WordBytes(x: bv32): Message {
    [((x >> 24) & 0xFF) as bv8, ((x >> 16) & 0xFF) as bv8, ((x >> 8) & 0xFF) as bv8, (x & 0xFF) as bv8]
  }

  function DigestBytes(h: Digest): (bytes: Message)
    ensures |bytes| == 20
  {
    WordBytes(h.a) + WordBytes(h.b) + WordBytes(h.c) + WordBytes(h.d) + WordBytes(h.e)
  }
}
