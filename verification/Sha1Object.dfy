/** The incremental SHA-1 object of common/uuid.h. */
module Sha1Object {
  import opened Bytes
  import opened Sha1Standard

  const SIZE_T := 0x1_0000_0000_0000_0000

  /** Where the length starts in the last block. */
  const LENGTH_AT := 56

  function LeftRotate1(x: bv32): bv32 { (x << 1) ^ (x >> 31) }

  function LeftRotate5(x: bv32): bv32 { (x << 5) ^ (x >> 27) }

  function LeftRotate30(x: bv32): bv32 { (x << 30) ^ (x >> 2) }

  lemma RotationsAgree(x: bv32)
    ensures LeftRotate1(x) == S1(x) && LeftRotate5(x) == S5(x) && LeftRotate30(x) == S30(x)
  {
  }

  lemma RoundAsCoded(h: Digest, t: nat, w: bv32)
    ensures Digest(Temp(LeftRotate5(h.a), F(t, h.b, h.c, h.d), h.e, K(t), w), h.a, LeftRotate30(h.b), h.c, h.d)
         == Round(h, t, w)
  {
    RotationsAgree(h.a);
    RotationsAgree(h.b);
  }

  /** The padding the object produces: only the low word of the bit count, counted in a 64-bit size_t. */
  function PadAsCoded(msg: Message): Message {
    var bits := (|msg| % SIZE_T) * 8 % SIZE_T;
    msg + [0x80] + Zeros(Gap(|msg|)) + Zeros(4) + BigEndian32(bits)
  }

  lemma PadAsCodedIsFilled(msg: Message)
    ensures var bits := (|msg| % SIZE_T) * 8 % SIZE_T;
            PadAsCoded(msg) == msg + [0x80] + Zeros(Gap(|msg|)) + [0, 0, 0, 0]
              + [OctetOf(bits, 3), OctetOf(bits, 2), OctetOf(bits, 1), OctetOf(bits, 0)]
  {
    assert Zeros(4) == [0, 0, 0, 0];
  }

  /** Of the messages the standard admits, the object pads exactly those below 2^29 octets as prescribed. */
  lemma PaddingIsStandardBelowHalfAGigabyte(msg: Message)
    requires 8 * |msg| < SIZE_T
    ensures PadAsCoded(msg) == Pad(msg) <==> |msg| < 0x2000_0000
  {
    hide OctetOf, Gap;
    var bits := 8 * |msg|;
    var lead := msg + [0x80] + Zeros(Gap(|msg|));
    Cancel(lead, Zeros(4), BigEndian32(bits / 0x1_0000_0000), BigEndian32(bits));
    ZeroWord(bits / 0x1_0000_0000);
  }

  /** What the object answers after absorbing a message of any length. */
  function DigestAsCoded(msg: Message): (bytes: Message)
    ensures |bytes| == 20
  {
    DigestBytes(SoFar(PadAsCoded(msg)))
  }

  lemma DigestIsStandardBelowHalfAGigabyte(msg: Message)
    ensures |msg| < 0x2000_0000 ==> DigestAsCoded(msg) == DigestBytes(Sha1(msg))
  {
    hide PadAsCoded, Pad, SoFar, DigestBytes;
    if |msg| < 0x2000_0000 {
      PaddingIsStandardBelowHalfAGigabyte(msg);
    }
  }

  lemma Cancel(lead: Message, x: Message, y: Message, end: Message)
    requires |x| == |y|
    ensures lead + x + end == lead + y + end <==> x == y
  {
    assert (lead + x + end)[|lead|..|lead| + |x|] == x;
    assert (lead + y + end)[|lead|..|lead| + |y|] == y;
  }

  lemma ZeroWord(x: nat)
    requires x < 0x1_0000_0000
    ensures BigEndian32(x) == Zeros(4) <==> x == 0
  {
    assert BigEndian32(0) == Zeros(4);
    if BigEndian32(x) == Zeros(4) {
      var b := BigEndian32(x);
      assert b[0] == b[1] == b[2] == b[3] == 0;
      OctetDigits(x);
    }
  }

  lemma OctetDigits(x: nat)
    requires x < 0x1_0000_0000
    requires OctetOf(x, 0) == 0 && OctetOf(x, 1) == 0 && OctetOf(x, 2) == 0 && OctetOf(x, 3) == 0
    ensures x == 0
  {
    var x1 := x / 256;
    var x2 := x1 / 256;
    var x3 := x2 / 256;
    assert OctetOf(x, 1) == OctetOf(x1, 0);
    assert OctetOf(x, 2) == OctetOf(x1, 1) == OctetOf(x2, 0);
    assert OctetOf(x, 3) == OctetOf(x1, 2) == OctetOf(x2, 1) == OctetOf(x3, 0);
    ZeroOctet(x);
    ZeroOctet(x1);
    ZeroOctet(x2);
    ZeroOctet(x3);
  }

  lemma ZeroOctet(x: nat)
    requires OctetOf(x, 0) == 0
    ensures x % 256 == 0
  {
    var r := x % 256;
    assert (r as bv8) as int == r;
  }

  lemma GapFromIndex(n: nat)
    ensures var r := n % BLOCK_BYTES;
            Gap(n) == if r >= LENGTH_AT then BLOCK_BYTES - (r + 1) + LENGTH_AT else LENGTH_AT - (r + 1)
  {
  }

  lemma ZerosSnoc(m: Message, k: nat)
    ensures m + Zeros(k) + [0] == m + Zeros(k + 1)
  {
  }

  lemma ZerosSplit(m: Message, j: nat, k: nat)
    ensures m + Zeros(j) + Zeros(k) == m + Zeros(j + k)
  {
  }

  function Mixed(x: bv32, y: bv32, z: bv32, u: bv32): bv32 {
    LeftRotate1(x ^ y ^ z ^ u)
  }

  lemma ScheduleStep(message: Message, t: nat)
    requires |message| == BLOCK_BYTES && t >= 16
    ensures W(message, t)
         == Mixed(W(message, t - 3), W(message, t - 8), W(message, t - 14), W(message, t - 16))
  {
    hide Mixed, Scheduled;
    MixedIsScheduled(W(message, t - 3), W(message, t - 8), W(message, t - 14), W(message, t - 16));
  }

  lemma MixedIsScheduled(x: bv32, y: bv32, z: bv32, u: bv32)
    ensures Mixed(x, y, z, u) == Scheduled(x, y, z, u)
  {
    RotationsAgree(x ^ y ^ z ^ u);
  }

  /** The body of the round loop. */
  method OneRound(i: nat, a: bv32, b: bv32, c: bv32, d: bv32, e: bv32, w: bv32)
      returns (a': bv32, b': bv32, c': bv32, d': bv32, e': bv32)
    ensures Digest(a', b', c', d', e') == Round(Digest(a, b, c, d, e), i, w)
  {
    var f: bv32, k: bv32;
    if i < 20 {
      f, k := (b & c) | (!b & d), 0x5A827999;
    } else if i < 40 {
      f, k := b ^ c ^ d, 0x6ED9EBA1;
    } else if i < 60 {
      f, k := (b & c) | (b & d) | (c & d), 0x8F1BBCDC;
    } else {
      f, k := b ^ c ^ d, 0xCA62C1D6;
    }
    RoundAsCoded(Digest(a, b, c, d, e), i, w);
    assert f == F(i, b, c, d) && k == K(i);
    var temp := Temp(LeftRotate5(a), f, e, k, w);
    e', d', c', b', a' := d, c, LeftRotate30(b), a, temp;
  }

  /** The words of the schedule after the first sixteen. */
  method Expand(w: array<bv32>, ghost message: Message)
    requires |message| == BLOCK_BYTES && w.Length == 80
    requires forall t | 0 <= t < 16 :: w[t] == W(message, t)
    modifies w
    ensures forall t | 0 <= t < 80 :: w[t] == W(message, t)
  {
    hide W, Mixed;
    for i := 16 to 80
      invariant forall t | 0 <= t < i :: w[t] == W(message, t)
    {
      ScheduleStep(message, i);
      w[i] := Mixed(w[i - 3], w[i - 8], w[i - 14], w[i - 16]);
    }
  }

  /** The round loop, over the schedule of a block. */
  method EightyRounds(a0: bv32, b0: bv32, c0: bv32, d0: bv32, e0: bv32, w: array<bv32>, ghost message: Message)
      returns (a: bv32, b: bv32, c: bv32, d: bv32, e: bv32)
    requires |message| == BLOCK_BYTES && w.Length == 80
    requires forall t | 0 <= t < 80 :: w[t] == W(message, t)
    ensures Digest(a, b, c, d, e) == Rounds(Digest(a0, b0, c0, d0, e0), message, 80)
  {
    a, b, c, d, e := a0, b0, c0, d0, e0;
    for i := 0 to 80
      invariant Digest(a, b, c, d, e) == Rounds(Digest(a0, b0, c0, d0, e0), message, i)
    {
      a, b, c, d, e := OneRound(i, a, b, c, d, e, w[i]);
    }
  }

  lemma CountSnoc(n: nat)
    ensures (n % SIZE_T + 1) % SIZE_T == (n + 1) % SIZE_T
  {
  }

  class Hasher {
    const digest: array<bv32>
    const block: array<bv8>
    var blockByteIndex: nat
    var byteCount: nat
    ghost var absorbed: Message

    function Words(): Digest
      requires digest.Length == 5
      reads digest
    {
      Digest(digest[0], digest[1], digest[2], digest[3], digest[4])
    }

    /** The digest is that of the whole blocks absorbed so far; the block buffer starts with the rest. */
    ghost predicate Valid()
      reads this, digest, block
    {
      && digest.Length == 5 && block.Length == BLOCK_BYTES
      && blockByteIndex == |absorbed| % BLOCK_BYTES
      && byteCount == |absorbed| % SIZE_T
      && block[..blockByteIndex] == Tail(absorbed, blockByteIndex)
      && Words() == SoFar(absorbed)
    }

    constructor ()
      ensures Valid() && absorbed == [] && fresh(digest) && fresh(block)
    {
      digest := new bv32[5];
      block := new bv8[BLOCK_BYTES];
      new;
      Reset();
    }

    /** The block buffer is not cleared. */
    method Reset()
      requires digest.Length == 5 && block.Length == BLOCK_BYTES
      modifies this, digest
      ensures Valid() && absorbed == []
    {
      digest[0] := 0x67452301;
      digest[1] := 0xEFCDAB89;
      digest[2] := 0x98BADCFE;
      digest[3] := 0x10325476;
      digest[4] := 0xC3D2E1F0;
      blockByteIndex := 0;
      byteCount := 0;
      absorbed := [];
    }

    method ProcessBlock()
      requires digest.Length == 5 && block.Length == BLOCK_BYTES
      modifies digest
      ensures Words() == Compress(old(Words()), block[..])
    {
      var w := Schedule();
      var a, b, c, d, e := EightyRounds(digest[0], digest[1], digest[2], digest[3], digest[4], w, block[..]);
      AddToDigest(a, b, c, d, e);
    }

    method AddToDigest(a: bv32, b: bv32, c: bv32, d: bv32, e: bv32)
      requires digest.Length == 5
      modifies digest
      ensures Words() == Added(old(Words()), Digest(a, b, c, d, e))
    {
      digest[0] := Sum(digest[0], a);
      digest[1] := Sum(digest[1], b);
      digest[2] := Sum(digest[2], c);
      digest[3] := Sum(digest[3], d);
      digest[4] := Sum(digest[4], e);
    }

    /** The message schedule of the block buffer. */
    method Schedule() returns (w: array<bv32>)
      requires block.Length == BLOCK_BYTES
      ensures fresh(w) && w.Length == 80 && forall t | 0 <= t < 80 :: w[t] == W(block[..], t)
    {
      w := new bv32[80];
      for i := 0 to 16
        invariant forall t | 0 <= t < i :: w[t] == W(block[..], t)
      {
        w[i] := LoadWord(i);
      }
      Expand(w, block[..]);
    }

    method LoadWord(i: nat) returns (word: bv32)
      requires block.Length == BLOCK_BYTES && i < 16
      ensures word == W(block[..], i)
    {
      word := (block[4 * i] as bv32) << 24;
      word := word | ((block[4 * i + 1] as bv32) << 16);
      word := word | ((block[4 * i + 2] as bv32) << 8);
      word := word | (block[4 * i + 3] as bv32);
    }

    method ProcessByte(octet: bv8)
      requires Valid()
      modifies this, digest, block
      ensures Valid() && absorbed == old(absorbed) + [octet]
      ensures blockByteIndex == if old(blockByteIndex) == BLOCK_BYTES - 1 then 0 else old(blockByteIndex) + 1
    {
      ghost var before, after := absorbed, absorbed + [octet];
      SoFarSnoc(before, octet);
      CountSnoc(|before|);
      StoreByte(octet);
      absorbed := after;
      if blockByteIndex == BLOCK_BYTES {
        blockByteIndex := 0;
        assert block[..] == block[..BLOCK_BYTES];
        ProcessBlock();
      }
    }

    method ProcessBytes(data: seq<bv8>)
      requires Valid()
      modifies this, digest, block
      ensures Valid() && absorbed == old(absorbed) + data
    {
      hide Valid;
      for i := 0 to |data|
        invariant Valid() && absorbed == old(absorbed) + data[..i]
      {
        ProcessByte(data[i]);
        assert data[..i + 1] == data[..i] + [data[i]];
      }
      assert data[..|data|] == data;
    }

    method FillBlock()
      requires Valid() && 0 < blockByteIndex < BLOCK_BYTES
      modifies this, digest, block
      ensures Valid() && blockByteIndex == 0
      ensures absorbed == old(absorbed) + Zeros(BLOCK_BYTES - old(blockByteIndex))
    {
      hide Valid;
      ghost var k := 0;
      while blockByteIndex != 0
        invariant Valid() && k <= BLOCK_BYTES - old(blockByteIndex)
        invariant blockByteIndex == if k == BLOCK_BYTES - old(blockByteIndex) then 0 else old(blockByteIndex) + k
        invariant absorbed == old(absorbed) + Zeros(k)
        decreases BLOCK_BYTES - k
      {
        ZerosSnoc(old(absorbed), k);
        ProcessByte(0);
        k := k + 1;
      }
    }

    method FillToLength()
      requires Valid() && blockByteIndex <= LENGTH_AT
      modifies this, digest, block
      ensures Valid() && blockByteIndex == LENGTH_AT
      ensures absorbed == old(absorbed) + Zeros(LENGTH_AT - old(blockByteIndex))
    {
      hide Valid;
      ghost var k := 0;
      while blockByteIndex < LENGTH_AT
        invariant Valid() && blockByteIndex == old(blockByteIndex) + k <= LENGTH_AT
        invariant absorbed == old(absorbed) + Zeros(k)
      {
        ZerosSnoc(old(absorbed), k);
        ProcessByte(0);
        k := k + 1;
      }
    }

    /** The end marker and the zeros up to the length field. */
    method PadToLength()
      requires Valid()
      modifies this, digest, block
      ensures Valid()
      ensures absorbed == old(absorbed) + [0x80] + Zeros(Gap(|old(absorbed)|))
    {
      IndexOfCount();
      GapFromIndex(|absorbed|);
      hide Valid, Gap, Zeros;
      ghost var marked := absorbed + [0x80];
      ProcessByte(0x80);
      if blockByteIndex > LENGTH_AT {
        ghost var k := BLOCK_BYTES - blockByteIndex;
        FillBlock();
        FillToLength();
        ZerosSplit(marked, k, LENGTH_AT);
      } else {
        FillToLength();
      }
    }

    lemma IndexOfCount()
      requires Valid()
      ensures blockByteIndex == |absorbed| % BLOCK_BYTES && byteCount == |absorbed| % SIZE_T
    {
    }

    method GetDigest() returns (words: Digest)
      requires Valid()
      modifies this, digest, block
      ensures Valid() && absorbed == PadAsCoded(old(absorbed))
      ensures words == SoFar(absorbed)
    {
      IndexOfCount();
      PadAsCodedIsFilled(absorbed);
      hide Valid;
      var bitCount := byteCount * 8 % SIZE_T;
      PadToLength();
      AddFour(0, 0, 0, 0);
      AddFour(OctetOf(bitCount, 3), OctetOf(bitCount, 2), OctetOf(bitCount, 1), OctetOf(bitCount, 0));
      words := CurrentDigest();
    }

    method CurrentDigest() returns (words: Digest)
      requires Valid()
      ensures words == SoFar(absorbed)
    {
      words := Words();
    }

    method AddFour(b3: bv8, b2: bv8, b1: bv8, b0: bv8)
      requires Valid()
      modifies this, digest, block
      ensures Valid() && absorbed == old(absorbed) + [b3, b2, b1, b0]
    {
      hide Valid;
      ProcessByte(b3);
      ProcessByte(b2);
      ProcessByte(b1);
      ProcessByte(b0);
    }

    method GetDigestBytes() returns (bytes: seq<bv8>)
      requires Valid()
      modifies this, digest, block
      ensures Valid() && absorbed == PadAsCoded(old(absorbed))
      ensures bytes == DigestAsCoded(old(absorbed))
    {
      hide Valid;
      var d := GetDigest();
      bytes := WordBytes(d.a);
      bytes := bytes + WordBytes(d.b);
      bytes := bytes + WordBytes(d.c);
      bytes := bytes + WordBytes(d.d);
      bytes := bytes + WordBytes(d.e);
    }

    method StoreByte(octet: bv8)
      requires block.Length == BLOCK_BYTES && blockByteIndex < BLOCK_BYTES && blockByteIndex <= |absorbed|
      requires block[..blockByteIndex] == Tail(absorbed, blockByteIndex)
      modifies this`blockByteIndex, this`byteCount, block
      ensures blockByteIndex == old(blockByteIndex) + 1 && byteCount == (old(byteCount) + 1) % SIZE_T
      ensures block[..blockByteIndex] == Tail(absorbed + [octet], blockByteIndex)
    {
      block[blockByteIndex] := octet;
      blockByteIndex := blockByteIndex + 1;
      byteCount := (byteCount + 1) % SIZE_T;
      assert block[..blockByteIndex] == old(block[..blockByteIndex]) + [octet];
    }
  }

  /** Any split of a message, on an object that may have hashed anything before. */
  method HashPieces(hasher: Hasher, pieces: seq<Message>) returns (bytes: seq<bv8>)
    requires hasher.digest.Length == 5 && hasher.block.Length == BLOCK_BYTES
    modifies hasher, hasher.digest, hasher.block
    ensures bytes == DigestAsCoded(Concat(pieces))
    ensures |Concat(pieces)| < 0x2000_0000 ==> bytes == DigestBytes(Sha1(Concat(pieces)))
  {
    hide Hasher.Valid;
    hide DigestBytes;
    hasher.Reset();
    for i := 0 to |pieces|
      invariant hasher.Valid() && hasher.absorbed == Concat(pieces[..i])
    {
      hasher.ProcessBytes(pieces[i]);
      assert pieces[..i + 1][..i] == pieces[..i];
    }
    assert pieces[..|pieces|] == pieces;
    DigestIsStandardBelowHalfAGigabyte(Concat(pieces));
    bytes := hasher.GetDigestBytes();
  }
}
