/** Name-based UUIDs: uuid_name_generator of common/uuid.h against section 4.3 of RFC 4122. */
module NameUuid {
  import opened Sha1Standard
  import opened Sha1Object

  const UUID_BYTES := 16

  /** A name of single-byte characters, or of wider ones. */
  datatype Name = Narrow(chars: seq<bv8>) | Wide(units: seq<bv32>)

  function LowOctet(c: bv32): bv8 {
    (c & 0xFF) as bv8
  }

  function UnitOctets(c: bv32): Message {
    [LowOctet(c), LowOctet(c >> 8), LowOctet(c >> 16), LowOctet(c >> 24)]
  }

  function WideOctets(units: seq<bv32>): Message {
    if units == [] then [] else WideOctets(units[..|units| - 1]) + UnitOctets(units[|units| - 1])
  }

  /** A wider character can be read off its octets, the low one first. */
  lemma UnitIsLittleEndian(c: bv32)
    ensures var o := UnitOctets(c);
            |o| == 4 && c == WordOf(o[3], o[2], o[1], o[0])
  {
  }

  /** The octets of each character are where they belong. */
  lemma {:induction false} UnitsInOrder(units: seq<bv32>, i: nat)
    requires i < |units|
    ensures |WideOctets(units)| == 4 * |units| && WideOctets(units)[4 * i..4 * i + 4] == UnitOctets(units[i])
  {
    var front := units[..|units| - 1];
    if i < |front| {
      UnitsInOrder(front, i);
    } else {
      OctetsOf(front);
    }
  }

  lemma {:induction false} OctetsOf(units: seq<bv32>)
    ensures |WideOctets(units)| == 4 * |units|
  {
    if units != [] {
      OctetsOf(units[..|units| - 1]);
    }
  }

  /** The octets the name stands for: one for each single-byte character, four in little-endian order for a wider
      one. */
  function NameOctets(name: Name): Message {
    match name
    case Narrow(chars) => chars
    case Wide(units) => WideOctets(units)
  }

  /** Section 4.3 of RFC 4122: the first sixteen octets of a hash, with version 5 and the variant bits 10 put in. */
  function Stamped(hash: Message): (uuid: Message)
    requires |hash| == 20
    ensures |uuid| == UUID_BYTES
  {
    hash[..6] + [(hash[6] & 0x0F) | 0x50, hash[7], (hash[8] & 0x3F) | 0x80] + hash[9..UUID_BYTES]
  }

  function NameBased(ns: Message, name: Name): Message {
    Stamped(DigestBytes(Sha1(ns + NameOctets(name))))
  }

  lemma VersionAndVariant(hash: Message)
    requires |hash| == 20
    ensures Stamped(hash)[6] & 0xF0 == 0x50 && Stamped(hash)[8] & 0xC0 == 0x80
    ensures forall i | 0 <= i < UUID_BYTES && i != 6 && i != 8 :: Stamped(hash)[i] == hash[i]
    ensures Stamped(hash)[6] & 0x0F == hash[6] & 0x0F && Stamped(hash)[8] & 0x3F == hash[8] & 0x3F
  {
  }

  lemma MasksAsCoded(x: bv8)
    ensures (x & 0xBF) | 0x80 == (x & 0x3F) | 0x80
    ensures (x & 0x5F) | 0x50 == (x & 0x0F) | 0x50
  {
  }

  class NameGenerator {
    const nsuuid: Message
    const hasher: Hasher

    predicate Ready()
      reads this, hasher
    {
      |nsuuid| == UUID_BYTES && hasher.digest.Length == 5 && hasher.block.Length == BLOCK_BYTES
    }

    constructor (namespace: Message)
      requires |namespace| == UUID_BYTES
      ensures Ready() && nsuuid == namespace && fresh(hasher) && fresh(hasher.digest) && fresh(hasher.block)
    {
      nsuuid := namespace;
      hasher := new Hasher();
    }

    /** Whatever was hashed before, the result depends on the namespace and the name alone. */
    method Generate(name: Name) returns (uuid: Message)
      requires Ready()
      modifies hasher, hasher.digest, hasher.block
      ensures Ready() && uuid == Stamped(DigestAsCoded(nsuuid + NameOctets(name)))
      ensures UUID_BYTES + |NameOctets(name)| < 0x2000_0000 ==> uuid == NameBased(nsuuid, name)
    {
      hide Hasher.Valid;
      hide Stamped, NameOctets, DigestAsCoded, DigestBytes, Sha1;
      hasher.Reset();
      hasher.ProcessBytes(nsuuid);
      ProcessCharacters(name);
      assert hasher.absorbed == nsuuid + NameOctets(name);
      DigestIsStandardBelowHalfAGigabyte(nsuuid + NameOctets(name));
      uuid := MakeUuid();
    }

    method ProcessCharacters(name: Name)
      requires Ready() && hasher.Valid()
      modifies hasher, hasher.digest, hasher.block
      ensures hasher.Valid() && hasher.absorbed == old(hasher.absorbed) + NameOctets(name)
    {
      hide Hasher.Valid;
      hide UnitOctets;
      match name
      case Narrow(chars) =>
        for i := 0 to |chars|
          invariant hasher.Valid() && hasher.absorbed == old(hasher.absorbed) + chars[..i]
        {
          hasher.ProcessByte(chars[i]);
        }
        assert chars[..|chars|] == chars;
      case Wide(units) =>
        for i := 0 to |units|
          invariant hasher.Valid() && hasher.absorbed == old(hasher.absorbed) + WideOctets(units[..i])
        {
          ProcessUnit(units[i]);
          assert units[..i + 1][..i] == units[..i];
        }
        assert units[..|units|] == units;
    }

    method ProcessUnit(c: bv32)
      requires Ready() && hasher.Valid()
      modifies hasher, hasher.digest, hasher.block
      ensures hasher.Valid() && hasher.absorbed == old(hasher.absorbed) + UnitOctets(c)
    {
      hide Hasher.Valid;
      hide LowOctet;
      hasher.ProcessByte(LowOctet(c));
      hasher.ProcessByte(LowOctet(c >> 8));
      hasher.ProcessByte(LowOctet(c >> 16));
      hasher.ProcessByte(LowOctet(c >> 24));
    }

    method MakeUuid() returns (uuid: Message)
      requires Ready() && hasher.Valid()
      modifies hasher, hasher.digest, hasher.block
      ensures uuid == Stamped(DigestAsCoded(old(hasher.absorbed)))
    {
      hide Hasher.Valid;
      hide DigestAsCoded, DigestBytes;
      var digest := hasher.GetDigestBytes();
      MasksAsCoded(digest[8]);
      MasksAsCoded(digest[6]);
      digest := digest[8 := digest[8] & 0xBF];
      digest := digest[8 := digest[8] | 0x80];
      digest := digest[6 := digest[6] & 0x5F];
      digest := digest[6 := digest[6] | 0x50];
      uuid := digest[..UUID_BYTES];
    }
  }
}
