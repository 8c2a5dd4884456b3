/** The name-based UUID of appendix A.4 of RFC 9562. It pins down what is hashed, in which order, and which octets and
    bits of the hash become which of the UUID. */
module NameVector {
  import opened Sha1Standard
  import opened NameUuid
  import Sha1Vectors

  /** The name space identifier for DNS names. */
  const DNS: Message :=
    [0x6B, 0xA7, 0xB8, 0x10, 0x9D, 0xAD, 0x11, 0xD1, 0x80, 0xB4, 0x00, 0xC0, 0x4F, 0xD4, 0x30, 0xC8]

  /** The characters of "www.example.com". */
  const WWW: Message :=
    [0x77, 0x77, 0x77, 0x2E, 0x65, 0x78, 0x61, 0x6D, 0x70, 0x6C, 0x65, 0x2E, 0x63, 0x6F, 0x6D]

  lemma HashedIsNamed()
    ensures DNS + NameOctets(Narrow(WWW)) == Sha1Vectors.NAMED
  {
  }

  /** 2ed6657d-e927-568b-95e1-2665a8aea6a2. */
  lemma ExampleUuid()
    ensures NameBased(DNS, Narrow(WWW))
         == [0x2E, 0xD6, 0x65, 0x7D, 0xE9, 0x27, 0x56, 0x8B, 0x95, 0xE1, 0x26, 0x65, 0xA8, 0xAE, 0xA6, 0xA2]
  {
    HashedIsNamed();
    Sha1Vectors.NamedDigest();
    hide Sha1, DigestBytes, NameOctets;
  }
}
