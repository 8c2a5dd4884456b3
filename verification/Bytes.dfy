/** Octets, 32-bit numbers and byte strings. */
module Bytes {

  type Octet = x: int | 0 <= x < 256

  type Octets = seq<Octet>

  type U32 = x: int | 0 <= x < 0x1_0000_0000

  datatype Option<+T> = None | Some(value: T)

  /** A connection identifier: the 16 bytes of a uuid. */
  type Id = s: Octets | |s| == 16 witness seq(16, _ => 0)

  /** Increment of a 32-bit unsigned counter, with wrap-around. */
  function Inc(x: U32): U32 {
    (x + 1) % 0x1_0000_0000
  }

  // ----- Concatenation

  function Concat<T>(chunks: seq<seq<T>>): seq<T> {
    if chunks == [] then [] else Concat(chunks[..|chunks| - 1]) + chunks[|chunks| - 1]
  }

  lemma ConcatSnoc<T>(chunks: seq<seq<T>>, chunk: seq<T>)
    ensures Concat(chunks + [chunk]) == Concat(chunks) + chunk
  {
    assert (chunks + [chunk])[..|chunks|] == chunks;
  }

  lemma {:induction false} ConcatPrefix<T>(chunks: seq<seq<T>>, n: nat)
    requires n <= |chunks|
    ensures Concat(chunks[..n]) <= Concat(chunks)
  {
    if n == |chunks| {
      assert chunks[..n] == chunks;
    } else {
      var shorter := chunks[..|chunks| - 1];
      ConcatPrefix(shorter, n);
      assert shorter[..n] == chunks[..n];
    }
  }
}
