/** Octets, optional values, and the few facts about sequences that several modules need. */
module Bytes {

  type byte = b: int | 0 <= b < 256

  datatype Option<T> = None | Some(value: T)

  /** Two octets read as one number, high octet first. */
  function Word(hi: byte, lo: byte): nat {
    hi as int * 256 + lo as int
  }

  function Min(a: int, b: int): int {
    if a < b then a else b
  }

  /** The first `n` naturals. */
  function Below(n: nat): (r: set<int>)
    ensures forall x :: x in r <==> 0 <= x < n
    ensures |r| == n
  {
    if n == 0 then {} else Below(n - 1) + {n - 1}
  }

  /** The concatenation of a list of chunks. */
  function Flatten<T>(chunks: seq<seq<T>>): seq<T> {
    if chunks == [] then [] else chunks[0] + Flatten(chunks[1..])
  }
}
