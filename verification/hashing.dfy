/** The keyed hashing the filters use to turn a key into bit positions and a block index.
    The digest itself (MD5 in bloomPy) is a parameter: every property below holds
    for any digest function, which is all the filters may rely on. */
module Hashing {

  /** A key: the filters hash text keys. */
  type Key = string

  /** A keyed digest: the digest of a key under a seed, as an unbounded natural number. */
  type Digest = (Key, nat) -> nat

  /** The k bit positions of key `s` in a filter of `m` bits: the i-th position is the
      digest of `s` under seed i, reduced modulo m. Every position names a bit of the filter. */
  function Positions(hash: Digest, s: Key, k: nat, m: nat): (ps: seq<nat>)
    requires m > 0
    ensures |ps| == k
    ensures forall i :: 0 <= i < |ps| ==> ps[i] < m
  {
    seq(k, i requires 0 <= i < k => hash(s, i) % m)
  }

  /** The block a key is routed to among `b` blocks: its digest under the routing seed,
      reduced modulo b, so it always names one of the blocks. */
  function Route(hash: Digest, s: Key, routingSeed: nat, b: nat): (h: nat)
    requires b >= 1
    ensures h < b
  {
    hash(s, routingSeed) % b
  }
}
