/** The blocked Bloom filter of Putze et al.: b independent basic filters, and one extra
    seed that routes each key to exactly one of them. */
module BlockedBf {
  import opened Hashing
  import opened ByteBits
  import opened BloomPy
  import Sizing

  /** The bits of every block, in block order. */
  type Blocks = seq<Bytes>

  /** The seeds are drawn as 127-bit random numbers plus one. */
  const SeedBound: nat := 0x8000_0000_0000_0000_0000_0000_0000_0000

  /** At least one block, and every block holds at least one byte. */
  predicate WellFormed(blocks: Blocks)
  {
    |blocks| >= 1 && forall i :: 0 <= i < |blocks| ==> |blocks[i]| > 0
  }

  /** The blocks after inserting `s`: only the block it is routed to changes. */
  function BlockedInsert(hash: Digest, k: nat, routingSeed: nat, blocks: Blocks, s: Key): (r: Blocks)
    requires WellFormed(blocks)
    ensures WellFormed(r) && |r| == |blocks|
    ensures forall i :: 0 <= i < |r| ==> |r[i]| == |blocks[i]|
  {
    var h := Route(hash, s, routingSeed, |blocks|);
    blocks[h := InsertKey(hash, k, blocks[h], s)]
  }

  /** The blocks after inserting `keys` in order. */
  function BlockedInsertKeys(hash: Digest, k: nat, routingSeed: nat, blocks: Blocks, keys: seq<Key>): (r: Blocks)
    requires WellFormed(blocks)
    ensures WellFormed(r) && |r| == |blocks|
    decreases |keys|
  {
    if keys == [] then blocks
    else BlockedInsertKeys(hash, k, routingSeed, BlockedInsert(hash, k, routingSeed, blocks, keys[0]), keys[1..])
  }

  /** The answer to a query for `s`: the answer of the block it is routed to. */
  predicate BlockedMember(hash: Digest, k: nat, routingSeed: nat, blocks: Blocks, s: Key)
    requires WellFormed(blocks)
  {
    var h := Route(hash, s, routingSeed, |blocks|);
    Member(hash, k, blocks[h], s)
  }

  /** Inserting `s` leaves every block other than the routed one as it was, and in the
      routed block it only adds bits. */
  lemma BlockedInsertOnlyRouted(hash: Digest, k: nat, routingSeed: nat, blocks: Blocks, s: Key, i: nat)
    requires WellFormed(blocks) && i < |blocks|
    ensures var r := BlockedInsert(hash, k, routingSeed, blocks, s);
      if i == Route(hash, s, routingSeed, |blocks|) then Covers(blocks[i], r[i]) else r[i] == blocks[i]
  {
    InsertCovers(hash, k, blocks[i], s);
  }

  /** After inserting `s`, a query for `s` answers yes. */
  lemma BlockedMemberAfterInsert(hash: Digest, k: nat, routingSeed: nat, blocks: Blocks, s: Key)
    requires WellFormed(blocks)
    ensures BlockedMember(hash, k, routingSeed, BlockedInsert(hash, k, routingSeed, blocks, s), s)
  {
    var h := Route(hash, s, routingSeed, |blocks|);
    MemberAfterInsert(hash, k, blocks[h], s);
  }

  /** A positive answer survives any further insert, into the same block or another. */
  lemma BlockedMemberStable(hash: Digest, k: nat, routingSeed: nat, blocks: Blocks, s: Key, t: Key)
    requires WellFormed(blocks) && BlockedMember(hash, k, routingSeed, blocks, s)
    ensures BlockedMember(hash, k, routingSeed, BlockedInsert(hash, k, routingSeed, blocks, t), s)
  {
    var h := Route(hash, s, routingSeed, |blocks|);
    if Route(hash, t, routingSeed, |blocks|) == h {
      MemberStable(hash, k, blocks[h], s, t);
    }
  }

  /** No false negatives for the blocked filter: after inserting `keys`, a query for any
      inserted key answers yes. */
  lemma {:induction false} BlockedNoFalseNegatives(hash: Digest, k: nat, routingSeed: nat, blocks: Blocks, keys: seq<Key>, s: Key)
    requires WellFormed(blocks) && s in keys
    ensures BlockedMember(hash, k, routingSeed, BlockedInsertKeys(hash, k, routingSeed, blocks, keys), s)
    decreases |keys|
  {
    var next := BlockedInsert(hash, k, routingSeed, blocks, keys[0]);
    if keys[0] == s {
      BlockedMemberAfterInsert(hash, k, routingSeed, blocks, s);
      BlockedMemberStableKeys(hash, k, routingSeed, next, s, keys[1..]);
    } else {
      BlockedNoFalseNegatives(hash, k, routingSeed, next, keys[1..], s);
    }
  }

  /** A positive answer survives any sequence of further inserts. */
  lemma {:induction false} BlockedMemberStableKeys(hash: Digest, k: nat, routingSeed: nat, blocks: Blocks, s: Key, keys: seq<Key>)
    requires WellFormed(blocks) && BlockedMember(hash, k, routingSeed, blocks, s)
    ensures BlockedMember(hash, k, routingSeed, BlockedInsertKeys(hash, k, routingSeed, blocks, keys), s)
    decreases |keys|
  {
    if keys != [] {
      BlockedMemberStable(hash, k, routingSeed, blocks, s, keys[0]);
      BlockedMemberStableKeys(hash, k, routingSeed, BlockedInsert(hash, k, routingSeed, blocks, keys[0]), s, keys[1..]);
    }
  }

  /** Inserting the same key twice leaves the same blocks as inserting it once. */
  lemma BlockedInsertIdempotent(hash: Digest, k: nat, routingSeed: nat, blocks: Blocks, s: Key)
    requires WellFormed(blocks)
    ensures var once := BlockedInsert(hash, k, routingSeed, blocks, s);
      BlockedInsert(hash, k, routingSeed, once, s) == once
  {
    var h := Route(hash, s, routingSeed, |blocks|);
    InsertIdempotent(hash, k, blocks[h], s);
  }

  /** The shape `build` chooses: hashes per block, bytes per block and the block count. */
  datatype Layout = Layout(hashes: nat, nBytes: nat, blockCount: nat)

  /** The layout for a bit budget x and a chosen hash count k: the budget is rounded up to
      whole 512-bit blocks of 64 bytes (one cache line each), and each block uses one hash
      fewer than k, but at least one, because routing spends one hash. */
  function BuildLayout(x: real, k: nat): (l: Layout)
    requires x > 0.0
    ensures l.nBytes == 64 && l.nBytes * 8 == 512
    ensures l.hashes >= 1 && (k >= 2 ==> l.hashes == k - 1) && (k < 2 ==> l.hashes == 1)
    ensures l.blockCount >= 1
    ensures (l.blockCount * 512) as real >= x && ((l.blockCount - 1) * 512) as real < x
  {
    var m := Sizing.RoundUp(x, 512);
    Layout(if k - 1 > 1 then k - 1 else 1, 64, m / 512)
  }

  /** The blocked filter: the list of blocks and the seeds are fixed at construction. */
  class BlockedBloom {
    const k: nat
    const arrs: seq<Bloom>
    const seeds: seq<nat>
    const hash: Digest

    /** At least one block; k + 1 seeds, each at least one; every block is a valid basic
        filter with k hashes, the same digest and the same size; no two blocks share an array. */
    ghost predicate Valid()
    {
      |arrs| >= 1 && |seeds| == k + 1
      && (forall i :: 0 <= i < |seeds| ==> 1 <= seeds[i])
      && (forall i :: 0 <= i < |arrs| ==>
            arrs[i].Valid() && arrs[i].k == k && arrs[i].hash == hash
            && arrs[i].arr.Length == arrs[0].arr.Length)
      && (forall i, j :: 0 <= i < j < |arrs| ==> arrs[i].arr != arrs[j].arr)
    }

    /** The last seed, which routes keys to blocks. */
    function RoutingSeed(): nat
      requires |seeds| >= 1
    {
      seeds[|seeds| - 1]
    }

    /** The arrays of all blocks. */
    ghost function Repr(): set<object>
    {
      set i | 0 <= i < |arrs| :: arrs[i].arr
    }

    /** The bits of every block as values. */
    ghost function Contents(): (c: Blocks)
      reads Repr()
      ensures |c| == |arrs|
    {
      seq(|arrs|, i requires 0 <= i < |arrs| reads Repr() => arrs[i].arr[..])
    }

    /** b empty blocks of `nBytes` bytes each, and k + 1 seeds, seed i being one plus the
        i-th 127-bit number drawn from `draw`. */
    constructor (k: nat, nBytes: nat, b: nat, draw: nat -> nat, hash: Digest)
      requires nBytes > 0 && b >= 1
      ensures Valid() && this.k == k && this.hash == hash && |arrs| == b
      ensures |seeds| == k + 1
      ensures forall i :: 0 <= i < |seeds| ==> seeds[i] == 1 + draw(i) % SeedBound
      ensures forall i :: 0 <= i < b ==> fresh(arrs[i].arr) && arrs[i].arr.Length == nBytes
      ensures Contents() == seq(b, _ => Zeros(nBytes))
    {
      var blocks: seq<Bloom> := [];
      while |blocks| < b
        invariant |blocks| <= b
        invariant forall i :: 0 <= i < |blocks| ==>
          blocks[i].Valid() && blocks[i].k == k && blocks[i].hash == hash
          && fresh(blocks[i].arr) && blocks[i].arr.Length == nBytes && blocks[i].arr[..] == Zeros(nBytes)
        invariant forall i, j :: 0 <= i < j < |blocks| ==> blocks[i].arr != blocks[j].arr
      {
        var block := new Bloom(k, nBytes, hash);
        blocks := blocks + [block];
      }
      this.k := k;
      this.hash := hash;
      arrs := blocks;
      seeds := seq(k + 1, i requires 0 <= i <= k => 1 + draw(i) % SeedBound);
    }

    /** `build`: a filter laid out by BuildLayout for bit budget x and hash count k. */
    static method Build(x: real, k: nat, draw: nat -> nat, hash: Digest) returns (bf: BlockedBloom)
      requires x > 0.0
      ensures bf.Valid() && bf.hash == hash
      ensures bf.k == BuildLayout(x, k).hashes && |bf.arrs| == BuildLayout(x, k).blockCount
      ensures forall i :: 0 <= i < |bf.arrs| ==> fresh(bf.arrs[i].arr) && bf.arrs[i].arr.Length == 64
      ensures bf.Contents() == seq(|bf.arrs|, _ => Zeros(64))
    {
      var layout := BuildLayout(x, k);
      bf := new BlockedBloom(layout.hashes, layout.nBytes, layout.blockCount, draw, hash);
    }

    /** Inserts `s` into the one block it is routed to; no other block is written. */
    method Insert(s: Key)
      requires Valid()
      modifies arrs[Route(hash, s, RoutingSeed(), |arrs|)].arr
      ensures Contents() == BlockedInsert(hash, k, RoutingSeed(), old(Contents()), s)
    {
      var h := Route(hash, s, seeds[|seeds| - 1], |arrs|);
      arrs[h].Insert(s);
      forall i | 0 <= i < |arrs| && i != h ensures arrs[i].arr[..] == old(arrs[i].arr[..]) {
        assert arrs[i].arr != arrs[h].arr;
      }
    }

    /** Queries the one block `s` is routed to; writes nothing. */
    method Query(s: Key) returns (r: bool)
      requires Valid()
      ensures r == BlockedMember(hash, k, RoutingSeed(), Contents(), s)
    {
      var h := Route(hash, s, seeds[|seeds| - 1], |arrs|);
      r := arrs[h].Query(s);
    }
  }
}
