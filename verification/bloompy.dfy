/** The basic Bloom filter: one byte array of m bits and k hash positions per key. */
module BloomPy {
  import opened Hashing
  import opened ByteBits
  import Sizing

  /** The bit count for a bit budget x: x rounded up to a whole number of bytes. */
  function BitCount(x: real): (m: nat)
    requires x > 0.0
    ensures m > 0 && m % 8 == 0
    ensures m as real >= x && (m - 8) as real < x
  {
    Sizing.RoundUp(x, 8)
  }

  /** The positions of key `s` in the bit set `a`. */
  function KeyPositions(hash: Digest, k: nat, a: Bytes, s: Key): (ps: seq<nat>)
    requires |a| > 0
    ensures |ps| == k && AllInRange(a, ps)
  {
    Positions(hash, s, k, |a| * 8)
  }

  /** The bit set after inserting key `s`. */
  function InsertKey(hash: Digest, k: nat, a: Bytes, s: Key): (r: Bytes)
    requires |a| > 0
    ensures |r| == |a|
  {
    SetAll(a, KeyPositions(hash, k, a, s))
  }

  /** The bit set after inserting `keys` in order. */
  function InsertKeys(hash: Digest, k: nat, a: Bytes, keys: seq<Key>): (r: Bytes)
    requires |a| > 0
    ensures |r| == |a|
    decreases |keys|
  {
    if keys == [] then a else InsertKeys(hash, k, InsertKey(hash, k, a, keys[0]), keys[1..])
  }

  /** The answer to a query for `s`: every one of its positions is set. */
  predicate Member(hash: Digest, k: nat, a: Bytes, s: Key)
    requires |a| > 0
  {
    AllSet(a, KeyPositions(hash, k, a, s))
  }

  /** The query as bloompy.py writes it, with a logical `and` where a bitwise `&` is meant:
      `arr[h // 8] and 1 << h % 8` is truthy whenever the byte is non-zero, so the query
      only checks that every byte it touches holds some set bit. */
  predicate QueryAsWritten(hash: Digest, k: nat, a: Bytes, s: Key)
    requires |a| > 0
  {
    var ps := KeyPositions(hash, k, a, s);
    forall j :: 0 <= j < |ps| ==> a[ps[j] / 8] != 0
  }

  /** The query as written never answers "no" where the intended query answers "yes",
      so it has no false negatives either. */
  lemma MemberImpliesQueryAsWritten(hash: Digest, k: nat, a: Bytes, s: Key)
    requires |a| > 0
    ensures Member(hash, k, a, s) ==> QueryAsWritten(hash, k, a, s)
  {
  }

  /** But it answers "yes" for a key whose bit is clear: one byte holding only bit 1,
      and a key whose single position is bit 0. */
  lemma QueryAsWrittenFalsePositive()
    ensures QueryAsWritten((s, i) => 0, 1, [2], "x")
    ensures !Member((s, i) => 0, 1, [2], "x")
  {
    var ps := KeyPositions((s, i) => 0, 1, [2], "x");
    assert ps[0] == 0;
  }

  /** After inserting `s`, a query for `s` answers yes. */
  lemma MemberAfterInsert(hash: Digest, k: nat, a: Bytes, s: Key)
    requires |a| > 0
    ensures Member(hash, k, InsertKey(hash, k, a, s), s)
  {
    SetAllSetsEach(a, KeyPositions(hash, k, a, s));
  }

  /** Inserting only adds bits: every bit set before an insert is set after it. */
  lemma InsertCovers(hash: Digest, k: nat, a: Bytes, s: Key)
    requires |a| > 0
    ensures Covers(a, InsertKey(hash, k, a, s))
  {
    SetAllCovers(a, KeyPositions(hash, k, a, s));
  }

  /** Inserting `s` changes no byte other than those its positions fall in. */
  lemma InsertUntouched(hash: Digest, k: nat, a: Bytes, s: Key, i: nat)
    requires |a| > 0 && i < |a|
    requires forall j :: 0 <= j < k ==> KeyPositions(hash, k, a, s)[j] / 8 != i
    ensures InsertKey(hash, k, a, s)[i] == a[i]
  {
    SetAllUntouched(a, KeyPositions(hash, k, a, s), i);
  }

  /** Inserting the same key twice leaves the same bits as inserting it once. */
  lemma InsertIdempotent(hash: Digest, k: nat, a: Bytes, s: Key)
    requires |a| > 0
    ensures InsertKey(hash, k, InsertKey(hash, k, a, s), s) == InsertKey(hash, k, a, s)
  {
    SetAllIdempotent(a, KeyPositions(hash, k, a, s));
  }

  /** A positive answer survives any further insert. */
  lemma MemberStable(hash: Digest, k: nat, a: Bytes, s: Key, t: Key)
    requires |a| > 0 && Member(hash, k, a, s)
    ensures Member(hash, k, InsertKey(hash, k, a, t), s)
  {
    var b := InsertKey(hash, k, a, t);
    var ps := KeyPositions(hash, k, a, s);
    InsertCovers(hash, k, a, t);
    forall j | 0 <= j < |ps| ensures IsSet(b, ps[j]) {
      CoversKeepsBit(a, b, ps[j]);
    }
  }

  /** A positive answer survives any sequence of further inserts. */
  lemma {:induction false} MemberStableKeys(hash: Digest, k: nat, a: Bytes, s: Key, keys: seq<Key>)
    requires |a| > 0 && Member(hash, k, a, s)
    ensures Member(hash, k, InsertKeys(hash, k, a, keys), s)
    decreases |keys|
  {
    if keys != [] {
      MemberStable(hash, k, a, s, keys[0]);
      MemberStableKeys(hash, k, InsertKey(hash, k, a, keys[0]), s, keys[1..]);
    }
  }

  /** No false negatives: after inserting `keys` into any bit set, a query for any
      inserted key answers yes. */
  lemma {:induction false} NoFalseNegatives(hash: Digest, k: nat, a: Bytes, keys: seq<Key>, s: Key)
    requires |a| > 0 && s in keys
    ensures Member(hash, k, InsertKeys(hash, k, a, keys), s)
    decreases |keys|
  {
    var b := InsertKey(hash, k, a, keys[0]);
    if keys[0] == s {
      MemberAfterInsert(hash, k, a, s);
      MemberStableKeys(hash, k, b, s, keys[1..]);
    } else {
      NoFalseNegatives(hash, k, b, keys[1..], s);
    }
  }

  /** The basic filter: k hashes over a byte array that is allocated once and never resized. */
  class Bloom {
    const k: nat
    const hash: Digest
    const arr: array<bv8>

    /** The array holds at least one byte, so positions can be reduced modulo its bit count. */
    ghost predicate Valid()
    {
      arr.Length > 0
    }

    /** The filter's bits as a value. */
    ghost function Contents(): Bytes
      reads arr
    {
      arr[..]
    }

    /** A filter of `nBytes` zero bytes using k hashes. */
    constructor (k: nat, nBytes: nat, hash: Digest)
      requires nBytes > 0
      ensures Valid() && this.k == k && this.hash == hash
      ensures fresh(arr) && arr.Length == nBytes && Contents() == Zeros(nBytes)
    {
      this.k := k;
      this.hash := hash;
      arr := new bv8[nBytes](_ => 0);
    }

    /** `__init__`: a filter for bit budget x and hash count k, whose array holds
        BitCount(x) / 8 zero bytes, so its bit count is exactly the rounded budget. */
    static method Build(x: real, k: nat, hash: Digest) returns (bf: Bloom)
      requires x > 0.0
      ensures bf.Valid() && bf.k == k && bf.hash == hash && fresh(bf.arr)
      ensures bf.arr.Length * 8 == BitCount(x) && bf.Contents() == Zeros(BitCount(x) / 8)
    {
      var m := BitCount(x);
      bf := new Bloom(k, m / 8, hash);
    }

    /** Sets bit `h % 8` of byte `h / 8` for each of the key's positions. */
    method Insert(s: Key)
      requires Valid()
      modifies arr
      ensures Contents() == InsertKey(hash, k, old(Contents()), s)
    {
      ghost var before := arr[..];
      var ps := Positions(hash, s, k, arr.Length * 8);
      assert ps == KeyPositions(hash, k, before, s);
      for i := 0 to |ps|
        invariant arr[..] == SetAll(before, ps[..i])
      {
        var h := ps[i];
        arr[h / 8] := arr[h / 8] | Mask(h);
        assert ps[..i + 1][..i] == ps[..i];
      }
      assert ps[..|ps|] == ps;
    }

    /** Whether every one of the key's positions is set; reads the array only. This is the
        intended bit test `arr[h // 8] & 1 << h % 8`; QueryAsWritten models the line as written. */
    method Query(s: Key) returns (r: bool)
      requires Valid()
      ensures r == Member(hash, k, Contents(), s)
    {
      var ps := Positions(hash, s, k, arr.Length * 8);
      assert ps == KeyPositions(hash, k, arr[..], s);
      for i := 0 to |ps|
        invariant forall j :: 0 <= j < i ==> IsSet(arr[..], ps[j])
      {
        var h := ps[i];
        if arr[h / 8] & Mask(h) == 0 {
          assert !IsSet(arr[..], ps[i]);
          return false;
        }
      }
      return true;
    }
  }
}
