/** A bit set stored in a byte array, least significant bit first: bit h lives in bit
    `h % 8` of byte `h / 8`. These are the values the filters' arrays hold. */
module ByteBits {

  type Bytes = seq<bv8>

  /** The byte mask `1 << h % 8` that selects bit h within its byte. */
  function Mask(h: nat): bv8
  {
    (1 as bv8) << (h % 8)
  }

  /** `n` zero bytes: a fresh, empty bit set. */
  function Zeros(n: nat): (a: Bytes)
    ensures |a| == n
  {
    seq(n, _ => 0)
  }

  /** Every position in `ps` names a bit of `a`. */
  predicate AllInRange(a: Bytes, ps: seq<nat>)
  {
    forall j :: 0 <= j < |ps| ==> ps[j] < |a| * 8
  }

  /** Bit h of `a` is set. */
  predicate IsSet(a: Bytes, h: nat)
    requires h < |a| * 8
  {
    a[h / 8] & Mask(h) != 0
  }

  /** Every position in `ps` is set in `a`. */
  predicate AllSet(a: Bytes, ps: seq<nat>)
    requires AllInRange(a, ps)
  {
    forall j :: 0 <= j < |ps| ==> IsSet(a, ps[j])
  }

  /** `a` with bit h set: byte `h / 8` ORed with the mask. */
  function SetBit(a: Bytes, h: nat): (r: Bytes)
    requires h < |a| * 8
    ensures |r| == |a|
  {
    a[h / 8 := a[h / 8] | Mask(h)]
  }

  /** `a` with every position of `ps` set, one after the other in the order of `ps`. */
  function SetAll(a: Bytes, ps: seq<nat>): (r: Bytes)
    requires AllInRange(a, ps)
    ensures |r| == |a|
    decreases |ps|
  {
    if ps == [] then a else SetBit(SetAll(a, ps[..|ps| - 1]), ps[|ps| - 1])
  }

  /** Every bit set in `a` is also set in `b`, byte by byte. */
  predicate Covers(a: Bytes, b: Bytes)
  {
    |a| == |b| && forall i :: 0 <= i < |a| ==> a[i] & b[i] == a[i]
  }

  lemma CoversTransitive(a: Bytes, b: Bytes, c: Bytes)
    requires Covers(a, b) && Covers(b, c)
    ensures Covers(a, c)
  {
  }

  /** A bit set in `a` stays set in any bit set that covers `a`. */
  lemma CoversKeepsBit(a: Bytes, b: Bytes, h: nat)
    requires Covers(a, b) && h < |a| * 8
    ensures IsSet(a, h) ==> IsSet(b, h)
  {
  }

  /** Setting one bit only ORs it in: the old bits are covered and the new bit is set. */
  lemma SetBitCovers(a: Bytes, h: nat)
    requires h < |a| * 8
    ensures Covers(a, SetBit(a, h))
    ensures IsSet(SetBit(a, h), h)
  {
  }

  /** Setting positions only ORs bits in: every bit set before is still set after. */
  lemma {:induction false} SetAllCovers(a: Bytes, ps: seq<nat>)
    requires AllInRange(a, ps)
    ensures Covers(a, SetAll(a, ps))
    decreases |ps|
  {
    if ps != [] {
      var prefix := ps[..|ps| - 1];
      SetAllCovers(a, prefix);
      SetBitCovers(SetAll(a, prefix), ps[|ps| - 1]);
      CoversTransitive(a, SetAll(a, prefix), SetAll(a, ps));
    }
  }

  /** After setting the positions of `ps`, each of them is set. */
  lemma {:induction false} SetAllSetsEach(a: Bytes, ps: seq<nat>)
    requires AllInRange(a, ps)
    ensures AllSet(SetAll(a, ps), ps)
    decreases |ps|
  {
    if ps != [] {
      var n := |ps| - 1;
      var before := SetAll(a, ps[..n]);
      SetAllSetsEach(a, ps[..n]);
      SetBitCovers(before, ps[n]);
      forall j | 0 <= j < |ps| ensures IsSet(SetAll(a, ps), ps[j]) {
        if j < n {
          assert ps[..n][j] == ps[j];
          CoversKeepsBit(before, SetAll(a, ps), ps[j]);
        }
      }
    }
  }

  /** Setting positions leaves every byte that no position falls in unchanged. */
  lemma {:induction false} SetAllUntouched(a: Bytes, ps: seq<nat>, i: nat)
    requires AllInRange(a, ps) && i < |a|
    requires forall j :: 0 <= j < |ps| ==> ps[j] / 8 != i
    ensures SetAll(a, ps)[i] == a[i]
    decreases |ps|
  {
    if ps != [] {
      SetAllUntouched(a, ps[..|ps| - 1], i);
    }
  }

  /** Setting positions that are all set already changes nothing. */
  lemma {:induction false} SetAllNoop(a: Bytes, ps: seq<nat>)
    requires AllInRange(a, ps) && AllSet(a, ps)
    ensures SetAll(a, ps) == a
    decreases |ps|
  {
    if ps != [] {
      var n := |ps| - 1;
      assert forall j :: 0 <= j < n ==> ps[..n][j] == ps[j];
      SetAllNoop(a, ps[..n]);
    }
  }

  /** Setting the same positions twice yields the same bits as setting them once. */
  lemma SetAllIdempotent(a: Bytes, ps: seq<nat>)
    requires AllInRange(a, ps)
    ensures SetAll(SetAll(a, ps), ps) == SetAll(a, ps)
  {
    SetAllSetsEach(a, ps);
    SetAllNoop(SetAll(a, ps), ps);
  }
}
