/**
 * Lists built by appending one part per element, as the channel layout
 * and the demultiplexed frame are: the flattening of a list of parts and
 * where each part lands in it.
 */
module Seqs {
  /** The parts joined in order. */
  function Flatten<T>(parts: seq<seq<T>>): seq<T>
    decreases |parts|
  {
    if parts == [] then [] else Flatten(parts[..|parts| - 1]) + parts[|parts| - 1]
  }

  /** Part `j` sits right after the parts before it. */
  lemma {:induction false} FlattenSlot<T>(parts: seq<seq<T>>, j: int)
    requires 0 <= j < |parts|
    ensures var off := |Flatten(parts[..j])|;
      off + |parts[j]| <= |Flatten(parts)| && Flatten(parts)[off..off + |parts[j]|] == parts[j]
    decreases |parts|
  {
    var n := |parts| - 1;
    var front := Flatten(parts[..n]);
    assert Flatten(parts) == front + parts[n];
    if j < n {
      FlattenSlot(parts[..n], j);
      assert parts[..n][..j] == parts[..j];
      assert parts[..n][j] == parts[j];
      var off := |Flatten(parts[..j])|;
      assert (front + parts[n])[off..off + |parts[j]|] == front[off..off + |parts[j]|];
    } else {
      assert parts[..j] == parts[..n];
      assert (front + parts[n])[|front|..|front| + |parts[n]|] == parts[n];
    }
  }

  /** Parts of the same lengths flatten to lists of the same length. */
  lemma {:induction false} FlattenSameLength<A, B>(a: seq<seq<A>>, b: seq<seq<B>>)
    requires |a| == |b|
    requires forall k :: 0 <= k < |a| ==> |a[k]| == |b[k]|
    ensures |Flatten(a)| == |Flatten(b)|
    decreases |a|
  {
    if a != [] {
      var n := |a| - 1;
      FlattenSameLength(a[..n], b[..n]);
    }
  }

  /** Empty parts at the end add nothing. */
  lemma {:induction false} FlattenEmptyTail<T>(parts: seq<seq<T>>, m: int)
    requires 0 <= m <= |parts|
    requires forall k :: m <= k < |parts| ==> parts[k] == []
    ensures Flatten(parts) == Flatten(parts[..m])
    decreases |parts|
  {
    if m < |parts| {
      var n := |parts| - 1;
      FlattenEmptyTail(parts[..n], m);
      assert parts[..n][..m] == parts[..m];
      assert Flatten(parts) == Flatten(parts[..n]) + [];
    } else {
      assert parts[..m] == parts;
    }
  }
}
