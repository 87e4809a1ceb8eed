/**
 * Lookups in sequences of rows (the first row with a given key, which is the only one when the
 * key is unique), and the reversal of a sequence.
 */
module Seqs {
  import opened Wrappers

  /** The first element whose key is `k`, or `None` when no element has that key. */
  function FirstWith<T, K(==)>(xs: seq<T>, key: T -> K, k: K): (r: Option<T>)
    ensures r.Some? ==> r.value in xs && key(r.value) == k
    ensures r.None? <==> forall i | 0 <= i < |xs| :: key(xs[i]) != k
    ensures r.Some? ==> exists i | 0 <= i < |xs| :: xs[i] == r.value && forall j | 0 <= j < i :: key(xs[j]) != k
  {
    if xs == [] then None
    else if key(xs[0]) == k then Some(xs[0])
    else
      var r := FirstWith(xs[1..], key, k);
      assert forall i | 1 <= i < |xs| :: xs[i] == xs[1..][i - 1];
      r
  }

  /** When no two elements share a key, looking up an element's own key finds that element. */
  lemma {:induction false} FirstWithOwnKey<T, K>(xs: seq<T>, key: T -> K, n: nat)
    requires n < |xs|
    requires forall i, j | 0 <= i < j < |xs| :: key(xs[i]) != key(xs[j])
    ensures FirstWith(xs, key, key(xs[n])) == Some(xs[n])
  {
    if n > 0 {
      assert xs[1..][n - 1] == xs[n];
      assert forall i, j | 0 <= i < j < |xs| - 1 :: key(xs[1..][i]) != key(xs[1..][j]) by {
        forall i, j | 0 <= i < j < |xs| - 1 ensures key(xs[1..][i]) != key(xs[1..][j]) {
          assert xs[1..][i] == xs[i + 1] && xs[1..][j] == xs[j + 1];
        }
      }
      FirstWithOwnKey(xs[1..], key, n - 1);
    }
  }

  /** The elements of `xs` in the opposite order. */
  function Reversed<T>(xs: seq<T>): (r: seq<T>)
    ensures |r| == |xs|
    ensures forall i | 0 <= i < |xs| :: r[i] == xs[|xs| - 1 - i]
  {
    if xs == [] then []
    else
      var rest := Reversed(xs[1..]);
      assert forall i | 1 <= i < |xs| :: xs[1..][i - 1] == xs[i];
      rest + [xs[0]]
  }
}
