/** A diagonal matrix of size n is stored as the sequence of its n diagonal
    entries; all off-diagonal entries are implicitly zero. This module models
    the Java method `Diagonals.sum`: the element-wise sum of two such
    matrices, rejecting absent inputs and inputs of different sizes. */
module Diagonals {

  /** An optional value: `None` stands for the `null` that `Diagonals.sum`
      is given or returns. */
  datatype Option<+T> = None | Some(value: T)

  /** Abstraction function: the contents of a possibly-null array, as a value. */
  function Contents(a: array?<real>): Option<seq<real>>
    reads a
  {
    if a == null then None else Some(a[..])
  }

  /** The diagonal of the sum of two diagonal matrices of the same size,
      built entry by entry from the front. */
  function Pointwise(a: seq<real>, b: seq<real>): (r: seq<real>)
    requires |a| == |b|
    ensures |r| == |a| && |r| == |b|
  {
    if a == [] then [] else [a[0] + b[0]] + Pointwise(a[1..], b[1..])
  }

  /** Entry k of the result is the sum of entry k of each operand. */
  lemma {:induction false} PointwiseAt(a: seq<real>, b: seq<real>, k: nat)
    requires |a| == |b| && k < |a|
    ensures Pointwise(a, b)[k] == a[k] + b[k]
  {
    if k > 0 {
      PointwiseAt(a[1..], b[1..], k - 1);
    }
  }

  /** The value-level sum: `None` when an operand is absent or the sizes
      differ, otherwise the entry-wise sum. */
  function SumOf(a: Option<seq<real>>, b: Option<seq<real>>): (r: Option<seq<real>>)
    ensures r.None? <==> (a.None? || b.None? || |a.value| != |b.value|)
    ensures r.Some? ==> |r.value| == |a.value| == |b.value|
    ensures r.Some? ==> forall k :: 0 <= k < |r.value| ==> r.value[k] == a.value[k] + b.value[k]
  {
    if a.None? || b.None? then None
    else if |a.value| != |b.value| then None
    else
      var s := Pointwise(a.value, b.value);
      assert forall k :: 0 <= k < |s| ==> s[k] == a.value[k] + b.value[k] by {
        forall k | 0 <= k < |s| ensures s[k] == a.value[k] + b.value[k] {
          PointwiseAt(a.value, b.value, k);
        }
      }
      Some(s)
  }

  /** Swapping the operands changes neither whether a sum is produced nor
      any of its entries. */
  lemma SumCommutes(a: Option<seq<real>>, b: Option<seq<real>>)
    ensures SumOf(a, b) == SumOf(b, a)
  {
    if SumOf(a, b).Some? {
      var s, t := SumOf(a, b).value, SumOf(b, a).value;
      assert |s| == |t|;
      forall k | 0 <= k < |s| ensures s[k] == t[k] {
      }
      assert s == t;
    }
  }

  /** Two empty diagonals give an empty diagonal, not the absent result. */
  lemma SumOfEmpty()
    ensures SumOf(Some([]), Some([])) == Some([])
  {
  }

  /** The sum of diagonals [1, 2] and [3, 4] is [4, 6]. */
  lemma SumExample()
    ensures SumOf(Some([1.0, 2.0]), Some([3.0, 4.0])) == Some([4.0, 6.0])
  {
    var s := SumOf(Some([1.0, 2.0]), Some([3.0, 4.0])).value;
    assert |s| == 2 && s[0] == 4.0 && s[1] == 6.0;
    assert s == [4.0, 6.0];
  }

  /** Adds two diagonal matrices. Returns null when either input is null or
      their lengths differ; otherwise a newly allocated array whose entry i is
      A[i] + B[i]. The inputs are only read. */
  method Sum(A: array?<real>, B: array?<real>) returns (r: array?<real>)
    ensures r == null <==> (A == null || B == null || A.Length != B.Length)
    ensures r != null ==> fresh(r) && r.Length == A.Length
    ensures r != null ==> forall i :: 0 <= i < r.Length ==> r[i] == A[i] + B[i]
    ensures Contents(r) == SumOf(Contents(A), Contents(B))
  {
    if A == null || B == null {
      return null;
    }
    if A.Length != B.Length {
      return null;
    }
    r := new real[A.Length];
    for i := 0 to A.Length
      invariant forall k :: 0 <= k < i ==> r[k] == A[k] + B[k]
    {
      r[i] := A[i] + B[i];
    }
    assert r[..] == SumOf(Contents(A), Contents(B)).value;
  }
}
