/**
 * `se.ingenuity.markdownview.util.ArrayUtils`: an index-preserving map from a
 * list to an `int[]`, and an in-place reversal. `Fill` models
 * `java.util.Arrays.fill` (and Kotlin's `Array.fill`), which the span
 * generators call on the same buffers.
 */
module ArrayUtils {

  /** The elements of `s` in the opposite order. */
  function Reversed<T>(s: seq<T>): (r: seq<T>)
    ensures |r| == |s|
  {
    if s == [] then [] else Reversed(s[1..]) + [s[0]]
  }

  /** Element `k` of the reversal is element `|s| - 1 - k` of the original. */
  lemma {:induction false} ReversedAt<T>(s: seq<T>, k: int)
    requires 0 <= k < |s|
    ensures Reversed(s)[k] == s[|s| - 1 - k]
  {
    if k < |s| - 1 {
      ReversedAt(s[1..], k);
    }
  }

  /** Reversing twice gives back the original. */
  lemma ReversedTwice<T>(s: seq<T>)
    ensures Reversed(Reversed(s)) == s
  {
    forall k | 0 <= k < |s|
      ensures Reversed(Reversed(s))[k] == s[k]
    {
      ReversedAt(Reversed(s), k);
      ReversedAt(s, |s| - 1 - k);
    }
  }

  /** Reversal is a permutation. */
  lemma {:induction false} ReversedPermutes<T>(s: seq<T>)
    ensures multiset(Reversed(s)) == multiset(s)
  {
    if s != [] {
      ReversedPermutes(s[1..]);
      assert s == [s[0]] + s[1..];
    }
  }

  /** For an odd length the middle element stays where it is. */
  lemma ReversedKeepsMiddle<T>(s: seq<T>)
    requires |s| % 2 == 1
    ensures Reversed(s)[|s| / 2] == s[|s| / 2]
  {
    ReversedAt(s, |s| / 2);
  }

  /** The transformation of each element, in order. */
  function Mapped<T>(collection: seq<T>, transformation: T -> int): (r: seq<int>)
    ensures |r| == |collection|
    ensures forall i :: 0 <= i < |collection| ==> r[i] == transformation(collection[i])
  {
    seq(|collection|, i requires 0 <= i < |collection| => transformation(collection[i]))
  }

  /** `ArrayUtils.map`: a fresh array holding the transformation of each element, in order. */
  method Map<T>(collection: seq<T>, transformation: T -> int) returns (result: array<int>)
    ensures fresh(result)
    ensures result.Length == |collection|
    ensures forall i :: 0 <= i < |collection| ==> result[i] == transformation(collection[i])
    ensures result[..] == Mapped(collection, transformation)
  {
    result := new int[|collection|];
    var index := 0;
    while index < result.Length
      invariant 0 <= index <= result.Length
      invariant forall i :: 0 <= i < index ==> result[i] == transformation(collection[i])
    {
      result[index] := transformation(collection[index]);
      index := index + 1;
    }
  }

  /** `ArrayUtils.reverse`: swaps `a[index]` and `a[length - 1 - index]` for every index below half the length. */
  method Reverse<T>(a: array<T>)
    modifies a
    ensures a[..] == Reversed(old(a[..]))
    ensures a.Length % 2 == 1 ==> a[a.Length / 2] == old(a[a.Length / 2])
  {
    ghost var original := a[..];
    var half := a.Length / 2;
    var index := 0;
    while index < half
      invariant 0 <= index <= half
      invariant forall k :: 0 <= k < index ==>
        a[k] == original[a.Length - 1 - k] && a[a.Length - 1 - k] == original[k]
      invariant forall k :: index <= k < a.Length - index ==> a[k] == original[k]
    {
      var temp := a[index];
      a[index] := a[a.Length - 1 - index];
      a[a.Length - 1 - index] := temp;
      index := index + 1;
    }
    forall k | 0 <= k < a.Length
      ensures a[..][k] == Reversed(original)[k]
    {
      ReversedAt(original, k);
    }
  }

  /** `Arrays.fill(a, from, to, value)`. */
  method Fill<T>(a: array<T>, from: int, to: int, value: T)
    requires 0 <= from <= to <= a.Length
    modifies a
    ensures forall k :: 0 <= k < a.Length ==>
      a[k] == if from <= k < to then value else old(a[k])
  {
    var index := from;
    while index < to
      invariant from <= index <= to
      invariant forall k :: 0 <= k < a.Length ==>
        a[k] == if from <= k < index then value else old(a[k])
    {
      a[index] := value;
      index := index + 1;
    }
  }
}
