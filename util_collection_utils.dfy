/** `se.ingenuity.markdownview.util.CollectionUtils`. */
module UtilCollectionUtils {

  /** Whether some element of `collection` satisfies `test`. */
  ghost predicate Exists<T>(collection: seq<T>, test: T -> bool) {
    exists i :: 0 <= i < |collection| && test(collection[i])
  }

  /**
   * `any`: walks the collection in order and returns true at the first element
   * that satisfies the predicate. `tested` is how many elements the predicate
   * was applied to.
   */
  method Any<T>(collection: seq<T>, test: T -> bool) returns (found: bool, ghost tested: nat)
    ensures found <==> Exists(collection, test)
    ensures collection == [] ==> !found
    ensures tested <= |collection|
    ensures forall i :: 0 <= i < tested - 1 ==> !test(collection[i])
    ensures found ==> tested > 0 && test(collection[tested - 1])
    ensures !found ==> tested == |collection| && forall i :: 0 <= i < |collection| ==> !test(collection[i])
  {
    tested := 0;
    for index := 0 to |collection|
      invariant tested == index
      invariant forall i :: 0 <= i < index ==> !test(collection[i])
    {
      tested := tested + 1;
      if test(collection[index]) {
        return true, tested;
      }
    }
    return false, tested;
  }
}
