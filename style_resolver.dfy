/**
 * `StyleResolver.resolveStyles`: the style resources a `MarkdownView`
 * declares, read once into a `SparseIntArray` keyed by styleable index.
 */
module StyleResolver {
  import opened Resources

  /**
   * `resolved` is what `resolveStyles` returns for the typed array `a` whose
   * `getIndex(0 .. indexCount - 1)` are `indices`: every listed index except
   * the `markdown` attribute's, each with its resource id or -1.
   */
  predicate ResolvedFrom(resolved: map<int, int>, a: TypedArray, indices: seq<int>, markdownIndex: int) {
    && resolved.Keys == (set k | k in indices && k != markdownIndex)
    && forall k :: k in resolved ==> resolved[k] == GetResourceId(a, k, -1)
  }

  /** `resolveStyles`; the ghost `visited` records the indices the loop asked for, in order. */
  method ResolveStyles(a: TypedArray, indices: seq<int>, markdownIndex: int)
    returns (resolved: map<int, int>, ghost visited: seq<int>)
    ensures ResolvedFrom(resolved, a, indices, markdownIndex)
    ensures markdownIndex !in resolved
    ensures visited == indices
  {
    resolved := map[];
    visited := [];
    for idx := 0 to |indices|
      invariant resolved.Keys == (set k | k in indices[..idx] && k != markdownIndex)
      invariant forall k :: k in resolved ==> resolved[k] == GetResourceId(a, k, -1)
      invariant visited == indices[..idx]
    {
      var attr := indices[idx];
      visited := visited + [attr];
      if attr != markdownIndex {
        resolved := resolved[attr := GetResourceId(a, attr, -1)];
      }
      assert indices[..idx + 1] == indices[..idx] + [attr];
    }
    assert indices[..|indices|] == indices;
  }

  /** `SparseIntArray.get(key, -1)`. */
  function StyleAt(resolved: map<int, int>, index: int): (style: int)
    ensures index in resolved ==> style == resolved[index]
    ensures index !in resolved ==> style == -1
  {
    if index in resolved then resolved[index] else -1
  }

  /**
   * Reading a style back: an attribute other than `markdown` has a style
   * (is not -1) exactly when the typed array listed it and holds an id other than -1.
   */
  lemma StyleAtIff(resolved: map<int, int>, a: TypedArray, indices: seq<int>, markdownIndex: int, index: int)
    requires ResolvedFrom(resolved, a, indices, markdownIndex)
    ensures index == markdownIndex ==> StyleAt(resolved, index) == -1
    ensures index != markdownIndex ==>
      (StyleAt(resolved, index) != -1 <==> index in indices && GetResourceId(a, index, -1) != -1)
  {
    if index in indices && index != markdownIndex {
      assert index in resolved.Keys;
    }
  }
}
