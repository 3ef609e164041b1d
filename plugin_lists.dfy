/**
 * The list operations the helpers perform on a plugin list: Kotlin's
 * `removeAll`, `List.add(index, element)`, `addAll` and `indexOfFirst`, as functions on
 * sequences, with the facts about them that the helpers rely on.
 */
module PluginLists {
  import opened Markwon

  /** `plugins` with every element of `excludes` removed, the rest in their order. */
  function Without(plugins: seq<Plugin>, excludes: set<Plugin>): (r: seq<Plugin>)
    ensures |r| <= |plugins|
  {
    if plugins == [] then []
    else if plugins[0] in excludes then Without(plugins[1..], excludes)
    else [plugins[0]] + Without(plugins[1..], excludes)
  }

  /** `List.add(index, plugin)`, for an index the list accepts. */
  function InsertAt(plugins: seq<Plugin>, index: nat, plugin: Plugin): (r: seq<Plugin>)
    requires index <= |plugins|
    ensures |r| == |plugins| + 1
    ensures r[index] == plugin
    ensures forall i :: 0 <= i < index ==> r[i] == plugins[i]
    ensures forall i :: index <= i < |plugins| ==> r[i + 1] == plugins[i]
    ensures multiset(r) == multiset(plugins) + multiset{plugin}
  {
    assert plugins == plugins[..index] + plugins[index..];
    plugins[..index] + [plugin] + plugins[index..]
  }

  /** The index of the first core plugin, or -1 (`indexOfFirst { plugin -> plugin is CorePlugin }`). */
  function IndexOfFirstCore(plugins: seq<Plugin>): (r: int)
    ensures -1 <= r < |plugins|
    ensures r == -1 <==> forall i :: 0 <= i < |plugins| ==> !plugins[i].CorePlugin?
    ensures r >= 0 ==> plugins[r].CorePlugin? && forall i :: 0 <= i < r ==> !plugins[i].CorePlugin?
  {
    if plugins == [] then -1
    else if plugins[0].CorePlugin? then 0
    else
      var rest := IndexOfFirstCore(plugins[1..]);
      assert forall i :: 1 <= i < |plugins| ==> plugins[i] == plugins[1..][i - 1];
      if rest == -1 then -1 else rest + 1
  }

  /** Nothing excluded survives, and everything that survives was there. */
  lemma {:induction false} WithoutMembers(plugins: seq<Plugin>, excludes: set<Plugin>, p: Plugin)
    ensures p in Without(plugins, excludes) <==> p in plugins && p !in excludes
  {
    if plugins != [] {
      WithoutMembers(plugins[1..], excludes, p);
      assert plugins == [plugins[0]] + plugins[1..];
    }
  }

  /** Every plugin not excluded keeps all of its occurrences. */
  lemma {:induction false} WithoutKeepsOthers(plugins: seq<Plugin>, excludes: set<Plugin>, p: Plugin)
    requires p !in excludes
    ensures multiset(Without(plugins, excludes))[p] == multiset(plugins)[p]
  {
    if plugins != [] {
      WithoutKeepsOthers(plugins[1..], excludes, p);
      assert plugins == [plugins[0]] + plugins[1..];
    }
  }

  /** Removal works piece by piece, so the survivors keep their relative order. */
  lemma {:induction false} WithoutAppend(a: seq<Plugin>, b: seq<Plugin>, excludes: set<Plugin>)
    ensures Without(a + b, excludes) == Without(a, excludes) + Without(b, excludes)
  {
    if a != [] {
      assert (a + b)[1..] == a[1..] + b;
      WithoutAppend(a[1..], b, excludes);
    } else {
      assert a + b == b;
    }
  }

  /** A list with no excluded element is left as it is. */
  lemma {:induction false} WithoutNothingToRemove(plugins: seq<Plugin>, excludes: set<Plugin>)
    requires forall i :: 0 <= i < |plugins| ==> plugins[i] !in excludes
    ensures Without(plugins, excludes) == plugins
  {
    if plugins != [] {
      WithoutNothingToRemove(plugins[1..], excludes);
    }
  }

  /** Removing the same plugins twice removes nothing more. */
  lemma WithoutIdempotent(plugins: seq<Plugin>, excludes: set<Plugin>)
    ensures Without(Without(plugins, excludes), excludes) == Without(plugins, excludes)
  {
    var r := Without(plugins, excludes);
    forall i | 0 <= i < |r|
      ensures r[i] !in excludes
    {
      WithoutMembers(plugins, excludes, r[i]);
    }
    WithoutNothingToRemove(r, excludes);
  }
}
