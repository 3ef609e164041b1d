/**
 * `MarkdownHelper` (Kotlin): the state behind a markdown text view. It keeps
 * a static builder (set up from the view's attributes), a dynamic builder (the
 * plugin changes not yet built), the built `markwon` and the current markdown.
 * `setMarkdown` builds the dynamic builder, if any, and renders.
 */
module MarkdownHelperKt {
  import opened Wrappers
  import opened Markwon
  import opened Parcels
  import PluginLists

  /** `markdown.orEmpty()`. */
  function OrEmpty(markdown: Option<string>): (r: string)
    ensures markdown.Some? ==> r == markdown.value
    ensures markdown.None? ==> r == ""
  {
    markdown.GetOr("")
  }

  /** `find { plugin -> plugin is MarkdownViewPlugin } != null`. */
  predicate HasViewPlugin(plugins: seq<Plugin>) {
    exists i :: 0 <= i < |plugins| && plugins[i].MarkdownViewPlugin?
  }

  /** What a `markwonFactoryBuilder` class yields, once reflection has found it. */
  datatype BuilderFactory =
    /**
     * a `MarkwonBuilderFactory2`: `initBuilder` registers `plugins` on a new
     * `MutableBuilder` over `Markwon.builderNoCore`
     */
    | InitializingFactory(plugins: seq<Plugin>)
    /**
     * a `MarkwonBuilderFactory`: `createBuilder` returns a builder that already
     * holds `delegatePlugins`; the helper wraps it in an empty `MutableBuilder`
     */
    | CreatingFactory(delegatePlugins: seq<Plugin>)

  /**
   * The static builder's own list after `loadFromAttributes` checks it:
   * unchanged when it has a `MarkdownViewPlugin`, otherwise with `plugin`
   * inserted at the first core plugin, or at the front when there is none.
   */
  function WithViewPlugin(plugins: seq<Plugin>, plugin: Plugin): seq<Plugin> {
    if HasViewPlugin(plugins) then plugins
    else
      var indexOfCorePlugin := PluginLists.IndexOfFirstCore(plugins);
      PluginLists.InsertAt(plugins, if indexOfCorePlugin < 0 then 0 else indexOfCorePlugin, plugin)
  }

  /**
   * The view plugin goes right before the first core plugin and everything
   * else keeps its place; a list that has a view plugin is left alone; and the
   * resulting list always has one.
   */
  lemma WithViewPluginPlacement(plugins: seq<Plugin>, plugin: Plugin)
    requires plugin.MarkdownViewPlugin?
    ensures HasViewPlugin(plugins) ==> WithViewPlugin(plugins, plugin) == plugins
    ensures var i := PluginLists.IndexOfFirstCore(plugins);
      !HasViewPlugin(plugins) && i >= 0 ==>
        && WithViewPlugin(plugins, plugin)[i] == plugin
        && WithViewPlugin(plugins, plugin)[i + 1].CorePlugin?
        && WithViewPlugin(plugins, plugin)[..i] == plugins[..i]
        && WithViewPlugin(plugins, plugin)[i + 1..] == plugins[i..]
    ensures !HasViewPlugin(plugins) && PluginLists.IndexOfFirstCore(plugins) < 0 ==>
      WithViewPlugin(plugins, plugin) == [plugin] + plugins
    ensures HasViewPlugin(WithViewPlugin(plugins, plugin))
  {
    var r := WithViewPlugin(plugins, plugin);
    var i := PluginLists.IndexOfFirstCore(plugins);
    if !HasViewPlugin(plugins) {
      var at := if i < 0 then 0 else i;
      assert r[at].MarkdownViewPlugin?;
      if i < 0 {
        assert r == [plugin] + plugins;
      }
    }
  }

  /**
   * The plugins the static builder registers when a factory class is named.
   * A `CreatingFactory`'s plugins sit in the wrapped builder, where the check
   * for a view plugin does not look, so the view plugin is always added last.
   */
  function FactoryPlugins(factory: BuilderFactory, plugin: Plugin): seq<Plugin> {
    match factory
    case InitializingFactory(plugins) => WithViewPlugin(plugins, plugin)
    case CreatingFactory(delegatePlugins) => delegatePlugins + [plugin]
  }

  /**
   * `parseMarkwonBuilder`'s result as the static builder: a `MutableBuilder`
   * is taken as it is, any other builder is wrapped in an empty one.
   */
  method WrapFactoryBuilder(factory: BuilderFactory) returns (builder: MutableBuilder)
    ensures fresh(builder)
    ensures factory.InitializingFactory? ==> builder.delegatePlugins == [] && builder.plugins == factory.plugins
    ensures factory.CreatingFactory? ==> builder.delegatePlugins == factory.delegatePlugins && builder.plugins == []
  {
    match factory {
      case InitializingFactory(plugins) =>
        builder := new MutableBuilder([]);
        builder.UsePlugins(plugins);
      case CreatingFactory(delegatePlugins) =>
        builder := new MutableBuilder(delegatePlugins);
    }
  }

  /** Adds the view plugin to the static builder's list unless the list has one. */
  method AddViewPlugin(builder: MutableBuilder, viewPlugin: Plugin)
    modifies builder
    ensures builder.plugins == WithViewPlugin(old(builder.plugins), viewPlugin)
    ensures builder.delegatePlugins == old(builder.delegatePlugins)
  {
    var plugins := builder.plugins;
    var indexOfCorePlugin := PluginLists.IndexOfFirstCore(plugins);
    var factoryContainsMarkdownViewPlugin := HasViewPlugin(plugins);
    if !factoryContainsMarkdownViewPlugin {
      builder.UsePluginAt(if indexOfCorePlugin < 0 then 0 else indexOfCorePlugin, viewPlugin);
    }
  }

  /** `MutableBuilder`: a `Markwon.Builder` whose own plugin list can still be edited. */
  class MutableBuilder {
    /** the plugins already registered on the wrapped builder */
    var delegatePlugins: seq<Plugin>
    var plugins: seq<Plugin>

    constructor (delegatePlugins: seq<Plugin>)
      ensures this.delegatePlugins == delegatePlugins && plugins == []
    {
      this.delegatePlugins := delegatePlugins;
      plugins := [];
    }

    /** The plugins the built `Markwon` would get: the wrapped builder's, then the list. */
    function BuildPlugins(): (r: seq<Plugin>)
      reads this
      ensures |r| == |delegatePlugins| + |plugins|
    {
      delegatePlugins + plugins
    }

    method UsePlugin(plugin: Plugin)
      modifies this
      ensures plugins == old(plugins) + [plugin] && delegatePlugins == old(delegatePlugins)
    {
      plugins := plugins + [plugin];
    }

    method UsePlugins(plugins: seq<Plugin>)
      modifies this
      ensures this.plugins == old(this.plugins) + plugins && delegatePlugins == old(delegatePlugins)
    {
      this.plugins := this.plugins + plugins;
    }

    /** `usePlugin(index, plugin)`: `index` must be a position `List.add` accepts. */
    method UsePluginAt(index: nat, plugin: Plugin)
      requires index <= |plugins|
      modifies this
      ensures plugins == PluginLists.InsertAt(old(plugins), index, plugin) && delegatePlugins == old(delegatePlugins)
    {
      plugins := PluginLists.InsertAt(plugins, index, plugin);
    }

    /** `removePlugins`: only the builder's own list is filtered. */
    method RemovePlugins(excludes: set<Plugin>)
      modifies this
      ensures plugins == PluginLists.Without(old(plugins), excludes) && delegatePlugins == old(delegatePlugins)
    {
      plugins := PluginLists.Without(plugins, excludes);
    }

    /** `build`: hands the list to the wrapped builder, which builds from everything it holds. */
    method Build() returns (markwon: Markwon)
      modifies this
      ensures markwon == Markwon(old(BuildPlugins()))
      ensures delegatePlugins == old(BuildPlugins()) && plugins == old(plugins)
    {
      delegatePlugins := delegatePlugins + plugins;
      markwon := Markwon(delegatePlugins);
    }
  }

  class MarkdownHelper {
    const textView: TextView
    /** `lateinit var plugin`: `None` until `loadFromAttributes` */
    var plugin: Option<Plugin>
    var markdown: Option<string>
    var markwon: Option<Markwon>
    var staticBuilder: MutableBuilder?
    var dynamicBuilder: MutableBuilder?

    constructor (textView: TextView)
      ensures this.textView == textView
      ensures plugin.None? && markdown.None? && markwon.None? && staticBuilder == null && dynamicBuilder == null
    {
      this.textView := textView;
      plugin := None;
      markdown := None;
      markwon := None;
      staticBuilder := null;
      dynamicBuilder := null;
    }

    /** `markwon!!` in `setMarkdown` cannot fail: there is a builder to build or a built `markwon`. */
    predicate Ready()
      reads this
    {
      dynamicBuilder != null || markwon.Some?
    }

    /** The plugins the next rendering uses. */
    function NextPlugins(): seq<Plugin>
      reads this, dynamicBuilder
      requires Ready() || plugin.Some?
    {
      if dynamicBuilder != null then dynamicBuilder.BuildPlugins()
      else if markwon.Some? then markwon.value.plugins
      else [CorePlugin, plugin.value]
    }

    /** `loadFromAttributes`; `factory` is the `markwonFactoryBuilder` class, when one is named. */
    method LoadFromAttributes(pluginId: nat, hasMarkdown: bool, markdownAttr: Option<string>,
                              factory: Option<BuilderFactory>)
      modifies this, textView, staticBuilder
      ensures plugin == Some(MarkdownViewPlugin(pluginId))
      ensures Ready() && staticBuilder != null
      ensures old(staticBuilder) == null || factory.Some? ==> fresh(staticBuilder)
      ensures !hasMarkdown ==>
        && dynamicBuilder == staticBuilder && markwon == old(markwon) && markdown == old(markdown)
        && textView.renders == old(textView.renders)
      ensures hasMarkdown ==>
        && dynamicBuilder == null && markdown == Some(OrEmpty(markdownAttr))
        && textView.renders == old(textView.renders) + [Render(markwon.value, OrEmpty(markdownAttr))]
      ensures factory.Some? ==> NextPlugins() == FactoryPlugins(factory.value, MarkdownViewPlugin(pluginId))
      ensures factory.None? && old(staticBuilder) == null ==> NextPlugins() == [CorePlugin, MarkdownViewPlugin(pluginId)]
      ensures factory.None? && old(staticBuilder) != null ==>
        staticBuilder == old(staticBuilder) && NextPlugins() == old(staticBuilder.BuildPlugins())
    {
      var viewPlugin := MarkdownViewPlugin(pluginId);
      plugin := Some(viewPlugin);
      if factory.None? {
        EnsureStaticBuilder();
      } else {
        var builder := WrapFactoryBuilder(factory.value);
        staticBuilder := builder;
        AddViewPlugin(builder, viewPlugin);
        if factory.value.CreatingFactory? {
          assert WithViewPlugin([], viewPlugin) == [viewPlugin];
        }
      }
      dynamicBuilder := staticBuilder;
      if hasMarkdown {
        SetMarkdown(markdownAttr);
      }
    }

    /** `addMarkwonPlugins`: no plugins is a no-op; otherwise they go after the current ones, in order. */
    method AddMarkwonPlugins(update: bool, includes: seq<Plugin>)
      requires |includes| > 0 ==> Ready() || plugin.Some?
      modifies this, textView, dynamicBuilder
      ensures |includes| == 0 ==> unchanged(this) && unchanged(textView) && (dynamicBuilder != null ==> unchanged(dynamicBuilder))
      ensures |includes| > 0 ==> Ready() && NextPlugins() == old(NextPlugins()) + includes
      ensures dynamicBuilder != null ==> dynamicBuilder == old(dynamicBuilder) || fresh(dynamicBuilder)
      ensures |includes| > 0 && update ==>
        && dynamicBuilder == null && markdown == Some(OrEmpty(old(markdown)))
        && textView.renders == old(textView.renders) + [Render(markwon.value, OrEmpty(old(markdown)))]
      ensures |includes| > 0 && !update ==>
        && dynamicBuilder != null && markwon == old(markwon)
        && markdown == old(markdown) && textView.renders == old(textView.renders)
      ensures plugin == old(plugin) && staticBuilder == old(staticBuilder)
    {
      if |includes| == 0 {
        return;
      }
      EnsureDynamicBuilder();
      dynamicBuilder.UsePlugins(includes);
      if update {
        SetMarkdown(markdown);
      }
    }

    /**
     * `removeMarkwonPlugins`, as written. Only the dynamic builder's own list
     * is filtered, and a dynamic builder made after a rendering holds the
     * rendered plugins in its wrapped builder, so from there nothing is removed.
     */
    method RemoveMarkwonPlugins(update: bool, excludes: seq<Plugin>)
      requires |excludes| > 0 ==> Ready() || plugin.Some?
      modifies this, textView, dynamicBuilder
      ensures |excludes| == 0 ==> unchanged(this) && unchanged(textView) && (dynamicBuilder != null ==> unchanged(dynamicBuilder))
      ensures |excludes| > 0 ==> Ready()
      ensures |excludes| > 0 && old(dynamicBuilder) != null ==>
        NextPlugins() == old(dynamicBuilder.delegatePlugins) + PluginLists.Without(old(dynamicBuilder.plugins), set p | p in excludes)
      ensures |excludes| > 0 && old(dynamicBuilder) == null ==> NextPlugins() == old(NextPlugins())
      ensures |excludes| > 0 && update ==>
        && dynamicBuilder == null && markdown == Some(OrEmpty(old(markdown)))
        && textView.renders == old(textView.renders) + [Render(markwon.value, OrEmpty(old(markdown)))]
      ensures |excludes| > 0 && !update ==>
        && dynamicBuilder != null && markwon == old(markwon)
        && markdown == old(markdown) && textView.renders == old(textView.renders)
      ensures plugin == old(plugin) && staticBuilder == old(staticBuilder)
    {
      if |excludes| == 0 {
        return;
      }
      EnsureDynamicBuilder();
      dynamicBuilder.RemovePlugins(set p | p in excludes);
      if update {
        SetMarkdown(markdown);
      }
    }

    /**
     * `removeMarkwonPlugins` over a dynamic builder that keeps the rendered
     * plugins in its own list, as the Java helper does: what was rendered can be removed.
     */
    method RemoveMarkwonPluginsCorrected(update: bool, excludes: seq<Plugin>)
      requires |excludes| > 0 ==> Ready() || plugin.Some?
      modifies this, textView, dynamicBuilder
      ensures |excludes| == 0 ==> unchanged(this) && unchanged(textView) && (dynamicBuilder != null ==> unchanged(dynamicBuilder))
      ensures |excludes| > 0 ==> Ready()
      ensures |excludes| > 0 && old(dynamicBuilder) != null ==>
        NextPlugins() == old(dynamicBuilder.delegatePlugins) + PluginLists.Without(old(dynamicBuilder.plugins), set p | p in excludes)
      ensures |excludes| > 0 && old(dynamicBuilder) == null && old(markwon).Some? ==>
        NextPlugins() == PluginLists.Without(old(markwon).value.plugins, set p | p in excludes)
      ensures |excludes| > 0 && old(dynamicBuilder) == null && old(markwon).None? ==> NextPlugins() == old(NextPlugins())
      ensures |excludes| > 0 && update ==>
        && dynamicBuilder == null && markdown == Some(OrEmpty(old(markdown)))
        && textView.renders == old(textView.renders) + [Render(markwon.value, OrEmpty(old(markdown)))]
      ensures |excludes| > 0 && !update ==>
        && dynamicBuilder != null && markwon == old(markwon)
        && markdown == old(markdown) && textView.renders == old(textView.renders)
      ensures plugin == old(plugin) && staticBuilder == old(staticBuilder)
    {
      if |excludes| == 0 {
        return;
      }
      EnsureDynamicBuilderCorrected();
      dynamicBuilder.RemovePlugins(set p | p in excludes);
      if update {
        SetMarkdown(markdown);
      }
    }

    /** `setMarkdown`: builds the dynamic builder, if there is one, then renders; null is "". */
    method SetMarkdown(markdown: Option<string>)
      requires Ready()
      modifies this, textView, dynamicBuilder
      ensures old(dynamicBuilder) != null ==>
        && markwon == Some(Markwon(old(dynamicBuilder.BuildPlugins())))
        && old(dynamicBuilder).delegatePlugins == old(dynamicBuilder.BuildPlugins())
        && old(dynamicBuilder).plugins == old(dynamicBuilder.plugins)
      ensures old(dynamicBuilder) == null ==> markwon == old(markwon)
      ensures dynamicBuilder == null && markwon.Some? && markwon.value.plugins == old(NextPlugins())
      ensures this.markdown == Some(OrEmpty(markdown))
      ensures textView.renders == old(textView.renders) + [Render(markwon.value, OrEmpty(markdown))]
      ensures plugin == old(plugin) && staticBuilder == old(staticBuilder)
    {
      if dynamicBuilder != null {
        var built := dynamicBuilder.Build();
        markwon := Some(built);
        dynamicBuilder := null;
      }
      this.markdown := Some(OrEmpty(markdown));
      SetMarkdownInto(markwon.value, textView, OrEmpty(markdown));
    }

    /** `onSaveInstanceState`: an `SS` carrying the current markdown. */
    function OnSaveInstanceState(superState: Parcelable): (r: Parcelable)
      reads this
      ensures r.SavedMarkdown? && r.superState == superState && r.markdown == markdown
    {
      SavedMarkdown(superState, markdown)
    }

    /** `getSuperState`: `(state as? AbsSavedState)?.superState`. */
    function GetSuperState(state: Parcelable): (r: Option<Parcelable>)
      ensures r.Some? <==> IsAbsSavedState(state)
      ensures r.Some? ==> r.value == state.superState
    {
      if IsAbsSavedState(state) then Some(state.superState) else None
    }

    /** `onRestoreInstanceState`: only an `SS` restores the markdown, null included. */
    method OnRestoreInstanceState(state: Parcelable)
      modifies this
      ensures state.SavedMarkdown? ==> markdown == state.markdown
      ensures !state.SavedMarkdown? ==> markdown == old(markdown)
      ensures plugin == old(plugin) && markwon == old(markwon)
      ensures staticBuilder == old(staticBuilder) && dynamicBuilder == old(dynamicBuilder)
    {
      if state.SavedMarkdown? {
        markdown := state.markdown;
      }
    }

    /** `ensureStaticBuilder`. */
    method EnsureStaticBuilder()
      requires plugin.Some?
      modifies this
      ensures old(staticBuilder) == null ==>
        && fresh(staticBuilder)
        && staticBuilder.delegatePlugins == [CorePlugin, old(plugin).value] && staticBuilder.plugins == []
      ensures old(staticBuilder) != null ==> staticBuilder == old(staticBuilder)
      ensures plugin == old(plugin) && markdown == old(markdown) && markwon == old(markwon)
      ensures dynamicBuilder == old(dynamicBuilder)
    {
      if staticBuilder == null {
        staticBuilder := new MutableBuilder([CorePlugin, plugin.value]);
      }
    }

    /**
     * `ensureDynamicBuilder`: a new dynamic builder wraps a builder that
     * already holds the rendered plugins (or the defaults); its own list is empty.
     */
    method EnsureDynamicBuilder()
      requires Ready() || plugin.Some?
      modifies this
      ensures dynamicBuilder != null && NextPlugins() == old(NextPlugins())
      ensures old(dynamicBuilder) != null ==> dynamicBuilder == old(dynamicBuilder)
      ensures old(dynamicBuilder) == null ==> fresh(dynamicBuilder) && dynamicBuilder.plugins == []
      ensures plugin == old(plugin) && markdown == old(markdown) && markwon == old(markwon)
      ensures staticBuilder == old(staticBuilder)
    {
      if dynamicBuilder == null {
        if markwon.Some? {
          dynamicBuilder := new MutableBuilder(markwon.value.plugins);
        } else {
          dynamicBuilder := new MutableBuilder([CorePlugin, plugin.value]);
        }
      }
    }

    /** `ensureDynamicBuilder` with the rendered plugins in the new builder's own list. */
    method EnsureDynamicBuilderCorrected()
      requires Ready() || plugin.Some?
      modifies this
      ensures dynamicBuilder != null && NextPlugins() == old(NextPlugins())
      ensures old(dynamicBuilder) != null ==> dynamicBuilder == old(dynamicBuilder)
      ensures old(dynamicBuilder) == null && old(markwon).Some? ==>
        && fresh(dynamicBuilder)
        && dynamicBuilder.delegatePlugins == [] && dynamicBuilder.plugins == old(markwon).value.plugins
      ensures old(dynamicBuilder) == null && old(markwon).None? ==> fresh(dynamicBuilder) && dynamicBuilder.plugins == []
      ensures plugin == old(plugin) && markdown == old(markdown) && markwon == old(markwon)
      ensures staticBuilder == old(staticBuilder)
    {
      if dynamicBuilder == null {
        var builder: MutableBuilder;
        if markwon.Some? {
          builder := new MutableBuilder([]);
          builder.UsePlugins(markwon.value.plugins);
        } else {
          builder := new MutableBuilder([CorePlugin, plugin.value]);
        }
        dynamicBuilder := builder;
      }
    }
  }

  /**
   * A plugin added and rendered cannot be removed again: load with no
   * factory, add `OtherPlugin(1)` and render, remove it and render.
   */
  method RemoveAfterRenderKeepsPlugin() returns (helper: MarkdownHelper)
    ensures helper.markwon.Some? && OtherPlugin(1) in helper.markwon.value.plugins
  {
    var textView := new TextView();
    helper := new MarkdownHelper(textView);
    helper.LoadFromAttributes(0, false, None, None);
    helper.AddMarkwonPlugins(true, [OtherPlugin(1)]);
    assert helper.markwon.value.plugins == [CorePlugin, MarkdownViewPlugin(0), OtherPlugin(1)];
    helper.RemoveMarkwonPlugins(true, [OtherPlugin(1)]);
  }

  /** The same steps with the corrected removal take the plugin out. */
  method RemoveAfterRenderCorrected() returns (helper: MarkdownHelper)
    ensures helper.markwon.Some? && helper.markwon.value.plugins == [CorePlugin, MarkdownViewPlugin(0)]
  {
    var textView := new TextView();
    helper := new MarkdownHelper(textView);
    helper.LoadFromAttributes(0, false, None, None);
    helper.AddMarkwonPlugins(true, [OtherPlugin(1)]);
    ghost var rendered := [CorePlugin, MarkdownViewPlugin(0), OtherPlugin(1)];
    assert helper.markwon.value.plugins == rendered;
    helper.RemoveMarkwonPluginsCorrected(true, [OtherPlugin(1)]);
    assert (set p | p in [OtherPlugin(1)]) == {OtherPlugin(1)};
    assert PluginLists.Without(rendered, {OtherPlugin(1)}) == [CorePlugin, MarkdownViewPlugin(0)] by {
      assert rendered[1..][1..][1..] == [];
    }
  }
}
