/**
 * `MarkdownHelper` (Java): the older helper. One `pending` builder holds the
 * plugin changes not yet built; `setMarkdown` builds it, if any, and renders.
 * The helper edits `pending.plugins` directly.
 */
module MarkdownHelperJava {
  import opened Wrappers
  import opened Markwon
  import opened Parcels
  import PluginLists

  /** `MutableBuilder`: a `Markwon.Builder` whose own plugin list is open to the helper. */
  class MutableBuilder {
    /** the plugins already registered on the wrapped builder */
    var delegatePlugins: seq<Plugin>
    var plugins: seq<Plugin>

    constructor (delegatePlugins: seq<Plugin>)
      ensures this.delegatePlugins == delegatePlugins && plugins == []
    {
      this.delegatePlugins := delegatePlugins;
      plugins := [];
    }

    /** The plugins the built `Markwon` would get: the wrapped builder's, then the list. */
    function BuildPlugins(): (r: seq<Plugin>)
      reads this
      ensures |r| == |delegatePlugins| + |plugins|
    {
      delegatePlugins + plugins
    }

    method UsePlugin(plugin: Plugin)
      modifies this
      ensures plugins == old(plugins) + [plugin] && delegatePlugins == old(delegatePlugins)
    {
      plugins := plugins + [plugin];
    }

    /** `usePlugins`: adds the plugins one by one, in order. */
    method UsePlugins(plugins: seq<Plugin>)
      modifies this
      ensures this.plugins == old(this.plugins) + plugins && delegatePlugins == old(delegatePlugins)
    {
      for i := 0 to |plugins|
        invariant this.plugins == old(this.plugins) + plugins[..i]
        invariant delegatePlugins == old(delegatePlugins)
      {
        this.plugins := this.plugins + [plugins[i]];
        assert plugins[..i + 1] == plugins[..i] + [plugins[i]];
      }
      assert plugins[..|plugins|] == plugins;
    }

    /** `build`: hands the list to the wrapped builder, which builds from everything it holds. */
    method Build() returns (markwon: Markwon)
      modifies this
      ensures markwon == Markwon(old(BuildPlugins()))
      ensures delegatePlugins == old(BuildPlugins()) && plugins == old(plugins)
    {
      delegatePlugins := delegatePlugins + plugins;
      markwon := Markwon(delegatePlugins);
    }
  }

  class MarkdownHelper {
    const textView: TextView
    var markdown: Option<string>
    var markwon: Option<Markwon>
    var pending: MutableBuilder?
    /** `None` (null) until `loadFromAttributes` */
    var plugin: Option<Plugin>

    constructor (textView: TextView)
      ensures this.textView == textView
      ensures markdown.None? && markwon.None? && pending == null && plugin.None?
    {
      this.textView := textView;
      markdown := None;
      markwon := None;
      pending := null;
      plugin := None;
    }

    /** `markwon.setMarkdown` in `setMarkdown` cannot fail: there is a builder to build or a built `markwon`. */
    predicate Ready()
      reads this
    {
      pending != null || markwon.Some?
    }

    /** The plugins the next rendering uses as things stand. */
    function CurrentPlugins(): seq<Plugin>
      reads this, pending
      requires Ready()
    {
      if pending != null then pending.BuildPlugins() else markwon.value.plugins
    }

    /** The plugins the next rendering uses once `ensureBuilder` has run. */
    function NextPlugins(): seq<Plugin>
      reads this, pending
      requires pending != null || plugin.Some?
    {
      if pending != null then pending.BuildPlugins()
      else if markwon.Some? then markwon.value.plugins + [plugin.value]
      else [CorePlugin, plugin.value]
    }

    /**
     * `loadFromAttributes`; `factoryPlugins` are the plugins of the builder the
     * `markwonFactoryBuilder` class creates, when one is named.
     */
    method LoadFromAttributes(pluginId: nat, hasMarkdown: bool, markdownAttr: Option<string>,
                              factoryPlugins: Option<seq<Plugin>>)
      modifies this, textView, pending
      ensures plugin == Some(MarkdownViewPlugin(pluginId))
      ensures Ready()
      ensures pending != null && (old(pending) == null || factoryPlugins.Some?) ==> fresh(pending)
      ensures factoryPlugins.Some? ==> CurrentPlugins() == factoryPlugins.value + [MarkdownViewPlugin(pluginId)]
      ensures factoryPlugins.Some? && !hasMarkdown ==>
        && pending != null && pending.delegatePlugins == factoryPlugins.value && pending.plugins == [MarkdownViewPlugin(pluginId)]
      ensures factoryPlugins.None? && old(pending) == null ==>
        CurrentPlugins() == if old(markwon).Some? then old(markwon).value.plugins + [MarkdownViewPlugin(pluginId)]
                         else [CorePlugin, MarkdownViewPlugin(pluginId)]
      ensures factoryPlugins.None? && old(pending) != null ==> CurrentPlugins() == old(pending.BuildPlugins())
      ensures !hasMarkdown ==>
        && pending != null && markwon == old(markwon) && markdown == old(markdown)
        && textView.renders == old(textView.renders)
      ensures hasMarkdown ==>
        && pending == null && markdown == Some(markdownAttr.GetOr(""))
        && textView.renders == old(textView.renders) + [Render(markwon.value, markdownAttr.GetOr(""))]
    {
      var viewPlugin := MarkdownViewPlugin(pluginId);
      plugin := Some(viewPlugin);
      if factoryPlugins.None? {
        EnsureBuilder();
      } else {
        var builder := new MutableBuilder(factoryPlugins.value);
        pending := builder;
        if viewPlugin !in builder.plugins {
          builder.plugins := PluginLists.InsertAt(builder.plugins, 0, viewPlugin);
        }
      }
      if hasMarkdown {
        SetMarkdown(markdownAttr);
      }
    }

    /** `addMarkwonPlugins`: no plugins is a no-op; otherwise they go after the pending ones, in order. */
    method AddMarkwonPlugins(update: bool, includes: seq<Plugin>)
      requires |includes| > 0 ==> pending != null || plugin.Some?
      modifies this, textView, pending
      ensures |includes| == 0 ==> unchanged(this) && unchanged(textView) && (pending != null ==> unchanged(pending))
      ensures |includes| > 0 ==> Ready() && CurrentPlugins() == old(NextPlugins()) + includes
      ensures pending != null ==> pending == old(pending) || fresh(pending)
      ensures |includes| > 0 && update ==>
        && pending == null && markdown == Some(old(markdown).GetOr(""))
        && textView.renders == old(textView.renders) + [Render(markwon.value, old(markdown).GetOr(""))]
      ensures |includes| > 0 && !update ==>
        && pending != null && markwon == old(markwon)
        && markdown == old(markdown) && textView.renders == old(textView.renders)
      ensures plugin == old(plugin)
    {
      if |includes| == 0 {
        return;
      }
      EnsureBuilder();
      pending.plugins := pending.plugins + includes;
      if update {
        SetMarkdown(markdown);
      }
    }

    /** `removeMarkwonPlugins`: every occurrence of each excluded plugin leaves the pending list. */
    method RemoveMarkwonPlugins(update: bool, excludes: seq<Plugin>)
      requires |excludes| > 0 ==> pending != null || plugin.Some?
      modifies this, textView, pending
      ensures |excludes| == 0 ==> unchanged(this) && unchanged(textView) && (pending != null ==> unchanged(pending))
      ensures |excludes| > 0 ==> Ready()
      ensures |excludes| > 0 && old(pending) != null ==>
        CurrentPlugins() == old(pending.delegatePlugins) + PluginLists.Without(old(pending.plugins), set p | p in excludes)
      ensures |excludes| > 0 && old(pending) == null && old(markwon).Some? ==>
        CurrentPlugins() == PluginLists.Without(old(markwon).value.plugins + [old(plugin).value], set p | p in excludes)
      ensures |excludes| > 0 && old(pending) == null && old(markwon).None? ==> CurrentPlugins() == old(NextPlugins())
      ensures |excludes| > 0 && update ==>
        && pending == null && markdown == Some(old(markdown).GetOr(""))
        && textView.renders == old(textView.renders) + [Render(markwon.value, old(markdown).GetOr(""))]
      ensures |excludes| > 0 && !update ==>
        && pending != null && markwon == old(markwon)
        && markdown == old(markdown) && textView.renders == old(textView.renders)
      ensures plugin == old(plugin)
    {
      if |excludes| == 0 {
        return;
      }
      EnsureBuilder();
      var mutable := pending;
      mutable.plugins := PluginLists.Without(mutable.plugins, set p | p in excludes);
      if update {
        SetMarkdown(markdown);
      }
    }

    /** `setMarkdown`: null becomes ""; builds `pending`, if there is one, then renders. */
    method SetMarkdown(markdown: Option<string>)
      requires Ready()
      modifies this, textView, pending
      ensures old(pending) != null ==>
        && markwon == Some(Markwon(old(pending.BuildPlugins())))
        && old(pending).delegatePlugins == old(pending.BuildPlugins())
        && old(pending).plugins == old(pending.plugins)
      ensures old(pending) == null ==> markwon == old(markwon)
      ensures pending == null && markwon.Some? && markwon.value.plugins == old(CurrentPlugins())
      ensures this.markdown == Some(markdown.GetOr(""))
      ensures textView.renders == old(textView.renders) + [Render(markwon.value, markdown.GetOr(""))]
      ensures plugin == old(plugin)
    {
      var text := if markdown.None? then "" else markdown.value;
      if pending != null {
        var built := pending.Build();
        markwon := Some(built);
        pending := null;
      }
      this.markdown := Some(text);
      SetMarkdownInto(markwon.value, textView, text);
    }

    /** `onSaveInstanceState`: an `SS` carrying the current markdown. */
    function OnSaveInstanceState(superState: Parcelable): (r: Parcelable)
      reads this
      ensures r.SavedMarkdown? && r.superState == superState && r.markdown == markdown
    {
      SavedMarkdown(superState, markdown)
    }

    /** `getSuperState`: the cast to `AbsSavedState` demands that the state is one. */
    function GetSuperState(state: Parcelable): (r: Parcelable)
      requires IsAbsSavedState(state)
      ensures r == state.superState
    {
      state.superState
    }

    /** `onRestoreInstanceState`: only an `SS` restores the markdown, null included. */
    method OnRestoreInstanceState(state: Parcelable)
      modifies this
      ensures state.SavedMarkdown? ==> markdown == state.markdown
      ensures !state.SavedMarkdown? ==> markdown == old(markdown)
      ensures plugin == old(plugin) && markwon == old(markwon) && pending == old(pending)
    {
      if state.SavedMarkdown? {
        markdown := state.markdown;
      }
    }

    /**
     * `ensureBuilder`: with no pending builder, a new one starts from the
     * built `markwon`'s plugins followed by the view plugin, or from the
     * defaults when nothing was built yet.
     */
    method EnsureBuilder()
      requires pending == null ==> plugin.Some?
      modifies this
      ensures pending != null && CurrentPlugins() == old(NextPlugins())
      ensures old(pending) != null ==> pending == old(pending)
      ensures old(pending) == null && old(markwon).Some? ==>
        && fresh(pending) && pending.delegatePlugins == []
        && pending.plugins == old(markwon).value.plugins + [old(plugin).value]
      ensures old(pending) == null && old(markwon).None? ==>
        && fresh(pending) && pending.delegatePlugins == [CorePlugin, old(plugin).value] && pending.plugins == []
      ensures plugin == old(plugin) && markdown == old(markdown) && markwon == old(markwon)
    {
      if pending == null {
        var builder: MutableBuilder;
        if markwon.Some? {
          builder := new MutableBuilder([]);
          builder.UsePlugins(markwon.value.plugins);
          builder.UsePlugin(plugin.value);
        } else {
          builder := new MutableBuilder([CorePlugin, plugin.value]);
        }
        pending := builder;
      }
    }
  }

  /**
   * Unlike the Kotlin helper, this one can remove a plugin after it was
   * rendered: load with no factory, add `OtherPlugin(1)` and render, remove it and render.
   */
  method RemoveAfterRender() returns (helper: MarkdownHelper)
    ensures helper.markwon.Some? && OtherPlugin(1) !in helper.markwon.value.plugins
  {
    var textView := new TextView();
    helper := new MarkdownHelper(textView);
    helper.LoadFromAttributes(0, false, None, None);
    helper.AddMarkwonPlugins(true, [OtherPlugin(1)]);
    ghost var rendered := [CorePlugin, MarkdownViewPlugin(0), OtherPlugin(1)];
    assert helper.markwon.value.plugins == rendered;
    helper.RemoveMarkwonPlugins(true, [OtherPlugin(1)]);
    assert (set p | p in [OtherPlugin(1)]) == {OtherPlugin(1)};
    PluginLists.WithoutMembers(rendered + [MarkdownViewPlugin(0)], {OtherPlugin(1)}, OtherPlugin(1));
  }
}
