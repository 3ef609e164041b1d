/**
 * `MarkwonHelper` (Kotlin, root package): builds a `Markwon` with a plugin
 * that installs one span factory per styled node, straight from the
 * resolved style map, and lets callers add plugins afterwards.
 */
module MarkwonHelper {
  import opened Wrappers
  import opened Resources
  import opened Markwon
  import opened StyleResolver
  import PluginLists
  import Sequences

  /** The factories the helper's plugin installs. */
  datatype Factory =
    /** `{ _, _ -> spanFactory.createSpansForStyle(style) }` */
    | StyleFactory(style: int)
    | HeadingFactory(original: Option<FactoryToken>, headingStyles: seq<int>)
    | ListFactory(original: Option<FactoryToken>, orderedStyle: int, unorderedStyle: int)

  /** The resolved style of one attribute, -1 when it has none. */
  function StyleOf(resolvedStyles: map<int, int>, layout: Layout, attr: Attr): int {
    StyleAt(resolvedStyles, layout(attr))
  }

  /** `maybeSetFactory`. */
  function SetCalls(node: NodeKind, style: int): seq<FactoryCall<Factory>> {
    if style != -1 then [Set(node, StyleFactory(style))] else []
  }

  /** The `headingStyles` array: the main style of H1 to H6, in that order. */
  function HeadingStyles(resolvedStyles: map<int, int>, layout: Layout): (styles: seq<int>)
    ensures |styles| == 6
    ensures forall k :: 0 <= k < 6 ==> styles[k] == StyleOf(resolvedStyles, layout, Style(Heading(k + 1)))
  {
    seq(6, k => StyleOf(resolvedStyles, layout, Style(Heading(k + 1))))
  }

  /** `headingStyles.any { style -> style != -1 }` */
  predicate AnyStyle(styles: seq<int>) {
    exists i :: 0 <= i < |styles| && styles[i] != -1
  }

  /** `maybeSetHeadingFactory`: the original heading factory is read only when a factory is installed. */
  function HeadingCalls(styles: seq<int>, existing: map<NodeKind, FactoryToken>): seq<FactoryCall<Factory>> {
    if AnyStyle(styles) then [Set(HeadingNode, HeadingFactory(Lookup(existing, HeadingNode), styles))] else []
  }

  /** `maybeSetListFactory`. */
  function ListCalls(orderedStyle: int, unorderedStyle: int, existing: map<NodeKind, FactoryToken>): seq<FactoryCall<Factory>> {
    if orderedStyle != -1 || unorderedStyle != -1
    then [Set(ListItemNode, ListFactory(Lookup(existing, ListItemNode), orderedStyle, unorderedStyle))]
    else []
  }

  /** Every call `configureSpansFactory` makes, in order. */
  function SpansFactoryCalls(resolvedStyles: map<int, int>, layout: Layout, existing: map<NodeKind, FactoryToken>)
    : seq<FactoryCall<Factory>>
  {
    HeadingCalls(HeadingStyles(resolvedStyles, layout), existing)
    + SetCalls(EmphasisNode, StyleOf(resolvedStyles, layout, Style(Emphasis)))
    + SetCalls(StrongEmphasisNode, StyleOf(resolvedStyles, layout, Style(StrongEmphasis)))
    + SetCalls(BlockQuoteNode, StyleOf(resolvedStyles, layout, Style(BlockQuote)))
    + SetCalls(CodeNode, StyleOf(resolvedStyles, layout, Style(Code)))
    + SetCalls(FencedCodeBlockNode, StyleOf(resolvedStyles, layout, Style(FencedCodeBlock)))
    + SetCalls(IndentedCodeBlockNode, StyleOf(resolvedStyles, layout, Style(IndentedCodeBlock)))
    + ListCalls(StyleOf(resolvedStyles, layout, Style(OrderedListItem)),
                StyleOf(resolvedStyles, layout, Style(UnorderedListItem)), existing)
    + SetCalls(ParagraphNode, StyleOf(resolvedStyles, layout, Style(Paragraph)))
    + SetCalls(LinkNode, StyleOf(resolvedStyles, layout, Style(Link)))
  }

  /** A factory for a single node is installed exactly when its attribute resolved to a style. */
  lemma SetCallsIff(resolvedStyles: map<int, int>, layout: Layout, attr: Attr, node: NodeKind)
    ensures SetCalls(node, StyleOf(resolvedStyles, layout, attr)) != [] <==>
      layout(attr) in resolvedStyles && resolvedStyles[layout(attr)] != -1
    ensures forall c :: c in SetCalls(node, StyleOf(resolvedStyles, layout, attr)) ==>
      c == Set(node, StyleFactory(resolvedStyles[layout(attr)]))
  {
  }

  /** A heading factory is installed exactly when some heading level has a style, and it remembers the original. */
  lemma HeadingCallsIff(resolvedStyles: map<int, int>, layout: Layout, existing: map<NodeKind, FactoryToken>)
    ensures HeadingCalls(HeadingStyles(resolvedStyles, layout), existing) != [] <==>
      exists level :: 1 <= level <= 6 && StyleOf(resolvedStyles, layout, Style(Heading(level))) != -1
    ensures forall c :: c in HeadingCalls(HeadingStyles(resolvedStyles, layout), existing) ==>
      c == Set(HeadingNode, HeadingFactory(Lookup(existing, HeadingNode), HeadingStyles(resolvedStyles, layout)))
  {
    var styles := HeadingStyles(resolvedStyles, layout);
    if AnyStyle(styles) {
      var i :| 0 <= i < 6 && styles[i] != -1;
      assert StyleOf(resolvedStyles, layout, Style(Heading(i + 1))) != -1;
    }
    if exists level :: 1 <= level <= 6 && StyleOf(resolvedStyles, layout, Style(Heading(level))) != -1 {
      var level :| 1 <= level <= 6 && StyleOf(resolvedStyles, layout, Style(Heading(level))) != -1;
      assert styles[level - 1] != -1;
    }
  }

  /** A list factory is installed exactly when either list style is present. */
  lemma ListCallsIff(orderedStyle: int, unorderedStyle: int, existing: map<NodeKind, FactoryToken>)
    ensures ListCalls(orderedStyle, unorderedStyle, existing) != [] <==> orderedStyle != -1 || unorderedStyle != -1
    ensures forall c :: c in ListCalls(orderedStyle, unorderedStyle, existing) ==>
      c.Set? && c.node == ListItemNode && c.factory.original == Lookup(existing, ListItemNode)
  {
  }

  /** Every call of the log replaces a factory. */
  predicate SetsOnly(calls: seq<FactoryCall<Factory>>) {
    forall i :: 0 <= i < |calls| ==> calls[i].Set?
  }

  lemma SetsOnlyAppend(a: seq<FactoryCall<Factory>>, b: seq<FactoryCall<Factory>>)
    requires SetsOnly(a) && SetsOnly(b)
    ensures SetsOnly(a + b)
  {
    forall i | 0 <= i < |a + b|
      ensures (a + b)[i].Set?
    {
      if i >= |a| {
        assert (a + b)[i] == b[i - |a|];
      }
    }
  }

  /** The helper only ever replaces factories: it never appends or prepends one. */
  lemma OnlySetCalls(resolvedStyles: map<int, int>, layout: Layout, existing: map<NodeKind, FactoryToken>)
    ensures SetsOnly(SpansFactoryCalls(resolvedStyles, layout, existing))
  {
    var r, l := resolvedStyles, layout;
    var s1 := HeadingCalls(HeadingStyles(r, l), existing);
    var s2 := s1 + SetCalls(EmphasisNode, StyleOf(r, l, Style(Emphasis)));
    SetsOnlyAppend(s1, SetCalls(EmphasisNode, StyleOf(r, l, Style(Emphasis))));
    var s3 := s2 + SetCalls(StrongEmphasisNode, StyleOf(r, l, Style(StrongEmphasis)));
    SetsOnlyAppend(s2, SetCalls(StrongEmphasisNode, StyleOf(r, l, Style(StrongEmphasis))));
    var s4 := s3 + SetCalls(BlockQuoteNode, StyleOf(r, l, Style(BlockQuote)));
    SetsOnlyAppend(s3, SetCalls(BlockQuoteNode, StyleOf(r, l, Style(BlockQuote))));
    var s5 := s4 + SetCalls(CodeNode, StyleOf(r, l, Style(Code)));
    SetsOnlyAppend(s4, SetCalls(CodeNode, StyleOf(r, l, Style(Code))));
    var s6 := s5 + SetCalls(FencedCodeBlockNode, StyleOf(r, l, Style(FencedCodeBlock)));
    SetsOnlyAppend(s5, SetCalls(FencedCodeBlockNode, StyleOf(r, l, Style(FencedCodeBlock))));
    var s7 := s6 + SetCalls(IndentedCodeBlockNode, StyleOf(r, l, Style(IndentedCodeBlock)));
    SetsOnlyAppend(s6, SetCalls(IndentedCodeBlockNode, StyleOf(r, l, Style(IndentedCodeBlock))));
    var list := ListCalls(StyleOf(r, l, Style(OrderedListItem)), StyleOf(r, l, Style(UnorderedListItem)), existing);
    var s8 := s7 + list;
    SetsOnlyAppend(s7, list);
    var s9 := s8 + SetCalls(ParagraphNode, StyleOf(r, l, Style(Paragraph)));
    SetsOnlyAppend(s8, SetCalls(ParagraphNode, StyleOf(r, l, Style(Paragraph))));
    SetsOnlyAppend(s9, SetCalls(LinkNode, StyleOf(r, l, Style(Link))));
  }

  /** The heading factory: the level's style when it has one, else the original factory's spans, else null. */
  function HeadingGetSpans(original: Option<FactoryToken>, headingStyles: seq<int>, level: int): (r: SpanResult)
    requires 1 <= level <= |headingStyles|
    ensures r.Generated? <==> headingStyles[level - 1] != -1
    ensures r.Generated? ==> r.style == headingStyles[level - 1]
    ensures r.Delegated? <==> headingStyles[level - 1] == -1 && original.Some?
    ensures r.Delegated? ==> r.original == original.value
  {
    var style := headingStyles[level - 1];
    if style != -1 then Generated(style)
    else if original.Some? then Delegated(original.value)
    else NoSpans
  }

  /** The list item factory: ORDERED takes the ordered style, every other kind the unordered one. */
  function ListGetSpans(original: Option<FactoryToken>, orderedStyle: int, unorderedStyle: int, itemType: ListItemType)
    : (r: SpanResult)
    ensures var style := if itemType == Ordered then orderedStyle else unorderedStyle;
      && (r.Generated? <==> style != -1)
      && (r.Generated? ==> r.style == style)
      && (r.Delegated? <==> style == -1 && original.Some?)
      && (r.Delegated? ==> r.original == original.value)
  {
    if itemType == Ordered then
      if orderedStyle != -1 then Generated(orderedStyle)
      else if original.Some? then Delegated(original.value) else NoSpans
    else
      if unorderedStyle != -1 then Generated(unorderedStyle)
      else if original.Some? then Delegated(original.value) else NoSpans
  }

  /**
   * End to end: once installed, the heading factory gives a level the style the
   * typed array holds for it, and hands a level without one to the factory it replaced.
   */
  lemma HeadingFactoryFallsBack(resolvedStyles: map<int, int>, a: TypedArray, indices: seq<int>, layout: Layout,
                                existing: map<NodeKind, FactoryToken>, level: int)
    requires ResolvedFrom(resolvedStyles, a, indices, layout(Markdown))
    requires layout(Style(Heading(level))) != layout(Markdown)
    requires 1 <= level <= 6
    ensures var r := HeadingGetSpans(Lookup(existing, HeadingNode), HeadingStyles(resolvedStyles, layout), level);
      && (r.Generated? <==>
          layout(Style(Heading(level))) in indices && GetResourceId(a, layout(Style(Heading(level))), -1) != -1)
      && (!r.Generated? ==> (r.Delegated? <==> HeadingNode in existing))
  {
    StyleAtIff(resolvedStyles, a, indices, layout(Markdown), layout(Style(Heading(level))));
  }

  /** The plugin the helper registers, reduced to its span-factory configuration. */
  class HelperPlugin {
    const resolvedStyles: map<int, int>
    const layout: Layout

    /** The plugin's initialiser resolves the styles once. */
    constructor (a: TypedArray, indices: seq<int>, layout: Layout)
      ensures ResolvedFrom(resolvedStyles, a, indices, layout(Markdown))
      ensures this.layout == layout
    {
      var resolved, _ := ResolveStyles(a, indices, layout(Markdown));
      resolvedStyles := resolved;
      this.layout := layout;
    }

    /** `configureSpansFactory`. */
    method ConfigureSpansFactory(builder: SpansFactoryBuilder<Factory>)
      modifies builder
      ensures builder.calls == old(builder.calls) + SpansFactoryCalls(resolvedStyles, layout, builder.existing)
    {
      var s0 := builder.calls;
      MaybeSetHeadingFactory(builder);
      MaybeSetFactory(builder, Style(Emphasis), EmphasisNode);
      MaybeSetFactory(builder, Style(StrongEmphasis), StrongEmphasisNode);
      MaybeSetFactory(builder, Style(BlockQuote), BlockQuoteNode);
      MaybeSetFactory(builder, Style(Code), CodeNode);
      MaybeSetFactory(builder, Style(FencedCodeBlock), FencedCodeBlockNode);
      MaybeSetFactory(builder, Style(IndentedCodeBlock), IndentedCodeBlockNode);
      MaybeSetListFactory(builder);
      MaybeSetFactory(builder, Style(Paragraph), ParagraphNode);
      MaybeSetFactory(builder, Style(Link), LinkNode);
      Sequences.AppendTen(s0, HeadingCalls(HeadingStyles(resolvedStyles, layout), builder.existing),
        SetCalls(EmphasisNode, StyleOf(resolvedStyles, layout, Style(Emphasis))),
        SetCalls(StrongEmphasisNode, StyleOf(resolvedStyles, layout, Style(StrongEmphasis))),
        SetCalls(BlockQuoteNode, StyleOf(resolvedStyles, layout, Style(BlockQuote))),
        SetCalls(CodeNode, StyleOf(resolvedStyles, layout, Style(Code))),
        SetCalls(FencedCodeBlockNode, StyleOf(resolvedStyles, layout, Style(FencedCodeBlock))),
        SetCalls(IndentedCodeBlockNode, StyleOf(resolvedStyles, layout, Style(IndentedCodeBlock))),
        ListCalls(StyleOf(resolvedStyles, layout, Style(OrderedListItem)),
                  StyleOf(resolvedStyles, layout, Style(UnorderedListItem)), builder.existing),
        SetCalls(ParagraphNode, StyleOf(resolvedStyles, layout, Style(Paragraph))),
        SetCalls(LinkNode, StyleOf(resolvedStyles, layout, Style(Link))));
    }

    /** `maybeSetFactory`. */
    method MaybeSetFactory(builder: SpansFactoryBuilder<Factory>, styleAttr: Attr, node: NodeKind)
      modifies builder
      ensures builder.calls == old(builder.calls) + SetCalls(node, StyleOf(resolvedStyles, layout, styleAttr))
    {
      var style := StyleAt(resolvedStyles, layout(styleAttr));
      if style != -1 {
        builder.SetFactory(node, StyleFactory(style));
      }
    }

    /** `maybeSetHeadingFactory`. */
    method MaybeSetHeadingFactory(builder: SpansFactoryBuilder<Factory>)
      modifies builder
      ensures builder.calls == old(builder.calls) + HeadingCalls(HeadingStyles(resolvedStyles, layout), builder.existing)
    {
      var headingStyles := HeadingStyles(resolvedStyles, layout);
      if AnyStyle(headingStyles) {
        var original := builder.GetFactory(HeadingNode);
        builder.SetFactory(HeadingNode, HeadingFactory(original, headingStyles));
      }
    }

    /** `maybeSetListFactory`. */
    method MaybeSetListFactory(builder: SpansFactoryBuilder<Factory>)
      modifies builder
      ensures builder.calls == old(builder.calls)
        + ListCalls(StyleOf(resolvedStyles, layout, Style(OrderedListItem)),
                    StyleOf(resolvedStyles, layout, Style(UnorderedListItem)), builder.existing)
    {
      var orderedListStyle := StyleAt(resolvedStyles, layout(Style(OrderedListItem)));
      var unorderedListStyle := StyleAt(resolvedStyles, layout(Style(UnorderedListItem)));
      if orderedListStyle != -1 || unorderedListStyle != -1 {
        var original := builder.GetFactory(ListItemNode);
        builder.SetFactory(ListItemNode, ListFactory(original, orderedListStyle, unorderedListStyle));
      }
    }
  }

  /** `usePlugin`'s new plugin list: every copy of `plugin` removed, then `plugin` appended. */
  function UsedPlugins(plugins: seq<Plugin>, plugin: Plugin): seq<Plugin> {
    PluginLists.Without(plugins, {plugin}) + [plugin]
  }

  /** After `usePlugin(p)`, p occurs exactly once, last, and every other plugin keeps its occurrences. */
  lemma UsePluginOnceAndLast(plugins: seq<Plugin>, plugin: Plugin)
    ensures UsedPlugins(plugins, plugin)[|UsedPlugins(plugins, plugin)| - 1] == plugin
    ensures multiset(UsedPlugins(plugins, plugin))[plugin] == 1
    ensures forall q :: q != plugin ==> multiset(UsedPlugins(plugins, plugin))[q] == multiset(plugins)[q]
  {
    PluginLists.WithoutMembers(plugins, {plugin}, plugin);
    forall q | q != plugin
      ensures multiset(UsedPlugins(plugins, plugin))[q] == multiset(plugins)[q]
    {
      PluginLists.WithoutKeepsOthers(plugins, {plugin}, q);
    }
  }

  /** The plugins other than p keep their relative order: removal distributes over concatenation. */
  lemma UsePluginKeepsOrder(before: seq<Plugin>, after: seq<Plugin>, plugin: Plugin)
    ensures UsedPlugins(before + after, plugin)
      == PluginLists.Without(before, {plugin}) + PluginLists.Without(after, {plugin}) + [plugin]
  {
    PluginLists.WithoutAppend(before, after, {plugin});
  }

  /** Using the same plugin twice gives the list that using it once does. */
  lemma UsePluginIdempotent(plugins: seq<Plugin>, plugin: Plugin)
    ensures UsedPlugins(UsedPlugins(plugins, plugin), plugin) == UsedPlugins(plugins, plugin)
  {
    var once := PluginLists.Without(plugins, {plugin});
    PluginLists.WithoutAppend(once, [plugin], {plugin});
    PluginLists.WithoutIdempotent(plugins, {plugin});
    assert PluginLists.Without([plugin], {plugin}) == [];
  }

  /** `MarkwonHelper`: owns the current `markwon`. */
  class MarkwonHelper {
    var markwon: Markwon

    /** `Markwon.builder(context)` starts with the core plugin; the helper's plugin follows it. */
    constructor (helperPlugin: Plugin)
      ensures markwon.plugins == [CorePlugin, helperPlugin]
    {
      markwon := Markwon([CorePlugin, helperPlugin]);
    }

    /** `usePlugin`: rebuilds without the core defaults from the updated list. */
    method UsePlugin(plugin: Plugin)
      modifies this
      ensures markwon.plugins == UsedPlugins(old(markwon.plugins), plugin)
    {
      var plugins := PluginLists.Without(markwon.plugins, {plugin});
      plugins := plugins + [plugin];
      markwon := Markwon(plugins);
    }
  }
}
