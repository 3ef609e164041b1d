/**
 * `se.ingenuity.markdownview.util.MarkdownViewPlugin` (Kotlin). Unlike the
 * Java plugin it prepends pre-style factories and appends post-style ones,
 * its heading and list item factories have no fallback to the factory they
 * replace, and it also forwards `mdLinkUnderlined` to the theme.
 */
module MarkdownViewPluginKt {
  import opened Wrappers
  import opened Resources
  import opened Markwon
  import opened ResolvedAttributesJava
  import K = ResolvedAttributesKt
  import Sequences

  /** The span factories the plugin installs. */
  datatype Factory =
    /** `{ _, _ -> spanGenerator.createSpansForStyle(style) }` */
    | StyleFactory(style: int)
    | HeadingSpanFactory(headingStyles: seq<int>)
    | ListItemSpanFactory(orderedStyle: int, unorderedStyle: int)

  // ---------------------------------------------------------------- theme

  function ListItemColorCalls(r: K.ResolvedAttributes): seq<ThemeCall> {
    if r.listItemColor.Some? then [ListItemColorCall(r.listItemColor.value)] else []
  }

  function CodeBlockBackgroundColorCalls(r: K.ResolvedAttributes): seq<ThemeCall> {
    if r.codeBlockBackgroundColor.Some? then [CodeBlockBackgroundColorCall(r.codeBlockBackgroundColor.value)] else []
  }

  function CodeBlockTextColorCalls(r: K.ResolvedAttributes): seq<ThemeCall> {
    if r.codeBlockTextColor.Some? then [CodeBlockTextColorCall(r.codeBlockTextColor.value)] else []
  }

  function CodeBlockMarginCalls(r: K.ResolvedAttributes): seq<ThemeCall> {
    if r.codeBlockMargin != UNDEFINED_DIMEN then [CodeBlockMarginCall(r.codeBlockMargin)] else []
  }

  function ThematicBreakColorCalls(r: K.ResolvedAttributes): seq<ThemeCall> {
    if r.thematicBreakColor.Some? then [ThematicBreakColorCall(r.thematicBreakColor.value)] else []
  }

  function ThematicBreakHeightCalls(r: K.ResolvedAttributes): seq<ThemeCall> {
    if r.thematicBreakHeight != UNDEFINED_DIMEN then [ThematicBreakHeightCall(r.thematicBreakHeight)] else []
  }

  /** The `builder.isLinkUnderlined` call, when `mdLinkUnderlined` has a value. */
  function LinkUnderlinedCalls(r: K.ResolvedAttributes): seq<ThemeCall> {
    if r.linkUnderlined.Some? then [LinkUnderlinedCall(r.linkUnderlined.value)] else []
  }

  /** The theme setters `configureTheme` calls, in order. */
  function ThemeCalls(r: K.ResolvedAttributes): seq<ThemeCall> {
    ListItemColorCalls(r) + CodeBlockBackgroundColorCalls(r) + CodeBlockTextColorCalls(r)
    + CodeBlockMarginCalls(r) + ThematicBreakColorCalls(r) + ThematicBreakHeightCalls(r) + LinkUnderlinedCalls(r)
  }

  /** A setter is called with a value exactly when the attribute resolved to that value, and at most once. */
  lemma ThemeCallsIff(r: K.ResolvedAttributes, value: int, underlined: bool)
    ensures ListItemColorCall(value) in ThemeCalls(r) <==> r.listItemColor == Some(value)
    ensures CodeBlockBackgroundColorCall(value) in ThemeCalls(r) <==> r.codeBlockBackgroundColor == Some(value)
    ensures CodeBlockTextColorCall(value) in ThemeCalls(r) <==> r.codeBlockTextColor == Some(value)
    ensures CodeBlockMarginCall(value) in ThemeCalls(r) <==>
      r.codeBlockMargin != UNDEFINED_DIMEN && value == r.codeBlockMargin
    ensures ThematicBreakColorCall(value) in ThemeCalls(r) <==> r.thematicBreakColor == Some(value)
    ensures ThematicBreakHeightCall(value) in ThemeCalls(r) <==>
      r.thematicBreakHeight != UNDEFINED_DIMEN && value == r.thematicBreakHeight
    ensures LinkUnderlinedCall(underlined) in ThemeCalls(r) <==> r.linkUnderlined == Some(underlined)
    ensures |ThemeCalls(r)| <= 7
  {
    var calls := ThemeCalls(r);
    forall c | c in calls
      ensures (c in ListItemColorCalls(r) <==> c.ListItemColorCall?)
           && (c in CodeBlockBackgroundColorCalls(r) <==> c.CodeBlockBackgroundColorCall?)
           && (c in CodeBlockTextColorCalls(r) <==> c.CodeBlockTextColorCall?)
           && (c in CodeBlockMarginCalls(r) <==> c.CodeBlockMarginCall?)
           && (c in ThematicBreakColorCalls(r) <==> c.ThematicBreakColorCall?)
           && (c in ThematicBreakHeightCalls(r) <==> c.ThematicBreakHeightCall?)
           && (c in LinkUnderlinedCalls(r) <==> c.LinkUnderlinedCall?)
    {
    }
  }

  // ------------------------------------------------------------ factories

  /** `groups.any(StyleGroup::hasPreStyle)` and its siblings. */
  predicate AnyHasPreStyle(groups: seq<StyleGroup>) { exists i :: 0 <= i < |groups| && groups[i].HasPreStyle() }
  predicate AnyHasStyle(groups: seq<StyleGroup>) { exists i :: 0 <= i < |groups| && groups[i].HasStyle() }
  predicate AnyHasPostStyle(groups: seq<StyleGroup>) { exists i :: 0 <= i < |groups| && groups[i].HasPostStyle() }

  /** `groups.map(StyleGroup::preStyle).toIntArray()` and its siblings. */
  function PreStyles(groups: seq<StyleGroup>): (r: seq<int>)
    ensures |r| == |groups| && forall i :: 0 <= i < |groups| ==> r[i] == groups[i].preStyle
  {
    seq(|groups|, i requires 0 <= i < |groups| => groups[i].preStyle)
  }

  function MainStyles(groups: seq<StyleGroup>): (r: seq<int>)
    ensures |r| == |groups| && forall i :: 0 <= i < |groups| ==> r[i] == groups[i].style
  {
    seq(|groups|, i requires 0 <= i < |groups| => groups[i].style)
  }

  function PostStyles(groups: seq<StyleGroup>): (r: seq<int>)
    ensures |r| == |groups| && forall i :: 0 <= i < |groups| ==> r[i] == groups[i].postStyle
  {
    seq(|groups|, i requires 0 <= i < |groups| => groups[i].postStyle)
  }

  /** `maybeApplyFactories`: pre-style prepended, main style set, post-style appended. */
  function GroupCalls(node: NodeKind, g: StyleGroup): seq<FactoryCall<Factory>> {
    (if g.HasPreStyle() then [Prepend(node, StyleFactory(g.preStyle))] else [])
    + (if g.HasStyle() then [Set(node, StyleFactory(g.style))] else [])
    + (if g.HasPostStyle() then [Append(node, StyleFactory(g.postStyle))] else [])
  }

  function HeadingPreStyleCalls(groups: seq<StyleGroup>): seq<FactoryCall<Factory>> {
    if AnyHasPreStyle(groups) then [Prepend(HeadingNode, HeadingSpanFactory(PreStyles(groups)))] else []
  }

  function HeadingStyleCalls(groups: seq<StyleGroup>): seq<FactoryCall<Factory>> {
    if AnyHasStyle(groups) then [Set(HeadingNode, HeadingSpanFactory(MainStyles(groups)))] else []
  }

  function HeadingPostStyleCalls(groups: seq<StyleGroup>): seq<FactoryCall<Factory>> {
    if AnyHasPostStyle(groups) then [Append(HeadingNode, HeadingSpanFactory(PostStyles(groups)))] else []
  }

  /** `maybeApplyHeadingFactories`. */
  function HeadingCalls(groups: seq<StyleGroup>): seq<FactoryCall<Factory>> {
    HeadingPreStyleCalls(groups) + HeadingStyleCalls(groups) + HeadingPostStyleCalls(groups)
  }

  /** `maybeApplyListFactories`. */
  function ListCalls(ordered: StyleGroup, unordered: StyleGroup): seq<FactoryCall<Factory>> {
    (if ordered.HasPreStyle() || unordered.HasPreStyle()
     then [Prepend(ListItemNode, ListItemSpanFactory(ordered.preStyle, unordered.preStyle))] else [])
    + (if ordered.HasStyle() || unordered.HasStyle()
       then [Set(ListItemNode, ListItemSpanFactory(ordered.style, unordered.style))] else [])
    + (if ordered.HasPostStyle() || unordered.HasPostStyle()
       then [Append(ListItemNode, ListItemSpanFactory(ordered.postStyle, unordered.postStyle))] else [])
  }

  /** Every call `configureSpansFactory` makes, in order. */
  function SpansFactoryCalls(r: K.ResolvedAttributes): seq<FactoryCall<Factory>> {
    HeadingCalls(r.headingStyleGroups)
    + GroupCalls(EmphasisNode, r.emphasisStyleGroup)
    + GroupCalls(StrongEmphasisNode, r.strongEmphasisStyleGroup)
    + GroupCalls(BlockQuoteNode, r.blockQuoteStyleGroup)
    + GroupCalls(CodeNode, r.codeStyleGroup)
    + GroupCalls(FencedCodeBlockNode, r.fencedCodeBlockStyleGroup)
    + GroupCalls(IndentedCodeBlockNode, r.indentedCodeBlockStyleGroup)
    + ListCalls(r.orderedListItemStyleGroup, r.unorderedListItemStyleGroup)
    + GroupCalls(ParagraphNode, r.paragraphStyleGroup)
    + GroupCalls(LinkNode, r.linkStyleGroup)
  }

  /** A factory for one element's style is installed exactly when the group has that style. */
  lemma GroupCallsIff(node: NodeKind, g: StyleGroup)
    ensures Prepend(node, StyleFactory(g.preStyle)) in GroupCalls(node, g) <==> g.HasPreStyle()
    ensures Set(node, StyleFactory(g.style)) in GroupCalls(node, g) <==> g.HasStyle()
    ensures Append(node, StyleFactory(g.postStyle)) in GroupCalls(node, g) <==> g.HasPostStyle()
    ensures forall c :: c in GroupCalls(node, g) ==> c.node == node && c.factory.StyleFactory? && IsStyleValid(c.factory.style)
    ensures GroupCalls(node, g) == [] <==> g == EMPTY
  {
  }

  /** A heading factory of each kind is installed exactly when some heading has that kind of style. */
  lemma HeadingCallsIff(groups: seq<StyleGroup>)
    ensures (exists c :: c in HeadingCalls(groups) && c.Prepend?) <==> AnyHasPreStyle(groups)
    ensures (exists c :: c in HeadingCalls(groups) && c.Set?) <==> AnyHasStyle(groups)
    ensures (exists c :: c in HeadingCalls(groups) && c.Append?) <==> AnyHasPostStyle(groups)
    ensures forall c :: c in HeadingCalls(groups) ==> c.node == HeadingNode
  {
    if AnyHasPreStyle(groups) {
      assert HeadingCalls(groups)[0].Prepend?;
    }
    if AnyHasStyle(groups) {
      assert Set(HeadingNode, HeadingSpanFactory(MainStyles(groups))) in HeadingCalls(groups);
    }
    if AnyHasPostStyle(groups) {
      assert Append(HeadingNode, HeadingSpanFactory(PostStyles(groups))) in HeadingCalls(groups);
    }
  }

  /** A list item factory of each kind is installed exactly when the ordered or the unordered group has that kind of style. */
  lemma ListCallsIff(ordered: StyleGroup, unordered: StyleGroup)
    ensures (exists c :: c in ListCalls(ordered, unordered) && c.Prepend?) <==>
      ordered.HasPreStyle() || unordered.HasPreStyle()
    ensures (exists c :: c in ListCalls(ordered, unordered) && c.Set?) <==>
      ordered.HasStyle() || unordered.HasStyle()
    ensures (exists c :: c in ListCalls(ordered, unordered) && c.Append?) <==>
      ordered.HasPostStyle() || unordered.HasPostStyle()
    ensures forall c :: c in ListCalls(ordered, unordered) ==> c.node == ListItemNode && c.factory.ListItemSpanFactory?
  {
    var calls := ListCalls(ordered, unordered);
    if ordered.HasPreStyle() || unordered.HasPreStyle() {
      assert calls[0].Prepend?;
    }
    if ordered.HasStyle() || unordered.HasStyle() {
      assert Set(ListItemNode, ListItemSpanFactory(ordered.style, unordered.style)) in calls;
    }
    if ordered.HasPostStyle() || unordered.HasPostStyle() {
      assert calls[|calls| - 1].Append?;
    }
  }

  // ------------------------------------------------------------ getSpans

  /** `HeadingSpanFactory.getSpans`: the spans for the level's style when it is valid, else null. */
  function HeadingGetSpans(headingStyles: seq<int>, level: int): (r: SpanResult)
    requires 1 <= level <= |headingStyles|
    ensures r.Generated? <==> IsStyleValid(headingStyles[level - 1])
    ensures r.Generated? ==> r.style == headingStyles[level - 1]
    ensures !r.Delegated?
  {
    var style := headingStyles[level - 1];
    if IsStyleValid(style) then Generated(style) else NoSpans
  }

  /** `ListItemSpanFactory.getSpans`: the style of the item's kind when it is valid, else null. */
  function ListItemGetSpans(orderedStyle: int, unorderedStyle: int, itemType: ListItemType): (r: SpanResult)
    ensures r.Generated? <==>
      (itemType == Ordered && IsStyleValid(orderedStyle)) || (itemType == Bullet && IsStyleValid(unorderedStyle))
    ensures r.Generated? ==> r.style == if itemType == Ordered then orderedStyle else unorderedStyle
    ensures !r.Delegated?
  {
    if itemType == Ordered && IsStyleValid(orderedStyle) then Generated(orderedStyle)
    else if itemType == Bullet && IsStyleValid(unorderedStyle) then Generated(unorderedStyle)
    else NoSpans
  }

  /** The main-style heading factory answers each level with that heading's own main style, or null. */
  lemma HeadingFactoryFollowsGroups(groups: seq<StyleGroup>, level: int)
    requires 1 <= level <= |groups|
    ensures groups[level - 1].HasStyle() ==> HeadingGetSpans(MainStyles(groups), level) == Generated(groups[level - 1].style)
    ensures !groups[level - 1].HasStyle() ==> HeadingGetSpans(MainStyles(groups), level) == NoSpans
  {
  }

  // --------------------------------------------------------------- plugin

  class MarkdownViewPlugin {
    const resolvedAttributes: K.ResolvedAttributes

    /** The initialiser resolves the attributes once. */
    constructor (a: TypedArray, layout: Layout)
      ensures resolvedAttributes == K.Resolve(a, layout)
    {
      resolvedAttributes := K.Resolve(a, layout);
    }

    /** `configureTheme`. */
    method ConfigureTheme(builder: ThemeBuilder)
      modifies builder
      ensures builder.calls == old(builder.calls) + ThemeCalls(resolvedAttributes)
    {
      var r := resolvedAttributes;
      ghost var s0 := builder.calls;
      if r.listItemColor.Some? {
        builder.Apply(ListItemColorCall(r.listItemColor.value));
      }
      ghost var s1 := builder.calls;
      assert s1 == s0 + ListItemColorCalls(r);
      if r.codeBlockBackgroundColor.Some? {
        builder.Apply(CodeBlockBackgroundColorCall(r.codeBlockBackgroundColor.value));
      }
      ghost var s2 := builder.calls;
      assert s2 == s1 + CodeBlockBackgroundColorCalls(r);
      if r.codeBlockTextColor.Some? {
        builder.Apply(CodeBlockTextColorCall(r.codeBlockTextColor.value));
      }
      ghost var s3 := builder.calls;
      assert s3 == s2 + CodeBlockTextColorCalls(r);
      if r.codeBlockMargin != UNDEFINED_DIMEN {
        builder.Apply(CodeBlockMarginCall(r.codeBlockMargin));
      }
      ghost var s4 := builder.calls;
      assert s4 == s3 + CodeBlockMarginCalls(r);
      if r.thematicBreakColor.Some? {
        builder.Apply(ThematicBreakColorCall(r.thematicBreakColor.value));
      }
      ghost var s5 := builder.calls;
      assert s5 == s4 + ThematicBreakColorCalls(r);
      if r.thematicBreakHeight != UNDEFINED_DIMEN {
        builder.Apply(ThematicBreakHeightCall(r.thematicBreakHeight));
      }
      ghost var s6 := builder.calls;
      assert s6 == s5 + ThematicBreakHeightCalls(r);
      if r.linkUnderlined.Some? {
        builder.Apply(LinkUnderlinedCall(r.linkUnderlined.value));
      }
      assert builder.calls == s6 + LinkUnderlinedCalls(r);
      Sequences.AppendSeven(s0, ListItemColorCalls(r), CodeBlockBackgroundColorCalls(r), CodeBlockTextColorCalls(r),
        CodeBlockMarginCalls(r), ThematicBreakColorCalls(r), ThematicBreakHeightCalls(r), LinkUnderlinedCalls(r));
    }

    /** `configureSpansFactory`. */
    method ConfigureSpansFactory(builder: SpansFactoryBuilder<Factory>)
      modifies builder
      ensures builder.calls == old(builder.calls) + SpansFactoryCalls(resolvedAttributes)
    {
      var r := resolvedAttributes;
      ghost var s0 := builder.calls;
      MaybeApplyHeadingFactories(builder);
      MaybeApplyFactories(EmphasisNode, builder, r.emphasisStyleGroup);
      MaybeApplyFactories(StrongEmphasisNode, builder, r.strongEmphasisStyleGroup);
      MaybeApplyFactories(BlockQuoteNode, builder, r.blockQuoteStyleGroup);
      MaybeApplyFactories(CodeNode, builder, r.codeStyleGroup);
      MaybeApplyFactories(FencedCodeBlockNode, builder, r.fencedCodeBlockStyleGroup);
      MaybeApplyFactories(IndentedCodeBlockNode, builder, r.indentedCodeBlockStyleGroup);
      MaybeApplyListFactories(builder);
      MaybeApplyFactories(ParagraphNode, builder, r.paragraphStyleGroup);
      MaybeApplyFactories(LinkNode, builder, r.linkStyleGroup);
      Sequences.AppendTen(s0, HeadingCalls(r.headingStyleGroups),
        GroupCalls(EmphasisNode, r.emphasisStyleGroup), GroupCalls(StrongEmphasisNode, r.strongEmphasisStyleGroup),
        GroupCalls(BlockQuoteNode, r.blockQuoteStyleGroup), GroupCalls(CodeNode, r.codeStyleGroup),
        GroupCalls(FencedCodeBlockNode, r.fencedCodeBlockStyleGroup),
        GroupCalls(IndentedCodeBlockNode, r.indentedCodeBlockStyleGroup),
        ListCalls(r.orderedListItemStyleGroup, r.unorderedListItemStyleGroup),
        GroupCalls(ParagraphNode, r.paragraphStyleGroup), GroupCalls(LinkNode, r.linkStyleGroup));
    }

    /** `maybeApplyFactories`. */
    method MaybeApplyFactories(node: NodeKind, builder: SpansFactoryBuilder<Factory>, styleGroup: StyleGroup)
      modifies builder
      ensures builder.calls == old(builder.calls) + GroupCalls(node, styleGroup)
    {
      ghost var s0 := builder.calls;
      if styleGroup.HasPreStyle() {
        builder.PrependFactory(node, StyleFactory(styleGroup.preStyle));
      }
      ghost var s1 := builder.calls;
      assert s1 == s0 + (if styleGroup.HasPreStyle() then [Prepend(node, StyleFactory(styleGroup.preStyle))] else []);
      if styleGroup.HasStyle() {
        builder.SetFactory(node, StyleFactory(styleGroup.style));
      }
      ghost var s2 := builder.calls;
      assert s2 == s1 + (if styleGroup.HasStyle() then [Set(node, StyleFactory(styleGroup.style))] else []);
      if styleGroup.HasPostStyle() {
        builder.AppendFactory(node, StyleFactory(styleGroup.postStyle));
      }
    }

    /** `maybeApplyHeadingFactories`. */
    method MaybeApplyHeadingFactories(builder: SpansFactoryBuilder<Factory>)
      modifies builder
      ensures builder.calls == old(builder.calls) + HeadingCalls(resolvedAttributes.headingStyleGroups)
    {
      var headingStyleGroups := resolvedAttributes.headingStyleGroups;
      ghost var s0 := builder.calls;
      if AnyHasPreStyle(headingStyleGroups) {
        builder.PrependFactory(HeadingNode, HeadingSpanFactory(PreStyles(headingStyleGroups)));
      }
      ghost var s1 := builder.calls;
      assert s1 == s0 + HeadingPreStyleCalls(headingStyleGroups);
      if AnyHasStyle(headingStyleGroups) {
        builder.SetFactory(HeadingNode, HeadingSpanFactory(MainStyles(headingStyleGroups)));
      }
      ghost var s2 := builder.calls;
      assert s2 == s1 + HeadingStyleCalls(headingStyleGroups);
      if AnyHasPostStyle(headingStyleGroups) {
        builder.AppendFactory(HeadingNode, HeadingSpanFactory(PostStyles(headingStyleGroups)));
      }
      Sequences.AppendThree(s0, HeadingPreStyleCalls(headingStyleGroups), HeadingStyleCalls(headingStyleGroups),
        HeadingPostStyleCalls(headingStyleGroups));
    }

    /** `maybeApplyListFactories`. */
    method MaybeApplyListFactories(builder: SpansFactoryBuilder<Factory>)
      modifies builder
      ensures builder.calls == old(builder.calls)
        + ListCalls(resolvedAttributes.orderedListItemStyleGroup, resolvedAttributes.unorderedListItemStyleGroup)
    {
      var ordered := resolvedAttributes.orderedListItemStyleGroup;
      var unordered := resolvedAttributes.unorderedListItemStyleGroup;
      ghost var s0 := builder.calls;
      if ordered.HasPreStyle() || unordered.HasPreStyle() {
        builder.PrependFactory(ListItemNode, ListItemSpanFactory(ordered.preStyle, unordered.preStyle));
      }
      ghost var s1 := builder.calls;
      assert s1 == s0 + (if ordered.HasPreStyle() || unordered.HasPreStyle()
        then [Prepend(ListItemNode, ListItemSpanFactory(ordered.preStyle, unordered.preStyle))] else []);
      if ordered.HasStyle() || unordered.HasStyle() {
        builder.SetFactory(ListItemNode, ListItemSpanFactory(ordered.style, unordered.style));
      }
      ghost var s2 := builder.calls;
      assert s2 == s1 + (if ordered.HasStyle() || unordered.HasStyle()
        then [Set(ListItemNode, ListItemSpanFactory(ordered.style, unordered.style))] else []);
      if ordered.HasPostStyle() || unordered.HasPostStyle() {
        builder.AppendFactory(ListItemNode, ListItemSpanFactory(ordered.postStyle, unordered.postStyle));
      }
    }
  }
}
