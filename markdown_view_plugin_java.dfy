/**
 * `se.ingenuity.markdownview.util.MarkdownViewPlugin` (Java): the Markwon
 * plugin that turns the resolved attributes into theme settings and span
 * factories. A span factory is modelled by the data it closes over; what it
 * returns for a node is `HeadingGetSpans` / `ListItemGetSpans` / `Generated`.
 */
module MarkdownViewPluginJava {
  import opened Wrappers
  import opened Resources
  import opened Markwon
  import opened ResolvedAttributesJava
  import CollectionUtils = UtilCollectionUtils
  import ArrayUtils
  import Sequences

  /** The span factories the plugin installs. */
  datatype Factory =
    /** `(configuration, props) -> SpanGenerator.createSpansForStyle(context, style)` */
    | StyleFactory(style: int)
    | HeadingSpanFactory(originalFactory: Option<FactoryToken>, headingStyles: seq<int>)
    | ListItemSpanFactory(originalFactory: Option<FactoryToken>, orderedStyle: int, unorderedStyle: int)

  // ---------------------------------------------------------------- theme

  /** The `builder.listItemColor` call, when the colour has a value. */
  function ListItemColorCalls(r: ResolvedAttributes): seq<ThemeCall> {
    if r.listItemColor.Some? then [ListItemColorCall(r.listItemColor.value)] else []
  }

  function CodeBlockBackgroundColorCalls(r: ResolvedAttributes): seq<ThemeCall> {
    if r.codeBlockBackgroundColor.Some? then [CodeBlockBackgroundColorCall(r.codeBlockBackgroundColor.value)] else []
  }

  function CodeBlockTextColorCalls(r: ResolvedAttributes): seq<ThemeCall> {
    if r.codeBlockTextColor.Some? then [CodeBlockTextColorCall(r.codeBlockTextColor.value)] else []
  }

  /** The `builder.codeBlockMargin` call, when the margin is not `UNDEFINED_DIMEN`. */
  function CodeBlockMarginCalls(r: ResolvedAttributes): seq<ThemeCall> {
    if r.codeBlockMargin != UNDEFINED_DIMEN then [CodeBlockMarginCall(r.codeBlockMargin)] else []
  }

  function ThematicBreakColorCalls(r: ResolvedAttributes): seq<ThemeCall> {
    if r.thematicBreakColor.Some? then [ThematicBreakColorCall(r.thematicBreakColor.value)] else []
  }

  function ThematicBreakHeightCalls(r: ResolvedAttributes): seq<ThemeCall> {
    if r.thematicBreakHeight != UNDEFINED_DIMEN then [ThematicBreakHeightCall(r.thematicBreakHeight)] else []
  }

  /** The theme setters `configureTheme` calls, in order: one per attribute that has a value. */
  function ThemeCalls(r: ResolvedAttributes): seq<ThemeCall> {
    ListItemColorCalls(r) + CodeBlockBackgroundColorCalls(r) + CodeBlockTextColorCalls(r)
    + CodeBlockMarginCalls(r) + ThematicBreakColorCalls(r) + ThematicBreakHeightCalls(r)
  }

  /**
   * A setter is called with a value exactly when the attribute resolved to
   * that value; the Java plugin never sets link underlining; each setter is
   * called at most once.
   */
  lemma ThemeCallsIff(r: ResolvedAttributes, value: int, underlined: bool)
    ensures ListItemColorCall(value) in ThemeCalls(r) <==> r.listItemColor == Some(value)
    ensures CodeBlockBackgroundColorCall(value) in ThemeCalls(r) <==> r.codeBlockBackgroundColor == Some(value)
    ensures CodeBlockTextColorCall(value) in ThemeCalls(r) <==> r.codeBlockTextColor == Some(value)
    ensures CodeBlockMarginCall(value) in ThemeCalls(r) <==>
      r.codeBlockMargin != UNDEFINED_DIMEN && value == r.codeBlockMargin
    ensures ThematicBreakColorCall(value) in ThemeCalls(r) <==> r.thematicBreakColor == Some(value)
    ensures ThematicBreakHeightCall(value) in ThemeCalls(r) <==>
      r.thematicBreakHeight != UNDEFINED_DIMEN && value == r.thematicBreakHeight
    ensures LinkUnderlinedCall(underlined) !in ThemeCalls(r)
    ensures |ThemeCalls(r)| <= 6
  {
    var calls := ThemeCalls(r);
    forall c | c in calls
      ensures (c in ListItemColorCalls(r) <==> c.ListItemColorCall?)
           && (c in CodeBlockBackgroundColorCalls(r) <==> c.CodeBlockBackgroundColorCall?)
           && (c in CodeBlockTextColorCalls(r) <==> c.CodeBlockTextColorCall?)
           && (c in CodeBlockMarginCalls(r) <==> c.CodeBlockMarginCall?)
           && (c in ThematicBreakColorCalls(r) <==> c.ThematicBreakColorCall?)
           && (c in ThematicBreakHeightCalls(r) <==> c.ThematicBreakHeightCall?)
    {
    }
  }

  // ------------------------------------------------------------ factories

  predicate GroupHasPreStyle(g: StyleGroup) { g.HasPreStyle() }
  predicate GroupHasStyle(g: StyleGroup) { g.HasStyle() }
  predicate GroupHasPostStyle(g: StyleGroup) { g.HasPostStyle() }
  function PreStyleOf(g: StyleGroup): int { g.preStyle }
  function StyleOf(g: StyleGroup): int { g.style }
  function PostStyleOf(g: StyleGroup): int { g.postStyle }

  /** `ArrayUtils.map(groups, f)`, as the values it holds. */
  function Styles(groups: seq<StyleGroup>, f: StyleGroup -> int): (r: seq<int>)
    ensures |r| == |groups|
    ensures forall i :: 0 <= i < |groups| ==> r[i] == f(groups[i])
  {
    ArrayUtils.Mapped(groups, f)
  }

  /**
   * `maybeApplyFactories`: the pre-style is appended, the main style set and
   * the post-style prepended, each only when the group has it.
   */
  function GroupCalls(node: NodeKind, g: StyleGroup): seq<FactoryCall<Factory>> {
    (if g.HasPreStyle() then [Append(node, StyleFactory(g.preStyle))] else [])
    + (if g.HasStyle() then [Set(node, StyleFactory(g.style))] else [])
    + (if g.HasPostStyle() then [Prepend(node, StyleFactory(g.postStyle))] else [])
  }

  /**
   * `maybeApplyHeadingFactories`, with the post-style factory installed by
   * `setFactory` when `postStyleBySet` holds (the code as it stands) and by
   * `prependFactory` otherwise (as for every other element).
   */
  ghost function HeadingCallsWith(groups: seq<StyleGroup>, original: Option<FactoryToken>, postStyleBySet: bool)
    : seq<FactoryCall<Factory>>
  {
    HeadingPreStyleCalls(groups) + HeadingStyleCalls(groups, original) + HeadingPostStyleCalls(groups, postStyleBySet)
  }

  ghost function HeadingPreStyleCalls(groups: seq<StyleGroup>): seq<FactoryCall<Factory>> {
    if CollectionUtils.Exists(groups, GroupHasPreStyle)
    then [Append(HeadingNode, HeadingSpanFactory(None, Styles(groups, PreStyleOf)))] else []
  }

  ghost function HeadingStyleCalls(groups: seq<StyleGroup>, original: Option<FactoryToken>): seq<FactoryCall<Factory>> {
    if CollectionUtils.Exists(groups, GroupHasStyle)
    then [Set(HeadingNode, HeadingSpanFactory(original, Styles(groups, StyleOf)))] else []
  }

  ghost function HeadingPostStyleCalls(groups: seq<StyleGroup>, postStyleBySet: bool): seq<FactoryCall<Factory>> {
    var post := HeadingSpanFactory(None, Styles(groups, PostStyleOf));
    if CollectionUtils.Exists(groups, GroupHasPostStyle)
    then [if postStyleBySet then Set(HeadingNode, post) else Prepend(HeadingNode, post)] else []
  }

  /** The heading calls as the code stands. */
  ghost function HeadingCallsAsWritten(groups: seq<StyleGroup>, original: Option<FactoryToken>): seq<FactoryCall<Factory>> {
    HeadingCallsWith(groups, original, true)
  }

  /** The heading calls with the post-style factory prepended. */
  ghost function HeadingCalls(groups: seq<StyleGroup>, original: Option<FactoryToken>): seq<FactoryCall<Factory>> {
    HeadingCallsWith(groups, original, false)
  }

  /**
   * `maybeApplyListFactories`: one list item factory per kind of style that
   * the ordered or the unordered group has; only the main-style one falls back
   * to the original factory.
   */
  function ListCalls(ordered: StyleGroup, unordered: StyleGroup, original: Option<FactoryToken>)
    : seq<FactoryCall<Factory>>
  {
    (if ordered.HasPreStyle() || unordered.HasPreStyle()
     then [Append(ListItemNode, ListItemSpanFactory(None, ordered.preStyle, unordered.preStyle))] else [])
    + (if ordered.HasStyle() || unordered.HasStyle()
       then [Set(ListItemNode, ListItemSpanFactory(original, ordered.style, unordered.style))] else [])
    + (if ordered.HasPostStyle() || unordered.HasPostStyle()
       then [Prepend(ListItemNode, ListItemSpanFactory(None, ordered.postStyle, unordered.postStyle))] else [])
  }

  /**
   * Every call `configureSpansFactory` makes, in order; the heading post-style
   * factory is set when `postStyleBySet` holds (the code as it stands) and
   * prepended otherwise.
   */
  ghost function SpansFactoryCalls(r: ResolvedAttributes, existing: map<NodeKind, FactoryToken>, postStyleBySet: bool)
    : seq<FactoryCall<Factory>>
  {
    HeadingCallsWith(r.headingStyleGroups, Lookup(existing, HeadingNode), postStyleBySet)
    + GroupCalls(EmphasisNode, r.emphasisStyleGroup)
    + GroupCalls(StrongEmphasisNode, r.strongEmphasisStyleGroup)
    + GroupCalls(BlockQuoteNode, r.blockQuoteStyleGroup)
    + GroupCalls(CodeNode, r.codeStyleGroup)
    + GroupCalls(FencedCodeBlockNode, r.fencedCodeBlockStyleGroup)
    + GroupCalls(IndentedCodeBlockNode, r.indentedCodeBlockStyleGroup)
    + ListCalls(r.orderedListItemStyleGroup, r.unorderedListItemStyleGroup, Lookup(existing, ListItemNode))
    + GroupCalls(ParagraphNode, r.paragraphStyleGroup)
    + GroupCalls(LinkNode, r.linkStyleGroup)
  }

  /** A factory for one element's style is installed exactly when the group has that style. */
  lemma GroupCallsIff(node: NodeKind, g: StyleGroup)
    ensures Append(node, StyleFactory(g.preStyle)) in GroupCalls(node, g) <==> g.HasPreStyle()
    ensures Set(node, StyleFactory(g.style)) in GroupCalls(node, g) <==> g.HasStyle()
    ensures Prepend(node, StyleFactory(g.postStyle)) in GroupCalls(node, g) <==> g.HasPostStyle()
    ensures forall c :: c in GroupCalls(node, g) ==> c.node == node && c.factory.StyleFactory? && IsStyleValid(c.factory.style)
    ensures GroupCalls(node, g) == [] <==> g == EMPTY
  {
  }

  /**
   * A list item factory of each kind is installed exactly when the ordered or
   * the unordered group has that kind of style; only the main-style one keeps
   * the original factory.
   */
  lemma ListCallsIff(ordered: StyleGroup, unordered: StyleGroup, original: Option<FactoryToken>)
    ensures (exists c :: c in ListCalls(ordered, unordered, original) && c.Append?) <==>
      ordered.HasPreStyle() || unordered.HasPreStyle()
    ensures (exists c :: c in ListCalls(ordered, unordered, original) && c.Set?) <==>
      ordered.HasStyle() || unordered.HasStyle()
    ensures (exists c :: c in ListCalls(ordered, unordered, original) && c.Prepend?) <==>
      ordered.HasPostStyle() || unordered.HasPostStyle()
    ensures forall c :: c in ListCalls(ordered, unordered, original) ==>
      c.node == ListItemNode && c.factory.ListItemSpanFactory?
      && c.factory.originalFactory == (if c.Set? then original else None)
  {
    var calls := ListCalls(ordered, unordered, original);
    if ordered.HasPreStyle() || unordered.HasPreStyle() {
      assert calls[0].Append?;
    }
    if ordered.HasStyle() || unordered.HasStyle() {
      assert Set(ListItemNode, ListItemSpanFactory(original, ordered.style, unordered.style)) in calls;
    }
    if ordered.HasPostStyle() || unordered.HasPostStyle() {
      assert calls[|calls| - 1].Prepend?;
    }
  }

  // ------------------------------------------------------------ getSpans

  /**
   * `HeadingSpanFactory.getSpans` for a heading of `level`: the spans for the
   * level's style when it is valid, else the original factory's spans, else null.
   */
  function HeadingGetSpans(originalFactory: Option<FactoryToken>, headingStyles: seq<int>, level: int): (r: SpanResult)
    requires 1 <= level <= |headingStyles|
    ensures r.Generated? <==> IsStyleValid(headingStyles[level - 1])
    ensures r.Generated? ==> r.style == headingStyles[level - 1]
    ensures r.Delegated? <==> !IsStyleValid(headingStyles[level - 1]) && originalFactory.Some?
    ensures r.Delegated? ==> r.original == originalFactory.value
  {
    var style := headingStyles[level - 1];
    if IsStyleValid(style) then Generated(style)
    else if originalFactory.Some? then Delegated(originalFactory.value)
    else NoSpans
  }

  /**
   * `ListItemSpanFactory.getSpans`: an ordered item gets the ordered style and
   * a bullet item the unordered one, when that style is valid; otherwise the
   * original factory answers, or nobody does.
   */
  function ListItemGetSpans(originalFactory: Option<FactoryToken>, orderedStyle: int, unorderedStyle: int,
                            itemType: ListItemType): (r: SpanResult)
    ensures r.Generated? <==>
      (itemType == Ordered && IsStyleValid(orderedStyle)) || (itemType == Bullet && IsStyleValid(unorderedStyle))
    ensures r.Generated? ==> r.style == if itemType == Ordered then orderedStyle else unorderedStyle
    ensures r.Delegated? <==> !r.Generated? && originalFactory.Some?
    ensures r.Delegated? ==> r.original == originalFactory.value
  {
    if itemType == Ordered && IsStyleValid(orderedStyle) then Generated(orderedStyle)
    else if itemType == Bullet && IsStyleValid(unorderedStyle) then Generated(unorderedStyle)
    else if originalFactory.Some? then Delegated(originalFactory.value)
    else NoSpans
  }

  /** What an installed factory returns for a heading of `level` or a list item of `itemType`. */
  function GetSpans(f: Factory, level: int, itemType: ListItemType): SpanResult
    requires f.HeadingSpanFactory? ==> 1 <= level <= |f.headingStyles|
  {
    match f
    case StyleFactory(style) => Generated(style)
    case HeadingSpanFactory(original, styles) => HeadingGetSpans(original, styles, level)
    case ListItemSpanFactory(original, ordered, unordered) => ListItemGetSpans(original, ordered, unordered, itemType)
  }

  // -------------------------------------------------------- the finding

  /**
   * As written, a theme that gives heading 1 a main style and heading 2 a
   * post-style ends with two `setFactory` calls for headings, and the last one
   * (which replaces the first) has no span for heading 1's style and no
   * fallback: heading 1 renders unstyled.
   */
  lemma HeadingPostStyleReplacesMainStyle(original: FactoryToken)
    ensures var groups := [StyleGroup(0, 5, 0), StyleGroup(0, 0, 7), EMPTY, EMPTY, EMPTY, EMPTY];
      var calls := HeadingCallsAsWritten(groups, Some(original));
      |calls| == 2 && calls[0].Set? && calls[1].Set?
      && GetSpans(calls[0].factory, 1, Ordered) == Generated(5)
      && GetSpans(calls[1].factory, 1, Ordered) == NoSpans
  {
    var groups := [StyleGroup(0, 5, 0), StyleGroup(0, 0, 7), EMPTY, EMPTY, EMPTY, EMPTY];
    assert GroupHasStyle(groups[0]);
    assert GroupHasPostStyle(groups[1]);
    assert !CollectionUtils.Exists(groups, GroupHasPreStyle);
  }

  /**
   * As written, whenever some heading has a post-style, the last heading call
   * sets the post-style factory, which has no fallback: every level without a
   * post-style gets no spans from it, even a level whose main style the
   * factory set before it gave spans to.
   */
  lemma HeadingPostStyleAlwaysReplaces(groups: seq<StyleGroup>, original: Option<FactoryToken>, level: int)
    requires CollectionUtils.Exists(groups, GroupHasPostStyle)
    requires 1 <= level <= |groups| && !groups[level - 1].HasPostStyle()
    ensures var calls := HeadingCallsAsWritten(groups, original);
      var post := HeadingSpanFactory(None, Styles(groups, PostStyleOf));
      var main := HeadingSpanFactory(original, Styles(groups, StyleOf));
      |calls| > 0 && calls[|calls| - 1] == Set(HeadingNode, post)
      && GetSpans(post, level, Ordered) == NoSpans
      && (groups[level - 1].HasStyle() ==>
            Set(HeadingNode, main) in calls[..|calls| - 1] && GetSpans(main, level, Ordered) == Generated(groups[level - 1].style))
  {
    var calls := HeadingCallsAsWritten(groups, original);
    var post := HeadingSpanFactory(None, Styles(groups, PostStyleOf));
    assert HeadingPostStyleCalls(groups, true) == [Set(HeadingNode, post)];
    assert calls == HeadingPreStyleCalls(groups) + HeadingStyleCalls(groups, original) + [Set(HeadingNode, post)];
    assert calls[..|calls| - 1] == HeadingPreStyleCalls(groups) + HeadingStyleCalls(groups, original);
    if groups[level - 1].HasStyle() {
      assert GroupHasStyle(groups[level - 1]);
      assert HeadingStyleCalls(groups, original) == [Set(HeadingNode, HeadingSpanFactory(original, Styles(groups, StyleOf)))];
    }
  }

  /**
   * With the post-style factory prepended, the heading calls set at most one
   * factory, which is the main-style one with the fallback to the original,
   * and the post-style one is prepended as for every other element.
   */
  lemma HeadingCallsSetMainStyleOnly(groups: seq<StyleGroup>, original: Option<FactoryToken>)
    ensures forall c :: c in HeadingCalls(groups, original) && c.Set? ==>
      c.factory == HeadingSpanFactory(original, Styles(groups, StyleOf))
    ensures forall c :: c in HeadingCalls(groups, original) ==> c.node == HeadingNode
    ensures Prepend(HeadingNode, HeadingSpanFactory(None, Styles(groups, PostStyleOf))) in HeadingCalls(groups, original)
      <==> CollectionUtils.Exists(groups, GroupHasPostStyle)
  {
  }

  /**
   * The set heading factory answers a heading of level `k` with heading `k`'s
   * main style when it has one, and with the original factory otherwise.
   */
  lemma HeadingFactoryFollowsGroups(groups: seq<StyleGroup>, original: Option<FactoryToken>, level: int)
    requires 1 <= level <= |groups|
    ensures var f := HeadingSpanFactory(original, Styles(groups, StyleOf));
      (groups[level - 1].HasStyle() ==> GetSpans(f, level, Ordered) == Generated(groups[level - 1].style))
      && (!groups[level - 1].HasStyle() && original.Some? ==> GetSpans(f, level, Ordered) == Delegated(original.value))
      && (!groups[level - 1].HasStyle() && original.None? ==> GetSpans(f, level, Ordered) == NoSpans)
  {
  }

  /** Whichever way the post-style factory is installed, every heading call is for headings. */
  lemma HeadingCallsOnHeadings(groups: seq<StyleGroup>, original: Option<FactoryToken>, postStyleBySet: bool)
    ensures forall c :: c in HeadingCallsWith(groups, original, postStyleBySet) ==> c.node == HeadingNode
    ensures |HeadingCallsWith(groups, original, postStyleBySet)| <= 3
  {
  }

  /**
   * `getFactory` is called for headings and list items before the plugin
   * makes any call for them, so the table it reads is the one the plugin was given.
   */
  lemma LookupsPrecedeCalls(r: ResolvedAttributes, existing: map<NodeKind, FactoryToken>, postStyleBySet: bool)
    ensures var before := HeadingCallsWith(r.headingStyleGroups, Lookup(existing, HeadingNode), postStyleBySet)
      + GroupCalls(EmphasisNode, r.emphasisStyleGroup)
      + GroupCalls(StrongEmphasisNode, r.strongEmphasisStyleGroup)
      + GroupCalls(BlockQuoteNode, r.blockQuoteStyleGroup) + GroupCalls(CodeNode, r.codeStyleGroup)
      + GroupCalls(FencedCodeBlockNode, r.fencedCodeBlockStyleGroup)
      + GroupCalls(IndentedCodeBlockNode, r.indentedCodeBlockStyleGroup);
      && SpansFactoryCalls(r, existing, postStyleBySet) == before
        + ListCalls(r.orderedListItemStyleGroup, r.unorderedListItemStyleGroup, Lookup(existing, ListItemNode))
        + GroupCalls(ParagraphNode, r.paragraphStyleGroup) + GroupCalls(LinkNode, r.linkStyleGroup)
      && forall c :: c in before ==> c.node != ListItemNode
  {
    HeadingCallsOnHeadings(r.headingStyleGroups, Lookup(existing, HeadingNode), postStyleBySet);
    GroupCallsIff(EmphasisNode, r.emphasisStyleGroup);
    GroupCallsIff(StrongEmphasisNode, r.strongEmphasisStyleGroup);
    GroupCallsIff(BlockQuoteNode, r.blockQuoteStyleGroup);
    GroupCallsIff(CodeNode, r.codeStyleGroup);
    GroupCallsIff(FencedCodeBlockNode, r.fencedCodeBlockStyleGroup);
    GroupCallsIff(IndentedCodeBlockNode, r.indentedCodeBlockStyleGroup);
  }

  // --------------------------------------------------------------- plugin

  class MarkdownViewPlugin {
    const resolvedAttributes: ResolvedAttributes

    /** The constructor resolves the attributes once. */
    constructor (a: TypedArray, layout: Layout)
      ensures resolvedAttributes == Resolve(a, layout)
    {
      resolvedAttributes := Resolve(a, layout);
    }

    /** `configureTheme`. */
    method ConfigureTheme(builder: ThemeBuilder)
      modifies builder
      ensures builder.calls == old(builder.calls) + ThemeCalls(resolvedAttributes)
    {
      var r := resolvedAttributes;
      ghost var s0 := builder.calls;
      var color := r.listItemColor;
      if color.Some? {
        builder.Apply(ListItemColorCall(color.value));
      }
      ghost var s1 := builder.calls;
      assert s1 == s0 + ListItemColorCalls(r);
      color := r.codeBlockBackgroundColor;
      if color.Some? {
        builder.Apply(CodeBlockBackgroundColorCall(color.value));
      }
      ghost var s2 := builder.calls;
      assert s2 == s1 + CodeBlockBackgroundColorCalls(r);
      color := r.codeBlockTextColor;
      if color.Some? {
        builder.Apply(CodeBlockTextColorCall(color.value));
      }
      ghost var s3 := builder.calls;
      assert s3 == s2 + CodeBlockTextColorCalls(r);
      var dimension := r.codeBlockMargin;
      if dimension != UNDEFINED_DIMEN {
        builder.Apply(CodeBlockMarginCall(dimension));
      }
      ghost var s4 := builder.calls;
      assert s4 == s3 + CodeBlockMarginCalls(r);
      color := r.thematicBreakColor;
      if color.Some? {
        builder.Apply(ThematicBreakColorCall(color.value));
      }
      ghost var s5 := builder.calls;
      assert s5 == s4 + ThematicBreakColorCalls(r);
      dimension := r.thematicBreakHeight;
      if dimension != UNDEFINED_DIMEN {
        builder.Apply(ThematicBreakHeightCall(dimension));
      }
      assert builder.calls == s5 + ThematicBreakHeightCalls(r);
      Sequences.AppendSix(s0, ListItemColorCalls(r), CodeBlockBackgroundColorCalls(r), CodeBlockTextColorCalls(r),
        CodeBlockMarginCalls(r), ThematicBreakColorCalls(r), ThematicBreakHeightCalls(r));
    }

    /** `configureVisitor`: a soft line break forces a new line. */
    method ConfigureVisitor(builder: VisitorBuilder)
      modifies builder
      ensures builder.calls == old(builder.calls) + [SoftLineBreakForcesNewLine]
    {
      builder.On(SoftLineBreakForcesNewLine);
    }

    /** `configureSpansFactory` as the code stands: the heading post-style factory is set. */
    method ConfigureSpansFactoryAsWritten(builder: SpansFactoryBuilder<Factory>)
      modifies builder
      ensures builder.calls == old(builder.calls) + SpansFactoryCalls(resolvedAttributes, builder.existing, true)
    {
      ghost var s0 := builder.calls;
      MaybeApplyHeadingFactoriesAsWritten(builder);
      ApplyOtherFactories(builder, s0, true);
    }

    /** `configureSpansFactory`, with the heading post-style factory prepended. */
    method ConfigureSpansFactory(builder: SpansFactoryBuilder<Factory>)
      modifies builder
      ensures builder.calls == old(builder.calls) + SpansFactoryCalls(resolvedAttributes, builder.existing, false)
    {
      ghost var s0 := builder.calls;
      MaybeApplyHeadingFactories(builder);
      ApplyOtherFactories(builder, s0, false);
    }

    /** The calls `configureSpansFactory` makes after the heading ones. */
    method ApplyOtherFactories(builder: SpansFactoryBuilder<Factory>, ghost s0: seq<FactoryCall<Factory>>,
                               ghost postStyleBySet: bool)
      requires builder.calls == s0 + HeadingCallsWith(resolvedAttributes.headingStyleGroups,
        Lookup(builder.existing, HeadingNode), postStyleBySet)
      modifies builder
      ensures builder.calls == s0 + SpansFactoryCalls(resolvedAttributes, builder.existing, postStyleBySet)
    {
      var r := resolvedAttributes;
      MaybeApplyFactories(EmphasisNode, builder, r.emphasisStyleGroup);
      MaybeApplyFactories(StrongEmphasisNode, builder, r.strongEmphasisStyleGroup);
      MaybeApplyFactories(BlockQuoteNode, builder, r.blockQuoteStyleGroup);
      MaybeApplyFactories(CodeNode, builder, r.codeStyleGroup);
      MaybeApplyFactories(FencedCodeBlockNode, builder, r.fencedCodeBlockStyleGroup);
      MaybeApplyFactories(IndentedCodeBlockNode, builder, r.indentedCodeBlockStyleGroup);
      MaybeApplyListFactories(builder);
      MaybeApplyFactories(ParagraphNode, builder, r.paragraphStyleGroup);
      MaybeApplyFactories(LinkNode, builder, r.linkStyleGroup);
      Sequences.AppendTen(s0, HeadingCallsWith(r.headingStyleGroups, Lookup(builder.existing, HeadingNode), postStyleBySet),
        GroupCalls(EmphasisNode, r.emphasisStyleGroup), GroupCalls(StrongEmphasisNode, r.strongEmphasisStyleGroup),
        GroupCalls(BlockQuoteNode, r.blockQuoteStyleGroup), GroupCalls(CodeNode, r.codeStyleGroup),
        GroupCalls(FencedCodeBlockNode, r.fencedCodeBlockStyleGroup),
        GroupCalls(IndentedCodeBlockNode, r.indentedCodeBlockStyleGroup),
        ListCalls(r.orderedListItemStyleGroup, r.unorderedListItemStyleGroup, Lookup(builder.existing, ListItemNode)),
        GroupCalls(ParagraphNode, r.paragraphStyleGroup), GroupCalls(LinkNode, r.linkStyleGroup));
    }

    /** `maybeApplyFactories`. */
    method MaybeApplyFactories(node: NodeKind, builder: SpansFactoryBuilder<Factory>, styleGroup: StyleGroup)
      modifies builder
      ensures builder.calls == old(builder.calls) + GroupCalls(node, styleGroup)
    {
      ghost var s0 := builder.calls;
      if styleGroup.HasPreStyle() {
        builder.AppendFactory(node, StyleFactory(styleGroup.preStyle));
      }
      ghost var s1 := builder.calls;
      if styleGroup.HasStyle() {
        builder.SetFactory(node, StyleFactory(styleGroup.style));
      }
      ghost var s2 := builder.calls;
      if styleGroup.HasPostStyle() {
        builder.PrependFactory(node, StyleFactory(styleGroup.postStyle));
      }
      assert s1 == s0 + (if styleGroup.HasPreStyle() then [Append(node, StyleFactory(styleGroup.preStyle))] else []);
      assert s2 == s1 + (if styleGroup.HasStyle() then [Set(node, StyleFactory(styleGroup.style))] else []);
    }

    /** `maybeApplyHeadingFactories` as the code stands: the post-style factory is set, not prepended. */
    method MaybeApplyHeadingFactoriesAsWritten(builder: SpansFactoryBuilder<Factory>)
      modifies builder
      ensures builder.calls == old(builder.calls)
        + HeadingCallsAsWritten(resolvedAttributes.headingStyleGroups, builder.GetFactory(HeadingNode))
    {
      var headingStyleGroups := resolvedAttributes.headingStyleGroups;
      var originalFactory := builder.GetFactory(HeadingNode);
      ghost var s0 := builder.calls;
      var any: bool;
      ghost var tested: nat;
      any, tested := CollectionUtils.Any(headingStyleGroups, GroupHasPreStyle);
      if any {
        var styles := ArrayUtils.Map(headingStyleGroups, PreStyleOf);
        builder.AppendFactory(HeadingNode, HeadingSpanFactory(None, styles[..]));
      }
      ghost var s1 := builder.calls;
      assert s1 == s0 + HeadingPreStyleCalls(headingStyleGroups);
      any, tested := CollectionUtils.Any(headingStyleGroups, GroupHasStyle);
      if any {
        var styles := ArrayUtils.Map(headingStyleGroups, StyleOf);
        builder.SetFactory(HeadingNode, HeadingSpanFactory(originalFactory, styles[..]));
      }
      ghost var s2 := builder.calls;
      assert s2 == s1 + HeadingStyleCalls(headingStyleGroups, originalFactory);
      any, tested := CollectionUtils.Any(headingStyleGroups, GroupHasPostStyle);
      if any {
        var styles := ArrayUtils.Map(headingStyleGroups, PostStyleOf);
        builder.SetFactory(HeadingNode, HeadingSpanFactory(None, styles[..]));
      }
      Sequences.AppendThree(s0, HeadingPreStyleCalls(headingStyleGroups),
        HeadingStyleCalls(headingStyleGroups, originalFactory), HeadingPostStyleCalls(headingStyleGroups, true));
    }

    /** `maybeApplyHeadingFactories` with the post-style factory prepended, as for every other element. */
    method MaybeApplyHeadingFactories(builder: SpansFactoryBuilder<Factory>)
      modifies builder
      ensures builder.calls == old(builder.calls)
        + HeadingCalls(resolvedAttributes.headingStyleGroups, builder.GetFactory(HeadingNode))
    {
      var headingStyleGroups := resolvedAttributes.headingStyleGroups;
      var originalFactory := builder.GetFactory(HeadingNode);
      ghost var s0 := builder.calls;
      var any: bool;
      ghost var tested: nat;
      any, tested := CollectionUtils.Any(headingStyleGroups, GroupHasPreStyle);
      if any {
        var styles := ArrayUtils.Map(headingStyleGroups, PreStyleOf);
        builder.AppendFactory(HeadingNode, HeadingSpanFactory(None, styles[..]));
      }
      ghost var s1 := builder.calls;
      assert s1 == s0 + HeadingPreStyleCalls(headingStyleGroups);
      any, tested := CollectionUtils.Any(headingStyleGroups, GroupHasStyle);
      if any {
        var styles := ArrayUtils.Map(headingStyleGroups, StyleOf);
        builder.SetFactory(HeadingNode, HeadingSpanFactory(originalFactory, styles[..]));
      }
      ghost var s2 := builder.calls;
      assert s2 == s1 + HeadingStyleCalls(headingStyleGroups, originalFactory);
      any, tested := CollectionUtils.Any(headingStyleGroups, GroupHasPostStyle);
      if any {
        var styles := ArrayUtils.Map(headingStyleGroups, PostStyleOf);
        builder.PrependFactory(HeadingNode, HeadingSpanFactory(None, styles[..]));
      }
      Sequences.AppendThree(s0, HeadingPreStyleCalls(headingStyleGroups),
        HeadingStyleCalls(headingStyleGroups, originalFactory), HeadingPostStyleCalls(headingStyleGroups, false));
    }

    /** `maybeApplyListFactories`. */
    method MaybeApplyListFactories(builder: SpansFactoryBuilder<Factory>)
      modifies builder
      ensures builder.calls == old(builder.calls) + ListCalls(resolvedAttributes.orderedListItemStyleGroup,
        resolvedAttributes.unorderedListItemStyleGroup, builder.GetFactory(ListItemNode))
    {
      var ordered := resolvedAttributes.orderedListItemStyleGroup;
      var unordered := resolvedAttributes.unorderedListItemStyleGroup;
      var originalFactory := builder.GetFactory(ListItemNode);
      ghost var s0 := builder.calls;
      if ordered.HasPreStyle() || unordered.HasPreStyle() {
        builder.AppendFactory(ListItemNode, ListItemSpanFactory(None, ordered.preStyle, unordered.preStyle));
      }
      ghost var s1 := builder.calls;
      if ordered.HasStyle() || unordered.HasStyle() {
        builder.SetFactory(ListItemNode, ListItemSpanFactory(originalFactory, ordered.style, unordered.style));
      }
      ghost var s2 := builder.calls;
      if ordered.HasPostStyle() || unordered.HasPostStyle() {
        builder.PrependFactory(ListItemNode, ListItemSpanFactory(None, ordered.postStyle, unordered.postStyle));
      }
      assert s1 == s0 + (if ordered.HasPreStyle() || unordered.HasPreStyle()
        then [Append(ListItemNode, ListItemSpanFactory(None, ordered.preStyle, unordered.preStyle))] else []);
      assert s2 == s1 + (if ordered.HasStyle() || unordered.HasStyle()
        then [Set(ListItemNode, ListItemSpanFactory(originalFactory, ordered.style, unordered.style))] else []);
    }
  }
}
