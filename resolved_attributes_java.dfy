/**
 * `se.ingenuity.markdownview.util.ResolvedAttributes` (Java): the style groups,
 * colours and dimensions read once from the `MarkdownView` styleable.
 */
module ResolvedAttributesJava {
  import opened Wrappers
  import opened Resources

  /** A style resource is valid when it is not `ID_NULL`. */
  predicate IsStyleValid(styleResource: int) {
    styleResource != ID_NULL
  }

  /** The pre-, main and post-style of one element. */
  datatype StyleGroup = StyleGroup(preStyle: int, style: int, postStyle: int) {
    predicate HasPreStyle() { IsStyleValid(preStyle) }
    predicate HasStyle() { IsStyleValid(style) }
    predicate HasPostStyle() { IsStyleValid(postStyle) }
  }

  /** The shared group with no style at all. */
  const EMPTY: StyleGroup := StyleGroup(ID_NULL, ID_NULL, ID_NULL)

  /** `StyleGroup.of`: the three resource ids read at the three styleable indices. */
  function Of(attributes: TypedArray, preStyleable: int, styleable: int, postStyleable: int): (g: StyleGroup)
    ensures g == EMPTY <==>
      (GetResourceId(attributes, preStyleable, ID_NULL) == ID_NULL
       && GetResourceId(attributes, styleable, ID_NULL) == ID_NULL
       && GetResourceId(attributes, postStyleable, ID_NULL) == ID_NULL)
    ensures g.preStyle == GetResourceId(attributes, preStyleable, ID_NULL)
    ensures g.style == GetResourceId(attributes, styleable, ID_NULL)
    ensures g.postStyle == GetResourceId(attributes, postStyleable, ID_NULL)
    ensures g.HasPreStyle() <==> preStyleable in attributes && attributes[preStyleable] != ID_NULL
    ensures g.HasStyle() <==> styleable in attributes && attributes[styleable] != ID_NULL
    ensures g.HasPostStyle() <==> postStyleable in attributes && attributes[postStyleable] != ID_NULL
  {
    var preStyle := GetResourceId(attributes, preStyleable, ID_NULL);
    var style := GetResourceId(attributes, styleable, ID_NULL);
    var postStyle := GetResourceId(attributes, postStyleable, ID_NULL);
    if preStyle == ID_NULL && style == ID_NULL && postStyle == ID_NULL then
      EMPTY
    else
      StyleGroup(preStyle, style, postStyle)
  }

  datatype ResolvedAttributes = ResolvedAttributes(
    headingStyleGroups: seq<StyleGroup>,
    emphasisStyleGroup: StyleGroup,
    strongEmphasisStyleGroup: StyleGroup,
    blockQuoteStyleGroup: StyleGroup,
    codeStyleGroup: StyleGroup,
    fencedCodeBlockStyleGroup: StyleGroup,
    indentedCodeBlockStyleGroup: StyleGroup,
    orderedListItemStyleGroup: StyleGroup,
    unorderedListItemStyleGroup: StyleGroup,
    paragraphStyleGroup: StyleGroup,
    linkStyleGroup: StyleGroup,
    listItemColor: Option<int>,
    codeBlockBackgroundColor: Option<int>,
    codeBlockTextColor: Option<int>,
    codeBlockMargin: int,
    thematicBreakColor: Option<int>,
    thematicBreakHeight: int)

  /** A group whose three styles are one and the same resource. */
  predicate SingleStyle(g: StyleGroup) {
    g.preStyle == g.style == g.postStyle
  }

  /** The group of one element, read from its pre-, main and post-style attributes. */
  function GroupOf(a: TypedArray, layout: Layout, e: Element): StyleGroup {
    Of(a, layout(PreStyle(e)), layout(Style(e)), layout(PostStyle(e)))
  }

  /** The six heading groups, `H1` first. */
  function HeadingGroupsOf(a: TypedArray, layout: Layout): (groups: seq<StyleGroup>)
    ensures |groups| == 6
    ensures forall k :: 0 <= k < 6 ==> groups[k] == GroupOf(a, layout, Heading(k + 1))
  {
    seq(6, k => GroupOf(a, layout, Heading(k + 1)))
  }

  /** The group of an element with only a main-style attribute: that attribute three times. */
  function SingleGroupOf(a: TypedArray, layout: Layout, e: Element): (g: StyleGroup)
    ensures SingleStyle(g) && g.style == GetResourceId(a, layout(Style(e)), ID_NULL)
  {
    Of(a, layout(Style(e)), layout(Style(e)), layout(Style(e)))
  }

  /**
   * The constructor: wires every group to its attributes. The Java styleable
   * has no pre- or post-style for most elements, so those groups pass the one
   * main-style attribute three times.
   */
  function Resolve(a: TypedArray, layout: Layout): (r: ResolvedAttributes)
    ensures |r.headingStyleGroups| == 6
    ensures forall k :: 0 <= k < 6 ==> r.headingStyleGroups[k] == GroupOf(a, layout, Heading(k + 1))
    ensures r.emphasisStyleGroup == SingleGroupOf(a, layout, Emphasis)
    ensures r.strongEmphasisStyleGroup == SingleGroupOf(a, layout, StrongEmphasis)
    ensures r.blockQuoteStyleGroup == SingleGroupOf(a, layout, BlockQuote)
    ensures r.codeStyleGroup == SingleGroupOf(a, layout, Code)
    ensures r.fencedCodeBlockStyleGroup == SingleGroupOf(a, layout, FencedCodeBlock)
    ensures r.indentedCodeBlockStyleGroup == SingleGroupOf(a, layout, IndentedCodeBlock)
    ensures r.orderedListItemStyleGroup == SingleGroupOf(a, layout, OrderedListItem)
    ensures r.unorderedListItemStyleGroup == GroupOf(a, layout, UnorderedListItem)
    ensures r.paragraphStyleGroup == GroupOf(a, layout, Paragraph)
    ensures r.linkStyleGroup == SingleGroupOf(a, layout, Link)
    ensures r.codeBlockMargin == UNDEFINED_DIMEN <==>
      (layout(CodeBlockMargin) !in a || a[layout(CodeBlockMargin)] == UNDEFINED_DIMEN)
    ensures r.thematicBreakHeight == UNDEFINED_DIMEN <==>
      (layout(ThematicBreakHeight) !in a || a[layout(ThematicBreakHeight)] == UNDEFINED_DIMEN)
    ensures r.listItemColor.None? <==> layout(ListItemColor) !in a
  {
    ResolvedAttributes(
      headingStyleGroups := HeadingGroupsOf(a, layout),
      emphasisStyleGroup := SingleGroupOf(a, layout, Emphasis),
      strongEmphasisStyleGroup := SingleGroupOf(a, layout, StrongEmphasis),
      blockQuoteStyleGroup := SingleGroupOf(a, layout, BlockQuote),
      codeStyleGroup := SingleGroupOf(a, layout, Code),
      fencedCodeBlockStyleGroup := SingleGroupOf(a, layout, FencedCodeBlock),
      indentedCodeBlockStyleGroup := SingleGroupOf(a, layout, IndentedCodeBlock),
      orderedListItemStyleGroup := SingleGroupOf(a, layout, OrderedListItem),
      unorderedListItemStyleGroup := GroupOf(a, layout, UnorderedListItem),
      paragraphStyleGroup := GroupOf(a, layout, Paragraph),
      linkStyleGroup := SingleGroupOf(a, layout, Link),
      listItemColor := GetColorStateList(a, layout(ListItemColor)),
      codeBlockBackgroundColor := GetColorStateList(a, layout(CodeBlockBackgroundColor)),
      codeBlockTextColor := GetColorStateList(a, layout(CodeBlockTextColor)),
      codeBlockMargin := GetDimensionPixelSize(a, layout(CodeBlockMargin), UNDEFINED_DIMEN),
      thematicBreakColor := GetColorStateList(a, layout(ThematicBreakColor)),
      thematicBreakHeight := GetDimensionPixelSize(a, layout(ThematicBreakHeight), UNDEFINED_DIMEN))
  }
}
