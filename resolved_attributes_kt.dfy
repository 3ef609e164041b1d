/**
 * `se.ingenuity.markdownview.util.ResolvedAttributes` (Kotlin): the same
 * attributes read from the `MarkdownTextView` styleable, where every element
 * has its own pre- and post-style, plus `mdLinkUnderlined`.
 *
 * The style group value is the same as in the Java class (a Kotlin data class
 * with the same three fields), so it is shared.
 */
module ResolvedAttributesKt {
  import opened Wrappers
  import opened Resources
  import J = ResolvedAttributesJava

  /**
   * One component of `StyleGroup.of`: a styleable index equal to `ID_NULL` is
   * taken to mean "no attribute" and is not read.
   */
  function Component(attributes: TypedArray, styleable: int): (r: int)
    ensures styleable == ID_NULL ==> r == ID_NULL
    ensures styleable != ID_NULL ==> r == GetResourceId(attributes, styleable, ID_NULL)
  {
    if styleable == ID_NULL then ID_NULL else GetResourceId(attributes, styleable, ID_NULL)
  }

  /** `StyleGroup.of`. Returning the shared `EMPTY` is the same value as the group of three `ID_NULL`s. */
  function Of(attributes: TypedArray, preStyleable: int, styleable: int, postStyleable: int): (g: J.StyleGroup)
    ensures g == J.StyleGroup(Component(attributes, preStyleable), Component(attributes, styleable),
                              Component(attributes, postStyleable))
    ensures g.HasPreStyle() <==>
      preStyleable != ID_NULL && preStyleable in attributes && attributes[preStyleable] != ID_NULL
    ensures g.HasStyle() <==>
      styleable != ID_NULL && styleable in attributes && attributes[styleable] != ID_NULL
    ensures g.HasPostStyle() <==>
      postStyleable != ID_NULL && postStyleable in attributes && attributes[postStyleable] != ID_NULL
  {
    var preStyle := Component(attributes, preStyleable);
    var style := Component(attributes, styleable);
    var postStyle := Component(attributes, postStyleable);
    if preStyle == ID_NULL && style == ID_NULL && postStyle == ID_NULL then
      J.EMPTY
    else
      J.StyleGroup(preStyle, style, postStyle)
  }

  /** Where no index is `ID_NULL`, the Kotlin and the Java `StyleGroup.of` read the same group. */
  lemma OfAgreesWithJava(attributes: TypedArray, preStyleable: int, styleable: int, postStyleable: int)
    requires preStyleable != ID_NULL && styleable != ID_NULL && postStyleable != ID_NULL
    ensures Of(attributes, preStyleable, styleable, postStyleable)
         == J.Of(attributes, preStyleable, styleable, postStyleable)
  {
  }

  /**
   * The two differ exactly at an index equal to `ID_NULL` that holds a style:
   * the Java class reads it, the Kotlin class ignores it.
   */
  lemma OfIgnoresIndexZero(attributes: TypedArray, styleable: int)
    requires styleable == ID_NULL && styleable in attributes && attributes[styleable] != ID_NULL
    ensures !Of(attributes, styleable, styleable, styleable).HasStyle()
    ensures J.Of(attributes, styleable, styleable, styleable).HasStyle()
  {
  }

  datatype ResolvedAttributes = ResolvedAttributes(
    headingStyleGroups: seq<J.StyleGroup>,
    emphasisStyleGroup: J.StyleGroup,
    strongEmphasisStyleGroup: J.StyleGroup,
    blockQuoteStyleGroup: J.StyleGroup,
    codeStyleGroup: J.StyleGroup,
    fencedCodeBlockStyleGroup: J.StyleGroup,
    indentedCodeBlockStyleGroup: J.StyleGroup,
    orderedListItemStyleGroup: J.StyleGroup,
    unorderedListItemStyleGroup: J.StyleGroup,
    paragraphStyleGroup: J.StyleGroup,
    linkStyleGroup: J.StyleGroup,
    linkUnderlined: Option<bool>,
    listItemColor: Option<int>,
    codeBlockBackgroundColor: Option<int>,
    codeBlockTextColor: Option<int>,
    codeBlockMargin: int,
    thematicBreakColor: Option<int>,
    thematicBreakHeight: int)

  /** The group of one element, read from its own pre-, main and post-style attributes. */
  function GroupOf(a: TypedArray, layout: Layout, e: Element): J.StyleGroup {
    Of(a, layout(PreStyle(e)), layout(Style(e)), layout(PostStyle(e)))
  }

  /** The six heading groups, `H1` first. */
  function HeadingGroupsOf(a: TypedArray, layout: Layout): (groups: seq<J.StyleGroup>)
    ensures |groups| == 6
    ensures forall k :: 0 <= k < 6 ==> groups[k] == GroupOf(a, layout, Heading(k + 1))
  {
    seq(6, k => GroupOf(a, layout, Heading(k + 1)))
  }

  /** `mdLinkUnderlined`: `null` when the attribute has no value, else its boolean. */
  function LinkUnderlinedOf(a: TypedArray, index: int): (r: Option<bool>)
    ensures r.None? <==> !HasValue(a, index)
    ensures r.Some? ==> (r.value <==> a[index] != 0)
  {
    if HasValue(a, index) then Some(GetBoolean(a, index, true)) else None
  }

  /** The initialiser block. */
  function Resolve(a: TypedArray, layout: Layout): (r: ResolvedAttributes)
    ensures |r.headingStyleGroups| == 6
    ensures forall k :: 0 <= k < 6 ==> r.headingStyleGroups[k] == GroupOf(a, layout, Heading(k + 1))
    ensures r.emphasisStyleGroup == GroupOf(a, layout, Emphasis)
    ensures r.strongEmphasisStyleGroup == GroupOf(a, layout, StrongEmphasis)
    ensures r.blockQuoteStyleGroup == GroupOf(a, layout, BlockQuote)
    ensures r.codeStyleGroup == GroupOf(a, layout, Code)
    ensures r.fencedCodeBlockStyleGroup == GroupOf(a, layout, FencedCodeBlock)
    ensures r.indentedCodeBlockStyleGroup == GroupOf(a, layout, IndentedCodeBlock)
    ensures r.orderedListItemStyleGroup == GroupOf(a, layout, OrderedListItem)
    ensures r.unorderedListItemStyleGroup == GroupOf(a, layout, UnorderedListItem)
    ensures r.paragraphStyleGroup == GroupOf(a, layout, Paragraph)
    ensures r.linkStyleGroup == GroupOf(a, layout, Link)
    ensures r.linkUnderlined.None? <==> layout(LinkUnderlined) !in a
    ensures r.codeBlockMargin == UNDEFINED_DIMEN <==>
      (layout(CodeBlockMargin) !in a || a[layout(CodeBlockMargin)] == UNDEFINED_DIMEN)
    ensures r.thematicBreakHeight == UNDEFINED_DIMEN <==>
      (layout(ThematicBreakHeight) !in a || a[layout(ThematicBreakHeight)] == UNDEFINED_DIMEN)
    ensures r.listItemColor.None? <==> layout(ListItemColor) !in a
  {
    ResolvedAttributes(
      headingStyleGroups := HeadingGroupsOf(a, layout),
      emphasisStyleGroup := GroupOf(a, layout, Emphasis),
      strongEmphasisStyleGroup := GroupOf(a, layout, StrongEmphasis),
      blockQuoteStyleGroup := GroupOf(a, layout, BlockQuote),
      codeStyleGroup := GroupOf(a, layout, Code),
      fencedCodeBlockStyleGroup := GroupOf(a, layout, FencedCodeBlock),
      indentedCodeBlockStyleGroup := GroupOf(a, layout, IndentedCodeBlock),
      orderedListItemStyleGroup := GroupOf(a, layout, OrderedListItem),
      unorderedListItemStyleGroup := GroupOf(a, layout, UnorderedListItem),
      paragraphStyleGroup := GroupOf(a, layout, Paragraph),
      linkStyleGroup := GroupOf(a, layout, Link),
      linkUnderlined := LinkUnderlinedOf(a, layout(LinkUnderlined)),
      listItemColor := GetColorStateList(a, layout(ListItemColor)),
      codeBlockBackgroundColor := GetColorStateList(a, layout(CodeBlockBackgroundColor)),
      codeBlockTextColor := GetColorStateList(a, layout(CodeBlockTextColor)),
      codeBlockMargin := GetDimensionPixelSize(a, layout(CodeBlockMargin), UNDEFINED_DIMEN),
      thematicBreakColor := GetColorStateList(a, layout(ThematicBreakColor)),
      thematicBreakHeight := GetDimensionPixelSize(a, layout(ThematicBreakHeight), UNDEFINED_DIMEN))
  }
}
