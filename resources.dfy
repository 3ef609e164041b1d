/**
 * Android resource access, abstracted.
 *
 * A `TypedArray` (the result of `obtainStyledAttributes`) is modelled as a map
 * from styleable index to the integer it holds: a resource id, a colour (the
 * default colour of its `ColorStateList`), a dimension already converted to
 * pixels, or a boolean (non-zero is true). An index that is not in the map is
 * an attribute that has no value.
 *
 * The styleable indices themselves come from the generated `R` class, which is
 * not part of this model, so they are a parameter: a `Layout` gives the index
 * of every attribute the library declares.
 */
module Resources {
  import opened Wrappers

  /** `ID_NULL`: the resource id that names no resource. */
  const ID_NULL: int := 0

  /**
   * `Constants.UNDEFINED_DIMEN`: the marker for a dimension attribute that has
   * no value. Its value is not part of this model; nothing proved depends on it.
   */
  const UNDEFINED_DIMEN: int := -0x8000_0000

  type TypedArray = map<int, int>

  /** `TypedArray.hasValue`. */
  predicate HasValue(a: TypedArray, index: int) {
    index in a
  }

  /** `TypedArray.getResourceId(index, default)`. */
  function GetResourceId(a: TypedArray, index: int, default: int): int {
    if index in a then a[index] else default
  }

  /** `TypedArray.getDimensionPixelSize(index, default)`. */
  function GetDimensionPixelSize(a: TypedArray, index: int, default: int): int {
    if index in a then a[index] else default
  }

  /** `TypedArray.getColorStateList(index)`, as the list's default colour; `None` is null. */
  function GetColorStateList(a: TypedArray, index: int): Option<int> {
    if index in a then Some(a[index]) else None
  }

  /** `TypedArray.getBoolean(index, default)`. */
  function GetBoolean(a: TypedArray, index: int, default: bool): bool {
    if index in a then a[index] != 0 else default
  }

  /** The Markdown elements that the library lets a theme style. */
  datatype Element =
    | Heading(level: int)
    | Emphasis
    | StrongEmphasis
    | BlockQuote
    | Code
    | FencedCodeBlock
    | IndentedCodeBlock
    | OrderedListItem
    | UnorderedListItem
    | Paragraph
    | Link

  /**
   * The attributes of the `MarkdownView` / `MarkdownTextView` styleables:
   * `PreStyle(Heading(1))` is `mdH1PreStyle`, `Style(Emphasis)` is
   * `mdEmphasisStyle`, and so on.
   */
  datatype Attr =
    | PreStyle(element: Element)
    | Style(element: Element)
    | PostStyle(element: Element)
    | ListItemColor
    | CodeBlockBackgroundColor
    | CodeBlockTextColor
    | CodeBlockMargin
    | ThematicBreakColor
    | ThematicBreakHeight
    | LinkUnderlined
    | Markdown
    | MarkwonFactoryBuilder

  /** The styleable index of each attribute (`R.styleable.MarkdownView_…`). */
  type Layout = Attr -> int

  /** Java's `int / 2`, which truncates toward zero (Dafny's `/` is Euclidean). */
  function JavaHalf(x: int): (r: int)
    ensures x >= 0 ==> 2 * r <= x < 2 * r + 2
    ensures x < 0 ==> r == -((-x) / 2)
  {
    if x >= 0 then x / 2 else -((-x) / 2)
  }
}
