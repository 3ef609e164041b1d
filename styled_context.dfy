/**
 * The part of an Android `Context` that the span generators read: the style
 * attributes the theme and each style resource resolve to.
 */
module StyledContext {
  import opened Resources

  /** `TypedValue.TYPE_DIMENSION`. */
  const TYPE_DIMENSION: int := 5

  /** `Color.TRANSPARENT`. */
  const TRANSPARENT: int := 0

  /**
   * A context, as the typed arrays it hands out.
   * - `themeTextAppearance`: `obtainStyledAttributes(TEXT_APPEARANCE_ATTR)`, the
   *   theme's own `android:textAppearance` at index 0;
   * - `styleTextAppearance(style)`: `obtainStyledAttributes(style, TEXT_APPEARANCE_ATTR)`;
   * - `styleCustom(style)`: `obtainStyledAttributes(style, R.styleable.MarkdownTextView_Style)`;
   * - `styleCustomType(style, index)`: `getType(index)` on that last array.
   */
  datatype Context = Context(
    themeTextAppearance: TypedArray,
    styleTextAppearance: int -> TypedArray,
    styleCustom: int -> TypedArray,
    styleCustomType: (int, int) -> int)

  /** The indices of the `MarkdownTextView_Style` styleable. */
  datatype StyleLayout = StyleLayout(backgroundColor: int, lineBackground: int, lineBackgroundPadding: int)

  /** The `android:textAppearance` that `style` sets, or `ID_NULL`. */
  function TextAppearanceOf(context: Context, style: int): int {
    GetResourceId(context.styleTextAppearance(style), 0, ID_NULL)
  }

  /** `styleIsTextAppearance`: the style's text appearance is the theme's own. */
  predicate StyleIsTextAppearance(context: Context, style: int) {
    GetResourceId(context.themeTextAppearance, 0, ID_NULL) == TextAppearanceOf(context, style)
  }

  /**
   * The condition under which every span generator puts a span for the
   * style's own text appearance before the span for the style itself.
   */
  predicate AddsTextAppearance(context: Context, style: int) {
    TextAppearanceOf(context, style) != ID_NULL && !StyleIsTextAppearance(context, style)
  }

  /** `TypedArray.getColor(index, default)`. */
  function GetColor(a: TypedArray, index: int, default: int): int {
    if index in a then a[index] else default
  }
}
