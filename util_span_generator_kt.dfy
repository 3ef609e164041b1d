/**
 * `se.ingenuity.markdownview.util.SpanGenerator` (Kotlin): the same
 * five-slot buffer as the Java class, built with Kotlin's `Array.fill` and
 * `Array.reverse`. Its `PaddedLineBackgroundSpan` draws exactly as the Java
 * one, so `UtilSpanGenerator.PaddedLineBackgroundSpan` models both.
 */
module UtilSpanGeneratorKt {
  import opened Wrappers
  import opened Resources
  import opened StyledContext
  import S = Spans
  import ArrayUtils
  import opened UtilSpanGenerator

  /** `createSpansForStyle`: writes the same spans in the same order as the Java class. */
  method CreateSpansForStyle(context: Context, layout: StyleLayout, style: int) returns (buffer: array<Option<S.Span>>)
    ensures fresh(buffer)
    ensures buffer[..] == Buffer(context, layout, style)
  {
    var index;
    buffer, index := WriteSpans(context, layout, style);
    ghost var spans := InsertedSpans(context, layout, style);
    ArrayUtils.Fill(buffer, index, buffer.Length, None);
    assert buffer[..] == Slots(spans) + Nulls(BUFFER_SIZE - |spans|);
    ArrayUtils.Reverse(buffer);
  }

  /** The writing half of `createSpansForStyle`: the inserted spans in the buffer's first slots. */
  method WriteSpans(context: Context, layout: StyleLayout, style: int)
    returns (buffer: array<Option<S.Span>>, index: int)
    ensures fresh(buffer) && buffer.Length == BUFFER_SIZE
    ensures index == |InsertedSpans(context, layout, style)|
    ensures buffer[..index] == Slots(InsertedSpans(context, layout, style))
  {
    var attributes := context.styleTextAppearance(style);
    var textAppearance := GetResourceId(attributes, 0, ID_NULL);
    attributes := context.themeTextAppearance;
    var styleIsTextAppearance := GetResourceId(attributes, 0, ID_NULL) == textAppearance;

    buffer := new Option<S.Span>[BUFFER_SIZE](_ => None);
    index := 0;
    if textAppearance != ID_NULL && !styleIsTextAppearance {
      buffer[index] := Some(S.TextAppearanceSpanCompat(textAppearance));
      index := index + 1;
    }
    buffer[index] := Some(S.TextAppearanceSpanCompat(style));
    index := index + 1;
    ghost var prefix := AppearanceSpans(context, style) + [S.TextAppearanceSpanCompat(style)];
    assert buffer[..index] == Slots(prefix);

    attributes := context.styleCustom(style);
    if HasValue(attributes, layout.backgroundColor) {
      buffer[index] := Some(S.BackgroundColorSpan(GetColor(attributes, 0, TRANSPARENT)));
      index := index + 1;
    }
    prefix := prefix + BackgroundSpans(context, layout, style);
    assert buffer[..index] == Slots(prefix);

    if HasValue(attributes, layout.lineBackground) {
      var lineBackground := GetColor(attributes, layout.lineBackground, TRANSPARENT);
      var padAttrIndex := layout.lineBackgroundPadding;
      var padding := INTRINSIC_LINE_BACKGROUND_PADDING;
      if context.styleCustomType(style, padAttrIndex) == TYPE_DIMENSION {
        padding := GetDimensionPixelSize(attributes, padAttrIndex, INTRINSIC_LINE_BACKGROUND_PADDING);
      }
      buffer[index] := Some(S.PaddedLineBackgroundSpan(lineBackground, padding));
      index := index + 1;
    }
    prefix := prefix + LineBackgroundSpans(context, layout, style);
    assert prefix == InsertedSpans(context, layout, style);
    assert buffer[..index] == Slots(prefix);
  }
}
