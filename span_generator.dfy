/**
 * `se.ingenuity.markdownview.SpanGenerator`: the two text appearance spans
 * for a style resource, in a fresh two-slot array.
 */
module SpanGenerator {
  import opened Wrappers
  import opened Resources
  import opened StyledContext
  import opened Spans
  import ArrayUtils

  /** The spans in the order they are written: the style's text appearance when added, then the style. */
  function InsertedSpans(context: Context, style: int): (spans: seq<Span>)
    ensures 1 <= |spans| <= 2
    ensures spans[|spans| - 1] == TextAppearanceSpan(style)
  {
    (if AddsTextAppearance(context, style) then [TextAppearanceSpan(TextAppearanceOf(context, style))] else [])
    + [TextAppearanceSpan(style)]
  }

  /** What `createSpansForStyle` returns: the inserted spans, a null when there is room, reversed. */
  function Result(context: Context, style: int): seq<Option<Span>> {
    var spans := InsertedSpans(context, style);
    ArrayUtils.Reversed(seq(|spans|, i requires 0 <= i < |spans| => Some(spans[i])) + seq(2 - |spans|, _ => None))
  }

  /**
   * The two outcomes: the style's span followed by its text appearance's span,
   * or a null followed by the style's span.
   */
  lemma SpansCases(context: Context, style: int)
    ensures AddsTextAppearance(context, style) ==>
      Result(context, style) == [Some(TextAppearanceSpan(style)), Some(TextAppearanceSpan(TextAppearanceOf(context, style)))]
    ensures !AddsTextAppearance(context, style) ==>
      Result(context, style) == [None, Some(TextAppearanceSpan(style))]
  {
    var spans := InsertedSpans(context, style);
    var filled := seq(|spans|, i requires 0 <= i < |spans| => Some(spans[i])) + seq(2 - |spans|, _ => None);
    ArrayUtils.ReversedAt(filled, 0);
    ArrayUtils.ReversedAt(filled, 1);
  }

  /** `createSpansForStyle`. */
  method CreateSpansForStyle(context: Context, style: int) returns (spans: array<Option<Span>>)
    ensures fresh(spans)
    ensures spans[..] == Result(context, style)
  {
    var attributes := context.styleTextAppearance(style);
    var textAppearance := GetResourceId(attributes, 0, ID_NULL);
    attributes := context.themeTextAppearance;
    var styleIsTextAppearance := GetResourceId(attributes, 0, ID_NULL) == textAppearance;

    spans := new Option<Span>[2](_ => None);
    var index := 0;
    if textAppearance != ID_NULL && !styleIsTextAppearance {
      spans[index] := Some(TextAppearanceSpan(textAppearance));
      index := index + 1;
    }
    spans[index] := Some(TextAppearanceSpan(style));
    index := index + 1;

    if index < spans.Length {
      ArrayUtils.Fill(spans, index, spans.Length, None);
    }
    ghost var inserted := InsertedSpans(context, style);
    assert spans[..] == seq(|inserted|, i requires 0 <= i < |inserted| => Some(inserted[i]))
                        + seq(2 - |inserted|, _ => None);
    ArrayUtils.Reverse(spans);
  }
}
