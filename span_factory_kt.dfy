/**
 * `se.ingenuity.markdownview.SpanFactory` (Kotlin): the span creator that
 * `MarkwonHelper` uses. It keeps one two-slot array and returns that same
 * array from every call.
 */
module SpanFactoryKt {
  import opened Wrappers
  import opened Resources
  import opened StyledContext
  import opened Spans
  import ArrayUtils
  import SpanGenerator

  /** The spans `createSpansForStyle` writes as the code stands: the style's span, twice when the condition holds. */
  function InsertedSpans(context: Context, style: int): (spans: seq<Span>)
    ensures 1 <= |spans| <= 2
  {
    (if AddsTextAppearance(context, style) then [TextAppearanceSpan(style)] else []) + [TextAppearanceSpan(style)]
  }

  /** The array's contents after `createSpansForStyle(style)`, as the code stands. */
  function AsWritten(context: Context, style: int): seq<Option<Span>> {
    var spans := InsertedSpans(context, style);
    ArrayUtils.Reversed(seq(|spans|, i requires 0 <= i < |spans| => Some(spans[i])) + seq(2 - |spans|, _ => None))
  }

  /** The two outcomes as written: the style's span twice, or a null and the style's span. */
  lemma AsWrittenCases(context: Context, style: int)
    ensures AddsTextAppearance(context, style) ==>
      AsWritten(context, style) == [Some(TextAppearanceSpan(style)), Some(TextAppearanceSpan(style))]
    ensures !AddsTextAppearance(context, style) ==>
      AsWritten(context, style) == [None, Some(TextAppearanceSpan(style))]
  {
    var spans := InsertedSpans(context, style);
    var filled := seq(|spans|, i requires 0 <= i < |spans| => Some(spans[i])) + seq(2 - |spans|, _ => None);
    ArrayUtils.ReversedAt(filled, 0);
    ArrayUtils.ReversedAt(filled, 1);
  }

  /**
   * The discrepancy: when a style sets a text appearance other than itself and
   * other than the theme's, the code as written never creates a span for that
   * text appearance, while `SpanGenerator.createSpansForStyle` does.
   */
  lemma AsWrittenDropsTextAppearance(context: Context, style: int)
    requires AddsTextAppearance(context, style) && TextAppearanceOf(context, style) != style
    ensures Some(TextAppearanceSpan(TextAppearanceOf(context, style))) !in AsWritten(context, style)
    ensures Some(TextAppearanceSpan(TextAppearanceOf(context, style))) in SpanGenerator.Result(context, style)
  {
    AsWrittenCases(context, style);
    SpanGenerator.SpansCases(context, style);
    assert SpanGenerator.Result(context, style)[1] == Some(TextAppearanceSpan(TextAppearanceOf(context, style)));
  }

  class SpanFactory {
    const context: Context
    const spans: array<Option<Span>>

    ghost predicate Valid()
      reads this
    {
      spans.Length == 2
    }

    constructor (context: Context)
      ensures Valid() && fresh(spans)
      ensures this.context == context && spans[..] == [None, None]
    {
      this.context := context;
      spans := new Option<Span>[2](_ => None);
    }

    /** `createSpansForStyle`, as written: the first slot gets `style` where `textAppearance` was meant. */
    method CreateSpansForStyle(style: int) returns (r: array<Option<Span>>)
      requires Valid()
      modifies spans
      ensures Valid() && r == spans
      ensures spans[..] == AsWritten(context, style)
    {
      var a := context.styleTextAppearance(style);
      var textAppearance := GetResourceId(a, 0, ID_NULL);
      var baseTextAppearanceAttribute := context.themeTextAppearance;
      var styleIsTextAppearance := GetResourceId(baseTextAppearanceAttribute, 0, ID_NULL) == textAppearance;

      ArrayUtils.Fill(spans, 0, spans.Length, None);

      var index := 0;
      if textAppearance != ID_NULL && !styleIsTextAppearance {
        spans[index] := Some(TextAppearanceSpan(style));
        index := index + 1;
      }
      spans[index] := Some(TextAppearanceSpan(style));

      ghost var inserted := InsertedSpans(context, style);
      assert spans[..] == seq(|inserted|, i requires 0 <= i < |inserted| => Some(inserted[i]))
                          + seq(2 - |inserted|, _ => None);
      ArrayUtils.Reverse(spans);
      r := spans;
    }

    /**
     * `createSpansForStyle` with the text appearance's span in the first slot:
     * the same spans as `SpanGenerator.createSpansForStyle`, in the shared array.
     */
    method CreateSpansForStyleCorrected(style: int) returns (r: array<Option<Span>>)
      requires Valid()
      modifies spans
      ensures Valid() && r == spans
      ensures spans[..] == SpanGenerator.Result(context, style)
    {
      var a := context.styleTextAppearance(style);
      var textAppearance := GetResourceId(a, 0, ID_NULL);
      var baseTextAppearanceAttribute := context.themeTextAppearance;
      var styleIsTextAppearance := GetResourceId(baseTextAppearanceAttribute, 0, ID_NULL) == textAppearance;

      ArrayUtils.Fill(spans, 0, spans.Length, None);

      var index := 0;
      if textAppearance != ID_NULL && !styleIsTextAppearance {
        spans[index] := Some(TextAppearanceSpan(textAppearance));
        index := index + 1;
      }
      spans[index] := Some(TextAppearanceSpan(style));

      ghost var inserted := SpanGenerator.InsertedSpans(context, style);
      assert spans[..] == seq(|inserted|, i requires 0 <= i < |inserted| => Some(inserted[i]))
                          + seq(2 - |inserted|, _ => None);
      ArrayUtils.Reverse(spans);
      r := spans;
    }
  }

  /**
   * Every call hands out the same array, so the spans returned for one style
   * are overwritten by the next call.
   */
  method CallsShareResultAsWritten(factory: SpanFactory, first: int, second: int)
    returns (firstSpans: array<Option<Span>>, secondSpans: array<Option<Span>>)
    requires factory.Valid()
    modifies factory.spans
    ensures firstSpans == secondSpans
    ensures firstSpans[..] == AsWritten(factory.context, second)
  {
    firstSpans := factory.CreateSpansForStyle(first);
    secondSpans := factory.CreateSpansForStyle(second);
  }

  /** The same sharing for the corrected method. */
  method CallsShareResult(factory: SpanFactory, first: int, second: int)
      returns (firstSpans: array<Option<Span>>, secondSpans: array<Option<Span>>)
    requires factory.Valid()
    modifies factory.spans
    ensures firstSpans == secondSpans
    ensures firstSpans[..] == SpanGenerator.Result(factory.context, second)
  {
    firstSpans := factory.CreateSpansForStyleCorrected(first);
    secondSpans := factory.CreateSpansForStyleCorrected(second);
  }
}
