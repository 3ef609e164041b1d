/**
 * `se.ingenuity.markdownview.util.SpanGenerator` (Java): the spans for one
 * style resource, and the line background span it may add.
 */
module UtilSpanGenerator {
  import opened Wrappers
  import opened Resources
  import opened StyledContext
  import S = Spans
  import ArrayUtils

  /** A padding of this value means "use the text view's own padding". */
  const INTRINSIC_LINE_BACKGROUND_PADDING: int := -1

  /** The number of slots in the buffer that `createSpansForStyle` returns. */
  const BUFFER_SIZE: int := 5

  /**
   * The line background padding: the `mdLineBackgroundPadding` dimension when
   * the attribute is a dimension, else the intrinsic marker.
   */
  function LineBackgroundPadding(context: Context, layout: StyleLayout, style: int): (p: int)
    ensures context.styleCustomType(style, layout.lineBackgroundPadding) != TYPE_DIMENSION ==>
      p == INTRINSIC_LINE_BACKGROUND_PADDING
    ensures context.styleCustomType(style, layout.lineBackgroundPadding) == TYPE_DIMENSION ==>
      p == GetDimensionPixelSize(context.styleCustom(style), layout.lineBackgroundPadding,
                                 INTRINSIC_LINE_BACKGROUND_PADDING)
  {
    if context.styleCustomType(style, layout.lineBackgroundPadding) == TYPE_DIMENSION then
      GetDimensionPixelSize(context.styleCustom(style), layout.lineBackgroundPadding,
                            INTRINSIC_LINE_BACKGROUND_PADDING)
    else
      INTRINSIC_LINE_BACKGROUND_PADDING
  }

  /** The optional text-appearance span, which goes first when present. */
  function AppearanceSpans(context: Context, style: int): seq<S.Span> {
    if AddsTextAppearance(context, style) then [S.TextAppearanceSpanCompat(TextAppearanceOf(context, style))] else []
  }

  /** The optional `BackgroundColorSpan`. Its colour is read at index 0 of the custom attributes. */
  function BackgroundSpans(context: Context, layout: StyleLayout, style: int): seq<S.Span> {
    var custom := context.styleCustom(style);
    if HasValue(custom, layout.backgroundColor) then [S.BackgroundColorSpan(GetColor(custom, 0, TRANSPARENT))] else []
  }

  /** The optional `PaddedLineBackgroundSpan`. */
  function LineBackgroundSpans(context: Context, layout: StyleLayout, style: int): seq<S.Span> {
    var custom := context.styleCustom(style);
    if HasValue(custom, layout.lineBackground) then
      [S.PaddedLineBackgroundSpan(GetColor(custom, layout.lineBackground, TRANSPARENT),
                                  LineBackgroundPadding(context, layout, style))]
    else []
  }

  /** The spans in the order they are written into the buffer. */
  function InsertedSpans(context: Context, layout: StyleLayout, style: int): (spans: seq<S.Span>)
    ensures 1 <= |spans| <= 4
  {
    AppearanceSpans(context, style) + [S.TextAppearanceSpanCompat(style)]
    + BackgroundSpans(context, layout, style) + LineBackgroundSpans(context, layout, style)
  }

  /** Each span as a non-null buffer slot. */
  function Slots(spans: seq<S.Span>): (r: seq<Option<S.Span>>)
    ensures |r| == |spans|
    ensures forall i :: 0 <= i < |spans| ==> r[i] == Some(spans[i])
  {
    seq(|spans|, i requires 0 <= i < |spans| => Some(spans[i]))
  }

  /** `n` null slots. */
  function Nulls(n: nat): (r: seq<Option<S.Span>>)
    ensures |r| == n
    ensures forall i :: 0 <= i < n ==> r[i] == None
  {
    seq(n, _ => None)
  }

  /** What `createSpansForStyle` returns: the inserted spans, padded with nulls, reversed. */
  function Buffer(context: Context, layout: StyleLayout, style: int): seq<Option<S.Span>> {
    var spans := InsertedSpans(context, layout, style);
    ArrayUtils.Reversed(Slots(spans) + Nulls(BUFFER_SIZE - |spans|))
  }

  /**
   * The buffer has five slots: first the unused ones, all null, then the
   * spans from the last inserted to the first.
   */
  lemma BufferLayout(context: Context, layout: StyleLayout, style: int)
    ensures var spans := InsertedSpans(context, layout, style);
      var buffer := Buffer(context, layout, style);
      |buffer| == BUFFER_SIZE
      && (forall j :: 0 <= j < BUFFER_SIZE - |spans| ==> buffer[j] == None)
      && (forall j :: BUFFER_SIZE - |spans| <= j < BUFFER_SIZE ==> buffer[j] == Some(spans[BUFFER_SIZE - 1 - j]))
  {
    var spans := InsertedSpans(context, layout, style);
    var filled := Slots(spans) + Nulls(BUFFER_SIZE - |spans|);
    forall j | 0 <= j < BUFFER_SIZE
      ensures ArrayUtils.Reversed(filled)[j] == filled[BUFFER_SIZE - 1 - j]
    {
      ArrayUtils.ReversedAt(filled, j);
    }
  }

  /**
   * The last slot holds the first span: the style's own text appearance when
   * it is added, else the style; in the first case the style comes just before it.
   */
  lemma BufferEndsWithStyle(context: Context, layout: StyleLayout, style: int)
    ensures var buffer := Buffer(context, layout, style);
      |buffer| == BUFFER_SIZE
      && buffer[4] == Some(S.TextAppearanceSpanCompat(
           if AddsTextAppearance(context, style) then TextAppearanceOf(context, style) else style))
      && (AddsTextAppearance(context, style) ==> buffer[3] == Some(S.TextAppearanceSpanCompat(style)))
  {
    BufferLayout(context, layout, style);
  }

  /** The buffer holds a background colour span exactly when `mdBackgroundColor` has a value. */
  lemma BackgroundSpanIffAttribute(context: Context, layout: StyleLayout, style: int)
    ensures var buffer := Buffer(context, layout, style);
      (exists j :: 0 <= j < |buffer| && buffer[j].Some? && buffer[j].value.BackgroundColorSpan?)
      <==> HasValue(context.styleCustom(style), layout.backgroundColor)
  {
    var spans := InsertedSpans(context, layout, style);
    var buffer := Buffer(context, layout, style);
    BufferLayout(context, layout, style);
    var n := |spans|;
    var a := |AppearanceSpans(context, style)|;
    if HasValue(context.styleCustom(style), layout.backgroundColor) {
      var j := BUFFER_SIZE - 1 - (a + 1);
      assert spans[a + 1] == S.BackgroundColorSpan(GetColor(context.styleCustom(style), 0, TRANSPARENT));
      assert buffer[j].Some? && buffer[j].value.BackgroundColorSpan?;
    } else {
      forall j | 0 <= j < |buffer| && buffer[j].Some?
        ensures !buffer[j].value.BackgroundColorSpan?
      {
        assert buffer[j] == Some(spans[BUFFER_SIZE - 1 - j]);
      }
    }
  }

  /**
   * When `mdLineBackground` has a value, the first non-null slot holds its
   * line background span, with the padding `LineBackgroundPadding` chooses.
   */
  lemma LineBackgroundSpanFirst(context: Context, layout: StyleLayout, style: int)
    requires HasValue(context.styleCustom(style), layout.lineBackground)
    ensures var buffer := Buffer(context, layout, style);
      var n := |InsertedSpans(context, layout, style)|;
      |buffer| == BUFFER_SIZE && 2 <= n
      && buffer[BUFFER_SIZE - n] == Some(S.PaddedLineBackgroundSpan(
           GetColor(context.styleCustom(style), layout.lineBackground, TRANSPARENT),
           LineBackgroundPadding(context, layout, style)))
  {
    BufferLayout(context, layout, style);
  }

  /** `createSpansForStyle`. */
  method CreateSpansForStyle(context: Context, layout: StyleLayout, style: int) returns (buffer: array<Option<S.Span>>)
    ensures fresh(buffer)
    ensures buffer[..] == Buffer(context, layout, style)
  {
    var index;
    buffer, index := WriteSpans(context, layout, style);
    ghost var spans := InsertedSpans(context, layout, style);
    ArrayUtils.Fill(buffer, index, buffer.Length, None);
    assert buffer[..] == Slots(spans) + Nulls(BUFFER_SIZE - |spans|);
    ArrayUtils.Reverse(buffer);
  }

  /** The writing half of `createSpansForStyle`: the inserted spans in the buffer's first slots. */
  method WriteSpans(context: Context, layout: StyleLayout, style: int)
    returns (buffer: array<Option<S.Span>>, index: int)
    ensures fresh(buffer) && buffer.Length == BUFFER_SIZE
    ensures index == |InsertedSpans(context, layout, style)|
    ensures buffer[..index] == Slots(InsertedSpans(context, layout, style))
  {
    var attributes := context.styleTextAppearance(style);
    var textAppearance := GetResourceId(attributes, 0, ID_NULL);
    attributes := context.themeTextAppearance;
    var styleIsTextAppearance := GetResourceId(attributes, 0, ID_NULL) == textAppearance;

    buffer := new Option<S.Span>[BUFFER_SIZE](_ => None);
    index := 0;
    if textAppearance != ID_NULL && !styleIsTextAppearance {
      buffer[index] := Some(S.TextAppearanceSpanCompat(textAppearance));
      index := index + 1;
    }
    buffer[index] := Some(S.TextAppearanceSpanCompat(style));
    index := index + 1;
    ghost var prefix := AppearanceSpans(context, style) + [S.TextAppearanceSpanCompat(style)];
    assert buffer[..index] == Slots(prefix);

    attributes := context.styleCustom(style);
    if HasValue(attributes, layout.backgroundColor) {
      buffer[index] := Some(S.BackgroundColorSpan(GetColor(attributes, 0, TRANSPARENT)));
      index := index + 1;
    }
    prefix := prefix + BackgroundSpans(context, layout, style);
    assert buffer[..index] == Slots(prefix);

    if HasValue(attributes, layout.lineBackground) {
      var lineBackground := GetColor(attributes, layout.lineBackground, TRANSPARENT);
      var padAttrIndex := layout.lineBackgroundPadding;
      var padding := INTRINSIC_LINE_BACKGROUND_PADDING;
      if context.styleCustomType(style, padAttrIndex) == TYPE_DIMENSION {
        padding := GetDimensionPixelSize(attributes, padAttrIndex, INTRINSIC_LINE_BACKGROUND_PADDING);
      }
      buffer[index] := Some(S.PaddedLineBackgroundSpan(lineBackground, padding));
      index := index + 1;
    }
    prefix := prefix + LineBackgroundSpans(context, layout, style);
    assert prefix == InsertedSpans(context, layout, style);
    assert buffer[..index] == Slots(prefix);
  }

  /** `android.graphics.Rect`, as a value. */
  datatype Rect = Rect(left: int, top: int, right: int, bottom: int) {
    function Width(): int { right - left }
    function Height(): int { bottom - top }
    predicate Contains(r: Rect) {
      left <= r.left && top <= r.top && r.right <= right && r.bottom <= bottom
    }
  }

  /** The smallest rectangle that contains both `a` and `b`. */
  function Enclosing(a: Rect, b: Rect): (r: Rect)
    ensures r.Contains(a) && r.Contains(b)
  {
    Rect(if a.left <= b.left then a.left else b.left, if a.top <= b.top then a.top else b.top,
         if a.right >= b.right then a.right else b.right, if a.bottom >= b.bottom then a.bottom else b.bottom)
  }

  /** Nothing smaller than `Enclosing(a, b)` contains both. */
  lemma EnclosingIsSmallest(a: Rect, b: Rect, c: Rect)
    requires c.Contains(a) && c.Contains(b)
    ensures c.Contains(Enclosing(a, b))
  {
  }

  /** What `drawBackground` reads from the text view that owns the text. */
  datatype TextViewMetrics = TextViewMetrics(
    paddingLeft: int, paddingTop: int, paddingRight: int, paddingBottom: int, gravity: int)

  /**
   * The rectangle around one line before gravity is applied. `lineWidth` is
   * `Math.round(layout.getLineWidth(lineNumber))`; the top is only padded on
   * the first line, by half the padding (Java division).
   */
  function TextRect(padding: int, left: int, top: int, bottom: int, lineNumber: int,
                    view: TextViewMetrics, lineWidth: int): Rect
  {
    var intrinsic := padding == INTRINSIC_LINE_BACKGROUND_PADDING;
    Rect(left - (if intrinsic then view.paddingLeft else padding),
         top - (if lineNumber == 0 then JavaHalf(if intrinsic then view.paddingTop else padding) else 0),
         left + lineWidth + (if intrinsic then view.paddingRight else padding),
         bottom + (if intrinsic then view.paddingBottom else padding))
  }

  /**
   * With non-negative padding the rectangle covers the line's text, from
   * `left` to `left + lineWidth` and from `top` to `bottom`; below the first
   * line its top is the line's top.
   */
  lemma TextRectCoversLine(padding: int, left: int, top: int, bottom: int, lineNumber: int,
                           view: TextViewMetrics, lineWidth: int)
    requires padding >= 0 || (padding == INTRINSIC_LINE_BACKGROUND_PADDING
      && view.paddingLeft >= 0 && view.paddingTop >= 0 && view.paddingRight >= 0 && view.paddingBottom >= 0)
    ensures var t := TextRect(padding, left, top, bottom, lineNumber, view, lineWidth);
      t.Contains(Rect(left, top, left + lineWidth, bottom))
      && (lineNumber != 0 ==> t.top == top)
  {
  }

  /** `Gravity.apply(gravity, w, h, container, 0, 0, out)`, which is platform code. */
  type GravityApply = (int, int, int, Rect) -> Rect

  /** `android.graphics.Paint`, as its colour. */
  class Paint {
    var color: int

    constructor (color: int)
      ensures this.color == color
    {
      this.color := color;
    }
  }

  /** `android.graphics.Canvas`, as the rectangles drawn on it and the colour of each. */
  class Canvas {
    var drawn: seq<(Rect, int)>

    constructor ()
      ensures drawn == []
    {
      drawn := [];
    }

    method DrawRect(r: Rect, paint: Paint)
      modifies this
      ensures drawn == old(drawn) + [(r, paint.color)]
    {
      drawn := drawn + [(r, paint.color)];
    }
  }

  /** `PaddedLineBackgroundSpan`: a line background with a padding around the text. */
  class PaddedLineBackgroundSpan {
    const color: int
    const padding: int
    var textRect: Rect
    var containerRect: Rect

    constructor (color: int, padding: int)
      ensures this.color == color && this.padding == padding
      ensures textRect == Rect(0, 0, 0, 0) && containerRect == Rect(0, 0, 0, 0)
    {
      this.color := color;
      this.padding := padding;
      textRect := Rect(0, 0, 0, 0);
      containerRect := Rect(0, 0, 0, 0);
    }

    /**
     * `drawBackground`: draws the padded rectangle, placed by the view's
     * gravity inside the box that encloses both it and the line, in this
     * span's colour, and leaves the paint's colour as it found it.
     */
    method DrawBackground(canvas: Canvas, paint: Paint, left: int, right: int, top: int, baseline: int,
                          bottom: int, lineNumber: int, view: TextViewMetrics, lineWidth: int,
                          gravityApply: GravityApply)
      modifies this, paint, canvas
      ensures var t := TextRect(padding, left, top, bottom, lineNumber, view, lineWidth);
        containerRect == Enclosing(Rect(left, top, right, bottom), t)
        && textRect == gravityApply(view.gravity, t.Width(), t.Height(), containerRect)
      ensures containerRect.Contains(Rect(left, top, right, bottom))
      ensures paint.color == old(paint.color)
      ensures canvas.drawn == old(canvas.drawn) + [(textRect, color)]
    {
      textRect := TextRect(padding, left, top, bottom, lineNumber, view, lineWidth);
      containerRect := Rect(
        if left <= textRect.left then left else textRect.left,
        if top <= textRect.top then top else textRect.top,
        if right >= textRect.right then right else textRect.right,
        if bottom >= textRect.bottom then bottom else textRect.bottom);
      textRect := gravityApply(view.gravity, textRect.Width(), textRect.Height(), containerRect);
      var paintColor := paint.color;
      paint.color := color;
      canvas.DrawRect(textRect, paint);
      paint.color := paintColor;
    }
  }
}
