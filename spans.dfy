/** The span objects the library creates, as values that say what each one is. */
module Spans {

  datatype Span =
    /** `android.text.style.TextAppearanceSpan(context, appearance)`. */
    | TextAppearanceSpan(appearance: int)
    /** The library's `TextAppearanceSpanCompat(context, appearance)`. */
    | TextAppearanceSpanCompat(appearance: int)
    /** `BackgroundColorSpan(color)`. */
    | BackgroundColorSpan(color: int)
    /** `PaddedLineBackgroundSpan(color, padding)`. */
    | PaddedLineBackgroundSpan(color: int, padding: int)
}
