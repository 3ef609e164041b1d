/**
 * The `TextAppearanceSpanCompat` span: a text appearance resolved once from a
 * style's attributes (fonts, family, style bits, weight, size, colours, shadow,
 * letter spacing, line height) and then applied to a text paint and to font
 * metrics.
 *
 * Typefaces, colour state lists and the platform's typeface factories are
 * foreign here: a typeface is an opaque value carrying its style bits, and
 * every factory is a parameter bundled in `Platform`.
 */
module TextAppearanceSpanCompat {
  import opened Wrappers

  /** `Typeface.NORMAL`, `BOLD` and `ITALIC`, as Java `int` bit masks. */
  const NORMAL: bv32 := 0
  const BOLD: bv32 := 1
  const ITALIC: bv32 := 2

  const FONT_WEIGHT_MAX := 1000

  /** Platform API levels that gate some attributes. */
  const SDK_LOLLIPOP := 21
  const SDK_N := 24
  const SDK_O := 26
  const SDK_P := 28

  /** The skew used for synthetic italics. */
  const FAKE_ITALIC_SKEW: real := -0.25

  datatype Typeface = Typeface(id: int, style: bv32)

  datatype ColorStateList = ColorStateList(id: int)

  /** The foreign calls the span makes, and the device's API level. */
  datatype Platform = Platform(
    sdk: int,
    getFont: int -> Option<Typeface>,
    createFromTypeface: (Typeface, bv32) -> Typeface,
    createFromFamily: (string, bv32) -> Typeface,
    defaultFromStyle: bv32 -> Typeface,
    createWeighted: (Typeface, int, bool) -> Typeface,
    colorForState: (ColorStateList, seq<int>, int) -> int,
    localesNonEmpty: string -> bool)

  /** What a font-family attribute holds: a font resource and/or a family name. */
  datatype FamilyAttr = FamilyAttr(resourceId: Option<int>, name: Option<string>)

  /**
   * The attributes of one `TextAppearance` style; `None` is an attribute the
   * style does not set.
   */
  datatype Attributes = Attributes(
    fontFamily: Option<FamilyAttr>,
    androidFontFamily: Option<FamilyAttr>,
    textColor: Option<ColorStateList>,
    textColorLink: Option<ColorStateList>,
    textSize: Option<int>,
    textStyle: Option<bv32>,
    typeface: Option<int>,
    textFontWeight: Option<int>,
    textLocale: Option<string>,
    shadowRadius: Option<real>,
    shadowDx: Option<real>,
    shadowDy: Option<real>,
    shadowColor: Option<int>,
    fontVariationSettings: Option<string>,
    letterSpacing: Option<real>,
    lineHeight: Option<int>,
    androidLineHeight: Option<int>)

  /** The span's resolved, final fields. */
  datatype Appearance = Appearance(
    familyName: Option<string>,
    style: bv32,
    textSize: int,
    textColor: Option<ColorStateList>,
    textColorLink: Option<ColorStateList>,
    typeface: Option<Typeface>,
    textFontWeight: int,
    textLocales: Option<string>,
    shadowRadius: real,
    shadowDx: real,
    shadowDy: real,
    shadowColor: int,
    hasLetterSpacing: bool,
    letterSpacing: real,
    lineHeight: int,
    fontVariationSettings: Option<string>)

  /** The family named by the legacy `typeface` attribute's code. */
  function FamilyFromCode(code: int): (r: Option<string>)
    ensures r.Some? <==> 1 <= code <= 3
    ensures code == 1 ==> r == Some("sans")
    ensures code == 2 ==> r == Some("serif")
    ensures code == 3 ==> r == Some("monospace")
  {
    match code
    case 1 => Some("sans")
    case 2 => Some("serif")
    case 3 => Some("monospace")
    case _ => None
  }

  /** The font-family attribute the span reads: the library's own when set, else Android's. */
  function ChosenFamily(attrs: Attributes): Option<FamilyAttr> {
    if attrs.fontFamily.Some? then attrs.fontFamily else attrs.androidFontFamily
  }

  /** `getResourceId(fontFamilyId, -1)`. */
  function FontResource(attrs: Attributes): int {
    var family := ChosenFamily(attrs);
    if family.Some? && family.value.resourceId.Some? then family.value.resourceId.value else -1
  }

  /** `getString(fontFamilyId)`. */
  function FamilyString(attrs: Attributes): Option<string> {
    var family := ChosenFamily(attrs);
    if family.Some? then family.value.name else None
  }

  /** The resolved font: loaded only when a font resource is given. */
  function ResolveTypeface(attrs: Attributes, p: Platform): (r: Option<Typeface>)
    ensures FontResource(attrs) == -1 ==> r.None?
    ensures FontResource(attrs) != -1 ==> r == p.getFont(FontResource(attrs))
  {
    var fontRes := FontResource(attrs);
    if fontRes != -1 then p.getFont(fontRes) else None
  }

  /** The resolved family name: none when a font was loaded, else the family string, else the typeface code. */
  function ResolveFamilyName(attrs: Attributes, p: Platform): (r: Option<string>)
    ensures ResolveTypeface(attrs, p).Some? ==> r.None?
    ensures r.None? && ResolveTypeface(attrs, p).None? ==>
              FamilyString(attrs).None? && !(1 <= attrs.typeface.GetOr(0) <= 3)
  {
    if ResolveTypeface(attrs, p).Some? then None
    else if FamilyString(attrs).Some? then FamilyString(attrs)
    else FamilyFromCode(attrs.typeface.GetOr(0))
  }

  /** The locales: kept only on API 24 and later and only when they parse to a non-empty list. */
  function ResolveLocales(attrs: Attributes, p: Platform): (r: Option<string>)
    ensures r.Some? <==> attrs.textLocale.Some? && p.sdk >= SDK_N && p.localesNonEmpty(attrs.textLocale.value)
    ensures r.Some? ==> r == attrs.textLocale
  {
    if attrs.textLocale.Some? && p.sdk >= SDK_N && p.localesNonEmpty(attrs.textLocale.value)
    then attrs.textLocale
    else None
  }

  /** The line height: the library's attribute when set, else Android's, else -1. */
  function ResolveLineHeight(attrs: Attributes): (r: int)
    ensures attrs.lineHeight.Some? ==> r == attrs.lineHeight.value
    ensures attrs.lineHeight.None? && attrs.androidLineHeight.Some? ==> r == attrs.androidLineHeight.value
    ensures attrs.lineHeight.None? && attrs.androidLineHeight.None? ==> r == -1
  {
    if attrs.lineHeight.Some? then attrs.lineHeight.value else attrs.androidLineHeight.GetOr(-1)
  }

  /** The whole constructor: every final field from the style's attributes. */
  function Resolve(attrs: Attributes, p: Platform): (r: Appearance)
    ensures r.typeface.Some? ==> r.familyName.None?
    ensures r.typeface == ResolveTypeface(attrs, p) && r.familyName == ResolveFamilyName(attrs, p)
    ensures r.style == attrs.textStyle.GetOr(NORMAL)
    ensures r.textSize == attrs.textSize.GetOr(-1) && r.textFontWeight == attrs.textFontWeight.GetOr(-1)
    ensures r.shadowColor == attrs.shadowColor.GetOr(0)
    ensures r.hasLetterSpacing <==> p.sdk >= SDK_LOLLIPOP && attrs.letterSpacing.Some?
    ensures !r.hasLetterSpacing ==> r.letterSpacing == 0.0
    ensures r.lineHeight == ResolveLineHeight(attrs)
    ensures r.textColor == attrs.textColor && r.textColorLink == attrs.textColorLink
  {
    var lollipop := p.sdk >= SDK_LOLLIPOP;
    Appearance(
      familyName := ResolveFamilyName(attrs, p),
      style := attrs.textStyle.GetOr(NORMAL),
      textSize := attrs.textSize.GetOr(-1),
      textColor := attrs.textColor,
      textColorLink := attrs.textColorLink,
      typeface := ResolveTypeface(attrs, p),
      textFontWeight := attrs.textFontWeight.GetOr(-1),
      textLocales := ResolveLocales(attrs, p),
      shadowRadius := attrs.shadowRadius.GetOr(0.0),
      shadowDx := attrs.shadowDx.GetOr(0.0),
      shadowDy := attrs.shadowDy.GetOr(0.0),
      shadowColor := attrs.shadowColor.GetOr(0),
      hasLetterSpacing := lollipop && attrs.letterSpacing.Some?,
      letterSpacing := if lollipop then attrs.letterSpacing.GetOr(0.0) else 0.0,
      lineHeight := ResolveLineHeight(attrs),
      fontVariationSettings := attrs.fontVariationSettings)
  }

  /** The style the paint is asked for: the current typeface's style combined with the span's. */
  function EffectiveStyle(current: Option<Typeface>, style: bv32): (r: bv32)
    ensures current.None? ==> r == style
    ensures r & BOLD != 0 <==> style & BOLD != 0 || (current.Some? && current.value.style & BOLD != 0)
    ensures r & ITALIC != 0 <==> style & ITALIC != 0 || (current.Some? && current.value.style & ITALIC != 0)
  {
    if current.Some? then current.value.style | style else style
  }

  /** The typeface styled from the span's font, its family, or the current typeface; none when nothing applies. */
  function StyledTypeface(app: Appearance, current: Option<Typeface>, style: bv32, p: Platform): (r: Option<Typeface>)
    ensures r.None? <==> app.typeface.None? && app.familyName.None? && style == NORMAL
  {
    if app.typeface.Some? then Some(p.createFromTypeface(app.typeface.value, style))
    else if app.familyName.Some? || style != NORMAL then
      if app.familyName.Some? then Some(p.createFromFamily(app.familyName.value, style))
      else if current.None? then Some(p.defaultFromStyle(style))
      else Some(p.createFromTypeface(current.value, style))
    else None
  }

  /** The font weight passed on: clamped to 1000, and only for a set weight on API 28 and later. */
  function WeightFor(fontWeight: int, sdk: int): (r: Option<int>)
    ensures r.Some? <==> fontWeight >= 0 && sdk >= SDK_P
    ensures r.Some? ==> 0 <= r.value <= FONT_WEIGHT_MAX
    ensures r.Some? ==> r.value <= fontWeight && (fontWeight <= FONT_WEIGHT_MAX ==> r.value == fontWeight)
  {
    if fontWeight >= 0 && sdk >= SDK_P
    then Some(if FONT_WEIGHT_MAX < fontWeight then FONT_WEIGHT_MAX else fontWeight)
    else None
  }

  /** The typeface finally set on the paint: re-created with the weight when one is passed on. */
  function ReadyTypeface(styled: Typeface, style: bv32, app: Appearance, p: Platform): (r: Typeface)
    ensures WeightFor(app.textFontWeight, p.sdk).None? ==> r == styled
    ensures WeightFor(app.textFontWeight, p.sdk).Some? ==>
              r == p.createWeighted(styled, WeightFor(app.textFontWeight, p.sdk).value, style & ITALIC != 0)
  {
    match WeightFor(app.textFontWeight, p.sdk)
    case Some(weight) => p.createWeighted(styled, weight, style & ITALIC != 0)
    case None => styled
  }

  /** The requested style bits the ready typeface lacks, to be synthesised. */
  function FakeStyle(style: bv32, readyStyle: bv32): (r: bv32)
    ensures r & !style == 0
    ensures r & readyStyle == 0
    ensures style & readyStyle == style ==> r == 0
    ensures r & BOLD != 0 <==> style & BOLD != 0 && readyStyle & BOLD == 0
    ensures r & ITALIC != 0 <==> style & ITALIC != 0 && readyStyle & ITALIC == 0
  {
    style & !readyStyle
  }

  /**
   * The paint's (typeface, fake bold, skew) after the typeface step of
   * `updateMeasureState`, from their values before it.
   */
  function TypefaceState(app: Appearance, p: Platform, current: Option<Typeface>, fakeBold: bool, skewX: real)
    : (r: (Option<Typeface>, bool, real))
    ensures var styled := StyledTypeface(app, current, EffectiveStyle(current, app.style), p);
            styled.None? ==> r == (current, fakeBold, skewX)
    ensures var style := EffectiveStyle(current, app.style);
            var styled := StyledTypeface(app, current, style, p);
            styled.Some? ==>
              var ready := ReadyTypeface(styled.value, style, app, p);
              && r.0 == Some(ready)
              && (r.1 <==> fakeBold || (style & BOLD != 0 && ready.style & BOLD == 0))
              && r.2 == if style & ITALIC != 0 && ready.style & ITALIC == 0 then FAKE_ITALIC_SKEW else skewX
  {
    var style := EffectiveStyle(current, app.style);
    var styled := StyledTypeface(app, current, style, p);
    if styled.None? then (current, fakeBold, skewX)
    else
      var ready := ReadyTypeface(styled.value, style, app, p);
      var fake := FakeStyle(style, ready.style);
      (Some(ready), fakeBold || fake & BOLD != 0, if fake & ITALIC != 0 then FAKE_ITALIC_SKEW else skewX)
  }

  /** `chooseHeight`'s new (ascent, descent); `rounded` is the float-rounded descent. */
  function ChosenHeight(ascent: int, descent: int, lineHeight: int, rounded: int): (r: (int, int))
    ensures descent - ascent <= 0 || lineHeight < 0 ==> r == (ascent, descent)
    ensures descent - ascent > 0 && lineHeight >= 0 ==> r.1 - r.0 == lineHeight && r.1 == rounded
  {
    if descent - ascent <= 0 || lineHeight < 0 then (ascent, descent)
    else (rounded - lineHeight, rounded)
  }

  datatype ShadowLayer = ShadowLayer(radius: real, dx: real, dy: real, color: int)

  /** The paint state the span reads and writes. */
  class TextPaint {
    var typeface: Option<Typeface>
    var fakeBoldText: bool
    var textSkewX: real
    var textSize: int
    var textLocales: Option<string>
    var letterSpacing: real
    var fontVariationSettings: Option<string>
    var color: int
    var linkColor: int
    var shadowLayer: Option<ShadowLayer>
    var drawableState: seq<int>

    constructor (drawableState: seq<int>)
      ensures this.drawableState == drawableState && typeface.None? && !fakeBoldText && textSkewX == 0.0
      ensures shadowLayer.None? && textLocales.None? && fontVariationSettings.None?
    {
      this.drawableState := drawableState;
      typeface := None;
      fakeBoldText := false;
      textSkewX := 0.0;
      textSize := 0;
      textLocales := None;
      letterSpacing := 0.0;
      fontVariationSettings := None;
      color := 0;
      linkColor := 0;
      shadowLayer := None;
    }
  }

  class FontMetricsInt {
    var top: int
    var ascent: int
    var descent: int
    var bottom: int
    var leading: int

    constructor (top: int, ascent: int, descent: int, bottom: int, leading: int)
      ensures this.top == top && this.ascent == ascent && this.descent == descent
      ensures this.bottom == bottom && this.leading == leading
    {
      this.top := top;
      this.ascent := ascent;
      this.descent := descent;
      this.bottom := bottom;
      this.leading := leading;
    }
  }

  class TextAppearanceSpan {
    const appearance: Appearance
    const platform: Platform

    constructor (attrs: Attributes, platform: Platform)
      ensures appearance == Resolve(attrs, platform) && this.platform == platform
    {
      appearance := Resolve(attrs, platform);
      this.platform := platform;
    }

    /** The typeface step of `UpdateMeasureState`: the styled, weighted typeface and the synthetic style. */
    method ApplyTypeface(ds: TextPaint)
      modifies ds
      ensures (ds.typeface, ds.fakeBoldText, ds.textSkewX)
              == TypefaceState(appearance, platform, old(ds.typeface), old(ds.fakeBoldText), old(ds.textSkewX))
      ensures ds.textSize == old(ds.textSize) && ds.textLocales == old(ds.textLocales)
      ensures ds.letterSpacing == old(ds.letterSpacing) && ds.fontVariationSettings == old(ds.fontVariationSettings)
      ensures ds.color == old(ds.color) && ds.linkColor == old(ds.linkColor)
      ensures ds.shadowLayer == old(ds.shadowLayer) && ds.drawableState == old(ds.drawableState)
    {
      var currentTypeface := ds.typeface;
      var style := EffectiveStyle(currentTypeface, appearance.style);
      var styled := StyledTypeface(appearance, currentTypeface, style, platform);
      if styled.Some? {
        var ready := ReadyTypeface(styled.value, style, appearance, platform);
        var fake := FakeStyle(style, ready.style);
        if fake & BOLD != 0 {
          ds.fakeBoldText := true;
        }
        if fake & ITALIC != 0 {
          ds.textSkewX := FAKE_ITALIC_SKEW;
        }
        ds.typeface := Some(ready);
      }
    }

    /** Applies the typeface, synthetic style, size, locales, spacing and font variations. */
    method UpdateMeasureState(ds: TextPaint)
      modifies ds
      ensures (ds.typeface, ds.fakeBoldText, ds.textSkewX)
              == TypefaceState(appearance, platform, old(ds.typeface), old(ds.fakeBoldText), old(ds.textSkewX))
      ensures ds.textSize == if appearance.textSize > 0 then appearance.textSize else old(ds.textSize)
      ensures ds.textLocales == if appearance.textLocales.Some? && platform.sdk >= SDK_N
                                then appearance.textLocales else old(ds.textLocales)
      ensures ds.letterSpacing == if appearance.hasLetterSpacing then appearance.letterSpacing else old(ds.letterSpacing)
      ensures ds.fontVariationSettings == if appearance.fontVariationSettings.Some? && platform.sdk >= SDK_O
                                          then appearance.fontVariationSettings else old(ds.fontVariationSettings)
      ensures ds.color == old(ds.color) && ds.linkColor == old(ds.linkColor)
      ensures ds.shadowLayer == old(ds.shadowLayer) && ds.drawableState == old(ds.drawableState)
    {
      ApplyTypeface(ds);
      if appearance.textSize > 0 {
        ds.textSize := appearance.textSize;
      }
      if appearance.textLocales.Some? && platform.sdk >= SDK_N {
        ds.textLocales := appearance.textLocales;
      }
      if appearance.hasLetterSpacing {
        ds.letterSpacing := appearance.letterSpacing;
      }
      if appearance.fontVariationSettings.Some? && platform.sdk >= SDK_O {
        ds.fontVariationSettings := appearance.fontVariationSettings;
      }
    }

    /** Applies the measure state, then the colours and a shadow. */
    method UpdateDrawState(ds: TextPaint)
      modifies ds
      ensures ds.color == if appearance.textColor.Some?
                          then platform.colorForState(appearance.textColor.value, old(ds.drawableState), 0)
                          else old(ds.color)
      ensures ds.linkColor == if appearance.textColorLink.Some?
                              then platform.colorForState(appearance.textColorLink.value, old(ds.drawableState), 0)
                              else old(ds.linkColor)
      ensures ds.shadowLayer == if appearance.shadowColor != 0
                                then Some(ShadowLayer(appearance.shadowRadius, appearance.shadowDx,
                                                      appearance.shadowDy, appearance.shadowColor))
                                else old(ds.shadowLayer)
      ensures (ds.typeface, ds.fakeBoldText, ds.textSkewX)
              == TypefaceState(appearance, platform, old(ds.typeface), old(ds.fakeBoldText), old(ds.textSkewX))
      ensures ds.textSize == if appearance.textSize > 0 then appearance.textSize else old(ds.textSize)
      ensures ds.textLocales == if appearance.textLocales.Some? && platform.sdk >= SDK_N
                                then appearance.textLocales else old(ds.textLocales)
      ensures ds.letterSpacing == if appearance.hasLetterSpacing then appearance.letterSpacing else old(ds.letterSpacing)
      ensures ds.fontVariationSettings == if appearance.fontVariationSettings.Some? && platform.sdk >= SDK_O
                                          then appearance.fontVariationSettings else old(ds.fontVariationSettings)
      ensures ds.drawableState == old(ds.drawableState)
    {
      UpdateMeasureState(ds);
      if appearance.textColor.Some? {
        ds.color := platform.colorForState(appearance.textColor.value, ds.drawableState, 0);
      }
      if appearance.textColorLink.Some? {
        ds.linkColor := platform.colorForState(appearance.textColorLink.value, ds.drawableState, 0);
      }
      if appearance.shadowColor != 0 {
        ds.shadowLayer := Some(ShadowLayer(appearance.shadowRadius, appearance.shadowDx,
                                           appearance.shadowDy, appearance.shadowColor));
      }
    }

    /**
     * Forces the line to the span's line height; `roundedDescent` stands for
     * `Math.round(descent * lineHeight / originHeight)`, a float computation.
     */
    method ChooseHeight(fm: FontMetricsInt, roundedDescent: int)
      modifies fm
      ensures (fm.ascent, fm.descent) == ChosenHeight(old(fm.ascent), old(fm.descent), appearance.lineHeight, roundedDescent)
      ensures old(fm.descent) - old(fm.ascent) > 0 && appearance.lineHeight >= 0 ==>
                fm.descent - fm.ascent == appearance.lineHeight
      ensures fm.top == old(fm.top) && fm.bottom == old(fm.bottom) && fm.leading == old(fm.leading)
    {
      var originHeight := fm.descent - fm.ascent;
      if originHeight <= 0 || appearance.lineHeight < 0 {
        return;
      }
      fm.descent := roundedDescent;
      fm.ascent := fm.descent - appearance.lineHeight;
    }
  }
}
