# MarkdownView in Dafny

MarkdownView is an Android library with `TextView` subclasses that render
Markdown through the Markwon renderer. The text view is styled from XML
attributes: one style resource per Markdown element (headings H1–H6,
emphasis, strong emphasis, block quote, code, fenced and indented code
blocks, list items, paragraphs, links). Most elements may also have a pre-
and a post-style. There are theme colours and dimensions as well.

This project models the library's own logic around Markwon:

- **Style resolution.** `ResolvedAttributes` in Java and Kotlin, `StyleResolver` and `StyleGroup`.
  - A typed array is a `map<int, int>` from a styleable index to a resource id, colour or dimension.
  - Which index belongs to which attribute is a parameter (`Layout`), because the generated `R` class is not part of this model.
- **Span-buffer composition in the three span generators and `SpanFactory.kt`.**
  - Spans are datatype values.
  - The buffers are `array`s that are written with a running index, filled with nulls at the tail and reversed in place.
  - `ArrayUtils.reverse`, `ArrayUtils.map` and the two `CollectionUtils.any` are loops with their invariants.
- **Installing span factories and theme values in `MarkdownViewPlugin` (Java and Kotlin) and `MarkwonHelper.kt`.**
  - Markwon's builders record every call in a log, and the model states the exact log each method leaves.
  - The span factories the plugin installs are datatype values, and their `getSpans` is a function on them.
- **The plugin-list state machine of the two `MarkdownHelper` versions.**
  - These are classes with the fields of the source: the markdown, the built `Markwon`, the pending, static and dynamic builders, and the view plugin.
  - Each `MutableBuilder` is a class whose plugin list is a `seq` field.
  - A render is recorded on a `TextView` object.
- **Integer and flag decisions in `TextAppearanceSpanCompat`.**
  - Family and typeface resolution, the style bit mask, the font-weight clamp, fake bold and italic, and the paint fields each update sets.
  - The line-height adjustment in `chooseHeight`.
  - Android's `Typeface`, `ColorStateList` and `LocaleList` calls are parameters in a `Platform` value.

Modules follow the source files. Names ending in `Java` or `Kt` tell the two
language versions of one file apart. `Markwon`, `Resources`, `StyledContext`,
`Spans`, `Parcels` and `PluginLists` hold the abstractions of Markwon,
Android resources, spans, parcels and plugin lists that the other modules
share.

## Model

| member | source | states |
|---|---|---|
| `ArrayUtils.Reversed` | library/src/main/java/se/ingenuity/markdownview/util/ArrayUtils.java:23-30 | the reversal of a sequence keeps its length |
| `ArrayUtils.ReversedAt` | library/src/main/java/se/ingenuity/markdownview/util/ArrayUtils.java:23-30 | element k of the reversal is element `len-1-k` of the input |
| `ArrayUtils.ReversedTwice` | library/src/main/java/se/ingenuity/markdownview/util/ArrayUtils.java:23-30 | reversing twice gives back the original |
| `ArrayUtils.ReversedPermutes` | library/src/main/java/se/ingenuity/markdownview/util/ArrayUtils.java:25-29 | the reversal holds the same multiset of elements |
| `ArrayUtils.ReversedKeepsMiddle` | library/src/main/java/se/ingenuity/markdownview/util/ArrayUtils.java:24-25 | for odd length the middle element stays where it is |
| `ArrayUtils.Mapped` | library/src/main/java/se/ingenuity/markdownview/util/ArrayUtils.java:13-21 | the result has the collection's length, and position i holds the transformation of element i |
| `ArrayUtils.Map` | library/src/main/java/se/ingenuity/markdownview/util/ArrayUtils.java:13-21 | returns a fresh `int` array of the collection's size, with the transformation of element i at index i |
| `ArrayUtils.Reverse` | library/src/main/java/se/ingenuity/markdownview/util/ArrayUtils.java:23-30 | the array afterwards is the reversal of its old contents, and an odd array's middle element is untouched |
| `ArrayUtils.Fill` | library/src/main/java/se/ingenuity/markdownview/util/SpanGenerator.java:38-40 | `Arrays.fill` sets exactly the slots in `[from, to)` and leaves the others as they were |
| `CollectionUtils.Any` | library/src/main/java/se/ingenuity/markdownview/CollectionUtils.java:15-24 | true iff some element passes the predicate; false on an empty collection; the loop stops at the first element that passes, and no earlier element passed; on false every element was tested and none passed |
| `UtilCollectionUtils.Any` | library/src/main/java/se/ingenuity/markdownview/util/CollectionUtils.java:13-22 | the same for the `util` copy: true iff some element passes, false on empty, stops at the first passing element, and false means none passes |
| `ResolvedAttributesJava.Of` | library/src/main/java/se/ingenuity/markdownview/util/ResolvedAttributes.java:189-201 | the group is `EMPTY` iff all three ids read are `ID_NULL`; otherwise its pre, main and post styles are the ids read; each `has*` holds iff the attribute is present and not `ID_NULL` |
| `ResolvedAttributesJava.HeadingGroupsOf` | library/src/main/java/se/ingenuity/markdownview/util/ResolvedAttributes.java:108-133 | exactly six groups, and group k comes from the H(k+1) pre, main and post styleables |
| `ResolvedAttributesJava.SingleGroupOf` | library/src/main/java/se/ingenuity/markdownview/util/ResolvedAttributes.java:134-161 | a group built from one styleable passed three times has `pre == style == post`, equal to the id read |
| `ResolvedAttributesJava.Resolve` | library/src/main/java/se/ingenuity/markdownview/util/ResolvedAttributes.java:98-183 | wires every group to its styleables: six headings; single-styleable emphasis, strong, block quote, code, fenced, indented, ordered list and link; three-styleable unordered list and paragraph; margin and break height are `UNDEFINED_DIMEN` iff absent or undefined; the list colour is absent iff its attribute is |
| `ResolvedAttributesKt.Component` | library/src/main/java/se/ingenuity/markdownview/util/ResolvedAttributes.kt:188-202 | a styleable index equal to `ID_NULL` yields `ID_NULL` without reading the array; any other index yields the id read |
| `ResolvedAttributesKt.Of` | library/src/main/java/se/ingenuity/markdownview/util/ResolvedAttributes.kt:182-213 | the result equals `StyleGroup(pre, style, post)` of the three components, and each `has*` holds iff its index is not `ID_NULL` and the attribute is present and not `ID_NULL` |
| `ResolvedAttributesKt.OfAgreesWithJava` | library/src/main/java/se/ingenuity/markdownview/util/ResolvedAttributes.kt:182-213 | when no index is `ID_NULL`, the Kotlin `of` and the Java `of` build the same group |
| `ResolvedAttributesKt.OfIgnoresIndexZero` | library/src/main/java/se/ingenuity/markdownview/util/ResolvedAttributes.kt:188-202 | an attribute stored at index `ID_NULL` is dropped by the Kotlin `of` and kept by the Java `of` |
| `ResolvedAttributesKt.HeadingGroupsOf` | library/src/main/java/se/ingenuity/markdownview/util/ResolvedAttributes.kt:49-86 | six groups in H1..H6 order |
| `ResolvedAttributesKt.LinkUnderlinedOf` | library/src/main/java/se/ingenuity/markdownview/util/ResolvedAttributes.kt:148-152 | null iff the attribute is absent; otherwise its boolean value |
| `ResolvedAttributesKt.Resolve` | library/src/main/java/se/ingenuity/markdownview/util/ResolvedAttributes.kt:42-166 | six heading groups in order, and every other group built by `of` from its three styleables; `linkUnderlined` is absent iff its attribute is; margin and break height are `UNDEFINED_DIMEN` iff absent or undefined |
| `Resources.JavaHalf` | library/src/main/java/se/ingenuity/markdownview/util/SpanGenerator.java:120 | Java's `x / 2`: rounds toward zero for either sign |
| `StyleResolver.ResolveStyles` | library/src/main/java/se/ingenuity/markdownview/StyleResolver.kt:8-33 | the loop visits every index once, in order; every present index except `markdown` maps to its resource id, which defaults to -1; `markdown` is never a key; no other key appears |
| `StyleResolver.StyleAt` | library/src/main/java/se/ingenuity/markdownview/MarkwonHelper.kt:64 | `SparseIntArray.get(index, -1)`: the stored value, or -1 for a missing key |
| `StyleResolver.StyleAtIff` | library/src/main/java/se/ingenuity/markdownview/StyleResolver.kt:22-28 | a resolved style is not -1 iff its index is among the array's indices, is not `markdown`, and has a resource id |
| `UtilSpanGenerator.LineBackgroundPadding` | library/src/main/java/se/ingenuity/markdownview/util/SpanGenerator.java:70-75 | the padding is -1 (intrinsic) unless the padding attribute has dimension type, in which case it is the dimension read |
| `UtilSpanGenerator.InsertedSpans` | library/src/main/java/se/ingenuity/markdownview/util/SpanGenerator.java:53-78 | between one and four spans are written, so the index never passes 4 |
| `UtilSpanGenerator.BufferLayout` | library/src/main/java/se/ingenuity/markdownview/util/SpanGenerator.java:82-84 | the result has five slots; all nulls come first, then the written spans in reverse order of writing |
| `UtilSpanGenerator.BufferEndsWithStyle` | library/src/main/java/se/ingenuity/markdownview/util/SpanGenerator.java:54-58 | the last slot holds the first span written: the text-appearance span when one is added (then the style's own span is just before it), otherwise the style's span |
| `UtilSpanGenerator.BackgroundSpanIffAttribute` | library/src/main/java/se/ingenuity/markdownview/util/SpanGenerator.java:62-64 | the result holds a background colour span iff the style has the background-colour attribute |
| `UtilSpanGenerator.LineBackgroundSpanFirst` | library/src/main/java/se/ingenuity/markdownview/util/SpanGenerator.java:66-78 | with a line background, the first non-null slot is the padded line-background span with the colour and padding read |
| `UtilSpanGenerator.CreateSpansForStyle` | library/src/main/java/se/ingenuity/markdownview/util/SpanGenerator.java:41-86 | returns a fresh array whose contents are the buffer above: nulls, then the spans reversed |
| `UtilSpanGenerator.WriteSpans` | library/src/main/java/se/ingenuity/markdownview/util/SpanGenerator.java:51-78 | a fresh five-slot buffer whose first `index` slots hold the spans in the order written, with `index` their count |
| `UtilSpanGenerator.Enclosing` | library/src/main/java/se/ingenuity/markdownview/util/SpanGenerator.java:125-130 | the container rectangle contains both the line box and the text rectangle |
| `UtilSpanGenerator.EnclosingIsSmallest` | library/src/main/java/se/ingenuity/markdownview/util/SpanGenerator.java:125-130 | any rectangle that contains both also contains the container, so it is the smallest |
| `UtilSpanGenerator.TextRectCoversLine` | library/src/main/java/se/ingenuity/markdownview/util/SpanGenerator.java:118-123 | with non-negative padding the text rectangle covers the line's text, and its top is shifted only on line 0 |
| `UtilSpanGenerator.PaddedLineBackgroundSpan.constructor` | library/src/main/java/se/ingenuity/markdownview/util/SpanGenerator.java:99-102 | keeps the colour and padding |
| `UtilSpanGenerator.PaddedLineBackgroundSpan.DrawBackground` | library/src/main/java/se/ingenuity/markdownview/util/SpanGenerator.java:105-147 | the container encloses the line box and the padded text rectangle; the text rectangle is the gravity result; exactly one rectangle is drawn, in the span's colour; the paint's colour is restored |
| `UtilSpanGeneratorKt.CreateSpansForStyle` | library/src/main/java/se/ingenuity/markdownview/util/SpanGenerator.kt:24-65 | the Kotlin version returns a fresh array with the same contents as the Java one |
| `UtilSpanGeneratorKt.WriteSpans` | library/src/main/java/se/ingenuity/markdownview/util/SpanGenerator.kt:33-61 | the Kotlin buffer's first `index` slots hold the spans in the order written |
| `SpanGenerator.InsertedSpans` | library/src/main/java/se/ingenuity/markdownview/SpanGenerator.java:30-36 | one or two spans, the last being the style's own, so the index never passes 2 |
| `SpanGenerator.SpansCases` | library/src/main/java/se/ingenuity/markdownview/SpanGenerator.java:20-44 | `[styleSpan, appearanceSpan]` when a text appearance is added, otherwise `[null, styleSpan]` |
| `SpanGenerator.CreateSpansForStyle` | library/src/main/java/se/ingenuity/markdownview/SpanGenerator.java:20-44 | returns a fresh two-slot array holding those cases |
| `SpanFactoryKt.InsertedSpans` | library/src/main/java/se/ingenuity/markdownview/SpanFactory.kt:20-25 | one or two spans are written |
| `SpanFactoryKt.AsWrittenCases` | library/src/main/java/se/ingenuity/markdownview/SpanFactory.kt:8-29 | as written, both slots hold the style's span when the appearance condition holds; otherwise the result is `[null, styleSpan]` |
| `SpanFactoryKt.AsWrittenDropsTextAppearance` | library/src/main/java/se/ingenuity/markdownview/SpanFactory.kt:21-22 | when the style's text appearance differs from the style, it is missing from the result, though the Java generator includes it |
| `SpanFactoryKt.SpanFactory.constructor` | library/src/main/java/se/ingenuity/markdownview/SpanFactory.kt:6-7 | one two-slot `spans` array per factory |
| `SpanFactoryKt.SpanFactory.CreateSpansForStyle` | library/src/main/java/se/ingenuity/markdownview/SpanFactory.kt:8-29 | returns the shared field array, whose contents become the as-written result |
| `SpanFactoryKt.SpanFactory.CreateSpansForStyleCorrected` | library/src/main/java/se/ingenuity/markdownview/SpanFactory.kt:8-29 | with `textAppearance` in the first slot, the shared array holds the Java generator's result |
| `SpanFactoryKt.CallsShareResult` | library/src/main/java/se/ingenuity/markdownview/SpanFactory.kt:7-28 | corrected method: two calls return the same array, and it holds only the second call's spans |
| `SpanFactoryKt.CallsShareResultAsWritten` | library/src/main/java/se/ingenuity/markdownview/SpanFactory.kt:7-28 | as written: two calls return the same array, and it holds only the second call's as-written spans |
| `Parcels.WriteToParcel` | library/src/main/java/se/ingenuity/markdownview/MarkdownHelper.kt:203-206 | writing a saved state appends two values and keeps what was in the parcel |
| `Parcels.CreateFromParcel` | library/src/main/java/se/ingenuity/markdownview/MarkdownHelper.kt:194-196 | reading a saved state consumes two values |
| `Parcels.ParcelRoundTrip` | library/src/main/java/se/ingenuity/markdownview/MarkdownHelper.kt:194-206 | reading back what was written gives the same super state and markdown, and leaves the rest of the parcel |
| `PluginLists.Without` | library/src/main/java/se/ingenuity/markdownview/MarkdownHelper.kt:181-184 | removing plugins never makes the list longer |
| `PluginLists.InsertAt` | library/src/main/java/se/ingenuity/markdownview/MarkdownHelper.kt:176-179 | `add(index, p)`: p sits at the index, earlier plugins stay, later ones move one right unchanged, and the multiset gains exactly p |
| `PluginLists.IndexOfFirstCore` | library/src/main/java/se/ingenuity/markdownview/MarkdownHelper.kt:65-67 | -1 iff there is no `CorePlugin`; otherwise the index of the first one |
| `PluginLists.WithoutMembers` | library/src/main/java/se/ingenuity/markdownview/MarkdownHelper.kt:181-184 | a plugin is in the result iff it was in the list and is not excluded |
| `PluginLists.WithoutKeepsOthers` | library/src/main/java/se/ingenuity/markdownview/MarkdownHelper.kt:181-184 | a plugin that is not excluded keeps all its occurrences |
| `PluginLists.WithoutAppend` | library/src/main/java/se/ingenuity/markdownview/MarkdownHelper.java:110-111 | removal distributes over concatenation, so relative order is kept |
| `PluginLists.WithoutNothingToRemove` | library/src/main/java/se/ingenuity/markdownview/MarkdownHelper.kt:181-184 | with no excluded plugin present, the list is unchanged |
| `PluginLists.WithoutIdempotent` | library/src/main/java/se/ingenuity/markdownview/MarkdownHelper.kt:181-184 | removing the same plugins twice equals removing them once |
| `Markwon.Lookup` | library/src/main/java/se/ingenuity/markdownview/util/MarkdownViewPlugin.java:137 | `getFactory` returns the registered factory iff there is one for that node |
| `MarkwonHelper.HeadingStyles` | library/src/main/java/se/ingenuity/markdownview/MarkwonHelper.kt:73-80 | six styles; style k is the resolved H(k+1) style or -1 |
| `MarkwonHelper.SetCallsIff` | library/src/main/java/se/ingenuity/markdownview/MarkwonHelper.kt:60-70 | `maybeSetFactory` issues a call iff the resolved style is present and not -1, and that call is a set of a factory for that style |
| `MarkwonHelper.HeadingCallsIff` | library/src/main/java/se/ingenuity/markdownview/MarkwonHelper.kt:72-94 | a heading factory is set iff some level's style is not -1; it holds the original factory and the six styles |
| `MarkwonHelper.ListCallsIff` | library/src/main/java/se/ingenuity/markdownview/MarkwonHelper.kt:96-121 | a list factory is set iff either list style is not -1, and it keeps the original list factory |
| `MarkwonHelper.SetsOnlyAppend` | library/src/main/java/se/ingenuity/markdownview/MarkwonHelper.kt:23-58 | two call logs made only of sets concatenate to one made only of sets |
| `MarkwonHelper.OnlySetCalls` | library/src/main/java/se/ingenuity/markdownview/MarkwonHelper.kt:23-58 | `configureSpansFactory` only ever calls `setFactory` |
| `MarkwonHelper.HeadingGetSpans` | library/src/main/java/se/ingenuity/markdownview/MarkwonHelper.kt:85-92 | spans for `headingStyles[level-1]` when it is not -1; else the original factory's spans when there is one; else null |
| `MarkwonHelper.ListGetSpans` | library/src/main/java/se/ingenuity/markdownview/MarkwonHelper.kt:105-119 | ORDERED uses the ordered style and every other item type the unordered one; each falls back to the original factory, then to null |
| `MarkwonHelper.HeadingFactoryFallsBack` | library/src/main/java/se/ingenuity/markdownview/MarkwonHelper.kt:72-94 | from the attributes: a heading level gets the plugin's spans iff its style attribute is present with a resource id; otherwise it delegates iff a heading factory was registered |
| `MarkwonHelper.HelperPlugin.constructor` | library/src/main/java/se/ingenuity/markdownview/MarkwonHelper.kt:19-20 | the styles are the ones `resolveStyles` produces |
| `MarkwonHelper.HelperPlugin.ConfigureSpansFactory` | library/src/main/java/se/ingenuity/markdownview/MarkwonHelper.kt:23-58 | the builder's log gains exactly the heading, element, list and link calls, in source order |
| `MarkwonHelper.HelperPlugin.MaybeSetFactory` | library/src/main/java/se/ingenuity/markdownview/MarkwonHelper.kt:60-70 | the log gains the set call exactly when the style is not -1 |
| `MarkwonHelper.HelperPlugin.MaybeSetHeadingFactory` | library/src/main/java/se/ingenuity/markdownview/MarkwonHelper.kt:72-94 | the log gains the heading set call, which captures the factory registered before it |
| `MarkwonHelper.HelperPlugin.MaybeSetListFactory` | library/src/main/java/se/ingenuity/markdownview/MarkwonHelper.kt:96-121 | the log gains the list set call, which captures the factory registered before it |
| `MarkwonHelper.UsePluginOnceAndLast` | library/src/main/java/se/ingenuity/markdownview/MarkwonHelper.kt:124-133 | after `usePlugin(p)`, p occurs exactly once, as the last plugin, and every other plugin keeps its count |
| `MarkwonHelper.UsePluginKeepsOrder` | library/src/main/java/se/ingenuity/markdownview/MarkwonHelper.kt:125-130 | the other plugins keep their relative order |
| `MarkwonHelper.UsePluginIdempotent` | library/src/main/java/se/ingenuity/markdownview/MarkwonHelper.kt:124-133 | using the same plugin twice gives the same list as using it once |
| `MarkwonHelper.MarkwonHelper.constructor` | library/src/main/java/se/ingenuity/markdownview/MarkwonHelper.kt:18-122 | the initial renderer holds the core plugin and the helper's own plugin |
| `MarkwonHelper.MarkwonHelper.UsePlugin` | library/src/main/java/se/ingenuity/markdownview/MarkwonHelper.kt:124-133 | the renderer is rebuilt from the old plugins with p removed and appended |
| `MarkdownViewPluginJava.ThemeCallsIff` | library/src/main/java/se/ingenuity/markdownview/util/MarkdownViewPlugin.java:54-80 | a colour is forwarded iff it is present, and a dimension iff it is not `UNDEFINED_DIMEN`, each with its value; link underlining is never set; at most six calls |
| `MarkdownViewPluginJava.Styles` | library/src/main/java/se/ingenuity/markdownview/util/ArrayUtils.java:13-21 | the mapped heading styles, one per group, in order |
| `MarkdownViewPluginJava.GroupCallsIff` | library/src/main/java/se/ingenuity/markdownview/util/MarkdownViewPlugin.java:104-131 | append of the pre-style, set of the style and prepend of the post-style, each iff the group has it; every call carries a valid style; there are no calls iff the group is `EMPTY` |
| `MarkdownViewPluginJava.ListCallsIff` | library/src/main/java/se/ingenuity/markdownview/util/MarkdownViewPlugin.java:160-179 | a list factory of each kind is installed iff the ordered or the unordered group has that component; only the set one keeps the original factory |
| `MarkdownViewPluginJava.HeadingGetSpans` | library/src/main/java/se/ingenuity/markdownview/util/MarkdownViewPlugin.java:236-248 | spans for `headingStyles[level-1]` when valid; else the original factory's spans when there is one; else null |
| `MarkdownViewPluginJava.ListItemGetSpans` | library/src/main/java/se/ingenuity/markdownview/util/MarkdownViewPlugin.java:203-215 | ORDERED with a valid ordered style, then BULLET with a valid unordered style, then the original factory, else null |
| `MarkdownViewPluginJava.HeadingPostStyleReplacesMainStyle` | library/src/main/java/se/ingenuity/markdownview/util/MarkdownViewPlugin.java:152-157 | as written, an H1 main style and an H2 post-style produce two set calls; the second factory, which replaces the first, gives an H1 heading no spans |
| `MarkdownViewPluginJava.HeadingPostStyleAlwaysReplaces` | library/src/main/java/se/ingenuity/markdownview/util/MarkdownViewPlugin.java:133-158 | as written, whenever some heading has a post-style, the last heading call sets the post-style factory; it gives no spans to any level without a post-style, even a level whose main style an earlier set call styled |
| `MarkdownViewPluginJava.HeadingCallsOnHeadings` | library/src/main/java/se/ingenuity/markdownview/util/MarkdownViewPlugin.java:133-158 | with the post-style factory set or prepended, every heading call is for headings, and there are at most three |
| `MarkdownViewPluginJava.HeadingCallsSetMainStyleOnly` | library/src/main/java/se/ingenuity/markdownview/util/MarkdownViewPlugin.java:133-158 | with the post-style prepended, the only set call installs the main-style factory with the original factory; all calls are for headings; the post-style factory is prepended iff some group has a post-style |
| `MarkdownViewPluginJava.HeadingFactoryFollowsGroups` | library/src/main/java/se/ingenuity/markdownview/util/MarkdownViewPlugin.java:137-149 | the main heading factory gives level L the spans of group L's style, else the original factory's spans, else null |
| `MarkdownViewPluginJava.LookupsPrecedeCalls` | library/src/main/java/se/ingenuity/markdownview/util/MarkdownViewPlugin.java:88-102 | whether the heading post-style factory is set or prepended, the log is the calls before the list calls, then the list calls, paragraph and link; no call before the list calls touches list items, so `getFactory(ListItem)` sees only the factories registered before the plugin ran |
| `MarkdownViewPluginJava.MarkdownViewPlugin.constructor` | library/src/main/java/se/ingenuity/markdownview/util/MarkdownViewPlugin.java:43-51 | the plugin holds the attributes resolved from the typed array |
| `MarkdownViewPluginJava.MarkdownViewPlugin.ConfigureTheme` | library/src/main/java/se/ingenuity/markdownview/util/MarkdownViewPlugin.java:54-80 | the theme builder's log gains exactly the theme calls above |
| `MarkdownViewPluginJava.MarkdownViewPlugin.ConfigureVisitor` | library/src/main/java/se/ingenuity/markdownview/util/MarkdownViewPlugin.java:83-85 | one call: soft line breaks become new lines |
| `MarkdownViewPluginJava.MarkdownViewPlugin.ConfigureSpansFactory` | library/src/main/java/se/ingenuity/markdownview/util/MarkdownViewPlugin.java:88-102 | corrected half: the log gains the calls for heading, emphasis, strong, block quote, code, fenced, indented, list item, paragraph and link, in that order, with the heading post-style factory prepended |
| `MarkdownViewPluginJava.MarkdownViewPlugin.ConfigureSpansFactoryAsWritten` | library/src/main/java/se/ingenuity/markdownview/util/MarkdownViewPlugin.java:88-102 | as-written half: the same calls in the same order, with the heading post-style factory installed by `setFactory` |
| `MarkdownViewPluginJava.MarkdownViewPlugin.ApplyOtherFactories` | library/src/main/java/se/ingenuity/markdownview/util/MarkdownViewPlugin.java:90-101 | after the heading calls, the log gains the element, list, paragraph and link calls, so it ends as the whole `configureSpansFactory` log |
| `MarkdownViewPluginJava.MarkdownViewPlugin.MaybeApplyFactories` | library/src/main/java/se/ingenuity/markdownview/util/MarkdownViewPlugin.java:104-131 | the log gains exactly the group's calls |
| `MarkdownViewPluginJava.MarkdownViewPlugin.MaybeApplyHeadingFactoriesAsWritten` | library/src/main/java/se/ingenuity/markdownview/util/MarkdownViewPlugin.java:133-158 | the heading calls as written, with the post-style factory installed by `setFactory` |
| `MarkdownViewPluginJava.MarkdownViewPlugin.MaybeApplyHeadingFactories` | library/src/main/java/se/ingenuity/markdownview/util/MarkdownViewPlugin.java:133-158 | the heading calls with the post-style factory prepended, as for every other element |
| `MarkdownViewPluginJava.MarkdownViewPlugin.MaybeApplyListFactories` | library/src/main/java/se/ingenuity/markdownview/util/MarkdownViewPlugin.java:160-179 | the log gains the list calls, with the original list factory read before any of them |
| `MarkdownViewPluginKt.ThemeCallsIff` | library/src/main/java/se/ingenuity/markdownview/util/MarkdownViewPlugin.kt:27-52 | colours forwarded iff present, dimensions iff not `UNDEFINED_DIMEN`, link underlining iff it is set, each with its value; at most seven calls |
| `MarkdownViewPluginKt.PreStyles` | library/src/main/java/se/ingenuity/markdownview/util/MarkdownViewPlugin.kt:111 | the pre-styles of the six groups in H1..H6 order |
| `MarkdownViewPluginKt.MainStyles` | library/src/main/java/se/ingenuity/markdownview/util/MarkdownViewPlugin.kt:118 | the main styles in H1..H6 order |
| `MarkdownViewPluginKt.PostStyles` | library/src/main/java/se/ingenuity/markdownview/util/MarkdownViewPlugin.kt:126 | the post-styles in H1..H6 order |
| `MarkdownViewPluginKt.GroupCallsIff` | library/src/main/java/se/ingenuity/markdownview/util/MarkdownViewPlugin.kt:83-103 | prepend of the pre-style, set of the style and append of the post-style, each iff valid |
| `MarkdownViewPluginKt.HeadingCallsIff` | library/src/main/java/se/ingenuity/markdownview/util/MarkdownViewPlugin.kt:105-131 | a heading factory of each kind is installed iff at least one of the groups has that component |
| `MarkdownViewPluginKt.ListCallsIff` | library/src/main/java/se/ingenuity/markdownview/util/MarkdownViewPlugin.kt:133-157 | a list factory of each kind is installed iff the ordered or the unordered group has that component |
| `MarkdownViewPluginKt.HeadingGetSpans` | library/src/main/java/se/ingenuity/markdownview/util/MarkdownViewPlugin.kt:185-195 | spans for `headingStyles[level-1]` if valid, else null; never delegates to another factory |
| `MarkdownViewPluginKt.ListItemGetSpans` | library/src/main/java/se/ingenuity/markdownview/util/MarkdownViewPlugin.kt:164-178 | the ordered style for ORDERED and the unordered style for BULLET, when valid, else null; never delegates |
| `MarkdownViewPluginKt.HeadingFactoryFollowsGroups` | library/src/main/java/se/ingenuity/markdownview/util/MarkdownViewPlugin.kt:118-120 | the main heading factory gives level L group L's style when it has one, else null |
| `MarkdownViewPluginKt.MarkdownViewPlugin.constructor` | library/src/main/java/se/ingenuity/markdownview/util/MarkdownViewPlugin.kt:13-25 | the plugin holds the attributes resolved by the Kotlin rules |
| `MarkdownViewPluginKt.MarkdownViewPlugin.ConfigureTheme` | library/src/main/java/se/ingenuity/markdownview/util/MarkdownViewPlugin.kt:27-52 | the theme log gains exactly the theme calls above |
| `MarkdownViewPluginKt.MarkdownViewPlugin.ConfigureSpansFactory` | library/src/main/java/se/ingenuity/markdownview/util/MarkdownViewPlugin.kt:54-81 | the log gains every element's calls in the fixed node order |
| `MarkdownViewPluginKt.MarkdownViewPlugin.MaybeApplyFactories` | library/src/main/java/se/ingenuity/markdownview/util/MarkdownViewPlugin.kt:83-103 | the log gains exactly the group's calls |
| `MarkdownViewPluginKt.MarkdownViewPlugin.MaybeApplyHeadingFactories` | library/src/main/java/se/ingenuity/markdownview/util/MarkdownViewPlugin.kt:105-131 | the log gains the heading calls |
| `MarkdownViewPluginKt.MarkdownViewPlugin.MaybeApplyListFactories` | library/src/main/java/se/ingenuity/markdownview/util/MarkdownViewPlugin.kt:133-157 | the log gains the list calls |
| `MarkdownHelperKt.OrEmpty` | library/src/main/java/se/ingenuity/markdownview/MarkdownHelper.kt:114-115 | a null markdown becomes "", any other is kept |
| `MarkdownHelperKt.WithViewPluginPlacement` | library/src/main/java/se/ingenuity/markdownview/MarkdownHelper.kt:65-77 | a list with a view plugin is unchanged; otherwise the view plugin goes just before the first `CorePlugin`, or first when there is none, with the other plugins in place; either way the list then has a view plugin |
| `MarkdownHelperKt.WrapFactoryBuilder` | library/src/main/java/se/ingenuity/markdownview/MarkdownHelper.kt:60-64 | a `MarkwonBuilderFactory2` yields a `MutableBuilder` with its plugins in the builder's own list, used as it is; any other builder is wrapped, its plugins staying in the delegate and the own list empty |
| `MarkdownHelperKt.AddViewPlugin` | library/src/main/java/se/ingenuity/markdownview/MarkdownHelper.kt:65-77 | the builder's list becomes the placement above, and the delegate is untouched |
| `MarkdownHelperKt.MutableBuilder.constructor` | library/src/main/java/se/ingenuity/markdownview/MarkdownHelper.kt:154-157 | a new builder has the delegate's plugins and an empty list of its own |
| `MarkdownHelperKt.MutableBuilder.BuildPlugins` | library/src/main/java/se/ingenuity/markdownview/MarkdownHelper.kt:168-171 | the built plugins are the delegate's followed by the builder's own |
| `MarkdownHelperKt.MutableBuilder.UsePlugin` | library/src/main/java/se/ingenuity/markdownview/MarkdownHelper.kt:158-161 | appends one plugin; the delegate is untouched |
| `MarkdownHelperKt.MutableBuilder.UsePlugins` | library/src/main/java/se/ingenuity/markdownview/MarkdownHelper.kt:163-166 | appends the plugins in order |
| `MarkdownHelperKt.MutableBuilder.UsePluginAt` | library/src/main/java/se/ingenuity/markdownview/MarkdownHelper.kt:176-179 | inserts at the index and shifts later plugins right |
| `MarkdownHelperKt.MutableBuilder.RemovePlugins` | library/src/main/java/se/ingenuity/markdownview/MarkdownHelper.kt:181-184 | removes every occurrence of each excluded plugin from the builder's own list only |
| `MarkdownHelperKt.MutableBuilder.Build` | library/src/main/java/se/ingenuity/markdownview/MarkdownHelper.kt:168-171 | the renderer holds the delegate's plugins and then the builder's, and the delegate now holds both |
| `MarkdownHelperKt.MarkdownHelper.constructor` | library/src/main/java/se/ingenuity/markdownview/MarkdownHelper.kt:22-29 | no markdown, renderer or builders yet |
| `MarkdownHelperKt.MarkdownHelper.LoadFromAttributes` | library/src/main/java/se/ingenuity/markdownview/MarkdownHelper.kt:31-86 | the static builder exists; the plugins to build are the factory's with the view plugin placed, or core plus view plugin; without markdown the dynamic builder is the static one; with markdown the text is rendered once and the dynamic builder is cleared |
| `MarkdownHelperKt.MarkdownHelper.AddMarkwonPlugins` | library/src/main/java/se/ingenuity/markdownview/MarkdownHelper.kt:88-95 | without plugins nothing changes; otherwise the next plugins gain them at the end, and the view re-renders iff `update` |
| `MarkdownHelperKt.MarkdownHelper.RemoveMarkwonPlugins` | library/src/main/java/se/ingenuity/markdownview/MarkdownHelper.kt:97-106 | without plugins nothing changes; with a pending builder the excluded plugins leave its own list; after a render the next plugins are unchanged, as written |
| `MarkdownHelperKt.MarkdownHelper.RemoveMarkwonPluginsCorrected` | library/src/main/java/se/ingenuity/markdownview/MarkdownHelper.kt:97-106 | the same, except that after a render the next plugins are the renderer's minus the excluded ones |
| `MarkdownHelperKt.MarkdownHelper.SetMarkdown` | library/src/main/java/se/ingenuity/markdownview/MarkdownHelper.kt:108-116 | builds only when a dynamic builder is pending, then clears it; the renderer afterwards is the one the plugins promised; the stored markdown is the input or ""; exactly one render |
| `MarkdownHelperKt.MarkdownHelper.OnSaveInstanceState` | library/src/main/java/se/ingenuity/markdownview/MarkdownHelper.kt:118-120 | a saved state carrying the super state and the markdown |
| `MarkdownHelperKt.MarkdownHelper.GetSuperState` | library/src/main/java/se/ingenuity/markdownview/MarkdownHelper.kt:122-124 | the super state iff the state is an `AbsSavedState`, else null |
| `MarkdownHelperKt.MarkdownHelper.OnRestoreInstanceState` | library/src/main/java/se/ingenuity/markdownview/MarkdownHelper.kt:126-130 | the markdown is restored only from a saved state of this helper; nothing else changes |
| `MarkdownHelperKt.MarkdownHelper.EnsureStaticBuilder` | library/src/main/java/se/ingenuity/markdownview/MarkdownHelper.kt:132-138 | creates a builder with core and the view plugin only when there is none |
| `MarkdownHelperKt.MarkdownHelper.EnsureDynamicBuilder` | library/src/main/java/se/ingenuity/markdownview/MarkdownHelper.kt:140-152 | a dynamic builder exists afterwards and the next plugins are unchanged; a new one has an empty list of its own |
| `MarkdownHelperKt.MarkdownHelper.EnsureDynamicBuilderCorrected` | library/src/main/java/se/ingenuity/markdownview/MarkdownHelper.kt:140-152 | the same, but after a render the renderer's plugins go into the builder's own list, where removal can reach them |
| `MarkdownHelperKt.RemoveAfterRenderKeepsPlugin` | library/src/main/java/se/ingenuity/markdownview/MarkdownHelper.kt:97-106 | as written: load, add a plugin and render, remove it and render; the renderer still holds it |
| `MarkdownHelperKt.RemoveAfterRenderCorrected` | library/src/main/java/se/ingenuity/markdownview/MarkdownHelper.kt:140-152 | the same steps with the corrected builder leave exactly core and the view plugin |
| `MarkdownHelperJava.MutableBuilder.constructor` | library/src/main/java/se/ingenuity/markdownview/MarkdownHelper.java:187-196 | a new builder has the delegate's plugins and an empty list of its own |
| `MarkdownHelperJava.MutableBuilder.BuildPlugins` | library/src/main/java/se/ingenuity/markdownview/MarkdownHelper.java:232-237 | the built plugins are the delegate's followed by the builder's own |
| `MarkdownHelperJava.MutableBuilder.UsePlugin` | library/src/main/java/se/ingenuity/markdownview/MarkdownHelper.java:212-215 | appends one plugin |
| `MarkdownHelperJava.MutableBuilder.UsePlugins` | library/src/main/java/se/ingenuity/markdownview/MarkdownHelper.java:217-224 | appends the plugins in order, one at a time |
| `MarkdownHelperJava.MutableBuilder.Build` | library/src/main/java/se/ingenuity/markdownview/MarkdownHelper.java:232-237 | the renderer holds the delegate's plugins and then the builder's |
| `MarkdownHelperJava.MarkdownHelper.constructor` | library/src/main/java/se/ingenuity/markdownview/MarkdownHelper.java:47-49 | no markdown, renderer, pending builder or plugin yet |
| `MarkdownHelperJava.MarkdownHelper.LoadFromAttributes` | library/src/main/java/se/ingenuity/markdownview/MarkdownHelper.java:51-90 | on the factory path a fresh pending builder holds the factory's plugins in its delegate and exactly `[plugin]` in its own list; otherwise the builder comes from `ensureBuilder`; with markdown the text is rendered once and nothing is pending; without it something is pending, so the later render has a renderer |
| `MarkdownHelperJava.MarkdownHelper.AddMarkwonPlugins` | library/src/main/java/se/ingenuity/markdownview/MarkdownHelper.java:92-101 | without plugins nothing changes; otherwise the plugins are appended in order, and the view re-renders iff `update` |
| `MarkdownHelperJava.MarkdownHelper.RemoveMarkwonPlugins` | library/src/main/java/se/ingenuity/markdownview/MarkdownHelper.java:103-114 | without plugins nothing changes; otherwise every occurrence of each excluded plugin leaves the pending list, which after a render holds the renderer's plugins and the view plugin |
| `MarkdownHelperJava.MarkdownHelper.SetMarkdown` | library/src/main/java/se/ingenuity/markdownview/MarkdownHelper.java:116-128 | null becomes ""; the pending builder is built at most once and is null afterwards; exactly one render with the stored markdown |
| `MarkdownHelperJava.MarkdownHelper.OnSaveInstanceState` | library/src/main/java/se/ingenuity/markdownview/MarkdownHelper.java:130-133 | a saved state carrying the super state and the markdown |
| `MarkdownHelperJava.MarkdownHelper.GetSuperState` | library/src/main/java/se/ingenuity/markdownview/MarkdownHelper.java:135-138 | the super state of an `AbsSavedState` |
| `MarkdownHelperJava.MarkdownHelper.OnRestoreInstanceState` | library/src/main/java/se/ingenuity/markdownview/MarkdownHelper.java:140-144 | the markdown is restored only from a saved state of this helper |
| `MarkdownHelperJava.MarkdownHelper.EnsureBuilder` | library/src/main/java/se/ingenuity/markdownview/MarkdownHelper.java:146-156 | acts only with nothing pending: after a render the new list is the renderer's plugins followed by `plugin`; before one, the delegate holds core and `plugin` and the list is empty |
| `MarkdownHelperJava.RemoveAfterRender` | library/src/main/java/se/ingenuity/markdownview/MarkdownHelper.java:103-114 | in the Java helper, a plugin added, rendered and then removed is gone from the next renderer |
| `TextAppearanceSpanCompat.FamilyFromCode` | library/src/main/java/se/ingenuity/markdownview/util/span/TextAppearanceSpanCompat.java:121-139 | codes 1, 2 and 3 give "sans", "serif" and "monospace"; any other code gives null |
| `TextAppearanceSpanCompat.ResolveTypeface` | library/src/main/java/se/ingenuity/markdownview/util/span/TextAppearanceSpanCompat.java:107-112 | a font is loaded only for a font resource other than -1 |
| `TextAppearanceSpanCompat.ResolveFamilyName` | library/src/main/java/se/ingenuity/markdownview/util/span/TextAppearanceSpanCompat.java:114-141 | null when a font was loaded, so a typeface and a family name are never both set; without a font, null only when there is no family string and the typeface code is not 1..3 |
| `TextAppearanceSpanCompat.ResolveLocales` | library/src/main/java/se/ingenuity/markdownview/util/span/TextAppearanceSpanCompat.java:145-155 | locales are kept iff a locale string is given, the SDK is at least N and the list is not empty |
| `TextAppearanceSpanCompat.ResolveLineHeight` | library/src/main/java/se/ingenuity/markdownview/util/span/TextAppearanceSpanCompat.java:179-183 | `lineHeight` if present, else `android:lineHeight`, else -1 |
| `TextAppearanceSpanCompat.Resolve` | library/src/main/java/se/ingenuity/markdownview/util/span/TextAppearanceSpanCompat.java:93-195 | the family name is null whenever a typeface is set; style, size, weight and shadow defaults are NORMAL, -1, -1 and 0; letter spacing counts iff SDK ≥ Lollipop and the attribute is present, and is 0 otherwise |
| `TextAppearanceSpanCompat.EffectiveStyle` | library/src/main/java/se/ingenuity/markdownview/util/span/TextAppearanceSpanCompat.java:218-223 | the span's style alone without a current typeface; otherwise BOLD and ITALIC are each set iff either style has them |
| `TextAppearanceSpanCompat.StyledTypeface` | library/src/main/java/se/ingenuity/markdownview/util/span/TextAppearanceSpanCompat.java:225-240 | no typeface iff there is no typeface or family and the style is NORMAL |
| `TextAppearanceSpanCompat.WeightFor` | library/src/main/java/se/ingenuity/markdownview/util/span/TextAppearanceSpanCompat.java:242-245 | a weight is passed on iff it is non-negative and the SDK is at least P; it is min(1000, weight) |
| `TextAppearanceSpanCompat.ReadyTypeface` | library/src/main/java/se/ingenuity/markdownview/util/span/TextAppearanceSpanCompat.java:242-248 | re-created with the clamped weight and the italic flag when a weight applies, else the styled typeface |
| `TextAppearanceSpanCompat.FakeStyle` | library/src/main/java/se/ingenuity/markdownview/util/span/TextAppearanceSpanCompat.java:250 | `style & ~ready.style` has only bits of the style and none of the ready typeface; zero when the typeface covers the style; BOLD or ITALIC iff wanted and missing |
| `TextAppearanceSpanCompat.TypefaceState` | library/src/main/java/se/ingenuity/markdownview/util/span/TextAppearanceSpanCompat.java:217-260 | without a styled typeface the paint keeps its typeface and flags; otherwise it gets the ready typeface, fake bold iff bold is wanted and missing (or already set), and the -0.25 skew iff italic is wanted and missing |
| `TextAppearanceSpanCompat.ChosenHeight` | library/src/main/java/se/ingenuity/markdownview/util/span/TextAppearanceSpanCompat.java:301-308 | unchanged if the original height is ≤ 0 or the line height < 0; otherwise `descent - ascent` equals the line height, whatever the rounding |
| `TextAppearanceSpanCompat.TextAppearanceSpan.constructor` | library/src/main/java/se/ingenuity/markdownview/util/span/TextAppearanceSpanCompat.java:93-195 | the span's fields are the resolved appearance |
| `TextAppearanceSpanCompat.TextAppearanceSpan.ApplyTypeface` | library/src/main/java/se/ingenuity/markdownview/util/span/TextAppearanceSpanCompat.java:217-260 | sets typeface, fake bold and skew as `TypefaceState` says and nothing else |
| `TextAppearanceSpanCompat.TextAppearanceSpan.UpdateMeasureState` | library/src/main/java/se/ingenuity/markdownview/util/span/TextAppearanceSpanCompat.java:215-290 | the typeface state; the text size only when > 0; locales only from SDK N; letter spacing only when present; font variation settings only from SDK O; colours, shadow and drawable state untouched |
| `TextAppearanceSpanCompat.TextAppearanceSpan.UpdateDrawState` | library/src/main/java/se/ingenuity/markdownview/util/span/TextAppearanceSpanCompat.java:198-212 | the measure state, then text and link colours for the drawable state when present, and a shadow only when its colour is not 0 |
| `TextAppearanceSpanCompat.TextAppearanceSpan.ChooseHeight` | library/src/main/java/se/ingenuity/markdownview/util/span/TextAppearanceSpanCompat.java:293-309 | ascent and descent as `ChosenHeight` says, so `descent - ascent == lineHeight` when the adjustment applies; top, bottom and leading untouched |

## Left out

- Reflection in `parseMarkwonBuilder`, and the constructor and singleton caches, are not modelled. A factory's result is a parameter: a plugin list, or a builder value saying whether it is a `MutableBuilder`.
- Android resources are not modelled. `obtainStyledAttributes` and `TypedArray` are maps from styleable index to value, and `getType` is a parameter of the context. `ID_NULL` is 0. `UNDEFINED_DIMEN`'s value is not visible, so the model picks `-0x8000_0000` as its sentinel.
- Markwon is not modelled: what `appendFactory`, `prependFactory` and `setFactory` do to rendering, how `build()` orders or de-duplicates plugins, and what `setMarkdown` draws. The builders record calls, a build is the ordered list of plugins, and a render is a `(markwon, markdown)` record.
- `MarkdownHelperJava.MarkdownHelper.EnsureBuilder` states the plugin lists as the source builds them. It does not state whether Markwon drops the second copy of the view plugin that this list can hold.
- Floating point is abstracted: the ratio and `Math.round` in `chooseHeight` are one integer parameter, `Math.round(getLineWidth)` is a parameter, and shadow and letter-spacing values pass through as `real`s.
- Integer overflow is not modelled. `int` arithmetic in the text rectangle and in `chooseHeight` is unbounded here.
- Android calls are parameters in a `Platform` value: `Typeface.create` and `getStyle`, `ResourcesCompat.getFont`, `ColorStateList.getColorForState`, `LocaleList.forLanguageTags(...).isEmpty()` and `Gravity.apply`. `Canvas.drawRect` is recorded in a log.
- The `mHasElegantTextHeight` and `mFontFeatureSettings` branches are not modelled. Their assignments are commented out in the source, so those branches never run.
- The constructor's `colorList` parameter is not modelled, because it is unused.
- The View subclasses and the behaviour-free interfaces are left out (`MarkwonBuilderFactory`, `MarkwonBuilderFactory2`, `MarkdownView`, `MarkwonPluginsFactory`).
- A parcel is a sequence of abstract values; the Parcel I/O itself is not modelled.
- `MarkdownHelperKt.MarkdownHelper.SetMarkdown` and `MarkdownHelperJava.MarkdownHelper.SetMarkdown` require `Ready()`, meaning a renderer exists or a builder is pending.
  - Otherwise the source fails on `markwon!!` or a null `markwon`.
  - `loadFromAttributes` establishes `Ready()`.
- The add and remove methods of both helpers require a pending builder or a loaded `plugin` when there is something to add or remove.
  - Otherwise the Kotlin `lateinit` access fails, and the Java code registers a null plugin.
- `MarkdownHelperJava.MarkdownHelper.GetSuperState` requires an `AbsSavedState`, because the Java cast throws on anything else.
- `MarkwonHelper.HeadingGetSpans`, `MarkdownViewPluginJava.HeadingGetSpans` and `MarkdownViewPluginKt.HeadingGetSpans` require `1 <= level <= |headingStyles|`, and `MarkdownViewPluginJava.GetSpans` requires it of a heading factory. The source throws `ArrayIndexOutOfBoundsException` outside that range.
- `MarkwonHelper.OnlySetCalls` states that only set calls are issued, not how many.
- `MarkdownViewPluginJava.MarkdownViewPlugin.ConfigureSpansFactory` uses the corrected heading method (see Findings). `ConfigureSpansFactoryAsWritten` beside it uses the as-written one.
- `MarkdownViewPluginJava.HeadingCallsSetMainStyleOnly` is about the corrected heading calls.
- The plugin's factories do not call the span generator: their spans are the value `Generated(style)`. The generator's output is stated on its own in `UtilSpanGenerator`.
- The Kotlin `PaddedLineBackgroundSpan.drawBackground` (util/SpanGenerator.kt:78-113) uses the same arithmetic as the Java one, so it is modelled only once, by the Java class.
- In both span generators the background colour is read at index 0 of the custom attributes, not at `mdBackgroundColor` (util/SpanGenerator.java:63). The model keeps index 0.
- In Kotlin, a creating factory's delegate plugins are not searched for a view plugin; only the wrapper's own list is. The model keeps this.

## Findings

| source | as written | input that shows it | evidently intended | confidence | as-written member | corrected member |
|---|---|---|---|---|---|---|
| library/src/main/java/se/ingenuity/markdownview/SpanFactory.kt:21-22 | when the style names a text appearance other than the theme's, the first span is built from `style` again | a style whose `android:textAppearance` is a different appearance | build that span from `textAppearance`, as both `SpanGenerator`s do | not executed | `SpanFactoryKt.SpanFactory.CreateSpansForStyle`, `SpanFactoryKt.AsWrittenDropsTextAppearance` | `SpanFactoryKt.SpanFactory.CreateSpansForStyleCorrected` |
| library/src/main/java/se/ingenuity/markdownview/util/MarkdownViewPlugin.java:152-157 | the heading post-style factory is installed with `setFactory`, which replaces the main-style factory | an H1 main style and an H2 post-style (`HeadingPostStyleReplacesMainStyle`): an H1 heading loses its style | `prependFactory`, as for every other post-style | not executed | `MarkdownViewPluginJava.MarkdownViewPlugin.ConfigureSpansFactoryAsWritten`, `MarkdownViewPluginJava.MarkdownViewPlugin.MaybeApplyHeadingFactoriesAsWritten`, `MarkdownViewPluginJava.HeadingPostStyleReplacesMainStyle`, `MarkdownViewPluginJava.HeadingPostStyleAlwaysReplaces` | `MarkdownViewPluginJava.MarkdownViewPlugin.ConfigureSpansFactory`, `MarkdownViewPluginJava.MarkdownViewPlugin.MaybeApplyHeadingFactories`, `MarkdownViewPluginJava.HeadingCallsSetMainStyleOnly` |
| library/src/main/java/se/ingenuity/markdownview/MarkdownHelper.kt:140-152 | after a render, `ensureDynamicBuilder` puts the renderer's plugins in the delegate, and `removePlugins` only filters the wrapper's own list | load, add plugin P and render, then `removeMarkwonPlugins(true, P)`: P is still in the renderer | put the renderer's plugins in the wrapper's list, as `MarkdownHelper.java:150` does, so that removal reaches them | not executed | `MarkdownHelperKt.MarkdownHelper.RemoveMarkwonPlugins`, `MarkdownHelperKt.RemoveAfterRenderKeepsPlugin` | `MarkdownHelperKt.MarkdownHelper.RemoveMarkwonPluginsCorrected`, `MarkdownHelperKt.RemoveAfterRenderCorrected` |
