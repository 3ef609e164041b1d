/**
 * The parts of the Markwon renderer that the library talks to, as plain values
 * and call logs. What Markwon does with a plugin list, a theme setting or a span
 * factory is Markwon's business and is not modelled: the builders below only
 * record, in order, the calls the library makes on them.
 */
module Markwon {
  import opened Wrappers

  /** A `MarkwonPlugin` instance. Two values are equal when they are the same instance. */
  datatype Plugin =
    | CorePlugin
    | MarkdownViewPlugin(id: nat)
    | OtherPlugin(id: nat)

  /** A built `Markwon`: the plugins it was built with (`getPlugins()`). */
  datatype Markwon = Markwon(plugins: seq<Plugin>)

  /** One `markwon.setMarkdown(textView, markdown)` call: what was rendered with what. */
  datatype Render = Render(markwon: Markwon, markdown: string)

  /** The commonmark node classes the library installs span factories for. */
  datatype NodeKind =
    | HeadingNode
    | EmphasisNode
    | StrongEmphasisNode
    | BlockQuoteNode
    | CodeNode
    | FencedCodeBlockNode
    | IndentedCodeBlockNode
    | ListItemNode
    | ParagraphNode
    | LinkNode

  /** `CoreProps.ListItemType`. */
  datatype ListItemType = Ordered | Bullet

  /** A span factory registered by some other plugin before this library's plugin runs. */
  datatype FactoryToken = FactoryToken(id: int)

  /** What a span factory's `getSpans` returns. */
  datatype SpanResult =
    /** the spans that the span generator creates for this style resource */
    | Generated(style: int)
    /** whatever the original factory's `getSpans` returns */
    | Delegated(original: FactoryToken)
    /** `null` */
    | NoSpans

  /** One call on a `MarkwonSpansFactory.Builder`. */
  datatype FactoryCall<F> =
    | Append(node: NodeKind, factory: F)
    | Set(node: NodeKind, factory: F)
    | Prepend(node: NodeKind, factory: F)

  /** The factory registered for `node` in `existing`, or `null`. */
  function Lookup(existing: map<NodeKind, FactoryToken>, node: NodeKind): (r: Option<FactoryToken>)
    ensures r.Some? <==> node in existing
    ensures r.Some? ==> r.value == existing[node]
  {
    if node in existing then Some(existing[node]) else None
  }

  /**
   * A `MarkwonSpansFactory.Builder`. `existing` is the factory table as it was
   * when the library's plugin was asked to configure it; `calls` is what the
   * plugin has done to it since.
   */
  class SpansFactoryBuilder<F> {
    const existing: map<NodeKind, FactoryToken>
    var calls: seq<FactoryCall<F>>

    constructor (existing: map<NodeKind, FactoryToken>)
      ensures this.existing == existing && calls == []
    {
      this.existing := existing;
      calls := [];
    }

    /**
     * `getFactory(node)`. It reads the table as it was before the plugin ran,
     * which is what the source sees as long as it has issued no call for `node`.
     */
    function GetFactory(node: NodeKind): Option<FactoryToken>
      reads this
    {
      Lookup(existing, node)
    }

    method AppendFactory(node: NodeKind, factory: F)
      modifies this
      ensures calls == old(calls) + [Append(node, factory)]
    {
      calls := calls + [Append(node, factory)];
    }

    method SetFactory(node: NodeKind, factory: F)
      modifies this
      ensures calls == old(calls) + [Set(node, factory)]
    {
      calls := calls + [Set(node, factory)];
    }

    method PrependFactory(node: NodeKind, factory: F)
      modifies this
      ensures calls == old(calls) + [Prepend(node, factory)]
    {
      calls := calls + [Prepend(node, factory)];
    }
  }

  /** One setter call on a `MarkwonTheme.Builder`. */
  datatype ThemeCall =
    | ListItemColorCall(color: int)
    | CodeBlockBackgroundColorCall(color: int)
    | CodeBlockTextColorCall(color: int)
    | CodeBlockMarginCall(dimension: int)
    | ThematicBreakColorCall(color: int)
    | ThematicBreakHeightCall(dimension: int)
    | LinkUnderlinedCall(underlined: bool)

  /** A `MarkwonTheme.Builder`, as the log of setter calls made on it. */
  class ThemeBuilder {
    var calls: seq<ThemeCall>

    constructor ()
      ensures calls == []
    {
      calls := [];
    }

    method Apply(call: ThemeCall)
      modifies this
      ensures calls == old(calls) + [call]
    {
      calls := calls + [call];
    }
  }

  /** One call on a `MarkwonVisitor.Builder`. */
  datatype VisitorCall =
    /** `on(SoftLineBreak.class, (visitor, node) -> visitor.forceNewLine())` */
    | SoftLineBreakForcesNewLine

  /** A `MarkwonVisitor.Builder`, as the log of calls made on it. */
  class VisitorBuilder {
    var calls: seq<VisitorCall>

    constructor ()
      ensures calls == []
    {
      calls := [];
    }

    method On(call: VisitorCall)
      modifies this
      ensures calls == old(calls) + [call]
    {
      calls := calls + [call];
    }
  }

  /** The `TextView` the library renders into, as the log of renderings it was given. */
  class TextView {
    var renders: seq<Render>

    constructor ()
      ensures renders == []
    {
      renders := [];
    }
  }

  /** `markwon.setMarkdown(textView, markdown)`. */
  method SetMarkdownInto(markwon: Markwon, textView: TextView, markdown: string)
    modifies textView
    ensures textView.renders == old(textView.renders) + [Render(markwon, markdown)]
  {
    textView.renders := textView.renders + [Render(markwon, markdown)];
  }
}
