/**
 * The slice of the Markdown event vocabulary that the link rewriter sees.
 * Events arrive in document order from an external Markdown parser; the
 * rewriter only inspects link start and link end events.
 */
module Markdown {

  /** How a link was written, as classified by the parser. */
  datatype LinkType =
    | Inline            // [text](url)
    | Reference         // [text][label]
    | ReferenceUnknown  // [text][label] resolved by the parser's broken-link callback
    | Collapsed         // [label][]
    | CollapsedUnknown  // [label][] resolved by the parser's broken-link callback
    | Shortcut          // [label]
    | ShortcutUnknown   // [label] resolved by the parser's broken-link callback
    | Autolink          // <http://example.com>
    | Email             // <user@example.com>

  /**
   * A container tag. `Link` and `Image` carry the same data; every other
   * container (paragraph, heading, emphasis, list, table, ...) is opaque
   * and identified only by a name.
   */
  datatype Tag =
    | Link(kind: LinkType, url: string, title: string)
    | Image(kind: LinkType, url: string, title: string)
    | Container(name: string)

  /**
   * A parse event. `Html` is raw markup that the serializer emits verbatim;
   * `Other` stands for every leaf event (text, code, breaks, rules, ...).
   */
  datatype Event =
    | Start(tag: Tag)
    | End(tag: Tag)
    | Html(html: string)
    | Other(payload: string)

  /** The events the rewriter classifies: the start or end of a link. */
  predicate IsLinkEvent(e: Event) {
    (e.Start? || e.End?) && e.tag.Link?
  }
}
