/**
 * The link rewriter: the per-event mapping applied to the parser's event
 * stream, the substitution table it implements, and its lift to a whole
 * stream.
 */
module Exl {
  import opened Wrappers
  import opened Anchors
  import opened Markdown

  /** Link kinds whose destination was resolved from inline or reference syntax. */
  predicate IsResolved(kind: LinkType) {
    kind.Shortcut? || kind.Inline? || kind.Reference? || kind.Collapsed?
  }

  /** Link kinds whose reference target could not be found. */
  predicate IsUnknown(kind: LinkType) {
    kind.ReferenceUnknown? || kind.CollapsedUnknown? || kind.ShortcutUnknown?
  }

  /** The cheap external-destination test: the destination begins with the four letters `http`. */
  predicate IsExternal(url: string) {
    StartsWith(url, HttpPrefix)
  }

  /**
   * The substitution table, stated per link rather than per event: the
   * opening fragment that replaces the link's start, or None when both the
   * start and the end are kept. A replaced end always becomes CloseTag.
   */
  function OpenFor(kind: LinkType, url: string, title: string): Option<string> {
    if kind.Email? then Some(MailtoOpen(url))
    else if kind.Autolink? then Some(AutolinkOpen(url))
    else if IsResolved(kind) && IsExternal(url) then Some(ExternalOpen(url, title))
    else None
  }

  /** The link tag `t` is replaced by raw HTML. */
  predicate Rewrites(t: Tag) {
    t.Link? && OpenFor(t.kind, t.url, t.title).Some?
  }

  /** What the mapping first decides about an event: a link start, a link end, or anything else. */
  datatype Role = Opening | Closing | Passing

  function RoleOf(e: Event): Role {
    match e
    case Start(Link(_, _, _)) => Opening
    case End(Link(_, _, _)) => Closing
    case _ => Passing
  }

  /**
   * The mapping applied to each event. It follows the substitution table:
   * a start of a rewritten link becomes its opening fragment, the end of a
   * rewritten link becomes `</a>`, and every other event is kept.
   */
  function RewriteEvent(e: Event): (r: Event)
    ensures !IsLinkEvent(e) ==> r == e
    ensures IsLinkEvent(e) && e.Start? ==>
      r == (match OpenFor(e.tag.kind, e.tag.url, e.tag.title)
            case Some(open) => Html(open)
            case None => e)
    ensures IsLinkEvent(e) && e.End? ==>
      r == (if Rewrites(e.tag) then Html(CloseTag) else e)
  {
    var ev := RoleOf(e);
    if ev == Passing then e
    else
      var lt, url, title := e.tag.kind, e.tag.url, e.tag.title;
      match lt
      case Shortcut | Inline | Reference | Collapsed =>
        if StartsWith(url, HttpPrefix) then
          if ev == Closing then Html(CloseTag) else Html(ExternalOpen(url, title))
        else e
      case Email =>
        if ev == Closing then Html(CloseTag) else Html(MailtoOpen(url))
      case Autolink =>
        if ev == Closing then Html(CloseTag) else Html(AutolinkOpen(url))
      case ReferenceUnknown => e
      case CollapsedUnknown => e
      case ShortcutUnknown => e
  }

  /** The mapping lifted over a whole event stream, in order. */
  function RewriteAll(es: seq<Event>): (out: seq<Event>)
    ensures |out| == |es|
    ensures forall i :: 0 <= i < |es| ==> out[i] == RewriteEvent(es[i])
  {
    if |es| == 0 then [] else [RewriteEvent(es[0])] + RewriteAll(es[1..])
  }

  /** Resolved links to an `http` destination become an anchor with a title and target="_blank"; other resolved links are kept. */
  lemma ResolvedLinkRewrite(kind: LinkType, url: string, title: string)
    requires IsResolved(kind)
    ensures IsExternal(url) ==>
      && RewriteEvent(Start(Link(kind, url, title))) == Html(ExternalOpen(url, title))
      && RewriteEvent(End(Link(kind, url, title))) == Html(CloseTag)
    ensures !IsExternal(url) ==>
      && RewriteEvent(Start(Link(kind, url, title))) == Start(Link(kind, url, title))
      && RewriteEvent(End(Link(kind, url, title))) == End(Link(kind, url, title))
  {
  }

  /** Email links are always rewritten to a mailto: anchor, whatever the destination. */
  lemma EmailLinkRewrite(url: string, title: string)
    ensures RewriteEvent(Start(Link(Email, url, title))) == Html(MailtoOpen(url))
    ensures RewriteEvent(End(Link(Email, url, title))) == Html(CloseTag)
  {
  }

  /** Autolinks are always rewritten to an anchor with target="_blank", whatever the destination. */
  lemma AutolinkRewrite(url: string, title: string)
    ensures RewriteEvent(Start(Link(Autolink, url, title))) == Html(AutolinkOpen(url))
    ensures RewriteEvent(End(Link(Autolink, url, title))) == Html(CloseTag)
  {
  }

  /** Links with an unresolved reference are kept, whatever the destination. */
  lemma UnknownLinkKept(kind: LinkType, url: string, title: string)
    requires IsUnknown(kind)
    ensures RewriteEvent(Start(Link(kind, url, title))) == Start(Link(kind, url, title))
    ensures RewriteEvent(End(Link(kind, url, title))) == End(Link(kind, url, title))
  {
  }

  /** The prefix test is textual: a malformed `httpfoo:` scheme counts as external, an upper-case `HTTP:` does not. */
  lemma PrefixTestIsTextual()
    ensures RewriteEvent(Start(Link(Inline, "httpfoo:x", ""))).Html?
    ensures RewriteEvent(Start(Link(Inline, "HTTP://x", ""))) == Start(Link(Inline, "HTTP://x", ""))
  {
    assert StartsWith("httpfoo:x", HttpPrefix);
    assert "HTTP://x"[..4][0] == 'H';
  }

  /**
   * The start and the end of the same link are rewritten together or not at
   * all, the rewritten start is raw HTML, and a rewritten end is `</a>`.
   */
  lemma PairingConsistency(t: Tag)
    requires t.Link?
    ensures RewriteEvent(Start(t)) != Start(t) <==> Rewrites(t)
    ensures RewriteEvent(End(t)) != End(t) <==> Rewrites(t)
    ensures Rewrites(t) ==> RewriteEvent(Start(t)).Html? && RewriteEvent(End(t)) == Html(CloseTag)
  {
  }

  /**
   * The attributes of a rewritten opening tag as ParseOpen reads them, for a
   * destination free of double quotes (and a title free of them where the
   * tag carries one): an email link gets a mailto: href and no target; every
   * other rewritten link keeps its destination as href and opens in a new
   * browsing context; only the resolved kinds carry a title.
   */
  lemma RewrittenAnchorMeaning(kind: LinkType, url: string, title: string)
    requires Unquoted(url)
    requires IsResolved(kind) ==> Unquoted(title)
    requires RewriteEvent(Start(Link(kind, url, title))).Html?
    ensures ParseOpen(RewriteEvent(Start(Link(kind, url, title))).html) ==
      Some(Anchor(
        if kind.Email? then MailtoScheme + url else url,
        if IsResolved(kind) then Some(title) else None,
        !kind.Email?))
  {
    if kind.Email? {
      ParseMailtoOpen(url);
    } else if kind.Autolink? {
      ParseAutolinkOpen(url);
    } else {
      ParseExternalOpen(url, title);
    }
  }

  /** Every event the mapping produces is a fixed point of it. */
  lemma RewriteEventIdempotent(e: Event)
    ensures RewriteEvent(RewriteEvent(e)) == RewriteEvent(e)
  {
  }

  /** Rewriting an already rewritten stream changes nothing. */
  lemma {:induction false} RewriteAllIdempotent(es: seq<Event>)
    ensures RewriteAll(RewriteAll(es)) == RewriteAll(es)
  {
    var once := RewriteAll(es);
    forall i | 0 <= i < |es|
      ensures RewriteAll(once)[i] == once[i]
    {
      RewriteEventIdempotent(es[i]);
    }
  }

  /** A stream with no link start or end is returned as it is. */
  lemma LinkFreeStreamKept(es: seq<Event>)
    requires forall i :: 0 <= i < |es| ==> !IsLinkEvent(es[i])
    ensures RewriteAll(es) == es
  {
  }
}
