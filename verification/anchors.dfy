/**
 * The raw-HTML fragments the rewriter emits, built by plain concatenation
 * with no escaping of the destination or the title, and a small reader that
 * recovers the raw attribute text from an opening tag. The reader is the
 * partner of the builders: it shows which attributes each emitted tag carries
 * as ParseOpen reads them (it does not decode character references), and its
 * limits show what the missing escaping costs.
 */
module Anchors {
  import opened Wrappers

  /** The destination prefix that marks a link as external. */
  const HttpPrefix: string := "http"

  /** The closing fragment emitted for every rewritten link end. */
  const CloseTag: string := "</a>"

  const HrefLead: string := "<a href=\""
  const MailtoScheme: string := "mailto:"
  const TitleLead: string := " title=\""
  const BlankTail: string := " target=\"_blank\">"
  const PlainTail: string := ">"

  predicate StartsWith(s: string, prefix: string) {
    |prefix| <= |s| && s[..|prefix|] == prefix
  }

  /** No double-quote character occurs in `s`. */
  predicate Unquoted(s: string) {
    forall i :: 0 <= i < |s| ==> s[i] != '"'
  }

  /** `<a href="{url}" title="{title}" target="_blank">` */
  function ExternalOpen(url: string, title: string): string {
    HrefLead + url + "\"" + TitleLead + title + "\"" + BlankTail
  }

  /** `<a href="mailto:{url}">` */
  function MailtoOpen(url: string): string {
    HrefLead + MailtoScheme + url + "\"" + PlainTail
  }

  /** `<a href="{url}" target="_blank">` */
  function AutolinkOpen(url: string): string {
    HrefLead + url + "\"" + BlankTail
  }

  /** What an opening anchor tag says: its href, its title attribute if any, and whether it opens a new browsing context. */
  datatype Anchor = Anchor(href: string, title: Option<string>, newContext: bool)

  /** Splits `s` at its first double quote, or None when there is none. */
  function SplitAtQuote(s: string): (r: Option<(string, string)>)
    ensures r.None? <==> Unquoted(s)
    ensures r.Some? ==> Unquoted(r.value.0) && s == r.value.0 + "\"" + r.value.1
  {
    if |s| == 0 then None
    else if s[0] == '"' then Some(([], s[1..]))
    else match SplitAtQuote(s[1..])
      case None => None
      case Some((before, after)) => Some(([s[0]] + before, after))
  }

  /**
   * Reads an opening anchor tag of one of the three shapes the rewriter emits:
   * an attribute value ends at the first double quote after it starts.
   */
  function ParseOpen(s: string): Option<Anchor> {
    if !StartsWith(s, HrefLead) then None
    else match SplitAtQuote(s[|HrefLead|..])
      case None => None
      case Some((href, rest)) => ParseAfterHref(href, rest)
  }

  /** Reads what follows the closing quote of the href value. */
  function ParseAfterHref(href: string, rest: string): Option<Anchor> {
    if rest == PlainTail then Some(Anchor(href, None, false))
    else if rest == BlankTail then Some(Anchor(href, None, true))
    else if StartsWith(rest, TitleLead) then
      match SplitAtQuote(rest[|TitleLead|..])
      case None => None
      case Some((title, tail)) =>
        if tail == BlankTail then Some(Anchor(href, Some(title), true)) else None
    else None
  }

  /** A quote-free prefix followed by a quote is exactly what SplitAtQuote finds. */
  lemma {:induction false} SplitAtQuoteOf(a: string, b: string)
    requires Unquoted(a)
    ensures SplitAtQuote(a + "\"" + b) == Some((a, b))
  {
    var s := a + "\"" + b;
    if |a| == 0 {
      assert s == "\"" + b;
    } else {
      SplitAtQuoteOf(a[1..], b);
      assert s[1..] == a[1..] + "\"" + b;
      assert [a[0]] + a[1..] == a;
    }
  }

  /** Every tag that starts with the href lead and a quote-free href is read by its remainder. */
  lemma ParseOpenOf(href: string, rest: string)
    requires Unquoted(href)
    ensures ParseOpen(HrefLead + href + "\"" + rest) == ParseAfterHref(href, rest)
  {
    var s := HrefLead + href + "\"" + rest;
    assert s == HrefLead + (href + "\"" + rest);
    assert s[..|HrefLead|] == HrefLead;
    assert s[|HrefLead|..] == href + "\"" + rest;
    SplitAtQuoteOf(href, rest);
  }

  /** A quote-free title attribute followed by the target attribute reads back as a titled anchor. */
  lemma ParseTitledTail(href: string, title: string)
    requires Unquoted(title)
    ensures ParseAfterHref(href, TitleLead + title + "\"" + BlankTail) == Some(Anchor(href, Some(title), true))
  {
    var rest := TitleLead + (title + "\"" + BlankTail);
    assert rest == TitleLead + title + "\"" + BlankTail;
    assert rest[1] == 't';
    assert rest[..|TitleLead|] == TitleLead;
    assert rest[|TitleLead|..] == title + "\"" + BlankTail;
    SplitAtQuoteOf(title, BlankTail);
  }

  /** With a quote-free destination and title, the external anchor reads back as href, title and new context. */
  lemma ParseExternalOpen(url: string, title: string)
    requires Unquoted(url) && Unquoted(title)
    ensures ParseOpen(ExternalOpen(url, title)) == Some(Anchor(url, Some(title), true))
  {
    var rest := TitleLead + title + "\"" + BlankTail;
    assert ExternalOpen(url, title) == HrefLead + url + "\"" + rest;
    ParseOpenOf(url, rest);
    ParseTitledTail(url, title);
  }

  /** With a quote-free address, the mail anchor reads back as a mailto: href with no title and no new context. */
  lemma ParseMailtoOpen(url: string)
    requires Unquoted(url)
    ensures ParseOpen(MailtoOpen(url)) == Some(Anchor(MailtoScheme + url, None, false))
  {
    var href := MailtoScheme + url;
    assert Unquoted(href) by {
      forall i | 0 <= i < |href| ensures href[i] != '"' {
        if i >= |MailtoScheme| { assert href[i] == url[i - |MailtoScheme|]; }
      }
    }
    assert MailtoOpen(url) == HrefLead + href + "\"" + PlainTail;
    ParseOpenOf(href, PlainTail);
  }

  /** With a quote-free destination, the autolink anchor reads back as the plain href opening a new context, with no title. */
  lemma ParseAutolinkOpen(url: string)
    requires Unquoted(url)
    ensures ParseOpen(AutolinkOpen(url)) == Some(Anchor(url, None, true))
  {
    ParseOpenOf(url, BlankTail);
  }

  /** The external fragment spelled out; an empty title still yields `title=""`. */
  lemma ExternalOpenLiteral()
    ensures ExternalOpen("http", "") == "<a href=\"http\" title=\"\" target=\"_blank\">"
  {
  }

  /** The mail and autolink fragments spelled out. */
  lemma OtherOpenLiterals()
    ensures MailtoOpen("u@e") == "<a href=\"mailto:u@e\">"
    ensures AutolinkOpen("http://e") == "<a href=\"http://e\" target=\"_blank\">"
  {
  }

  /** Because nothing is escaped, two different destination/title pairs can give the same external anchor. */
  lemma ExternalOpenNotInjective()
    ensures ExternalOpen("http://a", "x\" title=\"y") == ExternalOpen("http://a\" title=\"x", "y")
  {
  }

  /**
   * A property of the builder, not of output the program produces: since it
   * escapes nothing, an address holding a quote would give an email anchor
   * with a target attribute, equal to an autolink anchor. The parser never
   * yields such an Email link, because an email autolink admits no quote.
   */
  lemma MailtoOpenCanOpenNewContext()
    ensures MailtoOpen("u\" target=\"_blank") == AutolinkOpen("mailto:u")
  {
  }
}
