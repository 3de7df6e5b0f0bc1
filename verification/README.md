# mdbook-external-links link rewriter, in Dafny

This project models the core of the `external-links-preprocessor` mdbook
preprocessor. For each chapter, the preprocessor turns the Markdown text into
a stream of parser events. It maps every event, then serializes the stream
back to Markdown. The mapping leaves every event alone except the start and
end of a link. Those are classified by link kind and by whether the
destination begins with `http`. A matching event is either kept, or replaced
by a raw-HTML event holding an anchor tag. The anchor tags are:

- `<a href="{url}" title="{title}" target="_blank">` for resolved links.
- `<a href="mailto:{url}">` for email links.
- `<a href="{url}" target="_blank">` for autolinks.
- `</a>` for the end of any rewritten link.

Modules:

- `Markdown` (markdown.dfy): link kinds, tags, events.
- `Anchors` (anchors.dfy): the anchor fragments `ExternalOpen`, `MailtoOpen` and `AutolinkOpen`, built by plain concatenation with no escaping. It also has `ParseOpen`, a small reader that recovers the raw href, title and target text from an opening tag. The reader is the partner used to state which attributes each fragment carries. It does not decode character references.
- `Exl` (rewrite.dfy): the substitution table `OpenFor` and the per-event mapping `RewriteEvent`, which follows the source's control flow. It also has `RewriteAll`, the mapping lifted over a stream, and the lemmas about the policy.
- `LinkPairing` (pairing.dfy): over a well-nested stream, no prefix replaces more link ends than link starts, and the whole stream replaces as many of each. So the emitted anchors are balanced.
- `Chapter` (chapter.dfy): `ReplaceAnchors`, which takes the external parser and serializer as function parameters and propagates the serializer's error.
- `Wrappers` (wrappers.dfy): `Option` and `Result`.

## Model

| member | source | states |
|---|---|---|
| Exl.RewriteEvent | src/main.rs:86-138 | Non-link events are returned unchanged. A link start becomes the table's opening fragment, or is kept when the table has none. A link end becomes `</a>` exactly when its link is rewritten, and is kept otherwise. |
| Exl.RewriteAll | src/main.rs:86-138 | The stream mapping is element-wise. The output has the input's length, and each position holds the mapped input event. |
| Exl.ResolvedLinkRewrite | src/main.rs:101-117 | Shortcut, Inline, Reference and Collapsed links whose destination starts with `http` become the titled `target="_blank"` anchor and `</a>`. Otherwise both the start and the end are kept. |
| Exl.EmailLinkRewrite | src/main.rs:118-124 | Email links always become `<a href="mailto:{url}">` and `</a>`, whatever the destination. |
| Exl.AutolinkRewrite | src/main.rs:125-133 | Autolinks always become `<a href="{url}" target="_blank">` and `</a>`, whatever the destination. |
| Exl.UnknownLinkKept | src/main.rs:134-136 | ReferenceUnknown, CollapsedUnknown and ShortcutUnknown link starts and ends are returned unchanged. |
| Exl.PrefixTestIsTextual | src/main.rs:106 | The external test is a case-sensitive text prefix. A malformed `httpfoo:` destination is rewritten, and an upper-case `HTTP://` one is not. |
| Exl.PairingConsistency | src/main.rs:101-137 | A link's start is replaced exactly when its end is. The replaced start is raw HTML, and the replaced end is `</a>`. |
| Exl.RewrittenAnchorMeaning | src/main.rs:108-131 | As `ParseOpen` reads it, a rewritten opening tag has these attributes, provided the destination holds no quote (and the title too, for the resolved kinds that emit it). Email gives a `mailto:` href with no target. Autolink gives the plain href with target and no title. Resolved kinds give href, title and target. |
| Exl.RewriteEventIdempotent | src/main.rs:87-94 | Every output event is a fixed point of the mapping, because substituted events are raw HTML, which passes through. |
| Exl.RewriteAllIdempotent | src/main.rs:86-138 | Rewriting an already rewritten stream leaves it unchanged. |
| Exl.LinkFreeStreamKept | src/main.rs:86-94 | A stream with no link start or end is returned as it is. |
| LinkPairing.NestedBalance | src/main.rs:101-137 | Take a stream nested relative to a set of still-open links. Its replaced starts plus the rewritten open links equal its replaced ends. |
| LinkPairing.PrefixBalance | src/main.rs:101-137 | Take a stream nested relative to a set of still-open links. No prefix of it replaces more ends than its replaced starts plus the rewritten open links. |
| LinkPairing.WellNestedBalance | src/main.rs:101-137 | In a well-nested stream the emitted anchors are balanced. No prefix has more `</a>` replacements than opening-anchor replacements, and the whole stream has as many of each. |
| Anchors.ParseExternalOpen | src/main.rs:110-112 | As `ParseOpen` reads it, the resolved-link fragment reads back as href = destination, title = title, target present, when neither holds a quote. |
| Anchors.ParseMailtoOpen | src/main.rs:122 | As `ParseOpen` reads it, the email fragment reads back as href = `mailto:` + address, with no title and no target, when the address holds no quote. |
| Anchors.ParseAutolinkOpen | src/main.rs:129-131 | As `ParseOpen` reads it, the autolink fragment reads back as href = destination, target present and no title, when the destination holds no quote. |
| Anchors.ExternalOpenLiteral | src/main.rs:110-112 | The resolved-link fragment built by `ExternalOpen` is spelled exactly as in the source. An empty title still produces `title=""`. |
| Anchors.OtherOpenLiterals | src/main.rs:122-131 | The mailto and autolink fragments built by `MailtoOpen` and `AutolinkOpen` are spelled exactly as in the source. |
| Anchors.ExternalOpenNotInjective | src/main.rs:110-112 | Destination and title are not escaped. So two different destination/title pairs can produce the same tag. |
| Anchors.MailtoOpenCanOpenNewContext | src/main.rs:122 | This is a property of the builder `MailtoOpen`, not of output the program produces. It escapes nothing, so an address holding a quote would give an email anchor with `target="_blank"`, equal to an autolink anchor. The parser never yields an Email link whose address holds a quote. |
| Chapter.ReplaceAnchors | src/main.rs:140-142 | A chapter's rewrite succeeds exactly when serializing the mapped events succeeds, and the result is the serializer's text. On failure, the error is the serializer's error behind `Markdown serialization failed: `. |
| Chapter.LinkFreeChapter | src/main.rs:86-94 | A chapter with no link events is serialized from exactly its parsed events. |

## Left out

- Markdown parsing (`Parser::new`, src/main.rs:86) and serialization (`cmark`, src/main.rs:140): these are external library calls. They are parameters of `Chapter.ReplaceAnchors`, and no property of them is claimed.
- Lazy iteration: the source maps a lazy iterator. The model maps a finished sequence, which gives the same events in the same order.
- Event vocabulary: tags other than links and images are collapsed into `Container(name)`, and leaf events other than raw HTML into `Other(payload)`. The mapping never looks inside either.
- Command-line handling (`make_app`, `main`, `handle_supports`, src/main.rs:12-32, 56-68): argument parsing and exit codes are I/O.
- `handle_preprocessing` (src/main.rs:34-54): JSON on stdin/stdout and the mdbook version check are I/O.
- `Preprocessor::run` and `name` (src/main.rs:146-161): traversing the host's book tree, and the panic via `expect` when a chapter fails, belong to the host.
- `supports_renderer`: it is the trait's default and is not defined in src/main.rs.
- ParseOpen: no character-reference decoding. It returns the raw attribute text, so a destination holding `&lt;` reads back as `&lt;`, while a browser reads `<`.
- Anchors.ParseExternalOpen: like the other read-back lemmas, it only covers quote-free destinations and titles. Since nothing is escaped, other inputs have no unique reading, as `Anchors.ExternalOpenNotInjective` shows.
- Unknown link kinds: the parser yields `ReferenceUnknown`, `CollapsedUnknown` and `ShortcutUnknown` only for references resolved by a broken-link callback. `Parser::new` (src/main.rs:86) installs none, so the arms at src/main.rs:134-136 are not reached in this program. The model still covers them, as the source's match does.
- Character model: strings are sequences of characters. The source's `starts_with("http")` tests UTF-8 bytes, which for this ASCII prefix gives the same answer.
