/**
 * One chapter's rewrite: parse the text into events, map every event, and
 * serialize the mapped events back to Markdown. The parser and the
 * serializer are external and are given here as functions; nothing is
 * assumed about them.
 */
module Chapter {
  import opened Wrappers
  import opened Markdown
  import opened Exl

  /** Prefix of the error returned when serialization fails. */
  const SerializationFailed: string := "Markdown serialization failed: "

  /**
   * The chapter text after rewriting, or the serializer's error behind a
   * fixed prefix. The serializer writes into an initially empty buffer, so
   * on success the result is exactly its output.
   */
  function ReplaceAnchors(
    content: string,
    parse: string -> seq<Event>,
    serialize: seq<Event> -> Result<string, string>
  ): (r: Result<string, string>)
    ensures r.Success? <==> serialize(RewriteAll(parse(content))).Success?
    ensures r.Success? ==> r.value == serialize(RewriteAll(parse(content))).value
    ensures r.Failure? ==>
      && |r.error| >= |SerializationFailed|
      && r.error[..|SerializationFailed|] == SerializationFailed
      && r.error[|SerializationFailed|..] == serialize(RewriteAll(parse(content))).error
  {
    var buf := serialize(RewriteAll(parse(content)));
    match buf
    case Success(text) => Success(text)
    case Failure(err) => Failure(SerializationFailed + err)
  }

  /** A chapter whose events contain no link is serialized from exactly the parsed events. */
  lemma LinkFreeChapter(
    content: string,
    parse: string -> seq<Event>,
    serialize: seq<Event> -> Result<string, string>
  )
    requires forall i :: 0 <= i < |parse(content)| ==> !IsLinkEvent(parse(content)[i])
    ensures serialize(parse(content)).Success? ==>
      ReplaceAnchors(content, parse, serialize) == serialize(parse(content))
    ensures serialize(parse(content)).Failure? ==>
      ReplaceAnchors(content, parse, serialize) == Failure(SerializationFailed + serialize(parse(content)).error)
  {
    LinkFreeStreamKept(parse(content));
  }
}
