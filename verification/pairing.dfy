/**
 * Stream-level pairing: in a stream where every link start is closed by a
 * matching end (as the parser guarantees), the mapping replaces as many
 * link starts as link ends, so each emitted opening anchor has its `</a>`.
 */
module LinkPairing {
  import opened Markdown
  import opened Exl

  /**
   * The events are well nested with respect to links, given the link tags
   * still open before them (innermost last). Non-link containers are not
   * tracked.
   */
  predicate Nested(es: seq<Event>, open: seq<Tag>) {
    if |es| == 0 then |open| == 0
    else match es[0]
      case Start(t) =>
        if t.Link? then Nested(es[1..], open + [t]) else Nested(es[1..], open)
      case End(t) =>
        if t.Link? then |open| > 0 && open[|open| - 1] == t && Nested(es[1..], open[..|open| - 1])
        else Nested(es[1..], open)
      case _ => Nested(es[1..], open)
  }

  /** Every link start is closed, innermost first, by an end with the same kind, destination and title. */
  predicate WellNested(es: seq<Event>) {
    Nested(es, [])
  }

  /** 1 when the mapping replaces `e` and `e` is a start event, else 0. */
  function StartWeight(e: Event): nat {
    if e.Start? && RewriteEvent(e) != e then 1 else 0
  }

  /** 1 when the mapping replaces `e` and `e` is an end event, else 0. */
  function EndWeight(e: Event): nat {
    if e.End? && RewriteEvent(e) != e then 1 else 0
  }

  /** Number of start events the mapping replaces. */
  function ReplacedStarts(es: seq<Event>): nat {
    if |es| == 0 then 0 else StartWeight(es[0]) + ReplacedStarts(es[1..])
  }

  /** Number of end events the mapping replaces. */
  function ReplacedEnds(es: seq<Event>): nat {
    if |es| == 0 then 0 else EndWeight(es[0]) + ReplacedEnds(es[1..])
  }

  /** Only link starts and ends can be replaced, and both are exactly when their link is rewritten. */
  lemma Weights(e: Event)
    ensures StartWeight(e) == (if e.Start? && e.tag.Link? && Rewrites(e.tag) then 1 else 0)
    ensures EndWeight(e) == (if e.End? && e.tag.Link? && Rewrites(e.tag) then 1 else 0)
  {
  }

  /** Number of still-open link tags the mapping rewrites. */
  function PendingRewrites(open: seq<Tag>): nat {
    if |open| == 0 then 0
    else PendingRewrites(open[..|open| - 1]) + (if Rewrites(open[|open| - 1]) then 1 else 0)
  }

  /** Each replaced end either closes a rewritten link still open or one opened later in the stream. */
  lemma {:induction false} NestedBalance(es: seq<Event>, open: seq<Tag>)
    requires Nested(es, open)
    ensures ReplacedStarts(es) + PendingRewrites(open) == ReplacedEnds(es)
  {
    if |es| > 0 {
      var rest := es[1..];
      match es[0]
      case Start(t) =>
        if t.Link? {
          NestedBalance(rest, open + [t]);
          assert (open + [t])[..|open|] == open;
          Weights(es[0]);
        } else {
          NestedBalance(rest, open);
        }
      case End(t) =>
        if t.Link? {
          NestedBalance(rest, open[..|open| - 1]);
          Weights(es[0]);
        } else {
          NestedBalance(rest, open);
        }
      case Html(_) =>
        NestedBalance(rest, open);
      case Other(_) =>
        NestedBalance(rest, open);
    }
  }

  /** The counts on a non-empty prefix split into its first event and the rest. */
  lemma PrefixStep(es: seq<Event>, k: nat)
    requires 0 < k <= |es|
    ensures ReplacedStarts(es[..k]) == StartWeight(es[0]) + ReplacedStarts(es[1..][..k - 1])
    ensures ReplacedEnds(es[..k]) == EndWeight(es[0]) + ReplacedEnds(es[1..][..k - 1])
  {
    assert es[..k][0] == es[0];
    assert es[..k][1..] == es[1..][..k - 1];
  }

  /** No prefix of the stream replaces more link ends than link starts, counting the rewritten links already open. */
  lemma {:induction false} PrefixBalance(es: seq<Event>, open: seq<Tag>, k: nat)
    requires Nested(es, open)
    requires k <= |es|
    ensures ReplacedEnds(es[..k]) <= ReplacedStarts(es[..k]) + PendingRewrites(open)
  {
    if k > 0 {
      var rest := es[1..];
      PrefixStep(es, k);
      match es[0]
      case Start(t) =>
        if t.Link? {
          PrefixBalance(rest, open + [t], k - 1);
          assert (open + [t])[..|open|] == open;
          Weights(es[0]);
        } else {
          PrefixBalance(rest, open, k - 1);
        }
      case End(t) =>
        if t.Link? {
          PrefixBalance(rest, open[..|open| - 1], k - 1);
          Weights(es[0]);
        } else {
          PrefixBalance(rest, open, k - 1);
        }
      case Html(_) =>
        PrefixBalance(rest, open, k - 1);
      case Other(_) =>
        PrefixBalance(rest, open, k - 1);
    }
  }

  /**
   * In a well-nested stream the emitted anchors are balanced: no prefix has
   * more `</a>` replacements than opening-anchor replacements, and the whole
   * stream has as many of each.
   */
  lemma WellNestedBalance(es: seq<Event>)
    requires WellNested(es)
    ensures forall k :: 0 <= k <= |es| ==> ReplacedEnds(es[..k]) <= ReplacedStarts(es[..k])
    ensures ReplacedStarts(es) == ReplacedEnds(es)
  {
    NestedBalance(es, []);
    forall k | 0 <= k <= |es|
      ensures ReplacedEnds(es[..k]) <= ReplacedStarts(es[..k])
    {
      PrefixBalance(es, [], k);
    }
  }
}
