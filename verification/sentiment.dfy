/**
 The enrichment clients: reading a sentiment label out of the language
 model's free-text reply, cleaning a generated headline, and the two batch
 wrappers that fan one call out per article.

 The language-model call itself is not modelled: each call is represented by
 its reply, `Ok(text)` for the text the model produced or `Err(message)` for
 whatever went wrong while setting the model up, calling it or reading the
 response. A batch is given the replies by position; a position with no
 reply is a failed call.
 */
module SentimentService {
  import opened Types
  import opened Text

  /** What one language-model call produced. */
  type Reply = Result<string, string>

  /** The title and description an enrichment call is built from. */
  datatype Payload = Payload(title: string, description: string)

  /** The reply to the call at position `i` of a batch; a missing reply is a failure. */
  function ReplyAt(replies: seq<Reply>, i: nat): Reply {
    if i < |replies| then replies[i] else Err("no reply")
  }

  /** The label rule on the model's text: lower-case, trim, then look for the two words, bullish first. */
  function SentimentOf(text: string): Sentiment {
    var t := Trim(Lower(text));
    if Contains(t, "bullish") then Bullish
    else if Contains(t, "bearish") then Bearish
    else Neutral
  }

  /**
   The label depends only on whether the words occur anywhere in the text,
   in any letter case: "bullish" wins over "bearish", and a text with neither
   is neutral. Trimming never hides or reveals an occurrence.
   */
  lemma {:induction false} SentimentRule(text: string)
    ensures SentimentOf(text) == Bullish <==> Contains(Lower(text), "bullish")
    ensures SentimentOf(text) == Bearish <==> !Contains(Lower(text), "bullish") && Contains(Lower(text), "bearish")
    ensures SentimentOf(text) == Neutral <==> !Contains(Lower(text), "bullish") && !Contains(Lower(text), "bearish")
  {
    ContainsStripped(Lower(text), "bullish", IsSpace);
    ContainsStripped(Lower(text), "bearish", IsSpace);
  }

  /** Reading back the name of a label gives that label: the rule is idempotent on its own output. */
  lemma SentimentOfName(s: Sentiment)
    ensures SentimentOf(SentimentName(s)) == s
  {
    var name := SentimentName(s);
    LowerClean(name);
    StripClean(name, IsSpace);
    assert OccursAt(name, name, 0);
    if s != Bullish {
      assert !OccursAt(name, "bullish", 0);
    }
    if s == Neutral {
      assert !OccursAt(name, "bearish", 0);
    }
  }

  /** `analyzeSentiment`: the label of one reply, neutral whenever the call fails. */
  function AnalyzeSentiment(reply: Reply): (s: Sentiment)
    ensures reply.Err? ==> s == Neutral
    ensures reply.Ok? ==> (s == Bullish <==> Contains(Lower(reply.value), "bullish"))
    ensures reply.Ok? ==> (s == Bearish <==> !Contains(Lower(reply.value), "bullish") && Contains(Lower(reply.value), "bearish"))
  {
    match reply
    case Err(_) => Neutral
    case Ok(text) =>
      SentimentRule(text);
      SentimentOf(text)
  }

  /**
   One result per payload, in payload order: the result at position `i` is
   `per` applied to the reply of call `i`. This is the `map` + `Promise.all`
   shape both batch wrappers share.
   */
  function BatchMap<T>(items: seq<Payload>, replies: seq<Reply>, per: Reply -> T): (r: seq<T>)
    ensures |r| == |items|
    ensures forall i :: 0 <= i < |r| ==> r[i] == per(ReplyAt(replies, i))
  {
    if items == [] then []
    else
      var rest := BatchMap(items[1..], if replies == [] then [] else replies[1..], per);
      [per(ReplyAt(replies, 0))] + rest
  }

  /**
   `analyzeSentimentBatch`: exactly one label per payload, in order, each the
   label of its own reply; if the fan-out itself is rejected, every label is
   neutral. The source's per-item calls absorb every failure, so the
   rejection branch cannot actually be taken there; it is modelled all the same.
   */
  function AnalyzeSentimentBatch(items: seq<Payload>, replies: seq<Reply>, fanOutRejected: bool): (r: seq<Sentiment>)
    ensures |r| == |items|
    ensures fanOutRejected ==> forall i :: 0 <= i < |r| ==> r[i] == Neutral
    ensures !fanOutRejected ==> forall i :: 0 <= i < |r| ==> r[i] == AnalyzeSentiment(ReplyAt(replies, i))
    ensures forall i :: 0 <= i < |r| && ReplyAt(replies, i).Err? ==> r[i] == Neutral
  {
    if fanOutRejected then seq(|items|, _ => Neutral)
    else BatchMap(items, replies, AnalyzeSentiment)
  }

  /** The characters trimmed off both ends of a generated headline: quotes, dashes and whitespace. */
  predicate IsHeadlineEdge(c: char) {
    c == '"' || c == '\'' || c == '-' || c == '\U{2013}' || c == '\U{2014}' || IsSpace(c)
  }

  /**
   The headline cleanup: trim, keep the text before the first line feed, then
   remove quotes, dashes and whitespace from both ends. The result is a piece
   of that first line, unchanged inside, with no line feed and clean ends.
   */
  function CleanHeadline(text: string): (h: string)
    ensures '\n' !in h
    ensures CleanEdges(h, IsHeadlineEdge)
    ensures StrippedFrom(h, FirstLine(Trim(text)), IsHeadlineEdge)
  {
    var line := FirstLine(Trim(text));
    var h := Strip(line, IsHeadlineEdge);
    NoNewlineInInfix(h, line);
    h
  }

  lemma NoNewlineInInfix(h: string, line: string)
    requires '\n' !in line && StrippedFrom(h, line, IsHeadlineEdge)
    ensures '\n' !in h
  {
    var i :| StrippedAt(h, line, IsHeadlineEdge, i);
    forall j | 0 <= j < |h|
      ensures h[j] != '\n'
    {
      assert line[i..i + |h|][j] == line[i + j];
    }
  }

  /** A string with no line feed is its own first line. */
  lemma {:induction false} FirstLineOfLine(s: string)
    requires '\n' !in s
    ensures FirstLine(s) == s
  {
    if s != [] {
      assert s[0] in s;
      assert forall c :: c in s[1..] ==> c in s;
      FirstLineOfLine(s[1..]);
    }
  }

  /** Cleaning a headline that is already clean changes nothing. */
  lemma {:induction false} CleanHeadlineIdempotent(text: string)
    ensures CleanHeadline(CleanHeadline(text)) == CleanHeadline(text)
  {
    var h := CleanHeadline(text);
    assert CleanEdges(h, IsSpace);
    StripClean(h, IsSpace);
    FirstLineOfLine(h);
    StripClean(h, IsHeadlineEdge);
  }

  /** `generateShortHeadline`: the cleaned reply, or the empty string when the call fails. */
  function GenerateShortHeadline(reply: Reply): (h: string)
    ensures reply.Err? ==> h == ""
    ensures '\n' !in h && CleanEdges(h, IsHeadlineEdge)
    ensures reply.Ok? ==> StrippedFrom(h, FirstLine(Trim(reply.value)), IsHeadlineEdge)
  {
    match reply
    case Err(_) => ""
    case Ok(text) => CleanHeadline(text)
  }

  /**
   `generateShortHeadlineBatch`: exactly one headline per payload, in order;
   if the fan-out itself is rejected, every headline is empty.
   */
  function GenerateShortHeadlineBatch(items: seq<Payload>, replies: seq<Reply>, fanOutRejected: bool): (r: seq<string>)
    ensures |r| == |items|
    ensures fanOutRejected ==> forall i :: 0 <= i < |r| ==> r[i] == ""
    ensures !fanOutRejected ==> forall i :: 0 <= i < |r| ==> r[i] == GenerateShortHeadline(ReplyAt(replies, i))
    ensures forall i :: 0 <= i < |r| ==> '\n' !in r[i]
  {
    if fanOutRejected then seq(|items|, _ => "")
    else BatchMap(items, replies, GenerateShortHeadline)
  }
}
