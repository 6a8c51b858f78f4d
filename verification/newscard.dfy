/**
 The article card: which image area, badge, heading and description an
 article renders with. Only the decisions are modelled; the class names are
 kept as the palette and icon they select.
 */
module NewsCard {
  import opened Types
  import opened Text
  import opened Enrichment

  /** The badge palette a sentiment selects. */
  datatype Palette = Emerald | Rose | Gray

  /** The badge icon a sentiment selects. */
  datatype Icon = TrendingUp | TrendingDown | Minus

  datatype Style = Style(palette: Palette, icon: Icon)

  /** `getSentimentStyles`: bullish is emerald and rising, bearish is rose and falling, anything else gray and flat. */
  function SentimentStyle(sentiment: Option<Sentiment>): (st: Style)
    ensures st.palette == Emerald <==> st.icon == TrendingUp
    ensures st.palette == Rose <==> st.icon == TrendingDown
    ensures st.palette == Emerald <==> sentiment == Some(Bullish)
    ensures st.palette == Rose <==> sentiment == Some(Bearish)
  {
    match sentiment
    case Some(Bullish) => Style(Emerald, TrendingUp)
    case Some(Bearish) => Style(Rose, TrendingDown)
    case _ => Style(Gray, Minus)
  }

  /** ASCII `toUpperCase` of one character; the only inputs here are the three lower-case label names. */
  function UpperChar(c: char): (r: char)
    ensures 'a' <= c <= 'z' ==> IsUpper(r) && LowerChar(r) == c
    ensures !('a' <= c <= 'z') ==> r == c
  {
    if 'a' <= c <= 'z' then (c as int - 32) as char else c
  }

  /** `charAt(0).toUpperCase() + slice(1)`. */
  function Capitalize(s: string): (r: string)
    ensures |r| == |s|
    ensures s != [] ==> r[0] == UpperChar(s[0]) && r[1..] == s[1..]
  {
    if s == [] then [] else [UpperChar(s[0])] + s[1..]
  }

  /** `getSentimentLabel`: the capitalised name of the label, or "Analyzing..." while there is none. */
  function SentimentLabel(sentiment: Option<Sentiment>): (shown: string)
    ensures sentiment.None? ==> shown == "Analyzing..."
    ensures sentiment.Some? ==> |shown| == 7 && IsUpper(shown[0]) && Lower(shown) == SentimentName(sentiment.value)
    ensures sentiment.Some? ==>
      shown[0] == UpperChar(SentimentName(sentiment.value)[0]) && shown[1..] == SentimentName(sentiment.value)[1..]
  {
    match sentiment
    case None => "Analyzing..."
    case Some(s) =>
      var name := SentimentName(s);
      var cap := Capitalize(name);
      assert forall i :: 1 <= i < |name| ==> !IsUpper(name[i]);
      assert Lower(cap)[0] == name[0];
      assert forall i :: 1 <= i < |cap| ==> Lower(cap)[i] == LowerChar(name[i]) == name[i];
      cap
  }

  /** Reading a shown label back through the labelling rule gives the label it shows. */
  lemma LabelReadsBack(s: Sentiment)
    ensures SentimentFromName(Lower(SentimentLabel(Some(s)))) == Some(s)
  {
    SentimentNameRoundTrip(s);
  }

  /** The badge: its style and text. */
  datatype Badge = Badge(style: Style, text: string)

  /** What a card shows. */
  datatype Card = Card(
    image: Option<string>,
    badge: Option<Badge>,
    heading: string,
    description: Option<string>,
    sourceName: string,
    url: string
  )

  /**
   A card: the picture when the image url is non-empty and the placeholder
   otherwise, with the same badge in both, shown only when the article has
   a sentiment; the short title as heading unless it is missing or empty;
   the description only when non-empty.
   */
  function Render(a: NewsArticle): (c: Card)
    ensures c.image.Some? <==> a.urlToImage != ""
    ensures c.image.Some? ==> c.image.value == a.urlToImage
    ensures c.badge.Some? <==> a.sentiment.Some?
    ensures c.badge.Some? ==> c.badge.value == Badge(SentimentStyle(a.sentiment), SentimentLabel(a.sentiment))
    ensures c.heading == (if a.shortTitle.Some? && a.shortTitle.value != "" then a.shortTitle.value else a.title)
    ensures c.description.Some? <==> a.description != ""
    ensures c.description.Some? ==> c.description.value == a.description
    ensures c.sourceName == a.source.name && c.url == a.url
  {
    var badge := if a.sentiment.Some? then Some(Badge(SentimentStyle(a.sentiment), SentimentLabel(a.sentiment))) else None;
    Card(
      if a.urlToImage != "" then Some(a.urlToImage) else None,
      badge,
      if a.shortTitle.Some? && a.shortTitle.value != "" then a.shortTitle.value else a.title,
      if a.description != "" then Some(a.description) else None,
      a.source.name,
      a.url)
  }

  /**
   The cards of an enriched page: every card has a badge, labelled by its
   article's own sentiment, and its heading is that article's generated
   headline, or the original title where the headline came back empty.
   */
  lemma EnrichedCards(raw: seq<NewsArticle>, e: Enrichment, i: nat)
    requires Aligned(e, |raw|) && i < |raw|
    ensures var c := Render(Merge(raw, e)[i]);
      && c.badge.Some? && c.badge.value.text == SentimentLabel(Some(e.sentiments[i]))
      && c.heading == (if e.shortTitles[i] != "" then e.shortTitles[i] else raw[i].title)
      && c.url == raw[i].url
  {
    MergePositional(raw, e);
  }
}
