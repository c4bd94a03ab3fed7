/**
 * The keyword sentiment scorer of sentiment_analyzer.py (`SentimentAnalyzer`):
 * a rating from 1 to 5 and a confidence from counting the words that contain
 * a positive or a negative keyword, the label and colour thresholds, and the
 * summary over several articles.
 */
module SentimentAnalyzer {
  import Text
  import opened Stats

  const PositiveWords: set<string> := {
    "growth", "profit", "increase", "gain", "bull", "bullish", "rise", "up",
    "higher", "strong", "beat", "exceed", "outperform", "success", "positive",
    "upgrade", "buy", "recommend", "optimistic", "rally", "surge", "boost",
    "excellent", "good", "great", "improve", "expansion", "revenue"
  }

  const NegativeWords: set<string> := {
    "loss", "decline", "bear", "bearish", "fall", "drop", "down", "lower",
    "weak", "miss", "underperform", "fail", "negative", "downgrade", "sell",
    "pessimistic", "crash", "plunge", "worry", "concern", "risk", "poor",
    "bad", "terrible", "cut", "reduce", "layoff", "bankruptcy"
  }

  /** The `{'rating': …, 'confidence': …}` record. */
  datatype Sentiment = Sentiment(rating: real, confidence: real)

  /** `any(k in word for k in keys)` */
  predicate ContainsAny(word: string, keys: set<string>) {
    exists k :: k in keys && Text.IsSubstring(k, word)
  }

  /** `sum(1 for word in words if any(k in word for k in keys))` */
  function CountMatching(words: seq<string>, keys: set<string>): (n: nat)
    ensures n <= |words|
  {
    if words == [] then 0
    else CountMatching(words[..|words| - 1], keys) + (if ContainsAny(words[|words| - 1], keys) then 1 else 0)
  }

  /** Counting is additive over the words. */
  lemma {:induction false} CountMatchingAppend(ws: seq<string>, vs: seq<string>, keys: set<string>)
    ensures CountMatching(ws + vs, keys) == CountMatching(ws, keys) + CountMatching(vs, keys)
    decreases |vs|
  {
    if vs != [] {
      var vs' := vs[..|vs| - 1];
      assert (ws + vs)[..|ws + vs| - 1] == ws + vs';
      CountMatchingAppend(ws, vs', keys);
    } else {
      assert ws + vs == ws;
    }
  }

  /** A single word counts once or not at all, whichever keywords it holds. */
  lemma CountMatchingSingle(w: string, keys: set<string>)
    ensures CountMatching([w], keys) == if ContainsAny(w, keys) then 1 else 0
  {
    assert [w][..0] == [];
  }

  /** The lower-cased words of the text, as `text.lower().split()`. */
  function LowerWords(text: string): seq<string> {
    Text.Words(Text.Lower(text))
  }

  function PositiveCount(text: string): nat {
    CountMatching(LowerWords(text), PositiveWords)
  }

  function NegativeCount(text: string): nat {
    CountMatching(LowerWords(text), NegativeWords)
  }

  function MinInt(a: int, b: int): int {
    if a <= b then a else b
  }

  function MinReal(a: real, b: real): real {
    if a <= b then a else b
  }

  function MaxReal(a: real, b: real): real {
    if a >= b then a else b
  }

  /** `analyze_text_sentiment` */
  function AnalyzeTextSentiment(text: string): (r: Sentiment)
    ensures text == [] ==> r == Sentiment(3.0, 0.0)
    ensures text != [] ==> 1.0 <= r.rating <= 5.0 && 0.1 <= r.confidence <= 1.0
    ensures text != [] && PositiveCount(text) + NegativeCount(text) == 0 ==> r == Sentiment(3.0, 0.1)
  {
    if text == [] then Sentiment(3.0, 0.0)
    else
      var positiveCount := PositiveCount(text);
      var negativeCount := NegativeCount(text);
      var totalSentimentWords := positiveCount + negativeCount;
      if totalSentimentWords == 0 then Sentiment(3.0, 0.1)
      else
        var rating :=
          if positiveCount > negativeCount then 3.0 + MinInt(positiveCount - negativeCount, 5) as real * 0.4
          else if negativeCount > positiveCount then 3.0 - MinInt(negativeCount - positiveCount, 5) as real * 0.4
          else 3.0;
        var confidence := MinReal(totalSentimentWords as real / 10.0, 1.0);
        Sentiment(MaxReal(1.0, MinReal(5.0, rating)), MaxReal(0.1, confidence))
  }

  /** `d` limited to `[-5, 5]`. */
  function Clip5(d: int): int {
    if d > 5 then 5 else if d < -5 then -5 else d
  }

  /**
   * With at least one keyword word, the rating is 3 moved by 0.4 per word of
   * difference between the counts, at most 5 words either way, and the
   * confidence is a tenth per keyword word, at most 1. The outer clamps of
   * analyze_text_sentiment never bind.
   */
  lemma RatingFormula(text: string)
    requires text != [] && PositiveCount(text) + NegativeCount(text) > 0
    ensures AnalyzeTextSentiment(text).rating == 3.0 + 0.4 * Clip5(PositiveCount(text) - NegativeCount(text)) as real
    ensures AnalyzeTextSentiment(text).confidence == MinReal((PositiveCount(text) + NegativeCount(text)) as real / 10.0, 1.0)
  {
  }

  /** The rating is above 3 exactly when positive words outnumber negative ones, below 3 exactly when the reverse. */
  lemma RatingDirection(text: string)
    requires text != []
    ensures AnalyzeTextSentiment(text).rating > 3.0 <==> PositiveCount(text) > NegativeCount(text)
    ensures AnalyzeTextSentiment(text).rating < 3.0 <==> NegativeCount(text) > PositiveCount(text)
    ensures AnalyzeTextSentiment(text).rating == 5.0 <==> PositiveCount(text) >= NegativeCount(text) + 5
    ensures AnalyzeTextSentiment(text).rating == 1.0 <==> NegativeCount(text) >= PositiveCount(text) + 5
  {
    if PositiveCount(text) + NegativeCount(text) > 0 {
      RatingFormula(text);
    }
  }

  /** Text of whitespace only is not empty but has no words: neutral with the low confidence. */
  lemma BlankTextIsNeutral(text: string)
    requires text != [] && forall i :: 0 <= i < |text| ==> Text.IsSpace(text[i])
    ensures AnalyzeTextSentiment(text) == Sentiment(3.0, 0.1)
  {
    Text.LowerKeepsSpaces(text);
    Text.BlankHasNoWords(Text.Lower(text));
  }

  /** `get_sentiment_label` */
  function SentimentLabel(rating: real): (r: string)
    ensures r in {"Very Positive", "Positive", "Neutral", "Negative", "Very Negative"}
  {
    if rating >= 4.0 then "Very Positive"
    else if rating >= 3.5 then "Positive"
    else if rating > 2.5 then "Neutral"
    else if rating >= 2.0 then "Negative"
    else "Very Negative"
  }

  /** `get_sentiment_color` */
  function SentimentColor(rating: real): (r: string)
    ensures r in {"green", "gray", "red"}
  {
    if rating >= 3.5 then "green"
    else if rating >= 2.5 then "gray"
    else "red"
  }

  /** The labels in order, from "Very Negative" as 0 to "Very Positive" as 4. */
  function LabelRank(name: string): int {
    if name == "Very Positive" then 4
    else if name == "Positive" then 3
    else if name == "Neutral" then 2
    else if name == "Negative" then 1
    else 0
  }

  /** A higher rating never gets a lower label. */
  lemma LabelMonotone(a: real, b: real)
    requires a <= b
    ensures LabelRank(SentimentLabel(a)) <= LabelRank(SentimentLabel(b))
  {
  }

  /**
   * Label and colour agree: green for the positive labels, red for the
   * negative ones, gray for "Neutral" — except at exactly 2.5, where the
   * label is "Negative" and the colour gray.
   */
  lemma LabelColorAgree(rating: real)
    ensures rating != 2.5 ==>
              (SentimentColor(rating) == "green" <==> LabelRank(SentimentLabel(rating)) >= 3) &&
              (SentimentColor(rating) == "gray" <==> SentimentLabel(rating) == "Neutral") &&
              (SentimentColor(rating) == "red" <==> LabelRank(SentimentLabel(rating)) <= 1)
    ensures SentimentLabel(2.5) == "Negative" && SentimentColor(2.5) == "gray"
  {
  }

  /** A key of the article dict: missing, present with the value `None`, or present with a string. */
  datatype Field = Missing | NoneValue | Present(text: string)

  /** `article.get(key, '')` as the f-string renders it: `None` is rendered as "None". */
  function GetOr(f: Field): string {
    match f
    case Missing => ""
    case NoneValue => "None"
    case Present(text) => text
  }

  /** An article dict, reduced to its `title` and `content` keys. */
  datatype Article = Article(title: Field, content: Field)

  /** `f"{article.get('title', '')} {article.get('content', '')}"` */
  function ArticleText(a: Article): (r: string)
    ensures r != []
    ensures a.title == Missing && a.content == Missing ==> r == " "
    ensures a.title == NoneValue ==> |r| >= 5 && r[..5] == "None "
  {
    GetOr(a.title) + " " + GetOr(a.content)
  }

  /** The record `analyze_multiple_articles` returns. */
  datatype Summary = Summary(averageSentiment: real, totalArticles: nat, positiveArticles: int,
                             negativeArticles: int, neutralArticles: int, confidence: real)

  /** The rating and the confidence of one article's text. */
  function ArticleRating(a: Article): real {
    AnalyzeTextSentiment(ArticleText(a)).rating
  }

  function ArticleConfidence(a: Article): real {
    AnalyzeTextSentiment(ArticleText(a)).confidence
  }

  /** The ratings of the articles, in order. */
  function Ratings(articles: seq<Article>): (r: seq<real>)
    ensures |r| == |articles| && forall i :: 0 <= i < |articles| ==> r[i] == ArticleRating(articles[i])
  {
    MapReal(articles, ArticleRating)
  }

  /** The confidences of the articles, in order. */
  function Confidences(articles: seq<Article>): (r: seq<real>)
    ensures |r| == |articles| && forall i :: 0 <= i < |articles| ==> r[i] == ArticleConfidence(articles[i])
  {
    MapReal(articles, ArticleConfidence)
  }

  predicate IsPositive(x: real) { x >= 3.5 }
  predicate IsNegative(x: real) { x < 2.5 }
  predicate IsNeutral(x: real) { 2.5 <= x < 3.5 }

  /** The summary of `analyze_multiple_articles`, over the articles' ratings and confidences. */
  function ArticlesSummary(articles: seq<Article>): Summary {
    if articles == [] then Summary(3.0, 0, 0, 0, 0, 0.0)
    else
      var ratings := Ratings(articles);
      var positiveCount := CountWhere(ratings, IsPositive);
      var negativeCount := CountWhere(ratings, IsNegative);
      Summary(Sum(ratings) / |ratings| as real, |articles|, positiveCount, negativeCount,
              |ratings| - positiveCount - negativeCount, Sum(Confidences(articles)) / |articles| as real)
  }

  /** Positive, negative and neutral ratings partition the ratings. */
  lemma {:induction false} CountPartition(xs: seq<real>)
    ensures CountWhere(xs, IsPositive) + CountWhere(xs, IsNegative) + CountWhere(xs, IsNeutral) == |xs|
  {
    if xs != [] {
      CountPartition(xs[..|xs| - 1]);
    }
  }

  /**
   * No articles give the fixed default record; otherwise the counts partition
   * the articles into positive (rating at least 3.5), negative (below 2.5) and
   * neutral, and the averages lie within the per-article bounds.
   */
  lemma ArticlesSummaryCorrect(articles: seq<Article>)
    ensures articles == [] ==> ArticlesSummary(articles) == Summary(3.0, 0, 0, 0, 0, 0.0)
    ensures var s := ArticlesSummary(articles);
            && s.totalArticles == |articles|
            && s.positiveArticles + s.negativeArticles + s.neutralArticles == s.totalArticles
            && s.positiveArticles == CountWhere(Ratings(articles), IsPositive)
            && s.negativeArticles == CountWhere(Ratings(articles), IsNegative)
            && s.neutralArticles == CountWhere(Ratings(articles), IsNeutral)
    ensures articles != [] ==>
              && ArticlesSummary(articles).averageSentiment == Sum(Ratings(articles)) / |articles| as real
              && ArticlesSummary(articles).confidence == Sum(Confidences(articles)) / |articles| as real
              && 1.0 <= ArticlesSummary(articles).averageSentiment <= 5.0
              && 0.1 <= ArticlesSummary(articles).confidence <= 1.0
  {
    CountPartition(Ratings(articles));
    if articles != [] {
      MeanBounds(Ratings(articles), 1.0, 5.0);
      MeanBounds(Confidences(articles), 0.1, 1.0);
    }
  }

  /** `analyze_multiple_articles` */
  method AnalyzeMultipleArticles(articles: seq<Article>) returns (s: Summary)
    ensures s == ArticlesSummary(articles)
  {
    if articles == [] {
      return Summary(3.0, 0, 0, 0, 0, 0.0);
    }
    var sentiments: seq<real> := [];
    var confidences: seq<real> := [];
    for i := 0 to |articles|
      invariant sentiments == Ratings(articles[..i])
      invariant confidences == Confidences(articles[..i])
    {
      var text := ArticleText(articles[i]);
      var result := AnalyzeTextSentiment(text);
      MapRealStep(articles, ArticleRating, i);
      MapRealStep(articles, ArticleConfidence, i);
      sentiments := sentiments + [result.rating];
      confidences := confidences + [result.confidence];
    }
    assert articles[..|articles|] == articles;
    var avgSentiment := Sum(sentiments) / |sentiments| as real;
    var avgConfidence := Sum(confidences) / |confidences| as real;
    var positiveCount := CountWhere(sentiments, IsPositive);
    var negativeCount := CountWhere(sentiments, IsNegative);
    var neutralCount := |sentiments| - positiveCount - negativeCount;
    s := Summary(avgSentiment, |articles|, positiveCount, negativeCount, neutralCount, avgConfidence);
  }
}
