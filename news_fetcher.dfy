/**
 * The list and string logic of news_fetcher.py: the rule that turns a
 * relative link into an absolute one, and the merging in `fetch_all_news`,
 * which concatenates the sources' articles, keeps the first article of each
 * title key and returns at most ten.
 */
module NewsFetcher {
  import Text
  import Sorting

  /** An article as the fetchers build it; `published_date` is the clock and is left out. */
  datatype NewsArticle = NewsArticle(title: string, url: string, content: string, source: string, symbol: string)

  const YahooOrigin: string := "https://finance.yahoo.com"
  const MarketWatchOrigin: string := "https://www.marketwatch.com"

  /** A link starting with '/' is put after the site's origin; any other link is kept as it is. */
  function AbsoluteUrl(origin: string, href: string): (r: string)
    ensures Text.StartsWith(href, "/") ==> r == origin + href
    ensures !Text.StartsWith(href, "/") ==> r == href
  {
    if Text.StartsWith(href, "/") then origin + href else href
  }

  /** The link always ends the result, and absolutising an absolute link changes nothing. */
  lemma AbsoluteUrlIdempotent(origin: string, href: string)
    requires origin != [] && origin[0] != '/'
    ensures var r := AbsoluteUrl(origin, href);
            && |href| <= |r| && r[|r| - |href|..] == href
            && AbsoluteUrl(origin, r) == r
  {
    var r := AbsoluteUrl(origin, href);
    if Text.StartsWith(href, "/") {
      assert r[0] == origin[0];
      assert r[|r| - |href|..] == href;
    }
  }

  /** `title.lower()[:50]` */
  function TitleKey(title: string): (r: string)
    ensures |r| == if |title| < 50 then |title| else 50
    ensures r == Text.Lower(title)[..|r|]
  {
    var lower := Text.Lower(title);
    if |lower| < 50 then lower else lower[..50]
  }

  /** The key ignores case and everything after the fiftieth character. */
  lemma TitleKeyLoose(a: string, b: string)
    requires |a| >= 50 && |b| >= 50 && Text.Lower(a[..50]) == Text.Lower(b[..50])
    ensures TitleKey(a) == TitleKey(b)
    ensures TitleKey(Text.Lower(a)) == TitleKey(a)
  {
    assert TitleKey(a) == Text.Lower(a[..50]);
    assert TitleKey(b) == Text.Lower(b[..50]);
  }

  function Key(a: NewsArticle): string {
    TitleKey(a.title)
  }

  /** No article before index `i` has the key of `s[i]`. */
  predicate IsFirst(s: seq<NewsArticle>, i: nat)
    requires i < |s|
  {
    forall j :: 0 <= j < i ==> Key(s[j]) != Key(s[i])
  }

  /** The indices below `n` of the first article of each key, in increasing order. */
  function FirstOccurrences(s: seq<NewsArticle>, n: nat): (idx: seq<nat>)
    requires n <= |s|
    ensures forall k :: 0 <= k < |idx| ==> idx[k] < n && IsFirst(s, idx[k])
    ensures forall k, l :: 0 <= k < l < |idx| ==> idx[k] < idx[l]
    ensures forall i :: 0 <= i < n && IsFirst(s, i) ==> i in idx
  {
    if n == 0 then []
    else
      var prev := FirstOccurrences(s, n - 1);
      if IsFirst(s, n - 1) then prev + [n - 1] else prev
  }

  function Pick(s: seq<NewsArticle>, idx: seq<nat>): (r: seq<NewsArticle>)
    requires forall k :: 0 <= k < |idx| ==> idx[k] < |s|
    ensures |r| == |idx| && forall k :: 0 <= k < |idx| ==> r[k] == s[idx[k]]
  {
    seq(|idx|, k requires 0 <= k < |idx| => s[idx[k]])
  }

  /** The articles without the later ones whose key was already seen. */
  function Dedup(s: seq<NewsArticle>): seq<NewsArticle> {
    Pick(s, FirstOccurrences(s, |s|))
  }

  /**
   * The de-duplicated articles: no two share a key; they come from the input
   * in the same relative order; each is the first of its key; and every key of
   * the input is among them.
   */
  lemma DedupCorrect(s: seq<NewsArticle>)
    ensures var r := Dedup(s);
            && (forall k, l :: 0 <= k < l < |r| ==> Key(r[k]) != Key(r[l]))
            && (forall i :: 0 <= i < |s| ==> exists k :: 0 <= k < |r| && Key(r[k]) == Key(s[i]))
            && |r| <= |s|
    ensures var idx := FirstOccurrences(s, |s|);
            && (forall k, l :: 0 <= k < l < |idx| ==> idx[k] < idx[l])
            && (forall k :: 0 <= k < |idx| ==> Dedup(s)[k] == s[idx[k]])
            && (forall i :: 0 <= i < |s| ==> (i in idx <==> IsFirst(s, i)))
  {
    var idx := FirstOccurrences(s, |s|);
    var r := Dedup(s);
    forall i | 0 <= i < |s| ensures exists k :: 0 <= k < |r| && Key(r[k]) == Key(s[i]) {
      var f := FirstOf(s, i);
      var k :| 0 <= k < |idx| && idx[k] == f;
      assert Key(r[k]) == Key(s[i]);
    }
    LengthBound(idx, |s|);
  }

  /** The index of the first article sharing the key of `s[i]`. */
  lemma FirstOf(s: seq<NewsArticle>, i: nat) returns (f: nat)
    requires i < |s|
    ensures f <= i && IsFirst(s, f) && Key(s[f]) == Key(s[i])
  {
    f := i;
    while !IsFirst(s, f)
      invariant f <= i && Key(s[f]) == Key(s[i])
      decreases f
    {
      var j :| 0 <= j < f && Key(s[j]) == Key(s[f]);
      f := j;
    }
  }

  /** Strictly increasing indices below `n` number at most `n`. */
  lemma {:induction false} LengthBound(idx: seq<nat>, n: nat)
    requires forall k :: 0 <= k < |idx| ==> idx[k] < n
    requires forall k, l :: 0 <= k < l < |idx| ==> idx[k] < idx[l]
    ensures |idx| <= n
    decreases n
  {
    if idx != [] {
      var init := idx[..|idx| - 1];
      assert forall k :: 0 <= k < |init| ==> init[k] < idx[|idx| - 1] < n;
      LengthBound(init, n - 1);
    }
  }

  /** The articles of all sources, one source after another, as the `extend` loop gathers them. */
  function Concat(sources: seq<seq<NewsArticle>>): seq<NewsArticle> {
    if sources == [] then [] else Concat(sources[..|sources| - 1]) + sources[|sources| - 1]
  }

  /** The keys of the articles `s[..n]`. */
  function KeySet(s: seq<NewsArticle>, n: nat): set<string>
    requires n <= |s|
  {
    set j | 0 <= j < n :: Key(s[j])
  }

  /** The `extend` loop of `fetch_all_news`. */
  method GatherArticles(sources: seq<seq<NewsArticle>>) returns (allArticles: seq<NewsArticle>)
    ensures allArticles == Concat(sources)
  {
    allArticles := [];
    for i := 0 to |sources|
      invariant allArticles == Concat(sources[..i])
    {
      assert sources[..i + 1][..i] == sources[..i];
      allArticles := allArticles + sources[i];
    }
    assert sources[..|sources|] == sources;
  }

  /** A key was seen before index `i` exactly when `s[i]` is not the first of its key. */
  lemma SeenIffNotFirst(s: seq<NewsArticle>, i: nat)
    requires i < |s|
    ensures Key(s[i]) in KeySet(s, i) <==> !IsFirst(s, i)
    ensures KeySet(s, i + 1) == KeySet(s, i) + {Key(s[i])}
  {
  }

  lemma PickAppend(s: seq<NewsArticle>, idx: seq<nat>, i: nat)
    requires i < |s| && forall k :: 0 <= k < |idx| ==> idx[k] < |s|
    ensures Pick(s, idx + [i]) == Pick(s, idx) + [s[i]]
  {
  }

  /** The de-duplication loop of `fetch_all_news`, with its set of seen title keys. */
  method DedupArticles(allArticles: seq<NewsArticle>) returns (uniqueArticles: seq<NewsArticle>)
    ensures uniqueArticles == Dedup(allArticles)
  {
    uniqueArticles := [];
    var seenTitles: set<string> := {};
    for i := 0 to |allArticles|
      invariant seenTitles == KeySet(allArticles, i)
      invariant uniqueArticles == Pick(allArticles, FirstOccurrences(allArticles, i))
    {
      var titleKey := TitleKey(allArticles[i].title);
      SeenIffNotFirst(allArticles, i);
      if titleKey !in seenTitles {
        PickAppend(allArticles, FirstOccurrences(allArticles, i), i);
        seenTitles := seenTitles + {titleKey};
        uniqueArticles := uniqueArticles + [allArticles[i]];
      }
    }
  }

  /**
   * `fetch_all_news` over what the sources returned (a source that fails
   * contributes no articles): the de-duplicated articles, at most ten.
   */
  method FetchAllNews(sources: seq<seq<NewsArticle>>) returns (r: seq<NewsArticle>)
    ensures r == Sorting.Take(Dedup(Concat(sources)), 10)
    ensures |r| <= 10
  {
    var allArticles := GatherArticles(sources);
    var uniqueArticles := DedupArticles(allArticles);
    r := Sorting.Take(uniqueArticles, 10);
  }
}
