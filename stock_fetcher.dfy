/**
 * The arithmetic of stock_fetcher.py: the day's change and its percentage in
 * `fetch_stock_info`, guarded against a zero previous close, and the counts
 * and extremes `get_market_summary` reports over the fetched quotes.
 */
module StockFetcher {
  import opened Wrappers
  import opened Stats

  /** The numeric part of the record `fetch_stock_info` returns. */
  datatype StockInfo = StockInfo(
    symbol: string,
    currentPrice: real,
    previousClose: real,
    change: real,
    percentChange: real)

  /** `percent_change`: zero when there is no previous close to divide by. */
  function PercentChange(change: real, previousClose: real): (r: real)
    ensures previousClose == 0.0 ==> r == 0.0
    ensures previousClose != 0.0 ==> r * previousClose == change * 100.0
  {
    if previousClose != 0.0 then change / previousClose * 100.0 else 0.0
  }

  /** The record built from the two prices `fetch_stock_info` settles on. */
  function StockInfoOf(symbol: string, currentPrice: real, previousClose: real): (r: StockInfo)
    ensures r.symbol == symbol && r.currentPrice == currentPrice && r.previousClose == previousClose
    ensures r.previousClose + r.change == r.currentPrice
    ensures r.previousClose == 0.0 ==> r.percentChange == 0.0
    ensures r.previousClose != 0.0 ==> r.percentChange * r.previousClose == r.change * 100.0
  {
    var change := currentPrice - previousClose;
    StockInfo(symbol, currentPrice, previousClose, change, PercentChange(change, previousClose))
  }

  /**
   * With a positive previous close the percentage has the sign of the move,
   * and it is exactly the relative change: applying it to the previous close
   * gives back the current price.
   */
  lemma PercentChangeSign(symbol: string, currentPrice: real, previousClose: real)
    requires previousClose > 0.0
    ensures var r := StockInfoOf(symbol, currentPrice, previousClose);
            && (r.percentChange > 0.0 <==> currentPrice > previousClose)
            && (r.percentChange < 0.0 <==> currentPrice < previousClose)
            && (r.percentChange == 0.0 <==> currentPrice == previousClose)
            && previousClose * (1.0 + r.percentChange / 100.0) == currentPrice
  {
    var r := StockInfoOf(symbol, currentPrice, previousClose);
    assert r.percentChange * previousClose == (currentPrice - previousClose) * 100.0;
    assert previousClose * (1.0 + r.percentChange / 100.0) == previousClose + r.percentChange * previousClose / 100.0;
  }

  /** The summary `get_market_summary` returns for a non-empty input. */
  datatype MarketSummary = MarketSummary(
    totalStocks: nat,
    stocksUp: nat,
    stocksDown: nat,
    stocksUnchanged: nat,
    avgChange: real,
    maxGainer: real,
    maxLoser: real)

  /** The fetched data: symbol to record, in insertion order. */
  type StockData = seq<(string, StockInfo)>

  /** The percent changes of the values, in order. */
  function Changes(stockData: StockData): (r: seq<real>)
    ensures |r| == |stockData| && forall i :: 0 <= i < |r| ==> r[i] == stockData[i].1.percentChange
  {
    seq(|stockData|, i requires 0 <= i < |stockData| => stockData[i].1.percentChange)
  }

  predicate IsUp(c: real) { c > 0.0 }
  predicate IsDown(c: real) { c < 0.0 }
  predicate IsFlat(c: real) { c == 0.0 }

  /** Every change is above, below or at zero, and only one of them. */
  lemma {:induction false} BucketsPartition(cs: seq<real>)
    ensures CountWhere(cs, IsUp) + CountWhere(cs, IsDown) + CountWhere(cs, IsFlat) == |cs|
  {
    if cs != [] {
      BucketsPartition(cs[..|cs| - 1]);
    }
  }

  /** No change is counted up when all are at most zero, and every one is when all are positive. */
  lemma {:induction false} CountAboveExtremes(cs: seq<real>)
    ensures CountWhere(cs, IsUp) == 0 <==> forall i :: 0 <= i < |cs| ==> cs[i] <= 0.0
    ensures CountWhere(cs, IsUp) == |cs| <==> forall i :: 0 <= i < |cs| ==> cs[i] > 0.0
  {
    if cs != [] {
      var init := cs[..|cs| - 1];
      CountAboveExtremes(init);
      assert forall i :: 0 <= i < |init| ==> init[i] == cs[i];
    }
  }

  /** `max(changes)`: the largest change, which is one of them. */
  function Max(cs: seq<real>): (r: real)
    requires cs != []
    ensures forall i :: 0 <= i < |cs| ==> cs[i] <= r
    ensures exists i :: 0 <= i < |cs| && cs[i] == r
  {
    if |cs| == 1 then cs[0]
    else
      var m := Max(cs[..|cs| - 1]);
      assert forall i :: 0 <= i < |cs| - 1 ==> cs[..|cs| - 1][i] == cs[i];
      if cs[|cs| - 1] > m then cs[|cs| - 1] else m
  }

  /** `min(changes)`: the smallest change, which is one of them. */
  function Min(cs: seq<real>): (r: real)
    requires cs != []
    ensures forall i :: 0 <= i < |cs| ==> r <= cs[i]
    ensures exists i :: 0 <= i < |cs| && cs[i] == r
  {
    if |cs| == 1 then cs[0]
    else
      var m := Min(cs[..|cs| - 1]);
      assert forall i :: 0 <= i < |cs| - 1 ==> cs[..|cs| - 1][i] == cs[i];
      if cs[|cs| - 1] < m then cs[|cs| - 1] else m
  }

  /** `get_market_summary`: nothing for no data (`{}`), the summary otherwise. */
  function GetMarketSummary(stockData: StockData): (r: Option<MarketSummary>)
    ensures r.None? <==> stockData == []
    ensures r.Some? ==> var cs := Changes(stockData);
            && r.value.totalStocks == |stockData|
            && r.value.stocksUp == CountWhere(cs, IsUp)
            && r.value.stocksDown == CountWhere(cs, IsDown)
            && r.value.stocksUnchanged == CountWhere(cs, IsFlat)
            && r.value.avgChange == Sum(cs) / |cs| as real
            && (forall i :: 0 <= i < |cs| ==> r.value.maxLoser <= cs[i] <= r.value.maxGainer)
            && (exists i :: 0 <= i < |cs| && cs[i] == r.value.maxGainer)
            && (exists i :: 0 <= i < |cs| && cs[i] == r.value.maxLoser)
  {
    if stockData == [] then None
    else
      var cs := Changes(stockData);
      Some(MarketSummary(
        |stockData|, CountWhere(cs, IsUp), CountWhere(cs, IsDown), CountWhere(cs, IsFlat),
        Sum(cs) / |cs| as real, Max(cs), Min(cs)))
  }

  /**
   * The three buckets cover every stock once, and the average change lies
   * between the biggest loser and the biggest gainer.
   */
  lemma MarketSummaryConsistent(stockData: StockData)
    requires stockData != []
    ensures var s := GetMarketSummary(stockData).value;
            && s.stocksUp + s.stocksDown + s.stocksUnchanged == s.totalStocks
            && s.maxLoser <= s.avgChange <= s.maxGainer
            && (s.stocksUp > 0 <==> s.maxGainer > 0.0)
            && (s.stocksDown > 0 <==> s.maxLoser < 0.0)
  {
    var cs := Changes(stockData);
    assert GetMarketSummary(stockData).value == MarketSummary(
      |stockData|, CountWhere(cs, IsUp), CountWhere(cs, IsDown), CountWhere(cs, IsFlat), Sum(cs) / |cs| as real, Max(cs), Min(cs));
    BucketsPartition(cs);
    MeanBetween(cs);
    ExtremesSigns(cs);
  }

  /** The mean of the changes lies between their minimum and their maximum. */
  lemma MeanBetween(cs: seq<real>)
    requires cs != []
    ensures Min(cs) <= Sum(cs) / |cs| as real <= Max(cs)
  {
    MeanBounds(cs, Min(cs), Max(cs));
  }

  /** Some change is up exactly when the largest is, and some is down exactly when the smallest is. */
  lemma ExtremesSigns(cs: seq<real>)
    requires cs != []
    ensures CountWhere(cs, IsUp) > 0 <==> Max(cs) > 0.0
    ensures CountWhere(cs, IsDown) > 0 <==> Min(cs) < 0.0
  {
    CountAboveExtremes(cs);
    CountBelowNone(cs);
  }

  /** No change is counted down exactly when none is negative. */
  lemma {:induction false} CountBelowNone(cs: seq<real>)
    ensures CountWhere(cs, IsDown) == 0 <==> forall i :: 0 <= i < |cs| ==> cs[i] >= 0.0
  {
    if cs != [] {
      var init := cs[..|cs| - 1];
      CountBelowNone(init);
      assert forall i :: 0 <= i < |init| ==> init[i] == cs[i];
    }
  }
}
