/**
 * The cash-secured-put opportunity scanner of options_analyzer.py: the
 * Black-Scholes delta guard, the volatility estimate and its clamp, the
 * ten-day expiry window, and the loop that filters put quotes by bid/ask
 * and delta band, derives the yield fields and ranks the result.
 *
 * Market data arrive as a `MarketSnapshot` value; the normal CDF, the
 * logarithm, the square root and the historical standard deviation are
 * left abstract in a `Numerics` record.
 */
module OptionsAnalyzer {
  import opened Wrappers
  import Sorting

  /** A calendar date as a day number; ISO date strings order the same way. */
  type Day = int
  type Probability = p: real | 0.0 <= p <= 1.0
  type Positive = x: real | x > 0.0 witness 1.0

  const RiskFreeRate: real := 0.05
  const DefaultVolatility: real := 0.25
  const MinVolatility: real := 0.1
  const MaxVolatility: real := 2.0
  const ExpiryWindowDays: int := 10
  const MinAbsDelta: real := 0.15
  const MaxAbsDelta: real := 0.25
  const SharesPerContract: real := 100.0
  const DaysPerYear: real := 365.0

  datatype Side = Put | Call

  /** The numeric library calls options_analyzer.py makes, kept uninterpreted. */
  datatype Numerics = Numerics(
    cdf: real -> Probability,          // scipy's norm.cdf
    ln: Positive -> real,              // np.log
    sqrt: Positive -> Positive,        // np.sqrt
    annualizedStd: seq<real> -> real)  // std of the log returns of closes, times sqrt(252)

  /** One row of a put chain. */
  datatype PutQuote = PutQuote(strike: real, bid: real, ask: real)

  /** What the quote provider returns for one symbol on the scan day. */
  datatype MarketSnapshot = MarketSnapshot(
    currentPrice: real,
    closes: seq<real>,               // the last 30 days of closing prices
    expirationDates: seq<Day>,       // `stock.options`
    puts: Day -> seq<PutQuote>)      // `option_chain(exp).puts`; a failed fetch is no rows

  /** The record `get_options_data` returns. */
  datatype OptionsData = OptionsData(
    symbol: string, currentPrice: real, expirationDates: seq<Day>, impliedVolatility: real)

  /** One surfaced cash-secured-put opportunity, with its derived fields. */
  datatype Opportunity = Opportunity(
    symbol: string, expiration: Day, daysToExp: int, strike: real, currentPrice: real,
    bid: real, ask: real, premium: real, delta: real, absDelta: real,
    premiumPercentage: real, annualizedReturn: real, collateralRequired: real,
    maxProfit: real, breakeven: real)

  function Abs(x: real): (r: real)
    ensures r >= 0.0 && (r == x || r == -x)
  {
    if x < 0.0 then -x else x
  }

  /**
   * `calculate_black_scholes_delta`. Non-positive time or volatility give 0.0.
   * For a non-positive spot or strike, options_analyzer.py gives a put delta of
   * −1.0 (zero spot), −0.0 or a caught division error (zero strike), or NaN
   * (negative spot). All of these lie outside the screening band, and so does
   * the 0.0 the model returns there.
   */
  function BlackScholesDelta(num: Numerics, spot: real, strike: real, t: real, r: real,
                             sigma: real, side: Side): (d: real)
    ensures t <= 0.0 || sigma <= 0.0 ==> d == 0.0
    ensures side == Put ==> -1.0 <= d <= 0.0
    ensures side == Call ==> 0.0 <= d <= 1.0
    ensures d != 0.0 ==> t > 0.0 && sigma > 0.0 && spot > 0.0 && strike > 0.0
  {
    if t <= 0.0 || sigma <= 0.0 || spot <= 0.0 || strike <= 0.0 then 0.0
    else
      var d1 := (num.ln(spot / strike) + (r + 0.5 * sigma * sigma) * t) / (sigma * num.sqrt(t));
      var below: real := num.cdf(-d1);
      var above: real := num.cdf(d1);
      match side
      case Put => -below
      case Call => above
  }

  /** `max(lo, min(hi, x))` */
  function Clamp(lo: real, hi: real, x: real): (r: real)
    requires lo <= hi
    ensures lo <= r <= hi
    ensures lo <= x <= hi ==> r == x
    ensures x < lo ==> r == lo
    ensures hi < x ==> r == hi
  {
    if x < lo then lo else if hi < x then hi else x
  }

  /** `get_implied_volatility_estimate` on an already fetched price history. */
  function VolatilityEstimate(num: Numerics, closes: seq<real>): (v: real)
    ensures MinVolatility <= v <= MaxVolatility
    ensures |closes| < 2 ==> v == DefaultVolatility
    ensures |closes| >= 2 && MinVolatility <= num.annualizedStd(closes) <= MaxVolatility
            ==> v == num.annualizedStd(closes)
  {
    if |closes| < 2 then DefaultVolatility
    else Clamp(MinVolatility, MaxVolatility, num.annualizedStd(closes))
  }

  /** An expiration strictly after today and at most ten days out. */
  predicate InExpiryWindow(today: Day, exp: Day) {
    today < exp <= today + ExpiryWindowDays
  }

  /** The expirations inside the window, in the provider's order. */
  function WindowFilter(today: Day, dates: seq<Day>): (r: seq<Day>)
    ensures |r| <= |dates|
    ensures forall i :: 0 <= i < |r| ==> r[i] in dates && InExpiryWindow(today, r[i])
    ensures forall d :: d in dates && InExpiryWindow(today, d) ==> d in r
    ensures r == [] <==> forall d :: d in dates ==> !InExpiryWindow(today, d)
  {
    if dates == [] then []
    else
      var init, last := dates[..|dates| - 1], dates[|dates| - 1];
      assert dates == init + [last];
      WindowFilter(today, init) + (if InExpiryWindow(today, last) then [last] else [])
  }

  /** Each expiration in the window is kept as often as the provider lists it, any other never. */
  lemma {:induction false} WindowFilterCounts(today: Day, dates: seq<Day>)
    ensures forall d :: multiset(WindowFilter(today, dates))[d]
                        == if InExpiryWindow(today, d) then multiset(dates)[d] else 0
  {
    if dates != [] {
      var init, last := dates[..|dates| - 1], dates[|dates| - 1];
      assert dates == init + [last];
      WindowFilterCounts(today, init);
      assert multiset(dates) == multiset(init) + multiset{last};
    }
  }

  /** `append` in the scan: one more expiration is kept at the end exactly when it lies in the window. */
  lemma WindowFilterStep(today: Day, dates: seq<Day>, d: Day)
    ensures WindowFilter(today, dates + [d])
            == WindowFilter(today, dates) + (if InExpiryWindow(today, d) then [d] else [])
  {
    assert (dates + [d])[..|dates + [d]| - 1] == dates;
  }

  /**
   * Filtering keeps the provider's order: the expirations kept from a list
   * that is split in two are those kept from the first part, then those kept
   * from the second.
   */
  lemma {:induction false} WindowFilterConcat(today: Day, xs: seq<Day>, ys: seq<Day>)
    ensures WindowFilter(today, xs + ys) == WindowFilter(today, xs) + WindowFilter(today, ys)
    decreases |ys|
  {
    if ys == [] {
      assert xs + ys == xs;
    } else {
      var init, last := ys[..|ys| - 1], ys[|ys| - 1];
      calc {
        WindowFilter(today, xs + ys);
        { assert xs + ys == (xs + init) + [last]; }
        WindowFilter(today, (xs + init) + [last]);
        { WindowFilterStep(today, xs + init, last); }
        WindowFilter(today, xs + init) + (if InExpiryWindow(today, last) then [last] else []);
        { WindowFilterConcat(today, xs, init); }
        WindowFilter(today, xs) + WindowFilter(today, init) + (if InExpiryWindow(today, last) then [last] else []);
        { assert ys == init + [last]; WindowFilterStep(today, init, last); }
        WindowFilter(today, xs) + WindowFilter(today, ys);
      }
    }
  }

  /** The `valid_expirations.append` loop of `get_options_data`. */
  method ValidExpirations(today: Day, dates: seq<Day>) returns (valid: seq<Day>)
    ensures valid == WindowFilter(today, dates)
  {
    valid := [];
    for i := 0 to |dates|
      invariant valid == WindowFilter(today, dates[..i])
    {
      assert dates[..i + 1] == dates[..i] + [dates[i]];
      WindowFilterStep(today, dates[..i], dates[i]);
      if today < dates[i] <= today + ExpiryWindowDays {
        valid := valid + [dates[i]];
      }
    }
    assert dates[..|dates|] == dates;
  }

  /**
   * `get_options_data` on fetched data: keeps the expirations in the window and
   * estimates volatility; no expiration (none at all, or none in the window) is None.
   */
  method GetOptionsData(symbol: string, market: MarketSnapshot, today: Day, num: Numerics)
    returns (r: Option<OptionsData>)
    ensures r.None? <==> forall d :: d in market.expirationDates ==> !InExpiryWindow(today, d)
    ensures r.Some? ==> r.value == OptionsData(symbol, market.currentPrice,
                                               WindowFilter(today, market.expirationDates),
                                               VolatilityEstimate(num, market.closes))
    ensures r.Some? ==> r.value.expirationDates != []
  {
    var dates := market.expirationDates;
    if |dates| == 0 {
      return None;
    }
    var valid := ValidExpirations(today, dates);
    if |valid| == 0 {
      return None;
    }
    var iv := VolatilityEstimate(num, market.closes);
    r := Some(OptionsData(symbol, market.currentPrice, valid, iv));
  }

  /** The sort key of `csp_opportunities.sort`. */
  function PremiumPercentage(o: Opportunity): real {
    o.premiumPercentage
  }

  /** The opportunity one put quote yields, if it has a market and a delta in the band. */
  function QuoteOpportunity(symbol: string, exp: Day, daysToExp: int, spot: real, iv: real,
                            num: Numerics, q: PutQuote): Option<Opportunity>
  {
    if q.bid <= 0.0 || q.ask <= 0.0 then None
    else
      var premium := (q.bid + q.ask) / 2.0;
      var delta := BlackScholesDelta(num, spot, q.strike, daysToExp as real / DaysPerYear,
                                     RiskFreeRate, iv, Put);
      if !(MinAbsDelta <= Abs(delta) <= MaxAbsDelta) then None
      else
        var pct := premium / q.strike * 100.0;
        Some(Opportunity(symbol, exp, daysToExp, q.strike, spot, q.bid, q.ask, premium, delta,
                         Abs(delta), pct,
                         if daysToExp > 0 then pct * DaysPerYear / daysToExp as real else 0.0,
                         q.strike * SharesPerContract, premium * SharesPerContract,
                         q.strike - premium))
  }

  /** The opportunities of one expiration's put chain, in chain order. */
  function ChainOpportunities(symbol: string, exp: Day, daysToExp: int, spot: real, iv: real,
                              num: Numerics, quotes: seq<PutQuote>): seq<Opportunity>
  {
    if quotes == [] then []
    else
      ChainOpportunities(symbol, exp, daysToExp, spot, iv, num, quotes[..|quotes| - 1])
      + match QuoteOpportunity(symbol, exp, daysToExp, spot, iv, num, quotes[|quotes| - 1])
        case Some(o) => [o]
        case None => []
  }

  /** The opportunities of several expirations, expiration by expiration. */
  function ExpiriesOpportunities(symbol: string, today: Day, spot: real, iv: real, num: Numerics,
                                 puts: Day -> seq<PutQuote>, exps: seq<Day>): seq<Opportunity>
  {
    if exps == [] then []
    else
      var exp := exps[|exps| - 1];
      ExpiriesOpportunities(symbol, today, spot, iv, num, puts, exps[..|exps| - 1])
      + ChainOpportunities(symbol, exp, exp - today, spot, iv, num, puts(exp))
  }

  /** The unsorted list `analyze_csp_options` collects. */
  function CspCandidates(symbol: string, market: MarketSnapshot, today: Day, num: Numerics)
    : seq<Opportunity>
  {
    ExpiriesOpportunities(symbol, today, market.currentPrice, VolatilityEstimate(num, market.closes),
                          num, market.puts, WindowFilter(today, market.expirationDates))
  }

  /** What every opportunity the scanner surfaces satisfies. */
  predicate Surfaced(o: Opportunity, symbol: string, today: Day) {
    && o.symbol == symbol
    && InExpiryWindow(today, o.expiration)
    && o.daysToExp == o.expiration - today
    && o.bid > 0.0 && o.ask > 0.0 && o.strike > 0.0
    && o.premium == (o.bid + o.ask) / 2.0
    && o.absDelta == Abs(o.delta)
    && MinAbsDelta <= o.absDelta <= MaxAbsDelta
    && -MaxAbsDelta <= o.delta <= -MinAbsDelta
    && o.premiumPercentage == o.premium / o.strike * 100.0
    && o.annualizedReturn == o.premiumPercentage * DaysPerYear / o.daysToExp as real
    && o.collateralRequired == o.strike * SharesPerContract
    && o.maxProfit == o.premium * SharesPerContract
    && o.breakeven == o.strike - o.premium
  }

  lemma {:induction false} ChainSurfaced(symbol: string, today: Day, exp: Day, spot: real,
                                         iv: real, num: Numerics, quotes: seq<PutQuote>)
    requires InExpiryWindow(today, exp)
    ensures forall o :: o in ChainOpportunities(symbol, exp, exp - today, spot, iv, num, quotes)
                        ==> Surfaced(o, symbol, today)
  {
    if quotes != [] {
      ChainSurfaced(symbol, today, exp, spot, iv, num, quotes[..|quotes| - 1]);
    }
  }

  lemma {:induction false} ExpiriesSurfaced(symbol: string, today: Day, spot: real, iv: real,
                                            num: Numerics, puts: Day -> seq<PutQuote>, exps: seq<Day>)
    requires forall d :: d in exps ==> InExpiryWindow(today, d)
    ensures forall o :: o in ExpiriesOpportunities(symbol, today, spot, iv, num, puts, exps)
                        ==> Surfaced(o, symbol, today)
  {
    if exps != [] {
      var exp := exps[|exps| - 1];
      ExpiriesSurfaced(symbol, today, spot, iv, num, puts, exps[..|exps| - 1]);
      ChainSurfaced(symbol, today, exp, spot, iv, num, puts(exp));
    }
  }

  /** Every candidate the scan collects meets the opportunity invariants. */
  lemma CandidatesSurfaced(symbol: string, market: MarketSnapshot, today: Day, num: Numerics)
    ensures forall o :: o in CspCandidates(symbol, market, today, num) ==> Surfaced(o, symbol, today)
  {
    ExpiriesSurfaced(symbol, today, market.currentPrice, VolatilityEstimate(num, market.closes),
                     num, market.puts, WindowFilter(today, market.expirationDates));
  }

  /** A put row passes the screen: a two-sided market and a delta inside the band. */
  predicate PassesScreen(daysToExp: int, spot: real, iv: real, num: Numerics, q: PutQuote) {
    && q.bid > 0.0 && q.ask > 0.0
    && MinAbsDelta <= Abs(BlackScholesDelta(num, spot, q.strike, daysToExp as real / DaysPerYear,
                                            RiskFreeRate, iv, Put)) <= MaxAbsDelta
  }

  /**
   * Nothing that passes the screen is lost: every row of the chain with a
   * two-sided market and a delta in the band yields an opportunity among the
   * chain's, for that strike and those prices.
   */
  lemma {:induction false} ChainComplete(symbol: string, exp: Day, daysToExp: int, spot: real,
                                         iv: real, num: Numerics, quotes: seq<PutQuote>, k: nat)
    requires k < |quotes| && PassesScreen(daysToExp, spot, iv, num, quotes[k])
    ensures var o := QuoteOpportunity(symbol, exp, daysToExp, spot, iv, num, quotes[k]);
            && o.Some? && o.value.strike == quotes[k].strike
            && o.value.bid == quotes[k].bid && o.value.ask == quotes[k].ask
            && o.value in ChainOpportunities(symbol, exp, daysToExp, spot, iv, num, quotes)
  {
    var init := quotes[..|quotes| - 1];
    if k < |quotes| - 1 {
      assert init[k] == quotes[k];
      ChainComplete(symbol, exp, daysToExp, spot, iv, num, init, k);
    }
  }

  /** Opportunities of an earlier expiration stay in the scan's result when later ones are added. */
  lemma {:induction false} ExpiriesComplete(symbol: string, today: Day, spot: real, iv: real,
                                            num: Numerics, puts: Day -> seq<PutQuote>, exps: seq<Day>,
                                            j: nat, o: Opportunity)
    requires j < |exps|
    requires o in ChainOpportunities(symbol, exps[j], exps[j] - today, spot, iv, num, puts(exps[j]))
    ensures o in ExpiriesOpportunities(symbol, today, spot, iv, num, puts, exps)
  {
    var init := exps[..|exps| - 1];
    if j < |exps| - 1 {
      assert init[j] == exps[j];
      ExpiriesComplete(symbol, today, spot, iv, num, puts, init, j, o);
    }
  }

  /**
   * The scan is complete: a put row of an expiration inside the window that
   * passes the screen is among the candidates `analyze_csp_options` collects.
   */
  lemma CandidatesComplete(symbol: string, market: MarketSnapshot, today: Day, num: Numerics,
                           exp: Day, k: nat)
    requires exp in market.expirationDates && InExpiryWindow(today, exp)
    requires k < |market.puts(exp)|
    requires PassesScreen(exp - today, market.currentPrice, VolatilityEstimate(num, market.closes),
                          num, market.puts(exp)[k])
    ensures var o := QuoteOpportunity(symbol, exp, exp - today, market.currentPrice,
                                      VolatilityEstimate(num, market.closes), num, market.puts(exp)[k]);
            o.Some? && o.value in CspCandidates(symbol, market, today, num)
  {
    var iv := VolatilityEstimate(num, market.closes);
    var exps := WindowFilter(today, market.expirationDates);
    assert exp in exps;
    var j :| 0 <= j < |exps| && exps[j] == exp;
    ChainComplete(symbol, exp, exp - today, market.currentPrice, iv, num, market.puts(exp), k);
    var o := QuoteOpportunity(symbol, exp, exp - today, market.currentPrice, iv, num, market.puts(exp)[k]);
    ExpiriesComplete(symbol, today, market.currentPrice, iv, num, market.puts, exps, j, o.value);
  }

  /** The inner loop of `analyze_csp_options` over one expiration's put rows. */
  method ScanChain(symbol: string, exp: Day, daysToExp: int, spot: real, iv: real, num: Numerics,
                   puts: seq<PutQuote>)
    returns (found: seq<Opportunity>)
    ensures found == ChainOpportunities(symbol, exp, daysToExp, spot, iv, num, puts)
  {
    found := [];
    var timeToExp := daysToExp as real / DaysPerYear;
    for j := 0 to |puts|
      invariant found == ChainOpportunities(symbol, exp, daysToExp, spot, iv, num, puts[..j])
    {
      var q := puts[j];
      assert puts[..j + 1][..j] == puts[..j];
      if q.bid <= 0.0 || q.ask <= 0.0 {
        assert QuoteOpportunity(symbol, exp, daysToExp, spot, iv, num, q).None?;
        continue;
      }
      var premium := (q.bid + q.ask) / 2.0;
      var delta := BlackScholesDelta(num, spot, q.strike, timeToExp, RiskFreeRate, iv, Put);
      var absDelta := Abs(delta);
      if MinAbsDelta <= absDelta <= MaxAbsDelta {
        var premiumPercentage := premium / q.strike * 100.0;
        var annualizedReturn := if daysToExp > 0 then premiumPercentage * DaysPerYear / daysToExp as real
                                else 0.0;
        var o := Opportunity(symbol, exp, daysToExp, q.strike, spot, q.bid, q.ask, premium,
                             delta, absDelta, premiumPercentage, annualizedReturn,
                             q.strike * SharesPerContract, premium * SharesPerContract,
                             q.strike - premium);
        assert QuoteOpportunity(symbol, exp, daysToExp, spot, iv, num, q) == Some(o);
        found := found + [o];
      } else {
        assert QuoteOpportunity(symbol, exp, daysToExp, spot, iv, num, q).None?;
      }
    }
    assert puts[..|puts|] == puts;
  }

  /** The outer loop of `analyze_csp_options` over the expirations in the window. */
  method ScanExpiries(symbol: string, today: Day, spot: real, iv: real, num: Numerics,
                      puts: Day -> seq<PutQuote>, exps: seq<Day>)
    returns (found: seq<Opportunity>)
    ensures found == ExpiriesOpportunities(symbol, today, spot, iv, num, puts, exps)
  {
    found := [];
    for i := 0 to |exps|
      invariant found == ExpiriesOpportunities(symbol, today, spot, iv, num, puts, exps[..i])
    {
      var exp := exps[i];
      var quotes := puts(exp);
      assert exps[..i + 1][..i] == exps[..i];
      if |quotes| == 0 {
        continue;
      }
      var chain := ScanChain(symbol, exp, exp - today, spot, iv, num, quotes);
      found := found + chain;
    }
    assert exps[..|exps|] == exps;
  }

  /**
   * `analyze_csp_options` on fetched data: every put quote of every expiration in
   * the window is skipped without a two-sided market, priced, kept when its delta
   * is in the band, and the list is ranked by premium percentage, highest first.
   */
  method AnalyzeCspOptions(symbol: string, market: MarketSnapshot, today: Day, num: Numerics)
    returns (ops: seq<Opportunity>)
    ensures ops == Sorting.SortDescBy(CspCandidates(symbol, market, today, num), PremiumPercentage)
    ensures Sorting.SortedDesc(ops, PremiumPercentage)
    ensures forall k :: 0 <= k < |ops| ==> Surfaced(ops[k], symbol, today)
  {
    var data := GetOptionsData(symbol, market, today, num);
    if data.None? {
      assert WindowFilter(today, market.expirationDates) == [];
      return [];
    }
    assert data.value.expirationDates == WindowFilter(today, market.expirationDates);
    var found := ScanExpiries(symbol, today, data.value.currentPrice, data.value.impliedVolatility,
                              num, market.puts, data.value.expirationDates);
    ops := Sorting.SortDescBy(found, PremiumPercentage);
    RankedSurfaced(symbol, market, today, num);
  }

  /** Ranking keeps every candidate's invariants. */
  lemma RankedSurfaced(symbol: string, market: MarketSnapshot, today: Day, num: Numerics)
    ensures var ops := Sorting.SortDescBy(CspCandidates(symbol, market, today, num), PremiumPercentage);
            forall k :: 0 <= k < |ops| ==> Surfaced(ops[k], symbol, today)
  {
    CandidatesSurfaced(symbol, market, today, num);
    var ops := Sorting.SortDescBy(CspCandidates(symbol, market, today, num), PremiumPercentage);
    forall k | 0 <= k < |ops| ensures Surfaced(ops[k], symbol, today) {
      assert ops[k] in multiset(ops);
    }
  }
}
