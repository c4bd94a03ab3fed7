/**
 * The expiry alignment and portfolio search of portfolio_optimizer.py:
 * `find_common_expiry_dates`, `optimize_allocation_for_expiry` (the top five
 * puts per symbol, the Cartesian product of those lists, the best combined
 * score) and `optimize_portfolio` (one portfolio per common expiry, ranked by
 * premium percentage).
 *
 * Python dicts are modelled as their insertion-ordered item lists.
 */
module PortfolioOptimizer {
  import opened Wrappers
  import opened OptionsAnalyzer
  import opened CapitalAllocation
  import Sorting

  /** A Python dict as its items in insertion order. */
  type Dict<K, V> = seq<(K, V)>

  /** Expiry date to that expiry's opportunities, for one symbol. */
  type ExpiryOptions = Dict<Day, seq<Opportunity>>

  /** Symbol to its `ExpiryOptions`: what `get_common_expiry_options` returns. */
  type SymbolOptions = Dict<string, ExpiryOptions>

  /** An allocation for one expiry, as `optimize_allocation_for_expiry` completes it. */
  datatype Portfolio = Portfolio(allocation: Allocation, expiryDate: Day, daysToExpiry: int)

  function Keys<K, V>(d: Dict<K, V>): (r: seq<K>)
    ensures |r| == |d| && forall i :: 0 <= i < |d| ==> r[i] == d[i].0
  {
    seq(|d|, i requires 0 <= i < |d| => d[i].0)
  }

  /** No key occurs twice, as in every Python dict. */
  predicate IsDict<K(==), V>(d: Dict<K, V>) {
    forall i, j :: 0 <= i < j < |d| ==> d[i].0 != d[j].0
  }

  /** `d[k]` when `k in d`. */
  function Get<K(==), V>(d: Dict<K, V>, k: K): (r: Option<V>)
    ensures r.None? <==> forall i :: 0 <= i < |d| ==> d[i].0 != k
    ensures r.Some? ==> exists i :: 0 <= i < |d| && d[i] == (k, r.value)
  {
    if d == [] then None
    else if d[0].0 == k then Some(d[0].1)
    else
      var r := Get(d[1..], k);
      assert forall i :: 1 <= i < |d| ==> d[i] == d[1..][i - 1];
      r
  }

  predicate WellFormed(data: SymbolOptions) {
    IsDict(data) && forall i :: 0 <= i < |data| ==> IsDict(data[i].1)
  }

  /** Every opportunity in the data has a positive strike, as the scanner guarantees. */
  predicate StrikesIn(data: SymbolOptions) {
    forall i, j, k :: 0 <= i < |data| && 0 <= j < |data[i].1| && 0 <= k < |data[i].1[j].1|
                      ==> data[i].1[j].1[k].strike > 0.0
  }

  /** `set(expiry_dict.keys())` */
  function KeySet<V>(d: Dict<Day, V>): (r: set<Day>)
    ensures forall k :: k in r <==> k in Keys(d)
  {
    set i | 0 <= i < |d| :: d[i].0
  }

  /** The intersection of the key sets of the first `n` symbols. */
  function CommonKeys(data: SymbolOptions, n: nat): (r: set<Day>)
    requires 1 <= n <= |data|
    ensures forall d :: d in r <==> forall i :: 0 <= i < n ==> d in Keys(data[i].1)
  {
    if n == 1 then KeySet(data[0].1) else CommonKeys(data, n - 1) * KeySet(data[n - 1].1)
  }

  /** The elements of `s` that lie in `t`, in their order in `s`. */
  function FilterIn(s: seq<Day>, t: set<Day>): (r: seq<Day>)
    ensures forall x :: x in r <==> x in s && x in t
    ensures Sorting.Distinct(s) ==> Sorting.Distinct(r)
  {
    if s == [] then []
    else
      var init, last := s[..|s| - 1], s[|s| - 1];
      assert s == init + [last];
      var r' := FilterIn(init, t);
      assert Sorting.Distinct(s) ==> last !in init by {
        if Sorting.Distinct(s) {
          assert forall j :: 0 <= j < |init| ==> init[j] == s[j] != last;
        }
      }
      r' + (if last in t then [last] else [])
  }

  /** `sorted(list(common_expiries))`, listing the set in the first symbol's key order. */
  function CommonExpiryDates(data: SymbolOptions): seq<Day> {
    if data == [] then []
    else Sorting.SortAsc(FilterIn(Keys(data[0].1), CommonKeys(data, |data|)))
  }

  /**
   * Empty data have no common expiry; otherwise the common expiries are exactly
   * the dates that are a key of every symbol's map, ascending, without repeats.
   */
  lemma CommonExpiryDatesCorrect(data: SymbolOptions)
    requires WellFormed(data)
    ensures data == [] ==> CommonExpiryDates(data) == []
    ensures Sorting.StrictlyIncreasing(CommonExpiryDates(data))
    ensures forall d :: d in CommonExpiryDates(data) <==>
                        data != [] && forall i :: 0 <= i < |data| ==> d in Keys(data[i].1)
  {
    if data != [] {
      var keys := Keys(data[0].1);
      assert Sorting.Distinct(keys) by {
        assert IsDict(data[0].1);
      }
      var listed := FilterIn(keys, CommonKeys(data, |data|));
      var r := Sorting.SortAsc(listed);
      forall d ensures d in r <==> d in listed {
        assert d in r <==> d in multiset(r);
        assert d in listed <==> d in multiset(listed);
      }
    }
  }

  /** `find_common_expiry_dates` */
  method FindCommonExpiryDates(optionsData: SymbolOptions) returns (r: seq<Day>)
    ensures r == CommonExpiryDates(optionsData)
  {
    if optionsData == [] {
      return [];
    }
    var symbolExpiries: seq<set<Day>> := [];
    for i := 0 to |optionsData|
      invariant |symbolExpiries| == i
      invariant forall k :: 0 <= k < i ==> symbolExpiries[k] == KeySet(optionsData[k].1)
    {
      symbolExpiries := symbolExpiries + [KeySet(optionsData[i].1)];
    }
    var commonExpiries := symbolExpiries[0];
    for i := 1 to |symbolExpiries|
      invariant commonExpiries == CommonKeys(optionsData, i)
    {
      commonExpiries := commonExpiries * symbolExpiries[i];
    }
    r := Sorting.SortAsc(FilterIn(Keys(optionsData[0].1), commonExpiries));
  }

  /** `[x] + t` for each `x` of `xs` in turn, and within it each `t` of `tails`. */
  function Prepend<T>(xs: seq<T>, tails: seq<seq<T>>): seq<seq<T>> {
    if xs == [] then []
    else seq(|tails|, i requires 0 <= i < |tails| => [xs[0]] + tails[i]) + Prepend(xs[1..], tails)
  }

  /** `itertools.product(*lists)`: every choice of one element per list, the first list varying slowest. */
  function Product<T>(lists: seq<seq<T>>): seq<seq<T>>
    decreases |lists|
  {
    if lists == [] then [[]] else Prepend(lists[0], Product(lists[1..]))
  }

  lemma {:induction false} PrependMembership<T>(xs: seq<T>, tails: seq<seq<T>>, c: seq<T>)
    ensures c in Prepend(xs, tails) <==> |c| > 0 && c[0] in xs && c[1..] in tails
  {
    if xs != [] {
      PrependMembership(xs[1..], tails, c);
      var front := seq(|tails|, i requires 0 <= i < |tails| => [xs[0]] + tails[i]);
      assert c in front <==> |c| > 0 && c[0] == xs[0] && c[1..] in tails by {
        if c in front {
          var i :| 0 <= i < |tails| && front[i] == c;
          assert c[1..] == tails[i];
        }
        if |c| > 0 && c[0] == xs[0] && c[1..] in tails {
          var i :| 0 <= i < |tails| && tails[i] == c[1..];
          assert front[i] == c;
        }
      }
      assert Prepend(xs, tails) == front + Prepend(xs[1..], tails);
      if |c| > 0 {
        assert c[0] in xs <==> c[0] == xs[0] || c[0] in xs[1..] by {
          assert xs == [xs[0]] + xs[1..];
        }
      }
    }
  }

  /** A combination is in the product exactly when it picks one element from each list. */
  lemma {:induction false} ProductMembership<T>(lists: seq<seq<T>>, c: seq<T>)
    ensures c in Product(lists) <==> |c| == |lists| && forall i :: 0 <= i < |c| ==> c[i] in lists[i]
    decreases |lists|
  {
    if lists == [] {
      assert c in Product(lists) <==> c == [];
    } else {
      PrependMembership(lists[0], Product(lists[1..]), c);
      if |c| == |lists| {
        ProductMembership(lists[1..], c[1..]);
        assert (forall i :: 0 <= i < |c| ==> c[i] in lists[i]) <==>
               c[0] in lists[0] && forall i :: 0 <= i < |c[1..]| ==> c[1..][i] in lists[1..][i] by {
          if c[0] in lists[0] && forall i :: 0 <= i < |c[1..]| ==> c[1..][i] in lists[1..][i] {
            forall i | 0 <= i < |c| ensures c[i] in lists[i] {
              if i > 0 {
                assert c[1..][i - 1] in lists[1..][i - 1];
              }
            }
          }
        }
      } else if |c| > 0 {
        ProductMembership(lists[1..], c[1..]);
      }
    }
  }

  /** The combined score: 70% premium percentage and 30% capital efficiency. */
  function Score(a: Allocation): real {
    a.totalPremiumPercentage * 0.7 + a.capitalEfficiency * 0.3
  }

  /** Every combination has one positive-strike option per symbol. */
  predicate Combos(symbols: seq<string>, combos: seq<seq<Opportunity>>) {
    forall k :: 0 <= k < |combos| ==> |combos[k]| == |symbols| && PositiveStrikes(combos[k])
  }

  /** The score of a combination's allocation, when `_maximize_capital_utilization` finds one. */
  function Scored(cfg: Config, symbols: seq<string>, combo: seq<Opportunity>): Option<real>
    requires |symbols| == |combo| > 0 && PositiveStrikes(combo)
  {
    match Allocate(cfg, symbols, combo)
    case None => None
    case Some(a) => Some(Score(a))
  }

  /** A combination that `_maximize_capital_utilization` accepts with a score above 0. */
  predicate Scores(cfg: Config, symbols: seq<string>, combo: seq<Opportunity>)
    requires |symbols| == |combo| > 0 && PositiveStrikes(combo)
  {
    Scored(cfg, symbols, combo).Some? && Scored(cfg, symbols, combo).value > 0.0
  }

  /**
   * The search over `scores[..n]`: the index of the best combination so far and
   * its score, starting from none and a score of 0 and moving only to a
   * strictly higher score.
   */
  function Search(scores: seq<Option<real>>, n: nat): (r: (int, real))
    requires n <= |scores|
    ensures -1 <= r.0 < n
  {
    if n == 0 then (-1, 0.0)
    else
      var prev := Search(scores, n - 1);
      if scores[n - 1].Some? && scores[n - 1].value > prev.1 then (n - 1, scores[n - 1].value) else prev
  }

  /**
   * The search finds nothing exactly when no combination scores above 0;
   * otherwise it finds a combination of the highest score, the first of them.
   */
  lemma {:induction false} SearchIsArgmax(scores: seq<Option<real>>, n: nat)
    requires n <= |scores|
    ensures var (i, s) := Search(scores, n);
            && (i == -1 <==> forall k :: 0 <= k < n ==> scores[k].None? || scores[k].value <= 0.0)
            && (i == -1 ==> s == 0.0)
            && (i != -1 ==> scores[i] == Some(s) && s > 0.0)
            && (forall k :: 0 <= k < n && scores[k].Some? ==> scores[k].value <= s)
            && (forall k :: 0 <= k < i && scores[k].Some? ==> scores[k].value < s)
  {
    if n > 0 {
      SearchIsArgmax(scores, n - 1);
    }
  }

  /** `symbol in options_data and expiry_date in options_data[symbol]` */
  predicate Listed(data: SymbolOptions, symbol: string, expiry: Day) {
    Get(data, symbol).Some? && Get(Get(data, symbol).value, expiry).Some?
  }

  /** `options_data[symbol][expiry_date]` */
  function Chain(data: SymbolOptions, symbol: string, expiry: Day): seq<Opportunity>
    requires Listed(data, symbol, expiry)
  {
    Get(Get(data, symbol).value, expiry).value
  }

  /** Each symbol's opportunities at the expiry, or None when some symbol has none listed. */
  function ExpiryLists(symbols: seq<string>, expiry: Day, data: SymbolOptions): Option<seq<seq<Opportunity>>> {
    if forall j :: 0 <= j < |symbols| ==> Listed(data, symbols[j], expiry)
    then Some(seq(|symbols|, j requires 0 <= j < |symbols| =>
                    if Listed(data, symbols[j], expiry) then Chain(data, symbols[j], expiry) else []))
    else None
  }

  /** The five opportunities of highest premium percentage, in that order (sorting is stable). */
  function TopFive(opts: seq<Opportunity>): seq<Opportunity> {
    Sorting.Take(Sorting.SortDescBy(opts, PremiumPercentage), 5)
  }

  function TopLists(lists: seq<seq<Opportunity>>): (r: seq<seq<Opportunity>>)
    ensures |r| == |lists| && forall i :: 0 <= i < |lists| ==> r[i] == TopFive(lists[i])
  {
    seq(|lists|, i requires 0 <= i < |lists| => TopFive(lists[i]))
  }

  /** The top five at most five, each of highest premium percentage among `opts`, and drawn from `opts`. */
  lemma TopFiveCorrect(opts: seq<Opportunity>)
    ensures |TopFive(opts)| == if |opts| < 5 then |opts| else 5
    ensures Sorting.SortedDesc(TopFive(opts), PremiumPercentage)
    ensures forall o :: o in TopFive(opts) ==> o in opts
    ensures forall o, i :: o in opts && o !in TopFive(opts) && 0 <= i < |TopFive(opts)| ==>
                           PremiumPercentage(TopFive(opts)[i]) >= PremiumPercentage(o)
  {
    var sorted := Sorting.SortDescBy(opts, PremiumPercentage);
    var n := |TopFive(opts)|;
    Sorting.TakeHoldsLargest(sorted, PremiumPercentage, n);
    forall o | o in TopFive(opts) ensures o in opts {
      assert o in multiset(sorted);
    }
    forall o, i | o in opts && o !in TopFive(opts) && 0 <= i < n
      ensures PremiumPercentage(TopFive(opts)[i]) >= PremiumPercentage(o)
    {
      assert o in multiset(sorted);
      var j :| 0 <= j < |sorted| && sorted[j] == o;
      assert j >= n;
    }
  }

  /** The strikes of the listed opportunities are positive, so are those of every combination. */
  lemma {:induction false} CombosPositive(symbols: seq<string>, expiry: Day, data: SymbolOptions, lists: seq<seq<Opportunity>>)
    requires StrikesIn(data) && ExpiryLists(symbols, expiry, data) == Some(lists)
    ensures Combos(symbols, Product(TopLists(lists)))
  {
    var tops := TopLists(lists);
    var combos := Product(tops);
    forall k | 0 <= k < |combos| ensures |combos[k]| == |symbols| && PositiveStrikes(combos[k]) {
      var c := combos[k];
      ProductMembership(tops, c);
      forall i | 0 <= i < |c| ensures c[i].strike > 0.0 {
        TopFiveCorrect(lists[i]);
        assert c[i] in lists[i];
        ChainStrikes(data, symbols[i], expiry, c[i]);
      }
    }
  }

  lemma ChainStrikes(data: SymbolOptions, symbol: string, expiry: Day, o: Opportunity)
    requires StrikesIn(data) && Listed(data, symbol, expiry) && o in Chain(data, symbol, expiry)
    ensures o.strike > 0.0
  {
    var inner := Get(data, symbol).value;
    var i :| 0 <= i < |data| && data[i] == (symbol, inner);
    var j :| 0 <= j < |inner| && inner[j] == (expiry, Chain(data, symbol, expiry));
    var k :| 0 <= k < |inner[j].1| && inner[j].1[k] == o;
    assert data[i].1[j].1[k] == o;
  }

  function ScoreList(cfg: Config, symbols: seq<string>, combos: seq<seq<Opportunity>>): (r: seq<Option<real>>)
    requires |symbols| > 0 && Combos(symbols, combos)
    ensures |r| == |combos| && forall k :: 0 <= k < |combos| ==> r[k] == Scored(cfg, symbols, combos[k])
  {
    seq(|combos|, k requires 0 <= k < |combos| => Scored(cfg, symbols, combos[k]))
  }

  /**
   * `optimize_allocation_for_expiry`: the best-scoring allocation over every
   * combination of the symbols' top five opportunities at the expiry, completed
   * with the expiry and the first leg's days to expiry.
   */
  function BestForExpiry(cfg: Config, symbols: seq<string>, expiry: Day, data: SymbolOptions): Option<Portfolio>
    requires |symbols| > 0 && StrikesIn(data)
  {
    match ExpiryLists(symbols, expiry, data)
    case None => None
    case Some(lists) =>
      var combos := Product(TopLists(lists));
      CombosPositive(symbols, expiry, data, lists);
      var scores := ScoreList(cfg, symbols, combos);
      var best := Search(scores, |scores|);
      if best.0 < 0 then None
      else
        SearchIsArgmax(scores, |scores|);
        var combo := combos[best.0];
        AllocateCorrect(cfg, symbols, combo);
        var a := Allocate(cfg, symbols, combo).value;
        Some(Portfolio(a, expiry, a.legs[0].option.daysToExp))
  }

  /** `c` picks, for each symbol in turn, one of its top five opportunities at the expiry. */
  predicate Candidate(symbols: seq<string>, expiry: Day, data: SymbolOptions, c: seq<Opportunity>) {
    && |c| == |symbols|
    && forall i :: 0 <= i < |c| ==> Listed(data, symbols[i], expiry) && c[i] in TopFive(Chain(data, symbols[i], expiry))
  }

  /** The candidates are exactly the combinations the search visits. */
  lemma CandidatesAreCombos(symbols: seq<string>, expiry: Day, data: SymbolOptions, lists: seq<seq<Opportunity>>, c: seq<Opportunity>)
    requires ExpiryLists(symbols, expiry, data) == Some(lists)
    ensures Candidate(symbols, expiry, data, c) <==> c in Product(TopLists(lists))
  {
    ProductMembership(TopLists(lists), c);
  }

  /** What the search tells about one candidate: it is visited, and the best score bounds its score. */
  lemma CandidateFacts(cfg: Config, symbols: seq<string>, expiry: Day, data: SymbolOptions,
                       lists: seq<seq<Opportunity>>, c: seq<Opportunity>)
    requires |symbols| > 0 && ExpiryLists(symbols, expiry, data) == Some(lists)
    requires Combos(symbols, Product(TopLists(lists))) && Candidate(symbols, expiry, data, c)
    ensures PositiveStrikes(c)
    ensures var scores := ScoreList(cfg, symbols, Product(TopLists(lists)));
            var best := Search(scores, |scores|);
            && (Scores(cfg, symbols, c) ==> best.0 >= 0)
            && (Allocate(cfg, symbols, c).Some? ==> Score(Allocate(cfg, symbols, c).value) <= best.1)
  {
    var combos := Product(TopLists(lists));
    var scores := ScoreList(cfg, symbols, combos);
    SearchIsArgmax(scores, |scores|);
    CandidatesAreCombos(symbols, expiry, data, lists, c);
    var k :| 0 <= k < |combos| && combos[k] == c;
    assert scores[k] == Scored(cfg, symbols, c);
  }

  /** No portfolio for an expiry that some symbol does not list. */
  lemma BestForExpiryMissing(cfg: Config, symbols: seq<string>, expiry: Day, data: SymbolOptions, j: nat)
    requires |symbols| > 0 && StrikesIn(data)
    requires j < |symbols| && !Listed(data, symbols[j], expiry)
    ensures BestForExpiry(cfg, symbols, expiry, data).None?
  {
  }

  /** No portfolio only when no candidate scores above 0. */
  lemma BestForExpiryNone(cfg: Config, symbols: seq<string>, expiry: Day, data: SymbolOptions, c: seq<Opportunity>)
    requires |symbols| > 0 && StrikesIn(data)
    requires BestForExpiry(cfg, symbols, expiry, data).None? && Candidate(symbols, expiry, data, c)
    ensures PositiveStrikes(c) && !Scores(cfg, symbols, c)
  {
    var lists := ExpiryLists(symbols, expiry, data).value;
    CombosPositive(symbols, expiry, data, lists);
    CandidateFacts(cfg, symbols, expiry, data, lists, c);
  }

  /**
   * A portfolio is a valid allocation of a candidate, scoring above 0, dated
   * with the expiry and the first leg's days to expiry.
   */
  lemma BestForExpirySome(cfg: Config, symbols: seq<string>, expiry: Day, data: SymbolOptions)
    requires |symbols| > 0 && StrikesIn(data)
    ensures var r := BestForExpiry(cfg, symbols, expiry, data);
            r.Some? ==>
              && r.value.expiryDate == expiry
              && Score(r.value.allocation) > 0.0
              && (exists c :: && Candidate(symbols, expiry, data, c) && PositiveStrikes(c)
                              && Allocate(cfg, symbols, c) == Some(r.value.allocation)
                              && ValidAllocation(cfg, symbols, c, r.value.allocation))
              && |r.value.allocation.legs| == |symbols|
              && r.value.daysToExpiry == r.value.allocation.legs[0].option.daysToExp
  {
    if BestForExpiry(cfg, symbols, expiry, data).Some? {
      var lists := ExpiryLists(symbols, expiry, data).value;
      var combos := Product(TopLists(lists));
      CombosPositive(symbols, expiry, data, lists);
      var scores := ScoreList(cfg, symbols, combos);
      SearchIsArgmax(scores, |scores|);
      var best := Search(scores, |scores|);
      var c := combos[best.0];
      CandidatesAreCombos(symbols, expiry, data, lists, c);
      AllocateCorrect(cfg, symbols, c);
      assert scores[best.0] == Scored(cfg, symbols, c);
    }
  }

  /** A portfolio scores at least as high as every candidate's allocation. */
  lemma BestForExpiryOptimal(cfg: Config, symbols: seq<string>, expiry: Day, data: SymbolOptions, c: seq<Opportunity>)
    requires |symbols| > 0 && StrikesIn(data)
    requires BestForExpiry(cfg, symbols, expiry, data).Some? && Candidate(symbols, expiry, data, c)
    ensures PositiveStrikes(c)
    ensures Allocate(cfg, symbols, c).Some? ==>
              Score(Allocate(cfg, symbols, c).value) <= Score(BestForExpiry(cfg, symbols, expiry, data).value.allocation)
  {
    var lists := ExpiryLists(symbols, expiry, data).value;
    var combos := Product(TopLists(lists));
    CombosPositive(symbols, expiry, data, lists);
    var scores := ScoreList(cfg, symbols, combos);
    SearchIsArgmax(scores, |scores|);
    var best := Search(scores, |scores|);
    CandidateFacts(cfg, symbols, expiry, data, lists, c);
    AllocateCorrect(cfg, symbols, combos[best.0]);
    assert scores[best.0] == Scored(cfg, symbols, combos[best.0]);
  }

  /** The `total_premium_percentage` by which portfolios are ranked. */
  function PortfolioPct(p: Portfolio): real {
    p.allocation.totalPremiumPercentage
  }

  /** The values of the `Some` entries of `rs[..n]`, in order: what the `if result:` appends keep. */
  function Somes<T>(rs: seq<Option<T>>, n: nat): (r: seq<T>)
    requires n <= |rs|
    ensures |r| <= n
  {
    if n == 0 then []
    else
      var prev := Somes(rs, n - 1);
      if rs[n - 1].Some? then prev + [rs[n - 1].value] else prev
  }

  lemma {:induction false} SomesMembership<T>(rs: seq<Option<T>>, n: nat)
    requires n <= |rs|
    ensures forall x :: x in Somes(rs, n) <==> exists k :: 0 <= k < n && rs[k] == Some(x)
  {
    if n > 0 {
      SomesMembership(rs, n - 1);
    }
  }

  /** The best portfolio of each date. */
  function Results(cfg: Config, symbols: seq<string>, data: SymbolOptions, dates: seq<Day>): (r: seq<Option<Portfolio>>)
    requires |symbols| > 0 && StrikesIn(data)
    ensures |r| == |dates| && forall k :: 0 <= k < |dates| ==> r[k] == BestForExpiry(cfg, symbols, dates[k], data)
  {
    seq(|dates|, k requires 0 <= k < |dates| => BestForExpiry(cfg, symbols, dates[k], data))
  }

  /** `optimize_portfolio` on the grouped data: one portfolio per common expiry that has one, ranked. */
  function OptimizedPortfolios(cfg: Config, symbols: seq<string>, data: SymbolOptions): seq<Portfolio>
    requires StrikesIn(data) && forall i :: 0 <= i < |data| ==> data[i].0 in symbols
  {
    if data == [] then []
    else
      var dates := CommonExpiryDates(data);
      if dates == [] then []
      else
        assert data[0].0 in symbols;
        var results := Results(cfg, symbols, data, dates);
        Sorting.SortDescBy(Somes(results, |results|), PortfolioPct)
  }

  /** The ranked portfolios: at most one per common expiry, highest premium percentage first. */
  lemma OptimizedPortfoliosSorted(cfg: Config, symbols: seq<string>, data: SymbolOptions)
    requires StrikesIn(data) && forall i :: 0 <= i < |data| ==> data[i].0 in symbols
    ensures data == [] ==> OptimizedPortfolios(cfg, symbols, data) == []
    ensures Sorting.SortedDesc(OptimizedPortfolios(cfg, symbols, data), PortfolioPct)
    ensures |OptimizedPortfolios(cfg, symbols, data)| <= |CommonExpiryDates(data)|
  {
  }

  /** Each ranked portfolio is the best of a common expiry, and every common expiry's best is ranked. */
  lemma OptimizedPortfoliosMembership(cfg: Config, symbols: seq<string>, data: SymbolOptions, p: Portfolio)
    requires StrikesIn(data) && forall i :: 0 <= i < |data| ==> data[i].0 in symbols
    requires data != []
    ensures assert data[0].0 in symbols;
            p in OptimizedPortfolios(cfg, symbols, data) <==>
            exists d :: d in CommonExpiryDates(data) && BestForExpiry(cfg, symbols, d, data) == Some(p)
  {
    var dates := CommonExpiryDates(data);
    assert data[0].0 in symbols;
    if dates != [] {
      var results := Results(cfg, symbols, data, dates);
      var found := Somes(results, |results|);
      SomesMembership(results, |results|);
      var r := Sorting.SortDescBy(found, PortfolioPct);
      assert p in r <==> p in found by {
        assert p in r <==> p in multiset(r);
        assert p in found <==> p in multiset(found);
      }
      if p in found {
        var k :| 0 <= k < |dates| && results[k] == Some(p);
        assert dates[k] in dates;
      }
      if exists d :: d in dates && BestForExpiry(cfg, symbols, d, data) == Some(p) {
        var d :| d in dates && BestForExpiry(cfg, symbols, d, data) == Some(p);
        var k :| 0 <= k < |dates| && dates[k] == d;
        assert results[k] == Some(p);
      }
    }
  }

  /** The first loop of `optimize_allocation_for_expiry`, returning early at the first symbol missing the expiry. */
  method GatherExpiryOptions(symbols: seq<string>, expiryDate: Day, optionsData: SymbolOptions)
    returns (r: Option<seq<seq<Opportunity>>>)
    ensures r == ExpiryLists(symbols, expiryDate, optionsData)
  {
    var expiryOptions: seq<seq<Opportunity>> := [];
    for i := 0 to |symbols|
      invariant |expiryOptions| == i
      invariant forall j :: 0 <= j < i ==> Listed(optionsData, symbols[j], expiryDate)
      invariant forall j :: 0 <= j < i ==> expiryOptions[j] == Chain(optionsData, symbols[j], expiryDate)
    {
      var symbolData := Get(optionsData, symbols[i]);
      if symbolData.None? {
        return None;
      }
      var chain := Get(symbolData.value, expiryDate);
      if chain.None? {
        return None;
      }
      expiryOptions := expiryOptions + [chain.value];
    }
    assert ExpiryLists(symbols, expiryDate, optionsData).Some?;
    var lists := ExpiryLists(symbols, expiryDate, optionsData).value;
    assert |lists| == |expiryOptions|;
    assert forall j :: 0 <= j < |lists| ==> lists[j] == expiryOptions[j];
    assert lists == expiryOptions;
    r := Some(expiryOptions);
  }

  /** The second loop: each symbol's top five. */
  method BestOptions(expiryOptions: seq<seq<Opportunity>>) returns (r: seq<seq<Opportunity>>)
    ensures r == TopLists(expiryOptions)
  {
    r := [];
    for i := 0 to |expiryOptions|
      invariant |r| == i
      invariant forall j :: 0 <= j < i ==> r[j] == TopFive(expiryOptions[j])
    {
      r := r + [TopFive(expiryOptions[i])];
    }
  }

  lemma ScoredIs(cfg: Config, symbols: seq<string>, combo: seq<Opportunity>, a: Option<Allocation>)
    requires |symbols| == |combo| > 0 && PositiveStrikes(combo) && a == Allocate(cfg, symbols, combo)
    ensures Scored(cfg, symbols, combo) == if a.None? then None else Some(Score(a.value))
  {
  }

  lemma SearchNext(scores: seq<Option<real>>, k: nat)
    requires k < |scores|
    ensures Search(scores, k + 1) ==
            if scores[k].Some? && scores[k].value > Search(scores, k).1 then (k, scores[k].value) else Search(scores, k)
  {
  }

  /** The third loop: the allocation of the highest combined score above 0, if any. */
  method SearchCombinations(cfg: Config, symbols: seq<string>, optionCombinations: seq<seq<Opportunity>>)
    returns (bestAllocation: Option<Allocation>, ghost bestIndex: int)
    requires |symbols| > 0 && Combos(symbols, optionCombinations)
    ensures bestIndex == Search(ScoreList(cfg, symbols, optionCombinations), |optionCombinations|).0
    ensures bestAllocation == if bestIndex < 0 then None else Allocate(cfg, symbols, optionCombinations[bestIndex])
  {
    ghost var scores := ScoreList(cfg, symbols, optionCombinations);
    bestAllocation := None;
    var bestScore := 0.0;
    bestIndex := -1;
    for k := 0 to |optionCombinations|
      invariant (bestIndex, bestScore) == Search(scores, k)
      invariant bestAllocation == if bestIndex < 0 then None else Allocate(cfg, symbols, optionCombinations[bestIndex])
    {
      var allocationResult := MaximizeCapitalUtilization(cfg, symbols, optionCombinations[k]);
      ScoredIs(cfg, symbols, optionCombinations[k], allocationResult);
      SearchNext(scores, k);
      if allocationResult.Some? {
        var combinedScore := Score(allocationResult.value);
        if combinedScore > bestScore {
          bestScore := combinedScore;
          bestAllocation := allocationResult;
          bestIndex := k;
        }
      }
    }
  }

  /** `optimize_allocation_for_expiry` */
  method OptimizeAllocationForExpiry(cfg: Config, symbols: seq<string>, expiryDate: Day, optionsData: SymbolOptions)
    returns (r: Option<Portfolio>)
    requires |symbols| > 0 && StrikesIn(optionsData)
    ensures r == BestForExpiry(cfg, symbols, expiryDate, optionsData)
  {
    var expiryOptions := GatherExpiryOptions(symbols, expiryDate, optionsData);
    if expiryOptions.None? {
      return None;
    }
    var symbolBestOptions := BestOptions(expiryOptions.value);
    var optionCombinations := Product(symbolBestOptions);
    CombosPositive(symbols, expiryDate, optionsData, expiryOptions.value);
    var bestAllocation, bestIndex := SearchCombinations(cfg, symbols, optionCombinations);
    ghost var scores := ScoreList(cfg, symbols, optionCombinations);
    SearchIsArgmax(scores, |scores|);
    if bestAllocation.Some? {
      var a := bestAllocation.value;
      AllocateCorrect(cfg, symbols, optionCombinations[bestIndex]);
      r := Some(Portfolio(a, expiryDate, a.legs[0].option.daysToExp));
    } else {
      r := None;
    }
  }

  /** `optimize_portfolio`, given what `get_common_expiry_options` gathered */
  method OptimizePortfolio(cfg: Config, symbols: seq<string>, optionsData: SymbolOptions) returns (r: seq<Portfolio>)
    requires StrikesIn(optionsData) && forall i :: 0 <= i < |optionsData| ==> optionsData[i].0 in symbols
    ensures r == OptimizedPortfolios(cfg, symbols, optionsData)
  {
    if optionsData == [] {
      return [];
    }
    var commonExpiries := FindCommonExpiryDates(optionsData);
    if commonExpiries == [] {
      return [];
    }
    assert optionsData[0].0 in symbols;
    ghost var results := Results(cfg, symbols, optionsData, commonExpiries);
    var optimizedPortfolios: seq<Portfolio> := [];
    for i := 0 to |commonExpiries|
      invariant optimizedPortfolios == Somes(results, i)
    {
      var result := OptimizeAllocationForExpiry(cfg, symbols, commonExpiries[i], optionsData);
      if result.Some? {
        optimizedPortfolios := optimizedPortfolios + [result.value];
      }
    }
    r := Sorting.SortDescBy(optimizedPortfolios, PortfolioPct);
  }
}
