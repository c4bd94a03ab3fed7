# StockWatchBoard core, modelled in Dafny

StockWatchBoard is a Streamlit dashboard for cash-secured puts (CSPs). It
scans each stock's put chain for contracts in a delta band that expire within
ten days. It then spreads a fixed budget over one put per stock, chosen from
expiry dates that every selected stock lists. It also scores news headlines
with a keyword list and summarises the day's price moves. This project models
the parts of that code that decide something, and proves what they promise:

- **OptionsAnalyzer** (`options_analyzer.dfy`):
  - the Black-Scholes delta guard, with the normal CDF kept abstract;
  - the volatility clamp;
  - the expiry window `today < exp <= today + 10`;
  - the scan of `analyze_csp_options`, as two loops (expirations, then put rows) and a stable descending sort on the premium percentage.
- **CapitalAllocation** (`capital_allocation.dfy`):
  - `calculate_contracts_and_allocation`;
  - `_maximize_capital_utilization`, with its seed pass, greedy loop, correction step and totals. Each is a method proved equal to a specification function, and the properties are proved of those functions.
- **PortfolioOptimizer** (`portfolio_optimizer.dfy`):
  - `find_common_expiry_dates`;
  - `optimize_allocation_for_expiry`, which gathers the chains, keeps the top five per symbol, forms the cartesian product and searches for the best combined score;
  - `optimize_portfolio`.
- **SentimentAnalyzer** (`sentiment_analyzer.dfy`):
  - the keyword scorer;
  - the label and the colour of a rating;
  - the loop of `analyze_multiple_articles`.
- **XlsxToParquet** (`xlsx_to_parquet.dfy`):
  - `parse_duration_specs`, as a loop over the specs with its two errors;
  - the header normalisation of `read_excel_safely`.
- **NewsFetcher** (`news_fetcher.dfy`):
  - the relative-link rule;
  - the concatenation, de-duplication by `title.lower()[:50]`, and cap of ten in `fetch_all_news`.
- **StockFetcher** (`stock_fetcher.dfy`):
  - the percent-change guard of `fetch_stock_info`;
  - `get_market_summary`.
- Support modules:
  - `Wrappers` (Option and Result);
  - `Text`: Python's `lower`, `split`, `strip`, `split(':', 1)` and `startswith`, on ASCII;
  - `Sorting`: stable descending sort, sorted-ascending set of dates, slicing;
  - `Stats`: sum, counting and mean bounds.

Modelling choices:
- Money and ratios are exact `real`s.
- Python's `int()` on a float is truncation toward zero, written out as `Trunc`.
- Calendar dates are day numbers. ISO date strings order the same way.
- Python dictionaries that are iterated are sequences of key/value pairs in insertion order. The result of `parse_duration_specs` is a Dafny `map`: `coerce_duration_columns` iterates it (xlsx_to_parquet.py:200), but the work for each column does not depend on the others, so the map loses only the order of the warnings printed for missing columns.

## Model

The table lists every member that models an operation or states a property of it. It leaves out two kinds of proof helper. The first is the real-arithmetic steps (`CapitalAllocation.AddOneMul`, `Distribute`, `MulMono`, `MulStrict`, `DivMul`, `MulDiv`, `WholeContracts`, `Stats.DivBetween`, `Stats.DivMono`) and the bookkeeping lemmas such as `CapitalAllocation.LegsInvStrikes`, `Stats.MapRealStep`, `Sorting.KeysAtLeast`, `Text.LeadingEnd`, `Text.TrailingStart` and `Text.TrimmedFrom`. The second is the pieces of the two-symbol example (`CapitalAllocation.ExampleSeeds`, `ExampleGreedy`, `ExampleTotals`, `ExampleOption`).

| member | source | states |
|---|---|---|
| OptionsAnalyzer.BlackScholesDelta | options_analyzer.py:16-31 | a non-positive time or volatility gives delta 0; a put's delta lies in [-1, 0] and a call's in [0, 1]; a non-zero delta needs positive time, volatility, spot and strike |
| OptionsAnalyzer.Clamp | options_analyzer.py:43 | `max(lo, min(hi, x))` lies in [lo, hi], is x inside the range and the nearer bound outside it |
| OptionsAnalyzer.VolatilityEstimate | options_analyzer.py:33-45 | the estimate always lies in [0.1, 2.0]; it is the 0.25 default for fewer than two closes, and the annualised deviation itself when that is already in range |
| OptionsAnalyzer.WindowFilter | options_analyzer.py:59-66 | keeps exactly the provider's expirations inside the window `today < exp <= today + 10`, and is empty iff none is |
| OptionsAnalyzer.WindowFilterCounts | options_analyzer.py:62-66 | every expiration inside the window is kept as many times as the provider lists it, and no other expiration is kept |
| OptionsAnalyzer.WindowFilterStep | options_analyzer.py:63-66 | one more listed expiration is appended at the end of the kept ones exactly when it lies in the window |
| OptionsAnalyzer.WindowFilterConcat | options_analyzer.py:62-66 | the filter keeps the provider's order: filtering two consecutive parts of the list gives the first part's kept dates, then the second part's |
| OptionsAnalyzer.ValidExpirations | options_analyzer.py:62-66 | the `append` loop returns exactly WindowFilter of the provider's dates |
| OptionsAnalyzer.GetOptionsData | options_analyzer.py:47-82 | None iff no expiration lies in the window; otherwise the record built from the spot price, the windowed expirations (non-empty) and the clamped volatility |
| OptionsAnalyzer.ScanChain | options_analyzer.py:108-158 | the loop over one chain's put rows collects exactly the chain's opportunities, in row order |
| OptionsAnalyzer.ScanExpiries | options_analyzer.py:94-161 | the loop over the windowed expirations collects exactly their opportunities, expiration by expiration |
| OptionsAnalyzer.ChainSurfaced | options_analyzer.py:113-158 | every opportunity from a chain in the window has a positive bid, ask and strike, and a mid-price premium; its delta is in the band 0.15..0.25; its derived fields are the formulas of options_analyzer.py |
| OptionsAnalyzer.ExpiriesSurfaced | options_analyzer.py:94-161 | the same invariants hold for every opportunity over all windowed expirations |
| OptionsAnalyzer.CandidatesSurfaced | options_analyzer.py:84-161 | every collected candidate of a symbol carries the invariants, including that its expiration lies in the window |
| OptionsAnalyzer.ChainComplete | options_analyzer.py:113-158 | every put row with a positive bid and ask and a delta in the band 0.15..0.25 yields an opportunity for its strike and prices among the chain's |
| OptionsAnalyzer.ExpiriesComplete | options_analyzer.py:94-161 | an opportunity of any one windowed expiration is among those of the whole scan |
| OptionsAnalyzer.CandidatesComplete | options_analyzer.py:84-161 | every put row of an expiration inside the window that passes the bid/ask and delta screen is among the collected candidates; with `CandidatesSurfaced` the candidates are exactly the screened rows |
| OptionsAnalyzer.AnalyzeCspOptions | options_analyzer.py:84-165 | the result is the stable descending sort of the candidates on premium percentage: sorted, and every entry surfaced |
| OptionsAnalyzer.RankedSurfaced | options_analyzer.py:163-164 | sorting keeps every candidate's invariants |
| Sorting.SortDescBy | options_analyzer.py:164 | `sort(key, reverse=True)`: a permutation of the input (same multiset and length) that is sorted descending on the key |
| Sorting.SortDescByStable | portfolio_optimizer.py:288 | the sort is stable: the entries with any one key value keep their input order |
| Sorting.InsertDescKeyFilter | portfolio_optimizer.py:288 | inserting into a sorted list keeps the input order among the entries of each key value |
| Sorting.TakeHoldsLargest | portfolio_optimizer.py:78-81 | the first n entries of a descending list carry keys at least those of every later entry, and stay sorted |
| Sorting.Take | news_fetcher.py:209 | `s[:n]` has length min(\|s\|, n) and is a prefix of s |
| Sorting.SortAsc | portfolio_optimizer.py:49 | `sorted(list(set))`: a permutation of the input, strictly increasing when the input has no duplicates |
| CapitalAllocation.Trunc | portfolio_optimizer.py:54 | Python's `int()` on a float: the integer part toward zero, bounded by the value on both sides |
| CapitalAllocation.CalculateContractsAndAllocation | portfolio_optimizer.py:51-58 | the contract count is the whole number of collaterals the capital pays for: actual allocation = contracts × strike × 100 ≤ capital < that + one collateral; premium = contracts × premium × 100 |
| CapitalAllocation.CalculateExact | portfolio_optimizer.py:51-58 | capital of exactly n collaterals buys exactly n contracts |
| CapitalAllocation.SeedContracts | portfolio_optimizer.py:169 | the seed count `max(1, int(min_capital / collateral))` is at least one |
| CapitalAllocation.SeedCost | portfolio_optimizer.py:170 | the seed cost covers at least one contract |
| CapitalAllocation.SeedPass | portfolio_optimizer.py:164-196 | a completed seed pass over k symbols holds k legs, all with positive strikes |
| CapitalAllocation.SeedPassInv | portfolio_optimizer.py:164-196 | the seed pass fails iff the seed costs together exceed the budget; otherwise each leg holds exactly its seed contracts at `calculate_contracts_and_allocation`'s figures, and the budget less their cost remains |
| CapitalAllocation.SeedPassStaysNone | portfolio_optimizer.py:172-173 | once a seed does not fit, the pass stays failed |
| CapitalAllocation.SeedLegOk | portfolio_optimizer.py:175-194 | the seed leg for a symbol holds its option, its seed contracts and the matching collateral and premium |
| CapitalAllocation.SeedStep | portfolio_optimizer.py:164-196 | one step of the seed pass extends the legs by the symbol's seed leg and lowers the remaining capital by its cost |
| CapitalAllocation.SeedAll | portfolio_optimizer.py:160-196 | the seed loop computes the seed pass over all symbols |
| CapitalAllocation.BestIsArgmax | portfolio_optimizer.py:201-221 | the scan for the best addition finds nothing iff no leg fits budget and cap at a positive gain; otherwise it picks a fitting leg with the highest premium per dollar, the first of equals |
| CapitalAllocation.FindBestAddition | portfolio_optimizer.py:201-221 | the inner loop returns the scan's index, with `best_addition` that leg's collateral |
| CapitalAllocation.MinCollateral | portfolio_optimizer.py:233 | `min(strike * 100)` is at most every leg's collateral and equal to one of them |
| CapitalAllocation.MinCollateralSameOptions | portfolio_optimizer.py:233 | the cheapest contract depends only on the legs' options |
| CapitalAllocation.StepsDecrease | portfolio_optimizer.py:224-228 | buying a contract strictly lowers the bound on the contracts the remaining capital can buy, so the `while True` loop terminates |
| CapitalAllocation.FloorDecrease | portfolio_optimizer.py:228 | spending at least the cheapest collateral lowers the whole number of cheapest contracts left |
| CapitalAllocation.Greedy | portfolio_optimizer.py:198-230 | the greedy pass keeps each leg's option and never raises the remaining capital; it ends with no leg that fits budget and cap at a positive gain |
| CapitalAllocation.GreedyStep | portfolio_optimizer.py:223-228 | adding the best leg's contract and continuing gives the same outcome as the whole pass |
| CapitalAllocation.GreedyDone | portfolio_optimizer.py:229-230 | when no leg can be improved, the greedy pass stops with the legs and capital unchanged |
| CapitalAllocation.GrownIsAddContract | portfolio_optimizer.py:224-227 | the loop's field-by-field update of the best leg (one more contract, its collateral, its premium × 100) is one more contract |
| CapitalAllocation.GreedyLoop | portfolio_optimizer.py:198-230 | the `while True` loop computes the greedy pass |
| CapitalAllocation.GreedyInv | portfolio_optimizer.py:198-230 | the greedy pass keeps the allocation invariant: one leg per symbol with at least its seed contracts, collateral and premium by whole contracts, within `total_capital * max_allocation_per_stock` past the seed, and remaining capital = budget − held collateral ≥ 0 |
| CapitalAllocation.AddContractLegOk | portfolio_optimizer.py:224-227 | one more contract for a leg that fits keeps that leg's invariant |
| CapitalAllocation.AddContractInv | portfolio_optimizer.py:224-228 | adding a contract that fits keeps the invariant for all legs and the remaining capital |
| CapitalAllocation.SumActualUpdate | portfolio_optimizer.py:248 | replacing one leg changes the total by exactly that leg's difference |
| CapitalAllocation.FirstTakable | portfolio_optimizer.py:237-245 | the first leg in order that fits budget and cap, or −1 iff none does |
| CapitalAllocation.FirstTakableIs | portfolio_optimizer.py:237-245 | a fitting leg with no fitting leg before it is the one found |
| CapitalAllocation.CorrectionStep | portfolio_optimizer.py:232-245 | the method computes the correction step: at most one more contract, for the first leg that fits budget and cap, and only when the remaining capital covers the cheapest contract |
| CapitalAllocation.CorrectInv | portfolio_optimizer.py:232-245 | the correction keeps the invariant and leaves no leg that fits at a positive gain |
| CapitalAllocation.AddContractKeepsFull | portfolio_optimizer.py:238-245 | after the greedy pass, one more contract leaves every leg still unable to improve |
| CapitalAllocation.CorrectionIdle | portfolio_optimizer.py:232-245 | with every premium positive, no leg can take a contract after the greedy pass, so the correction step changes nothing (the branch portfolio_optimizer.py marks "shouldn't happen") |
| CapitalAllocation.FullLegsIdle | portfolio_optimizer.py:232-245 | legs that all earn a positive gain and none of which can be improved can take no contract, so the correction step leaves them unchanged |
| CapitalAllocation.GainPositive | portfolio_optimizer.py:215-216 | a positive strike and premium give a positive premium per dollar |
| CapitalAllocation.SumActualPositive | portfolio_optimizer.py:248 | a completed allocation holds more than nothing |
| CapitalAllocation.SummarizeValid | portfolio_optimizer.py:247-260 | the totals over invariant legs form a valid allocation |
| CapitalAllocation.Efficiency | portfolio_optimizer.py:259 | capital efficiency lies in (0, 100] |
| CapitalAllocation.AllocateCorrect | portfolio_optimizer.py:155-260 | the allocator returns None iff the seed costs exceed the budget; otherwise a valid allocation: the invariant, totals that are the legs' sums, 0 < allocated ≤ budget, unused = budget − allocated, premium % = premium / allocated × 100, efficiency in (0, 100], and no leg left that could take a contract at a positive gain |
| CapitalAllocation.MaximizeCapitalUtilization | portfolio_optimizer.py:155-260 | the method (seed loop, greedy loop, correction step, totals) returns exactly the allocator's result |
| CapitalAllocation.TwoSymbolExample | portfolio_optimizer.py:155-260 | on a budget of 20000, AAA at strike 50 (premium 1) and BBB at strike 100 (premium 3) get 2 and 1 contracts, allocating 20000 for 500 premium (2.5 %), none unused, efficiency 100 % |
| PortfolioOptimizer.Keys | portfolio_optimizer.py:41-43 | `.keys()` of an insertion-ordered dictionary, in order |
| PortfolioOptimizer.Get | portfolio_optimizer.py:67-68 | the lookup finds nothing iff the key is absent, else a stored entry for it |
| PortfolioOptimizer.KeySet | portfolio_optimizer.py:41-43 | `set(expiry_dict.keys())` holds exactly the keys |
| PortfolioOptimizer.CommonKeys | portfolio_optimizer.py:45-47 | the intersection of the first n symbols' date sets holds exactly the dates every one of them lists |
| PortfolioOptimizer.FilterIn | portfolio_optimizer.py:45-49 | keeps exactly the entries in the given set, without adding duplicates |
| PortfolioOptimizer.CommonExpiryDatesCorrect | portfolio_optimizer.py:34-49 | no data gives no dates; the dates are strictly ascending, and a date is returned iff every symbol lists it |
| PortfolioOptimizer.FindCommonExpiryDates | portfolio_optimizer.py:34-49 | the method's loop computes the common expiry dates |
| PortfolioOptimizer.PrependMembership | portfolio_optimizer.py:84 | a combination from one list times the tails is a head from the list followed by a tail |
| PortfolioOptimizer.ProductMembership | portfolio_optimizer.py:84 | `itertools.product`: c is a combination iff it has one entry per list and its i-th entry comes from the i-th list |
| PortfolioOptimizer.Search | portfolio_optimizer.py:86-98 | the best index is −1 or a combination's index |
| PortfolioOptimizer.SearchIsArgmax | portfolio_optimizer.py:86-98 | the search finds nothing iff no combination has an allocation scoring above 0; otherwise it picks one with the highest score, the first of equals |
| PortfolioOptimizer.SearchNext | portfolio_optimizer.py:86-98 | one more combination moves the best only to a strictly higher score |
| PortfolioOptimizer.ScoredIs | portfolio_optimizer.py:88-94 | a combination's score is that of its allocation, or none when there is no allocation |
| PortfolioOptimizer.SearchCombinations | portfolio_optimizer.py:86-98 | the loop over the combinations returns the best index and that combination's allocation |
| PortfolioOptimizer.TopLists | portfolio_optimizer.py:76-81 | each symbol's list is cut to its top five |
| PortfolioOptimizer.TopFiveCorrect | portfolio_optimizer.py:76-81 | the top five holds min(5, n) options, is sorted descending on premium percentage, holds only options of the list, and holds none below an option it leaves out |
| PortfolioOptimizer.CombosPositive | portfolio_optimizer.py:64-84 | every combination holds one option per symbol, each with a positive strike |
| PortfolioOptimizer.ChainStrikes | portfolio_optimizer.py:64-70 | every listed option has a positive strike |
| PortfolioOptimizer.ScoreList | portfolio_optimizer.py:86-94 | the scores of the combinations, in order |
| PortfolioOptimizer.GatherExpiryOptions | portfolio_optimizer.py:64-70 | the lookup loop returns the symbols' chains for the date, or None as soon as one symbol lacks it |
| PortfolioOptimizer.BestOptions | portfolio_optimizer.py:76-81 | the loop returns each symbol's top five |
| PortfolioOptimizer.CandidatesAreCombos | portfolio_optimizer.py:76-84 | the candidates are exactly the combinations of one top-five option per symbol |
| PortfolioOptimizer.CandidateFacts | portfolio_optimizer.py:76-98 | a candidate has positive strikes, and its score is among the searched scores |
| PortfolioOptimizer.BestForExpiryMissing | portfolio_optimizer.py:66-70 | a symbol missing the date gives no portfolio |
| PortfolioOptimizer.BestForExpiryNone | portfolio_optimizer.py:86-104 | no portfolio means no candidate has an allocation scoring above 0 |
| PortfolioOptimizer.BestForExpirySome | portfolio_optimizer.py:86-104 | a portfolio is a valid allocation of a candidate scoring above 0, with one leg per symbol, dated with the expiry and the first leg's days to expiry |
| PortfolioOptimizer.BestForExpiryOptimal | portfolio_optimizer.py:86-98 | a portfolio scores at least as high as every candidate's allocation |
| PortfolioOptimizer.OptimizeAllocationForExpiry | portfolio_optimizer.py:60-104 | the method computes the expiry's best portfolio |
| PortfolioOptimizer.Somes | portfolio_optimizer.py:283-285 | the kept results number at most the results |
| PortfolioOptimizer.SomesMembership | portfolio_optimizer.py:283-285 | a portfolio is kept iff some expiry produced it |
| PortfolioOptimizer.Results | portfolio_optimizer.py:281-285 | one optimisation per common expiry, in date order |
| PortfolioOptimizer.OptimizedPortfoliosSorted | portfolio_optimizer.py:262-290 | no data gives no portfolios; the portfolios are sorted descending on premium percentage and number at most the common dates |
| PortfolioOptimizer.OptimizedPortfoliosMembership | portfolio_optimizer.py:262-290 | a portfolio is returned iff some common expiry's optimisation produced it |
| PortfolioOptimizer.OptimizePortfolio | portfolio_optimizer.py:262-290 | the method returns exactly the sorted portfolios of the common expiries |
| Text.Lower | sentiment_analyzer.py:33 | `lower()` keeps the length and lower-cases each ASCII letter |
| Text.LowerChar | sentiment_analyzer.py:33 | lower-cases an upper-case ASCII letter and keeps every other character |
| Text.LowerKeepsSpaces | sentiment_analyzer.py:33-34 | lower-casing neither creates nor removes whitespace |
| Text.Words | sentiment_analyzer.py:34 | `split()` yields non-empty words without whitespace |
| Text.WordLength | sentiment_analyzer.py:34 | a word runs up to the first whitespace |
| Text.BlankHasNoWords | sentiment_analyzer.py:34 | an all-whitespace text splits into no words |
| Text.NonBlankHasWords | sentiment_analyzer.py:34 | a text with a non-space character has a word |
| Text.IndexOf | xlsx_to_parquet.py:156 | the first index of a character, or −1 iff it is absent |
| Text.SplitOnce | xlsx_to_parquet.py:156 | `split(':', 1)`: the parts rejoin to the input around the first colon, and the head has no colon |
| Text.SplitOnceJoin | xlsx_to_parquet.py:156 | splitting `a + ':' + b` with no colon in a gives back (a, b) |
| Text.TrimStart | xlsx_to_parquet.py:157 | removes exactly the leading whitespace |
| Text.TrimEnd | xlsx_to_parquet.py:157 | removes exactly the trailing whitespace |
| Text.Strip | xlsx_to_parquet.py:157 | `strip()` cuts off only a whitespace prefix and a whitespace suffix: the result is the slice of the input between them, and it neither starts nor ends with whitespace |
| Text.StripUnchanged | xlsx_to_parquet.py:157 | a text without whitespace at its ends is unchanged by `strip()` |
| Text.LowerUnchanged | xlsx_to_parquet.py:157 | a text without upper-case letters is unchanged by `lower()` |
| SentimentAnalyzer.CountMatching | sentiment_analyzer.py:36-37 | the words containing some keyword number at most the words |
| SentimentAnalyzer.CountMatchingAppend | sentiment_analyzer.py:36-37 | the count over two word lists is the sum of their counts |
| SentimentAnalyzer.CountMatchingSingle | sentiment_analyzer.py:36-37 | one word counts 1 iff it contains a keyword |
| SentimentAnalyzer.AnalyzeTextSentiment | sentiment_analyzer.py:25-60 | empty text gives (3.0, 0.0); any other text gives a rating in [1, 5] and a confidence in [0.1, 1], and (3.0, 0.1) when no keyword matches |
| SentimentAnalyzer.RatingFormula | sentiment_analyzer.py:44-59 | with a keyword match, rating = 3 + 0.4 × (positives − negatives, clipped to ±5) and confidence = min(matches / 10, 1) |
| SentimentAnalyzer.RatingDirection | sentiment_analyzer.py:44-58 | the rating is above 3 iff positives outnumber negatives, below 3 iff the reverse, 5 iff positives lead by at least 5, and 1 iff negatives do |
| SentimentAnalyzer.BlankTextIsNeutral | sentiment_analyzer.py:30-42 | a non-empty all-whitespace text is neutral with confidence 0.1 |
| SentimentAnalyzer.SentimentLabel | sentiment_analyzer.py:62-73 | the label is one of the five names |
| SentimentAnalyzer.SentimentColor | sentiment_analyzer.py:75-82 | the colour is green, gray or red |
| SentimentAnalyzer.LabelMonotone | sentiment_analyzer.py:62-73 | a higher rating never gets a lower label |
| SentimentAnalyzer.LabelColorAgree | sentiment_analyzer.py:62-82 | away from 2.5 the colour agrees with the label: green for the positive labels, gray for Neutral, red for the negative labels; exactly 2.5 is labelled Negative but coloured gray |
| SentimentAnalyzer.ArticleText | sentiment_analyzer.py:101 | the text of an article (title, a space, content) is never empty; a dict with neither key gives the single space, and a title stored as `None` renders as "None" |
| SentimentAnalyzer.Ratings | sentiment_analyzer.py:99-103 | each article's rating, in order |
| SentimentAnalyzer.Confidences | sentiment_analyzer.py:99-104 | each article's confidence, in order |
| SentimentAnalyzer.CountPartition | sentiment_analyzer.py:109-111 | positive (≥ 3.5), negative (< 2.5) and neutral ratings together number all ratings |
| SentimentAnalyzer.ArticlesSummaryCorrect | sentiment_analyzer.py:84-120 | no articles give the fixed default; otherwise positive + negative + neutral = total, each count is its bucket's size, the average rating is the sum of the ratings over their number and lies in [1, 5], and the average confidence is the sum of the confidences over their number and lies in [0.1, 1] |
| SentimentAnalyzer.AnalyzeMultipleArticles | sentiment_analyzer.py:84-120 | the loop over the articles computes the summary |
| Stats.CountWhere | sentiment_analyzer.py:109-110 | a filtered count is at most the length |
| Stats.SumBounds | sentiment_analyzer.py:106-107 | values within [lo, hi] sum to within [n·lo, n·hi] |
| Stats.MeanBounds | sentiment_analyzer.py:106-107 | the mean of values within [lo, hi] lies within [lo, hi] |
| XlsxToParquet.AliasesAreCodes | xlsx_to_parquet.py:132-148 | every alias names one of h, m, s, and each code is its own alias |
| XlsxToParquet.AliasIsPlain | xlsx_to_parquet.py:132-148 | every alias is a non-empty lower-case word |
| XlsxToParquet.ParseSpec | xlsx_to_parquet.py:152-162 | a spec without a colon is the "expected format" error; a successful reading carries a unit code |
| XlsxToParquet.ParseSpecJoined | xlsx_to_parquet.py:156-162 | `name:unit` with a colon-free name reads as the stripped name and the alias of the stripped, lower-cased unit, or the unsupported-unit error naming the raw unit |
| XlsxToParquet.ParseSpecRoundTrip | xlsx_to_parquet.py:132-162 | writing a clean name and an alias as `name:alias` reads back as that name and the alias's code |
| XlsxToParquet.PlainUnchanged | xlsx_to_parquet.py:157 | a lower-case word is unchanged by `strip().lower()` |
| XlsxToParquet.ColonInUnitUnsupported | xlsx_to_parquet.py:156-161 | the spec is split at its first colon only, so a unit containing a colon is unsupported |
| XlsxToParquet.KeepsColon | xlsx_to_parquet.py:157 | `strip().lower()` keeps a colon |
| XlsxToParquet.ParseEach | xlsx_to_parquet.py:151-162 | each spec's reading, in order |
| XlsxToParquet.CollectErr | xlsx_to_parquet.py:151-161 | the reading fails iff some spec is malformed, and with the first malformed spec's error |
| XlsxToParquet.CollectKeys | xlsx_to_parquet.py:162-163 | a successful reading maps exactly the specs' stripped names, each to h, m or s |
| XlsxToParquet.CollectLastWins | xlsx_to_parquet.py:162 | each name maps to the unit of the last spec naming it |
| XlsxToParquet.CollectStaysErr | xlsx_to_parquet.py:153-160 | after an error nothing later changes the outcome |
| XlsxToParquet.ParseSpecSteps | xlsx_to_parquet.py:156-162 | one spec's reading taken step by step as the loop does |
| XlsxToParquet.ParseDurationSpecs | xlsx_to_parquet.py:131-163 | the loop returns exactly the reading of all specs |
| XlsxToParquet.HeaderArg | xlsx_to_parquet.py:231-235 | no header or a negative one gives none; any other header is passed on unchanged |
| NewsFetcher.AbsoluteUrl | news_fetcher.py:41-44 | a link starting with '/' is put after the site's origin; any other link is kept |
| NewsFetcher.AbsoluteUrlIdempotent | news_fetcher.py:141-145 | the link always ends the result, and absolutising the result again changes nothing |
| NewsFetcher.TitleKey | news_fetcher.py:204 | `title.lower()[:50]` is the first min(\|title\|, 50) characters of the lower-cased title |
| NewsFetcher.TitleKeyLoose | news_fetcher.py:204 | titles sharing their first fifty characters up to case share a key, and the key ignores case |
| NewsFetcher.FirstOccurrences | news_fetcher.py:203-207 | the indices kept are increasing, each the first of its key, and include every first |
| NewsFetcher.Pick | news_fetcher.py:207 | the articles at the kept indices, in order |
| NewsFetcher.DedupCorrect | news_fetcher.py:200-207 | the de-duplicated articles have pairwise different keys; every input key is represented; they keep input order; an index is kept iff its article is the first of its key |
| NewsFetcher.FirstOf | news_fetcher.py:203-207 | every article has a first article with its key, at or before it |
| NewsFetcher.LengthBound | news_fetcher.py:209 | increasing indices below n number at most n |
| NewsFetcher.GatherArticles | news_fetcher.py:192-197 | the `extend` loop returns the sources' articles one source after another |
| NewsFetcher.SeenIffNotFirst | news_fetcher.py:204-206 | a key is in `seen_titles` iff its article is not the first of that key |
| NewsFetcher.PickAppend | news_fetcher.py:207 | appending an index appends its article |
| NewsFetcher.DedupArticles | news_fetcher.py:200-207 | the `seen_titles` loop returns exactly the de-duplicated articles |
| NewsFetcher.FetchAllNews | news_fetcher.py:181-209 | the result is the first ten de-duplicated articles of all sources, so at most ten |
| StockFetcher.PercentChange | stock_fetcher.py:44 | zero when the previous close is zero; otherwise percent × previous close = change × 100 |
| StockFetcher.StockInfoOf | stock_fetcher.py:43-55 | the record keeps both prices; previous close + change = current price; the percent change is guarded as above |
| StockFetcher.PercentChangeSign | stock_fetcher.py:43-44 | with a positive previous close the percent change has the sign of the move, and previous close × (1 + percent / 100) = current price |
| StockFetcher.Changes | stock_fetcher.py:127 | the percent changes of the records, in order |
| StockFetcher.Max | stock_fetcher.py:135 | `max(changes)` is at least every change and is one of them |
| StockFetcher.Min | stock_fetcher.py:136 | `min(changes)` is at most every change and is one of them |
| StockFetcher.GetMarketSummary | stock_fetcher.py:114-137 | no data gives the empty summary; otherwise the total, the sizes of the up (> 0), down (< 0) and unchanged (= 0) buckets, the average change as the sum of the changes over their number, and a gainer and loser that bound every change and are changes themselves |
| StockFetcher.BucketsPartition | stock_fetcher.py:131-133 | up + down + unchanged = all changes |
| StockFetcher.CountAboveExtremes | stock_fetcher.py:131 | no stock is up iff no change is positive, and all are up iff every change is |
| StockFetcher.CountBelowNone | stock_fetcher.py:132 | no stock is down iff no change is negative |
| StockFetcher.MeanBetween | stock_fetcher.py:134-136 | the average change lies between the biggest loser and the biggest gainer |
| StockFetcher.ExtremesSigns | stock_fetcher.py:131-136 | some stock is up iff the biggest gainer is positive, and some is down iff the biggest loser is negative |
| StockFetcher.MarketSummaryConsistent | stock_fetcher.py:124-137 | the buckets sum to the total; the average lies between loser and gainer; up > 0 iff gainer > 0; down > 0 iff loser < 0 |

## Left out

- Market data, web scraping, databases and the user interface are external I/O and are not modelled. This covers `yfinance` quotes, chains and history, `requests`/BeautifulSoup/trafilatura, BigQuery in database.py, and Streamlit rendering (the `display_*` methods, `_generate_detailed_report`, all of app.py, spinners and progress bars). Their results enter the model as parameters: a market snapshot, put chains, article lists and price records.
- `get_common_expiry_options` only regroups scanner output by date. The model takes its result, the per-symbol date dictionaries, as input. Its keys are the requested symbols, hence the requirement that every data key is in `symbols`.
- The clock (`datetime.now()`) is a parameter `today`; `published_date` is not modelled.
- The normal CDF, logarithm, square root and standard deviation are uninterpreted parameters of `Numerics`. IEEE floating point, NaN and rounding are not modelled: money is exact.
- `SentimentAnalyzer.ArticleText`: a title or content that is neither a string nor `None` (a number, say) is rendered by `str()` in the f-string; the model's article fields hold only strings, `None` (rendered as "None") or nothing.
- `OptionsAnalyzer.BlackScholesDelta`: a non-positive spot or strike gives 0.0 here. In Python a zero spot with a positive strike gives `log(0) = -inf` and a put delta of −1.0; a zero strike gives −0.0 (or a caught division error, 0.0); a negative spot gives NaN. Every one of these lies outside the −0.25..−0.15 delta band, as 0.0 does, so the option is skipped either way.
- `lower()`, `split()` and `strip()` are modelled on ASCII letters and on the ASCII whitespace of `str.isspace` (space, tab to carriage return, U+001C to U+001F). Unicode case mapping and non-ASCII whitespace, such as U+0085, U+00A0 and U+2028, are not modelled: the model treats those characters as word characters.
- `Text.Words`: the contract says the words are non-empty and space-free, and the two lemmas beside it cover blank and non-blank texts. It is not proved that the words cover every non-space character.
- `sorted()` and `list.sort()` are library calls, modelled as a stable insertion sort with sortedness, permutation and stability proved. The code breaks ties by input order only. It sorts on the premium percentage alone, not also by symbol and strike.
- `_test_allocation` is never called and is not modelled.
- The `contracts == 0` return in the seed pass (portfolio_optimizer.py:179-180) cannot happen: the seed cost is at least one collateral, so it buys at least one contract. The model has no such branch.
- `FindBestAddition`: `best_addition` is None before a leg is found; the model uses 0.0 with index −1, and the loop guard `best_idx >= 0 and best_addition` is then the test `best_idx >= 0`, since a found collateral is never 0.
- An empty `symbols` list makes `min()` raise in portfolio_optimizer.py. The allocator and the per-expiry search require at least one symbol instead.
- Positive strikes are a precondition of the allocator (`PositiveStrikes`, `StrikesIn`). The scanner guarantees them (`OptionsAnalyzer.ChainSurfaced`), and portfolio_optimizer.py divides by the strike without a check.
- Expiry dates are day numbers, not ISO strings. The ascending order of `sorted()` on ISO dates is the numeric order.
- `fetch_stocks` (the filter on a positive price and its exception) and the choice between history and `info` prices in `fetch_stock_info` depend on fetched data and are not modelled. `StockInfoOf` starts from the two prices chosen.
- `OpenAISentimentAnalyzer` is a foreign API call. news_simulator.py is random-driven, and OptionPremiumScanner.py is mock data plus a CSV write. None of them is part of this model.
- The individual fetchers' failures (`except: continue`) are modelled as a source that contributes no articles.
