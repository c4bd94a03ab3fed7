/**
 * The capital allocator of portfolio_optimizer.py: `calculate_contracts_and_allocation`
 * and `_maximize_capital_utilization`, which spreads a fixed budget over one
 * cash-secured put per symbol in three steps (a seed contract count per symbol,
 * a greedy loop that buys the contract with the best premium per dollar, and a
 * single correction step), then reports the totals.
 *
 * Money is an exact `real`; a contract count is an `int`.
 */
module CapitalAllocation {
  import opened Wrappers
  import opened OptionsAnalyzer
  import Stats

  /** The optimizer's settings: its budget and the per-symbol fractions of it. */
  datatype Config = Config(totalCapital: real, minAllocationPerStock: real, maxAllocationPerStock: real)

  /** `PortfolioOptimizer()` with its default budget. */
  const DefaultConfig: Config := Config(100000.0, 0.15, 0.60)

  /** One entry of the `allocations` list: the put sold for one symbol and its size. */
  datatype Leg = Leg(symbol: string, option: Opportunity, allocatedCapital: real,
                     actualAllocation: real, contracts: int, premium: real)

  /** The record `_maximize_capital_utilization` returns. */
  datatype Allocation = Allocation(legs: seq<Leg>, totalAllocatedCapital: real, totalPremium: real,
                                   totalPremiumPercentage: real, unusedCapital: real,
                                   capitalEfficiency: real)

  /** Cash held back per contract: a hundred shares at the strike. */
  function Collateral(o: Opportunity): real {
    o.strike * SharesPerContract
  }

  /** Premium earned per dollar of collateral for one more contract. */
  function GainRatio(o: Opportunity): real
    requires o.strike > 0.0
  {
    o.premium * SharesPerContract / Collateral(o)
  }

  predicate PositiveStrikes(combo: seq<Opportunity>) {
    forall i :: 0 <= i < |combo| ==> combo[i].strike > 0.0
  }

  predicate LegStrikes(legs: seq<Leg>) {
    forall i :: 0 <= i < |legs| ==> legs[i].option.strike > 0.0
  }

  /** Python's `int()` on a float: truncation toward zero. */
  function Trunc(x: real): (n: int)
    ensures x >= 0.0 ==> 0 <= n && n as real <= x < n as real + 1.0
    ensures x < 0.0 ==> n <= 0 && n as real - 1.0 < x <= n as real
  {
    if x >= 0.0 then x.Floor else -((-x).Floor)
  }

  function Max(a: int, b: int): int {
    if a >= b then a else b
  }

  /**
   * `calculate_contracts_and_allocation`: the whole contracts `capital` pays for,
   * the collateral they hold and the premium they earn.
   */
  function CalculateContractsAndAllocation(o: Opportunity, capital: real): (r: (int, real, real))
    requires o.strike > 0.0
    ensures r.1 == r.0 as real * Collateral(o)
    ensures r.2 == r.0 as real * o.premium * SharesPerContract
    ensures capital >= 0.0 ==> 0 <= r.0 && 0.0 <= r.1 <= capital < r.1 + Collateral(o)
  {
    var c := Collateral(o);
    var n := Trunc(capital / c);
    WholeContracts(capital, c, n as real);
    (n, n as real * c, n as real * o.premium * SharesPerContract)
  }

  /** Capital that is an exact multiple of the collateral buys exactly that many contracts. */
  lemma CalculateExact(o: Opportunity, n: nat)
    requires o.strike > 0.0
    ensures CalculateContractsAndAllocation(o, n as real * Collateral(o)).0 == n
  {
    MulDiv(n as real, Collateral(o));
  }

  /** The seed pass's contract count for one symbol: its minimum share of the budget, at least one. */
  function SeedContracts(cfg: Config, o: Opportunity): (n: nat)
    requires o.strike > 0.0
    ensures n >= 1
  {
    Max(1, Trunc(cfg.totalCapital * cfg.minAllocationPerStock / Collateral(o)))
  }

  /** What the seed contracts cost (`min_allocation`). */
  function SeedCost(cfg: Config, o: Opportunity): (r: real)
    requires o.strike > 0.0
    ensures r >= Collateral(o) > 0.0
  {
    SeedContracts(cfg, o) as real * Collateral(o)
  }

  /**
   * The seed pass over the first `k` symbols: the legs it has built and the
   * capital that remains, or None once a seed no longer fits.
   */
  function SeedPass(cfg: Config, symbols: seq<string>, combo: seq<Opportunity>, k: nat)
    : (r: Option<(seq<Leg>, real)>)
    requires k <= |symbols| == |combo| && PositiveStrikes(combo)
    ensures r.Some? ==> |r.value.0| == k && LegStrikes(r.value.0)
  {
    if k == 0 then Some(([], cfg.totalCapital))
    else
      match SeedPass(cfg, symbols, combo, k - 1)
      case None => None
      case Some(state) =>
        var o := combo[k - 1];
        if SeedCost(cfg, o) > state.1 then None
        else
          var leg := SeedLeg(cfg, symbols[k - 1], o);
          Some((state.0 + [leg], state.1 - leg.actualAllocation))
  }

  /** The seed pass's leg for one symbol: `calculate_contracts_and_allocation` at its seed cost. */
  function SeedLeg(cfg: Config, symbol: string, o: Opportunity): Leg
    requires o.strike > 0.0
  {
    var minAllocation := SeedCost(cfg, o);
    var bought := CalculateContractsAndAllocation(o, minAllocation);
    Leg(symbol, o, minAllocation, bought.1, bought.0, bought.2)
  }

  function SumActual(legs: seq<Leg>): real {
    if legs == [] then 0.0 else SumActual(legs[..|legs| - 1]) + legs[|legs| - 1].actualAllocation
  }

  function SumPremium(legs: seq<Leg>): real {
    if legs == [] then 0.0 else SumPremium(legs[..|legs| - 1]) + legs[|legs| - 1].premium
  }

  /** Whether one more contract of `leg` fits the remaining budget and the per-symbol cap. */
  predicate CanTake(cfg: Config, leg: Leg, remaining: real) {
    && Collateral(leg.option) <= remaining
    && leg.actualAllocation + Collateral(leg.option) <= cfg.totalCapital * cfg.maxAllocationPerStock
  }

  /** `leg` with one more contract. */
  function AddContract(leg: Leg): Leg {
    leg.(contracts := leg.contracts + 1,
         actualAllocation := leg.actualAllocation + Collateral(leg.option),
         premium := leg.premium + leg.option.premium * SharesPerContract)
  }

  /**
   * The scan for the best addition over `legs[..n]`: the index chosen so far and
   * its gain ratio, starting from no index and a gain of 0 and moving only to a
   * strictly better takable leg.
   */
  function Best(cfg: Config, legs: seq<Leg>, remaining: real, n: nat): (int, real)
    requires n <= |legs| && LegStrikes(legs)
  {
    if n == 0 then (-1, 0.0)
    else
      var prev := Best(cfg, legs, remaining, n - 1);
      var leg := legs[n - 1];
      if CanTake(cfg, leg, remaining) && GainRatio(leg.option) > prev.1 then (n - 1, GainRatio(leg.option))
      else prev
  }

  function BestIndex(cfg: Config, legs: seq<Leg>, remaining: real): int
    requires LegStrikes(legs)
  {
    Best(cfg, legs, remaining, |legs|).0
  }

  /** A takable leg that earns something. */
  predicate Improves(cfg: Config, leg: Leg, remaining: real)
    requires leg.option.strike > 0.0
  {
    CanTake(cfg, leg, remaining) && GainRatio(leg.option) > 0.0
  }

  /**
   * The scan finds nothing exactly when no leg is takable at a positive gain;
   * otherwise it finds a takable leg of the highest gain, the first of them.
   */
  lemma {:induction false} BestIsArgmax(cfg: Config, legs: seq<Leg>, remaining: real, n: nat)
    requires n <= |legs| && LegStrikes(legs)
    ensures var (i, g) := Best(cfg, legs, remaining, n);
            && (i == -1 <==> forall j :: 0 <= j < n ==> !Improves(cfg, legs[j], remaining))
            && (i == -1 ==> g == 0.0)
            && (i != -1 ==> 0 <= i < n && Improves(cfg, legs[i], remaining) && g == GainRatio(legs[i].option))
            && (i != -1 ==> forall j :: 0 <= j < n && CanTake(cfg, legs[j], remaining)
                                        ==> GainRatio(legs[j].option) <= g)
            && (i != -1 ==> forall j :: 0 <= j < i && CanTake(cfg, legs[j], remaining)
                                        ==> GainRatio(legs[j].option) < g)
  {
    if n > 0 {
      BestIsArgmax(cfg, legs, remaining, n - 1);
    }
  }

  /** The smallest collateral among the legs (`min_contract_cost`). */
  function MinCollateral(legs: seq<Leg>): (m: real)
    requires |legs| > 0
    ensures forall i :: 0 <= i < |legs| ==> m <= Collateral(legs[i].option)
    ensures exists i :: 0 <= i < |legs| && m == Collateral(legs[i].option)
  {
    if |legs| == 1 then Collateral(legs[0].option)
    else
      var m := MinCollateral(legs[..|legs| - 1]);
      var c := Collateral(legs[|legs| - 1].option);
      if m <= c then m else c
  }

  predicate SameOptions(a: seq<Leg>, b: seq<Leg>) {
    |a| == |b| && forall i :: 0 <= i < |a| ==> a[i].option == b[i].option
  }

  lemma {:induction false} MinCollateralSameOptions(a: seq<Leg>, b: seq<Leg>)
    requires |a| > 0 && SameOptions(a, b)
    ensures MinCollateral(a) == MinCollateral(b)
  {
    if |a| > 1 {
      MinCollateralSameOptions(a[..|a| - 1], b[..|b| - 1]);
    }
  }

  /** A bound on the contracts the remaining capital can still buy. */
  function Steps(legs: seq<Leg>, remaining: real): nat
    requires LegStrikes(legs)
  {
    if |legs| == 0 || remaining < 0.0 then 0
    else
      var m := MinCollateral(legs);
      assert m > 0.0;
      (remaining / m).Floor
  }

  /** Buying a contract of collateral `c` lowers the bound. */
  lemma StepsDecrease(legs: seq<Leg>, legs': seq<Leg>, remaining: real, i: nat)
    requires LegStrikes(legs) && SameOptions(legs, legs') && i < |legs|
    requires Collateral(legs[i].option) <= remaining
    ensures LegStrikes(legs')
    ensures Steps(legs', remaining - Collateral(legs[i].option)) < Steps(legs, remaining)
  {
    MinCollateralSameOptions(legs, legs');
    var m := MinCollateral(legs);
    var c := Collateral(legs[i].option);
    FloorDecrease(remaining, c, m);
    assert Steps(legs, remaining) == (remaining / m).Floor;
    if remaining - c >= 0.0 {
      assert Steps(legs', remaining - c) == ((remaining - c) / m).Floor;
    }
  }

  lemma FloorDecrease(r: real, c: real, m: real)
    requires 0.0 < m <= c <= r
    ensures ((r - c) / m).Floor < (r / m).Floor
  {
    Stats.DivMono(m, c, m);
    assert m / m == 1.0;
    var x, y := r / m, (r - c) / m;
    assert y == x - c / m;
    assert y <= x - 1.0;
    assert y.Floor as real <= y;
    assert x < x.Floor as real + 1.0;
  }

  /**
   * The greedy second pass: while some leg can take another contract at a
   * positive gain, add one to the best of them (`best_addition` is that leg's
   * collateral, never 0, so the loop's guard is `best_idx >= 0`).
   */
  function Greedy(cfg: Config, legs: seq<Leg>, remaining: real): (r: (seq<Leg>, real))
    requires LegStrikes(legs)
    ensures SameOptions(legs, r.0) && LegStrikes(r.0)
    ensures r.1 <= remaining
    ensures forall i :: 0 <= i < |r.0| ==> !Improves(cfg, r.0[i], r.1)
    decreases Steps(legs, remaining)
  {
    BestIsArgmax(cfg, legs, remaining, |legs|);
    var i := BestIndex(cfg, legs, remaining);
    if i < 0 then (legs, remaining)
    else
      var legs' := legs[i := AddContract(legs[i])];
      StepsDecrease(legs, legs', remaining, i);
      Greedy(cfg, legs', remaining - Collateral(legs[i].option))
  }

  /** The first leg from index `j` on that can take another contract, or -1. */
  function FirstTakable(cfg: Config, legs: seq<Leg>, remaining: real, j: nat): (r: int)
    requires j <= |legs|
    ensures r == -1 || j <= r < |legs|
    ensures r == -1 <==> forall k :: j <= k < |legs| ==> !CanTake(cfg, legs[k], remaining)
    ensures r != -1 ==> CanTake(cfg, legs[r], remaining)
    ensures r != -1 ==> forall k :: j <= k < r ==> !CanTake(cfg, legs[k], remaining)
    decreases |legs| - j
  {
    if j == |legs| then -1
    else if CanTake(cfg, legs[j], remaining) then j
    else FirstTakable(cfg, legs, remaining, j + 1)
  }

  /**
   * The correction step: when the unused capital covers the cheapest contract,
   * one more contract for the first leg that fits budget and cap.
   */
  function Correct(cfg: Config, legs: seq<Leg>, remaining: real): (seq<Leg>, real)
    requires |legs| > 0 && LegStrikes(legs)
  {
    if remaining >= MinCollateral(legs) then
      var j := FirstTakable(cfg, legs, remaining, 0);
      if j < 0 then (legs, remaining)
      else (legs[j := AddContract(legs[j])], remaining - Collateral(legs[j].option))
    else (legs, remaining)
  }

  /** The final metrics over the legs. */
  function Summarize(cfg: Config, legs: seq<Leg>): Allocation
    requires cfg.totalCapital != 0.0
  {
    var used := SumActual(legs);
    var premium := SumPremium(legs);
    Allocation(legs, used, premium,
               if used > 0.0 then premium / used * 100.0 else 0.0,
               cfg.totalCapital - used,
               used / cfg.totalCapital * 100.0)
  }

  /** `_maximize_capital_utilization` on values: seed, greedy loop, correction, totals. */
  function Allocate(cfg: Config, symbols: seq<string>, combo: seq<Opportunity>): Option<Allocation>
    requires |symbols| == |combo| > 0 && PositiveStrikes(combo)
  {
    match SeedPass(cfg, symbols, combo, |combo|)
    case None => None
    case Some(seeded) =>
      SeedPassInv(cfg, symbols, combo, |combo|);
      var greedy := Greedy(cfg, seeded.0, seeded.1);
      var fixed := Correct(cfg, greedy.0, greedy.1);
      Some(Summarize(cfg, fixed.0))
  }

  /** The seed costs of all symbols together. */
  function SeedTotal(cfg: Config, combo: seq<Opportunity>): real
    requires PositiveStrikes(combo)
  {
    if combo == [] then 0.0 else SeedTotal(cfg, combo[..|combo| - 1]) + SeedCost(cfg, combo[|combo| - 1])
  }

  /** What every leg of the allocation satisfies at every step. */
  predicate LegOk(cfg: Config, symbol: string, o: Opportunity, leg: Leg)
    requires o.strike > 0.0
  {
    && leg.symbol == symbol && leg.option == o
    && leg.allocatedCapital == SeedCost(cfg, o)
    && leg.contracts >= SeedContracts(cfg, o)
    && leg.actualAllocation == leg.contracts as real * Collateral(o)
    && leg.premium == leg.contracts as real * o.premium * SharesPerContract
    && (leg.contracts > SeedContracts(cfg, o) ==>
          leg.actualAllocation <= cfg.totalCapital * cfg.maxAllocationPerStock)
  }

  /**
   * The allocation invariant: one leg per symbol, holding that symbol's option,
   * at least its seed contracts, whole-contract collateral and premium, within
   * the cap once anything was added past the seed, and the unused capital is
   * the budget less what the legs hold, never negative.
   */
  predicate LegsInv(cfg: Config, symbols: seq<string>, combo: seq<Opportunity>,
                    legs: seq<Leg>, remaining: real)
  {
    && |symbols| == |combo| == |legs| && PositiveStrikes(combo)
    && (forall i :: 0 <= i < |legs| ==> LegOk(cfg, symbols[i], combo[i], legs[i]))
    && remaining == cfg.totalCapital - SumActual(legs)
    && 0.0 <= remaining
  }

  /** The legs of the seed pass over `k` symbols: each symbol's option with exactly its seed contracts. */
  predicate SeedLegs(cfg: Config, symbols: seq<string>, combo: seq<Opportunity>, k: nat, legs: seq<Leg>)
    requires k <= |symbols| == |combo| && PositiveStrikes(combo)
  {
    && |legs| == k
    && forall i :: 0 <= i < k ==>
         LegOk(cfg, symbols[i], combo[i], legs[i]) && legs[i].contracts == SeedContracts(cfg, combo[i])
  }

  /**
   * The seed pass over `k > 0` symbols fails exactly when their seed costs
   * together exceed the budget; otherwise each leg holds exactly its seed
   * contracts and the budget less their cost remains.
   */
  lemma {:induction false} SeedPassInv(cfg: Config, symbols: seq<string>, combo: seq<Opportunity>, k: nat)
    requires 0 < k <= |symbols| == |combo| && PositiveStrikes(combo)
    ensures SeedPass(cfg, symbols, combo, k).None? <==> SeedTotal(cfg, combo[..k]) > cfg.totalCapital
    ensures SeedPass(cfg, symbols, combo, k).Some? ==>
              var st := SeedPass(cfg, symbols, combo, k).value;
              && SeedLegs(cfg, symbols, combo, k, st.0)
              && st.1 == cfg.totalCapital - SeedTotal(cfg, combo[..k])
              && st.1 == cfg.totalCapital - SumActual(st.0)
              && 0.0 <= st.1 && 0.0 < cfg.totalCapital
  {
    var o := combo[k - 1];
    assert combo[..k][..k - 1] == combo[..k - 1];
    assert combo[..k][k - 1] == o;
    assert SeedTotal(cfg, combo[..k]) == SeedTotal(cfg, combo[..k - 1]) + SeedCost(cfg, o);
    if k > 1 {
      SeedPassInv(cfg, symbols, combo, k - 1);
    } else {
      assert combo[..0] == [];
    }
    match SeedPass(cfg, symbols, combo, k - 1)
    case None =>
    case Some(st) =>
      if SeedCost(cfg, o) <= st.1 {
        SeedStep(cfg, symbols, combo, k, st.0, st.1);
      }
  }

  /** A seed leg holds exactly its seed contracts, at exactly its seed cost. */
  lemma SeedLegOk(cfg: Config, symbol: string, o: Opportunity)
    requires o.strike > 0.0
    ensures var leg := SeedLeg(cfg, symbol, o);
            && LegOk(cfg, symbol, o, leg)
            && leg.contracts == SeedContracts(cfg, o)
            && leg.actualAllocation == SeedCost(cfg, o)
  {
    var n := SeedContracts(cfg, o);
    CalculateExact(o, n);
    assert SeedCost(cfg, o) == n as real * Collateral(o);
    var leg := SeedLeg(cfg, symbol, o);
    assert leg.contracts == CalculateContractsAndAllocation(o, n as real * Collateral(o)).0;
    assert leg.contracts == n;
  }

  /** One step of the seed pass extends its legs by the next symbol's seed. */
  lemma SeedStep(cfg: Config, symbols: seq<string>, combo: seq<Opportunity>, k: nat,
                 legs: seq<Leg>, remaining: real)
    requires 0 < k <= |symbols| == |combo| && PositiveStrikes(combo)
    requires SeedLegs(cfg, symbols, combo, k - 1, legs) && remaining == cfg.totalCapital - SumActual(legs)
    ensures var leg := SeedLeg(cfg, symbols[k - 1], combo[k - 1]);
            var legs' := legs + [leg];
            && SeedLegs(cfg, symbols, combo, k, legs')
            && remaining - leg.actualAllocation == cfg.totalCapital - SumActual(legs')
            && leg.actualAllocation == SeedCost(cfg, combo[k - 1])
  {
    var leg := SeedLeg(cfg, symbols[k - 1], combo[k - 1]);
    SeedLegOk(cfg, symbols[k - 1], combo[k - 1]);
    var legs' := legs + [leg];
    assert legs'[..|legs'| - 1] == legs;
    forall i | 0 <= i < k
      ensures LegOk(cfg, symbols[i], combo[i], legs'[i]) && legs'[i].contracts == SeedContracts(cfg, combo[i])
    {
      if i < k - 1 {
        assert legs'[i] == legs[i];
      } else {
        assert legs'[i] == leg;
      }
    }
  }

  /** Replacing one leg changes the sum by the difference. */
  lemma {:induction false} SumActualUpdate(legs: seq<Leg>, i: nat, leg: Leg)
    requires i < |legs|
    ensures SumActual(legs[i := leg]) == SumActual(legs) - legs[i].actualAllocation + leg.actualAllocation
  {
    var n := |legs|;
    var legs' := legs[i := leg];
    if i == n - 1 {
      assert legs'[..n - 1] == legs[..n - 1];
    } else {
      assert legs'[..n - 1] == legs[..n - 1][i := leg];
      SumActualUpdate(legs[..n - 1], i, leg);
    }
  }

  /** `k` whole collaterals fit in the capital and `k + 1` do not, once `k` is the whole part of `capital / c`. */
  lemma WholeContracts(capital: real, c: real, k: real)
    requires c > 0.0 && (capital >= 0.0 ==> k <= capital / c < k + 1.0)
    ensures capital >= 0.0 ==> k * c <= capital < k * c + c
  {
    if capital >= 0.0 {
      var q := capital / c;
      DivMul(capital, c);
      assert q * c == capital;
      MulMono(k, q, c);
      assert k * c <= capital;
      var k1 := k + 1.0;
      MulStrict(q, k1, c);
      assert capital < k1 * c;
      AddOneMul(k, c);
      assert k1 * c == k * c + c;
    }
  }

  lemma AddOneMul(a: real, c: real)
    ensures (a + 1.0) * c == a * c + c
  {}

  lemma Distribute(n: int, x: real)
    ensures (n + 1) as real * x == n as real * x + x
  {}

  /** One more contract for a leg that can take one keeps the leg's invariant. */
  lemma AddContractLegOk(cfg: Config, symbol: string, o: Opportunity, leg: Leg, remaining: real)
    requires o.strike > 0.0 && LegOk(cfg, symbol, o, leg) && CanTake(cfg, leg, remaining)
    ensures LegOk(cfg, symbol, o, AddContract(leg))
  {
    Distribute(leg.contracts, Collateral(o));
    Distribute(leg.contracts, o.premium * SharesPerContract);
  }

  /** Adding a contract to a leg that can take one keeps the invariant. */
  lemma AddContractInv(cfg: Config, symbols: seq<string>, combo: seq<Opportunity>,
                       legs: seq<Leg>, remaining: real, i: nat)
    requires LegsInv(cfg, symbols, combo, legs, remaining) && i < |legs|
    requires CanTake(cfg, legs[i], remaining)
    ensures LegsInv(cfg, symbols, combo, legs[i := AddContract(legs[i])],
                    remaining - Collateral(legs[i].option))
  {
    assert LegOk(cfg, symbols[i], combo[i], legs[i]);
    AddContractLegOk(cfg, symbols[i], combo[i], legs[i], remaining);
    SumActualUpdate(legs, i, AddContract(legs[i]));
  }

  /** The greedy pass keeps the invariant. */
  lemma {:induction false} GreedyInv(cfg: Config, symbols: seq<string>, combo: seq<Opportunity>,
                                     legs: seq<Leg>, remaining: real)
    requires LegsInv(cfg, symbols, combo, legs, remaining)
    ensures LegStrikes(legs)
    ensures var g := Greedy(cfg, legs, remaining); LegsInv(cfg, symbols, combo, g.0, g.1)
    decreases Steps(legs, remaining)
  {
    LegsInvStrikes(cfg, symbols, combo, legs, remaining);
    var i := BestIndex(cfg, legs, remaining);
    if i >= 0 {
      BestIsArgmax(cfg, legs, remaining, |legs|);
      var legs' := legs[i := AddContract(legs[i])];
      GreedyStep(cfg, legs, remaining, i, legs');
      AddContractInv(cfg, symbols, combo, legs, remaining, i);
      GreedyInv(cfg, symbols, combo, legs', remaining - Collateral(legs[i].option));
    } else {
      GreedyDone(cfg, legs, remaining);
    }
  }

  /** Legs that keep the invariant have positive strikes. */
  lemma LegsInvStrikes(cfg: Config, symbols: seq<string>, combo: seq<Opportunity>,
                       legs: seq<Leg>, remaining: real)
    requires LegsInv(cfg, symbols, combo, legs, remaining)
    ensures LegStrikes(legs)
  {
    forall k | 0 <= k < |legs| ensures legs[k].option.strike > 0.0 {
      assert LegOk(cfg, symbols[k], combo[k], legs[k]);
    }
  }

  /** A contract added anywhere cannot make another leg takable. */
  lemma AddContractKeepsFull(cfg: Config, legs: seq<Leg>, remaining: real, i: nat)
    requires LegStrikes(legs) && i < |legs| && Collateral(legs[i].option) > 0.0
    requires forall k :: 0 <= k < |legs| ==> !Improves(cfg, legs[k], remaining)
    ensures var legs', remaining' := legs[i := AddContract(legs[i])], remaining - Collateral(legs[i].option);
            forall k :: 0 <= k < |legs'| ==> !Improves(cfg, legs'[k], remaining')
  {
  }

  /** The correction step keeps the invariant and the greedy pass's maximality. */
  lemma CorrectInv(cfg: Config, symbols: seq<string>, combo: seq<Opportunity>,
                   legs: seq<Leg>, remaining: real)
    requires LegsInv(cfg, symbols, combo, legs, remaining) && |legs| > 0 && LegStrikes(legs)
    requires forall k :: 0 <= k < |legs| ==> !Improves(cfg, legs[k], remaining)
    ensures var c := Correct(cfg, legs, remaining);
            && LegsInv(cfg, symbols, combo, c.0, c.1)
            && forall k :: 0 <= k < |c.0| ==> !Improves(cfg, c.0[k], c.1)
  {
    if remaining >= MinCollateral(legs) {
      var j := FirstTakable(cfg, legs, remaining, 0);
      if j >= 0 {
        AddContractInv(cfg, symbols, combo, legs, remaining, j);
        AddContractKeepsFull(cfg, legs, remaining, j);
      }
    }
  }

  /**
   * What `_maximize_capital_utilization` promises of a result: the allocation
   * invariant, the totals summed over the legs, a budget neither exceeded nor
   * left empty, the premium percentage and efficiency of those totals, and no
   * leg that could still take a contract at a positive gain.
   */
  predicate ValidAllocation(cfg: Config, symbols: seq<string>, combo: seq<Opportunity>, a: Allocation) {
    && LegsInv(cfg, symbols, combo, a.legs, a.unusedCapital)
    && a.totalAllocatedCapital == SumActual(a.legs)
    && a.totalPremium == SumPremium(a.legs)
    && 0.0 < a.totalAllocatedCapital <= cfg.totalCapital
    && a.unusedCapital == cfg.totalCapital - a.totalAllocatedCapital
    && a.totalPremiumPercentage == a.totalPremium / a.totalAllocatedCapital * 100.0
    && a.capitalEfficiency == a.totalAllocatedCapital / cfg.totalCapital * 100.0
    && 0.0 < a.capitalEfficiency <= 100.0
    && forall i :: 0 <= i < |a.legs| ==> !Improves(cfg, a.legs[i], a.unusedCapital)
  }

  /** The legs hold more than nothing. */
  lemma {:induction false} SumActualPositive(cfg: Config, symbols: seq<string>, combo: seq<Opportunity>,
                                             legs: seq<Leg>)
    requires |symbols| == |combo| == |legs| > 0 && PositiveStrikes(combo)
    requires forall i :: 0 <= i < |legs| ==> LegOk(cfg, symbols[i], combo[i], legs[i])
    ensures SumActual(legs) > 0.0
  {
    var n := |legs|;
    var leg := legs[n - 1];
    assert LegOk(cfg, symbols[n - 1], combo[n - 1], leg);
    MulMono(1.0, leg.contracts as real, Collateral(combo[n - 1]));
    if n > 1 {
      SumActualPositive(cfg, symbols[..n - 1], combo[..n - 1], legs[..n - 1]);
    }
  }

  /**
   * The allocator refuses exactly when the seed costs together exceed the
   * budget, and otherwise returns a valid allocation.
   */
  lemma AllocateCorrect(cfg: Config, symbols: seq<string>, combo: seq<Opportunity>)
    requires |symbols| == |combo| > 0 && PositiveStrikes(combo)
    ensures Allocate(cfg, symbols, combo).None? <==> SeedTotal(cfg, combo) > cfg.totalCapital
    ensures Allocate(cfg, symbols, combo).Some? ==>
              ValidAllocation(cfg, symbols, combo, Allocate(cfg, symbols, combo).value)
  {
    var n := |combo|;
    SeedPassInv(cfg, symbols, combo, n);
    assert combo[..n] == combo && symbols[..n] == symbols;
    match SeedPass(cfg, symbols, combo, n)
    case None =>
    case Some(seeded) =>
      assert LegsInv(cfg, symbols, combo, seeded.0, seeded.1);
      GreedyInv(cfg, symbols, combo, seeded.0, seeded.1);
      var greedy := Greedy(cfg, seeded.0, seeded.1);
      CorrectInv(cfg, symbols, combo, greedy.0, greedy.1);
      var fixed := Correct(cfg, greedy.0, greedy.1);
      SummarizeValid(cfg, symbols, combo, fixed.0, fixed.1);
  }

  /** The totals over legs that keep the invariant make a valid allocation. */
  lemma SummarizeValid(cfg: Config, symbols: seq<string>, combo: seq<Opportunity>,
                       legs: seq<Leg>, remaining: real)
    requires LegsInv(cfg, symbols, combo, legs, remaining) && |legs| > 0 && cfg.totalCapital > 0.0
    requires forall k :: 0 <= k < |legs| ==> !Improves(cfg, legs[k], remaining)
    ensures ValidAllocation(cfg, symbols, combo, Summarize(cfg, legs))
  {
    SumActualPositive(cfg, symbols, combo, legs);
    var used := SumActual(legs);
    Efficiency(used, cfg.totalCapital);
  }

  lemma Efficiency(used: real, total: real)
    requires 0.0 < used <= total
    ensures 0.0 < used / total * 100.0 <= 100.0
  {
    Stats.DivMono(used, total, total);
    assert total / total == 1.0;
  }

  /**
   * With every premium positive, every leg has a positive gain, so no leg can
   * take another contract after the greedy pass and the correction step (which
   * portfolio_optimizer.py expects never to fire) changes nothing.
   */
  lemma CorrectionIdle(cfg: Config, symbols: seq<string>, combo: seq<Opportunity>)
    requires |symbols| == |combo| > 0 && PositiveStrikes(combo)
    requires forall i :: 0 <= i < |combo| ==> combo[i].premium > 0.0
    requires SeedPass(cfg, symbols, combo, |combo|).Some?
    ensures var seeded := SeedPass(cfg, symbols, combo, |combo|).value;
            var greedy := Greedy(cfg, seeded.0, seeded.1);
            && (forall i :: 0 <= i < |greedy.0| ==> !CanTake(cfg, greedy.0[i], greedy.1))
            && Correct(cfg, greedy.0, greedy.1) == greedy
  {
    var n := |combo|;
    SeedPassInv(cfg, symbols, combo, n);
    var seeded := SeedPass(cfg, symbols, combo, n).value;
    var greedy := Greedy(cfg, seeded.0, seeded.1);
    forall i | 0 <= i < |greedy.0| ensures GainRatio(greedy.0[i].option) > 0.0 {
      assert greedy.0[i].option == seeded.0[i].option;
      assert LegOk(cfg, symbols[i], combo[i], seeded.0[i]);
      GainPositive(combo[i]);
    }
    FullLegsIdle(cfg, greedy.0, greedy.1);
  }

  /** A put with a positive strike and premium earns a positive gain per dollar. */
  lemma GainPositive(o: Opportunity)
    requires o.strike > 0.0 && o.premium > 0.0
    ensures GainRatio(o) > 0.0
  {
    assert Collateral(o) > 0.0;
    assert o.premium * SharesPerContract > 0.0;
  }

  /**
   * Legs that all earn a positive gain and none of which can be improved can
   * take no contract, so the correction step leaves them alone.
   */
  lemma FullLegsIdle(cfg: Config, legs: seq<Leg>, remaining: real)
    requires |legs| > 0 && LegStrikes(legs)
    requires forall i :: 0 <= i < |legs| ==> GainRatio(legs[i].option) > 0.0 && !Improves(cfg, legs[i], remaining)
    ensures forall i :: 0 <= i < |legs| ==> !CanTake(cfg, legs[i], remaining)
    ensures Correct(cfg, legs, remaining) == (legs, remaining)
  {
  }

  /** The best-addition scan of the greedy loop. */
  method FindBestAddition(cfg: Config, legs: seq<Leg>, remaining: real)
    returns (bestIdx: int, bestAddition: real)
    requires LegStrikes(legs)
    ensures bestIdx == BestIndex(cfg, legs, remaining)
    ensures bestIdx >= 0 ==> bestIdx < |legs| && bestAddition == Collateral(legs[bestIdx].option)
    ensures bestIdx < 0 ==> bestAddition == 0.0
  {
    bestIdx, bestAddition := -1, 0.0;   // 0.0 stands for Python's falsy `None`
    var bestPremiumGain := 0.0;
    for i := 0 to |legs|
      invariant (bestIdx, bestPremiumGain) == Best(cfg, legs, remaining, i)
      invariant bestIdx >= 0 ==> bestIdx < i && bestAddition == Collateral(legs[bestIdx].option)
      invariant bestIdx < 0 ==> bestIdx == -1 && bestAddition == 0.0
    {
      var option := legs[i].option;
      var collateralPerContract := option.strike * 100.0;
      if collateralPerContract <= remaining
         && legs[i].actualAllocation + collateralPerContract <= cfg.totalCapital * cfg.maxAllocationPerStock
      {
        var premiumGain := option.premium * 100.0;
        var premiumGainRatio := premiumGain / collateralPerContract;
        if premiumGainRatio > bestPremiumGain {
          bestPremiumGain := premiumGainRatio;
          bestAddition := collateralPerContract;
          bestIdx := i;
        }
      }
    }
  }

  lemma FirstTakableIs(cfg: Config, legs: seq<Leg>, remaining: real, j: nat)
    requires j < |legs| && CanTake(cfg, legs[j], remaining)
    requires forall k :: 0 <= k < j ==> !CanTake(cfg, legs[k], remaining)
    ensures FirstTakable(cfg, legs, remaining, 0) == j
  {
    var r := FirstTakable(cfg, legs, remaining, 0);
    assert r != -1;
    assert !(r < j);
    assert !(r > j);
  }

  /** The correction step, on the legs after the greedy loop. */
  method CorrectionStep(cfg: Config, legs: seq<Leg>, remaining: real)
    returns (legs': seq<Leg>, remaining': real)
    requires |legs| > 0 && LegStrikes(legs)
    ensures (legs', remaining') == Correct(cfg, legs, remaining)
  {
    legs', remaining' := legs, remaining;
    var minContractCost := MinCollateral(legs);
    if remaining >= minContractCost {
      for j := 0 to |legs|
        invariant legs' == legs && remaining' == remaining
        invariant forall k :: 0 <= k < j ==> !CanTake(cfg, legs[k], remaining)
      {
        var leg := legs[j];
        var collateralPerContract := leg.option.strike * 100.0;
        if collateralPerContract <= remaining
           && leg.actualAllocation + collateralPerContract <= cfg.totalCapital * cfg.maxAllocationPerStock
        {
          legs' := legs[j := leg.(contracts := leg.contracts + 1,
                                  actualAllocation := leg.actualAllocation + collateralPerContract,
                                  premium := leg.premium + leg.option.premium * 100.0)];
          remaining' := remaining - collateralPerContract;
          assert CanTake(cfg, legs[j], remaining);
          FirstTakableIs(cfg, legs, remaining, j);
          assert legs' == legs[j := AddContract(legs[j])];
          break;
        }
      }
    }
  }

  /** The seed pass of `_maximize_capital_utilization`. */
  method SeedAll(cfg: Config, symbols: seq<string>, combo: seq<Opportunity>)
    returns (r: Option<(seq<Leg>, real)>)
    requires |symbols| == |combo| && PositiveStrikes(combo)
    ensures r == SeedPass(cfg, symbols, combo, |combo|)
  {
    var legs: seq<Leg> := [];
    var remaining := cfg.totalCapital;
    for i := 0 to |symbols|
      invariant SeedPass(cfg, symbols, combo, i) == Some((legs, remaining))
    {
      var option := combo[i];
      var minAllocation := SeedCost(cfg, option);   // max(1, int(min_capital / collateral)) contracts
      if minAllocation > remaining {
        SeedPassStaysNone(cfg, symbols, combo, i + 1, |combo|);
        return None;
      }
      var bought := CalculateContractsAndAllocation(option, minAllocation);
      legs := legs + [Leg(symbols[i], option, minAllocation, bought.1, bought.0, bought.2)];
      remaining := remaining - bought.1;
    }
    r := Some((legs, remaining));
  }

  /** The greedy loop of `_maximize_capital_utilization`. */
  method GreedyLoop(cfg: Config, legs0: seq<Leg>, remaining0: real)
    returns (legs: seq<Leg>, remaining: real)
    requires LegStrikes(legs0)
    ensures (legs, remaining) == Greedy(cfg, legs0, remaining0)
  {
    legs, remaining := legs0, remaining0;
    while true
      invariant LegStrikes(legs)
      invariant Greedy(cfg, legs, remaining) == Greedy(cfg, legs0, remaining0)
      decreases Steps(legs, remaining)
    {
      var bestIdx, bestAddition := FindBestAddition(cfg, legs, remaining);
      if bestIdx >= 0 && bestAddition != 0.0 {
        var leg := legs[bestIdx];
        var grown := leg.(contracts := leg.contracts + 1,
                          actualAllocation := leg.actualAllocation + bestAddition,
                          premium := leg.premium + leg.option.premium * 100.0);
        GrownIsAddContract(leg, bestAddition);
        var legs' := legs[bestIdx := grown];
        GreedyStep(cfg, legs, remaining, bestIdx, legs');
        legs, remaining := legs', remaining - bestAddition;
      } else {
        GreedyDone(cfg, legs, remaining);
        break;
      }
    }
  }

  /** The loop's field-by-field update of the best leg is one more contract. */
  lemma GrownIsAddContract(leg: Leg, bestAddition: real)
    requires bestAddition == Collateral(leg.option)
    ensures leg.(contracts := leg.contracts + 1,
                 actualAllocation := leg.actualAllocation + bestAddition,
                 premium := leg.premium + leg.option.premium * 100.0) == AddContract(leg)
  {
  }

  /** With no leg to improve the greedy pass stops where it is. */
  lemma GreedyDone(cfg: Config, legs: seq<Leg>, remaining: real)
    requires LegStrikes(legs) && BestIndex(cfg, legs, remaining) < 0
    ensures Greedy(cfg, legs, remaining) == (legs, remaining)
  {
  }

  /** One round of the greedy loop is one unfolding of `Greedy`. */
  lemma GreedyStep(cfg: Config, legs: seq<Leg>, remaining: real, i: int, legs': seq<Leg>)
    requires LegStrikes(legs) && i == BestIndex(cfg, legs, remaining) && 0 <= i < |legs|
    requires legs' == legs[i := AddContract(legs[i])]
    ensures LegStrikes(legs')
    ensures Steps(legs', remaining - Collateral(legs[i].option)) < Steps(legs, remaining)
    ensures Greedy(cfg, legs', remaining - Collateral(legs[i].option)) == Greedy(cfg, legs, remaining)
  {
    BestIsArgmax(cfg, legs, remaining, |legs|);
    StepsDecrease(legs, legs', remaining, i);
  }

  /**
   * `_maximize_capital_utilization`: seed every symbol, then buy the best
   * contract while one fits, then the correction step, then the totals.
   */
  method MaximizeCapitalUtilization(cfg: Config, symbols: seq<string>, combo: seq<Opportunity>)
    returns (r: Option<Allocation>)
    requires |symbols| == |combo| > 0 && PositiveStrikes(combo)
    ensures r == Allocate(cfg, symbols, combo)
  {
    var seeded := SeedAll(cfg, symbols, combo);
    if seeded.None? {
      return None;
    }
    SeedPassInv(cfg, symbols, combo, |combo|);
    var legs, remaining := GreedyLoop(cfg, seeded.value.0, seeded.value.1);
    legs, remaining := CorrectionStep(cfg, legs, remaining);
    ghost var greedy := Greedy(cfg, seeded.value.0, seeded.value.1);
    assert (legs, remaining) == Correct(cfg, greedy.0, greedy.1);
    r := Some(Summarize(cfg, legs));
  }

  /** Once the seed pass fails it stays failed. */
  lemma {:induction false} SeedPassStaysNone(cfg: Config, symbols: seq<string>, combo: seq<Opportunity>,
                                             k: nat, n: nat)
    requires k <= n <= |symbols| == |combo| && PositiveStrikes(combo)
    requires SeedPass(cfg, symbols, combo, k).None?
    ensures SeedPass(cfg, symbols, combo, n).None?
    decreases n - k
  {
    if k < n {
      SeedPassStaysNone(cfg, symbols, combo, k + 1, n);
    }
  }

  /**
   * Two symbols on a budget of 20000: AAA's put at strike 50 (premium 1) and
   * BBB's at strike 100 (premium 3). Each seed is one contract (5000 and
   * 10000); the greedy pass then spends the last 5000 on a second AAA contract,
   * which stays under AAA's cap of 12000, leaving nothing unused.
   */
  lemma TwoSymbolExample()
    ensures var cfg := Config(20000.0, 0.15, 0.60);
            var a := ExampleOption("AAA", 50.0, 1.0);
            var b := ExampleOption("BBB", 100.0, 3.0);
            var r := Allocate(cfg, ["AAA", "BBB"], [a, b]);
            && r.Some?
            && r.value.legs == [Leg("AAA", a, 5000.0, 10000.0, 2, 200.0), Leg("BBB", b, 10000.0, 10000.0, 1, 300.0)]
            && r.value.totalAllocatedCapital == 20000.0 && r.value.totalPremium == 500.0
            && r.value.totalPremiumPercentage == 2.5 && r.value.unusedCapital == 0.0
            && r.value.capitalEfficiency == 100.0
  {
    var cfg := Config(20000.0, 0.15, 0.60);
    var a := ExampleOption("AAA", 50.0, 1.0);
    var b := ExampleOption("BBB", 100.0, 3.0);
    var legA := Leg("AAA", a, 5000.0, 5000.0, 1, 100.0);
    var legB := Leg("BBB", b, 10000.0, 10000.0, 1, 300.0);
    var legs' := [Leg("AAA", a, 5000.0, 10000.0, 2, 200.0), legB];
    ExampleSeeds();
    ExampleGreedy();
    ExampleTotals();
    assert Correct(cfg, legs', 0.0) == (legs', 0.0);
  }

  /** The seed pass of the two-symbol example: one contract each, 5000 left. */
  lemma ExampleSeeds()
    ensures var cfg := Config(20000.0, 0.15, 0.60);
            var a := ExampleOption("AAA", 50.0, 1.0);
            var b := ExampleOption("BBB", 100.0, 3.0);
            SeedPass(cfg, ["AAA", "BBB"], [a, b], 2)
              == Some(([Leg("AAA", a, 5000.0, 5000.0, 1, 100.0), Leg("BBB", b, 10000.0, 10000.0, 1, 300.0)], 5000.0))
  {
    var cfg := Config(20000.0, 0.15, 0.60);
    var a := ExampleOption("AAA", 50.0, 1.0);
    var b := ExampleOption("BBB", 100.0, 3.0);
    var symbols, combo := ["AAA", "BBB"], [a, b];
    assert Trunc(3000.0 / 5000.0) == 0;
    assert Trunc(3000.0 / 10000.0) == 0;
    assert Trunc(5000.0 / 5000.0) == 1;
    assert Trunc(10000.0 / 10000.0) == 1;
    var legA := Leg("AAA", a, 5000.0, 5000.0, 1, 100.0);
    var legB := Leg("BBB", b, 10000.0, 10000.0, 1, 300.0);
    assert SeedLeg(cfg, "AAA", a) == legA;
    assert SeedLeg(cfg, "BBB", b) == legB;
    assert SeedContracts(cfg, a) == 1 && SeedCost(cfg, a) == 5000.0;
    assert SeedContracts(cfg, b) == 1 && SeedCost(cfg, b) == 10000.0;
    assert SeedPass(cfg, symbols, combo, 0) == Some(([], 20000.0));
    assert [] + [legA] == [legA];
    assert SeedPass(cfg, symbols, combo, 1) == Some(([legA], 15000.0));
    assert combo[1] == b && symbols[1] == "BBB";
    assert [legA] + [legB] == [legA, legB];
  }

  /** The greedy pass of the two-symbol example: one more AAA contract spends the last 5000. */
  lemma ExampleGreedy()
    ensures var cfg := Config(20000.0, 0.15, 0.60);
            var a := ExampleOption("AAA", 50.0, 1.0);
            var b := ExampleOption("BBB", 100.0, 3.0);
            var legB := Leg("BBB", b, 10000.0, 10000.0, 1, 300.0);
            Greedy(cfg, [Leg("AAA", a, 5000.0, 5000.0, 1, 100.0), legB], 5000.0)
              == ([Leg("AAA", a, 5000.0, 10000.0, 2, 200.0), legB], 0.0)
  {
    var cfg := Config(20000.0, 0.15, 0.60);
    var a := ExampleOption("AAA", 50.0, 1.0);
    var b := ExampleOption("BBB", 100.0, 3.0);
    var legA := Leg("AAA", a, 5000.0, 5000.0, 1, 100.0);
    var legB := Leg("BBB", b, 10000.0, 10000.0, 1, 300.0);
    var legs := [legA, legB];
    assert GainRatio(a) == 0.02;
    assert Best(cfg, legs, 5000.0, 1) == (0, 0.02);
    assert Best(cfg, legs, 5000.0, 2) == (0, 0.02);
    var legs' := legs[0 := AddContract(legA)];
    assert legs' == [Leg("AAA", a, 5000.0, 10000.0, 2, 200.0), legB];
    assert Best(cfg, legs', 0.0, 1) == (-1, 0.0);
    assert Best(cfg, legs', 0.0, 2) == (-1, 0.0);
    assert Greedy(cfg, legs', 0.0) == (legs', 0.0);
  }

  /** The totals of the two-symbol example's final legs. */
  lemma ExampleTotals()
    ensures var a := ExampleOption("AAA", 50.0, 1.0);
            var b := ExampleOption("BBB", 100.0, 3.0);
            var legs := [Leg("AAA", a, 5000.0, 10000.0, 2, 200.0), Leg("BBB", b, 10000.0, 10000.0, 1, 300.0)];
            SumActual(legs) == 20000.0 && SumPremium(legs) == 500.0 && MinCollateral(legs) == 5000.0
  {
    var a := ExampleOption("AAA", 50.0, 1.0);
    var b := ExampleOption("BBB", 100.0, 3.0);
    var legs := [Leg("AAA", a, 5000.0, 10000.0, 2, 200.0), Leg("BBB", b, 10000.0, 10000.0, 1, 300.0)];
    assert legs[..1] == [legs[0]] && legs[..1][..0] == [];
    assert SumActual(legs[..1]) == 10000.0;
    assert SumPremium(legs[..1]) == 200.0;
  }

  /** An opportunity with only the fields the allocator reads set. */
  function ExampleOption(symbol: string, strike: real, premium: real): Opportunity
    requires strike > 0.0
  {
    Opportunity(symbol, 0, 7, strike, strike, premium, premium, premium, -0.2, 0.2,
                premium / strike * 100.0, 0.0, strike * SharesPerContract,
                premium * SharesPerContract, strike - premium)
  }

  lemma MulMono(a: real, b: real, c: real)
    requires a <= b && c > 0.0
    ensures a * c <= b * c
  {}

  lemma MulStrict(a: real, b: real, c: real)
    requires a < b && c > 0.0
    ensures a * c < b * c
  {}

  lemma DivMul(x: real, c: real)
    requires c != 0.0
    ensures x / c * c == x
  {}

  lemma MulDiv(x: real, c: real)
    requires c != 0.0
    ensures x * c / c == x
  {}
}
