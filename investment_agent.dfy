/**
 * The allocation engine of the investment agent (agents/investment_agent.py):
 * a target stock/bond/cash split from the risk tolerance and the horizon, the
 * current shares of existing holdings and the deficits against the target,
 * growth projections, and the choice between a lump-sum, a monthly-surplus and
 * a percentages-only recommendation. Numbers are exact reals.
 */
module InvestmentAgent {
  import opened Wrappers
  import opened Text
  import opened Dict
  import opened Transactions
  import opened FinanceUtils
  import opened Planner

  // ---------------------------------------------------------------------------
  // Horizon, risk score and the target allocation

  /**
   * `horizon`: the timeframe's count, read by `int()`, when its unit starts with
   * "year"; absent otherwise, and absent when `int()` raises.
   */
  function Horizon(timeframe: Option<Timeframe>): (h: Option<int>)
    ensures h.Some? <==> timeframe.Some? && "year" <= timeframe.value.unit && ParseInt(timeframe.value.count).Some?
    ensures h.Some? && AllDigits(timeframe.value.count) ==> h.value == DigitsValue(timeframe.value.count) && h.value >= 0
    ensures h.Some? ==> h == ParseInt(timeframe.value.count)
  {
    match timeframe
    case Some(t) => if "year" <= t.unit then ParseInt(t.count) else None
    case None => None
  }

  /** A timeframe the planner extracted always gives a non-negative horizon, and gives one whenever its unit is years. */
  lemma PlannerHorizon(s: string)
    ensures FirstTimeframe(s).Some? && FirstTimeframe(s).value.unit == "year" ==>
      Horizon(FirstTimeframe(s)) == Some(DigitsValue(FirstTimeframe(s).value.count) as int)
    ensures FirstTimeframe(s).Some? && FirstTimeframe(s).value.unit != "year" ==> Horizon(FirstTimeframe(s)).None?
    ensures Horizon(FirstTimeframe(s)).Some? ==> Horizon(FirstTimeframe(s)).value >= 0
  {
    var t := FirstTimeframe(s);
    if t.Some? && t.value.unit != "year" {
      assert t.value.unit in ["month", "week", "day"];
    }
  }

  /** `risk_map.get(risk, 0.6)` with `risk` defaulting to "medium": 0.4 for low, 0.8 for high, 0.6 for anything else. */
  function RiskScore(risk: string): (r: real)
    ensures r == 0.4 <==> risk == "low"
    ensures r == 0.8 <==> risk == "high"
    ensures r == 0.6 <==> risk != "low" && risk != "high"
  {
    if risk == "low" then 0.4 else if risk == "high" then 0.8 else 0.6
  }

  /** Python truthiness of the optional horizon: present and not zero. */
  predicate HorizonSet(h: Option<int>) { h.Some? && h.value != 0 }

  /** `min(horizon / 30, 1.0) if horizon else 0.5`. */
  function TimeScore(h: Option<int>): (t: real)
    ensures t <= 1.0
    ensures !HorizonSet(h) ==> t == 0.5
    ensures h.Some? && h.value >= 0 ==> t >= 0.0
    ensures HorizonSet(h) && h.value >= 30 ==> t == 1.0
  {
    if HorizonSet(h) then
      var q := h.value as real / 30.0;
      if q < 1.0 then q else 1.0
    else 0.5
  }

  /** Three fractions of one amount. */
  datatype Allocation = Allocation(stock: real, bond: real, cash: real)

  function Max0(x: real): (r: real)
    ensures r >= 0.0 && r >= x && (r == x || r == 0.0)
  {
    if x > 0.0 then x else 0.0
  }

  /**
   * The target allocation. The three shares always add up to one: the stock share
   * never exceeds 0.84 and the cash share never exceeds 0.1, so the clamp on the
   * bond share never applies, for any integer horizon. Cash is 0.1 exactly for a
   * set horizon below five years.
   */
  function TargetAllocation(risk: string, h: Option<int>): (a: Allocation)
    ensures a.stock + a.bond + a.cash == 1.0
    ensures a.bond >= 0.0 && a.stock <= 0.84
    ensures a.cash == 0.1 <==> HorizonSet(h) && h.value < 5
    ensures a.cash == 0.05 <==> !(HorizonSet(h) && h.value < 5)
    ensures h.None? || h.value >= 0 ==> 0.43 <= a.stock
  {
    var riskScore := RiskScore(risk);
    var timeScore := TimeScore(h);
    var stock := 0.3 + 0.6 * (0.5 * riskScore + 0.5 * timeScore);
    var cash := if HorizonSet(h) && h.value < 5 then 0.1 else 0.05;
    assert h.Some? && h.value >= 1 ==> timeScore >= 1.0 / 30.0;
    Allocation(stock, Max0(1.0 - stock - cash), cash)
  }

  /** A horizon of zero is falsy, so it gives the same allocation as no horizon at all. */
  lemma ZeroHorizonIsNoHorizon(risk: string)
    ensures TargetAllocation(risk, Some(0)) == TargetAllocation(risk, None)
  {
  }

  /** The two ends of the stock share: high risk over 30 years gives 0.84, low risk over one year 0.43 with 10% cash. */
  lemma TargetExtremes()
    ensures TargetAllocation("high", Some(30)).stock == 0.84
    ensures TargetAllocation("low", Some(1)).stock == 0.43 && TargetAllocation("low", Some(1)).cash == 0.1
    ensures TargetAllocation("low", Some(1)).bond == 0.47
  {
  }

  // ---------------------------------------------------------------------------
  // Current holdings

  /** A holding: its market value and its security type, either possibly missing. */
  datatype Holding = Holding(marketValue: Option<real>, kind: Option<string>)

  /** `h.get("market_value", 0)`. */
  function MarketValue(h: Holding): (v: real)
    ensures h.marketValue.None? ==> v == 0.0
    ensures h.marketValue.Some? ==> v == h.marketValue.value
  {
    h.marketValue.GetOr(0.0)
  }

  /** `str(h.get("type")).lower()`: a missing type prints as "None". */
  function KindName(h: Holding): (k: string)
    ensures AllLower(k)
    ensures h.kind.None? ==> k == "none"
    ensures h.kind.Some? ==> |k| == |h.kind.value|
  {
    LowerStr(if h.kind.Some? then h.kind.value else "None")
  }

  /** A holding counted as stock: type `equity`, `etf` or `stock` in any case; one without a type is not. */
  predicate IsStock(h: Holding): (r: bool)
    ensures h.kind.None? ==> !r
  {
    KindName(h) in ["equity", "etf", "stock"]
  }

  /** A holding counted as a bond: type `bond` in any case; it is then never also counted as stock. */
  predicate IsBond(h: Holding): (r: bool)
    ensures h.kind.None? ==> !r
    ensures r ==> !IsStock(h)
  {
    KindName(h) == "bond"
  }

  /** The type tests ignore case: holdings whose types differ only in letter case are counted alike. */
  lemma KindIgnoresCase(h1: Holding, h2: Holding)
    requires h1.kind.Some? && h2.kind.Some? && SameUpToCase(h1.kind.value, h2.kind.value)
    ensures IsStock(h1) == IsStock(h2) && IsBond(h1) == IsBond(h2)
  {
    LowerStrIgnoresCase(h1.kind.value, h2.kind.value);
  }

  /** `sum(h.get("market_value", 0) for h in holdings)`. */
  function HoldingsValue(hs: seq<Holding>): (r: real)
    ensures (forall i :: 0 <= i < |hs| ==> MarketValue(hs[i]) >= 0.0) ==> r >= 0.0
  {
    assert forall i :: 0 <= i < |hs| - 1 ==> hs[1..][i] == hs[i + 1];
    if hs == [] then 0.0 else MarketValue(hs[0]) + HoldingsValue(hs[1..])
  }

  /** The market value of the stock-like holdings: 0 when none is stock-like, never negative when no value is. */
  function StockValue(hs: seq<Holding>): (r: real)
    ensures (forall i :: 0 <= i < |hs| ==> !IsStock(hs[i])) ==> r == 0.0
    ensures (forall i :: 0 <= i < |hs| ==> MarketValue(hs[i]) >= 0.0) ==> r >= 0.0
  {
    assert forall i :: 0 <= i < |hs| - 1 ==> hs[1..][i] == hs[i + 1];
    if hs == [] then 0.0 else (if IsStock(hs[0]) then MarketValue(hs[0]) else 0.0) + StockValue(hs[1..])
  }

  /** The market value of the bond holdings: 0 when there is no bond, never negative when no value is. */
  function BondValue(hs: seq<Holding>): (r: real)
    ensures (forall i :: 0 <= i < |hs| ==> !IsBond(hs[i])) ==> r == 0.0
    ensures (forall i :: 0 <= i < |hs| ==> MarketValue(hs[i]) >= 0.0) ==> r >= 0.0
  {
    assert forall i :: 0 <= i < |hs| - 1 ==> hs[1..][i] == hs[i + 1];
    if hs == [] then 0.0 else (if IsBond(hs[0]) then MarketValue(hs[0]) else 0.0) + BondValue(hs[1..])
  }

  /** A holding without a type is neither a stock nor a bond, since its type prints as "none". */
  lemma UntypedHoldingIsOther(h: Holding)
    requires h.kind.None?
    ensures !IsStock(h) && !IsBond(h)
  {
    assert KindName(h)[0] == 'n';
  }

  /** `x / total if total else 0`. */
  function Share(x: real, total: real): (r: real)
    ensures total == 0.0 ==> r == 0.0
    ensures total > 0.0 && x >= 0.0 ==> r >= 0.0
  {
    if total != 0.0 then x / total else 0.0
  }

  /** A share of a non-zero total, scaled back by the total, is the value it was taken of. */
  lemma ShareScales(x: real, total: real)
    requires total != 0.0
    ensures Share(x, total) * total == x
  {
  }

  /** `max(0.0, target - current) * total`. */
  function Deficit(target: real, current: real, total: real): (d: real)
    ensures total >= 0.0 ==> d >= 0.0
    ensures total == 0.0 ==> d == 0.0
  {
    var d := Max0(target - current) * total;
    assert total >= 0.0 ==> d >= 0.0 by {
      if total >= 0.0 { MulMonotone(total, 0.0, Max0(target - current)); }
    }
    d
  }

  /** The portfolio figures: its total value, the current shares and the deficits against the target. */
  datatype Portfolio = Portfolio(total: real, current: Allocation, stockDeficit: real, bondDeficit: real)

  /**
   * The portfolio block of `process`. The total is the cash balance plus the
   * holdings. An empty portfolio has zero shares and zero deficits, and for a
   * non-negative total the deficits are never negative.
   */
  function CurrentPortfolio(balance: Option<real>, hs: seq<Holding>, target: Allocation): (p: Portfolio)
    ensures p.total == balance.GetOr(0.0) + HoldingsValue(hs)
    ensures p.current == Allocation(Share(StockValue(hs), p.total), Share(BondValue(hs), p.total), Share(balance.GetOr(0.0), p.total))
    ensures p.total == 0.0 ==>
      p.current == Allocation(0.0, 0.0, 0.0) && p.stockDeficit == 0.0 && p.bondDeficit == 0.0
    ensures p.total >= 0.0 ==> p.stockDeficit >= 0.0 && p.bondDeficit >= 0.0
  {
    var total := balance.GetOr(0.0) + HoldingsValue(hs);
    var current := Allocation(Share(StockValue(hs), total), Share(BondValue(hs), total), Share(balance.GetOr(0.0), total));
    Portfolio(total, current, Deficit(target.stock, current.stock, total), Deficit(target.bond, current.bond, total))
  }

  /**
   * What is missing from `value` to reach the `share` of `total`: nothing when the
   * value already reaches it, the difference otherwise.
   */
  function Shortfall(share: real, value: real, total: real): (r: real)
    ensures r >= 0.0 && value + r >= share * total
    ensures r > 0.0 ==> value + r == share * total
  {
    Max0(share * total - value)
  }

  /** For a positive total a deficit is the amount that lifts the current value up to the target share of the total. */
  lemma DeficitsAreShortfalls(balance: Option<real>, hs: seq<Holding>, target: Allocation)
    requires CurrentPortfolio(balance, hs, target).total > 0.0
    ensures var p := CurrentPortfolio(balance, hs, target);
      && p.stockDeficit == Shortfall(target.stock, StockValue(hs), p.total)
      && p.bondDeficit == Shortfall(target.bond, BondValue(hs), p.total)
  {
    var p := CurrentPortfolio(balance, hs, target);
    DeficitIsShortfall(target.stock, StockValue(hs), p.total);
    DeficitIsShortfall(target.bond, BondValue(hs), p.total);
  }

  /** Scaling the gap between a target share and the current share by a positive total gives the value gap. */
  lemma DeficitIsShortfall(target: real, value: real, total: real)
    requires total > 0.0
    ensures Deficit(target, Share(value, total), total) == Shortfall(target, value, total)
  {
    var c := Share(value, total);
    ShareScales(value, total);
    assert (target - c) * total == target * total - c * total;
    if target - c > 0.0 {
      MulMonotone(total, 0.0, target - c);
    } else {
      MulMonotone(total, target - c, 0.0);
    }
  }

  /** Stock and bond holdings are disjoint parts of all holdings; with non-negative values they add up to at most the whole. */
  lemma {:induction false} TypedValueAtMostTotal(hs: seq<Holding>)
    requires forall i :: 0 <= i < |hs| ==> MarketValue(hs[i]) >= 0.0
    ensures StockValue(hs) + BondValue(hs) <= HoldingsValue(hs)
    ensures (forall i :: 0 <= i < |hs| ==> IsStock(hs[i]) || IsBond(hs[i])) ==> StockValue(hs) + BondValue(hs) == HoldingsValue(hs)
  {
    if hs != [] {
      var h := hs[0];
      assert forall i :: 0 <= i < |hs[1..]| ==> hs[1..][i] == hs[i + 1];
      TypedValueAtMostTotal(hs[1..]);
      StockNotBond(h);
      assert MarketValue(h) >= 0.0 by { assert h == hs[0]; }
    }
  }

  /** No holding is both stock-like and a bond. */
  lemma StockNotBond(h: Holding)
    ensures !(IsStock(h) && IsBond(h))
  {
    if IsBond(h) { assert |KindName(h)| == 4; }
  }

  /**
   * With a non-negative balance and non-negative holdings, the current shares add
   * up to at most one; exactly one when every holding is a stock or a bond.
   */
  lemma CurrentSharesAtMostOne(balance: Option<real>, hs: seq<Holding>, target: Allocation)
    requires balance.GetOr(0.0) >= 0.0
    requires forall i :: 0 <= i < |hs| ==> MarketValue(hs[i]) >= 0.0
    requires CurrentPortfolio(balance, hs, target).total > 0.0
    ensures var c := CurrentPortfolio(balance, hs, target).current; c.stock + c.bond + c.cash <= 1.0
    ensures (forall i :: 0 <= i < |hs| ==> IsStock(hs[i]) || IsBond(hs[i])) ==>
      var c := CurrentPortfolio(balance, hs, target).current; c.stock + c.bond + c.cash == 1.0
  {
    var t := balance.GetOr(0.0) + HoldingsValue(hs);
    var sv, bv, cv := StockValue(hs), BondValue(hs), balance.GetOr(0.0);
    TypedValueAtMostTotal(hs);
    SharesSum(sv, bv, cv, t);
  }

  /** Three values of a positive total whose sum is at most the total have shares adding up to at most one, and to one when they make up the total. */
  lemma SharesSum(a: real, b: real, c: real, t: real)
    requires t > 0.0 && a + b + c <= t
    ensures Share(a, t) + Share(b, t) + Share(c, t) <= 1.0
    ensures a + b + c == t ==> Share(a, t) + Share(b, t) + Share(c, t) == 1.0
  {
    var x := Share(a, t) + Share(b, t) + Share(c, t);
    ShareScales(a, t);
    ShareScales(b, t);
    ShareScales(c, t);
    assert x * t == Share(a, t) * t + Share(b, t) * t + Share(c, t) * t;
    DivideOut(x, t);
  }

  /** A factor that keeps a positive number from growing is at most one, and one when the number is unchanged. */
  lemma DivideOut(x: real, t: real)
    requires t > 0.0
    ensures x * t <= t ==> x <= 1.0
    ensures x * t == t ==> x == 1.0
  {
    if x > 1.0 {
      assert x * t - t == (x - 1.0) * t;
      MulMonotone(t, 0.0, x - 1.0);
      assert (x - 1.0) * t != 0.0;
    } else if x < 1.0 {
      assert t - x * t == (1.0 - x) * t;
      MulMonotone(t, 0.0, 1.0 - x);
      assert (1.0 - x) * t != 0.0;
    }
  }

  /**
   * A negative total (an overdrawn balance with no holdings) turns the deficit
   * negative: the non-negativity of the deficits depends on a non-negative total.
   */
  lemma OverdrawnBalanceDeficit()
    ensures CurrentPortfolio(Some(-100.0), [], TargetAllocation("medium", None)).stockDeficit < 0.0
  {
    var p := CurrentPortfolio(Some(-100.0), [], TargetAllocation("medium", None));
    assert p.total == -100.0;
    assert p.current.stock == 0.0;
  }

  // ---------------------------------------------------------------------------
  // Growth projections

  function Pow(b: real, n: nat): (r: real)
    ensures b >= 1.0 ==> r >= 1.0
  {
    if n == 0 then 1.0
    else
      var p := Pow(b, n - 1);
      assert b >= 1.0 ==> p * 1.0 <= p * b by {
        if b >= 1.0 { MulMonotone(p, 1.0, b); }
      }
      b * p
  }

  /** For a base of at least one, a larger exponent gives a larger power. */
  lemma {:induction false} PowMonotone(b: real, m: nat, n: nat)
    requires b >= 1.0 && m <= n
    ensures Pow(b, m) <= Pow(b, n)
    decreases n
  {
    if m < n {
      PowMonotone(b, m, n - 1);
      assert Pow(b, n) == b * Pow(b, n - 1);
      MulMonotone(Pow(b, n - 1), 1.0, b);
    }
  }

  /** `x * ((1 + rate) ** y)`: an amount compounded yearly. */
  function Compound(x: real, factor: real, y: nat): (r: real)
    ensures y == 0 ==> r == x
    ensures x >= 0.0 && factor >= 1.0 ==> r >= x
  {
    assert x >= 0.0 && factor >= 1.0 ==> x * 1.0 <= x * Pow(factor, y) by {
      if x >= 0.0 && factor >= 1.0 { MulMonotone(x, 1.0, Pow(factor, y)); }
    }
    x * Pow(factor, y)
  }

  /** A non-negative amount compounded at a non-negative rate does not shrink with more years. */
  lemma CompoundGrows(x: real, factor: real, y: nat, z: nat)
    requires x >= 0.0 && factor >= 1.0 && y <= z
    ensures Compound(x, factor, y) <= Compound(x, factor, z)
  {
    PowMonotone(factor, y, z);
    MulMonotone(x, Pow(factor, y), Pow(factor, z));
  }

  /**
   * The projected value after `y` years: each part compounded at 7%, 3% and 2% a
   * year, plus the starting balance when known. After no years it is the split plus
   * the balance, and a non-negative split never projects below that.
   */
  function Projected(split: Allocation, balance: Option<real>, y: nat): (r: real)
    ensures y == 0 ==> r == split.stock + split.bond + split.cash + balance.GetOr(0.0)
    ensures split.stock >= 0.0 && split.bond >= 0.0 && split.cash >= 0.0 ==>
      r >= split.stock + split.bond + split.cash + balance.GetOr(0.0)
  {
    assert split.stock >= 0.0 && split.bond >= 0.0 && split.cash >= 0.0 ==>
      Compound(split.stock, 1.07, y) >= split.stock && Compound(split.bond, 1.03, y) >= split.bond
      && Compound(split.cash, 1.02, y) >= split.cash by {
      if split.stock >= 0.0 && split.bond >= 0.0 && split.cash >= 0.0 {
        MulMonotone(split.stock, 1.0, Pow(1.07, y));
        MulMonotone(split.bond, 1.0, Pow(1.03, y));
        MulMonotone(split.cash, 1.0, Pow(1.02, y));
      }
    }
    Compound(split.stock, 1.07, y) + Compound(split.bond, 1.03, y) + Compound(split.cash, 1.02, y) + balance.GetOr(0.0)
  }

  /** With non-negative parts, the projection does not shrink over a longer period. */
  lemma ProjectionGrows(split: Allocation, balance: Option<real>, y: nat, z: nat)
    requires split.stock >= 0.0 && split.bond >= 0.0 && split.cash >= 0.0 && y <= z
    ensures Projected(split, balance, y) <= Projected(split, balance, z)
  {
    CompoundGrows(split.stock, 1.07, y, z);
    CompoundGrows(split.bond, 1.03, y, z);
    CompoundGrows(split.cash, 1.02, y, z);
  }

  lemma MulMonotone(a: real, x: real, y: real)
    requires a >= 0.0 && x <= y
    ensures a * x <= a * y
  {
    assert a * y - a * x == a * (y - x);
  }

  /** The projection years, in order. */
  const ProjectionYears: seq<nat> := [5, 10, 20]

  /** The `for yrs in [5, 10, 20]` loop, over the years given: one projection per year. */
  method Projections(split: Allocation, balance: Option<real>, years: seq<nat>) returns (projections: map<nat, real>)
    ensures forall y :: y in projections <==> y in years
    ensures forall y :: y in projections ==> projections[y] == Projected(split, balance, y)
  {
    projections := map[];
    for n := 0 to |years|
      invariant forall y :: y in projections <==> y in years[..n]
      invariant forall y :: y in projections ==> projections[y] == Projected(split, balance, y)
    {
      var yrs := years[n];
      var total := Compound(split.stock, 1.07, yrs) + Compound(split.bond, 1.03, yrs) + Compound(split.cash, 1.02, yrs);
      if balance.Some? {
        total := total + balance.value;
      }
      assert total == Projected(split, balance, yrs);
      assert years[..n + 1] == years[..n] + [yrs];
      projections := projections[yrs := total];
    }
    assert years[..|years|] == years;
  }

  // ---------------------------------------------------------------------------
  // The recommendation

  /** Which branch `process` takes, with the numbers it puts into its prompt. */
  datatype Recommendation =
    | LumpSum(split: Allocation, newBalance: Option<real>, projections: map<nat, real>)
    | MonthlyPlan(split: Allocation, rebalance: Option<Portfolio>)
    | PercentagesOnly

  /** The `metadata` dict; `startingBalance` is the optional key. */
  datatype Metadata = Metadata(
    amount: Option<real>,
    risk: string,
    goal: Option<string>,
    horizon: Option<int>,
    target: Allocation,
    holdings: seq<Holding>,
    fixedExpenses: Dict<string, real>,
    monthlyIncome: real,
    availableForInvestment: Option<real>,
    startingBalance: Option<real>)

  /** What `process` returns, without the generated text. */
  datatype Advice = Advice(recommendation: Recommendation, confidence: real, metadata: Metadata)

  /** What the data service returns, or would return, for the call `process` makes: the opaque inputs of the model. */
  datatype Fetched = Fetched(
    accessToken: Option<string>,
    balance: Option<real>,
    holdings: seq<Holding>,
    transactions: Option<seq<Transaction>>)

  /** `float(amount_str) if amount_str else None`, with `None` also for the `ValueError`. */
  function ParseAmount(amount: Option<string>): (r: Option<real>)
    ensures r.Some? ==> Truthy(amount) && ParseDecimal(amount.value) == r
    ensures Truthy(amount) && ParseDecimal(amount.value).Some? ==> r.Some?
  {
    if Truthy(amount) then ParseDecimal(amount.value) else None
  }

  /** An amount the planner extracted is never rejected by `float()`. */
  lemma PlannerAmountParses(s: string)
    ensures FirstAmount(s).Some? ==> ParseAmount(FirstAmount(s)).Some? && ParseAmount(FirstAmount(s)).value >= 0.0
  {
    AmountShape(s);
  }

  /** The amount of "$5,000" reaches the allocation as 5000. */
  lemma DollarAmountValue()
    ensures ParseAmount(FirstAmount("$5,000")) == Some(5000.0)
  {
    AmountWithDollarAndComma();
    assert DigitsValue("5000") == 5000 by {
      assert "5000"[..3] == "500" && "500"[..2] == "50" && "50"[..1] == "5" && "5"[..0] == [];
    }
    assert AllDigits("5000") && IsUnsignedDecimal("5000") by {
      RunEndAt("5000", 0, 4);
    }
  }

  /**
   * The transactions `process` works on: those fetched when the plan confirmed the
   * data fetch, a token is configured and expenses were asked for; none otherwise.
   */
  function TransactionsUsed(context: Context, fetched: Fetched): seq<Transaction>
  {
    if context.executePlaid && Truthy(fetched.accessToken) && context.includeExpenses
    then fetched.transactions.GetOr([]) else []
  }

  /** What the fixed expenses hold for `p` once the overrides are applied: the override if there is one, the derived figure otherwise. */
  function ExpectedFixedExpense(overrides: Dict<string, real>, txs: seq<Transaction>, p: string): Option<real>
  {
    if p in Keys(overrides) then Get(overrides, p) else ExpectedAverage(txs, p)
  }

  /**
   * Lines 47-48 of `process`: the derived recurring expenses with the overrides
   * written over them by name.
   */
  method FixedExpenses(txs: seq<Transaction>, overrides: Dict<string, real>) returns (fixedExpenses: Dict<string, real>)
    requires Distinct(overrides)
    ensures Distinct(fixedExpenses)
    ensures forall p :: Get(fixedExpenses, p) == ExpectedFixedExpense(overrides, txs, p)
  {
    fixedExpenses := SummarizeRecurringExpenses(Some(txs));
    fixedExpenses := Update(fixedExpenses, overrides);
  }

  /**
   * Lines 49-52 of `process`: the monthly income, and the monthly surplus after
   * the fixed expenses, which is absent exactly when the income is zero and may
   * be negative.
   */
  method Surplus(txs: seq<Transaction>, fixedExpenses: Dict<string, real>) returns (monthlyIncome: real, available: Option<real>)
    ensures monthlyIncome == ExpectedIncome(txs)
    ensures available == Available(monthlyIncome, fixedExpenses)
  {
    monthlyIncome := DeriveMonthlyIncome(Some(txs));
    available := Available(monthlyIncome, fixedExpenses);
  }

  /**
   * `monthly_income - sum(fixed_expenses.values()) if monthly_income else None`:
   * absent exactly when the income is 0; otherwise what is left of the income once
   * the fixed expenses are paid, which may be negative.
   */
  function Available(monthlyIncome: real, fixedExpenses: Dict<string, real>): (r: Option<real>)
    ensures r.None? <==> monthlyIncome == 0.0
    ensures r.Some? ==> r.value + SumValues(fixedExpenses) == monthlyIncome
  {
    if monthlyIncome != 0.0 then Some(monthlyIncome - SumValues(fixedExpenses)) else None
  }

  /** The balance after a lump-sum deposit, reported only when the fetch was confirmed and a balance came back. */
  function NewBalance(executePlaid: bool, startingBalance: Option<real>, amount: real): (r: Option<real>)
    ensures r.Some? <==> executePlaid && startingBalance.Some?
    ensures r.Some? ==> r.value - startingBalance.value == amount
  {
    if executePlaid && startingBalance.Some? then Some(startingBalance.value + amount) else None
  }


  /**
   * Lines 95-161 of `process`: a parsed amount is split and projected; otherwise a
   * monthly surplus is split, with the portfolio figures when there are holdings;
   * otherwise only the percentages are given.
   */
  method Recommend(amount: Option<real>, available: Option<real>, target: Allocation, executePlaid: bool,
                   startingBalance: Option<real>, hasHoldings: bool, portfolio: Portfolio)
      returns (recommendation: Recommendation)
    requires target.stock + target.bond + target.cash == 1.0
    ensures recommendation.LumpSum? <==> amount.Some?
    ensures recommendation.MonthlyPlan? <==> amount.None? && available.Some?
    ensures recommendation.LumpSum? ==>
      var r := recommendation;
      && r.split == Scale(target, amount.value)
      && r.projections.Keys == {5, 10, 20}
      && (forall y :: y in r.projections ==> r.projections[y] == Projected(r.split, startingBalance, y))
      && r.newBalance == NewBalance(executePlaid, startingBalance, amount.value)
    ensures recommendation.MonthlyPlan? ==>
      var r := recommendation;
      && r.split == Scale(target, available.value)
      && r.rebalance == if hasHoldings then Some(portfolio) else None
  {
    if amount.Some? {
      var split := Scale(target, amount.value);
      var newBalance := NewBalance(executePlaid, startingBalance, amount.value);
      var projections := Projections(split, startingBalance, ProjectionYears);
      recommendation := LumpSum(split, newBalance, projections);
    } else if available.Some? {
      var split := Scale(target, available.value);
      recommendation := MonthlyPlan(split, if hasHoldings then Some(portfolio) else None);
    } else {
      recommendation := PercentagesOnly;
    }
  }

  /**
   * Lines 36-46 of `process`: the access token is read only when the plan
   * confirmed the fetch; the balance needs a token, the holdings and the
   * transactions need a token and the matching request.
   */
  method Gather(context: Context, fetched: Fetched)
      returns (startingBalance: Option<real>, holdings: seq<Holding>, transactions: seq<Transaction>)
    ensures startingBalance == if context.executePlaid && Truthy(fetched.accessToken) then fetched.balance else None
    ensures holdings ==
      if context.executePlaid && Truthy(fetched.accessToken) && context.includeHoldings then fetched.holdings else []
    ensures transactions == TransactionsUsed(context, fetched)
  {
    var accessToken := if context.executePlaid then fetched.accessToken else None;
    startingBalance := if Truthy(accessToken) then fetched.balance else None;
    holdings := if Truthy(accessToken) && context.includeHoldings then fetched.holdings else [];

    transactions := [];
    if Truthy(accessToken) && context.includeExpenses {
      transactions := fetched.transactions.GetOr([]);
    }
  }

  /**
   * `InvestmentAgent.process` with the data service's answers as inputs. The data
   * is used only when the plan confirmed the fetch and a token is configured; the
   * metadata record the figures the recommendation was computed from; the
   * recommendation splits the amount, or else the monthly surplus, in the target
   * proportions; and the confidence is fixed.
   */
  method Process(context: Context, fetched: Fetched) returns (advice: Advice)
    requires context.overrideFixedExpenses.Some? ==> Distinct(context.overrideFixedExpenses.value)
    ensures advice.confidence == 0.88
    ensures advice.metadata.startingBalance ==
      if context.executePlaid && Truthy(fetched.accessToken) then fetched.balance else None
    ensures advice.metadata.holdings ==
      if context.executePlaid && Truthy(fetched.accessToken) && context.includeHoldings then fetched.holdings else []
    ensures advice.metadata.amount == ParseAmount(context.amount)
    ensures advice.metadata.risk == context.riskTolerance.GetOr("medium")
    ensures advice.metadata.goal == context.goal
    ensures advice.metadata.horizon == Horizon(context.timeframe)
    ensures advice.metadata.target == TargetAllocation(context.riskTolerance.GetOr("medium"), Horizon(context.timeframe))
    ensures Distinct(advice.metadata.fixedExpenses)
    ensures forall p ::
      Get(advice.metadata.fixedExpenses, p) == ExpectedFixedExpense(context.overrideFixedExpenses.GetOr([]), TransactionsUsed(context, fetched), p)
    ensures advice.metadata.monthlyIncome == ExpectedIncome(TransactionsUsed(context, fetched))
    ensures advice.metadata.availableForInvestment == Available(advice.metadata.monthlyIncome, advice.metadata.fixedExpenses)
    ensures advice.recommendation.LumpSum? <==> advice.metadata.amount.Some?
    ensures advice.recommendation.MonthlyPlan? <==>
      advice.metadata.amount.None? && advice.metadata.availableForInvestment.Some?
    ensures advice.recommendation.LumpSum? ==>
      var r, m := advice.recommendation, advice.metadata;
      && r.split == Scale(m.target, m.amount.value)
      && r.projections.Keys == {5, 10, 20}
      && (forall y :: y in r.projections ==> r.projections[y] == Projected(r.split, m.startingBalance, y))
      && r.newBalance == NewBalance(context.executePlaid, m.startingBalance, m.amount.value)
    ensures advice.recommendation.MonthlyPlan? ==>
      var r, m := advice.recommendation, advice.metadata;
      && r.split == Scale(m.target, m.availableForInvestment.value)
      && r.rebalance == if m.holdings != [] then Some(CurrentPortfolio(m.startingBalance, m.holdings, m.target)) else None
  {
    var overrideExpenses := context.overrideFixedExpenses.GetOr([]);
    var risk := context.riskTolerance.GetOr("medium");

    var startingBalance, currentHoldings, transactions := Gather(context, fetched);
    var fixedExpenses := FixedExpenses(transactions, overrideExpenses);
    var monthlyIncome, availableForInvestment := Surplus(transactions, fixedExpenses);

    advice := Advise(context.amount, context.timeframe, risk, context.goal, context.executePlaid,
                     startingBalance, currentHoldings, fixedExpenses, monthlyIncome, availableForInvestment);
  }

  /**
   * Lines 54-183 of `process`, once the data is gathered: the amount, horizon and
   * target are computed, the recommendation is made from them, and the metadata
   * record them.
   */
  method Advise(amountStr: Option<string>, timeframe: Option<Timeframe>, risk: string, goal: Option<string>,
                executePlaid: bool, startingBalance: Option<real>, currentHoldings: seq<Holding>,
                fixedExpenses: Dict<string, real>, monthlyIncome: real, availableForInvestment: Option<real>)
      returns (advice: Advice)
    ensures advice.confidence == 0.88
    ensures advice.metadata == Metadata(ParseAmount(amountStr), risk, goal, Horizon(timeframe),
      TargetAllocation(risk, Horizon(timeframe)), currentHoldings, fixedExpenses, monthlyIncome,
      availableForInvestment, startingBalance)
    ensures advice.recommendation.LumpSum? <==> advice.metadata.amount.Some?
    ensures advice.recommendation.MonthlyPlan? <==>
      advice.metadata.amount.None? && advice.metadata.availableForInvestment.Some?
    ensures advice.recommendation.LumpSum? ==>
      var r, m := advice.recommendation, advice.metadata;
      && r.split == Scale(m.target, m.amount.value)
      && r.projections.Keys == {5, 10, 20}
      && (forall y :: y in r.projections ==> r.projections[y] == Projected(r.split, m.startingBalance, y))
      && r.newBalance == NewBalance(executePlaid, m.startingBalance, m.amount.value)
    ensures advice.recommendation.MonthlyPlan? ==>
      var r, m := advice.recommendation, advice.metadata;
      && r.split == Scale(m.target, m.availableForInvestment.value)
      && r.rebalance == if m.holdings != [] then Some(CurrentPortfolio(m.startingBalance, m.holdings, m.target)) else None
  {
    var amount := ParseAmount(amountStr);
    var horizon := Horizon(timeframe);
    var target := TargetAllocation(risk, horizon);
    var portfolio := CurrentPortfolio(startingBalance, currentHoldings, target);

    var recommendation := Recommend(amount, availableForInvestment, target, executePlaid,
                                    startingBalance, currentHoldings != [], portfolio);

    var metadata := Metadata(amount, risk, goal, horizon, target, currentHoldings,
                             fixedExpenses, monthlyIncome, availableForInvestment, startingBalance);
    advice := Advice(recommendation, 0.88, metadata);
  }

  /** `amount * stock_pct` and its two siblings: a split of `x` in the target proportions adds back up to `x`. */
  function Scale(target: Allocation, x: real): (r: Allocation)
    requires target.stock + target.bond + target.cash == 1.0
    ensures r.stock + r.bond + r.cash == x
    ensures x >= 0.0 && target.stock >= 0.0 && target.bond >= 0.0 && target.cash >= 0.0 ==>
      r.stock >= 0.0 && r.bond >= 0.0 && r.cash >= 0.0
  {
    assert x * target.stock + x * target.bond + x * target.cash == x * (target.stock + target.bond + target.cash);
    assert x >= 0.0 && target.stock >= 0.0 && target.bond >= 0.0 && target.cash >= 0.0 ==>
      x * target.stock >= 0.0 && x * target.bond >= 0.0 && x * target.cash >= 0.0 by {
      if x >= 0.0 && target.stock >= 0.0 && target.bond >= 0.0 && target.cash >= 0.0 {
        MulMonotone(x, 0.0, target.stock);
        MulMonotone(x, 0.0, target.bond);
        MulMonotone(x, 0.0, target.cash);
        assert x * 0.0 == 0.0;
      }
    }
    Allocation(x * target.stock, x * target.bond, x * target.cash)
  }

  /**
   * The planner's amount feeds a lump sum whose projections never shrink from 5 to
   * 10 to 20 years, whenever the horizon is absent or non-negative.
   */
  lemma LumpSumProjectionsGrow(risk: string, h: Option<int>, amount: real, balance: Option<real>)
    requires amount >= 0.0 && (h.None? || h.value >= 0)
    ensures var split := Scale(TargetAllocation(risk, h), amount);
      Projected(split, balance, 5) <= Projected(split, balance, 10) <= Projected(split, balance, 20)
  {
    var split := Scale(TargetAllocation(risk, h), amount);
    ProjectionGrows(split, balance, 5, 10);
    ProjectionGrows(split, balance, 10, 20);
  }
}
