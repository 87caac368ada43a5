/**
 * The recurring-expense and income estimators the investment agent uses
 * (agents/finance_utils.py): transactions are grouped by payee and by calendar
 * month (`date[:7]`) and averaged per month.
 */
module FinanceUtils {
  import opened Wrappers
  import opened Dict
  import opened Transactions

  /** A payee's entry: the transaction's date and the absolute value of its amount. */
  type Entry = (string, real)

  /** `None` and `[]` both stand for "no transactions". */
  function TxList(transactions: Option<seq<Transaction>>): seq<Transaction>
  {
    transactions.GetOr([])
  }

  /** A transaction the expense summary keeps: it has a non-empty name and a non-empty date. */
  predicate Kept(tx: Transaction) { Truthy(tx.name) && Truthy(tx.date) }

  /** The payees named by kept transactions. */
  function Payees(txs: seq<Transaction>): set<string>
  {
    if txs == [] then {}
    else
      var t := txs[|txs| - 1];
      Payees(txs[..|txs| - 1]) + (if Kept(t) then {t.name.value} else {})
  }

  /** The entries grouped under payee `p`, in transaction order: `grouped[p]`. */
  function EntriesOf(txs: seq<Transaction>, p: string): seq<Entry>
  {
    if txs == [] then []
    else
      var t := txs[|txs| - 1];
      EntriesOf(txs[..|txs| - 1], p)
        + (if Kept(t) && t.name.value == p then [(t.date.value, Abs(t.amount.GetOr(0.0)))] else [])
  }

  /** The distinct months (`date[:7]`) of some entries: the keys of `months`. */
  function Months(entries: seq<Entry>): set<string>
  {
    if entries == [] then {} else Months(entries[..|entries| - 1]) + {MonthOf(entries[|entries| - 1].0)}
  }

  /** The sum of the entries' amounts: `sum(months.values())`. */
  function Total(entries: seq<Entry>): real
  {
    if entries == [] then 0.0 else Total(entries[..|entries| - 1]) + entries[|entries| - 1].1
  }

  /** A payee counts as recurring when its entries fall in at least two distinct months. */
  predicate Recurring(entries: seq<Entry>) { |Months(entries)| >= 2 }

  /** The reported figure: total amount over the number of distinct months. */
  function MonthlyAverage(entries: seq<Entry>): real
    requires Months(entries) != {}
  {
    Total(entries) / |Months(entries)| as real
  }

  /** What the summary reports for payee `p`: its monthly average when it is recurring, nothing otherwise. */
  function ExpectedAverage(txs: seq<Transaction>, p: string): Option<real>
  {
    if p in Payees(txs) && Recurring(EntriesOf(txs, p)) then Some(MonthlyAverage(EntriesOf(txs, p))) else None
  }

  /** A name that no kept transaction carries has no entries. */
  lemma {:induction false} EntriesOfNonPayee(txs: seq<Transaction>, p: string)
    requires p !in Payees(txs)
    ensures EntriesOf(txs, p) == []
  {
    if txs != [] { EntriesOfNonPayee(txs[..|txs| - 1], p); }
  }

  /** Amounts enter the summary as absolute values, so every payee's total is non-negative. */
  lemma {:induction false} TotalNonNegative(txs: seq<Transaction>, p: string)
    ensures Total(EntriesOf(txs, p)) >= 0.0
  {
    if txs != [] {
      var t := txs[|txs| - 1];
      var init := EntriesOf(txs[..|txs| - 1], p);
      TotalNonNegative(txs[..|txs| - 1], p);
      if Kept(t) && t.name.value == p {
        var e := EntriesOf(txs, p);
        assert e == init + [(t.date.value, Abs(t.amount.GetOr(0.0)))];
        assert e[..|e| - 1] == init;
        assert e[|e| - 1].1 >= 0.0;
        assert Total(e) == Total(init) + e[|e| - 1].1;
      } else {
        assert EntriesOf(txs, p) == init + [] == init;
      }
    }
  }

  /** Every value `summarize_recurring_expenses` reports is non-negative. */
  lemma RecurringAverageNonNegative(txs: seq<Transaction>, p: string)
    requires Recurring(EntriesOf(txs, p))
    ensures MonthlyAverage(EntriesOf(txs, p)) >= 0.0
  {
    TotalNonNegative(txs, p);
  }

  /** One more transaction adds at most one payee: its own, when it is kept. */
  lemma PayeesSnoc(txs: seq<Transaction>, i: nat)
    requires i < |txs|
    ensures Payees(txs[..i + 1]) == Payees(txs[..i]) + (if Kept(txs[i]) then {txs[i].name.value} else {})
  {
    assert txs[..i + 1][..i] == txs[..i];
  }

  /** One more transaction extends the entries of its own payee only, and only when it is kept. */
  lemma EntriesOfSnoc(txs: seq<Transaction>, i: nat, p: string)
    requires i < |txs|
    ensures EntriesOf(txs[..i + 1], p) ==
      if Kept(txs[i]) && txs[i].name.value == p then EntriesOf(txs[..i], p) + [(txs[i].date.value, Abs(txs[i].amount.GetOr(0.0)))]
      else EntriesOf(txs[..i], p)
  {
    assert txs[..i + 1][..i] == txs[..i];
    assert EntriesOf(txs[..i], p) + [] == EntriesOf(txs[..i], p);
  }

  /** The state of the grouping loop after the first `i` transactions: one pair per payee seen, with its entries so far. */
  ghost predicate GroupedUpTo(grouped: Dict<string, seq<Entry>>, txs: seq<Transaction>, i: nat)
    requires i <= |txs|
  {
    && Distinct(grouped)
    && Keys(grouped) == Payees(txs[..i])
    && forall p :: p in Keys(grouped) ==> Get(grouped, p) == Some(EntriesOf(txs[..i], p))
  }

  /** Appending a kept transaction's entry to its payee's list (and skipping any other) keeps the grouping loop's state. */
  lemma GroupStep(grouped: Dict<string, seq<Entry>>, txs: seq<Transaction>, i: nat)
    requires i < |txs| && GroupedUpTo(grouped, txs, i)
    ensures !Kept(txs[i]) ==> GroupedUpTo(grouped, txs, i + 1)
    ensures Kept(txs[i]) ==>
      var name := txs[i].name.value;
      GroupedUpTo(Put(grouped, name, Get(grouped, name).GetOr([]) + [(txs[i].date.value, Abs(txs[i].amount.GetOr(0.0)))]), txs, i + 1)
  {
    var tx := txs[i];
    PayeesSnoc(txs, i);
    forall p ensures EntriesOf(txs[..i + 1], p) ==
      if Kept(tx) && tx.name.value == p then EntriesOf(txs[..i], p) + [(tx.date.value, Abs(tx.amount.GetOr(0.0)))]
      else EntriesOf(txs[..i], p)
    {
      EntriesOfSnoc(txs, i, p);
    }
    if Kept(tx) && tx.name.value !in Payees(txs[..i]) {
      EntriesOfNonPayee(txs[..i], tx.name.value);
    }
  }

  /** The first loop of `summarize_recurring_expenses`: `grouped[name].append((date, abs(amount)))` for each kept transaction. */
  method GroupByPayee(txs: seq<Transaction>) returns (grouped: Dict<string, seq<Entry>>)
    ensures Distinct(grouped) && Keys(grouped) == Payees(txs)
    ensures forall j :: 0 <= j < |grouped| ==> grouped[j].1 == EntriesOf(txs, grouped[j].0)
  {
    grouped := [];
    for i := 0 to |txs|
      invariant GroupedUpTo(grouped, txs, i)
    {
      var tx := txs[i];
      GroupStep(grouped, txs, i);
      if !Truthy(tx.name) {
        continue;
      }
      var name := tx.name.value;
      var amount := Abs(tx.amount.GetOr(0.0));
      if !Truthy(tx.date) {
        continue;
      }
      grouped := Put(grouped, name, Get(grouped, name).GetOr([]) + [(tx.date.value, amount)]);
    }
    assert txs[..|txs|] == txs;
    forall j | 0 <= j < |grouped| ensures grouped[j].1 == EntriesOf(txs, grouped[j].0) {
      GetAt(grouped, j);
      KeyAt(grouped, j);
    }
  }

  /** The inner loop of `summarize_recurring_expenses`: `months[date[:7]] += amount` over one payee's entries. */
  method MonthlyTotals(entries: seq<Entry>) returns (months: Dict<string, real>)
    ensures Distinct(months) && Keys(months) == Months(entries) && |months| == |Months(entries)|
    ensures SumValues(months) == Total(entries)
  {
    months := [];
    for k := 0 to |entries|
      invariant Distinct(months)
      invariant Keys(months) == Months(entries[..k])
      invariant SumValues(months) == Total(entries[..k])
    {
      var (date, amount) := entries[k];
      assert entries[..k + 1][..k] == entries[..k];
      months := AddTo(months, MonthOf(date), amount);
    }
    assert entries[..|entries|] == entries;
    DistinctLength(months);
  }

  /** The state of the summary loop after the first `j` payees: exactly those of them that recur, with their averages. */
  ghost predicate SummaryUpTo(recurring: Dict<string, real>, txs: seq<Transaction>, grouped: Dict<string, seq<Entry>>, j: nat)
    requires j <= |grouped|
  {
    && Distinct(recurring)
    && forall p :: Get(recurring, p) == (if p in Keys(grouped[..j]) then ExpectedAverage(txs, p) else None)
  }

  /** Recording the `j`-th payee's average when it spans two months or more, and skipping it otherwise, keeps the summary loop's state. */
  lemma SummaryStep(recurring: Dict<string, real>, txs: seq<Transaction>, grouped: Dict<string, seq<Entry>>, j: nat, months: Dict<string, real>)
    requires Distinct(grouped) && Keys(grouped) == Payees(txs)
    requires forall k :: 0 <= k < |grouped| ==> grouped[k].1 == EntriesOf(txs, grouped[k].0)
    requires j < |grouped| && SummaryUpTo(recurring, txs, grouped, j)
    requires |months| == |Months(grouped[j].1)| && SumValues(months) == Total(grouped[j].1)
    ensures SummaryUpTo(if |months| >= 2 then Put(recurring, grouped[j].0, SumValues(months) / |months| as real) else recurring,
                        txs, grouped, j + 1)
  {
    KeyAt(grouped, j);
    KeysOfPrefix(grouped, j);
  }

  /**
   * `summarize_recurring_expenses`: the payees whose kept transactions fall in at
   * least two distinct months, each with its total absolute amount divided by its
   * number of distinct months. Nothing else is in the result.
   */
  method SummarizeRecurringExpenses(transactions: Option<seq<Transaction>>) returns (recurring: Dict<string, real>)
    ensures Distinct(recurring)
    ensures forall p :: Get(recurring, p) == ExpectedAverage(TxList(transactions), p)
  {
    recurring := [];
    if transactions.None? || transactions.value == [] {
      return;
    }
    var txs := transactions.value;
    var grouped := GroupByPayee(txs);
    for j := 0 to |grouped|
      invariant SummaryUpTo(recurring, txs, grouped, j)
    {
      var (name, entries) := grouped[j];
      var months := MonthlyTotals(entries);
      SummaryStep(recurring, txs, grouped, j, months);
      if |months| >= 2 {
        var avg := SumValues(months) / |months| as real;
        recurring := Put(recurring, name, avg);
      }
    }
    assert grouped[..|grouped|] == grouped;
  }

  /** A transaction `derive_monthly_income` counts: a positive amount (missing reads as 0) and a non-empty date. */
  predicate Income(tx: Transaction) { tx.amount.GetOr(0.0) > 0.0 && Truthy(tx.date) }

  /** The distinct months of the income transactions. */
  function IncomeMonths(txs: seq<Transaction>): set<string>
  {
    if txs == [] then {}
    else
      var t := txs[|txs| - 1];
      IncomeMonths(txs[..|txs| - 1]) + (if Income(t) then {MonthOf(t.date.value)} else {})
  }

  /** The sum of the income transactions' amounts. */
  function IncomeTotal(txs: seq<Transaction>): real
  {
    if txs == [] then 0.0
    else
      var t := txs[|txs| - 1];
      IncomeTotal(txs[..|txs| - 1]) + (if Income(t) then t.amount.value else 0.0)
  }

  /** There is an income month exactly when some transaction is income, and then the income total is positive. */
  lemma {:induction false} IncomeTotalPositive(txs: seq<Transaction>)
    ensures IncomeTotal(txs) >= 0.0
    ensures IncomeMonths(txs) != {} <==> exists i :: 0 <= i < |txs| && Income(txs[i])
    ensures IncomeMonths(txs) != {} ==> IncomeTotal(txs) > 0.0
  {
    if txs != [] {
      var init := txs[..|txs| - 1];
      IncomeTotalPositive(init);
      if exists i :: 0 <= i < |init| && Income(init[i]) {
        var i :| 0 <= i < |init| && Income(init[i]);
        assert txs[i] == init[i];
      }
      if exists i :: 0 <= i < |txs| && Income(txs[i]) {
        var i :| 0 <= i < |txs| && Income(txs[i]);
        if i < |init| { assert init[i] == txs[i]; }
      }
    }
  }

  /** One more transaction adds its month and its amount exactly when it is income. */
  lemma IncomeSnoc(txs: seq<Transaction>, i: nat)
    requires i < |txs|
    ensures IncomeMonths(txs[..i + 1]) == IncomeMonths(txs[..i]) + (if Income(txs[i]) then {MonthOf(txs[i].date.value)} else {})
    ensures IncomeTotal(txs[..i + 1]) == IncomeTotal(txs[..i]) + (if Income(txs[i]) then txs[i].amount.value else 0.0)
  {
    assert txs[..i + 1][..i] == txs[..i];
  }

  /** The loop of `derive_monthly_income`: `monthly[date[:7]] += amount` for each positive, dated transaction. */
  method IncomeByMonth(txs: seq<Transaction>) returns (monthly: Dict<string, real>)
    ensures Distinct(monthly) && Keys(monthly) == IncomeMonths(txs) && |monthly| == |IncomeMonths(txs)|
    ensures SumValues(monthly) == IncomeTotal(txs)
  {
    monthly := [];
    for i := 0 to |txs|
      invariant Distinct(monthly)
      invariant Keys(monthly) == IncomeMonths(txs[..i])
      invariant SumValues(monthly) == IncomeTotal(txs[..i])
    {
      var tx := txs[i];
      IncomeSnoc(txs, i);
      var amount := tx.amount.GetOr(0.0);
      if amount > 0.0 {
        if !Truthy(tx.date) {
          continue;
        }
        monthly := AddTo(monthly, MonthOf(tx.date.value), amount);
      }
    }
    assert txs[..|txs|] == txs;
    DistinctLength(monthly);
  }

  /** The income per month the transactions show: the income total over the number of income months, 0 without income. */
  function ExpectedIncome(txs: seq<Transaction>): real
  {
    if IncomeMonths(txs) == {} then 0.0 else IncomeTotal(txs) / |IncomeMonths(txs)| as real
  }

  /** The income per month is never negative, and positive exactly when some transaction is income. */
  lemma ExpectedIncomeSign(txs: seq<Transaction>)
    ensures ExpectedIncome(txs) >= 0.0
    ensures ExpectedIncome(txs) > 0.0 <==> exists i :: 0 <= i < |txs| && Income(txs[i])
  {
    IncomeTotalPositive(txs);
  }

  /**
   * `derive_monthly_income`: the total of positive, dated amounts over the number of
   * distinct months they fall in; `0.0` when there is no such transaction.
   */
  method DeriveMonthlyIncome(transactions: Option<seq<Transaction>>) returns (income: real)
    ensures income == ExpectedIncome(TxList(transactions))
    ensures IncomeMonths(TxList(transactions)) == {} ==> income == 0.0
    ensures IncomeMonths(TxList(transactions)) != {} ==>
      income == IncomeTotal(TxList(transactions)) / |IncomeMonths(TxList(transactions))| as real
    ensures income > 0.0 <==> exists i :: 0 <= i < |TxList(transactions)| && Income(TxList(transactions)[i])
    ensures income >= 0.0
  {
    IncomeTotalPositive(TxList(transactions));
    if transactions.None? || transactions.value == [] {
      return 0.0;
    }
    var monthly := IncomeByMonth(transactions.value);
    if monthly == [] {
      return 0.0;
    }
    income := SumValues(monthly) / |monthly| as real;
  }
}
