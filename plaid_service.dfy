/**
 * The cadence-based recurring-expense detector of the data-service module
 * (`summarize_recurring_expenses` in agents/plaid_service.py). Transactions are
 * grouped by name; a name with at least two entries whose dates, once sorted,
 * lie 25 to 35 days apart on average is reported with the mean of its signed
 * amounts rounded to two decimals. A date that `datetime.fromisoformat` rejects
 * makes the whole call raise.
 */
module PlaidService {
  import opened Wrappers
  import opened Dict
  import opened Text
  import opened Transactions
  import opened Calendar

  /** An entry of a name's group: `(amount, date)`. */
  type Entry = (real, string)

  /** A transaction that is grouped: its name, amount and date are all truthy (a zero amount is not). */
  predicate Kept(tx: Transaction)
  {
    Truthy(tx.name) && tx.amount.Some? && tx.amount.value != 0.0 && Truthy(tx.date)
  }

  /** The names of the kept transactions. */
  function Names(txs: seq<Transaction>): set<string>
  {
    if txs == [] then {}
    else
      var t := txs[|txs| - 1];
      Names(txs[..|txs| - 1]) + (if Kept(t) then {t.name.value} else {})
  }

  /** The entries grouped under name `p`, in transaction order: `groups[p]`. */
  function EntriesOf(txs: seq<Transaction>, p: string): seq<Entry>
  {
    if txs == [] then []
    else
      var t := txs[|txs| - 1];
      EntriesOf(txs[..|txs| - 1], p) + (if Kept(t) && t.name.value == p then [(t.amount.value, t.date.value)] else [])
  }

  /** A name that no kept transaction carries has no entries. */
  lemma {:induction false} EntriesOfNonName(txs: seq<Transaction>, p: string)
    requires p !in Names(txs)
    ensures EntriesOf(txs, p) == []
  {
    if txs != [] { EntriesOfNonName(txs[..|txs| - 1], p); }
  }

  /** One more transaction adds at most one name: its own, when it is kept. */
  lemma NamesSnoc(txs: seq<Transaction>, i: nat)
    requires i < |txs|
    ensures Names(txs[..i + 1]) == Names(txs[..i]) + (if Kept(txs[i]) then {txs[i].name.value} else {})
  {
    assert txs[..i + 1][..i] == txs[..i];
  }

  /** One more transaction extends the entries of its own name only, and only when it is kept. */
  lemma EntriesOfSnoc(txs: seq<Transaction>, i: nat, p: string)
    requires i < |txs|
    ensures EntriesOf(txs[..i + 1], p) ==
      if Kept(txs[i]) && txs[i].name.value == p then EntriesOf(txs[..i], p) + [(txs[i].amount.value, txs[i].date.value)]
      else EntriesOf(txs[..i], p)
  {
    assert txs[..i + 1][..i] == txs[..i];
    assert EntriesOf(txs[..i], p) + [] == EntriesOf(txs[..i], p);
  }

  // ---------------------------------------------------------------------------
  // Grouping

  /** The state of the grouping loop after the first `i` transactions: one pair per name seen, with its entries so far. */
  ghost predicate GroupedUpTo(groups: Dict<string, seq<Entry>>, txs: seq<Transaction>, i: nat)
    requires i <= |txs|
  {
    && Distinct(groups)
    && Keys(groups) == Names(txs[..i])
    && forall p :: p in Keys(groups) ==> Get(groups, p) == Some(EntriesOf(txs[..i], p))
  }

  /** Appending a kept transaction's entry to its name's list (and skipping any other) keeps the grouping loop's state. */
  lemma GroupStep(groups: Dict<string, seq<Entry>>, txs: seq<Transaction>, i: nat)
    requires i < |txs| && GroupedUpTo(groups, txs, i)
    ensures !Kept(txs[i]) ==> GroupedUpTo(groups, txs, i + 1)
    ensures Kept(txs[i]) ==>
      var name := txs[i].name.value;
      GroupedUpTo(Put(groups, name, Get(groups, name).GetOr([]) + [(txs[i].amount.value, txs[i].date.value)]), txs, i + 1)
  {
    var tx := txs[i];
    NamesSnoc(txs, i);
    forall p ensures EntriesOf(txs[..i + 1], p) ==
      if Kept(tx) && tx.name.value == p then EntriesOf(txs[..i], p) + [(tx.amount.value, tx.date.value)]
      else EntriesOf(txs[..i], p)
    {
      EntriesOfSnoc(txs, i, p);
    }
    if Kept(tx) && tx.name.value !in Names(txs[..i]) {
      EntriesOfNonName(txs[..i], tx.name.value);
    }
  }

  /** The first loop: `groups[name].append((amount, date_str))` for every transaction whose name, amount and date are truthy. */
  method GroupByName(txs: seq<Transaction>) returns (groups: Dict<string, seq<Entry>>)
    ensures Distinct(groups) && Keys(groups) == Names(txs)
    ensures forall j :: 0 <= j < |groups| ==> groups[j].1 == EntriesOf(txs, groups[j].0)
  {
    groups := [];
    for i := 0 to |txs|
      invariant GroupedUpTo(groups, txs, i)
    {
      var txn := txs[i];
      GroupStep(groups, txs, i);
      if !(Truthy(txn.name) && txn.amount.Some? && txn.amount.value != 0.0 && Truthy(txn.date)) {
        continue;
      }
      var name := txn.name.value;
      groups := Put(groups, name, Get(groups, name).GetOr([]) + [(txn.amount.value, txn.date.value)]);
    }
    assert txs[..|txs|] == txs;
    forall j | 0 <= j < |groups| ensures groups[j].1 == EntriesOf(txs, groups[j].0) {
      GetAt(groups, j);
      KeyAt(groups, j);
    }
  }

  // ---------------------------------------------------------------------------
  // Sorting by date

  /** Ascending by date text, as `entries.sort(key=lambda x: x[1])` leaves them. */
  predicate SortedByDate(es: seq<Entry>)
  {
    forall i, j :: 0 <= i < j < |es| ==> LexLe(es[i].1, es[j].1)
  }

  /** An entry whose date is not earlier than any date of a sorted list can follow it. */
  lemma SortedSnoc(s: seq<Entry>, x: Entry)
    requires SortedByDate(s)
    requires forall i :: 0 <= i < |s| ==> LexLe(s[i].1, x.1)
    ensures SortedByDate(s + [x])
  {
  }

  /** Places `e` after every entry whose date is not later, which keeps equal dates in arrival order. */
  function InsertByDate(sorted: seq<Entry>, e: Entry): (r: seq<Entry>)
    requires SortedByDate(sorted)
    ensures SortedByDate(r)
    ensures multiset(r) == multiset(sorted) + multiset{e}
  {
    if sorted == [] then [e]
    else
      var n := |sorted| - 1;
      var last := sorted[n];
      assert sorted == sorted[..n] + [last];
      if LexLe(last.1, e.1) then
        assert forall i :: 0 <= i < |sorted| ==> LexLe(sorted[i].1, e.1) by {
          forall i | 0 <= i < n ensures LexLe(sorted[i].1, e.1) {
            LexLeTrans(sorted[i].1, last.1, e.1);
          }
        }
        SortedSnoc(sorted, e);
        sorted + [e]
      else
        var front := InsertByDate(sorted[..n], e);
        assert forall i :: 0 <= i < |front| ==> LexLe(front[i].1, last.1) by {
          LexLeTotal(last.1, e.1);
          forall i | 0 <= i < |front| ensures LexLe(front[i].1, last.1) {
            assert front[i] in multiset(sorted[..n]) + multiset{e};
            if front[i] != e {
              var k :| 0 <= k < n && sorted[..n][k] == front[i];
            }
          }
        }
        SortedSnoc(front, last);
        front + [last]
  }

  /** `entries.sort(key=lambda x: x[1])`: Python's stable sort on the date text. */
  function SortByDate(es: seq<Entry>): (r: seq<Entry>)
    ensures SortedByDate(r)
    ensures multiset(r) == multiset(es)
  {
    if es == [] then []
    else
      var n := |es| - 1;
      assert es == es[..n] + [es[n]];
      InsertByDate(SortByDate(es[..n]), es[n])
  }

  // ---------------------------------------------------------------------------
  // Dates and gaps

  /** Every entry's date is one `fromisoformat` accepts. */
  predicate AllIsoDates(es: seq<Entry>)
  {
    forall i :: 0 <= i < |es| ==> IsIsoDate(es[i].1)
  }

  /** `[datetime.fromisoformat(d) for _, d in entries]` as day numbers; `None` when some date raises. */
  function DayNumbers(es: seq<Entry>): (r: Option<seq<int>>)
    ensures r.Some? <==> AllIsoDates(es)
    ensures r.Some? ==> r.value == EntryDays(es)
  {
    if es == [] then Some([])
    else
      var n := |es| - 1;
      var front, last := DayNumbers(es[..n]), ParseIsoDay(es[n].1);
      IsoDatesSnoc(es);
      if front.Some? && last.Some? then
        EntryDaysSnoc(es);
        Some(front.value + [last.value])
      else
        None
  }

  /** The dates of a list are valid exactly when those before the last are and the last is. */
  lemma IsoDatesSnoc(es: seq<Entry>)
    requires |es| > 0
    ensures AllIsoDates(es) <==> AllIsoDates(es[..|es| - 1]) && IsIsoDate(es[|es| - 1].1)
  {
    assert forall i :: 0 <= i < |es| - 1 ==> es[..|es| - 1][i] == es[i];
  }

  /** The day numbers of a list are those of the entries before the last, then the last one's. */
  lemma EntryDaysSnoc(es: seq<Entry>)
    requires |es| > 0 && AllIsoDates(es)
    ensures AllIsoDates(es[..|es| - 1])
    ensures EntryDays(es) == EntryDays(es[..|es| - 1]) + [Day(es[|es| - 1].1)]
  {
    IsoDatesSnoc(es);
    assert forall i :: 0 <= i < |es| - 1 ==> es[..|es| - 1][i] == es[i];
  }

  /** `abs(a - b)` on whole days. */
  function Distance(a: int, b: int): nat
  {
    if a < b then b - a else a - b
  }

  /** `[abs((dates[i] - dates[i-1]).days) for i in range(1, len(dates))]`. */
  function Gaps(ds: seq<int>): (r: seq<int>)
    ensures |r| == if ds == [] then 0 else |ds| - 1
    ensures forall i :: 0 <= i < |r| ==> r[i] == Distance(ds[i + 1], ds[i])
  {
    if |ds| <= 1 then [] else Gaps(ds[..|ds| - 1]) + [Distance(ds[|ds| - 1], ds[|ds| - 2])]
  }

  /** `sum(diffs)`. */
  function Sum(xs: seq<int>): int
  {
    if xs == [] then 0 else Sum(xs[..|xs| - 1]) + xs[|xs| - 1]
  }

  /** Days in ascending order: the gaps between neighbours add up to the distance from the first day to the last. */
  lemma {:induction false} Telescoping(ds: seq<int>)
    requires |ds| > 0
    requires forall i, j :: 0 <= i <= j < |ds| ==> ds[i] <= ds[j]
    ensures Sum(Gaps(ds)) == ds[|ds| - 1] - ds[0]
  {
    if |ds| > 1 {
      var n := |ds| - 1;
      Telescoping(ds[..n]);
      assert ds[..n][n - 1] == ds[n - 1] && ds[..n][0] == ds[0];
      var g := Gaps(ds);
      assert g[..|g| - 1] == Gaps(ds[..n]);
    }
  }

  /** The day numbers of entries whose dates are all valid, in entry order. */
  function EntryDays(es: seq<Entry>): (r: seq<int>)
    requires AllIsoDates(es)
    ensures |r| == |es| && forall i :: 0 <= i < |es| ==> r[i] == Day(es[i].1)
  {
    seq(|es|, i requires 0 <= i < |es| && AllIsoDates(es) => Day(es[i].1))
  }

  /** The smallest of some whole numbers. */
  function Min(xs: seq<int>): (m: int)
    requires |xs| > 0
    ensures forall i :: 0 <= i < |xs| ==> m <= xs[i]
    ensures m in xs
  {
    if |xs| == 1 then xs[0]
    else
      var m := Min(xs[1..]);
      assert forall i :: 1 <= i < |xs| ==> xs[1..][i - 1] == xs[i];
      if xs[0] < m then xs[0] else m
  }

  /** The largest of some whole numbers. */
  function Max(xs: seq<int>): (m: int)
    requires |xs| > 0
    ensures forall i :: 0 <= i < |xs| ==> xs[i] <= m
    ensures m in xs
  {
    if |xs| == 1 then xs[0]
    else
      var m := Max(xs[1..]);
      assert forall i :: 1 <= i < |xs| ==> xs[1..][i - 1] == xs[i];
      if xs[0] > m then xs[0] else m
  }

  /**
   * A monthly cadence: the time from the earliest to the latest entry, spread over
   * the gaps between consecutive entries, is 25 to 35 days per gap.
   */
  predicate MonthlyCadence(es: seq<Entry>)
    requires |es| >= 2 && AllIsoDates(es)
  {
    var days := EntryDays(es);
    25 * (|es| - 1) <= Max(days) - Min(days) <= 35 * (|es| - 1)
  }

  /**
   * Entries on a monthly cadence span at least 25 days and at most 35 days per
   * gap, so they are never all on one date.
   */
  lemma CadenceSpan(es: seq<Entry>)
    requires |es| >= 2 && AllIsoDates(es)
    ensures MonthlyCadence(es) ==> Min(EntryDays(es)) + 25 <= Max(EntryDays(es)) <= Min(EntryDays(es)) + 35 * (|es| - 1)
  {
  }

  // ---------------------------------------------------------------------------
  // Amounts

  /** The sum of the entries' amounts. */
  function Total(es: seq<Entry>): real
  {
    if es == [] then 0.0 else Total(es[..|es| - 1]) + es[|es| - 1].0
  }

  /** `statistics.mean(amounts)`: the signed amounts, averaged; refunds pull it down. */
  function Mean(es: seq<Entry>): real
    requires |es| > 0
  {
    Total(es) / |es| as real
  }

  /** `statistics.mean` of equal amounts is that amount, and of positive amounts is positive. */
  lemma MeanBounds(es: seq<Entry>)
    requires |es| > 0
    ensures (forall i :: 0 <= i < |es| ==> es[i].0 == es[0].0) ==> Mean(es) == es[0].0
    ensures (forall i :: 0 <= i < |es| ==> es[i].0 > 0.0) ==> Mean(es) > 0.0
  {
    TotalOfEqual(es, es[0].0);
    TotalOfPositive(es);
  }

  /** Entries that all carry amount `c` total `c` times their number. */
  lemma {:induction false} TotalOfEqual(es: seq<Entry>, c: real)
    ensures (forall i :: 0 <= i < |es| ==> es[i].0 == c) ==> Total(es) == c * |es| as real
  {
    if es != [] {
      var n := |es| - 1;
      assert forall i :: 0 <= i < n ==> es[..n][i] == es[i];
      TotalOfEqual(es[..n], c);
    }
  }

  /** Entries that are all positive total more than zero, when there is one. */
  lemma {:induction false} TotalOfPositive(es: seq<Entry>)
    ensures es != [] && (forall i :: 0 <= i < |es| ==> es[i].0 > 0.0) ==> Total(es) > 0.0
  {
    if |es| > 1 {
      var n := |es| - 1;
      assert forall i :: 0 <= i < n ==> es[..n][i] == es[i];
      TotalOfPositive(es[..n]);
    }
  }

  /** The total of a list with one entry taken out at position `i`. */
  lemma {:induction false} TotalRemove(es: seq<Entry>, i: nat)
    requires i < |es|
    ensures Total(es) == Total(es[..i] + es[i + 1..]) + es[i].0
  {
    var n := |es| - 1;
    if i < n {
      TotalRemove(es[..n], i);
      assert es[..n][..i] + es[..n][i + 1..] == (es[..i] + es[i + 1..])[..n - 1];
      assert es[..n][i] == es[i];
    } else {
      assert es[..i] + es[i + 1..] == es[..n];
    }
  }

  /** Taking out the element at position `i` takes one copy of it out of the multiset. */
  lemma RemoveAt<T>(s: seq<T>, i: nat)
    requires i < |s|
    ensures multiset(s[..i] + s[i + 1..]) == multiset(s) - multiset{s[i]}
  {
    assert s == s[..i] + [s[i]] + s[i + 1..];
  }

  /** Reordering the entries does not change their total. */
  lemma {:induction false} TotalPermutation(a: seq<Entry>, b: seq<Entry>)
    requires multiset(a) == multiset(b)
    ensures Total(a) == Total(b)
    decreases |a|
  {
    if a != [] {
      var n := |a| - 1;
      assert a == a[..n] + [a[n]];
      assert a[n] in multiset(b);
      var i :| 0 <= i < |b| && b[i] == a[n];
      var rest := b[..i] + b[i + 1..];
      RemoveAt(b, i);
      RemoveAt(a, n);
      assert a[n + 1..] == [];
      TotalPermutation(a[..n], rest);
      TotalRemove(b, i);
    } else {
      assert b == [];
    }
  }

  /** `round(x, 2)`: the nearest multiple of 0.01, a tie going up. */
  function Round2(x: real): (r: real)
    ensures -0.005 < r - x <= 0.005
    ensures (r * 100.0).Floor as real == r * 100.0
  {
    ((x * 100.0 + 0.5).Floor as real) / 100.0
  }

  // ---------------------------------------------------------------------------
  // The summary

  /** Some name with two or more entries has a date `fromisoformat` rejects, so the call raises. */
  predicate Raises(txs: seq<Transaction>): (r: bool)
    ensures r ==> exists i :: 0 <= i < |txs| && Kept(txs[i]) && !IsIsoDate(txs[i].date.value)
  {
    EntriesComeFrom(txs);
    assert forall p, e :: EntryOfKept(txs, p, e) && !IsIsoDate(e.1) ==>
      exists i :: 0 <= i < |txs| && Kept(txs[i]) && !IsIsoDate(txs[i].date.value);
    exists p :: p in Names(txs) && |EntriesOf(txs, p)| >= 2 && !AllIsoDates(EntriesOf(txs, p))
  }

  /** Entry `e` is the amount and date of a kept transaction named `p`. */
  predicate EntryOfKept(txs: seq<Transaction>, p: string, e: Entry)
  {
    exists i :: 0 <= i < |txs| && Kept(txs[i]) && txs[i].name.value == p && e == (txs[i].amount.value, txs[i].date.value)
  }

  /** Every entry of a name's group is the amount and date of a kept transaction with that name. */
  lemma {:induction false} EntriesComeFrom(txs: seq<Transaction>)
    ensures forall p, k :: 0 <= k < |EntriesOf(txs, p)| ==> EntryOfKept(txs, p, EntriesOf(txs, p)[k])
  {
    if txs != [] {
      var n := |txs| - 1;
      EntriesComeFrom(txs[..n]);
      forall p, k | 0 <= k < |EntriesOf(txs, p)|
        ensures EntryOfKept(txs, p, EntriesOf(txs, p)[k])
      {
        var front := EntriesOf(txs[..n], p);
        if k < |front| {
          assert EntryOfKept(txs[..n], p, front[k]);
          var i :| 0 <= i < n && Kept(txs[..n][i]) && txs[..n][i].name.value == p && front[k] == (txs[..n][i].amount.value, txs[..n][i].date.value);
          assert txs[..n][i] == txs[i];
          assert EntriesOf(txs, p)[k] == front[k];
        } else {
          assert EntriesOf(txs, p)[k] == (txs[n].amount.value, txs[n].date.value);
        }
      }
    }
  }

  /** What the summary reports for name `p`: the rounded mean amount when its entries recur monthly, nothing otherwise. */
  function ExpectedRecurring(txs: seq<Transaction>, p: string): Option<real>
  {
    var es := EntriesOf(txs, p);
    if |es| >= 2 && AllIsoDates(es) && MonthlyCadence(es) then Some(Round2(Mean(es))) else None
  }

  /** An average of a whole count over a positive number of gaps lies in [25, 35] exactly when the count lies in [25, 35] times the gaps. */
  lemma AverageInRange(total: int, gaps: int)
    requires gaps > 0
    ensures 25.0 <= total as real / gaps as real <= 35.0 <==> 25 * gaps <= total <= 35 * gaps
  {
    DivisionBound(total as real, gaps as real, 25.0);
    DivisionBound(total as real, gaps as real, 35.0);
  }

  /** Dividing by a positive `c` keeps the side of any bound `k`: `t / c` is at least `k` exactly when `t` is at least `k * c`. */
  lemma DivisionBound(t: real, c: real, k: real)
    requires c > 0.0
    ensures k <= t / c <==> k * c <= t
    ensures t / c <= k <==> t <= k * c
  {
    var q := t / c;
    assert q * c == t;
    ProductSign(q - k, c);
    assert (q - k) * c == t - k * c;
  }

  /** A product with a positive factor has the sign of the other factor. */
  lemma ProductSign(x: real, c: real)
    requires c > 0.0
    ensures x >= 0.0 <==> x * c >= 0.0
    ensures x <= 0.0 <==> x * c <= 0.0
  {
  }

  /** The day numbers of entries sorted by date text rise. */
  lemma SortedDaysRise(sorted: seq<Entry>)
    requires SortedByDate(sorted) && AllIsoDates(sorted)
    ensures var days := EntryDays(sorted); forall i, j :: 0 <= i <= j < |days| ==> days[i] <= days[j]
  {
    var days := EntryDays(sorted);
    forall i, j | 0 <= i < j < |days| ensures days[i] <= days[j] {
      IsoOrderIsChronological(sorted[i].1, sorted[j].1);
    }
  }

  /** Reordering entries keeps every date valid. */
  lemma DatesOfPermutation(es: seq<Entry>, sorted: seq<Entry>)
    requires multiset(sorted) == multiset(es) && AllIsoDates(sorted)
    ensures AllIsoDates(es) && |sorted| == |es|
  {
    assert |sorted| == |es| by { assert |multiset(sorted)| == |multiset(es)|; }
    forall i | 0 <= i < |es| ensures IsIsoDate(es[i].1) {
      assert es[i] in multiset(sorted);
    }
  }

  /** Every day number of `a` is a day number of its reordering `b`. */
  lemma DaysOfPermutation(a: seq<Entry>, b: seq<Entry>)
    requires multiset(a) == multiset(b) && AllIsoDates(a) && AllIsoDates(b)
    ensures forall x :: x in EntryDays(a) ==> x in EntryDays(b)
  {
    var da, db := EntryDays(a), EntryDays(b);
    forall x | x in da ensures x in db {
      var i :| 0 <= i < |da| && da[i] == x;
      assert a[i] in multiset(b);
      var k :| 0 <= k < |b| && b[k] == a[i];
      assert db[k] == x;
    }
  }

  /** Reordering entries keeps their earliest and latest day. */
  lemma SpanOfPermutation(es: seq<Entry>, sorted: seq<Entry>)
    requires |es| > 0 && multiset(sorted) == multiset(es) && AllIsoDates(sorted)
    ensures AllIsoDates(es) && |sorted| == |es|
    ensures Min(EntryDays(sorted)) == Min(EntryDays(es)) && Max(EntryDays(sorted)) == Max(EntryDays(es))
  {
    DatesOfPermutation(es, sorted);
    DaysOfPermutation(es, sorted);
    DaysOfPermutation(sorted, es);
    SameMinMax(EntryDays(sorted), EntryDays(es));
  }

  /** Two lists of numbers with the same members have the same smallest and largest member. */
  lemma SameMinMax(xs: seq<int>, ys: seq<int>)
    requires |xs| > 0 && |ys| > 0
    requires forall x :: x in xs ==> x in ys
    requires forall y :: y in ys ==> y in xs
    ensures Min(xs) == Min(ys) && Max(xs) == Max(ys)
  {
    assert Min(xs) in ys && Min(ys) in xs && Max(xs) in ys && Max(ys) in xs;
  }

  /** In a rising list the first number is the smallest and the last the largest. */
  lemma EndsOfRising(ds: seq<int>)
    requires |ds| > 0 && forall i, j :: 0 <= i <= j < |ds| ==> ds[i] <= ds[j]
    ensures Min(ds) == ds[0] && Max(ds) == ds[|ds| - 1]
  {
  }

  /** The gaps between the sorted entries' day numbers add up to the span from the earliest to the latest date. */
  lemma SortedSpan(es: seq<Entry>, sorted: seq<Entry>, days: seq<int>)
    requires |es| > 0 && SortedByDate(sorted) && multiset(sorted) == multiset(es)
    requires DayNumbers(sorted) == Some(days)
    ensures AllIsoDates(es) && |days| == |es|
    ensures Sum(Gaps(days)) == Max(EntryDays(es)) - Min(EntryDays(es))
  {
    SpanOfPermutation(es, sorted);
    SortedDaysRise(sorted);
    Telescoping(days);
    EndsOfRising(days);
  }

  /** Gaps, one fewer than the entries, spanning their dates average 25 to 35 days exactly when the entries recur monthly. */
  lemma CadenceTest(es: seq<Entry>, gaps: seq<int>)
    requires |es| >= 2 && AllIsoDates(es) && |gaps| == |es| - 1
    requires Sum(gaps) == Max(EntryDays(es)) - Min(EntryDays(es))
    ensures 25.0 <= Sum(gaps) as real / |gaps| as real <= 35.0 <==> MonthlyCadence(es)
  {
    AverageInRange(Sum(gaps), |gaps|);
  }

  /**
   * The body of the summary loop for a name with two or more entries: sort them by
   * date, parse the dates (`raises` when one is not an ISO date), and report the
   * rounded mean amount when the average gap is 25 to 35 days.
   */
  method SummarizeGroup(entries: seq<Entry>) returns (raises: bool, value: Option<real>)
    requires |entries| >= 2
    ensures raises <==> !AllIsoDates(entries)
    ensures !raises ==> value == if MonthlyCadence(entries) then Some(Round2(Mean(entries))) else None
  {
    var sorted := SortByDate(entries);
    var dates := DayNumbers(sorted);
    if dates.None? {
      assert !AllIsoDates(entries) by {
        var i :| 0 <= i < |sorted| && !IsIsoDate(sorted[i].1);
        assert sorted[i] in multiset(entries);
      }
      return true, None;
    }
    var diffs := Gaps(dates.value);
    SortedSpan(entries, sorted, dates.value);
    CadenceTest(entries, diffs);
    TotalPermutation(sorted, entries);
    // `if not diffs: continue` never fires: two or more dates give at least one gap.
    var avgDiff := Sum(diffs) as real / |diffs| as real;
    if 25.0 <= avgDiff <= 35.0 {
      var amounts := sorted;
      value := Some(Round2(Mean(amounts)));
    } else {
      value := None;
    }
    raises := false;
  }

  /** The state of the summary loop after the first `j` names: every name seen with two or more entries had valid dates, and exactly the monthly ones are recorded. */
  ghost predicate SummaryUpTo(recurring: Dict<string, real>, txs: seq<Transaction>, groups: Dict<string, seq<Entry>>, j: nat)
    requires j <= |groups|
  {
    && Distinct(recurring)
    && (forall p :: p in Keys(groups[..j]) && |EntriesOf(txs, p)| >= 2 ==> AllIsoDates(EntriesOf(txs, p)))
    && forall p :: Get(recurring, p) == (if p in Keys(groups[..j]) then ExpectedRecurring(txs, p) else None)
  }

  /** Settling the `j`-th name (recording its value or skipping it) keeps the summary loop's state. */
  lemma SummaryStep(recurring: Dict<string, real>, txs: seq<Transaction>, groups: Dict<string, seq<Entry>>, j: nat, value: Option<real>)
    requires Distinct(groups)
    requires forall k :: 0 <= k < |groups| ==> groups[k].1 == EntriesOf(txs, groups[k].0)
    requires j < |groups| && SummaryUpTo(recurring, txs, groups, j)
    requires |groups[j].1| >= 2 ==> AllIsoDates(groups[j].1)
    requires value == ExpectedRecurring(txs, groups[j].0)
    ensures SummaryUpTo(if value.Some? then Put(recurring, groups[j].0, value.value) else recurring, txs, groups, j + 1)
  {
    var name := groups[j].0;
    var next := if value.Some? then Put(recurring, name, value.value) else recurring;
    KeysOfPrefix(groups, j);
    KeyNotBefore(groups, j);
    assert groups[j].1 == EntriesOf(txs, name);
    forall p | p in Keys(groups[..j + 1]) && |EntriesOf(txs, p)| >= 2
      ensures AllIsoDates(EntriesOf(txs, p))
    {
      if p != name { assert p in Keys(groups[..j]); }
    }
    forall p ensures Get(next, p) == (if p in Keys(groups[..j + 1]) then ExpectedRecurring(txs, p) else None) {
      if p == name {
        assert Get(recurring, p) == None;
      } else {
        assert Get(next, p) == Get(recurring, p);
      }
    }
  }

  /**
   * `summarize_recurring_expenses`: `None` stands for the `ValueError` raised when a
   * name with two or more entries has a date that is not an ISO date. Otherwise
   * the result holds exactly the names whose entries recur monthly, each with its
   * mean amount rounded to cents. The order of the pairs is not stated.
   */
  method SummarizeRecurringExpenses(transactions: Option<seq<Transaction>>) returns (result: Option<Dict<string, real>>)
    ensures result.None? <==> Raises(transactions.GetOr([]))
    ensures result.Some? ==> Distinct(result.value)
    ensures result.Some? ==> forall p :: Get(result.value, p) == ExpectedRecurring(transactions.GetOr([]), p)
  {
    if transactions.None? || transactions.value == [] {
      assert forall p :: EntriesOf([], p) == [];
      return Some([]);
    }
    var txs := transactions.value;
    var groups := GroupByName(txs);
    var recurring := [];
    for j := 0 to |groups|
      invariant SummaryUpTo(recurring, txs, groups, j)
    {
      var (name, entries) := groups[j];
      KeyAt(groups, j);
      if |entries| < 2 {
        SummaryStep(recurring, txs, groups, j, None);
        continue;
      }
      var raises, value := SummarizeGroup(entries);
      if raises {
        return None;
      }
      SummaryStep(recurring, txs, groups, j, value);
      if value.Some? {
        recurring := Put(recurring, name, value.value);
      }
    }
    assert groups[..|groups|] == groups;
    forall p | p !in Names(txs) ensures ExpectedRecurring(txs, p) == None {
      EntriesOfNonName(txs, p);
    }
    result := Some(recurring);
  }
}
