/**
 * The planner (agents/planner.py): classifies a lower-cased query into one
 * intent by first match over an ordered pattern table, and extracts a context
 * of optional fields by independent keyword and number rules.
 *
 * Every pattern of the source is an alternation of literal words, so a pattern
 * is a list of words and `re.search` is substring containment; the three number
 * patterns are modelled by leftmost scanners.
 */
module Planner {
  import opened Wrappers
  import opened Text
  import opened Dict

  datatype Intent = LifeEvent | BudgetOptimization | InvestmentAnalysis | Simulation | General

  /** A regular expression `w1|w2|...` over literal words. */
  type Pattern = seq<string>

  /** `self.query_patterns`, in its declaration order, which is the classification order. */
  const QueryPatterns: seq<(Intent, seq<Pattern>)> := [
    (LifeEvent, [
      ["vacation", "wedding", "baby", "house", "car", "moving", "retirement"],
      ["life event", "major purchase", "milestone"]]),
    (BudgetOptimization, [
      ["bonus", "raise", "windfall", "extra money", "optimize", "budget"],
      ["allocate", "distribute", "spend", "save"]]),
    (InvestmentAnalysis, [
      ["portfolio", "stocks", "bonds", "investment", "market", "returns"],
      ["performance", "analysis", "recommendation"]]),
    (Simulation, [
      ["what if", "scenario", "simulate", "predict", "forecast"],
      ["job loss", "career change", "emergency"]])
  ]

  /** The position of an intent in the pattern table; `General` comes after all of them. */
  function Rank(c: Intent): (k: nat)
    ensures k <= |QueryPatterns|
    ensures k < |QueryPatterns| ==> QueryPatterns[k].0 == c
    ensures c == General <==> k == |QueryPatterns|
  {
    match c
    case LifeEvent => 0
    case BudgetOptimization => 1
    case InvestmentAnalysis => 2
    case Simulation => 3
    case General => 4
  }

  /** Some pattern of the `k`-th category matches `s`. */
  predicate CategoryMatches(s: string, k: nat)
    requires k < |QueryPatterns|
  {
    exists p :: 0 <= p < |QueryPatterns[k].1| && ContainsAny(s, QueryPatterns[k].1[p])
  }

  /** Some pattern of intent `c` matches `s` (`General` has none). */
  predicate IntentMatches(s: string, c: Intent)
  {
    c != General && CategoryMatches(s, Rank(c))
  }

  /** The nested loop of `_classify_query` from category `k` on: the first index whose category matches, or the table size. */
  function FirstMatchFrom(s: string, k: nat): (i: nat)
    requires k <= |QueryPatterns|
    ensures k <= i <= |QueryPatterns|
    ensures i < |QueryPatterns| ==> CategoryMatches(s, i)
    ensures forall j :: k <= j < i ==> !CategoryMatches(s, j)
    decreases |QueryPatterns| - k
  {
    if k == |QueryPatterns| then k
    else if CategoryMatches(s, k) then k
    else FirstMatchFrom(s, k + 1)
  }

  /**
   * `_classify_query`: the first intent in table order with a matching pattern,
   * `General` when there is none.
   */
  function Classify(s: string): (r: Intent)
    ensures r != General ==> IntentMatches(s, r)
    ensures forall c :: Rank(c) < Rank(r) ==> !IntentMatches(s, c)
    ensures r == General <==> forall c :: !IntentMatches(s, c)
  {
    var i := FirstMatchFrom(s, 0);
    if i < |QueryPatterns| then
      assert Rank(QueryPatterns[i].0) == i by {
        assert i == 0 || i == 1 || i == 2 || i == 3;
      }
      assert IntentMatches(s, QueryPatterns[i].0);
      QueryPatterns[i].0
    else
      assert forall c :: !IntentMatches(s, c) by {
        forall c ensures !IntentMatches(s, c) {
          if c != General { assert Rank(c) < i; }
        }
      }
      General
  }

  /** How many categories from `k` on have a matching pattern. */
  function MatchCountFrom(s: string, k: nat): (n: nat)
    requires k <= |QueryPatterns|
    ensures n <= |QueryPatterns| - k
    decreases |QueryPatterns| - k
  {
    if k == |QueryPatterns| then 0
    else (if CategoryMatches(s, k) then 1 else 0) + MatchCountFrom(s, k + 1)
  }

  /** The length of the list comprehension in `_extract_context` that decides `requires_multiple_agents`. */
  function MatchCount(s: string): (n: nat)
    ensures n <= |QueryPatterns|
    ensures n == 0 <==> forall j :: 0 <= j < |QueryPatterns| ==> !CategoryMatches(s, j)
  {
    MatchCountZero(s, 0);
    MatchCountFrom(s, 0)
  }

  /** No category at or after `k` matches exactly when the count from `k` is zero. */
  lemma {:induction false} MatchCountZero(s: string, k: nat)
    requires k <= |QueryPatterns|
    ensures MatchCountFrom(s, k) == 0 <==> forall j :: k <= j < |QueryPatterns| ==> !CategoryMatches(s, j)
    decreases |QueryPatterns| - k
  {
    if k < |QueryPatterns| { MatchCountZero(s, k + 1); }
  }

  /** Categories before `i` that do not match add nothing to the count. */
  lemma {:induction false} MatchCountSkip(s: string, k: nat, i: nat)
    requires k <= i <= |QueryPatterns|
    requires forall j :: k <= j < i ==> !CategoryMatches(s, j)
    ensures MatchCountFrom(s, k) == MatchCountFrom(s, i)
    decreases i - k
  {
    if k < i { MatchCountSkip(s, k + 1, i); }
  }

  /**
   * The multi-intent count and the classification agree at the ends: the count is
   * zero exactly when the query is `General`, and a `Simulation` query, last in the
   * table, has at most one matching category. So `requires_multiple_agents` is
   * false for both.
   */
  lemma MultipleIntentsNeedEarlyClass(s: string)
    ensures Classify(s) == General <==> MatchCount(s) == 0
    ensures Classify(s) == Simulation ==> MatchCount(s) == 1
    ensures MatchCount(s) > 1 ==> Classify(s) in {LifeEvent, BudgetOptimization, InvestmentAnalysis}
  {
    MatchCountZero(s, 0);
    var i := FirstMatchFrom(s, 0);
    MatchCountSkip(s, 0, i);
    if i == 3 {
      MatchCountZero(s, 4);
    }
  }

  // ---------------------------------------------------------------------------
  // Number scanners for the three numeric patterns

  /** The first digit at or after `i`, or `|s|`. */
  function FirstDigitFrom(s: string, i: nat): (j: nat)
    requires i <= |s|
    ensures i <= j <= |s|
    ensures j < |s| ==> IsDigit(s[j])
    ensures forall k :: i <= k < j ==> !IsDigit(s[k])
    decreases |s| - i
  {
    if i == |s| || IsDigit(s[i]) then i else FirstDigitFrom(s, i + 1)
  }

  /** A thousands group `,ddd` at position `a`. */
  predicate GroupAt(s: string, a: nat)
  {
    a + 4 <= |s| && s[a] == ',' && IsDigit(s[a + 1]) && IsDigit(s[a + 2]) && IsDigit(s[a + 3])
  }

  /** `s[a..b]` is zero or more thousands groups, `(?:,\d{3})*`. */
  predicate Groups(s: string, a: nat, b: nat)
    decreases b - a
  {
    a <= b <= |s| && (a == b || (a + 4 <= b && GroupAt(s, a) && Groups(s, a + 4, b)))
  }

  /** Greedy `(?:,\d{3})*` from `j`: as many thousands groups as follow, so no further group starts where they end. */
  function GroupsEnd(s: string, j: nat): (e: nat)
    requires j <= |s|
    ensures j <= e <= |s|
    ensures Groups(s, j, e) && !GroupAt(s, e)
    ensures forall k :: j <= k < e ==> IsDigit(s[k]) || s[k] == ','
    decreases |s| - j
  {
    if GroupAt(s, j) then GroupsEnd(s, j + 4) else j
  }

  /** Of two runs of groups from the same place, the shorter one ends where a further group of the longer one starts. */
  lemma {:induction false} GroupsAlign(s: string, j: nat, e: nat, y: nat)
    requires Groups(s, j, e) && Groups(s, j, y) && y < e
    ensures GroupAt(s, y)
    decreases e - j
  {
    if j < y {
      GroupsAlign(s, j + 4, e, y);
    }
  }

  /** Optional `(?:\.\d{2})` at `j`: a point and exactly two digits, taken whenever they are there. */
  function CentsEnd(s: string, j: nat): (e: nat)
    requires j <= |s|
    ensures e <= |s|
    ensures e == j || (e == j + 3 && s[j] == '.' && IsDigit(s[j + 1]) && IsDigit(s[j + 2]))
    ensures j + 3 <= |s| && s[j] == '.' && IsDigit(s[j + 1]) && IsDigit(s[j + 2]) ==> e == j + 3
  {
    if j + 3 <= |s| && s[j] == '.' && IsDigit(s[j + 1]) && IsDigit(s[j + 2]) then j + 3 else j
  }

  /**
   * Optional `(?:\.\d+)` at `j`: taken exactly when a point and a digit follow, and
   * then with every digit after the point.
   */
  function FractionEnd(s: string, j: nat): (e: nat)
    requires j <= |s|
    ensures e <= |s|
    ensures e == j || (j + 1 < e && s[j] == '.' && forall k :: j < k < e ==> IsDigit(s[k]))
    ensures e > j <==> j + 1 < |s| && s[j] == '.' && IsDigit(s[j + 1])
    ensures e > j ==> e == |s| || !IsDigit(s[e])
  {
    if j + 1 < |s| && s[j] == '.' && IsDigit(s[j + 1]) then DigitRunEnd(s, j + 1) else j
  }

  /** `\d+(?:,\d{3})*` on `s[d..g]`, split at `n` into the digits and the thousands groups. */
  predicate IntegerParts(s: string, d: nat, n: nat, g: nat)
  {
    d < n <= g <= |s| && (forall k :: d <= k < n ==> IsDigit(s[k])) && Groups(s, n, g)
  }

  /**
   * The integer part the scanners take from the digit at `d` ends at the latest place
   * any integer part from `d` can end; one that ends sooner is followed by a digit or a comma.
   */
  lemma IntegerLongest(s: string, d: nat, n': nat, g': nat)
    requires d < |s| && IsDigit(s[d])
    requires IntegerParts(s, d, n', g')
    ensures IntegerParts(s, d, DigitRunEnd(s, d), GroupsEnd(s, DigitRunEnd(s, d)))
    ensures g' <= GroupsEnd(s, DigitRunEnd(s, d))
    ensures g' < GroupsEnd(s, DigitRunEnd(s, d)) ==> IsDigit(s[g']) || s[g'] == ','
  {
    var n := DigitRunEnd(s, d);
    var g := GroupsEnd(s, n);
    if n' < n {
      assert IsDigit(s[n']) && !GroupAt(s, n');
    } else if g' > g {
      GroupsAlign(s, n, g', g);
    } else if g' < g {
      GroupsAlign(s, n, g, g');
    }
  }

  /** The money pattern's group `\d+(?:,\d{3})*(?:\.\d{2})?` matches `s[d..e]`. */
  ghost predicate IsAmountAt(s: string, d: nat, e: nat)
  {
    exists n: nat, g: nat :: IntegerParts(s, d, n, g) && (e == g || (g + 3 == e <= |s| && s[g] == '.' && IsDigit(s[g + 1]) && IsDigit(s[g + 2])))
  }

  /** `s[d..e]` is the longest text from `d` that the money pattern's group matches. */
  ghost predicate LongestAmountAt(s: string, d: nat, e: nat)
  {
    IsAmountAt(s, d, e) && forall e': nat :: IsAmountAt(s, d, e') ==> e' <= e
  }

  /** From a digit, the scanners take the longest amount there is. */
  lemma AmountLongest(s: string, d: nat)
    requires d < |s| && IsDigit(s[d])
    ensures LongestAmountAt(s, d, CentsEnd(s, GroupsEnd(s, DigitRunEnd(s, d))))
  {
    var g := GroupsEnd(s, DigitRunEnd(s, d));
    var e := CentsEnd(s, g);
    IntegerLongest(s, d, DigitRunEnd(s, d), g);
    forall e': nat | IsAmountAt(s, d, e')
      ensures e' <= e
    {
      var n': nat, g': nat :| IntegerParts(s, d, n', g') && (e' == g' || (g' + 3 == e' <= |s| && s[g'] == '.' && IsDigit(s[g' + 1]) && IsDigit(s[g' + 2])));
      IntegerLongest(s, d, n', g');
    }
  }

  /** The expense-override pattern's group `\d+(?:,\d{3})*(?:\.\d+)?` matches `s[d..e]`. */
  ghost predicate IsNumberAt(s: string, d: nat, e: nat)
  {
    exists n: nat, g: nat :: IntegerParts(s, d, n, g) && (e == g || (g + 1 < e <= |s| && s[g] == '.' && forall k :: g < k < e ==> IsDigit(s[k])))
  }

  /** `s[d..e]` is the longest text from `d` that the expense-override pattern's group matches. */
  ghost predicate LongestNumberAt(s: string, d: nat, e: nat)
  {
    IsNumberAt(s, d, e) && forall e': nat :: IsNumberAt(s, d, e') ==> e' <= e
  }

  /** From a digit, the scanners take the longest override number there is. */
  lemma NumberLongest(s: string, d: nat)
    requires d < |s| && IsDigit(s[d])
    ensures LongestNumberAt(s, d, FractionEnd(s, GroupsEnd(s, DigitRunEnd(s, d))))
  {
    var g := GroupsEnd(s, DigitRunEnd(s, d));
    var e := FractionEnd(s, g);
    IntegerLongest(s, d, DigitRunEnd(s, d), g);
    forall e': nat | IsNumberAt(s, d, e')
      ensures e' <= e
    {
      var n': nat, g': nat :| IntegerParts(s, d, n', g') && (e' == g' || (g' + 1 < e' <= |s| && s[g'] == '.' && forall k :: g' < k < e' ==> IsDigit(s[k])));
      IntegerLongest(s, d, n', g');
    }
  }

  /**
   * `re.findall(r'\$?(\d+(?:,\d{3})*(?:\.\d{2})?)', s)[0]` with its commas removed.
   * The first match starts at the first digit (a `$` just before it is outside the
   * group), so the amount is present exactly when `s` has a digit.
   */
  function FirstAmount(s: string): (r: Option<string>)
    ensures r.Some? <==> HasDigit(s)
    ensures r.Some? ==> forall k :: 0 <= k < |r.value| ==> r.value[k] != ','
  {
    var i := FirstDigitFrom(s, 0);
    if i == |s| then None
    else
      assert IsDigit(s[i]);
      Some(StripCommas(s[i..CentsEnd(s, GroupsEnd(s, DigitRunEnd(s, i)))]))
  }

  /**
   * The number both money patterns capture, once its commas are removed: digits
   * and comma groups from `d` to `g`, then nothing or a point and digits up to `e`,
   * give decimal text that starts with the digit at `d`.
   */
  lemma StrippedNumber(s: string, d: nat, g: nat, e: nat)
    requires d < g <= e <= |s| && IsDigit(s[d])
    requires forall k :: d <= k < g ==> IsDigit(s[k]) || s[k] == ','
    requires e == g || (g + 1 < e && s[g] == '.' && forall k :: g < k < e ==> IsDigit(s[k]))
    ensures IsUnsignedDecimal(StripCommas(s[d..e])) && StripCommas(s[d..e])[0] == s[d]
  {
    var a := s[d..g];
    var f := if e == g then [] else s[g + 1..e];
    StrippedSplit(s, d, g, e);
    assert AllDigits(StripCommas(a)) && StripCommas(a)[0] == s[d] by {
      assert forall k :: 0 <= k < |a| ==> a[k] == s[d + k];
      StripCommasDigits(a);
    }
    assert AllDigits(f) by {
      assert forall k :: 0 <= k < |f| ==> f[k] == s[g + 1 + k];
    }
    DecimalShape(StripCommas(a), f);
  }

  /** Removing the commas from a grouped number leaves the integer part stripped and the decimals untouched. */
  lemma StrippedSplit(s: string, d: nat, g: nat, e: nat)
    requires d < g <= e <= |s|
    requires e == g || (g + 1 < e && s[g] == '.' && forall k :: g < k < e ==> IsDigit(s[k]))
    ensures StripCommas(s[d..e]) == if e == g then StripCommas(s[d..g]) else StripCommas(s[d..g]) + ['.'] + s[g + 1..e]
  {
    var a, b := s[d..g], s[g..e];
    assert s[d..e] == a + b;
    StripCommasConcat(a, b);
    if e != g {
      var f := s[g + 1..e];
      assert b == ['.'] + f;
      assert forall k :: 0 <= k < |f| ==> f[k] == s[g + 1 + k];
      StripCommasNone(f);
      assert StripCommas(b) == ['.'] + f;
    }
  }

  /**
   * The extracted amount: present exactly when the query has a digit; then it is the
   * longest text the money pattern's group matches from the first digit, commas
   * removed, so it starts with that digit, is digits with at most one point followed
   * by decimals, and Python's `float()` accepts it with a non-negative value.
   */
  lemma AmountShape(s: string)
    ensures FirstAmount(s).Some? <==> HasDigit(s)
    ensures FirstAmount(s).Some? ==>
      exists i: nat, e: nat ::
        && i < e <= |s| && IsDigit(s[i]) && (forall k :: 0 <= k < i ==> !IsDigit(s[k]))
        && LongestAmountAt(s, i, e) && FirstAmount(s).value == StripCommas(s[i..e])
    ensures FirstAmount(s).Some? ==>
      var a := FirstAmount(s).value;
      && IsUnsignedDecimal(a)
      && a[0] == s[FirstDigitFrom(s, 0)]
      && ParseDecimal(a) == Some(UnsignedDecimalValue(a)) && ParseDecimal(a).value >= 0.0
  {
    var i := FirstDigitFrom(s, 0);
    if i < |s| {
      var g := GroupsEnd(s, DigitRunEnd(s, i));
      StrippedNumber(s, i, g, CentsEnd(s, g));
      AmountLongest(s, i);
    } else {
      assert !HasDigit(s);
    }
  }

  /** An amount the source's documentation names: `"$5,000"` gives `"5000"`, the dollar sign and the comma dropped. */
  lemma AmountWithDollarAndComma()
    ensures FirstAmount("$5,000") == Some("5000")
  {
    var m := "$5,000";
    assert FirstDigitFrom(m, 0) == 1;
    assert GroupsEnd(m, DigitRunEnd(m, 1)) == 6 by {
      assert DigitRunEnd(m, 1) == 2;
      assert GroupsEnd(m, 6) == 6;
    }
    assert CentsEnd(m, 6) == 6;
    assert StripCommas(m[1..6]) == "5000" by {
      assert m[1..6] == "5,000";
      assert "5" + "000" == "5000";
      StripCommasNone("000");
      assert StripCommas(",000") == "000";
      assert StripCommas("5,000") == "5" + StripCommas(",000");
    }
  }

  /** An amount with cents: `"$5,000.50"` gives `"5000.50"`, which `float()` reads as 5000.5. */
  lemma AmountWithCents()
    ensures FirstAmount("$5,000.50") == Some("5000.50")
    ensures ParseDecimal("5000.50") == Some(5000.5)
  {
    var m := "$5,000.50";
    assert FirstDigitFrom(m, 0) == 1;
    assert GroupsEnd(m, DigitRunEnd(m, 1)) == 6 by {
      assert DigitRunEnd(m, 1) == 2;
      assert GroupsEnd(m, 6) == 6;
    }
    assert CentsEnd(m, 6) == 9;
    assert StripCommas(m[1..9]) == "5000.50" by {
      assert "5" + "000.50" == "5000.50";
      assert m[1..9] == "5" + ",000.50";
      assert StripCommas(",000.50") == "000.50" by {
        StripCommasNone("000.50");
      }
      StripCommasConcat("5", ",000.50");
    }
    CentsValue();
  }

  /** `float("5000.50")` is 5000.5: five thousand and fifty hundredths. */
  lemma CentsValue()
    ensures ParseDecimal("5000.50") == Some(5000.5)
  {
    CentsSplit();
    CentsParts();
  }

  /** The two digit runs of `"5000.50"`: five thousand, and fifty hundredths. */
  lemma CentsParts()
    ensures DigitsValue("5000") == 5000 && FractionValue("50") == 0.5
  {
    assert DigitsValue("5000") == 5000 by {
      assert "5000"[..3] == "500" && "500"[..2] == "50" && "50"[..1] == "5" && "5"[..0] == [];
    }
    assert DigitsValue("50") == 50 by {
      assert "50"[..1] == "5" && "5"[..0] == [];
    }
    assert Pow10(2) == 100;
  }

  /** `"5000.50"` is decimal text whose value is that of `"5000"` plus the fraction `"50"`. */
  lemma CentsSplit()
    ensures IsUnsignedDecimal("5000.50") && UnsignedDecimalValue("5000.50") == DigitsValue("5000") as real + FractionValue("50")
  {
    var t := "5000.50";
    DecimalShape("5000", "50");
    assert "5000" + ['.'] + "50" == t;
    RunEndAt(t, 0, 4);
    assert t[..4] == "5000" && t[5..] == "50";
  }

  /** A plain run of digits after words with no digit in them is the amount, whole. */
  lemma PlainNumberAfterWords(w: string, n: string)
    requires forall k :: 0 <= k < |w| ==> !IsDigit(w[k])
    requires |n| > 0 && AllDigits(n)
    ensures FirstAmount(w + n) == Some(n)
  {
    var s := w + n;
    assert forall k :: |w| <= k < |s| ==> s[k] == n[k - |w|];
    assert FirstDigitFrom(s, 0) == |w| by {
      assert IsDigit(s[|w|]);
      assert forall k :: 0 <= k < |w| ==> s[k] == w[k];
    }
    assert DigitRunEnd(s, |w|) == |s|;
    assert s[|w|..|s|] == n;
    StripCommasNone(n);
  }

  /** An amount inside words: `"bonus of 5000"` gives `"5000"`. */
  lemma AmountInWords()
    ensures FirstAmount("bonus of 5000") == Some("5000")
  {
    PlainNumberAfterWords("bonus of ", "5000");
    assert "bonus of " + "5000" == "bonus of 5000";
  }

  // ---------------------------------------------------------------------------
  // Timeframe

  /** A `(count, unit)` pair as `re.findall` returns it: both strings. */
  datatype Timeframe = Timeframe(count: string, unit: string)

  /** The units of the time pattern, in the order of its alternation. */
  const Units: seq<string> := ["month", "year", "week", "day"]

  /**
   * The alternation `(month|year|week|day)` at position `k`: the unit `s` continues
   * with, if any. No two units start with the same letter, so at most one fits.
   */
  function UnitAt(s: string, k: nat): (u: Option<string>)
    requires k <= |s|
    ensures u.Some? ==> u.value in Units
    ensures forall w :: w in Units ==> (u == Some(w) <==> w <= s[k..])
  {
    UnitsDiffer(s[k..]);
    if "month" <= s[k..] then Some("month")
    else if "year" <= s[k..] then Some("year")
    else if "week" <= s[k..] then Some("week")
    else if "day" <= s[k..] then Some("day")
    else None
  }

  /** No text starts with two different units: they start with four different letters. */
  lemma UnitsDiffer(t: string)
    ensures forall w, w' :: w in Units && w' in Units && w <= t && w' <= t ==> w == w'
  {
    forall w, w' | w in Units && w' in Units && w <= t && w' <= t
      ensures w == w'
    {
      assert w[0] == t[0] == w'[0];
    }
  }

  /** `(\d+)\s*(month|year|week|day)s?` tried at position `i`: greedy digits, greedy spaces, then a unit. */
  function TimeframeAt(s: string, i: nat): (r: Option<Timeframe>)
    requires i <= |s|
    ensures r.Some? ==> |r.value.count| > 0 && AllDigits(r.value.count) && r.value.unit in Units
  {
    if i < |s| && IsDigit(s[i]) then
      var j := DigitRunEnd(s, i);
      match UnitAt(s, SpaceRunEnd(s, j))
      case Some(u) =>
        assert forall k :: 0 <= k < j - i ==> s[i..j][k] == s[i + k];
        Some(Timeframe(s[i..j], u))
      case None => None
    else None
  }

  /** From position `i`, `s` reads the digits `c`, then the white space `sp`, then the unit `u`. */
  ghost predicate TimeframeText(s: string, i: nat, c: string, sp: string, u: string)
  {
    && i + |c| + |sp| <= |s| && |c| > 0 && AllDigits(c)
    && (forall k :: 0 <= k < |sp| ==> IsSpace(sp[k]))
    && u in Units
    && s[i..i + |c|] == c && s[i + |c|..i + |c| + |sp|] == sp && u <= s[i + |c| + |sp|..]
  }

  /**
   * The time pattern matches at `i` with groups `(c, u)` exactly when `s` reads there
   * digits `c`, some white space and the unit `u`. Backtracking finds nothing the greedy
   * reading misses: a unit starts with a letter, which is neither a digit nor white space.
   */
  lemma TimeframeAtMatches(s: string, i: nat, c: string, u: string)
    requires i <= |s|
    ensures TimeframeAt(s, i) == Some(Timeframe(c, u)) <==> exists sp :: TimeframeText(s, i, c, sp, u)
  {
    if TimeframeAt(s, i) == Some(Timeframe(c, u)) {
      var j := DigitRunEnd(s, i);
      var q := SpaceRunEnd(s, j);
      var sp := s[j..q];
      assert forall k :: 0 <= k < |sp| ==> sp[k] == s[j + k];
      assert u <= s[q..];
      assert TimeframeText(s, i, c, sp, u);
    }
    if sp :| TimeframeText(s, i, c, sp, u) {
      TimeframeTextRead(s, i, c, sp, u);
    }
  }

  /** Digits, white space and a unit at `i` are what the time pattern matches there. */
  lemma TimeframeTextRead(s: string, i: nat, c: string, sp: string, u: string)
    requires TimeframeText(s, i, c, sp, u)
    ensures TimeframeAt(s, i) == Some(Timeframe(c, u))
  {
    TimeframeTextParts(s, i, c, sp, u);
  }

  /** Where digits, white space and a unit are read from `i`, the digit run and the space run end between them. */
  lemma TimeframeTextParts(s: string, i: nat, c: string, sp: string, u: string)
    requires TimeframeText(s, i, c, sp, u)
    ensures i + |c| < |s| && s[i..i + |c|] == c && DigitRunEnd(s, i) == i + |c|
    ensures SpaceRunEnd(s, i + |c|) == i + |c| + |sp| && u <= s[i + |c| + |sp|..]
  {
    var j := i + |c|;
    var q := j + |sp|;
    SliceIndex(s, i, j, c);
    SliceIndex(s, j, q, sp);
    assert s[q] == u[0] by {
      assert s[q..][0] == u[0];
    }
    RunEndAt(s, i, j);
    SpaceRunEndAt(s, j, q);
  }

  /** The least position at or after `i` where the pattern matches, or `|s|` when there is none. */
  function TimeframeStart(s: string, i: nat): (k: nat)
    requires i <= |s|
    ensures i <= k <= |s|
    ensures k < |s| ==> TimeframeAt(s, k).Some?
    ensures forall m :: i <= m < k ==> TimeframeAt(s, m).None?
    decreases |s| - i
  {
    if i == |s| || TimeframeAt(s, i).Some? then i else TimeframeStart(s, i + 1)
  }

  /** `re.findall(time_pattern, s)[0]`, the first `(count, unit)` match. */
  function FirstTimeframe(s: string): (r: Option<Timeframe>)
    ensures r.Some? ==> |r.value.count| > 0 && AllDigits(r.value.count) && r.value.unit in Units
    ensures r.Some? ==> exists k :: 0 <= k < |s| && TimeframeAt(s, k) == r
  {
    var k := TimeframeStart(s, 0);
    if k < |s| then TimeframeAt(s, k) else None
  }

  /**
   * The timeframe is the leftmost place where `s` reads digits, white space and a
   * unit, and holds those digits and that unit in singular form; it is absent exactly
   * when `s` reads so nowhere.
   */
  lemma TimeframeShape(s: string)
    ensures FirstTimeframe(s).None? <==> forall k :: 0 <= k <= |s| ==> TimeframeAt(s, k).None?
    ensures FirstTimeframe(s).None? <==> forall i: nat, c, sp, u :: !TimeframeText(s, i, c, sp, u)
    ensures FirstTimeframe(s).Some? ==>
      var t := FirstTimeframe(s).value;
      && |t.count| > 0 && AllDigits(t.count) && t.unit in Units
      && exists i: nat, sp :: TimeframeText(s, i, t.count, sp, t.unit)
           && forall m: nat, c', sp', u' :: m < i ==> !TimeframeText(s, m, c', sp', u')
  {
    var k := TimeframeStart(s, 0);
    assert TimeframeAt(s, |s|).None?;
    forall i: nat, c, sp, u | TimeframeText(s, i, c, sp, u)
      ensures k <= i < |s| && TimeframeAt(s, i) == Some(Timeframe(c, u))
    {
      TimeframeAtMatches(s, i, c, u);
    }
    if k < |s| {
      var t := TimeframeAt(s, k).value;
      TimeframeAtMatches(s, k, t.count, t.unit);
    }
  }

  /** Positions without a digit never start a timeframe, so the search passes over them. */
  lemma {:induction false} TimeframeStartSkips(s: string, i: nat, k: nat)
    requires i <= k <= |s|
    requires forall m :: i <= m < k ==> !IsDigit(s[m])
    ensures TimeframeStart(s, i) == TimeframeStart(s, k)
    decreases k - i
  {
    if i < k {
      TimeframeStartSkips(s, i + 1, k);
    }
  }

  /** The source's own example: "the next 6 months" gives the timeframe `("6", "month")`. */
  lemma SixMonths()
    ensures FirstTimeframe("the next 6 months") == Some(Timeframe("6", "month"))
  {
    var s := "the next 6 months";
    SixMonthsAt();
    assert TimeframeStart(s, 0) == TimeframeStart(s, 9) by {
      assert forall m :: 0 <= m < 9 ==> !IsDigit(s[m]);
      TimeframeStartSkips(s, 0, 9);
    }
  }

  /** In "the next 6 months" the time pattern matches at the digit, position 9. */
  lemma SixMonthsAt()
    ensures TimeframeAt("the next 6 months", 9) == Some(Timeframe("6", "month"))
  {
    var s := "the next 6 months";
    assert s[9..10] == "6" && s[10..11] == " " && s[11..][..5] == "month";
    TimeframeTextRead(s, 9, "6", " ", "month");
  }

  /**
   * The query of the source's worked example, lower-cased as `process` does first. It
   * is written in pieces cut where the amount, the timeframe and "explain" start.
   * Whole, as the comment at agents/planner.py:152-154 gives it before lower-casing:
   * "I got a $5,000 bonus and want to optimize my budget for the next 6 months. Can you explain it in simple terms?"
   */
  const WorkedPieces: seq<string> := [
    "i got a ", "$5,000 bonus ", "and want to optimize my budget ", "for the next ",
    "6 month", "s. can you ", "explain", " it in simple terms?"]
  const WorkedQuery: string := WorkedPieces[0] + WorkedPieces[1] + WorkedPieces[2] + WorkedPieces[3]
    + WorkedPieces[4] + WorkedPieces[5] + WorkedPieces[6] + WorkedPieces[7]

  /**
   * The source's worked example: the amount is "5000", the timeframe `("6", "month")`,
   * and an explanation is asked for.
   */
  lemma WorkedExample()
    ensures FirstAmount(WorkedQuery) == Some("5000")
    ensures FirstTimeframe(WorkedQuery) == Some(Timeframe("6", "month"))
    ensures NeedsExplanation(WorkedQuery)
  {
    var w := WorkedPieces;
    WorkedPiecesFacts();
    var s := WorkedQuery;
    WorkedLayout(w[0], w[1], w[2], w[3], w[4], w[5], w[6], w[7]);
    AmountAfterDollar(s);
    TimeframeAfterAmount(s);
    ExplanationAsked(s);
  }

  /** The worked example's pieces are lower-case, and those around the amount hold no digit. */
  lemma WorkedPiecesFacts()
    ensures |WorkedPieces| == 8
    ensures |WorkedPieces[0]| == 8 && |WorkedPieces[2]| == 31 && |WorkedPieces[3]| == 13
    ensures |WorkedPieces[5]| == 11
    ensures forall k :: 0 <= k < 8 ==> !IsDigit(WorkedPieces[0][k])
    ensures forall k :: 0 <= k < 31 ==> !IsDigit(WorkedPieces[2][k])
    ensures forall k :: 0 <= k < 13 ==> !IsDigit(WorkedPieces[3][k])
    ensures forall i :: 0 <= i < 8 ==> AllLower(WorkedPieces[i])
  {
    NoDigitPieces(WorkedPieces[0], WorkedPieces[2], WorkedPieces[3]);
    forall i | 0 <= i < 8
      ensures AllLower(WorkedPieces[i])
    {
      LowerPiece(WorkedPieces[i]);
    }
  }

  /** The worked example's text before the amount and between the amount and the timeframe holds no digit. */
  lemma NoDigitPieces(a: string, b: string, c: string)
    requires a == "i got a " && b == "and want to optimize my budget " && c == "for the next "
    ensures forall k :: 0 <= k < |a| ==> !IsDigit(a[k])
    ensures forall k :: 0 <= k < |b| ==> !IsDigit(b[k])
    ensures forall k :: 0 <= k < |c| ==> !IsDigit(c[k])
  {
  }

  /** Each piece of the worked example is lower-case. */
  lemma LowerPiece(p: string)
    requires p in WorkedPieces
    ensures AllLower(p)
  {
  }

  /**
   * Pieces laid out as the worked example's: the query reads no digit before the
   * amount, then "$5,000 bonus ", no digit up to "6 month", and "explain" at 83.
   */
  lemma WorkedLayout(p0: string, p1: string, p2: string, p3: string, p4: string, p5: string, p6: string, p7: string)
    requires |p0| == 8 && forall k :: 0 <= k < 8 ==> !IsDigit(p0[k])
    requires p1 == "$5,000 bonus "
    requires |p2| == 31 && forall k :: 0 <= k < 31 ==> !IsDigit(p2[k])
    requires |p3| == 13 && forall k :: 0 <= k < 13 ==> !IsDigit(p3[k])
    requires p4 == "6 month" && |p5| == 11 && p6 == "explain"
    requires AllLower(p0) && AllLower(p1) && AllLower(p2) && AllLower(p3)
    requires AllLower(p4) && AllLower(p5) && AllLower(p6) && AllLower(p7)
    ensures var s := p0 + p1 + p2 + p3 + p4 + p5 + p6 + p7;
      && 90 <= |s| && AllLower(s)
      && (forall k :: 0 <= k < 8 ==> !IsDigit(s[k])) && s[8..21] == "$5,000 bonus "
      && (forall k :: 21 <= k < 65 ==> !IsDigit(s[k])) && s[65..72] == "6 month"
      && s[83..90] == "explain"
  {
  }

  /** A text with no digit before position 8 and "$5,000 bonus " from there has the amount "5000". */
  lemma AmountAfterDollar(s: string)
    requires 21 <= |s| && (forall k :: 0 <= k < 8 ==> !IsDigit(s[k])) && s[8..21] == "$5,000 bonus "
    ensures FirstAmount(s) == Some("5000")
  {
    assert "5" + "000" == "5000";
    SliceIndex(s, 8, 21, "$5,000 bonus ");
    assert !IsDigit(s[8]) && IsDigit(s[9]);
    assert FirstDigitFrom(s, 0) == 9;
    assert GroupsEnd(s, DigitRunEnd(s, 9)) == 14 by {
      assert DigitRunEnd(s, 9) == 10;
      assert GroupAt(s, 10) && !GroupAt(s, 14);
    }
    assert CentsEnd(s, 14) == 14;
    assert StripCommas(s[9..14]) == "5000" by {
      assert s[9..14] == "5" + ",000";
      StripCommasNone("000");
      StripCommasConcat("5", ",000");
    }
  }

  /**
   * In such a text, with no digit from 21 to 65 and "6 month" there, the timeframe is
   * `("6", "month")`: the digits of the amount are followed by no unit.
   */
  lemma TimeframeAfterAmount(s: string)
    requires 72 <= |s| && (forall k :: 0 <= k < 8 ==> !IsDigit(s[k])) && s[8..21] == "$5,000 bonus "
    requires forall k :: 21 <= k < 65 ==> !IsDigit(s[k])
    requires s[65..72] == "6 month"
    ensures FirstTimeframe(s) == Some(Timeframe("6", "month"))
  {
    SixMonthAt(s);
    AmountChars(s);
    AmountDigitsNoUnit(s);
    forall m | 0 <= m < 65 && (m < 9 || 14 <= m) ensures TimeframeAt(s, m).None? {
      if 14 <= m < 21 { assert !IsDigit(s[m]); }
    }
    var k := TimeframeStart(s, 0);
    assert k == 65;
  }

  /** The characters of "$5,000 bonus " that the scanners look at, read from position 8. */
  lemma AmountChars(s: string)
    requires 21 <= |s| && s[8..21] == "$5,000 bonus "
    ensures s[8] == '$' && s[9] == '5' && s[10] == ',' && s[11] == '0' && s[12] == '0' && s[13] == '0'
    ensures forall m :: 14 <= m < 21 ==> !IsDigit(s[m])
    ensures s[14] == ' ' && s[15] == 'b'
  {
    SliceIndex(s, 8, 21, "$5,000 bonus ");
  }

  /** A text reading "6 month" from position 65 has the timeframe `("6", "month")` there. */
  lemma SixMonthAt(s: string)
    requires 72 <= |s| && s[65..72] == "6 month"
    ensures TimeframeAt(s, 65) == Some(Timeframe("6", "month"))
  {
    SliceIndex(s, 65, 72, "6 month");
    assert s[65..66] == "6" && s[66..67] == " " && s[67..][..5] == "month";
    TimeframeTextRead(s, 65, "6", " ", "month");
  }

  /** In a text reading "$5,000 bonus " from position 8, no digit of the amount starts a timeframe. */
  lemma AmountDigitsNoUnit(s: string)
    requires 21 <= |s| && s[9] == '5' && s[10] == ',' && s[11] == '0' && s[12] == '0' && s[13] == '0'
    requires s[14] == ' ' && s[15] == 'b'
    ensures forall k :: 9 <= k < 14 ==> TimeframeAt(s, k).None?
  {
    DigitsThenNoUnit(s, 9, 10, 10);
    DigitsThenNoUnit(s, 11, 14, 15);
    DigitsThenNoUnit(s, 12, 14, 15);
    DigitsThenNoUnit(s, 13, 14, 15);
  }

  /**
   * Digits from `k` to `e`, then white space up to `q`, where neither a digit, white
   * space nor a unit's first letter stands: no timeframe starts at `k`.
   */
  lemma DigitsThenNoUnit(s: string, k: nat, e: nat, q: nat)
    requires k < e <= q < |s|
    requires (forall m :: k <= m < e ==> IsDigit(s[m])) && !IsDigit(s[e])
    requires (forall m :: e <= m < q ==> IsSpace(s[m])) && !IsSpace(s[q])
    requires s[q] != 'm' && s[q] != 'y' && s[q] != 'w' && s[q] != 'd'
    ensures TimeframeAt(s, k).None?
  {
    RunEndAt(s, k, e);
    SpaceRunEndAt(s, e, q);
    assert s[q..][0] == s[q];
  }

  /** Lower-case text with "explain" at position 83 asks for an explanation. */
  lemma ExplanationAsked(s: string)
    requires AllLower(s) && 90 <= |s| && s[83..90] == "explain"
    ensures NeedsExplanation(s)
  {
    assert "explain" <= s[83..];
    ContainsAt(s, "explain", 83);
    assert ExplanationWords[0] == "explain";
  }

  // ---------------------------------------------------------------------------
  // Keyword rules

  const LowRisk: Pattern := ["low risk", "conservative", "cautious"]
  const MediumRisk: Pattern := ["medium risk", "moderate"]
  const HighRisk: Pattern := ["high risk", "aggressive"]
  const RetirementGoal: Pattern := ["retire", "retirement"]
  const HomeGoal: Pattern := ["house", "home", "down payment"]
  const EmergencyGoal: Pattern := ["emergency fund", "rainy day", "safety net"]
  const EsgWords: Pattern := ["esg", "ethical", "sustainable", "socially responsible", "green"]
  const HoldingsWords: Pattern := ["holdings", "portfolio", "existing investments"]
  const ExpensesWords: Pattern := ["expenses", "recurring bills", "fixed costs"]
  const ConfirmWords: Pattern := ["invest now", "execute", "confirm", "do it", "deposit"]
  const ExplanationWords: Pattern := ["explain", "eli5", "simple", "understand", "clarify", "break down", "help me", "what does"]

  /** The risk rule: low before medium before high, absent when no keyword set matches. */
  function RiskTolerance(s: string): (r: Option<string>)
    ensures r == Some("low") <==> ContainsAny(s, LowRisk)
    ensures r == Some("medium") <==> !ContainsAny(s, LowRisk) && ContainsAny(s, MediumRisk)
    ensures r == Some("high") <==> !ContainsAny(s, LowRisk) && !ContainsAny(s, MediumRisk) && ContainsAny(s, HighRisk)
    ensures r.None? <==> !ContainsAny(s, LowRisk) && !ContainsAny(s, MediumRisk) && !ContainsAny(s, HighRisk)
  {
    if ContainsAny(s, LowRisk) then Some("low")
    else if ContainsAny(s, MediumRisk) then Some("medium")
    else if ContainsAny(s, HighRisk) then Some("high")
    else None
  }

  /** The goal rule: retirement before buying a home before an emergency fund, absent when none matches. */
  function Goal(s: string): (r: Option<string>)
    ensures r == Some("retirement") <==> ContainsAny(s, RetirementGoal)
    ensures r == Some("buy_home") <==> !ContainsAny(s, RetirementGoal) && ContainsAny(s, HomeGoal)
    ensures r == Some("emergency_fund") <==>
      !ContainsAny(s, RetirementGoal) && !ContainsAny(s, HomeGoal) && ContainsAny(s, EmergencyGoal)
    ensures r.None? <==> !ContainsAny(s, RetirementGoal) && !ContainsAny(s, HomeGoal) && !ContainsAny(s, EmergencyGoal)
  {
    if ContainsAny(s, RetirementGoal) then Some("retirement")
    else if ContainsAny(s, HomeGoal) then Some("buy_home")
    else if ContainsAny(s, EmergencyGoal) then Some("emergency_fund")
    else None
  }

  // ---------------------------------------------------------------------------
  // Expense overrides

  /** The expense names the overrides look for, with `name.capitalize()` as the key they are stored under. */
  const OverrideNames: seq<(string, string)> := [("rent", "Rent"), ("utilities", "Utilities")]

  /**
   * From `p`, `s` reads the expense name, then white space, then an optional `$`
   * right before the digit at `d`: where `{name}\s*\$?` leaves the number to read.
   */
  ghost predicate NameLeadsTo(s: string, name: string, p: nat, d: nat)
  {
    && p + |name| <= d < |s| && s[p..p + |name|] == name && IsDigit(s[d])
    && forall k :: p + |name| <= k < d ==> IsSpace(s[k]) || (k == d - 1 && s[k] == '$')
  }

  /**
   * `{name}\s*\$?` at `p` followed by a digit: greedy white space, then a `$` if there
   * is one. The digit this finds is the only one the name leads to, so backtracking
   * finds no other.
   */
  function NumberStart(s: string, name: string, p: nat): (r: Option<nat>)
    requires p <= |s|
    ensures forall d: nat :: r == Some(d) <==> NameLeadsTo(s, name, p, d)
  {
    if !(name <= s[p..]) then None
    else
      var q := SpaceRunEnd(s, p + |name|);
      var d := if q < |s| && s[q] == '$' then q + 1 else q;
      assert s[p..p + |name|] == s[p..][..|name|];
      if d < |s| && IsDigit(s[d]) then Some(d) else None
  }

  /**
   * `{name}\s*\$?(\d+(?:,\d{3})*(?:\.\d+)?)` tried at position `p`: the number it
   * captures, commas removed. This is the pattern the source evidently means; the
   * f-string it is written in turns `{3}` into a literal `3` (see `OverrideAtAsWritten`).
   */
  function OverrideAt(s: string, name: string, p: nat): (r: Option<string>)
    requires p <= |s|
    ensures r.Some? ==> name <= s[p..]
    ensures r.Some? ==> forall k :: 0 <= k < |r.value| ==> r.value[k] != ','
  {
    match NumberStart(s, name, p)
    case None => None
    case Some(d) =>
      assert s[p..][..|name|] == s[p..p + |name|];
      Some(StripCommas(s[d..FractionEnd(s, GroupsEnd(s, DigitRunEnd(s, d)))]))
  }

  /**
   * The override pattern matches at `p` and captures `v` (commas removed) exactly when
   * the name leads to a digit at `d` and `v` is the longest number read from there.
   */
  lemma OverrideAtMatches(s: string, name: string, p: nat, v: string)
    requires p <= |s|
    ensures OverrideAt(s, name, p) == Some(v) <==>
      exists d: nat, e: nat :: NameLeadsTo(s, name, p, d) && LongestNumberAt(s, d, e) && d < e <= |s| && v == StripCommas(s[d..e])
  {
    match NumberStart(s, name, p)
    case None =>
    case Some(d) =>
      var e := FractionEnd(s, GroupsEnd(s, DigitRunEnd(s, d)));
      NumberLongest(s, d);
      forall d': nat, e': nat | NameLeadsTo(s, name, p, d') && LongestNumberAt(s, d', e')
        ensures d' == d && e' == e
      {
      }
  }

  /**
   * The override pattern exactly as the source writes it: inside the f-string,
   * `{3}` is a replacement field whose value is the number 3, so the thousands group
   * becomes `(?:,\d3)*`, a comma, one digit and the digit `3`.
   */
  function OverrideAtAsWritten(s: string, name: string, p: nat): (r: Option<string>)
    requires p <= |s|
    ensures r.Some? ==> name <= s[p..]
    ensures r.Some? ==> forall k :: 0 <= k < |r.value| ==> r.value[k] != ','
  {
    match NumberStart(s, name, p)
    case None => None
    case Some(d) =>
      assert s[p..][..|name|] == s[p..p + |name|];
      Some(StripCommas(s[d..FractionEnd(s, WrittenGroupsEnd(s, DigitRunEnd(s, d)))]))
  }

  /** Greedy `(?:,\d3)*` from `j`, the thousands groups as the f-string renders them. */
  function WrittenGroupsEnd(s: string, j: nat): (e: nat)
    requires j <= |s|
    ensures j <= e <= |s|
    ensures forall k :: j <= k < e ==> IsDigit(s[k]) || s[k] == ','
    ensures !(e + 3 <= |s| && s[e] == ',' && IsDigit(s[e + 1]) && s[e + 2] == '3')
    decreases |s| - j
  {
    if j + 3 <= |s| && s[j] == ',' && IsDigit(s[j + 1]) && s[j + 2] == '3' then WrittenGroupsEnd(s, j + 3) else j
  }

  /**
   * "rent $1,500": the pattern as written stops at the comma and captures "1", where
   * the intended pattern captures "1500".
   */
  lemma OverrideAsWrittenDropsThousands()
    ensures OverrideAtAsWritten("rent $1,500", "rent", 0) == Some("1")
    ensures OverrideAt("rent $1,500", "rent", 0) == Some("1500")
  {
    var s := "rent $1,500";
    RentDollarDigit();
    assert DigitRunEnd(s, 6) == 7;
    assert OverrideAtAsWritten(s, "rent", 0) == Some("1") by {
      assert WrittenGroupsEnd(s, 7) == 7;
      assert FractionEnd(s, 7) == 7;
      assert s[6..7] == "1";
      StripCommasChar('1');
    }
    RentFifteenHundred();
  }

  /** With the thousands group read as intended, "rent $1,500" gives "1500". */
  lemma RentFifteenHundred()
    ensures OverrideAt("rent $1,500", "rent", 0) == Some("1500")
  {
    var s := "rent $1,500";
    RentDollarDigit();
    assert DigitRunEnd(s, 6) == 7;
    assert GroupsEnd(s, 7) == 11 by {
      assert GroupAt(s, 7);
      assert GroupsEnd(s, 11) == 11;
    }
    assert FractionEnd(s, 11) == 11;
    assert StripCommas(s[6..11]) == "1500" by {
      assert "1" + "500" == "1500";
      assert s[6..11] == "1" + ",500";
      StripCommasNone("500");
      StripCommasConcat("1", ",500");
    }
  }

  /** In "rent $1,500" the name leads, past a space and the dollar sign, to the digit at position 6. */
  lemma RentDollarDigit()
    ensures NumberStart("rent $1,500", "rent", 0) == Some(6)
  {
    var s := "rent $1,500";
    assert "rent" <= s;
    SpaceRunEndAt(s, 4, 5);
  }

  /** The leftmost position from `p` on where the override pattern matches, or `|s| + 1` when there is none. */
  function OverrideStart(s: string, name: string, p: nat): (k: nat)
    requires p <= |s|
    ensures p <= k <= |s| + 1
    ensures k <= |s| ==> OverrideAt(s, name, k).Some?
    ensures forall m :: p <= m < k ==> OverrideAt(s, name, m).None?
    decreases |s| - p
  {
    if OverrideAt(s, name, p).Some? then p
    else if p == |s| then |s| + 1
    else OverrideStart(s, name, p + 1)
  }

  /** `re.search` of the override pattern from `p` on: the match at the leftmost position where there is one. */
  function OverrideFrom(s: string, name: string, p: nat): (r: Option<string>)
    requires p <= |s|
    ensures r.None? <==> forall q :: p <= q <= |s| ==> OverrideAt(s, name, q).None?
    ensures r.Some? ==> exists q :: p <= q <= |s| && OverrideAt(s, name, q) == r && forall m :: p <= m < q ==> OverrideAt(s, name, m).None?
  {
    var k := OverrideStart(s, name, p);
    if k <= |s| then OverrideAt(s, name, k) else None
  }

  /** The number the override pattern captures at one position is accepted by `float()`. */
  lemma OverrideAtParses(s: string, name: string, k: nat)
    requires k <= |s|
    ensures OverrideAt(s, name, k).Some? ==> IsUnsignedDecimal(OverrideAt(s, name, k).value)
  {
    if OverrideAt(s, name, k).Some? {
      var d := NumberStart(s, name, k).value;
      var g := GroupsEnd(s, DigitRunEnd(s, d));
      StrippedNumber(s, d, g, FractionEnd(s, g));
    }
  }

  /** Every number the override pattern captures is accepted by `float()`. */
  lemma OverrideParses(s: string, name: string, p: nat)
    requires p <= |s|
    ensures OverrideFrom(s, name, p).Some? ==> IsUnsignedDecimal(OverrideFrom(s, name, p).value)
  {
    var k := OverrideStart(s, name, p);
    if k <= |s| {
      OverrideAtParses(s, name, k);
    }
  }

  /** The override for one expense name: the value `float()` gives the captured number, if the pattern matches. */
  function OverrideValue(s: string, name: string): (r: Option<real>)
    ensures r.Some? <==> OverrideFrom(s, name, 0).Some?
    ensures r.Some? ==> IsUnsignedDecimal(OverrideFrom(s, name, 0).value) && r.value == UnsignedDecimalValue(OverrideFrom(s, name, 0).value)
    ensures r.Some? ==> r == ParseDecimal(OverrideFrom(s, name, 0).value)
    ensures r.Some? ==> r.value >= 0.0
  {
    OverrideParses(s, name, 0);
    match OverrideFrom(s, name, 0)
    case None => None
    case Some(t) => ParseDecimal(t)
  }

  /** The overrides dict after the loop has seen the first `n` names: one pair per name that matched, in order. */
  function OverridesUpTo(s: string, n: nat): (d: Dict<string, real>)
    requires n <= |OverrideNames|
    ensures Distinct(d) && Keys(d) <= {"Rent", "Utilities"}
    ensures forall m :: 0 <= m < |OverrideNames| ==>
      Get(d, OverrideNames[m].1) == if m < n then OverrideValue(s, OverrideNames[m].0) else None
  {
    if n == 0 then []
    else
      var (name, key) := OverrideNames[n - 1];
      assert key in {"Rent", "Utilities"} by { assert n - 1 == 0 || n - 1 == 1; }
      Record(OverridesUpTo(s, n - 1), key, OverrideValue(s, name))
  }

  /** `overrides[key] = v` when the pattern matched, nothing otherwise. */
  function Record(d: Dict<string, real>, key: string, v: Option<real>): (r: Dict<string, real>)
    ensures Keys(r) == if v.Some? then Keys(d) + {key} else Keys(d)
    ensures Distinct(d) ==> Distinct(r)
    ensures forall x :: Get(r, x) == if x == key && v.Some? then v else Get(d, x)
  {
    match v
    case None => d
    case Some(x) => Put(d, key, x)
  }

  // ---------------------------------------------------------------------------
  // Context

  /**
   * The context dict. An `Option` field is a key that may be absent; a `bool`
   * flag other than `requiresMultipleAgents` is a key the source only ever sets
   * to `True`, so `false` stands for "absent", which every reader takes as false.
   */
  datatype Context = Context(
    requiresMultipleAgents: bool,
    amount: Option<string>,
    timeframe: Option<Timeframe>,
    riskTolerance: Option<string>,
    goal: Option<string>,
    esg: bool,
    includeHoldings: bool,
    includeExpenses: bool,
    overrideFixedExpenses: Option<Dict<string, real>>,
    executePlaid: bool)

  /**
   * The rules `_extract_context` applies to lower-cased text `s`: each field is
   * decided by its own rule, the overrides are present only when non-empty, and
   * the multi-intent flag counts matching categories.
   */
  predicate ContextRules(s: string, c: Context)
  {
    && c.amount == FirstAmount(s)
    && c.timeframe == FirstTimeframe(s)
    && c.riskTolerance == RiskTolerance(s)
    && c.goal == Goal(s)
    && (c.esg <==> ContainsAny(s, EsgWords))
    && (c.includeHoldings <==> ContainsAny(s, HoldingsWords))
    && (c.includeExpenses <==> ContainsAny(s, ExpensesWords))
    && c.overrideFixedExpenses == (if OverridesUpTo(s, |OverrideNames|) == [] then None else Some(OverridesUpTo(s, |OverrideNames|)))
    && (c.requiresMultipleAgents <==> MatchCount(s) > 1)
    && (c.executePlaid <==> ContainsAny(s, ConfirmWords))
  }

  /** The override loop of `_extract_context`: for each expense name whose pattern matches, its `float()` value under the capitalised name. */
  method ExtractOverrides(s: string) returns (overrides: Dict<string, real>)
    ensures overrides == OverridesUpTo(s, |OverrideNames|)
    ensures Distinct(overrides) && Keys(overrides) <= {"Rent", "Utilities"}
    ensures Get(overrides, "Rent") == OverrideValue(s, "rent")
    ensures Get(overrides, "Utilities") == OverrideValue(s, "utilities")
  {
    overrides := [];
    for n := 0 to |OverrideNames|
      invariant overrides == OverridesUpTo(s, n)
    {
      var (name, key) := OverrideNames[n];
      var m := OverrideFrom(s, name, 0);
      if m.Some? {
        OverrideParses(s, name, 0);
        overrides := Put(overrides, key, ParseDecimal(m.value).value);
      }
    }
    assert OverrideNames[0] == ("rent", "Rent") && OverrideNames[1] == ("utilities", "Utilities");
  }

  /** The ESG preference and the requests for holdings and for expenses, each raised by its keywords. */
  method Preferences(s: string) returns (esg: bool, includeHoldings: bool, includeExpenses: bool)
    ensures esg <==> ContainsAny(s, EsgWords)
    ensures includeHoldings <==> ContainsAny(s, HoldingsWords)
    ensures includeExpenses <==> ContainsAny(s, ExpensesWords)
  {
    esg := false;
    if ContainsAny(s, EsgWords) {
      esg := true;
    }
    includeHoldings := false;
    if ContainsAny(s, HoldingsWords) {
      includeHoldings := true;
    }
    includeExpenses := false;
    if ContainsAny(s, ExpensesWords) {
      includeExpenses := true;
    }
  }

  /** The confirmation that an investment action may run: one of the confirmation phrases occurs. */
  method Confirmed(s: string) returns (executePlaid: bool)
    ensures executePlaid <==> ContainsAny(s, ConfirmWords)
  {
    executePlaid := false;
    if ContainsAny(s, ConfirmWords) {
      executePlaid := true;
    }
  }

  /** `_extract_context` on lower-cased text: every field follows `ContextRules`. */
  method ExtractContext(s: string, queryType: Intent) returns (context: Context)
    ensures ContextRules(s, context)
  {
    var amount := FirstAmount(s);
    var timeframe := FirstTimeframe(s);
    var riskTolerance := RiskTolerance(s);
    var goal := Goal(s);

    var esg, includeHoldings, includeExpenses := Preferences(s);

    var overrides := ExtractOverrides(s);
    var overrideFixedExpenses := None;
    if overrides != [] {
      overrideFixedExpenses := Some(overrides);
    }

    var requiresMultipleAgents := false;
    if MatchCount(s) > 1 {
      requiresMultipleAgents := true;
    }

    var executePlaid := Confirmed(s);

    context := Context(requiresMultipleAgents, amount, timeframe, riskTolerance, goal,
                       esg, includeHoldings, includeExpenses, overrideFixedExpenses, executePlaid);
  }

  // ---------------------------------------------------------------------------
  // Explanation, simulation parameters and the planner's result

  /** `_needs_explanation`: an explanation keyword occurs in the lower-cased text. */
  function NeedsExplanation(input: string): (r: bool)
    ensures AllLower(input) ==> (r <==> ContainsAny(input, ExplanationWords))
  {
    var t := LowerStr(input);
    assert AllLower(input) ==> t == input;
    ContainsAny(t, ExplanationWords)
  }

  datatype Scenario = JobLoss | Emergency | MarketDownturn

  /** The `params` dict: empty (`None`) or with a `scenario_type`. */
  datatype SimulationParams = SimulationParams(scenarioType: Option<Scenario>)

  /** `_extract_simulation_params`: job loss before emergency before market crash. */
  function ExtractSimulationParams(s: string): (r: SimulationParams)
    ensures r.scenarioType == Some(JobLoss) <==> Contains(s, "job loss") || Contains(s, "quit")
    ensures r.scenarioType == Some(Emergency) <==>
      !Contains(s, "job loss") && !Contains(s, "quit") && Contains(s, "emergency")
    ensures r.scenarioType == Some(MarketDownturn) <==>
      !Contains(s, "job loss") && !Contains(s, "quit") && !Contains(s, "emergency") && Contains(s, "market crash")
  {
    if Contains(s, "job loss") || Contains(s, "quit") then SimulationParams(Some(JobLoss))
    else if Contains(s, "emergency") then SimulationParams(Some(Emergency))
    else if Contains(s, "market crash") then SimulationParams(Some(MarketDownturn))
    else SimulationParams(None)
  }

  /** What `process` returns. */
  datatype Plan = Plan(
    queryType: Intent,
    context: Context,
    requiresExplanation: bool,
    simulationParams: Option<SimulationParams>)

  /** Text that contains a word also contains every prefix of it. */
  lemma ContainsPrefixOf(s: string, w: string, v: string)
    requires v <= w && Contains(s, w)
    ensures Contains(s, v)
  {
    ContainsIffOccurs(s, w);
    var k :| 0 <= k <= |s| && w <= s[k..];
    ContainsAt(s, v, k);
  }

  /**
   * A query that mentions "market crash" also mentions "market", an investment
   * analysis word, so it is never classified as a simulation: through `process`
   * the market-downturn scenario cannot be reached.
   */
  lemma MarketDownturnUnreachable(s: string)
    requires Classify(s) == Simulation
    ensures ExtractSimulationParams(s).scenarioType != Some(MarketDownturn)
  {
    if Contains(s, "market crash") {
      ContainsPrefixOf(s, "market crash", "market");
      assert ContainsAny(s, QueryPatterns[2].1[0]) by {
        assert QueryPatterns[2].1[0][4] == "market";
      }
      assert false;
    }
  }

  /**
   * `PlannerAgent.process`: every field of the plan is determined by the
   * lower-cased input, so by `LowerStrIgnoresCase` two queries that differ only in
   * the case of their letters get the same plan. The simulation parameters are
   * present exactly for a simulation query, and never name the market-downturn
   * scenario.
   */
  method Process(input: string) returns (plan: Plan)
    ensures plan.queryType == Classify(LowerStr(input))
    ensures plan.requiresExplanation == ContainsAny(LowerStr(input), ExplanationWords)
    ensures plan.simulationParams.Some? <==> plan.queryType == Simulation
    ensures plan.simulationParams.Some? ==> plan.simulationParams.value == ExtractSimulationParams(LowerStr(input))
    ensures plan.simulationParams.Some? ==> plan.simulationParams.value.scenarioType != Some(MarketDownturn)
    ensures ContextRules(LowerStr(input), plan.context)
    ensures plan.context.requiresMultipleAgents ==> plan.queryType in {LifeEvent, BudgetOptimization, InvestmentAnalysis}
  {
    var userInput := LowerStr(input);
    var queryType := Classify(userInput);
    var context := ExtractContext(userInput, queryType);
    var requiresExplanation := NeedsExplanation(userInput);
    var simulationParams := None;
    if queryType == Simulation {
      simulationParams := Some(ExtractSimulationParams(userInput));
      assert simulationParams.value.scenarioType != Some(MarketDownturn) by {
        MarketDownturnUnreachable(userInput);
      }
    }
    assert context.requiresMultipleAgents ==> queryType in {LifeEvent, BudgetOptimization, InvestmentAnalysis} by {
      MultipleIntentsNeedEarlyClass(userInput);
    }
    plan := Plan(queryType, context, requiresExplanation, simulationParams);
  }
}
