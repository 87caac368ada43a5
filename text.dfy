/**
 * Character and string helpers standing in for the parts of Python's `str` and
 * `re` that the planner and the agents use: ASCII lower-casing, substring search,
 * the `\d` and `\s` character classes, and `int()` / `float()` on decimal text.
 */
module Text {
  import opened Wrappers

  predicate IsDigit(c: char) { '0' <= c <= '9' }

  /**
   * Python's `\s` on ASCII characters, which are those `str.isspace()` accepts:
   * space, tab, newline, vertical tab, form feed, carriage return, and the four
   * separators U+001C to U+001F.
   */
  predicate IsSpace(c: char)
  {
    c == ' ' || '\t' <= c <= '\r' || '\U{001C}' <= c <= '\U{001F}'
  }

  predicate IsUpper(c: char) { 'A' <= c <= 'Z' }

  /** An upper-case letter becomes the lower-case letter 32 code points further on; any other character stays. */
  function Lower(c: char): (r: char)
    ensures !IsUpper(r)
    ensures IsUpper(c) ==> r as int == c as int + 32
    ensures !IsUpper(c) ==> r == c
  {
    if IsUpper(c) then (c as int + 32) as char else c
  }

  predicate AllLower(s: string) { forall i :: 0 <= i < |s| ==> !IsUpper(s[i]) }

  /** `str.lower()` on ASCII text: same length, each upper-case letter replaced by its lower-case letter, other characters kept. */
  function LowerStr(s: string): (r: string)
    ensures |r| == |s| && AllLower(r)
    ensures forall i :: 0 <= i < |s| && IsUpper(s[i]) ==> r[i] as int == s[i] as int + 32
    ensures forall i :: 0 <= i < |s| && !IsUpper(s[i]) ==> r[i] == s[i]
  {
    seq(|s|, i requires 0 <= i < |s| => Lower(s[i]))
  }

  /** Lower-casing text that has no upper-case letter changes nothing. */
  lemma LowerOfLower(s: string)
    requires AllLower(s)
    ensures LowerStr(s) == s
  {
  }

  /** Two texts that differ at most in the case of their letters. */
  predicate SameUpToCase(a: string, b: string)
  {
    && |a| == |b|
    && forall i :: 0 <= i < |a| ==>
         || a[i] == b[i]
         || (IsUpper(a[i]) && b[i] as int == a[i] as int + 32)
         || (IsUpper(b[i]) && a[i] as int == b[i] as int + 32)
  }

  /** Lower-casing identifies exactly the texts that differ only in the case of their letters. */
  lemma LowerStrIgnoresCase(a: string, b: string)
    ensures SameUpToCase(a, b) <==> LowerStr(a) == LowerStr(b)
  {
    if LowerStr(a) == LowerStr(b) {
      assert |a| == |b|;
      forall i | 0 <= i < |a|
        ensures || a[i] == b[i]
                || (IsUpper(a[i]) && b[i] as int == a[i] as int + 32)
                || (IsUpper(b[i]) && a[i] as int == b[i] as int + 32)
      {
        assert LowerStr(a)[i] == LowerStr(b)[i];
      }
    }
  }

  predicate AllDigits(s: string) { forall i :: 0 <= i < |s| ==> IsDigit(s[i]) }

  predicate HasDigit(s: string) { exists i :: 0 <= i < |s| && IsDigit(s[i]) }

  /** `pat in s`, or `re.search` with a literal pattern: some suffix of `s` starts with `pat`. */
  predicate Contains(s: string, pat: string)
    decreases |s|
  {
    pat <= s || (|s| > 0 && Contains(s[1..], pat))
  }

  /** A regular-expression alternation of literal words `w1|w2|...` found anywhere in `s`. */
  predicate ContainsAny(s: string, words: seq<string>)
  {
    exists k :: 0 <= k < |words| && Contains(s, words[k])
  }

  /** `Contains` means exactly: `pat` occurs at some position of `s`. */
  lemma {:induction false} ContainsIffOccurs(s: string, pat: string)
    ensures Contains(s, pat) <==> exists k :: 0 <= k <= |s| && pat <= s[k..]
    decreases |s|
  {
    assert s[0..] == s;
    if |s| > 0 {
      ContainsIffOccurs(s[1..], pat);
      if Contains(s[1..], pat) {
        var k :| 0 <= k <= |s| - 1 && pat <= s[1..][k..];
        assert s[1..][k..] == s[k + 1..];
      }
      if k :| 0 <= k <= |s| && pat <= s[k..] {
        if k > 0 { assert s[1..][k - 1..] == s[k..]; }
      }
    }
  }

  /** An occurrence at position `k` is a witness for `Contains`. */
  lemma {:induction false} ContainsAt(s: string, pat: string, k: nat)
    requires k <= |s| && pat <= s[k..]
    ensures Contains(s, pat)
  {
    ContainsIffOccurs(s, pat);
  }

  /** End of the maximal run of digits starting at `i` (greedy `\d*`). */
  function DigitRunEnd(s: string, i: nat): (j: nat)
    requires i <= |s|
    ensures i <= j <= |s|
    ensures forall k :: i <= k < j ==> IsDigit(s[k])
    ensures j == |s| || !IsDigit(s[j])
    decreases |s| - i
  {
    if i < |s| && IsDigit(s[i]) then DigitRunEnd(s, i + 1) else i
  }

  /** End of the maximal run of white space starting at `i` (greedy `\s*`). */
  function SpaceRunEnd(s: string, i: nat): (j: nat)
    requires i <= |s|
    ensures i <= j <= |s|
    ensures forall k :: i <= k < j ==> IsSpace(s[k])
    ensures j == |s| || !IsSpace(s[j])
    decreases |s| - i
  {
    if i < |s| && IsSpace(s[i]) then SpaceRunEnd(s, i + 1) else i
  }

  /** `s.replace(",", "")`. */
  function StripCommas(s: string): (r: string)
    ensures |r| <= |s|
    ensures forall i :: 0 <= i < |r| ==> r[i] != ','
    ensures forall c :: c != ',' ==> multiset(r)[c] == multiset(s)[c]
  {
    if s == [] then []
    else
      assert s == [s[0]] + s[1..];
      if s[0] == ',' then StripCommas(s[1..]) else [s[0]] + StripCommas(s[1..])
  }

  /** `s.replace(",", "")` distributes over concatenation. */
  lemma {:induction false} StripCommasConcat(a: string, b: string)
    ensures StripCommas(a + b) == StripCommas(a) + StripCommas(b)
    decreases |a|
  {
    if a != [] {
      StripCommasConcat(a[1..], b);
      assert (a + b)[1..] == a[1..] + b;
    } else {
      assert a + b == b;
    }
  }

  /** A single character is dropped when it is a comma and kept otherwise; with `StripCommasConcat`, the characters that remain keep their order. */
  lemma StripCommasChar(c: char)
    ensures StripCommas([c]) == if c == ',' then [] else [c]
  {
    assert [c][1..] == [];
  }

  /** Digits and commas that start with a digit lose their commas and keep their digits, the first one in front. */
  lemma {:induction false} StripCommasDigits(a: string)
    requires forall k :: 0 <= k < |a| ==> IsDigit(a[k]) || a[k] == ','
    ensures AllDigits(StripCommas(a))
    ensures |a| > 0 && IsDigit(a[0]) ==> |StripCommas(a)| > 0 && StripCommas(a)[0] == a[0]
    decreases |a|
  {
    if a != [] { StripCommasDigits(a[1..]); }
  }

  /** A run of white space that stops at a character that is not white space (or the end) ends there. */
  lemma {:induction false} SpaceRunEndAt(t: string, i: nat, e: nat)
    requires i <= e <= |t|
    requires forall k :: i <= k < e ==> IsSpace(t[k])
    requires e == |t| || !IsSpace(t[e])
    ensures SpaceRunEnd(t, i) == e
    decreases e - i
  {
    if i < e { SpaceRunEndAt(t, i + 1, e); }
  }

  /** Text without commas is unchanged by `s.replace(",", "")`. */
  lemma {:induction false} StripCommasNone(a: string)
    requires forall k :: 0 <= k < |a| ==> a[k] != ','
    ensures StripCommas(a) == a
    decreases |a|
  {
    if a != [] {
      StripCommasNone(a[1..]);
      assert a == [a[0]] + a[1..];
    }
  }

  /** A slice equal to `t` has `t`'s characters at the corresponding positions. */
  lemma SliceIndex(s: string, a: nat, b: nat, t: string)
    requires a <= b <= |s| && s[a..b] == t
    ensures forall k :: a <= k < b ==> s[k] == t[k - a]
  {
  }

  /** A run of digits that stops at a non-digit (or the end) ends there. */
  lemma {:induction false} RunEndAt(t: string, i: nat, e: nat)
    requires i <= e <= |t|
    requires forall k :: i <= k < e ==> IsDigit(t[k])
    requires e == |t| || !IsDigit(t[e])
    ensures DigitRunEnd(t, i) == e
    decreases e - i
  {
    if i < e { RunEndAt(t, i + 1, e); }
  }

  /** Digits, optionally followed by a point and more digits, are what `IsUnsignedDecimal` accepts. */
  lemma DecimalShape(d: string, f: string)
    requires |d| > 0 && AllDigits(d) && AllDigits(f)
    ensures IsUnsignedDecimal(if f == [] then d else d + ['.'] + f)
  {
    var t := if f == [] then d else d + ['.'] + f;
    RunEndAt(t, 0, |d|);
    if f != [] { RunEndAt(t, |d| + 1, |t|); }
  }

  /** The number written by a string of decimal digits. */
  function DigitsValue(ds: string): (n: nat)
    requires AllDigits(ds)
    ensures |ds| > 0 && ds[0] != '0' ==> n >= Pow10(|ds| - 1)
    ensures n < Pow10(|ds|)
  {
    if ds == [] then 0
    else DigitsValue(ds[..|ds| - 1]) * 10 + (ds[|ds| - 1] as int - '0' as int)
  }

  function Pow10(n: nat): (p: nat)
    ensures p >= 1
  {
    if n == 0 then 1 else 10 * Pow10(n - 1)
  }

  /** Writing digits after others multiplies the value of the first ones by ten per digit appended. */
  lemma {:induction false} DigitsConcat(a: string, b: string)
    requires AllDigits(a) && AllDigits(b)
    ensures AllDigits(a + b) && DigitsValue(a + b) == DigitsValue(a) * Pow10(|b|) + DigitsValue(b)
    decreases |b|
  {
    var ab := a + b;
    assert AllDigits(ab) by {
      assert forall k :: 0 <= k < |ab| ==> ab[k] == if k < |a| then a[k] else b[k - |a|];
    }
    if b == [] {
      assert ab == a;
    } else {
      var n := |b| - 1;
      var b1 := b[..n];
      assert ab[..|ab| - 1] == a + b1 && ab[|ab| - 1] == b[n];
      DigitsConcat(a, b1);
      var x: int, p: int, y: int, l: int := DigitsValue(a), Pow10(n), DigitsValue(b1), b[n] as int - '0' as int;
      assert DigitsValue(ab) == (x * p + y) * 10 + l;
      assert DigitsValue(b) == y * 10 + l;
      assert Pow10(|b|) == 10 * p;
      ShiftByTen(x, p, y);
    }
  }

  /** Appending a digit: `(x·p + y)·10` is `x·(10·p) + y·10`. */
  lemma ShiftByTen(x: int, p: int, y: int)
    ensures (x * p + y) * 10 == x * (10 * p) + y * 10
  {
  }

  /** Python's `int(t)` for text of the form `[+|-]digits`; `None` stands for the `ValueError` on anything else. */
  function ParseInt(t: string): (r: Option<int>)
    ensures r.Some? <==> (|t| > 0 && AllDigits(t)) || (|t| > 1 && (t[0] == '-' || t[0] == '+') && AllDigits(t[1..]))
    ensures |t| > 0 && AllDigits(t) ==> r == Some(DigitsValue(t))
    ensures |t| > 1 && t[0] == '-' && AllDigits(t[1..]) ==> r == Some(-(DigitsValue(t[1..]) as int))
    ensures |t| > 1 && t[0] == '+' && AllDigits(t[1..]) ==> r == Some(DigitsValue(t[1..]))
    ensures r.Some? && AllDigits(t) ==> r.value >= 0
  {
    if |t| > 0 && AllDigits(t) then Some(DigitsValue(t))
    else if |t| > 1 && t[0] == '-' && AllDigits(t[1..]) then Some(-(DigitsValue(t[1..]) as int))
    else if |t| > 1 && t[0] == '+' && AllDigits(t[1..]) then Some(DigitsValue(t[1..]))
    else None
  }

  /**
   * Text of the form `digits`, `digits.`, `.digits` or `digits.digits`: a digit run,
   * then either the end or a point and a second digit run to the end, with a digit
   * on at least one side of the point.
   */
  predicate IsUnsignedDecimal(t: string)
  {
    var p := DigitRunEnd(t, 0);
    || (p > 0 && p == |t|)
    || (p < |t| && t[p] == '.' && DigitRunEnd(t, p + 1) == |t| && (p > 0 || p + 1 < |t|))
  }

  /** The value of the digits after a decimal point, `0.d1d2...dk`: the number they write over ten to the `k`. */
  function FractionValue(ds: string): (v: real)
    requires AllDigits(ds)
    ensures 0.0 <= v < 1.0
  {
    FractionBelowOne(DigitsValue(ds), Pow10(|ds|));
    DigitsValue(ds) as real / Pow10(|ds|) as real
  }

  /** A fraction whose numerator is below its denominator is below one. */
  lemma FractionBelowOne(n: nat, p: nat)
    requires n < p
    ensures 0.0 <= n as real / p as real < 1.0
  {
  }

  /** The value of a decimal numeral: the integer part plus the fraction, either of which may be empty and then counts 0. */
  function UnsignedDecimalValue(t: string): (v: real)
    requires IsUnsignedDecimal(t)
    ensures v >= 0.0
    ensures AllDigits(t) ==> v == DigitsValue(t) as real
  {
    var p := DigitRunEnd(t, 0);
    if p == |t| then
      assert t[..p] == t;
      DigitsValue(t) as real
    else
      DigitsValue(t[..p]) as real + FractionValue(t[p + 1..])
  }

  /**
   * The value of `d.f` is the number written by the digits of `d` and `f` together,
   * over ten to the power of the number of decimals.
   */
  lemma DecimalDigits(d: string, f: string)
    requires |d| > 0 && AllDigits(d) && |f| > 0 && AllDigits(f)
    ensures IsUnsignedDecimal(d + ['.'] + f)
    ensures AllDigits(d + f) && UnsignedDecimalValue(d + ['.'] + f) == DigitsValue(d + f) as real / Pow10(|f|) as real
  {
    var t := d + ['.'] + f;
    DecimalShape(d, f);
    RunEndAt(t, 0, |d|);
    assert t[..|d|] == d && t[|d| + 1..] == f;
    DigitsConcat(d, f);
    OverPower(DigitsValue(d), DigitsValue(f), Pow10(|f|), DigitsValue(d + f));
  }

  /** If `v = x·p + y` then `v / p` is `x + y / p`. */
  lemma OverPower(x: int, y: int, p: int, v: int)
    requires p > 0 && v == x * p + y
    ensures v as real / p as real == x as real + y as real / p as real
  {
    IntProductAsReal(x, p);
  }

  /** Converting a product to a real is the product of the converted factors. */
  lemma IntProductAsReal(a: int, b: int)
    ensures (a * b) as real == a as real * b as real
  {
  }

  /**
   * Python's `float(t)` for an optionally signed decimal numeral (`5`, `5.`, `.5`,
   * `5.25`); `None` stands for the `ValueError` raised on any other text.
   */
  function ParseDecimal(t: string): (r: Option<real>)
    ensures r.Some? <==> IsUnsignedDecimal(t) || (|t| > 1 && (t[0] == '-' || t[0] == '+') && IsUnsignedDecimal(t[1..]))
    ensures IsUnsignedDecimal(t) ==> r == Some(UnsignedDecimalValue(t)) && r.value >= 0.0
    ensures |t| > 1 && t[0] == '-' && IsUnsignedDecimal(t[1..]) ==> r == Some(-UnsignedDecimalValue(t[1..]))
    ensures |t| > 1 && t[0] == '+' && IsUnsignedDecimal(t[1..]) ==> r == Some(UnsignedDecimalValue(t[1..]))
  {
    if IsUnsignedDecimal(t) then Some(UnsignedDecimalValue(t))
    else if |t| > 1 && t[0] == '-' && IsUnsignedDecimal(t[1..]) then Some(-UnsignedDecimalValue(t[1..]))
    else if |t| > 1 && t[0] == '+' && IsUnsignedDecimal(t[1..]) then Some(UnsignedDecimalValue(t[1..]))
    else None
  }

  /** A point needs a digit on one side only: `float` reads `5.` and `-.5`, and refuses a lone point. */
  lemma BarePointNumerals()
    ensures ParseDecimal("5.") == Some(5.0)
    ensures ParseDecimal("-.5") == Some(-0.5)
    ensures ParseDecimal("+5.") == Some(5.0)
    ensures ParseDecimal(".") == None && ParseDecimal("-.") == None
  {
    assert DigitRunEnd("5.", 0) == 1 by { assert DigitRunEnd("5.", 1) == 1; }
    assert DigitRunEnd(".5", 0) == 0;
    assert DigitRunEnd(".5", 1) == 2;
    assert "5."[..1] == "5" && "5."[2..] == [];
    assert ".5"[..0] == [] && ".5"[1..] == "5";
    assert "-.5"[1..] == ".5";
    assert "+5."[1..] == "5.";
    assert DigitRunEnd(".", 0) == 0 && DigitRunEnd(".", 1) == 1;
    assert "-."[1..] == ".";
  }

  /** Python's `a <= b` on `str`: code points compared from the left, a prefix before any longer text. */
  predicate LexLe(a: string, b: string)
  {
    a == [] || (b != [] && (a[0] < b[0] || (a[0] == b[0] && LexLe(a[1..], b[1..]))))
  }

  /** Any two texts are ordered one way or the other. */
  lemma {:induction false} LexLeTotal(a: string, b: string)
    ensures LexLe(a, b) || LexLe(b, a)
    decreases |a|
  {
    if a != [] && b != [] && a[0] == b[0] {
      LexLeTotal(a[1..], b[1..]);
    }
  }

  /** `<=` on texts is transitive. */
  lemma {:induction false} LexLeTrans(a: string, b: string, c: string)
    requires LexLe(a, b) && LexLe(b, c)
    ensures LexLe(a, c)
    decreases |a|
  {
    if a != [] && a[0] == b[0] && b[0] == c[0] {
      LexLeTrans(a[1..], b[1..], c[1..]);
    }
  }

  /** Comparing two texts whose first parts have equal length: the first parts decide unless they are equal. */
  lemma {:induction false} LexLeSplit(a1: string, a2: string, b1: string, b2: string)
    requires |a1| == |b1|
    ensures LexLe(a1 + a2, b1 + b2) <==> if a1 == b1 then LexLe(a2, b2) else LexLe(a1, b1)
    decreases |a1|
  {
    if a1 == [] {
      assert a1 + a2 == a2 && b1 + b2 == b2;
    } else {
      assert (a1 + a2)[0] == a1[0] && (b1 + b2)[0] == b1[0];
      assert (a1 + a2)[1..] == a1[1..] + a2 && (b1 + b2)[1..] == b1[1..] + b2;
      LexLeSplit(a1[1..], a2, b1[1..], b2);
      if a1[0] == b1[0] {
        assert a1 == b1 <==> a1[1..] == b1[1..] by {
          assert a1 == [a1[0]] + a1[1..] && b1 == [b1[0]] + b1[1..];
        }
      }
    }
  }

  /** For digit strings of the same length, text order is numeric order, and equal text is equal value. */
  lemma {:induction false} DigitsOrder(a: string, b: string)
    requires |a| == |b| && AllDigits(a) && AllDigits(b)
    ensures LexLe(a, b) <==> DigitsValue(a) <= DigitsValue(b)
    ensures a == b <==> DigitsValue(a) == DigitsValue(b)
    decreases |a|
  {
    if a != [] {
      var n := |a| - 1;
      var a1, b1 := a[..n], b[..n];
      assert a == a1 + [a[n]] && b == b1 + [b[n]];
      DigitsOrder(a1, b1);
      LexLeSplit(a1, [a[n]], b1, [b[n]]);
      assert LexLe([a[n]], [b[n]]) <==> a[n] <= b[n] by {
        assert [a[n]][1..] == [];
      }
    }
  }
}
