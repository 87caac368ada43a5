# Finance agents: planner, allocation engine and expense estimators

A Dafny model of the deterministic core of the multi-agent personal-finance
assistant:

- **Planner** (`agents/planner.py`). It lower-cases the query and classifies it into
  one intent, taking the first match over an ordered table of keyword patterns.
  It extracts a context: the first money amount, the first timeframe, risk
  tolerance, goal, ESG and inclusion flags, rent/utilities overrides, the
  multiple-intent flag and the confirmation flag. It also decides whether an
  explanation is wanted and picks the simulation scenario.
- **Allocation engine** (the numeric part of `InvestmentAgent.process` in
  `agents/investment_agent.py`). It turns the risk tolerance and horizon into a
  stock/bond/cash target. From the balance and holdings it computes the current
  shares and the deficits. It projects growth over 5, 10 and 20 years, and
  chooses between a lump-sum plan, a monthly-surplus plan and a
  percentages-only answer.
- **Expense and income estimators** (`agents/finance_utils.py`).
  - Recurring payees are grouped by calendar month, and their monthly totals
    are averaged.
  - Monthly income is the average of positive amounts per month.
- **Cadence-based recurring-expense detector** (`summarize_recurring_expenses`
  in `agents/plaid_service.py`).
  - Entries are grouped by name and sorted by date text.
  - Dates are parsed as ISO dates into day numbers of the proleptic Gregorian
    calendar.
  - A name is reported when its average gap is 25 to 35 days. The value
    reported is its mean amount rounded to cents.

Modules:

| file | module | contents |
|---|---|---|
| `wrappers.dfy` | `Wrappers` | `Option` |
| `text.dfy` | `Text` | ASCII lower-casing, substring search, digit scanners, `int()`/`float()` on decimal text, lexicographic string order |
| `dict.dfy` | `Dict` | Python's insertion-ordered `dict` as a list of distinct-key pairs |
| `transactions.dfy` | `Transactions` | the transaction record shared by the estimators |
| `calendar.dfy` | `Calendar` | `datetime.fromisoformat` on `YYYY-MM-DD` and day numbers |
| `planner.dfy` | `Planner` | the planner |
| `finance_utils.dfy` | `FinanceUtils` | the payee/month estimators |
| `plaid_service.dfy` | `PlaidService` | the cadence detector |
| `investment_agent.dfy` | `InvestmentAgent` | the allocation engine |

What the source computes by expressions is modelled as functions. What it
computes with loops that fill dictionaries and lists is modelled as methods,
each proved through a loop invariant against a specification function of the
whole input. The methods without a loop (the two `process` methods and their
steps) state every field of their result in terms of those functions. Python
floats are exact reals. Each keyword regular expression is an alternation of
literal words, so `re.search` is substring containment. The money, time and
expense-override patterns are modelled by scanners that start where a match can
first start and take the longest match there; for these patterns that is the
match Python's greedy, backtracking search returns, and the lemmas
`Planner.AmountLongest`, `Planner.NumberLongest` and `Planner.TimeframeAtMatches`
state it against a description of the text each pattern matches. The
expense-override pattern is modelled as its authors evidently meant it; the
pattern the f-string actually builds is modelled beside it (see "## Findings").

## Model

| member | source | states |
|---|---|---|
| Text.LowerStr | agents/planner.py:31 | `.lower()` keeps the length, turns each upper-case letter into its lower-case letter (32 code points on), and keeps every other character |
| Text.LowerStrIgnoresCase | agents/planner.py:31 | two texts lower-case to the same text exactly when they differ only in the case of their letters |
| Text.LowerOfLower | agents/planner.py:136 | lower-casing already lower-cased text changes nothing, so `_needs_explanation`'s second `.lower()` is the identity |
| Text.ContainsIffOccurs | agents/planner.py:58 | `re.search` of a literal word succeeds exactly when the word occurs at some position of the text |
| Text.StripCommas | agents/planner.py:72 | `.replace(",", "")` leaves no comma, never lengthens the text, and keeps every other character as often as it occurred |
| Text.StripCommasConcat | agents/planner.py:72 | removing commas distributes over concatenation |
| Text.StripCommasChar | agents/planner.py:72 | a single comma is dropped and any other character kept; with the row above, the other characters keep their order |
| Text.DigitRunEnd | agents/planner.py:69 | greedy `\d+`: every character up to the end is a digit, and the character there is not |
| Text.SpaceRunEnd | agents/planner.py:75 | greedy `\s*`: every character up to the end is white space, and the character there is not |
| Text.ParseInt | agents/investment_agent.py:63 | `int()` succeeds exactly on an optional sign followed by one or more digits, and gives the number the digits write, negated after a minus sign |
| Text.DigitsValue | agents/investment_agent.py:63 | the value of a digit string is below 10 to the power of its length, and at least 10 to the power of its length minus one without a leading zero |
| Text.DigitsConcat | agents/investment_agent.py:63 | digits written after others: the value of the first ones times ten per appended digit, plus the value of the appended ones |
| Text.FractionValue | agents/investment_agent.py:55 | digits after a decimal point are worth at least 0 and less than 1 |
| Text.UnsignedDecimalValue | agents/investment_agent.py:55 | a `digits[.digits]` numeral is worth at least 0, and a numeral without a point is worth the number its digits write |
| Text.DecimalDigits | agents/investment_agent.py:55 | `d.f` is worth the number written by the digits of `d` and `f` together, over ten to the number of decimals |
| Text.ParseDecimal | agents/investment_agent.py:55 | `float()` succeeds exactly on an optionally signed decimal numeral (`digits`, `digits.`, `.digits` or `digits.digits`), giving the value of the numeral, negated after a minus sign |
| Text.BarePointNumerals | agents/investment_agent.py:55 | `float()` reads `5.`, `-.5` and `+5.`, and refuses a lone point with or without a sign |
| Text.LexLeTotal | agents/plaid_service.py:99 | Python's string order is total |
| Text.LexLeTrans | agents/plaid_service.py:99 | Python's string order is transitive |
| Text.DigitsOrder | agents/plaid_service.py:99 | digit strings of equal length compare as text exactly as their values compare |
| Dict.Get | agents/investment_agent.py:29 | `d.get(k)` finds a value exactly when `k` is a key |
| Dict.Put | agents/finance_utils.py:28 | `d[k] = v` adds `k` to the keys, makes `k` map to `v`, leaves every other key's value unchanged, keeps keys distinct, and appends only a new key |
| Dict.AddTo | agents/finance_utils.py:25 | `d[k] += x` on a `defaultdict(float)` adds `x` to the value under `k` and exactly `x` to the sum of the values |
| Dict.Update | agents/investment_agent.py:48 | `d.update(e)`: the keys are the union, and `e`'s value wins on a shared key |
| Dict.DistinctLength | agents/finance_utils.py:26 | `len(d)` is the number of distinct keys |
| Transactions.MonthOf | agents/finance_utils.py:24 | `date[:7]` is the first seven characters, or the whole text when it is shorter |
| Transactions.Abs | agents/finance_utils.py:16 | `abs` is non-negative and equals `x` or `-x` |
| Calendar.DaysInMonth | agents/plaid_service.py:100 | months have 28 to 31 days, and 29 exactly for February of a leap year |
| Calendar.DaysBeforeMonth | agents/plaid_service.py:101 | the days before month `m` are between 28 and 31 per earlier month |
| Calendar.DayNumber | agents/plaid_service.py:101 | `toordinal()` is at least 1, and 1 exactly for 0001-01-01 |
| Calendar.MonthsMakeYear | agents/plaid_service.py:101 | the twelve month lengths add up to 365 or 366 |
| Calendar.YearStep | agents/plaid_service.py:101 | the day count before the next year is the day count before this year plus this year's length |
| Calendar.DayNumberIncreasing | agents/plaid_service.py:101 | later dates in (year, month, day) order have larger day numbers |
| Calendar.NextDate | agents/plaid_service.py:101 | the date after a valid date is a valid date, later in (year, month, day) order |
| Calendar.NextDateIsNextDay | agents/plaid_service.py:101 | the date after a date is numbered exactly one more |
| Calendar.NothingBetween | agents/plaid_service.py:101 | no date's number lies strictly between a date's and the next date's |
| Calendar.AddDaysDistance | agents/plaid_service.py:101 | the date reached by stepping `k` days on is numbered `k` more, so `(d2 - d1).days` counts the calendar days between the dates |
| Calendar.ParseIsoDay | agents/plaid_service.py:100 | `datetime.fromisoformat` succeeds exactly on a `YYYY-MM-DD` text naming a real date, giving its day number (at least 1) |
| Calendar.IsoTextOrder | agents/plaid_service.py:99 | two ISO dates compare as text as their (year, month, day) fields compare |
| Calendar.IsoOrderIsChronological | agents/plaid_service.py:99-101 | sorting ISO dates as text sorts them in time: text order and day-number order agree both ways |
| Planner.Rank | agents/planner.py:10-27 | the position of an intent in the pattern table; `general` comes after every table entry |
| Planner.FirstMatchFrom | agents/planner.py:56-59 | the first category at or after `k` whose patterns match, none before it matching |
| Planner.Classify | agents/planner.py:54-61 | the intent returned matches the query, no earlier intent in the table matches, and `general` is returned exactly when no intent matches |
| Planner.MatchCountZero | agents/planner.py:117-119 | the count of matching categories is zero exactly when no category matches |
| Planner.MatchCount | agents/planner.py:117-119 | the length of the list of matching categories is at most the number of categories, and zero exactly when no category matches |
| Planner.MultipleIntentsNeedEarlyClass | agents/planner.py:117-120 | `general` exactly when no category matches; a simulation is the only match; more than one match implies one of the first three intents |
| Planner.FirstDigitFrom | agents/planner.py:69 | the leftmost digit at or after `i`, with no digit skipped |
| Planner.GroupsEnd | agents/planner.py:69 | greedy `(?:,\d{3})*`: the text taken is whole thousands groups, of digits and commas only, and no further group follows it |
| Planner.GroupsAlign | agents/planner.py:69 | of two runs of thousands groups from the same place, the shorter one ends where a further group of the longer one starts |
| Planner.CentsEnd | agents/planner.py:69 | `(?:\.\d{2})?`: nothing, or a point and exactly two digits, taken whenever they are there |
| Planner.FractionEnd | agents/planner.py:109 | `(?:\.\d+)?`: taken exactly when a point and a digit follow, and then with every digit that follows |
| Planner.IntegerLongest | agents/planner.py:69 | the scanned `\d+(?:,\d{3})*` ends at the latest place any such integer part from the same digit can end; one that ends sooner is followed by a digit or a comma |
| Planner.AmountLongest | agents/planner.py:69 | from a digit, the scanners take the longest text the money pattern's group matches there |
| Planner.NumberLongest | agents/planner.py:109 | from a digit, the scanners take the longest text the override pattern's group matches there |
| Planner.FirstAmount | agents/planner.py:68-72 | an amount is found exactly when the query has a digit, and has no comma left |
| Planner.AmountShape | agents/planner.py:68-72 | an amount is found exactly when the query has a digit; it is then the longest text the money group matches from the first digit, commas removed: a decimal numeral starting with that digit, which `float()` reads as its non-negative value |
| Planner.AmountWithDollarAndComma | agents/planner.py:68-72 | `"$5,000"` yields `"5000"` |
| Planner.AmountWithCents | agents/planner.py:68-72 | `"$5,000.50"` yields `"5000.50"`, which `float()` reads as 5000.5 |
| Planner.PlainNumberAfterWords | agents/planner.py:68-72 | a digit run after text without digits is taken whole |
| Planner.AmountInWords | agents/planner.py:68-72 | `"bonus of 5000"` yields `"5000"` |
| Planner.UnitAt | agents/planner.py:75 | the unit alternation at a position gives each unit exactly when the text there starts with it, and nothing when none does |
| Planner.UnitsDiffer | agents/planner.py:75 | no text starts with two different units |
| Planner.TimeframeAt | agents/planner.py:75 | a match at a position is a non-empty digit count with one of the four units |
| Planner.TimeframeAtMatches | agents/planner.py:75 | the time pattern matches at a position with groups (count, unit) exactly when the text there reads those digits, white space, and that unit |
| Planner.TimeframeStart | agents/planner.py:75-76 | the leftmost position where a timeframe matches, none before it |
| Planner.TimeframeStartSkips | agents/planner.py:75-76 | positions without a digit never start a match, so the search passes over them |
| Planner.FirstTimeframe | agents/planner.py:74-78 | a timeframe is a non-empty digit count with one of the four units, matched at some position of the query |
| Planner.TimeframeShape | agents/planner.py:74-78 | a timeframe is absent exactly when the query nowhere reads digits, white space and a unit; otherwise it holds the digits and unit read at the leftmost place that does |
| Planner.SixMonths | agents/planner.py:152-162 | `"the next 6 months"` yields the timeframe `("6", "month")` |
| Planner.WorkedExample | agents/planner.py:152-165 | for the documented query "I got a $5,000 bonus … next 6 months. Can you explain it in simple terms?", lower-cased, the amount is `"5000"`, the timeframe `("6", "month")`, and an explanation is asked for |
| Planner.RiskTolerance | agents/planner.py:80-86 | low, medium, high or absent, each exactly when its keywords match and no earlier rule's do |
| Planner.Goal | agents/planner.py:88-94 | retirement, buy_home, emergency_fund or absent, each exactly when its keywords match and no earlier rule's do |
| Planner.NumberStart | agents/planner.py:109 | `{name}\s*\$?` from a position reaches a digit exactly where the name leads to one through white space and an optional dollar sign, and there is only one such digit |
| Planner.OverrideAt | agents/planner.py:109 | a match of the intended override pattern at a position starts with the expense name there and captures a number without commas |
| Planner.OverrideAtMatches | agents/planner.py:109 | the intended override pattern matches at a position and captures `v` exactly when the name leads to a digit and `v` is the longest number read from that digit, commas removed |
| Planner.OverrideAtAsWritten | agents/planner.py:109 | a match of the override pattern as the f-string builds it starts with the expense name there and captures text without commas |
| Planner.WrittenGroupsEnd | agents/planner.py:109 | greedy `(?:,\d3)*`: only digits and commas are taken, and no further comma, digit, `3` follows |
| Planner.OverrideAsWrittenDropsThousands | agents/planner.py:109-111 | on `"rent $1,500"` the pattern as written captures `"1"`, the intended one `"1500"` |
| Planner.OverrideFrom | agents/planner.py:109 | `re.search` finds nothing exactly when no position matches, and otherwise the match at the leftmost matching position |
| Planner.OverrideAtParses | agents/planner.py:109-111 | the number captured at a position is a decimal numeral |
| Planner.OverrideParses | agents/planner.py:109-111 | an override match is a decimal numeral |
| Planner.OverrideValue | agents/planner.py:109-111 | an override value exists exactly when the pattern matches, and is then the non-negative value of the captured numeral |
| Planner.OverridesUpTo | agents/planner.py:107-111 | the override dict has distinct keys among Rent and Utilities, each present exactly when its name's pattern matches |
| Planner.ExtractOverrides | agents/planner.py:107-111 | the loop over rent and utilities builds that dict: Rent and Utilities hold their names' override values |
| Planner.Preferences | agents/planner.py:96-104 | each flag is set exactly when its keywords occur |
| Planner.Confirmed | agents/planner.py:122-125 | `execute_plaid` is set exactly when a confirmation phrase occurs |
| Planner.ExtractContext | agents/planner.py:63-127 | every context field equals its rule; the override entry is present exactly when some override matched; multiple agents exactly when more than one category matches |
| Planner.NeedsExplanation | agents/planner.py:129-136 | on lower-case text, the explanation flag is set exactly when an explanation phrase occurs: the second `.lower()` changes nothing |
| Planner.ExtractSimulationParams | agents/planner.py:138-150 | the scenario is job loss, emergency, market downturn or absent, each exactly when its words occur and no earlier rule's do |
| Planner.ContainsPrefixOf | agents/planner.py:145-147 | a text containing a word contains each prefix of that word |
| Planner.MarketDownturnUnreachable | agents/planner.py:143-148 | a query classified as a simulation never yields the market-downturn scenario |
| Planner.Process | agents/planner.py:29-52 | every field of the plan and of its context is the rule applied to the lower-cased input, so queries differing only in letter case get the same plan; simulation parameters exactly for a simulation, never a market downturn; multiple agents exactly when more than one category matches, and then with one of the first three intents |
| InvestmentAgent.Horizon | agents/investment_agent.py:59-65 | the horizon is present exactly when the unit starts with "year" and `int()` accepts the count; a digit count gives the number its digits write |
| InvestmentAgent.PlannerHorizon | agents/investment_agent.py:59-65 | a planner timeframe in years gives the number its count writes as the horizon, one in any other unit gives none, and a horizon is never negative |
| InvestmentAgent.RiskScore | agents/investment_agent.py:68-69 | 0.4 for low, 0.8 for high, 0.6 for anything else |
| InvestmentAgent.TimeScore | agents/investment_agent.py:70 | at most 1; 0.5 without a non-zero horizon; 1 from 30 years on; non-negative for non-negative horizons |
| InvestmentAgent.Max0 | agents/investment_agent.py:73 | `max(0.0, x)` is the larger of the two |
| InvestmentAgent.TargetAllocation | agents/investment_agent.py:67-73 | the three shares add up to 1; bonds are never negative; stocks are at most 0.84 (at least 0.43 for non-negative horizons); cash is 0.10 exactly for a non-zero horizon below 5 years (negative horizons included) and 0.05 otherwise |
| InvestmentAgent.ZeroHorizonIsNoHorizon | agents/investment_agent.py:70-72 | a zero horizon gives the same allocation as no horizon |
| InvestmentAgent.TargetExtremes | agents/investment_agent.py:67-73 | high risk over 30 years gives 84% stocks; low risk over 1 year gives 43% stocks, 47% bonds and 10% cash |
| InvestmentAgent.HoldingsValue | agents/investment_agent.py:76-78 | the holdings' value is non-negative when every market value is |
| InvestmentAgent.MarketValue | agents/investment_agent.py:77 | a holding's market value, 0 when it has none |
| InvestmentAgent.KindName | agents/investment_agent.py:82 | the type as lower-case text of the same length; a missing type reads `"none"` |
| InvestmentAgent.IsStock | agents/investment_agent.py:79-83 | a holding without a type is never stock |
| InvestmentAgent.IsBond | agents/investment_agent.py:84-86 | a holding without a type is never a bond, and a bond is never also counted as stock |
| InvestmentAgent.KindIgnoresCase | agents/investment_agent.py:82-85 | holdings whose types differ only in letter case count alike as stock and as bonds |
| InvestmentAgent.StockValue | agents/investment_agent.py:79-83 | the stock-like value is 0 without stock-like holdings and non-negative when every market value is |
| InvestmentAgent.BondValue | agents/investment_agent.py:84-86 | the bond value is 0 without bond holdings and non-negative when every market value is |
| InvestmentAgent.StockNotBond | agents/investment_agent.py:82-85 | no holding counts both as stock-like and as a bond |
| InvestmentAgent.UntypedHoldingIsOther | agents/investment_agent.py:79-86 | a holding without a type (`str(None)` is "none") is neither stock nor bond |
| InvestmentAgent.Share | agents/investment_agent.py:88-90 | a share is 0 for an empty portfolio and non-negative for non-negative values |
| InvestmentAgent.ShareScales | agents/investment_agent.py:88-90 | a share times the total gives back the value |
| InvestmentAgent.Deficit | agents/investment_agent.py:92-93 | a deficit is non-negative for a non-negative total, and 0 for an empty portfolio |
| InvestmentAgent.CurrentPortfolio | agents/investment_agent.py:75-93 | the total is the balance plus the holdings' value; the shares divide the stock, bond and cash values by the total; all is 0 for an empty portfolio |
| InvestmentAgent.Shortfall | agents/investment_agent.py:92-93 | a shortfall is non-negative, lifts the value to at least the target, and exactly to it when positive |
| InvestmentAgent.DeficitsAreShortfalls | agents/investment_agent.py:92-93 | for a positive total, each deficit is the amount that brings the holding up to its target share of the total |
| InvestmentAgent.DeficitIsShortfall | agents/investment_agent.py:92-93 | share form and value form of the deficit agree for a positive total |
| InvestmentAgent.TypedValueAtMostTotal | agents/investment_agent.py:76-86 | stock and bond values add up to at most the holdings' value, and exactly to it when every holding is a stock or a bond |
| InvestmentAgent.CurrentSharesAtMostOne | agents/investment_agent.py:88-90 | with non-negative values the current shares add up to at most 1, and exactly 1 when every holding is a stock or a bond |
| InvestmentAgent.SharesSum | agents/investment_agent.py:88-90 | shares of parts of a positive total add up to at most 1, exactly 1 when the parts make up the total |
| InvestmentAgent.OverdrawnBalanceDeficit | agents/investment_agent.py:76-92 | an overdrawn balance of -100 with no holdings gives a negative stock deficit |
| InvestmentAgent.Pow | agents/investment_agent.py:113-115 | a growth factor of at least 1 raised to any power is at least 1 |
| InvestmentAgent.PowMonotone | agents/investment_agent.py:113-115 | more years never shrink such a factor |
| InvestmentAgent.CompoundGrows | agents/investment_agent.py:113-115 | a non-negative amount compounded longer is never smaller |
| InvestmentAgent.Compound | agents/investment_agent.py:113-115 | after 0 years the amount is unchanged, and a non-negative amount at a non-negative rate never shrinks |
| InvestmentAgent.Projected | agents/investment_agent.py:112-118 | after 0 years the projection is the split plus the balance, and a non-negative split never projects below that |
| InvestmentAgent.ProjectionGrows | agents/investment_agent.py:111-119 | with a non-negative split, the projection for more years is never smaller |
| InvestmentAgent.Projections | agents/investment_agent.py:110-119 | the loop gives one projection per listed year, each the compounded split plus the balance |
| InvestmentAgent.ParseAmount | agents/investment_agent.py:54-57 | the amount is present exactly when the text is non-empty and `float()` accepts it, with the parsed value |
| InvestmentAgent.DollarAmountValue | agents/investment_agent.py:54-57 | the planner's amount for `"$5,000"` is read as 5000 |
| InvestmentAgent.PlannerAmountParses | agents/investment_agent.py:54-57 | every amount the planner extracts parses to a non-negative number |
| InvestmentAgent.FixedExpenses | agents/investment_agent.py:47-48 | the fixed expenses are the recurring averages overridden by the planner's overrides |
| InvestmentAgent.Surplus | agents/investment_agent.py:49-52 | the income is the income total over the income months (`ExpectedIncome`), and the surplus is what `Available` gives for it |
| InvestmentAgent.Available | agents/investment_agent.py:50-52 | the surplus is absent exactly when the income is 0, and otherwise it plus the fixed expenses makes up the income |
| InvestmentAgent.NewBalance | agents/investment_agent.py:105-107 | a new balance is reported exactly after a confirmed fetch with a known balance, and exceeds it by the amount |
| InvestmentAgent.Scale | agents/investment_agent.py:96-98 | the split of an amount adds up to the amount, and is non-negative for a non-negative amount and target |
| InvestmentAgent.Recommend | agents/investment_agent.py:95-161 | a lump sum exactly when an amount is given: the amount split in the target proportions, a projection of that split for each of 5, 10 and 20 years, and the new balance; otherwise a monthly plan exactly when a surplus exists: the surplus split in the target proportions, with the portfolio figures exactly when there are holdings |
| InvestmentAgent.Gather | agents/investment_agent.py:36-46 | the balance, holdings and transactions are used only after a confirmed fetch with a token, and only when asked for |
| InvestmentAgent.Advise | agents/investment_agent.py:54-183 | the metadata hold the parsed amount, the horizon and its target, and the inputs; the recommendation is the one `Recommend` states for them, with the current portfolio as the rebalance figures |
| InvestmentAgent.Process | agents/investment_agent.py:23-183 | the metadata echo the parsed amount, risk, goal, horizon and target, the fetched balance and holdings, the fixed expenses, the monthly income of the used transactions and the surplus; confidence 0.88; the plan splits the amount or else the surplus in the target proportions, with projections, new balance and portfolio figures as `Recommend` states |
| InvestmentAgent.LumpSumProjectionsGrow | agents/investment_agent.py:109-119 | for a non-negative amount, the 5-, 10- and 20-year projections never decrease |
| FinanceUtils.EntriesOfNonPayee | agents/finance_utils.py:11-20 | a name no kept transaction carries has no entries |
| FinanceUtils.TotalNonNegative | agents/finance_utils.py:16-25 | the totals of absolute amounts are non-negative |
| FinanceUtils.RecurringAverageNonNegative | agents/finance_utils.py:26-28 | every recurring average is non-negative |
| FinanceUtils.GroupStep | agents/finance_utils.py:12-20 | one step of the grouping loop keeps its invariant |
| FinanceUtils.GroupByPayee | agents/finance_utils.py:11-20 | the groups have distinct keys, exactly the kept payees, each with its entries in order |
| FinanceUtils.MonthlyTotals | agents/finance_utils.py:22-25 | one key per distinct month, and the month totals add up to the payee's total |
| FinanceUtils.SummaryStep | agents/finance_utils.py:21-28 | one step of the summary loop keeps its invariant |
| FinanceUtils.SummarizeRecurringExpenses | agents/finance_utils.py:6-29 | distinct keys; each payee maps to its total over its number of months exactly when it spans two or more months |
| FinanceUtils.IncomeTotalPositive | agents/finance_utils.py:36-44 | income totals are non-negative; months exist exactly when some transaction is income, and then the total is positive |
| FinanceUtils.IncomeByMonth | agents/finance_utils.py:36-44 | one key per income month, and the values add up to the income total |
| FinanceUtils.ExpectedIncomeSign | agents/finance_utils.py:32-47 | the monthly income is non-negative, and positive exactly when some transaction is income |
| FinanceUtils.DeriveMonthlyIncome | agents/finance_utils.py:32-47 | 0 without income, otherwise the income total over the number of months (`ExpectedIncome`); positive exactly when some transaction is income |
| PlaidService.EntriesOfNonName | agents/plaid_service.py:85-92 | a name no kept transaction carries has no entries |
| PlaidService.GroupStep | agents/plaid_service.py:86-92 | one step of the grouping loop keeps its invariant |
| PlaidService.GroupByName | agents/plaid_service.py:85-92 | the groups have distinct keys, exactly the names of transactions with truthy name, amount and date, each with its `(amount, date)` entries in order |
| PlaidService.InsertByDate | agents/plaid_service.py:99 | inserting into a date-sorted list keeps it sorted and adds exactly that entry |
| PlaidService.SortByDate | agents/plaid_service.py:99 | `entries.sort(key=...)` gives a list sorted by date text that is a permutation of the entries |
| PlaidService.DayNumbers | agents/plaid_service.py:100 | the date list exists exactly when every date is an ISO date, and then holds each entry's day number in order |
| PlaidService.Gaps | agents/plaid_service.py:101 | one gap fewer than dates, each the absolute day distance between neighbours |
| PlaidService.Telescoping | agents/plaid_service.py:101-104 | for rising day numbers, the gaps add up to the last day minus the first |
| PlaidService.TotalPermutation | agents/plaid_service.py:99-107 | reordering entries does not change the sum of their amounts, so sorting does not change the mean |
| PlaidService.Round2 | agents/plaid_service.py:107 | `round(x, 2)` is a whole number of cents within half a cent of `x` |
| PlaidService.MeanBounds | agents/plaid_service.py:107 | `statistics.mean` of equal amounts is that amount, and of positive amounts is positive |
| PlaidService.Raises | agents/plaid_service.py:100 | the call raises only when some kept transaction carries a date `fromisoformat` rejects |
| PlaidService.EntriesComeFrom | agents/plaid_service.py:86-92 | every grouped entry is the amount and date of a kept transaction with that name |
| PlaidService.AverageInRange | agents/plaid_service.py:104-105 | `25 <= sum/len <= 35` exactly when `25*len <= sum <= 35*len` |
| PlaidService.CadenceSpan | agents/plaid_service.py:101-105 | a monthly group's dates span at least 25 days, and at most 35 days per gap, so they are never all on one date |
| PlaidService.SortedDaysRise | agents/plaid_service.py:99-101 | the day numbers of entries sorted by date text rise |
| PlaidService.SpanOfPermutation | agents/plaid_service.py:99 | sorting keeps every date valid and keeps the earliest and latest day |
| PlaidService.SortedSpan | agents/plaid_service.py:99-104 | the gaps of the sorted entries add up to the span from the earliest to the latest date |
| PlaidService.CadenceTest | agents/plaid_service.py:101-105 | the average-gap test holds exactly when the entries' span is 25 to 35 days per gap |
| PlaidService.SummarizeGroup | agents/plaid_service.py:95-107 | a group of two or more raises exactly when some date is not an ISO date; otherwise it is reported exactly when its cadence is monthly, with its rounded mean |
| PlaidService.SummaryStep | agents/plaid_service.py:94-107 | one step of the summary loop keeps its invariant |
| PlaidService.SummarizeRecurringExpenses | agents/plaid_service.py:76-109 | raises exactly when some name with two or more entries has a bad date; otherwise each name maps to its rounded signed mean exactly when it has two or more entries 25 to 35 days apart on average, with distinct keys |

## Left out

- The network and the services are not modelled: the Plaid client, the `fetch_*` calls and `generate_response`. Their results are inputs of `InvestmentAgent.Process` (the `Fetched` record).
- The environment and the clock are not modelled either: `ACCESS_TOKEN` is an input, and the 90-day window is left out.
- The prompt and answer strings are left out, as are `.2f`/`.0f` formatting, the LangGraph wiring, the CLI and the other agents.
- Floats are exact reals: rounding error, infinities and NaN are not modelled.
- Text is ASCII only. `lower()` and `\d` are modelled on ASCII characters, and `\s` on the ASCII characters `str.isspace()` accepts (space, tab to carriage return, and U+001C to U+001F); non-ASCII spaces, digits and letters are not modelled. `re.IGNORECASE` is not needed because the input is already lower-cased.
- `fetch_investment_holdings` can return `None`, and line 77 would then fail on `None`. The model takes the holdings as a list, so that crash is not modelled.
- A `market_value` or `amount` key that is present with the value `None` makes the source raise `TypeError` (`agents/investment_agent.py` lines 77, 80 and 85, `agents/finance_utils.py` lines 16 and 39). The model has no such value: an absent `Option` stands for a missing key, which reads as 0.
- A holding's `type` is optional. A missing type gives the text "none", which is neither a stock nor a bond.
- Text.ParseInt, Text.ParseDecimal, InvestmentAgent.ParseAmount: only signed or unsigned decimal numerals are accepted. Exponents, `inf`, `nan`, underscores and surrounding spaces, which Python's `int()` and `float()` also accept, count as errors here; the planner never produces them.
- Planner.WorkedExample: states the amount, the timeframe and the explanation flag of the documented example, not its query type or multiple-agents flag. Those would need a proof that none of the dozens of keywords of the other intents occurs in the 110-character query.
- `datetime.fromisoformat` is modelled on `YYYY-MM-DD` only. Its other accepted forms (times, offsets, the basic and week formats of Python 3.11) count as errors here.
- Python's list sort is modelled by a stable insertion sort on the date text. The sort is a function that returns the sorted list, so the in-place update of `entries` is not modelled.
- PlaidService.SummarizeRecurringExpenses: the order of the result's pairs (Python keeps names in the order they first appear) is not stated; the key set and each value are.
- PlaidService.Round2: ties go up, where Python rounds the binary float to the nearest cent with ties to even; only the half-cent bound and the whole cents are stated.
- The `if not diffs: continue` at line 102 of `agents/plaid_service.py` is unreachable: a group reaching it has at least two dates and so at least one gap. It is not modelled.
- `monthly_income` is truthy exactly when it is not 0.0, which is the test the model uses at line 51.

## Behaviour of the source worth noting

- The `max(0.0, …)` on the bond share never binds. For every integer horizon the three shares add up to exactly 1, so the clamp never changes the bond share (InvestmentAgent.TargetAllocation).
- The largest stock share is 0.84, reached with high risk over 30 years or more (InvestmentAgent.TargetExtremes).
- The confirmation phrases are tested on the lower-cased query, like every other rule.
- The holdings fetcher (`agents/plaid_service.py` lines 48-52) records no `type`, so every fetched holding prints its type as "none" and is neither stock-like nor a bond (InvestmentAgent.UntypedHoldingIsOther): the current stock and bond shares come out as 0.
- A deficit can be negative. It is a non-negative shortfall share times the portfolio total, so when an overdrawn balance makes the total negative, any holding below its target share gets a negative deficit (InvestmentAgent.OverdrawnBalanceDeficit).

## Findings

| source | as written | input that shows it | evidently intended | confidence | as-written member | corrected member |
|---|---|---|---|---|---|---|
| agents/planner.py:109 | the pattern is an f-string, so `{3}` is replaced by `3` and the thousands group becomes `(?:,\d3)*`: a comma, one digit and the digit 3 | `"rent $1,500"`: the match stops before the comma and the Rent override is 1.0 | `(?:,\d{3})*` (written `{{3}}` in the f-string), as in the money pattern at line 69, giving 1500.0 | not executed | Planner.OverrideAsWrittenDropsThousands | Planner.OverrideAtMatches |
