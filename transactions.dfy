/** The transaction record both expense estimators read. */
module Transactions {
  import opened Wrappers

  /**
   * One transaction as the data service returns it. Each field may be missing;
   * a missing `amount` is read as `tx.get("amount", 0)` by one estimator and
   * as falsy by the other.
   */
  datatype Transaction = Transaction(name: Option<string>, amount: Option<real>, date: Option<string>)

  /** Python truthiness of an optional string: present and not empty. */
  predicate Truthy(o: Option<string>) { o.Some? && |o.value| > 0 }

  /** `date[:7]`: the `YYYY-MM` month of an ISO date, or the whole text when it is shorter. */
  function MonthOf(date: string): (m: string)
    ensures m <= date
    ensures |m| == if |date| < 7 then |date| else 7
  {
    if |date| <= 7 then date else date[..7]
  }

  /** Python's `abs`. */
  function Abs(x: real): (r: real)
    ensures r >= 0.0 && (r == x || r == -x)
  {
    if x < 0.0 then -x else x
  }
}
