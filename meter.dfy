/**
  The figures shown after every change of the cart: the subtotal, the spent
  and remaining amounts, and the budget meter (fill height, rounded
  percentage, colour and the over-budget alert).
 */
module Meter {
  import opened CartItems

  /** The three amounts the totals panel shows. */
  datatype Totals = Totals(subtotal: real, spent: real, remaining: real)

  /** `updateCartTotal` and the arithmetic part of `updateBudgetDisplay`. */
  function ComputeTotals(budget: real, items: seq<Item>): (t: Totals)
    ensures t.subtotal == t.spent == Spent(items)
    ensures t.spent + t.remaining == budget
    ensures AllWellFormed(items) ==> t.spent == Cost(items) && t.spent >= 0.0
    ensures AllWellFormed(items) && items != [] ==> t.remaining < budget
  {
    assert AllWellFormed(items) ==> Spent(items) == Cost(items) && Spent(items) >= 0.0 &&
                                    (items != [] ==> Spent(items) > 0.0) by {
      if AllWellFormed(items) {
        SpentIsCost(items);
        SpentNonNegative(items);
      }
    }
    var spent := Spent(items);
    Totals(spent, spent, budget - spent)
  }

  /** The colour of the meter and of the remaining amount. */
  datatype Level = Success | Warning | Danger

  /** What the meter shows once a budget is set. */
  datatype Reading = Reading(percentage: real, fill: real, shown: int, level: Level, alert: bool)

  /** `Math.min(percentage, 100)`: the smaller of the percentage and 100. */
  function Clamp(p: real): (r: real)
    ensures r <= p && r <= 100.0
    ensures r == p || r == 100.0
  {
    if p < 100.0 then p else 100.0
  }

  /** The colour thresholds, applied to the unclamped percentage: exactly one level per percentage. */
  function Classify(p: real): (l: Level)
    ensures l == Danger <==> 100.0 <= p
    ensures l == Warning <==> 75.0 <= p < 100.0
    ensures l == Success <==> p < 75.0
  {
    if p >= 100.0 then Danger else if p >= 75.0 then Warning else Success
  }

  /** `Math.round` on a non-NaN value: halves round up. */
  function Round(x: real): (n: int)
    ensures n as real - 0.5 <= x < n as real + 0.5
  {
    (x + 0.5).Floor
  }

  /**
    The meter part of `updateBudgetDisplay`: nothing is computed while the
    budget is unset; otherwise the level follows from how spent compares
    with the budget, and the fill and the shown number stay within the meter.
   */
  function ReadMeter(budget: real, spent: real): (r: Option<Reading>)
    ensures r.Some? <==> budget > 0.0
    ensures r.Some? ==> r.value.percentage * budget == spent * 100.0
    ensures r.Some? ==> r.value.fill <= 100.0 && (r.value.fill == 100.0 <==> spent >= budget)
    ensures r.Some? && spent < budget ==> r.value.fill == r.value.percentage
    ensures r.Some? ==> r.value.shown as real - 0.5 <= r.value.fill < r.value.shown as real + 0.5
    ensures r.Some? && spent >= 0.0 ==> 0.0 <= r.value.fill && 0 <= r.value.shown <= 100
    ensures r.Some? ==> (r.value.level == Danger <==> spent >= budget)
    ensures r.Some? ==> (r.value.level == Warning <==> 3.0 * budget <= 4.0 * spent < 4.0 * budget)
    ensures r.Some? ==> (r.value.level == Success <==> 4.0 * spent < 3.0 * budget)
    ensures r.Some? ==> (r.value.alert <==> r.value.level == Danger)
  {
    if budget > 0.0 then
      var p := spent / budget * 100.0;
      PercentageScales(budget, spent, p);
      var fill := Clamp(p);
      var level := Classify(p);
      Some(Reading(p, fill, Round(fill), level, level == Danger))
    else
      None
  }

  /** Multiplying by a positive amount keeps the sign. */
  lemma ScaleKeepsSign(x: real, c: real)
    requires c > 0.0
    ensures x >= 0.0 <==> x * c >= 0.0
  {
    if x < 0.0 {
      assert (-x) * c > 0.0;
    }
  }

  /** Comparing the percentage with a threshold is comparing spent with that share of the budget. */
  lemma PercentageScales(budget: real, spent: real, p: real)
    requires budget > 0.0 && p == spent / budget * 100.0
    ensures p * budget == spent * 100.0
    ensures p >= 100.0 <==> spent >= budget
    ensures p >= 75.0 <==> 4.0 * spent >= 3.0 * budget
    ensures p >= 0.0 <==> spent >= 0.0
  {
    assert p * budget == spent * 100.0;
    ScaleKeepsSign(p - 100.0, budget);
    assert (p - 100.0) * budget == (spent - budget) * 100.0;
    ScaleKeepsSign(p - 75.0, budget);
    assert (p - 75.0) * budget == (4.0 * spent - 3.0 * budget) * 25.0;
    ScaleKeepsSign(p, budget);
  }

  /** Rank of a level, for comparing them. */
  function Severity(l: Level): nat {
    match l
    case Success => 0
    case Warning => 1
    case Danger => 2
  }

  /** Spending more never moves the meter to a milder colour. */
  lemma LevelMonotone(budget: real, spent: real, more: real)
    requires budget > 0.0 && spent <= more
    ensures Severity(ReadMeter(budget, spent).value.level) <= Severity(ReadMeter(budget, more).value.level)
  {
  }

  /** The alert and the danger colour show exactly when nothing of the budget remains. */
  lemma DangerIffNothingRemains(budget: real, items: seq<Item>)
    requires budget > 0.0
    ensures ReadMeter(budget, ComputeTotals(budget, items).spent).value.level == Danger
            <==> ComputeTotals(budget, items).remaining <= 0.0
  {
  }

  /** With a cart of well-formed items the meter is never negative. */
  lemma MeterWithinRange(budget: real, items: seq<Item>)
    requires budget > 0.0 && AllWellFormed(items)
    ensures 0.0 <= ReadMeter(budget, Spent(items)).value.fill <= 100.0
    ensures 0 <= ReadMeter(budget, Spent(items)).value.shown <= 100
    ensures ReadMeter(budget, Spent(items)).value.percentage >= 0.0
  {
    SpentNonNegative(items);
    PercentageScales(budget, Spent(items), Spent(items) / budget * 100.0);
  }

  /** The two boundary cases: 75 of 100 is warning, 100 of 100 is danger with the alert. */
  lemma Boundaries()
    ensures ReadMeter(100.0, 75.0) == Some(Reading(75.0, 75.0, 75, Warning, false))
    ensures ReadMeter(100.0, 100.0) == Some(Reading(100.0, 100.0, 100, Danger, true))
    ensures ReadMeter(0.0, 10.0) == None
  {
  }
}
