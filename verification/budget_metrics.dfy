/** The figures shown for a budget: the columns the database derives from a row, and the
    projection that a submission is shown before it commits. Arithmetic is exact. */
module BudgetMetrics {
  import opened Domain
  import opened BudgetPeriod
  import opened BudgetLedger
  import opened ApprovalAccess
  import opened ExpenseLifecycle
  import opened ExpenseInvariants

  datatype Metrics = Metrics(remaining: int, utilizationPercent: real, isOverBudget: bool, isNearLimit: bool)

  /** `Math.round`: halves go up. */
  function JsRound(x: real): int {
    (x + 0.5).Floor
  }

  /** SQL `ROUND` on numeric: halves go away from zero. */
  function SqlRound(x: real): int {
    if 0.0 <= x then (x + 0.5).Floor else -((-x + 0.5).Floor)
  }

  /** Both roundings are to the nearest integer, and they differ only on the halves below zero. */
  lemma RoundingsCompared(x: real)
    ensures -0.5 <= JsRound(x) as real - x <= 0.5
    ensures -0.5 <= SqlRound(x) as real - x <= 0.5
    ensures JsRound(x) != SqlRound(x) <==> x < 0.0 && JsRound(x) as real == x + 0.5
    ensures SqlRound(-x) == -SqlRound(x)
  {
    if x < 0.0 {
      var down, up := (-x + 0.5).Floor, (x + 0.5).Floor;
      assert down as real <= -x + 0.5 < down as real + 1.0 && up as real <= x + 0.5 < up as real + 1.0;
      assert -1.0 < (up + down) as real <= 1.0;
    }
  }

  function Ratio(committed: int, limit: int): real
    requires 0 < limit
  {
    committed as real / limit as real * 10000.0
  }

  function ComputeProjectedBudgetMetrics(limit: int, projected: int, threshold: int): Metrics {
    var percent := if 0 < limit then JsRound(Ratio(projected, limit)) as real / 100.0 else 0.0;
    Metrics(if limit - projected < 0 then 0 else limit - projected,
            percent,
            limit < projected,
            0 < limit && threshold as real <= percent)
  }

  /** The generated columns of department_budgets, and the alert flag of the summary query. */
  function DerivedColumns(row: BudgetRow, threshold: int): Metrics {
    var percent := if 0 < row.amountLimit then SqlRound(Ratio(row.committed, row.amountLimit)) as real / 100.0 else 0.0;
    Metrics(Clamp(row.amountLimit - row.committed),
            percent,
            row.amountLimit < row.committed,
            0 < row.amountLimit && threshold as real <= percent)
  }

  /** A submission adds its amount to the row it is booked on. */
  lemma SubmissionMovesRow(c: Config, s: State, auth: AuthUser, id: Id, submitAt: int, compliant: bool)
    requires Consistent(s) && SubmitTx(c, s, auth, id, submitAt, compliant).Ok?
    ensures var f := SubmitTx(c, s, auth, id, submitAt, compliant).value;
            var key := (f.after.departmentId.value, ResolveBudgetYear(submitAt, c.zone));
            && 0 < f.after.amount
            && (ActiveBudget(s, key).Some? ==>
                  && key in Commit(c, s, f).budgets && RowOk(s.budgets[key])
                  && Commit(c, s, f).budgets[key] ==
                       s.budgets[key].(committed := s.budgets[key].committed + f.after.amount))
  {
    assert ExpenseOk(s.expenses[id], DecisionsOn(s, id));
    var f := SubmitTx(c, s, auth, id, submitAt, compliant).value;
    var key := (f.after.departmentId.value, ResolveBudgetYear(submitAt, c.zone));
    if key in s.budgets { assert RowOk(s.budgets[key]); }
  }

  /** The figures a submission is evaluated with are the row's figures once it has committed. */
  lemma ProjectionComesTrue(c: Config, s: State, auth: AuthUser, id: Id, submitAt: int, compliant: bool, threshold: int)
    requires Consistent(s) && SubmitTx(c, s, auth, id, submitAt, compliant).Ok?
    ensures var f := SubmitTx(c, s, auth, id, submitAt, compliant).value;
            var key := (f.after.departmentId.value, ResolveBudgetYear(submitAt, c.zone));
            var budget := ActiveBudget(s, key);
            budget.Some? ==>
              && key in Commit(c, s, f).budgets
              && DerivedColumns(Commit(c, s, f).budgets[key], threshold)
                 == ComputeProjectedBudgetMetrics(budget.value.amountLimit, budget.value.committed + f.after.amount,
                                                  threshold)
  {
    SubmissionMovesRow(c, s, auth, id, submitAt, compliant);
    var f := SubmitTx(c, s, auth, id, submitAt, compliant).value;
    var key := (f.after.departmentId.value, ResolveBudgetYear(submitAt, c.zone));
    if ActiveBudget(s, key).Some? {
      ProjectionIsDerived(s.budgets[key], s.budgets[key].committed + f.after.amount, threshold);
    }
  }

  lemma ProjectionIsDerived(row: BudgetRow, projected: int, threshold: int)
    requires 0 < row.amountLimit && 0 <= projected
    ensures DerivedColumns(row.(committed := projected), threshold) ==
            ComputeProjectedBudgetMetrics(row.amountLimit, projected, threshold)
  {
    RatioIsNonNegative(projected, row.amountLimit);
  }

  lemma RatioIsNonNegative(committed: int, limit: int)
    requires 0 <= committed && 0 < limit
    ensures 0.0 <= Ratio(committed, limit)
    ensures JsRound(Ratio(committed, limit)) == SqlRound(Ratio(committed, limit))
  {
    assert 0.0 <= committed as real / limit as real;
  }

  /** Utilization in hundredths of a percent is the integer nearest to 10000 * committed / limit. */
  lemma UtilizationIsNearest(committed: int, limit: int)
    requires 0 <= committed && 0 < limit
    ensures var hundredths := SqlRound(Ratio(committed, limit));
            -limit <= 2 * (hundredths * limit - 10000 * committed) <= limit
  {
    RatioIsNonNegative(committed, limit);
    RatioTimesLimit(committed, limit);
    RoundingIsNearest(Ratio(committed, limit), SqlRound(Ratio(committed, limit)), committed, limit);
  }

  lemma RoundingIsNearest(x: real, h: int, committed: int, limit: int)
    requires 0 < limit && h as real <= x + 0.5 < h as real + 1.0
    requires x * limit as real == 10000.0 * committed as real
    ensures -limit <= 2 * (h * limit - 10000 * committed) <= limit
  {
    var hl, xl := RoundedTimesLimit(x, h, limit as real);
    CastProduct(h, limit);
    BackToIntegers(h * limit, committed, limit, hl, xl);
  }

  lemma BackToIntegers(p: int, c: int, l: int, hl: real, xl: real)
    requires hl == p as real && xl == 10000.0 * c as real
    requires -(l as real) <= 2.0 * hl - 2.0 * xl <= l as real
    ensures -l <= 2 * (p - 10000 * c) <= l
  {
    assert (2 * (p - 10000 * c)) as real == 2.0 * hl - 2.0 * xl;
  }

  lemma RatioTimesLimit(committed: int, limit: int)
    requires 0 < limit
    ensures Ratio(committed, limit) * limit as real == 10000.0 * committed as real
  {
    var q := committed as real / limit as real;
    Quotient(committed as real, limit as real);
    Reorder(q, limit as real);
  }

  lemma Quotient(c: real, l: real)
    requires l != 0.0
    ensures c / l * l == c
  {
  }

  lemma Reorder(q: real, l: real)
    ensures q * 10000.0 * l == 10000.0 * (q * l)
  {
  }

  lemma RoundedTimesLimit(x: real, h: int, l: real) returns (hl: real, xl: real)
    requires 0.0 < l && h as real <= x + 0.5 < h as real + 1.0
    ensures hl == h as real * l && xl == x * l
    ensures -l <= 2.0 * hl - 2.0 * xl <= l
  {
    hl, xl := h as real * l, x * l;
    var d := h as real - x;
    assert -0.5 <= d <= 0.5;
    Scale(-0.5, d, l);
    Scale(d, 0.5, l);
    assert d * l == h as real * l - x * l;
  }

  lemma Scale(a: real, b: real, l: real)
    requires a <= b && 0.0 < l
    ensures a * l <= b * l
  {
  }

  lemma {:induction false} CastProduct(h: int, limit: nat)
    ensures (h * limit) as real == h as real * limit as real
  {
    if limit != 0 {
      CastProduct(h, limit - 1);
      assert h * limit == h * (limit - 1) + h;
      assert h as real * limit as real == h as real * (limit - 1) as real + h as real;
    }
  }

  lemma UtilizationIsMonotone(less: int, more: int, limit: int)
    requires 0 <= less <= more && 0 < limit
    ensures SqlRound(Ratio(less, limit)) <= SqlRound(Ratio(more, limit))
  {
    RatioIsNonNegative(less, limit);
    RatioIsNonNegative(more, limit);
    assert less as real / limit as real <= more as real / limit as real;
    assert Ratio(less, limit) <= Ratio(more, limit);
  }

  /** What the derived columns of a row say: nothing remains exactly when the limit is reached, the
      row is over budget only beyond that, and the percentage is the nearest hundredth. */
  lemma DerivedColumnsMean(row: BudgetRow, threshold: int)
    requires RowOk(row)
    ensures var m := DerivedColumns(row, threshold);
            && (m.remaining == 0 <==> row.amountLimit <= row.committed)
            && (m.remaining != 0 ==> m.remaining + row.committed == row.amountLimit)
            && (m.isOverBudget <==> m.remaining == 0 && row.committed != row.amountLimit)
            && exists h: int ::
                 && m.utilizationPercent * 100.0 == h as real
                 && (m.isNearLimit <==> 100 * threshold <= h)
                 && -row.amountLimit <= 2 * (h * row.amountLimit - 10000 * row.committed) <= row.amountLimit
  {
    UtilizationIsNearest(row.committed, row.amountLimit);
    var h := SqlRound(Ratio(row.committed, row.amountLimit));
    assert DerivedColumns(row, threshold).utilizationPercent * 100.0 == h as real;
  }

  /** Without a positive limit neither computation has a percentage, and nothing is near the limit. */
  lemma NoLimitNoPercentage(row: BudgetRow, projected: int, threshold: int)
    requires row.amountLimit <= 0
    ensures var m := DerivedColumns(row, threshold);
            && m.utilizationPercent == 0.0 && !m.isNearLimit
            && (m.isOverBudget <==> row.amountLimit < row.committed)
    ensures var m := ComputeProjectedBudgetMetrics(row.amountLimit, projected, threshold);
            && m.utilizationPercent == 0.0 && !m.isNearLimit
            && (m.isOverBudget <==> row.amountLimit < projected)
  {
  }
}
