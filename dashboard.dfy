/** The figures of DashboardService: the monthly savings tracker and the
    month-over-month comparison. "Now" is a parameter. */
module Dashboard {
  import opened Common
  import opened Transactions
  import Budgets

  /** The monthly_tracker block. */
  datatype Tracker = Tracker(income: int, expenses: int, net: int, goal: int,
                             progress: real, onTrack: bool, shortfall: int)

  function MonthlyTracker(income: int, expenses: int, goal: int): Tracker {
    var net := income - expenses;
    var onTrack := net >= goal;
    var progress := if goal > 0 then net as real / goal as real * 100.0 else 0.0;
    Tracker(income, expenses, net, goal, MinReal(progress, 100.0), onTrack, if onTrack then 0 else goal - net)
  }

  /** The tracker of one month: income and expenses are the month's sums, and
      the goal is the user's monthly savings goal (0 when unset). */
  function TrackerFor(s: seq<Tx>, month: int, year: int, goal: Option<int>): Tracker {
    MonthlyTracker(MonthlyIncome(s, month, year), MonthlyExpenses(s, month, year), goal.GetOr(0))
  }

  /** On track exactly when the net reaches the goal; otherwise the shortfall is
      positive and closes the gap. Progress is capped at 100, reaching it
      exactly when on track for a positive goal, is negative when the month
      lost money, and is 0 without a positive goal. */
  lemma TrackerFacts(income: int, expenses: int, goal: int)
    ensures var t := MonthlyTracker(income, expenses, goal);
            && t.net == income - expenses
            && (t.onTrack <==> t.net >= t.goal)
            && (t.onTrack ==> t.shortfall == 0)
            && (!t.onTrack ==> t.shortfall > 0 && t.net + t.shortfall == t.goal)
            && t.progress <= 100.0
            && (goal <= 0 ==> t.progress == 0.0)
            && (goal > 0 ==> (t.progress == 100.0 <==> t.onTrack))
            && (goal > 0 && t.net < 0 ==> t.progress < 0.0)
  {
    var net := income - expenses;
    if goal > 0 {
      var q := net as real / goal as real;
      assert q * goal as real == net as real;
      if net >= goal {
        assert (q - 1.0) * goal as real == (net - goal) as real;
      } else {
        assert (1.0 - q) * goal as real == (goal - net) as real;
      }
    }
  }

  /** The tracker's net savings is the month's flow of income and expenses. */
  lemma TrackerNetIsMonthlyFlow(s: seq<Tx>, month: int, year: int, goal: Option<int>)
    ensures TrackerFor(s, month, year, goal).net == MonthlyFlow(s, month, year)
    ensures TrackerFor(s, month, year, goal).net == GetMonthlySummary(s, month, year).net
  {
    MonthlyNetIsMonthlyFlow(s, month, year);
  }

  /** The month before (month, year): December of the year before January. */
  function PreviousMonth(month: int, year: int): (r: (int, int))
    ensures 1 <= month <= 12 ==> 1 <= r.0 <= 12
    ensures 1 <= month <= 12 ==> r.1 * 12 + r.0 == year * 12 + month - 1
  {
    if month == 1 then (12, year - 1) else (month - 1, year)
  }

  /** The previous month and the next period undo each other on valid months. */
  lemma PreviousUndoesNext(month: int, year: int)
    requires 1 <= month <= 12
    ensures var n := Budgets.NextPeriod(month, year); PreviousMonth(n.0, n.1) == (month, year)
    ensures var p := PreviousMonth(month, year); Budgets.NextPeriod(p.0, p.1) == (month, year)
  {
  }

  datatype Trend = Up | Down

  /** One block of getStatsComparison. */
  datatype Comparison = Comparison(current: int, previous: int, change: real, trend: Trend)

  /** Income: the change in percent of a positive previous value, else 0; up
      when income did not fall. */
  function IncomeComparison(current: int, previous: int): Comparison {
    Comparison(current, previous,
               if previous > 0 then (current - previous) as real / previous as real * 100.0 else 0.0,
               if current >= previous then Up else Down)
  }

  /** Expenses: the same change, but the trend is inverted: up when expenses
      did not rise. */
  function ExpenseComparison(current: int, previous: int): Comparison {
    Comparison(current, previous,
               if previous > 0 then (current - previous) as real / previous as real * 100.0 else 0.0,
               if current <= previous then Up else Down)
  }

  /** Net savings: the change relative to the size of a non-zero previous net,
      else 0; up when the net did not fall. */
  function SavingsComparison(current: int, previous: int): Comparison {
    Comparison(current, previous,
               if previous != 0 then (current - previous) as real / Abs(previous) as real * 100.0 else 0.0,
               if current >= previous then Up else Down)
  }

  /** The sign of each change agrees with its trend whenever a change is
      computed, an unchanged value has a zero change, and there is no change
      without a base to compare with. */
  lemma ComparisonsAgreeWithTrends(current: int, previous: int)
    ensures var c := IncomeComparison(current, previous);
            (previous > 0 ==> (c.change >= 0.0 <==> c.trend == Up) && (c.change == 0.0 <==> current == previous))
            && (previous <= 0 ==> c.change == 0.0)
    ensures var c := ExpenseComparison(current, previous);
            (previous > 0 ==> (c.change <= 0.0 <==> c.trend == Up) && (c.change == 0.0 <==> current == previous))
            && (previous <= 0 ==> c.change == 0.0)
    ensures var c := SavingsComparison(current, previous);
            (previous != 0 ==> (c.change >= 0.0 <==> c.trend == Up) && (c.change == 0.0 <==> current == previous))
            && (previous == 0 ==> c.change == 0.0)
  {
    if previous != 0 {
      SignOfRatio(current - previous, Abs(previous));
    }
  }

  /** Dividing by a positive base and scaling to percent keeps the sign. */
  lemma SignOfRatio(d: int, base: int)
    requires base > 0
    ensures var r := d as real / base as real * 100.0;
            (r >= 0.0 <==> d >= 0) && (r <= 0.0 <==> d <= 0) && (r == 0.0 <==> d == 0)
  {
    var q := d as real / base as real;
    assert q * base as real == d as real;
  }

  datatype Stats = Stats(income: Comparison, expenses: Comparison, savings: Comparison)

  /** getStatsComparison for the month of "now" against the month before. */
  function StatsComparison(s: seq<Tx>, month: int, year: int): Stats {
    var (lastMonth, lastYear) := PreviousMonth(month, year);
    var income := MonthlyIncome(s, month, year);
    var lastIncome := MonthlyIncome(s, lastMonth, lastYear);
    var expenses := MonthlyExpenses(s, month, year);
    var lastExpenses := MonthlyExpenses(s, lastMonth, lastYear);
    Stats(IncomeComparison(income, lastIncome),
          ExpenseComparison(expenses, lastExpenses),
          SavingsComparison(income - expenses, lastIncome - lastExpenses))
  }

  /** The savings block compares the flows of this month and the previous one. */
  lemma StatsSavingsAreFlows(s: seq<Tx>, month: int, year: int)
    ensures var p := PreviousMonth(month, year);
            var st := StatsComparison(s, month, year);
            st.savings.current == MonthlyFlow(s, month, year)
            && st.savings.previous == MonthlyFlow(s, p.0, p.1)
            && st.savings.current == st.income.current - st.expenses.current
  {
    var p := PreviousMonth(month, year);
    MonthlyNetIsMonthlyFlow(s, month, year);
    MonthlyNetIsMonthlyFlow(s, p.0, p.1);
  }
}
