/** Monthly category budgets: the derived figures (spent, remaining, progress,
    over budget), the per-period listing and summary of BudgetService, and the
    budgets table with its unique (category, month, year) key, including
    copyBudgetsToNextMonth. Amounts are in cents, percentages are reals. */
module Budgets {
  import opened Common
  import opened Transactions

  /** A row of the budgets table. The amount is validated `min:0`. */
  datatype Budget = Budget(category: CategoryId, amount: nat, month: int, year: int)

  /** The columns of the unique index (for one owner). */
  datatype Key = Key(category: CategoryId, month: int, year: int)

  function KeyOf(b: Budget): Key {
    Key(b.category, b.month, b.year)
  }

  // ---------------------------------------------------------------------------
  // Spent: the expenses of one category in one calendar month.

  function SpentQuery(category: CategoryId, month: int, year: int): Query {
    ForMonth(ExpensesScope([CategoryIs(category)]), month, year)
  }

  /** The category's expense sum for a month (CategoryService's spending query). */
  function Spent(s: seq<Tx>, category: CategoryId, month: int, year: int): int {
    Total(s, SpentQuery(category, month, year))
  }

  /** The spending query selects exactly the expenses of that category dated in
      that month of that year. */
  lemma SpentMatches(category: CategoryId, month: int, year: int, t: Tx)
    ensures Matches(SpentQuery(category, month, year), t)
        <==> t.kind == Expense && t.category == Some(category) && t.date.month == month && t.date.year == year
  {
    ForMonthMatches(ExpensesScope([CategoryIs(category)]), month, year, t);
    ScopeMatches([CategoryIs(category)], Expense, t);
    assert [CategoryIs(category)][1..] == [];
  }

  lemma MonthlyExpensesMatches(month: int, year: int, t: Tx)
    ensures Matches(ForMonth(ExpensesScope([]), month, year), t)
        <==> t.kind == Expense && t.date.month == month && t.date.year == year
  {
    ForMonthMatches(ExpensesScope([]), month, year, t);
    ScopeMatches([], Expense, t);
  }

  /** With positive amounts, what one category spent in a month is never
      negative and never more than all the expenses of that month. */
  lemma {:induction false} SpentWithinMonthlyExpenses(s: seq<Tx>, category: CategoryId, month: int, year: int)
    requires PositiveAmounts(s)
    ensures 0 <= Spent(s, category, month, year) <= MonthlyExpenses(s, month, year)
  {
    if s != [] {
      var init, last := s[..|s| - 1], s[|s| - 1];
      assert PositiveAmounts(init);
      SpentWithinMonthlyExpenses(init, category, month, year);
      SpentMatches(category, month, year, last);
      MonthlyExpensesMatches(month, year, last);
    }
  }

  // ---------------------------------------------------------------------------
  // Derived figures of one budget.

  /** remaining: the amount minus what was spent; negative when overspent. */
  function Remaining(amount: nat, spent: int): int {
    amount - spent
  }

  /** progress as BudgetService computes it: guarded by `amount > 0`. */
  function ServiceProgress(amount: nat, spent: int): real {
    if amount > 0 then MinReal(spent as real / amount as real * 100.0, 100.0) else 0.0
  }

  /** progress as the Budget accessor computes it: guarded by `amount == 0`. */
  function Progress(amount: nat, spent: int): real {
    if amount == 0 then 0.0 else MinReal(spent as real / amount as real * 100.0, 100.0)
  }

  /** is_over_budget, on the uncapped amounts. */
  predicate IsOverBudget(amount: nat, spent: int) {
    spent > amount
  }

  /** For a non-negative amount the two guards select the same case, so both
      progress figures agree. */
  lemma ProgressFiguresAgree(amount: nat, spent: int)
    ensures ServiceProgress(amount, spent) == Progress(amount, spent)
  {
  }

  /** Progress never exceeds 100 and is exactly 100 once the amount is reached;
      below the amount it stays under 100. Over budget is exactly a negative
      remainder, and spending exactly the amount gives progress 100 without
      being over budget. */
  lemma BudgetFigures(amount: nat, spent: int)
    ensures Progress(amount, spent) <= 100.0
    ensures amount > 0 && spent >= amount ==> Progress(amount, spent) == 100.0
    ensures amount > 0 && 0 <= spent < amount ==> 0.0 <= Progress(amount, spent) < 100.0
    ensures IsOverBudget(amount, spent) <==> Remaining(amount, spent) < 0
    ensures amount > 0 && spent == amount ==> Progress(amount, spent) == 100.0 && !IsOverBudget(amount, spent)
  {
    if amount > 0 {
      var q := spent as real / amount as real;
      assert q * amount as real == spent as real;
      if spent >= amount {
        assert (q - 1.0) * amount as real == (spent - amount) as real;
      } else if spent >= 0 {
        assert (1.0 - q) * amount as real == (amount - spent) as real;
      }
    }
  }

  // ---------------------------------------------------------------------------
  // Listing and summary for one period.

  /** getAllForUser: the budgets of one month and year, in table order. With
      the clock's month and year this is also scopeCurrentMonth. */
  function BudgetsFor(rows: seq<Budget>, month: int, year: int): seq<Budget> {
    if rows == [] then []
    else
      var b := rows[|rows| - 1];
      BudgetsFor(rows[..|rows| - 1], month, year) + (if b.month == month && b.year == year then [b] else [])
  }

  /** The listing holds exactly the budgets of that period, each as often as
      in the table. */
  lemma {:induction false} BudgetsForSelects(rows: seq<Budget>, month: int, year: int)
    ensures forall b :: b in BudgetsFor(rows, month, year) <==> b in rows && b.month == month && b.year == year
    ensures forall b :: multiset(BudgetsFor(rows, month, year))[b]
                        == if b.month == month && b.year == year then multiset(rows)[b] else 0
  {
    if rows != [] {
      var init, last := rows[..|rows| - 1], rows[|rows| - 1];
      assert rows == init + [last];
      BudgetsForSelects(init, month, year);
    }
  }

  /** One entry of getBudgetsWithSpending. */
  datatype BudgetStatus = BudgetStatus(budget: Budget, spent: int, remaining: int, progress: real, overBudget: bool)

  function StatusOf(b: Budget, s: seq<Tx>, month: int, year: int): BudgetStatus {
    var spent := Spent(s, b.category, month, year);
    BudgetStatus(b, spent, Remaining(b.amount, spent), ServiceProgress(b.amount, spent), IsOverBudget(b.amount, spent))
  }

  function StatusesOf(bs: seq<Budget>, s: seq<Tx>, month: int, year: int): (r: seq<BudgetStatus>)
    ensures |r| == |bs|
  {
    if bs == [] then [] else StatusesOf(bs[..|bs| - 1], s, month, year) + [StatusOf(bs[|bs| - 1], s, month, year)]
  }

  /** getBudgetsWithSpending: one status per budget of the period, in order. */
  function WithSpending(rows: seq<Budget>, s: seq<Tx>, month: int, year: int): seq<BudgetStatus> {
    StatusesOf(BudgetsFor(rows, month, year), s, month, year)
  }

  /** Each status describes its own budget: spent is the category's expenses
      of the period, the remainder and the over-budget flag follow from it, and
      the capped progress agrees with the over-budget flag. */
  lemma {:induction false} StatusesDescribeBudgets(bs: seq<Budget>, s: seq<Tx>, month: int, year: int, i: nat)
    requires i < |bs|
    ensures var st := StatusesOf(bs, s, month, year)[i];
            && st.budget == bs[i]
            && st.spent == Spent(s, bs[i].category, month, year)
            && st.remaining == bs[i].amount - st.spent
            && (st.overBudget <==> st.remaining < 0)
            && st.progress <= 100.0
            && (st.overBudget && bs[i].amount > 0 ==> st.progress == 100.0)
  {
    if i < |bs| - 1 {
      StatusesDescribeBudgets(bs[..|bs| - 1], s, month, year, i);
    } else {
      var st := StatusOf(bs[i], s, month, year);
      BudgetFigures(bs[i].amount, st.spent);
    }
  }

  function TotalBudget(st: seq<BudgetStatus>): int {
    if st == [] then 0 else TotalBudget(st[..|st| - 1]) + st[|st| - 1].budget.amount
  }

  function TotalSpent(st: seq<BudgetStatus>): int {
    if st == [] then 0 else TotalSpent(st[..|st| - 1]) + st[|st| - 1].spent
  }

  function TotalRemainingOfEntries(st: seq<BudgetStatus>): int {
    if st == [] then 0 else TotalRemainingOfEntries(st[..|st| - 1]) + st[|st| - 1].remaining
  }

  datatype BudgetSummary = BudgetSummary(totalBudget: int, totalSpent: int, totalRemaining: int, overallProgress: real)

  /** getBudgetSummary over the period's statuses. */
  function Summary(st: seq<BudgetStatus>): BudgetSummary {
    var tb := TotalBudget(st);
    var ts := TotalSpent(st);
    BudgetSummary(tb, ts, tb - ts, if tb > 0 then MinReal(ts as real / tb as real * 100.0, 100.0) else 0.0)
  }

  /** The summary's remainder is the sum of the entries' remainders, and its
      progress is at most 100. */
  lemma {:induction false} SummaryAddsUp(bs: seq<Budget>, s: seq<Tx>, month: int, year: int)
    ensures var sum := Summary(StatusesOf(bs, s, month, year));
            sum.totalRemaining == TotalRemainingOfEntries(StatusesOf(bs, s, month, year))
            && sum.overallProgress <= 100.0
            && (sum.totalBudget == 0 ==> sum.overallProgress == 0.0)
  {
    if bs != [] {
      SummaryAddsUp(bs[..|bs| - 1], s, month, year);
      var st := StatusesOf(bs, s, month, year);
      assert st[..|st| - 1] == StatusesOf(bs[..|bs| - 1], s, month, year);
    }
  }

  // ---------------------------------------------------------------------------
  // Periods.

  /** The period after (month, year): January of the next year after December. */
  function NextPeriod(month: int, year: int): (r: (int, int))
    ensures r != (month, year)
    ensures 1 <= month <= 12 ==> 1 <= r.0 <= 12
    ensures r.1 == year || r.1 == year + 1
    ensures 1 <= month <= 12 ==> r.1 * 12 + r.0 == year * 12 + month + 1
  {
    if month == 12 then (1, year + 1) else (month + 1, year)
  }

  // ---------------------------------------------------------------------------
  // The table.

  datatype Table = Table(rows: map<Id, Budget>, next: nat)

  /** Ids are below the next id and no two rows share a key. */
  ghost predicate TableValid(t: Table) {
    && (forall k :: k in t.rows ==> k < t.next)
    && (forall j, k :: j in t.rows && k in t.rows && KeyOf(t.rows[j]) == KeyOf(t.rows[k]) ==> j == k)
  }

  /** The lowest id below `n` whose row has the key, as `firstOrCreate` looks it up. */
  function Lookup(rows: map<Id, Budget>, n: nat, key: Key): (r: Option<Id>)
    ensures r.Some? ==> r.value in rows && r.value < n && KeyOf(rows[r.value]) == key
    ensures r.None? ==> forall k :: k in rows && k < n ==> KeyOf(rows[k]) != key
  {
    if n == 0 then None
    else
      var earlier := Lookup(rows, n - 1, key);
      if earlier.Some? then earlier
      else if n - 1 in rows && KeyOf(rows[n - 1]) == key then Some(n - 1)
      else None
  }

  /** firstOrCreate: the row with that key if one exists, otherwise a new row
      with the given amount under the next id. */
  function FirstOrCreate(t: Table, key: Key, amount: nat): (Table, Budget) {
    var found := Lookup(t.rows, t.next, key);
    if found.Some? then (t, t.rows[found.value])
    else
      var b := Budget(key.category, amount, key.month, key.year);
      (Table(t.rows[t.next := b], t.next + 1), b)
  }

  /** The loop of copyBudgetsToNextMonth over the sources in order: the final
      table and the list of budgets it returns. */
  function CopyAll(t: Table, sources: seq<Budget>, month: int, year: int): (Table, seq<Budget>) {
    if sources == [] then (t, [])
    else
      var (t', out) := CopyAll(t, sources[..|sources| - 1], month, year);
      var last := sources[|sources| - 1];
      var (t'', b) := FirstOrCreate(t', Key(last.category, month, year), last.amount);
      (t'', out + [b])
  }

  /** firstOrCreate keeps the table valid, never touches an existing row, finds
      an existing key without writing, and otherwise adds exactly one row, with
      the key and amount asked for, under the next id. */
  lemma FirstOrCreateSpec(t: Table, key: Key, amount: nat)
    requires TableValid(t)
    ensures var (t', b) := FirstOrCreate(t, key, amount);
            && TableValid(t')
            && KeyOf(b) == key
            && (forall k :: k in t.rows ==> k in t'.rows && t'.rows[k] == t.rows[k])
            && Lookup(t'.rows, t'.next, key).Some?
            && t'.rows[Lookup(t'.rows, t'.next, key).value] == b
            && (Lookup(t.rows, t.next, key).Some? ==> t' == t)
            && (Lookup(t.rows, t.next, key).None? ==>
                  t'.next == t.next + 1 && t'.rows == t.rows[t.next := b] && b.amount == amount)
  {
    var (t', b) := FirstOrCreate(t, key, amount);
    var found := Lookup(t'.rows, t'.next, key);
    if Lookup(t.rows, t.next, key).None? {
      assert t.next in t'.rows && KeyOf(t'.rows[t.next]) == key;
      assert found.Some?;
    }
  }

  /** One entry per source, every existing row untouched, the table still
      valid, the target key of every source present afterwards, each returned
      budget the stored row of its source's target key, and the rows added only
      in the target period. */
  lemma {:induction false} CopyAllSpec(t: Table, sources: seq<Budget>, month: int, year: int)
    requires TableValid(t)
    ensures var (t', out) := CopyAll(t, sources, month, year);
            && TableValid(t')
            && |out| == |sources|
            && t'.next >= t.next
            && (forall k :: k in t.rows ==> k in t'.rows && t'.rows[k] == t.rows[k])
            && (forall k :: k in t'.rows && k !in t.rows ==> t'.rows[k].month == month && t'.rows[k].year == year)
            && (forall i :: 0 <= i < |sources| ==>
                  && KeyOf(out[i]) == Key(sources[i].category, month, year)
                  && Lookup(t'.rows, t'.next, KeyOf(out[i])).Some?
                  && t'.rows[Lookup(t'.rows, t'.next, KeyOf(out[i])).value] == out[i])
  {
    if sources != [] {
      var init, last := sources[..|sources| - 1], sources[|sources| - 1];
      CopyAllSpec(t, init, month, year);
      var (t1, out1) := CopyAll(t, init, month, year);
      var key := Key(last.category, month, year);
      FirstOrCreateSpec(t1, key, last.amount);
      var (t2, b) := FirstOrCreate(t1, key, last.amount);
      assert CopyAll(t, sources, month, year) == (t2, out1 + [b]);
      forall i | 0 <= i < |init|
        ensures Lookup(t2.rows, t2.next, KeyOf(out1[i])).Some?
        ensures t2.rows[Lookup(t2.rows, t2.next, KeyOf(out1[i])).value] == out1[i]
      {
        var k1 := Lookup(t1.rows, t1.next, KeyOf(out1[i])).value;
        var k2 := Lookup(t2.rows, t2.next, KeyOf(out1[i])).value;
        assert k1 in t2.rows && t2.rows[k1] == out1[i];
      }
    }
  }

  /** Every row the copy adds is a source budget's category and amount, moved
      to the target period. */
  lemma {:induction false} CopyAllCopiesAmounts(t: Table, sources: seq<Budget>, month: int, year: int)
    requires TableValid(t)
    ensures var t' := CopyAll(t, sources, month, year).0;
            forall k :: k in t'.rows && k !in t.rows ==>
              exists i :: 0 <= i < |sources| && t'.rows[k] == Budget(sources[i].category, sources[i].amount, month, year)
  {
    if sources != [] {
      var init, last := sources[..|sources| - 1], sources[|sources| - 1];
      CopyAllCopiesAmounts(t, init, month, year);
      CopyAllSpec(t, init, month, year);
      var (t1, out1) := CopyAll(t, init, month, year);
      var key := Key(last.category, month, year);
      FirstOrCreateSpec(t1, key, last.amount);
      var (t2, b) := FirstOrCreate(t1, key, last.amount);
      assert CopyAll(t, sources, month, year).0 == t2;
      forall k | k in t2.rows && k !in t.rows
        ensures exists i :: 0 <= i < |sources| && t2.rows[k] == Budget(sources[i].category, sources[i].amount, month, year)
      {
        if k in t1.rows {
          var i :| 0 <= i < |init| && t1.rows[k] == Budget(init[i].category, init[i].amount, month, year);
          assert sources[i] == init[i];
        } else {
          assert t2.rows[k] == b == Budget(last.category, last.amount, month, year);
        }
      }
    }
  }

  /** Every lookup of a source's target key succeeds, so each firstOrCreate
      only reads: the table is returned as it was. */
  lemma {:induction false} CopyAllOnlyReads(t: Table, sources: seq<Budget>, month: int, year: int)
    requires TableValid(t)
    requires forall i :: 0 <= i < |sources| ==> Lookup(t.rows, t.next, Key(sources[i].category, month, year)).Some?
    ensures CopyAll(t, sources, month, year).0 == t
  {
    if sources != [] {
      CopyAllOnlyReads(t, sources[..|sources| - 1], month, year);
    }
  }

  /** Adding rows of another period does not change the listing of a period. */
  lemma {:induction false} CopyAllKeepsOtherPeriods(t: Table, sources: seq<Budget>, month: int, year: int,
                                                    otherMonth: int, otherYear: int)
    requires TableValid(t) && (month, year) != (otherMonth, otherYear)
    ensures var t' := CopyAll(t, sources, month, year).0;
            BudgetsFor(Rows(t'.rows, t'.next), otherMonth, otherYear) == BudgetsFor(Rows(t.rows, t.next), otherMonth, otherYear)
  {
    if sources != [] {
      var init, last := sources[..|sources| - 1], sources[|sources| - 1];
      CopyAllKeepsOtherPeriods(t, init, month, year, otherMonth, otherYear);
      CopyAllSpec(t, init, month, year);
      var t1 := CopyAll(t, init, month, year).0;
      var key := Key(last.category, month, year);
      var (t2, b) := FirstOrCreate(t1, key, last.amount);
      assert CopyAll(t, sources, month, year).0 == t2;
      if Lookup(t1.rows, t1.next, key).None? {
        RowsInsertNext(t1.rows, t1.next, b);
        BudgetsForIgnoresOtherPeriod(Rows(t1.rows, t1.next), b, otherMonth, otherYear);
      }
    }
  }

  lemma BudgetsForIgnoresOtherPeriod(rows: seq<Budget>, b: Budget, month: int, year: int)
    requires (b.month, b.year) != (month, year)
    ensures BudgetsFor(rows + [b], month, year) == BudgetsFor(rows, month, year)
  {
    assert (rows + [b])[..|rows|] == rows;
  }

  /** copyBudgetsToNextMonth is idempotent: running it a second time for the
      same source period lists the same sources, adds no row and changes no
      amount. */
  lemma CopyIsIdempotent(t: Table, fromMonth: int, fromYear: int)
    requires TableValid(t)
    ensures var (month, year) := NextPeriod(fromMonth, fromYear);
            var sources := BudgetsFor(Rows(t.rows, t.next), fromMonth, fromYear);
            var t1 := CopyAll(t, sources, month, year).0;
            && BudgetsFor(Rows(t1.rows, t1.next), fromMonth, fromYear) == sources
            && CopyAll(t1, sources, month, year).0 == t1
  {
    var (month, year) := NextPeriod(fromMonth, fromYear);
    var sources := BudgetsFor(Rows(t.rows, t.next), fromMonth, fromYear);
    CopyAllSpec(t, sources, month, year);
    CopyAllKeepsOtherPeriods(t, sources, month, year, fromMonth, fromYear);
    var (t1, out) := CopyAll(t, sources, month, year);
    CopyAllOnlyReads(t1, sources, month, year);
  }

  class BudgetTable {
    var rows: map<Id, Budget>
    var nextId: nat

    ghost predicate Valid()
      reads this
    {
      TableValid(Table(rows, nextId))
    }

    function AllRows(): seq<Budget>
      reads this
    {
      Rows(rows, nextId)
    }

    constructor ()
      ensures Valid() && rows == map[]
    {
      rows, nextId := map[], 0;
    }

    /** BudgetService::create. Month and year default to the clock's; a second
        budget for the same category and period is refused by the unique index
        (`None`) and nothing is written. */
    method Create(category: CategoryId, amount: nat, month: Option<int>, year: Option<int>,
                  nowMonth: int, nowYear: int) returns (id: Option<Id>)
      requires Valid()
      requires month.Some? ==> 1 <= month.value <= 12
      requires year.Some? ==> 2020 <= year.value <= 2100
      modifies this
      ensures Valid()
      ensures var b := Budget(category, amount, month.GetOr(nowMonth), year.GetOr(nowYear));
              && (id.None? <==> old(Lookup(rows, nextId, KeyOf(b))).Some?)
              && (id.None? ==> rows == old(rows) && nextId == old(nextId))
              && (id.Some? ==> id.value == old(nextId) && rows == old(rows)[id.value := b] && nextId == old(nextId) + 1)
    {
      var b := Budget(category, amount, month.GetOr(nowMonth), year.GetOr(nowYear));
      if Lookup(rows, nextId, KeyOf(b)).Some? {
        id := None;
      } else {
        FirstOrCreateSpec(Table(rows, nextId), KeyOf(b), amount);
        id := Some(nextId);
        rows := rows[nextId := b];
        nextId := nextId + 1;
      }
    }

    /** BudgetService::update: only the amount can change, and an absent amount
        keeps the old one. */
    method Update(id: Id, amount: Option<nat>)
      requires Valid() && id in rows
      modifies this`rows
      ensures Valid()
      ensures rows == old(rows)[id := old(rows[id]).(amount := amount.GetOr(old(rows[id].amount)))]
      ensures KeyOf(rows[id]) == KeyOf(old(rows[id]))
    {
      rows := rows[id := rows[id].(amount := amount.GetOr(rows[id].amount))];
    }

    /** BudgetService::delete. */
    method Delete(id: Id)
      requires Valid() && id in rows
      modifies this`rows
      ensures Valid()
      ensures rows == old(rows) - {id}
    {
      rows := rows - {id};
    }

    /** copyBudgetsToNextMonth: for each budget of the source period, in order,
        firstOrCreate its category in the next period with the source's amount. */
    method CopyToNextMonth(fromMonth: int, fromYear: int) returns (copied: seq<Budget>)
      requires Valid()
      modifies this
      ensures Valid()
      ensures var (month, year) := NextPeriod(fromMonth, fromYear);
              (Table(rows, nextId), copied)
              == CopyAll(old(Table(rows, nextId)), old(BudgetsFor(AllRows(), fromMonth, fromYear)), month, year)
      ensures |copied| == |old(BudgetsFor(AllRows(), fromMonth, fromYear))|
      ensures forall k :: k in old(rows) ==> k in rows && rows[k] == old(rows[k])
      ensures var (month, year) := NextPeriod(fromMonth, fromYear);
              var sources := old(BudgetsFor(AllRows(), fromMonth, fromYear));
              forall k :: k in rows && k !in old(rows) ==>
                exists i :: 0 <= i < |sources| && rows[k] == Budget(sources[i].category, sources[i].amount, month, year)
    {
      var sources := BudgetsFor(AllRows(), fromMonth, fromYear);
      var (month, year) := NextPeriod(fromMonth, fromYear);
      ghost var start := Table(rows, nextId);
      copied := [];
      var i := 0;
      while i < |sources|
        invariant 0 <= i <= |sources|
        invariant (Table(rows, nextId), copied) == CopyAll(start, sources[..i], month, year)
        invariant Valid()
      {
        var key := Key(sources[i].category, month, year);
        FirstOrCreateSpec(Table(rows, nextId), key, sources[i].amount);
        var found := Lookup(rows, nextId, key);
        var b: Budget;
        if found.Some? {
          b := rows[found.value];
        } else {
          b := Budget(key.category, sources[i].amount, month, year);
          rows := rows[nextId := b];
          nextId := nextId + 1;
        }
        copied := copied + [b];
        assert sources[..i + 1][..i] == sources[..i];
        i := i + 1;
      }
      assert sources[..|sources|] == sources;
      CopyAllSpec(start, sources, month, year);
      CopyAllCopiesAmounts(start, sources, month, year);
    }
  }

  /** A budget of 500.00 whose category spent 600.00 in its month: 600.00
      spent, 100.00 over, progress capped at 100 and flagged over budget. */
  lemma OverspentExample()
    ensures var t1 := Tx(Expense, 0, None, Some(7), 40000, "Rent", None, Date(2025, 3, 1), 0);
            var t2 := Tx(Expense, 0, None, Some(7), 20000, "Repairs", None, Date(2025, 3, 20), 1);
            var t3 := Tx(Expense, 0, None, Some(8), 9900, "Food", None, Date(2025, 3, 21), 2);
            var st := StatusOf(Budget(7, 50000, 3, 2025), [t1, t2, t3], 3, 2025);
            st.spent == 60000 && st.remaining == -10000 && st.progress == 100.0 && st.overBudget
  {
    var t1 := Tx(Expense, 0, None, Some(7), 40000, "Rent", None, Date(2025, 3, 1), 0);
    var t2 := Tx(Expense, 0, None, Some(7), 20000, "Repairs", None, Date(2025, 3, 20), 1);
    var t3 := Tx(Expense, 0, None, Some(8), 9900, "Food", None, Date(2025, 3, 21), 2);
    var s := [t1, t2, t3];
    var q := SpentQuery(7, 3, 2025);
    SpentMatches(7, 3, 2025, t1);
    SpentMatches(7, 3, 2025, t2);
    SpentMatches(7, 3, 2025, t3);
    assert s[..2] == [t1, t2] && [t1, t2][..1] == [t1] && [t1][..0] == [];
    assert Total([t1], q) == 40000;
    assert Total([t1, t2], q) == 60000;
    assert Total(s, q) == 60000;
    BudgetFigures(50000, 60000);
  }
}
