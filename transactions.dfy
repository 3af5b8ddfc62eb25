/** The transaction record, its query scopes, the monthly sums built on them,
    the signed balance effect of a transaction, the reconciliation sums of
    Account::recalculateBalance and the "recent" ordering. */
module Transactions {
  import opened Common

  type AccountId = Id
  type CategoryId = Id

  datatype TxKind = Income | Expense | Transfer

  /** A row of the transactions table. `amount` is in cents and positive: the
      sign is implied by the kind and by the account's role. */
  datatype Tx = Tx(
    kind: TxKind,
    account: AccountId,            // source account for every kind
    toAccount: Option<AccountId>,  // destination, set for transfers
    category: Option<CategoryId>,
    amount: int,
    description: string,
    notes: Option<string>,
    date: Date,
    createdAt: Timestamp)

  // ---------------------------------------------------------------------------
  // Query scopes: a query is the list of its `where` conditions.

  datatype Cond =
    | KindIs(kind: TxKind)
    | AccountIs(account: AccountId)
    | ToAccountIs(toAccount: AccountId)
    | CategoryIs(category: CategoryId)
    | MonthIs(month: int)
    | YearIs(year: int)

  type Query = seq<Cond>

  predicate Holds(c: Cond, t: Tx) {
    match c
    case KindIs(k) => t.kind == k
    case AccountIs(a) => t.account == a
    case ToAccountIs(a) => t.toAccount == Some(a)
    case CategoryIs(cat) => t.category == Some(cat)
    case MonthIs(m) => t.date.month == m
    case YearIs(y) => t.date.year == y
  }

  /** All conditions of the query hold. */
  predicate Matches(q: Query, t: Tx) {
    q == [] || (Holds(q[0], t) && Matches(q[1..], t))
  }

  lemma {:induction false} MatchesAppend(q: Query, r: Query, t: Tx)
    ensures Matches(q + r, t) <==> Matches(q, t) && Matches(r, t)
  {
    if q == [] {
      assert q + r == r;
    } else {
      assert (q + r)[0] == q[0];
      assert (q + r)[1..] == q[1..] + r;
      MatchesAppend(q[1..], r, t);
    }
  }

  lemma MatchesPair(c: Cond, d: Cond, t: Tx)
    ensures Matches([c, d], t) <==> Holds(c, t) && Holds(d, t)
  {
    assert [c, d][0] == c && [c, d][1..] == [d];
    assert [d][0] == d && [d][1..] == [];
    assert Matches([d], t) <==> Holds(d, t) && Matches([], t);
    assert Matches([c, d], t) <==> Holds(c, t) && Matches([d], t);
  }

  /** scopeIncome, scopeExpenses and scopeTransfers. */
  function IncomeScope(q: Query): Query { q + [KindIs(Income)] }
  function ExpensesScope(q: Query): Query { q + [KindIs(Expense)] }
  function TransfersScope(q: Query): Query { q + [KindIs(Transfer)] }

  /** scopeForMonth: whereMonth and whereYear on transaction_date. */
  function ForMonth(q: Query, month: int, year: int): Query { q + [MonthIs(month), YearIs(year)] }

  /** forMonth keeps exactly the rows dated in that month of that year. */
  lemma ForMonthMatches(q: Query, month: int, year: int, t: Tx)
    ensures Matches(ForMonth(q, month, year), t)
        <==> Matches(q, t) && t.date.month == month && t.date.year == year
  {
    MatchesAppend(q, [MonthIs(month), YearIs(year)], t);
    MatchesPair(MonthIs(month), YearIs(year), t);
  }

  /** Each kind scope keeps exactly the rows of that kind. */
  lemma ScopeMatches(q: Query, k: TxKind, t: Tx)
    ensures Matches(q + [KindIs(k)], t) <==> Matches(q, t) && t.kind == k
  {
    MatchesAppend(q, [KindIs(k)], t);
    assert [KindIs(k)][1..] == [];
  }

  /** The rows of `s` that satisfy `q`, in their order. */
  function Get(s: seq<Tx>, q: Query): (r: seq<Tx>)
    ensures |r| <= |s|
  {
    if s == [] then []
    else Get(s[..|s| - 1], q) + (if Matches(q, s[|s| - 1]) then [s[|s| - 1]] else [])
  }

  /** A query returns exactly the rows that satisfy it, each as often as it occurs. */
  lemma {:induction false} GetSelects(s: seq<Tx>, q: Query)
    ensures forall t :: t in Get(s, q) <==> t in s && Matches(q, t)
    ensures forall t :: multiset(Get(s, q))[t] == if Matches(q, t) then multiset(s)[t] else 0
  {
    if s != [] {
      var init, last := s[..|s| - 1], s[|s| - 1];
      assert s == init + [last];
      GetSelects(init, q);
    }
  }

  /** `->sum('amount')` over the rows of `s` that satisfy `q`. */
  function Total(s: seq<Tx>, q: Query): int {
    if s == [] then 0
    else Total(s[..|s| - 1], q) + (if Matches(q, s[|s| - 1]) then s[|s| - 1].amount else 0)
  }

  /** Amounts are positive (validation `min:0.01`). */
  ghost predicate PositiveAmounts(s: seq<Tx>) {
    forall i :: 0 <= i < |s| ==> s[i].amount > 0
  }

  /** With positive amounts a sum is never negative, and is zero exactly when
      no row matches. */
  lemma {:induction false} TotalOfPositiveAmounts(s: seq<Tx>, q: Query)
    requires PositiveAmounts(s)
    ensures Total(s, q) >= 0
    ensures Total(s, q) == 0 <==> Get(s, q) == []
  {
    if s != [] {
      var init := s[..|s| - 1];
      assert PositiveAmounts(init);
      TotalOfPositiveAmounts(init, q);
    }
  }

  // ---------------------------------------------------------------------------
  // The three kind scopes partition the transactions.

  /** Every row selected by a query is selected by exactly one of the income,
      expense and transfer scopes, so their rows and their sums add up to the
      query's. */
  lemma {:induction false} KindScopesPartition(s: seq<Tx>, q: Query)
    ensures multiset(Get(s, IncomeScope(q))) + multiset(Get(s, ExpensesScope(q)))
            + multiset(Get(s, TransfersScope(q))) == multiset(Get(s, q))
    ensures Total(s, IncomeScope(q)) + Total(s, ExpensesScope(q))
            + Total(s, TransfersScope(q)) == Total(s, q)
  {
    if s != [] {
      var init, last := s[..|s| - 1], s[|s| - 1];
      KindScopesPartition(init, q);
      ScopeMatches(q, Income, last);
      ScopeMatches(q, Expense, last);
      ScopeMatches(q, Transfer, last);
    }
  }

  // ---------------------------------------------------------------------------
  // Monthly sums (TransactionService::getMonthlyIncome, getMonthlyExpenses,
  // getMonthlySummary).

  function MonthlyIncome(s: seq<Tx>, month: int, year: int): int {
    Total(s, ForMonth(IncomeScope([]), month, year))
  }

  function MonthlyExpenses(s: seq<Tx>, month: int, year: int): int {
    Total(s, ForMonth(ExpensesScope([]), month, year))
  }

  datatype MonthlySummary = MonthlySummary(income: int, expenses: int, net: int)

  function GetMonthlySummary(s: seq<Tx>, month: int, year: int): MonthlySummary {
    var income := MonthlyIncome(s, month, year);
    var expenses := MonthlyExpenses(s, month, year);
    MonthlySummary(income, expenses, income - expenses)
  }

  /** What a transaction contributes to its owner's net for the month:
      income counts positive, expenses negative, transfers not at all. */
  function Flow(t: Tx): int {
    match t.kind
    case Income => t.amount
    case Expense => -t.amount
    case Transfer => 0
  }

  /** Reference definition of a month's net, one transaction at a time. */
  function MonthlyFlow(s: seq<Tx>, month: int, year: int): int {
    if s == [] then 0
    else
      var last := s[|s| - 1];
      MonthlyFlow(s[..|s| - 1], month, year)
      + (if last.date.month == month && last.date.year == year then Flow(last) else 0)
  }

  /** The summary's net is the sum of the signed amounts of that month's
      income and expenses; transfers and other months do not count. */
  lemma {:induction false} MonthlyNetIsMonthlyFlow(s: seq<Tx>, month: int, year: int)
    ensures GetMonthlySummary(s, month, year).net == MonthlyFlow(s, month, year)
  {
    if s != [] {
      var init, last := s[..|s| - 1], s[|s| - 1];
      MonthlyNetIsMonthlyFlow(init, month, year);
      ForMonthMatches(IncomeScope([]), month, year, last);
      ForMonthMatches(ExpensesScope([]), month, year, last);
      ScopeMatches([], Income, last);
      ScopeMatches([], Expense, last);
    }
  }

  // ---------------------------------------------------------------------------
  // Balance effects (applyTransactionEffect / reverseTransactionEffect).

  /** The signed change a transaction makes to account `a`'s balance: income
      adds, expense subtracts, a transfer subtracts from its source and adds to
      its destination when it has one. */
  function Delta(t: Tx, a: AccountId): int {
    match t.kind
    case Income => if t.account == a then t.amount else 0
    case Expense => if t.account == a then -t.amount else 0
    case Transfer =>
      (if t.account == a then -t.amount else 0)
      + (if t.toAccount == Some(a) then t.amount else 0)
  }

  /** Whether the transaction names account `a` at all. */
  predicate Touches(t: Tx, a: AccountId) {
    t.account == a || t.toAccount == Some(a)
  }

  /** The sum of the effects of `s` on account `a`. */
  function NetEffect(s: seq<Tx>, a: AccountId): int {
    if s == [] then 0 else NetEffect(s[..|s| - 1], a) + Delta(s[|s| - 1], a)
  }

  lemma NetEffectAppend(s: seq<Tx>, t: Tx, a: AccountId)
    ensures NetEffect(s + [t], a) == NetEffect(s, a) + Delta(t, a)
  {
    assert (s + [t])[..|s|] == s;
  }

  /** Transactions that do not name an account leave it untouched. */
  lemma {:induction false} NetEffectOfUntouched(s: seq<Tx>, a: AccountId)
    requires forall i :: 0 <= i < |s| ==> !Touches(s[i], a)
    ensures NetEffect(s, a) == 0
  {
    if s != [] {
      NetEffectOfUntouched(s[..|s| - 1], a);
    }
  }

  /** A transfer with a destination moves money and creates none: it takes
      `amount` from its source, gives it to its destination, and the two
      changes cancel. */
  lemma TransferConserves(t: Tx, b: AccountId)
    requires t.kind == Transfer && t.toAccount == Some(b) && b != t.account
    ensures Delta(t, t.account) == -t.amount && Delta(t, b) == t.amount
    ensures Delta(t, t.account) + Delta(t, b) == 0
    ensures forall c :: c != t.account && c != b ==> Delta(t, c) == 0
  {
  }

  // ---------------------------------------------------------------------------
  // Reconciliation (Account::recalculateBalance).

  /** The four sums exactly as Account::recalculateBalance runs them: incoming
      transfers are all rows whose to_account_id is `a`, whatever their type. */
  function RecalculatedAsWritten(s: seq<Tx>, a: AccountId): int {
    Total(s, [AccountIs(a), KindIs(Income)])
    - Total(s, [AccountIs(a), KindIs(Expense)])
    - Total(s, [AccountIs(a), KindIs(Transfer)])
    + Total(s, [ToAccountIs(a)])
  }

  /** The reconciliation the rest of the model uses: incoming transfers are
      restricted to rows of type transfer, the only ones whose destination is
      credited when the effect is applied. */
  function Recalculated(s: seq<Tx>, a: AccountId): int {
    Total(s, [AccountIs(a), KindIs(Income)])
    - Total(s, [AccountIs(a), KindIs(Expense)])
    - Total(s, [AccountIs(a), KindIs(Transfer)])
    + Total(s, [ToAccountIs(a), KindIs(Transfer)])
  }

  /** Reconciliation agrees with the running balance: the recalculated value is
      exactly the sum of the effects applied for the account's transactions. */
  lemma {:induction false} RecalculatedIsNetEffect(s: seq<Tx>, a: AccountId)
    ensures Recalculated(s, a) == NetEffect(s, a)
  {
    if s != [] {
      var init, last := s[..|s| - 1], s[|s| - 1];
      RecalculatedIsNetEffect(init, a);
      MatchesPair(AccountIs(a), KindIs(Income), last);
      MatchesPair(AccountIs(a), KindIs(Expense), last);
      MatchesPair(AccountIs(a), KindIs(Transfer), last);
      MatchesPair(ToAccountIs(a), KindIs(Transfer), last);
    }
  }

  /** A transfer counts against its source and for its destination, so it adds
      nothing to the sum of the two recalculated balances. */
  lemma TransferCancelsInRecalculation(s: seq<Tx>, t: Tx, b: AccountId)
    requires t.kind == Transfer && t.toAccount == Some(b) && b != t.account
    ensures Recalculated(s + [t], t.account) + Recalculated(s + [t], b)
         == Recalculated(s, t.account) + Recalculated(s, b)
  {
    RecalculatedIsNetEffect(s + [t], t.account);
    RecalculatedIsNetEffect(s + [t], b);
    RecalculatedIsNetEffect(s, t.account);
    RecalculatedIsNetEffect(s, b);
    NetEffectAppend(s, t, t.account);
    NetEffectAppend(s, t, b);
  }

  /** The as-written sums disagree with the applied effects: an income row whose
      to_account_id was set by an update counts as an incoming transfer for that
      account, although applying it never credited that account. */
  lemma RecalculatedAsWrittenCountsRetargetedIncome()
    ensures var t := Tx(Income, 0, Some(1), Some(5), 100, "salary", None, Date(2025, 1, 15), 0);
            RecalculatedAsWritten([t], 1) == 100 && NetEffect([t], 1) == 0
  {
    var t := Tx(Income, 0, Some(1), Some(5), 100, "salary", None, Date(2025, 1, 15), 0);
    assert [t][..0] == [];
    assert [ToAccountIs(1)][1..] == [];
    MatchesPair(AccountIs(1), KindIs(Income), t);
    MatchesPair(AccountIs(1), KindIs(Expense), t);
    MatchesPair(AccountIs(1), KindIs(Transfer), t);
  }

  // ---------------------------------------------------------------------------
  // The "recent" ordering (scopeRecent): transaction_date descending, then
  // created_at descending, at most `limit` rows.

  predicate DateAfterOrOn(d: Date, e: Date) {
    d.year > e.year
    || (d.year == e.year && (d.month > e.month || (d.month == e.month && d.day >= e.day)))
  }

  /** `t` may be listed before `u`. */
  predicate NotOlder(t: Tx, u: Tx) {
    if t.date == u.date then t.createdAt >= u.createdAt
    else DateAfterOrOn(t.date, u.date)
  }

  /** `t` may be listed before every element of `s`. */
  ghost predicate Heads(t: Tx, s: seq<Tx>) {
    forall j :: 0 <= j < |s| ==> NotOlder(t, s[j])
  }

  ghost predicate NewestFirst(s: seq<Tx>) {
    forall i, j :: 0 <= i < j < |s| ==> NotOlder(s[i], s[j])
  }

  lemma NotOlderTotal(t: Tx, u: Tx)
    ensures NotOlder(t, u) || NotOlder(u, t)
  {
  }

  lemma NotOlderTransitive(t: Tx, u: Tx, v: Tx)
    requires NotOlder(t, u) && NotOlder(u, v)
    ensures NotOlder(t, v)
  {
  }

  /** Places `t` into a newest-first list. */
  function Insert(t: Tx, s: seq<Tx>): (r: seq<Tx>) {
    if s == [] then [t]
    else if NotOlder(t, s[0]) then [t] + s
    else [s[0]] + Insert(t, s[1..])
  }

  lemma {:induction false} InsertKeepsRows(t: Tx, s: seq<Tx>)
    ensures multiset(Insert(t, s)) == multiset(s) + multiset{t}
  {
    if s != [] && !NotOlder(t, s[0]) {
      InsertKeepsRows(t, s[1..]);
      assert s == [s[0]] + s[1..];
    }
  }

  lemma {:induction false} InsertHeads(x: Tx, t: Tx, s: seq<Tx>)
    requires NotOlder(x, t) && Heads(x, s)
    ensures Heads(x, Insert(t, s))
  {
    InsertKeepsRows(t, s);
    var r := Insert(t, s);
    forall j | 0 <= j < |r| ensures NotOlder(x, r[j]) {
      assert r[j] in multiset(r);
      if r[j] != t {
        assert r[j] in multiset(s);
        var k :| 0 <= k < |s| && s[k] == r[j];
      }
    }
  }

  lemma {:induction false} InsertSorted(t: Tx, s: seq<Tx>)
    requires NewestFirst(s)
    ensures NewestFirst(Insert(t, s))
  {
    if s == [] {
    } else if NotOlder(t, s[0]) {
      forall j | 0 <= j < |s| ensures NotOlder(t, s[j]) {
        if j > 0 { NotOlderTransitive(t, s[0], s[j]); }
      }
    } else {
      NotOlderTotal(t, s[0]);
      InsertSorted(t, s[1..]);
      assert Heads(s[0], s[1..]);
      InsertHeads(s[0], t, s[1..]);
    }
  }

  /** All rows, newest first. */
  function NewestFirstOrder(s: seq<Tx>): (r: seq<Tx>) {
    if s == [] then [] else Insert(s[|s| - 1], NewestFirstOrder(s[..|s| - 1]))
  }

  /** The ordering keeps every row exactly once and lists them newest first. */
  lemma {:induction false} NewestFirstOrderSorts(s: seq<Tx>)
    ensures multiset(NewestFirstOrder(s)) == multiset(s)
    ensures NewestFirst(NewestFirstOrder(s))
  {
    if s != [] {
      var init, last := s[..|s| - 1], s[|s| - 1];
      assert s == init + [last];
      NewestFirstOrderSorts(init);
      InsertKeepsRows(last, NewestFirstOrder(init));
      InsertSorted(last, NewestFirstOrder(init));
    }
  }

  /** scopeRecent. */
  function Recent(s: seq<Tx>, limit: nat): seq<Tx> {
    var all := NewestFirstOrder(s);
    if limit < |all| then all[..limit] else all
  }

  /** In a newest-first list every row of a prefix may precede every row of
      the rest. */
  lemma PrefixPrecedesRest(all: seq<Tx>, k: nat)
    requires NewestFirst(all) && k <= |all|
    ensures forall t, u :: t in all[..k] && u in multiset(all[k..]) ==> NotOlder(t, u)
  {
    forall t, u | t in all[..k] && u in multiset(all[k..]) ensures NotOlder(t, u) {
      var i :| 0 <= i < k && all[..k][i] == t;
      assert u in all[k..];
      var j :| 0 <= j < |all| - k && all[k..][j] == u;
      assert all[i] == t && all[k + j] == u;
    }
  }

  /** `recent(limit)` returns min(limit, |s|) of the rows, newest first, and no
      row it leaves out is newer than a row it returns. */
  lemma RecentIsNewest(s: seq<Tx>, limit: nat)
    ensures |Recent(s, limit)| == if limit < |s| then limit else |s|
    ensures NewestFirst(Recent(s, limit))
    ensures multiset(Recent(s, limit)) <= multiset(s)
    ensures forall t, u :: t in Recent(s, limit) && u in multiset(s) - multiset(Recent(s, limit))
              ==> NotOlder(t, u)
  {
    var all := NewestFirstOrder(s);
    NewestFirstOrderSorts(s);
    assert |multiset(all)| == |all| && |multiset(s)| == |s|;
    var k := if limit < |all| then limit else |all|;
    var r := all[..k];
    assert Recent(s, limit) == r;
    assert all == r + all[k..];
    assert multiset(s) - multiset(r) == multiset(all[k..]);
    PrefixPrecedesRest(all, k);
  }
}
