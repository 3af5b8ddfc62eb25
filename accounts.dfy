/** The account record and the account totals of AccountService
    (total balance, assets, liabilities, net worth). */
module Accounts {
  import opened Common

  datatype AccountKind = Bank | EWallet | Cash | CreditCard

  /** A row of the accounts table; `balance` is in cents. */
  datatype Account = Account(
    name: string,
    kind: AccountKind,
    balance: int,
    icon: Option<string>,
    color: Option<string>,
    active: bool)

  const DefaultColor: string := "bg-blue-500"

  /** The row AccountService::create inserts: name, type and icon as given, the
      balance defaulting to 0, the colour to "bg-blue-500", and the account
      starting active. */
  function NewAccount(name: string, kind: AccountKind, balance: Option<int>,
                      icon: Option<string>, color: Option<string>): (r: Account)
    ensures r.name == name && r.kind == kind && r.icon == icon
    ensures r.active
    ensures balance.None? ==> r.balance == 0
    ensures balance.Some? ==> r.balance == balance.value
    ensures r.color == Some(color.GetOr(DefaultColor))
  {
    Account(name, kind, balance.GetOr(0), icon, Some(color.GetOr(DefaultColor)), true)
  }

  /** The fields AccountService::update may change; an absent field keeps its value. */
  datatype AccountPatch = AccountPatch(
    name: Option<string>,
    kind: Option<AccountKind>,
    icon: Option<string>,
    color: Option<string>)

  /** The balance and the active flag are never touched by an update; every
      other field takes the patch's value when present and keeps its own
      otherwise. */
  function Patched(a: Account, p: AccountPatch): (r: Account)
    ensures r.balance == a.balance && r.active == a.active
    ensures r.name == (if p.name.Some? then p.name.value else a.name)
    ensures r.kind == (if p.kind.Some? then p.kind.value else a.kind)
    ensures p.icon.Some? ==> r.icon == p.icon
    ensures p.icon.None? ==> r.icon == a.icon
    ensures p.color.Some? ==> r.color == p.color
    ensures p.color.None? ==> r.color == a.color
    ensures p == AccountPatch(None, None, None, None) ==> r == a
  {
    Account(
      p.name.GetOr(a.name),
      p.kind.GetOr(a.kind),
      a.balance,
      if p.icon.Some? then p.icon else a.icon,
      if p.color.Some? then p.color else a.color,
      a.active)
  }

  // ---------------------------------------------------------------------------
  // Totals over the rows of the accounts table.

  /** The sum of every balance, active or not. */
  function SumBalances(rows: seq<Account>): int {
    if rows == [] then 0 else SumBalances(rows[..|rows| - 1]) + rows[|rows| - 1].balance
  }

  /** getTotalBalance: the sum of the balances of active accounts. */
  function TotalBalance(rows: seq<Account>): int {
    if rows == [] then 0
    else
      var a := rows[|rows| - 1];
      TotalBalance(rows[..|rows| - 1]) + (if a.active then a.balance else 0)
  }

  /** getTotalAssets: the sum of the strictly positive balances of active accounts. */
  function TotalAssets(rows: seq<Account>): (r: int)
    ensures r >= 0
  {
    if rows == [] then 0
    else
      var a := rows[|rows| - 1];
      TotalAssets(rows[..|rows| - 1]) + (if a.active && a.balance > 0 then a.balance else 0)
  }

  /** The sum of the strictly negative balances of active accounts (the query
      inside getTotalLiabilities, before `abs`). */
  function NegativeSum(rows: seq<Account>): (r: int)
    ensures r <= 0
  {
    if rows == [] then 0
    else
      var a := rows[|rows| - 1];
      NegativeSum(rows[..|rows| - 1]) + (if a.active && a.balance < 0 then a.balance else 0)
  }

  /** getTotalLiabilities: how much the active accounts in the red owe, as a
      non-negative amount. */
  function TotalLiabilities(rows: seq<Account>): (r: int)
    ensures r >= 0
    ensures r == -NegativeSum(rows)
  {
    Abs(NegativeSum(rows))
  }

  /** getNetWorth. */
  function NetWorth(rows: seq<Account>): int {
    TotalAssets(rows) - TotalLiabilities(rows)
  }

  /** Net worth, assets minus liabilities, is the total balance of the active
      accounts: every active balance is counted once, on one side. */
  lemma {:induction false} NetWorthIsTotalBalance(rows: seq<Account>)
    ensures NetWorth(rows) == TotalBalance(rows)
  {
    if rows != [] {
      NetWorthIsTotalBalance(rows[..|rows| - 1]);
    }
  }

  /** The active rows, in order. */
  function ActiveRows(rows: seq<Account>): seq<Account> {
    if rows == [] then []
    else
      var a := rows[|rows| - 1];
      ActiveRows(rows[..|rows| - 1]) + (if a.active then [a] else [])
  }

  /** Inactive accounts never contribute: the totals are those of the active
      rows alone, and the total balance is the plain sum of their balances. */
  lemma {:induction false} TotalsIgnoreInactive(rows: seq<Account>)
    ensures TotalBalance(rows) == SumBalances(ActiveRows(rows))
    ensures TotalAssets(rows) == TotalAssets(ActiveRows(rows))
    ensures NegativeSum(rows) == NegativeSum(ActiveRows(rows))
  {
    if rows != [] {
      var init, a := rows[..|rows| - 1], rows[|rows| - 1];
      TotalsIgnoreInactive(init);
      var act := ActiveRows(init);
      if a.active {
        var r := act + [a];
        assert ActiveRows(rows) == r;
        assert r[..|r| - 1] == act && r[|r| - 1] == a;
        assert SumBalances(r) == SumBalances(act) + a.balance;
        assert TotalAssets(r) == TotalAssets(act) + (if a.balance > 0 then a.balance else 0);
        assert NegativeSum(r) == NegativeSum(act) + (if a.balance < 0 then a.balance else 0);
      } else {
        assert ActiveRows(rows) == act;
      }
    }
  }
}
