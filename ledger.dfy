/** The ledger: the accounts and transactions tables together with the
    operations of TransactionService and AccountService that change them, and
    Account::recalculateBalance. Each service operation is one atomic method. */
module Ledger {
  import opened Common
  import opened Transactions
  import opened Accounts

  type TxId = Id

  /** The accounts after the effect of `t` is applied. */
  function Applied(accounts: map<AccountId, Account>, t: Tx): (r: map<AccountId, Account>)
    ensures r.Keys == accounts.Keys
  {
    map a | a in accounts :: accounts[a].(balance := accounts[a].balance + Delta(t, a))
  }

  /** The accounts after the effect of `t` is reversed. */
  function Reversed(accounts: map<AccountId, Account>, t: Tx): (r: map<AccountId, Account>)
    ensures r.Keys == accounts.Keys
  {
    map a | a in accounts :: accounts[a].(balance := accounts[a].balance - Delta(t, a))
  }

  /** Applying and reversing the same transaction are inverse: either order
      restores every account exactly. */
  lemma ApplyReverseRoundTrip(accounts: map<AccountId, Account>, t: Tx)
    ensures Reversed(Applied(accounts, t), t) == accounts
    ensures Applied(Reversed(accounts, t), t) == accounts
  {
    var r1 := Reversed(Applied(accounts, t), t);
    var r2 := Applied(Reversed(accounts, t), t);
    forall a | a in accounts ensures r1[a] == accounts[a] && r2[a] == accounts[a] {
    }
  }

  lemma SameEffectSameApplied(accounts: map<AccountId, Account>, t: Tx, u: Tx)
    requires forall a :: Delta(t, a) == Delta(u, a)
    ensures Applied(accounts, t) == Applied(accounts, u)
  {
  }

  /** A transfer without a destination account only debits its source, and
      reversing it only credits the source back. */
  lemma TransferWithoutDestination(accounts: map<AccountId, Account>, t: Tx)
    requires t.kind == Transfer && t.toAccount.None? && t.account in accounts
    ensures Applied(accounts, t)[t.account].balance == accounts[t.account].balance - t.amount
    ensures Reversed(accounts, t)[t.account].balance == accounts[t.account].balance + t.amount
    ensures forall a :: a in accounts && a != t.account ==>
              Applied(accounts, t)[a] == accounts[a] && Reversed(accounts, t)[a] == accounts[a]
  {
  }

  /** How much money an applied transaction brings into the ledger as a whole:
      income adds its amount, an expense removes it, a transfer moves it
      (and removes it only when it has no destination). */
  function Minted(t: Tx): int {
    match t.kind
    case Income => t.amount
    case Expense => -t.amount
    case Transfer => if t.toAccount.Some? then 0 else -t.amount
  }

  // ---------------------------------------------------------------------------
  // Row-level facts used to keep the ledger invariant.

  /** Two tables that agree on id `n - 1`: the last step of their rows below
      `n` adds the same effect to both. */
  lemma RowsStep(txs: map<TxId, Tx>, txs': map<TxId, Tx>, n: nat, a: AccountId)
    requires n > 0
    requires (n - 1 in txs) == (n - 1 in txs')
    requires n - 1 in txs ==> txs[n - 1] == txs'[n - 1]
    ensures NetEffect(Rows(txs', n), a) - NetEffect(Rows(txs', n - 1), a)
         == NetEffect(Rows(txs, n), a) - NetEffect(Rows(txs, n - 1), a)
  {
    if n - 1 in txs {
      NetEffectAppend(Rows(txs', n - 1), txs[n - 1], a);
      NetEffectAppend(Rows(txs, n - 1), txs[n - 1], a);
    } else {
      assert Rows(txs', n) == Rows(txs', n - 1);
      assert Rows(txs, n) == Rows(txs, n - 1);
    }
  }

  lemma {:induction false} NetEffectReplace(txs: map<TxId, Tx>, n: nat, k: TxId, t: Tx, a: AccountId)
    requires k in txs && k < n
    ensures NetEffect(Rows(txs[k := t], n), a)
         == NetEffect(Rows(txs, n), a) - Delta(txs[k], a) + Delta(t, a)
  {
    var txs' := txs[k := t];
    if k == n - 1 {
      RowsBelowIgnoreAbove(txs, k, t, n - 1);
      NetEffectAppend(Rows(txs, n - 1), txs[k], a);
      NetEffectAppend(Rows(txs', n - 1), t, a);
    } else {
      NetEffectReplace(txs, n - 1, k, t, a);
      RowsStep(txs, txs', n, a);
    }
  }

  lemma {:induction false} NetEffectRemove(txs: map<TxId, Tx>, n: nat, k: TxId, a: AccountId)
    requires k in txs && k < n
    ensures NetEffect(Rows(txs - {k}, n), a) == NetEffect(Rows(txs, n), a) - Delta(txs[k], a)
  {
    var txs' := txs - {k};
    if k == n - 1 {
      RowsBelowIgnoreAbove(txs, k, txs[k], n - 1);
      NetEffectAppend(Rows(txs, n - 1), txs[k], a);
      assert Rows(txs', n) == Rows(txs', n - 1);
    } else {
      NetEffectRemove(txs, n - 1, k, a);
      RowsStep(txs, txs', n, a);
    }
  }

  lemma {:induction false} NetEffectOfUnnamed(txs: map<TxId, Tx>, n: nat, a: AccountId)
    requires forall k :: k in txs ==> !Touches(txs[k], a)
    ensures NetEffect(Rows(txs, n), a) == 0
  {
    if n > 0 {
      NetEffectOfUnnamed(txs, n - 1, a);
      if n - 1 in txs {
        NetEffectAppend(Rows(txs, n - 1), txs[n - 1], a);
      } else {
        assert Rows(txs, n) == Rows(txs, n - 1);
      }
    }
  }

  lemma {:induction false} SumBalancesReplace(accs: map<AccountId, Account>, n: nat, k: AccountId, v: Account)
    requires k in accs && k < n
    ensures SumBalances(Rows(accs[k := v], n)) == SumBalances(Rows(accs, n)) - accs[k].balance + v.balance
    ensures TotalBalance(Rows(accs[k := v], n))
         == TotalBalance(Rows(accs, n)) - (if accs[k].active then accs[k].balance else 0)
            + (if v.active then v.balance else 0)
  {
    var accs' := accs[k := v];
    if k == n - 1 {
      RowsBelowIgnoreAbove(accs, k, v, n - 1);
      var init := Rows(accs, n - 1);
      assert Rows(accs, n) == init + [accs[k]];
      assert Rows(accs', n) == init + [v];
      assert (init + [accs[k]])[..|init|] == init;
      assert (init + [v])[..|init|] == init;
    } else {
      SumBalancesReplace(accs, n - 1, k, v);
      var init, init' := Rows(accs, n - 1), Rows(accs', n - 1);
      if n - 1 in accs {
        var last := accs[n - 1];
        assert Rows(accs, n) == init + [last];
        assert Rows(accs', n) == init' + [last];
        assert (init + [last])[..|init|] == init;
        assert (init' + [last])[..|init'|] == init';
      } else {
        assert Rows(accs, n) == init;
        assert Rows(accs', n) == init';
      }
    }
  }

  // ---------------------------------------------------------------------------

  /** The patch TransactionService::update applies: an absent field keeps its
      value; the type is never changed. */
  datatype TxPatch = TxPatch(
    account: Option<AccountId>,
    category: Option<CategoryId>,
    toAccount: Option<AccountId>,
    amount: Option<int>,
    description: Option<string>,
    notes: Option<string>,
    date: Option<Date>)

  /** Only the account, the destination and the amount decide a
      transaction's effect. */
  predicate TouchesMoney(p: TxPatch) {
    p.account.Some? || p.toAccount.Some? || p.amount.Some?
  }

  /** The patched row: the type and created_at are kept, every present field
      replaces the stored one and every absent field keeps it; a patch that
      names no account and no amount leaves the effect unchanged. */
  function PatchTx(t: Tx, p: TxPatch): (r: Tx)
    ensures r.kind == t.kind && r.createdAt == t.createdAt
    ensures r.account == p.account.GetOr(t.account) && r.amount == p.amount.GetOr(t.amount)
    ensures r.toAccount == (if p.toAccount.Some? then p.toAccount else t.toAccount)
    ensures r.category == (if p.category.Some? then p.category else t.category)
    ensures r.description == p.description.GetOr(t.description) && r.date == p.date.GetOr(t.date)
    ensures r.notes == (if p.notes.Some? then p.notes else t.notes)
    ensures !TouchesMoney(p) ==> forall a :: Delta(r, a) == Delta(t, a)
  {
    Tx(t.kind,
       p.account.GetOr(t.account),
       if p.toAccount.Some? then p.toAccount else t.toAccount,
       if p.category.Some? then p.category else t.category,
       p.amount.GetOr(t.amount),
       p.description.GetOr(t.description),
       if p.notes.Some? then p.notes else t.notes,
       p.date.GetOr(t.date),
       t.createdAt)
  }

  class Ledger {
    var accounts: map<AccountId, Account>
    var nextAccountId: nat
    var transactions: map<TxId, Tx>
    var nextTxId: nat
    /** The part of each balance that no live transaction explains: the
        opening balance given at creation, reset to 0 by reconciliation. */
    ghost var baseline: map<AccountId, int>

    ghost predicate NamesKnownAccounts(t: Tx)
      reads this
    {
      t.account in accounts && (t.toAccount.Some? ==> t.toAccount.value in accounts)
    }

    /** The ledger invariant: every balance is its baseline plus the sum of the
        effects of the live transactions. */
    ghost predicate Valid()
      reads this
    {
      && (forall a :: a in accounts ==> a < nextAccountId)
      && (forall k :: k in transactions ==> k < nextTxId)
      && (forall k :: k in transactions ==> NamesKnownAccounts(transactions[k]))
      && baseline.Keys == accounts.Keys
      && (forall a :: a in accounts ==>
            accounts[a].balance == baseline[a] + NetEffect(Rows(transactions, nextTxId), a))
    }

    function TransactionRows(): seq<Tx>
      reads this
    {
      Rows(transactions, nextTxId)
    }

    function AccountRows(): seq<Account>
      reads this
    {
      Rows(accounts, nextAccountId)
    }

    constructor ()
      ensures Valid()
      ensures accounts == map[] && transactions == map[]
    {
      accounts, nextAccountId := map[], 0;
      transactions, nextTxId := map[], 0;
      baseline := map[];
    }

    // -------------------------------------------------------------------------
    // AccountService

    /** AccountService::create. */
    method CreateAccount(name: string, kind: AccountKind, balance: Option<int>,
                         icon: Option<string>, color: Option<string>) returns (id: AccountId)
      requires Valid()
      modifies this`accounts, this`nextAccountId, this`baseline
      ensures Valid()
      ensures id == old(nextAccountId) && id !in old(accounts)
      ensures accounts == old(accounts)[id := NewAccount(name, kind, balance, icon, color)]
      ensures baseline[id] == accounts[id].balance
    {
      id := nextAccountId;
      var acct := NewAccount(name, kind, balance, icon, color);
      forall k | k in transactions ensures !Touches(transactions[k], id) {
        assert NamesKnownAccounts(transactions[k]);
      }
      NetEffectOfUnnamed(transactions, nextTxId, id);
      accounts := accounts[id := acct];
      nextAccountId := nextAccountId + 1;
      baseline := baseline[id := acct.balance];
      assert forall k :: k in transactions ==> NamesKnownAccounts(transactions[k]);
    }

    /** AccountService::update: only name, type, icon and colour can change. */
    method UpdateAccount(id: AccountId, p: AccountPatch)
      requires Valid() && id in accounts
      modifies this`accounts
      ensures Valid()
      ensures accounts == old(accounts)[id := Patched(old(accounts[id]), p)]
      ensures accounts[id].balance == old(accounts[id].balance)
    {
      accounts := accounts[id := Patched(accounts[id], p)];
      assert forall k :: k in transactions ==> NamesKnownAccounts(transactions[k]);
    }

    /** AccountService::delete is a soft delete: the row, its balance and its
        transactions stay; it only stops counting in the totals. */
    method DeleteAccount(id: AccountId)
      requires Valid() && id in accounts
      modifies this`accounts
      ensures Valid()
      ensures accounts == old(accounts)[id := old(accounts[id]).(active := false)]
      ensures TotalBalance(AccountRows())
           == old(TotalBalance(AccountRows())) - (if old(accounts[id].active) then old(accounts[id].balance) else 0)
    {
      SumBalancesReplace(accounts, nextAccountId, id, accounts[id].(active := false));
      accounts := accounts[id := accounts[id].(active := false)];
      assert forall k :: k in transactions ==> NamesKnownAccounts(transactions[k]);
    }

    /** AccountService::adjustBalance: adds `x` to one balance and changes
        nothing else. On its own it does not keep the ledger invariant; the
        transaction operations pair it with a row. */
    method AdjustBalance(a: AccountId, x: int)
      requires a in accounts
      modifies this`accounts
      ensures accounts == old(accounts)[a := old(accounts[a]).(balance := old(accounts[a].balance) + x)]
      ensures a < nextAccountId ==> SumBalances(AccountRows()) == old(SumBalances(AccountRows())) + x
    {
      var updated := accounts[a].(balance := accounts[a].balance + x);
      if a < nextAccountId {
        SumBalancesReplace(accounts, nextAccountId, a, updated);
      }
      accounts := accounts[a := updated];
    }

    // -------------------------------------------------------------------------
    // TransactionService: the balance engine

    /** applyTransactionEffect. */
    method ApplyEffect(t: Tx)
      requires NamesKnownAccounts(t)
      modifies this`accounts
      ensures accounts == Applied(old(accounts), t)
      ensures t.account < nextAccountId && (t.toAccount.Some? ==> t.toAccount.value < nextAccountId)
              ==> SumBalances(AccountRows()) == old(SumBalances(AccountRows())) + Minted(t)
    {
      match t.kind {
        case Income =>
          AdjustBalance(t.account, t.amount);
        case Expense =>
          AdjustBalance(t.account, -t.amount);
        case Transfer =>
          AdjustBalance(t.account, -t.amount);
          if t.toAccount.Some? {
            AdjustBalance(t.toAccount.value, t.amount);
          }
      }
      forall a | a in accounts ensures accounts[a] == Applied(old(accounts), t)[a] {
      }
    }

    /** reverseTransactionEffect. */
    method ReverseEffect(t: Tx)
      requires NamesKnownAccounts(t)
      modifies this`accounts
      ensures accounts == Reversed(old(accounts), t)
      ensures t.account < nextAccountId && (t.toAccount.Some? ==> t.toAccount.value < nextAccountId)
              ==> SumBalances(AccountRows()) == old(SumBalances(AccountRows())) - Minted(t)
    {
      match t.kind {
        case Income =>
          AdjustBalance(t.account, -t.amount);
        case Expense =>
          AdjustBalance(t.account, t.amount);
        case Transfer =>
          AdjustBalance(t.account, t.amount);
          if t.toAccount.Some? {
            AdjustBalance(t.toAccount.value, -t.amount);
          }
      }
      forall a | a in accounts ensures accounts[a] == Reversed(old(accounts), t)[a] {
      }
    }

    // -------------------------------------------------------------------------
    // TransactionService: the lifecycle

    /** Inserts a new row and applies its effect once: the shared body of
        createIncome, createExpense and createTransfer. */
    method Store(t: Tx) returns (id: TxId)
      requires Valid() && NamesKnownAccounts(t)
      modifies this`transactions, this`nextTxId, this`accounts
      ensures Valid()
      ensures id == old(nextTxId) && id !in old(transactions)
      ensures transactions == old(transactions)[id := t]
      ensures accounts == Applied(old(accounts), t)
      ensures SumBalances(AccountRows()) == old(SumBalances(AccountRows())) + Minted(t)
    {
      id := nextTxId;
      ghost var before := TransactionRows();
      RowsInsertNext(transactions, id, t);
      transactions := transactions[id := t];
      nextTxId := nextTxId + 1;
      assert TransactionRows() == before + [t];
      ApplyEffect(t);
      forall a | a in accounts
        ensures accounts[a].balance == baseline[a] + NetEffect(TransactionRows(), a)
      {
        NetEffectAppend(before, t, a);
      }
      forall k | k in transactions
        ensures k < nextTxId && NamesKnownAccounts(transactions[k])
      {
        if k != id {
          assert old(NamesKnownAccounts(transactions[k]));
        }
      }
    }

    /** createIncome: adds exactly `amount` to the named account and changes no
        other balance. */
    method CreateIncome(account: AccountId, category: CategoryId, amount: int,
                        description: string, notes: Option<string>, date: Date, now: Timestamp)
      returns (id: TxId)
      requires Valid() && account in accounts && amount > 0
      modifies this`transactions, this`nextTxId, this`accounts
      ensures Valid()
      ensures id == old(nextTxId) && id !in old(transactions)
      ensures transactions == old(transactions)[id := Tx(Income, account, None, Some(category), amount, description, notes, date, now)]
      ensures accounts[account].balance == old(accounts[account].balance) + amount
      ensures forall a :: a in old(accounts) && a != account ==> a in accounts && accounts[a] == old(accounts[a])
      ensures accounts.Keys == old(accounts).Keys
    {
      id := Store(Tx(Income, account, None, Some(category), amount, description, notes, date, now));
    }

    /** createExpense: subtracts exactly `amount` from the named account and
        changes no other balance. */
    method CreateExpense(account: AccountId, category: CategoryId, amount: int,
                         description: string, notes: Option<string>, date: Date, now: Timestamp)
      returns (id: TxId)
      requires Valid() && account in accounts && amount > 0
      modifies this`transactions, this`nextTxId, this`accounts
      ensures Valid()
      ensures id == old(nextTxId) && id !in old(transactions)
      ensures transactions == old(transactions)[id := Tx(Expense, account, None, Some(category), amount, description, notes, date, now)]
      ensures accounts[account].balance == old(accounts[account].balance) - amount
      ensures forall a :: a in old(accounts) && a != account ==> a in accounts && accounts[a] == old(accounts[a])
      ensures accounts.Keys == old(accounts).Keys
    {
      id := Store(Tx(Expense, account, None, Some(category), amount, description, notes, date, now));
    }

    /** createTransfer: moves `amount` from one account to another; the sum of
        all balances is unchanged. The description defaults to "Transfer". */
    method CreateTransfer(from: AccountId, to: AccountId, amount: int,
                          description: Option<string>, notes: Option<string>, date: Date, now: Timestamp)
      returns (id: TxId)
      requires Valid() && from in accounts && to in accounts && from != to && amount > 0
      modifies this`transactions, this`nextTxId, this`accounts
      ensures Valid()
      ensures id == old(nextTxId) && id !in old(transactions)
      ensures transactions == old(transactions)[id := Tx(Transfer, from, Some(to), None, amount,
                                                         description.GetOr("Transfer"), notes, date, now)]
      ensures accounts[from].balance == old(accounts[from].balance) - amount
      ensures accounts[to].balance == old(accounts[to].balance) + amount
      ensures forall a :: a in old(accounts) && a != from && a != to ==> a in accounts && accounts[a] == old(accounts[a])
      ensures accounts.Keys == old(accounts).Keys
      ensures SumBalances(AccountRows()) == old(SumBalances(AccountRows()))
    {
      id := Store(Tx(Transfer, from, Some(to), None, amount, description.GetOr("Transfer"), notes, date, now));
    }

    /** update: reverse the stored effect, overwrite the fields, re-apply. Every
        balance moves by the new effect minus the old one; a patch that names no
        account and no amount leaves every balance as it was. */
    method Update(id: TxId, p: TxPatch)
      requires Valid() && id in transactions
      requires p.account.Some? ==> p.account.value in accounts
      requires p.toAccount.Some? ==> p.toAccount.value in accounts
      requires p.amount.Some? ==> p.amount.value > 0
      modifies this`transactions, this`accounts
      ensures Valid()
      ensures transactions == old(transactions)[id := PatchTx(old(transactions[id]), p)]
      ensures accounts == Applied(Reversed(old(accounts), old(transactions[id])), transactions[id])
      ensures forall a :: a in accounts ==>
                accounts[a].balance == old(accounts[a].balance) - Delta(old(transactions[id]), a) + Delta(transactions[id], a)
      ensures !TouchesMoney(p) ==> accounts == old(accounts)
    {
      var before := transactions[id];
      assert NamesKnownAccounts(before);
      ReverseEffect(before);
      var after := PatchTx(before, p);
      ghost var table := transactions;
      transactions := transactions[id := after];
      ApplyEffect(after);
      assert Valid() by {
        forall a | a in accounts
          ensures accounts[a].balance == baseline[a] + NetEffect(TransactionRows(), a)
        {
          NetEffectReplace(table, nextTxId, id, after, a);
        }
        forall k | k in transactions
          ensures k < nextTxId && NamesKnownAccounts(transactions[k])
        {
          if k != id {
            assert old(NamesKnownAccounts(transactions[k]));
          }
        }
      }
      assert !TouchesMoney(p) ==> accounts == old(accounts) by {
        if !TouchesMoney(p) {
          SameEffectSameApplied(Reversed(old(accounts), before), before, after);
          ApplyReverseRoundTrip(old(accounts), before);
        }
      }
    }

    /** delete: reverse the effect, then remove the row. */
    method Delete(id: TxId)
      requires Valid() && id in transactions
      modifies this`transactions, this`accounts
      ensures Valid()
      ensures transactions == old(transactions) - {id}
      ensures accounts == Reversed(old(accounts), old(transactions[id]))
    {
      var t := transactions[id];
      assert NamesKnownAccounts(t);
      ReverseEffect(t);
      forall a | a in accounts
        ensures NetEffect(Rows(transactions - {id}, nextTxId), a) == NetEffect(Rows(transactions, nextTxId), a) - Delta(t, a)
      {
        NetEffectRemove(transactions, nextTxId, id, a);
      }
      transactions := transactions - {id};
      assert forall k :: k in transactions ==> NamesKnownAccounts(transactions[k]);
    }

    // -------------------------------------------------------------------------
    // Account::recalculateBalance

    /** Sets the balance from the account's transactions alone. The baseline
        (opening balance) is discarded, and running it on a reconciled
        account changes nothing, so running it twice equals running it once. */
    method RecalculateBalance(a: AccountId)
      requires Valid() && a in accounts
      modifies this`accounts, this`baseline
      ensures Valid()
      ensures accounts == old(accounts)[a := old(accounts[a]).(balance := Recalculated(TransactionRows(), a))]
      ensures accounts[a].balance == old(accounts[a].balance) - old(baseline[a])
      ensures baseline == old(baseline)[a := 0]
      ensures old(baseline[a]) == 0 ==> accounts == old(accounts)
    {
      RecalculatedIsNetEffect(TransactionRows(), a);
      accounts := accounts[a := accounts[a].(balance := Recalculated(TransactionRows(), a))];
      baseline := baseline[a := 0];
      assert forall k :: k in transactions ==> NamesKnownAccounts(transactions[k]);
    }
  }

  /** Creating a transaction and then deleting it leaves every balance and the
      transactions table as they were. */
  method CreateThenDelete(ledger: Ledger, t: Tx) returns (id: TxId)
    requires ledger.Valid() && ledger.NamesKnownAccounts(t)
    modifies ledger`transactions, ledger`nextTxId, ledger`accounts
    ensures ledger.Valid()
    ensures ledger.accounts == old(ledger.accounts)
    ensures ledger.transactions == old(ledger.transactions)
  {
    id := ledger.Store(t);
    ledger.Delete(id);
    ApplyReverseRoundTrip(old(ledger.accounts), t);
    assert ledger.transactions == old(ledger.transactions);
  }

  // ---------------------------------------------------------------------------
  // Worked examples, amounts in cents.

  /** An account opened with 1000.00 and an expense of 200.00 leaves 800.00;
      changing the expense to 150.00 leaves 850.00. */
  method ExpenseThenAmendExample() returns (afterCreate: int, afterUpdate: int)
    ensures afterCreate == 80000 && afterUpdate == 85000
  {
    var ledger := new Ledger();
    var bank := ledger.CreateAccount("Bank", Bank, Some(100000), None, None);
    var tx := ledger.CreateExpense(bank, 0, 20000, "Groceries", None, Date(2025, 1, 10), 0);
    afterCreate := ledger.accounts[bank].balance;
    ledger.Update(tx, TxPatch(None, None, None, Some(15000), None, None, None));
    afterUpdate := ledger.accounts[bank].balance;
  }

  /** A transfer of 50.00 from an account holding 500.00 to one holding
      100.00 leaves 450.00 and 150.00; deleting it restores both. */
  method TransferThenDeleteExample() returns (a1: int, b1: int, a2: int, b2: int)
    ensures a1 == 45000 && b1 == 15000
    ensures a2 == 50000 && b2 == 10000
  {
    var ledger := new Ledger();
    var a := ledger.CreateAccount("A", Bank, Some(50000), None, None);
    var b := ledger.CreateAccount("B", Cash, Some(10000), None, None);
    var tx := ledger.CreateTransfer(a, b, 5000, None, None, Date(2025, 1, 10), 0);
    a1, b1 := ledger.accounts[a].balance, ledger.accounts[b].balance;
    ghost var t := ledger.transactions[tx];
    assert Delta(t, a) == -5000 && Delta(t, b) == 5000;
    ledger.Delete(tx);
    a2, b2 := ledger.accounts[a].balance, ledger.accounts[b].balance;
  }
}
