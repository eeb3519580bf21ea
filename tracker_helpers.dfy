/** Balance recomputation. An account's balance is rebuilt from scratch as a
    signed sum over the transactions that name it (update_account_balance),
    and the kind of a saved transaction decides which accounts are rebuilt
    (adjust_account_balances). The six sums are functions; the two
    operations are methods that write the account map of the database. */
module TrackerHelpers {
  import opened Wrappers
  import opened Models
  import opened Store

  // ------------------------------------------------------------ The six sums

  /** transactions_to.filter(type=kind).aggregate(Sum('amount')) or 0 */
  function SumTo(txs: seq<Transaction>, kind: TransactionKind, account: AccountId): int
  {
    if txs == [] then 0
    else
      var t := txs[|txs| - 1];
      SumTo(txs[..|txs| - 1], kind, account)
      + (if t.kind == kind && t.destination == Some(account) then t.amount else 0)
  }

  /** transactions_from.filter(type=kind).aggregate(Sum('amount')) or 0 */
  function SumFrom(txs: seq<Transaction>, kind: TransactionKind, account: AccountId): int
  {
    if txs == [] then 0
    else
      var t := txs[|txs| - 1];
      SumFrom(txs[..|txs| - 1], kind, account)
      + (if t.kind == kind && t.origin == Some(account) then t.amount else 0)
  }

  /** The balance update_account_balance writes: tax in minus tax out for a
      virtual_tax account, otherwise income in minus expense out plus internal
      in minus internal out. */
  function Recompute(txs: seq<Transaction>, account: AccountId, accountType: AccountType): int
  {
    if accountType == VirtualTax then
      SumTo(txs, Tax, account) - SumFrom(txs, Tax, account)
    else
      SumTo(txs, Income, account) - SumFrom(txs, Expense, account)
      + SumTo(txs, Internal, account) - SumFrom(txs, Internal, account)
  }

  // ------------------------------------------- Reference: signed contributions

  /** What one transaction adds to (or takes from) an account of the given type. */
  function Effect(t: Transaction, account: AccountId, accountType: AccountType): int
  {
    var incoming := if t.destination == Some(account) then t.amount else 0;
    var outgoing := if t.origin == Some(account) then t.amount else 0;
    if accountType == VirtualTax then
      (if t.kind == Tax then incoming - outgoing else 0)
    else
      match t.kind
      case Income => incoming
      case Expense => -outgoing
      case Internal => incoming - outgoing
      case Tax => 0
  }

  /** The balance as the sum of every transaction's signed effect, first to last. */
  function SignedTotal(txs: seq<Transaction>, account: AccountId, accountType: AccountType): int
  {
    if txs == [] then 0 else Effect(txs[0], account, accountType) + SignedTotal(txs[1..], account, accountType)
  }

  lemma {:induction false} SignedTotalAppend(txs: seq<Transaction>, t: Transaction, account: AccountId, accountType: AccountType)
    ensures SignedTotal(txs + [t], account, accountType)
            == SignedTotal(txs, account, accountType) + Effect(t, account, accountType)
  {
    if txs == [] {
      assert [] + [t] == [t];
    } else {
      assert (txs + [t])[1..] == txs[1..] + [t];
      SignedTotalAppend(txs[1..], t, account, accountType);
    }
  }

  /** Recomputing one more transaction adds exactly its signed effect. */
  lemma RecomputeAppend(txs: seq<Transaction>, t: Transaction, account: AccountId, accountType: AccountType)
    ensures Recompute(txs + [t], account, accountType)
            == Recompute(txs, account, accountType) + Effect(t, account, accountType)
  {
    assert (txs + [t])[..|txs + [t]| - 1] == txs;
  }

  /** The balance is the signed sum of the transactions that reference the
      account: incoming amounts minus outgoing amounts of the kinds that count
      for its type. */
  lemma {:induction false} RecomputeIsSignedTotal(txs: seq<Transaction>, account: AccountId, accountType: AccountType)
    ensures Recompute(txs, account, accountType) == SignedTotal(txs, account, accountType)
  {
    if txs != [] {
      var front := txs[..|txs| - 1];
      var t := txs[|txs| - 1];
      assert front + [t] == txs;
      RecomputeIsSignedTotal(front, account, accountType);
      RecomputeAppend(front, t, account, accountType);
      SignedTotalAppend(front, t, account, accountType);
    }
  }

  // ----------------------------------------------------- Aggregation lemmas

  /** An account that no transaction names has balance 0: every sum is empty. */
  lemma {:induction false} UnreferencedAccountIsZero(txs: seq<Transaction>, account: AccountId, accountType: AccountType)
    requires forall i :: 0 <= i < |txs| ==> txs[i].origin != Some(account) && txs[i].destination != Some(account)
    ensures Recompute(txs, account, accountType) == 0
  {
    if txs != [] {
      var front := txs[..|txs| - 1];
      assert front + [txs[|txs| - 1]] == txs;
      UnreferencedAccountIsZero(front, account, accountType);
      RecomputeAppend(front, txs[|txs| - 1], account, accountType);
    }
  }

  /** Adding an income of x into A raises A's recomputed balance by exactly x
      when A is normal or investment; a virtual_tax A is unaffected. */
  lemma IncomeRaisesDestination(txs: seq<Transaction>, t: Transaction, a: AccountId, accountType: AccountType)
    requires t.kind == Income && t.destination == Some(a)
    ensures accountType != VirtualTax ==>
              Recompute(txs + [t], a, accountType) == Recompute(txs, a, accountType) + t.amount
    ensures accountType == VirtualTax ==>
              Recompute(txs + [t], a, accountType) == Recompute(txs, a, accountType)
  {
    RecomputeAppend(txs, t, a, accountType);
  }

  /** Adding an expense of x out of A lowers A's recomputed balance by exactly x
      when A is normal or investment. */
  lemma ExpenseLowersOrigin(txs: seq<Transaction>, t: Transaction, a: AccountId, accountType: AccountType)
    requires t.kind == Expense && t.origin == Some(a)
    ensures accountType != VirtualTax ==>
              Recompute(txs + [t], a, accountType) == Recompute(txs, a, accountType) - t.amount
    ensures accountType == VirtualTax ==>
              Recompute(txs + [t], a, accountType) == Recompute(txs, a, accountType)
  {
    RecomputeAppend(txs, t, a, accountType);
  }

  /** An internal transfer of x from A to B (A != B) lowers A by x, raises B by x
      and leaves every other account as it was (ordinary account types). */
  lemma InternalTransferMovesAmount(txs: seq<Transaction>, t: Transaction, a: AccountId, b: AccountId, c: AccountId, accountType: AccountType)
    requires t.kind == Internal && t.origin == Some(a) && t.destination == Some(b) && a != b
    requires accountType != VirtualTax
    ensures Recompute(txs + [t], a, accountType) == Recompute(txs, a, accountType) - t.amount
    ensures Recompute(txs + [t], b, accountType) == Recompute(txs, b, accountType) + t.amount
    ensures c != a && c != b ==> Recompute(txs + [t], c, accountType) == Recompute(txs, c, accountType)
  {
    RecomputeAppend(txs, t, a, accountType);
    RecomputeAppend(txs, t, b, accountType);
    RecomputeAppend(txs, t, c, accountType);
  }

  /** Tax transactions never move a normal or investment balance, and only tax
      transactions move a virtual_tax balance. */
  lemma KindsThatDoNotCount(txs: seq<Transaction>, t: Transaction, a: AccountId, accountType: AccountType)
    requires (accountType == VirtualTax) != (t.kind == Tax)
    ensures Recompute(txs + [t], a, accountType) == Recompute(txs, a, accountType)
  {
    RecomputeAppend(txs, t, a, accountType);
  }

  /** Sum of the balances of the listed accounts that exist and are not virtual_tax. */
  function OrdinaryTotal(txs: seq<Transaction>, accounts: map<AccountId, Account>, ids: seq<AccountId>): int
  {
    if ids == [] then 0
    else
      var id := ids[0];
      (if id in accounts && accounts[id].accountType != VirtualTax
       then Recompute(txs, id, accounts[id].accountType) else 0)
      + OrdinaryTotal(txs, accounts, ids[1..])
  }

  /** The same sum over the effects of a single transaction. */
  function OrdinaryEffect(t: Transaction, accounts: map<AccountId, Account>, ids: seq<AccountId>): int
  {
    if ids == [] then 0
    else
      var id := ids[0];
      (if id in accounts && accounts[id].accountType != VirtualTax
       then Effect(t, id, accounts[id].accountType) else 0)
      + OrdinaryEffect(t, accounts, ids[1..])
  }

  lemma {:induction false} OrdinaryTotalAppend(txs: seq<Transaction>, t: Transaction, accounts: map<AccountId, Account>, ids: seq<AccountId>)
    ensures OrdinaryTotal(txs + [t], accounts, ids) == OrdinaryTotal(txs, accounts, ids) + OrdinaryEffect(t, accounts, ids)
  {
    if ids != [] {
      OrdinaryTotalAppend(txs, t, accounts, ids[1..]);
      if ids[0] in accounts {
        RecomputeAppend(txs, t, ids[0], accounts[ids[0]].accountType);
      }
    }
  }

  /** Over distinct ordinary accounts, an internal transfer's effects are +x at
      the destination and -x at the origin, each counted once if listed. */
  lemma {:induction false} InternalTransferEffect(t: Transaction, accounts: map<AccountId, Account>, ids: seq<AccountId>, a: AccountId, b: AccountId)
    requires t.kind == Internal && t.origin == Some(a) && t.destination == Some(b)
    requires a in accounts && accounts[a].accountType != VirtualTax
    requires b in accounts && accounts[b].accountType != VirtualTax
    requires forall i, j :: 0 <= i < j < |ids| ==> ids[i] != ids[j]
    ensures OrdinaryEffect(t, accounts, ids)
            == (if b in ids then t.amount else 0) - (if a in ids then t.amount else 0)
  {
    if ids != [] {
      assert forall i, j :: 0 <= i < j < |ids[1..]| ==> ids[1..][i] != ids[1..][j] by {
        forall i, j | 0 <= i < j < |ids[1..]| ensures ids[1..][i] != ids[1..][j] {
          assert ids[1..][i] == ids[i + 1] && ids[1..][j] == ids[j + 1];
        }
      }
      InternalTransferEffect(t, accounts, ids[1..], a, b);
      assert ids[0] !in ids[1..] by {
        forall k | 0 <= k < |ids[1..]| ensures ids[1..][k] != ids[0] {
          assert ids[1..][k] == ids[k + 1];
        }
      }
      assert forall x :: x in ids <==> x == ids[0] || x in ids[1..] by {
        assert ids == [ids[0]] + ids[1..];
      }
    }
  }

  /** An internal transfer between two ordinary accounts leaves the total of
      any list of distinct ordinary-or-other accounts containing both unchanged. */
  lemma InternalTransferPreservesTotal(txs: seq<Transaction>, t: Transaction, accounts: map<AccountId, Account>, ids: seq<AccountId>)
    requires t.kind == Internal && t.origin.Some? && t.destination.Some?
    requires t.origin.value in accounts && accounts[t.origin.value].accountType != VirtualTax
    requires t.destination.value in accounts && accounts[t.destination.value].accountType != VirtualTax
    requires t.origin.value in ids && t.destination.value in ids
    requires forall i, j :: 0 <= i < j < |ids| ==> ids[i] != ids[j]
    ensures OrdinaryTotal(txs + [t], accounts, ids) == OrdinaryTotal(txs, accounts, ids)
  {
    OrdinaryTotalAppend(txs, t, accounts, ids);
    InternalTransferEffect(t, accounts, ids, t.origin.value, t.destination.value);
  }

  // -------------------------------------------------------------- Dispatch

  /** The accounts adjust_account_balances hands to update_account_balance are
      present: a missing one would be passed on as None. */
  predicate Dispatchable(t: Transaction)
  {
    match t.kind
    case Income => t.destination.Some?
    case Expense => t.origin.Some?
    case Internal => t.origin.Some? && t.destination.Some?
    case Tax => t.origin.Some? || t.destination.Some?
  }

  /** The accounts recomputed for a transaction, in call order: income its
      destination, expense its origin, internal origin then destination, tax
      its origin when set and otherwise its destination. */
  function Affected(t: Transaction): (r: seq<AccountId>)
    requires Dispatchable(t)
    ensures forall i :: 0 <= i < |r| ==> Some(r[i]) == t.origin || Some(r[i]) == t.destination
  {
    match t.kind
    case Income => [t.destination.value]
    case Expense => [t.origin.value]
    case Internal => [t.origin.value, t.destination.value]
    case Tax => if t.origin.Some? then [t.origin.value] else [t.destination.value]
  }

  /** A tax transaction with both accounts set: the one case where the
      dispatched accounts miss an account whose balance the transaction moves. */
  predicate TaxWithBothAccounts(t: Transaction)
  {
    t.kind == Tax && t.origin.Some? && t.destination.Some?
  }

  /** Outside that case, an account the dispatch does not recompute is one
      whose recomputed balance the transaction cannot change. */
  lemma DispatchCoversEveryChange(txs: seq<Transaction>, t: Transaction, a: AccountId, accountType: AccountType)
    requires Dispatchable(t) && !TaxWithBothAccounts(t)
    requires a !in Affected(t)
    ensures Recompute(txs + [t], a, accountType) == Recompute(txs, a, accountType)
  {
    RecomputeAppend(txs, t, a, accountType);
  }

  /** With both accounts set on a tax transaction only the origin is
      recomputed; a virtual_tax destination changes by the amount but keeps
      its old balance. */
  lemma TaxWithBothAccountsLeavesDestinationStale(txs: seq<Transaction>, t: Transaction)
    requires TaxWithBothAccounts(t) && t.origin != t.destination
    ensures t.destination.value !in Affected(t)
    ensures Recompute(txs + [t], t.destination.value, VirtualTax)
            == Recompute(txs, t.destination.value, VirtualTax) + t.amount
  {
    RecomputeAppend(txs, t, t.destination.value, VirtualTax);
  }

  // ------------------------------------------------- Balance map after updates

  /** The account map after update_account_balance(account). */
  function RecomputeOne(accounts: map<AccountId, Account>, txs: seq<Transaction>, account: AccountId): (r: map<AccountId, Account>)
    requires account in accounts
    ensures r.Keys == accounts.Keys
  {
    accounts[account := accounts[account].(balance := Recompute(txs, account, accounts[account].accountType))]
  }

  /** The account map after update_account_balance on each listed account in
      turn: listed accounts hold their recomputed balance, every other account
      and every other field is untouched. */
  function RecomputeAll(accounts: map<AccountId, Account>, txs: seq<Transaction>, ids: seq<AccountId>): (r: map<AccountId, Account>)
    requires forall i :: 0 <= i < |ids| ==> ids[i] in accounts
    ensures r.Keys == accounts.Keys
    ensures forall id :: id in accounts && id !in ids ==> r[id] == accounts[id]
    ensures forall id :: id in ids ==>
              r[id] == accounts[id].(balance := Recompute(txs, id, accounts[id].accountType))
  {
    if ids == [] then accounts
    else RecomputeAll(RecomputeOne(accounts, txs, ids[0]), txs, ids[1..])
  }

  /** Recomputation depends only on the transactions: doing it again without
      a change in between gives the same accounts. */
  lemma RecomputeAllIdempotent(accounts: map<AccountId, Account>, txs: seq<Transaction>, ids: seq<AccountId>)
    requires forall i :: 0 <= i < |ids| ==> ids[i] in accounts
    ensures RecomputeAll(RecomputeAll(accounts, txs, ids), txs, ids) == RecomputeAll(accounts, txs, ids)
  {
  }

  /** Every stored balance equals its recomputation from the transactions. */
  predicate Consistent(accounts: map<AccountId, Account>, txs: seq<Transaction>)
  {
    forall id :: id in accounts ==> accounts[id].balance == Recompute(txs, id, accounts[id].accountType)
  }

  /** Appending a transaction and recomputing its dispatched accounts keeps
      every balance equal to its recomputation, except for a tax transaction
      with both accounts set. */
  lemma AdjustKeepsConsistent(accounts: map<AccountId, Account>, txs: seq<Transaction>, t: Transaction)
    requires Consistent(accounts, txs)
    requires Dispatchable(t) && !TaxWithBothAccounts(t)
    requires forall i :: 0 <= i < |Affected(t)| ==> Affected(t)[i] in accounts
    ensures Consistent(RecomputeAll(accounts, txs + [t], Affected(t)), txs + [t])
  {
    forall id | id in accounts && id !in Affected(t)
      ensures Recompute(txs + [t], id, accounts[id].accountType) == Recompute(txs, id, accounts[id].accountType)
    {
      DispatchCoversEveryChange(txs, t, id, accounts[id].accountType);
    }
  }

  /** A freshly created account (balance 0, named by no transaction) keeps the
      balances consistent. */
  lemma NewAccountKeepsConsistent(accounts: map<AccountId, Account>, txs: seq<Transaction>, id: AccountId, a: Account)
    requires Consistent(accounts, txs) && a.balance == 0
    requires forall i :: 0 <= i < |txs| ==> txs[i].origin != Some(id) && txs[i].destination != Some(id)
    ensures Consistent(accounts[id := a], txs)
  {
    UnreferencedAccountIsZero(txs, id, a.accountType);
  }

  // ---------------------------------------------------------------- Methods

  /** update_account_balance: computes the six sums, picks the formula by
      account type and writes the balance of that one account. */
  method UpdateAccountBalance(db: Database, account: AccountId)
    requires db.Valid() && account in db.accounts
    modifies db`accounts
    ensures db.Valid()
    ensures db.accounts == RecomputeOne(old(db.accounts), db.transactions, account)
  {
    var incoming := SumTo(db.transactions, Income, account);
    var outgoing := SumFrom(db.transactions, Expense, account);
    var internalIn := SumTo(db.transactions, Internal, account);
    var internalOut := SumFrom(db.transactions, Internal, account);
    var taxIn := SumTo(db.transactions, Tax, account);
    var taxOut := SumFrom(db.transactions, Tax, account);

    var acc := db.accounts[account];
    var newBalance;
    if acc.accountType == VirtualTax {
      newBalance := taxIn - taxOut;
    } else {
      newBalance := incoming - outgoing + internalIn - internalOut;
    }
    db.accounts := db.accounts[account := acc.(balance := newBalance)];
  }

  /** adjust_account_balances: recomputes the accounts the transaction's kind
      selects, in order, and no others. */
  method AdjustAccountBalances(db: Database, t: Transaction)
    requires db.Valid() && Dispatchable(t)
    requires forall i :: 0 <= i < |Affected(t)| ==> Affected(t)[i] in db.accounts
    modifies db`accounts
    ensures db.Valid()
    ensures db.accounts == RecomputeAll(old(db.accounts), db.transactions, Affected(t))
  {
    var ids := Affected(t);
    match t.kind {
      case Income =>
        assert ids == [t.destination.value];
        UpdateAccountBalance(db, ids[0]);
      case Expense =>
        assert ids == [t.origin.value];
        UpdateAccountBalance(db, ids[0]);
      case Internal =>
        assert ids == [t.origin.value, t.destination.value];
        UpdateAccountBalance(db, ids[0]);
        UpdateAccountBalance(db, ids[1]);
      case Tax =>
        if t.origin.Some? {
          assert ids == [t.origin.value];
          UpdateAccountBalance(db, ids[0]);
        } else {
          assert ids == [t.destination.value];
          UpdateAccountBalance(db, ids[0]);
        }
    }
  }
}
