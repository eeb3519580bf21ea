/** The persisted state the ORM gives the tracker, held in memory: a map of
    accounts, the Transaction table as a sequence whose index is the primary
    key, and the Income, Expense and Tax tables. Valid() is what the schema's
    foreign keys and one-to-one links guarantee, plus the facts the saving
    code keeps about every detail row it writes. */
module Store {
  import opened Wrappers
  import opened Models

  /** Both optional account links of a transaction name existing accounts. */
  predicate LinksExist(t: Transaction, accounts: map<AccountId, Account>)
  {
    (t.origin.Some? ==> t.origin.value in accounts)
    && (t.destination.Some? ==> t.destination.value in accounts)
  }

  /** A persisted Income row: linked to an existing income transaction whose
      amount, date and destination it repeats. */
  predicate IncomeLinked(d: IncomeDetail, txs: seq<Transaction>, accounts: map<AccountId, Account>)
  {
    d.transaction.Some? && d.transaction.value < |txs|
    && var t := txs[d.transaction.value];
    t.kind == Income && t.destination == Some(d.account)
    && t.amount == d.amount && t.date == d.date && d.account in accounts
  }

  /** A persisted Expense row: linked to an existing expense transaction whose
      amount, date and origin it repeats. */
  predicate ExpenseLinked(d: ExpenseDetail, txs: seq<Transaction>, accounts: map<AccountId, Account>)
  {
    d.transaction.Some? && d.transaction.value < |txs|
    && var t := txs[d.transaction.value];
    t.kind == Expense && t.origin == Some(d.account)
    && t.amount == d.amount && t.date == d.date && d.account in accounts
  }

  /** A persisted Tax row: its two foreign keys resolve. */
  predicate TaxLinked(d: TaxDetail, txs: seq<Transaction>, accounts: map<AccountId, Account>)
  {
    d.transaction.Some? && d.transaction.value < |txs| && d.account in accounts
  }

  /** OneToOneField: no two Income rows share a transaction. */
  predicate IncomesOneToOne(ds: seq<IncomeDetail>)
  {
    forall i, j :: 0 <= i < j < |ds| ==> ds[i].transaction != ds[j].transaction
  }

  predicate ExpensesOneToOne(ds: seq<ExpenseDetail>)
  {
    forall i, j :: 0 <= i < j < |ds| ==> ds[i].transaction != ds[j].transaction
  }

  predicate TaxesOneToOne(ds: seq<TaxDetail>)
  {
    forall i, j :: 0 <= i < j < |ds| ==> ds[i].transaction != ds[j].transaction
  }

  /** The schema's guarantees over the stored tables. */
  ghost predicate ValidState(accounts: map<AccountId, Account>, nextAccountId: AccountId,
                             txs: seq<Transaction>, incomes: seq<IncomeDetail>,
                             expenses: seq<ExpenseDetail>, taxes: seq<TaxDetail>)
  {
    (forall id :: id in accounts ==> id < nextAccountId)
    && (forall i :: 0 <= i < |txs| ==> txs[i].pk == Some(i) && LinksExist(txs[i], accounts))
    && (forall i :: 0 <= i < |incomes| ==> IncomeLinked(incomes[i], txs, accounts))
    && (forall i :: 0 <= i < |expenses| ==> ExpenseLinked(expenses[i], txs, accounts))
    && (forall i :: 0 <= i < |taxes| ==> TaxLinked(taxes[i], txs, accounts))
    && IncomesOneToOne(incomes) && ExpensesOneToOne(expenses) && TaxesOneToOne(taxes)
  }

  /** Saving a new transaction under the next primary key keeps the tables valid. */
  lemma SaveTransactionKeepsValid(accounts: map<AccountId, Account>, next: AccountId,
                                  txs: seq<Transaction>, incomes: seq<IncomeDetail>,
                                  expenses: seq<ExpenseDetail>, taxes: seq<TaxDetail>, t: Transaction)
    requires ValidState(accounts, next, txs, incomes, expenses, taxes)
    requires t.pk == Some(|txs|) && LinksExist(t, accounts)
    ensures ValidState(accounts, next, txs + [t], incomes, expenses, taxes)
  {
    var txs' := txs + [t];
    assert forall k :: 0 <= k < |txs| ==> txs'[k] == txs[k];
  }

  /** Saving a new expense transaction together with its Expense row keeps
      the tables valid: the row links to a transaction no other row names. */
  lemma SaveExpenseKeepsValid(accounts: map<AccountId, Account>, next: AccountId,
                              txs: seq<Transaction>, incomes: seq<IncomeDetail>,
                              expenses: seq<ExpenseDetail>, taxes: seq<TaxDetail>,
                              t: Transaction, d: ExpenseDetail)
    requires ValidState(accounts, next, txs, incomes, expenses, taxes)
    requires t.pk == Some(|txs|) && LinksExist(t, accounts)
    requires ExpenseLinked(d, txs + [t], accounts) && d.transaction == t.pk
    ensures ValidState(accounts, next, txs + [t], incomes, expenses + [d], taxes)
  {
    SaveTransactionKeepsValid(accounts, next, txs, incomes, expenses, taxes, t);
    var es := expenses + [d];
    assert forall k :: 0 <= k < |expenses| ==> es[k] == expenses[k] && es[k].transaction.value < |txs|;
  }

  /** The same for a new income transaction and its Income row. */
  lemma SaveIncomeKeepsValid(accounts: map<AccountId, Account>, next: AccountId,
                             txs: seq<Transaction>, incomes: seq<IncomeDetail>,
                             expenses: seq<ExpenseDetail>, taxes: seq<TaxDetail>,
                             t: Transaction, d: IncomeDetail)
    requires ValidState(accounts, next, txs, incomes, expenses, taxes)
    requires t.pk == Some(|txs|) && LinksExist(t, accounts)
    requires IncomeLinked(d, txs + [t], accounts) && d.transaction == t.pk
    ensures ValidState(accounts, next, txs + [t], incomes + [d], expenses, taxes)
  {
    SaveTransactionKeepsValid(accounts, next, txs, incomes, expenses, taxes, t);
    var ins := incomes + [d];
    assert forall k :: 0 <= k < |incomes| ==> ins[k] == incomes[k] && ins[k].transaction.value < |txs|;
  }

  class Database {
    var accounts: map<AccountId, Account>
    var nextAccountId: AccountId
    var transactions: seq<Transaction>
    var incomes: seq<IncomeDetail>
    var expenses: seq<ExpenseDetail>
    var taxes: seq<TaxDetail>

    ghost predicate Valid()
      reads this
    {
      ValidState(accounts, nextAccountId, transactions, incomes, expenses, taxes)
    }

    constructor ()
      ensures Valid()
      ensures accounts == map[] && transactions == [] && incomes == [] && expenses == [] && taxes == []
    {
      accounts := map[];
      nextAccountId := 0;
      transactions := [];
      incomes := [];
      expenses := [];
      taxes := [];
    }

    /** Account.objects.create(name=..., [account_type=...]): a fresh row with
        the model's defaults; nothing else changes. */
    method CreateAccount(name: string, accountType: Option<AccountType>) returns (id: AccountId)
      requires Valid()
      modifies this`accounts, this`nextAccountId
      ensures Valid()
      ensures id !in old(accounts)
      ensures accounts == old(accounts)[id := NewAccount(name, accountType)]
      ensures forall i :: 0 <= i < |transactions| ==>
                transactions[i].origin != Some(id) && transactions[i].destination != Some(id)
    {
      id := nextAccountId;
      accounts := accounts[id := NewAccount(name, accountType)];
      nextAccountId := nextAccountId + 1;
    }
  }
}
