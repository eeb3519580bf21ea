/** TransactionForm: the amount check and the save pipeline that builds the
    transaction, the detail row matching its kind, persists both when
    committing, and then recomputes the balances of the dispatched accounts. */
module Forms {
  import opened Wrappers
  import opened Models
  import opened Store
  import opened TrackerHelpers

  datatype ValidationError = ValidationError(field: string, message: string)

  const AMOUNT_NOT_POSITIVE := "Amount must be a positive number"

  /** clean_amount: a positive amount passes unchanged; zero or less is refused. */
  function CleanAmount(amount: int): (r: Result<int, ValidationError>)
    ensures r.Ok? <==> amount > 0
    ensures r.Ok? ==> r.value == amount
    ensures r.Err? ==> r.error == ValidationError("amount", AMOUNT_NOT_POSITIVE)
  {
    if amount <= 0 then Err(ValidationError("amount", AMOUNT_NOT_POSITIVE)) else Ok(amount)
  }

  /** The cleaned data of a bound TransactionForm: the six model fields and
      the four optional choice fields ("" when left blank). */
  datatype FormData = FormData(
    kind: TransactionKind,
    date: DateTime,
    description: string,
    amount: int,
    origin: Option<AccountId>,
    destination: Option<AccountId>,
    expenseCategory: string,
    incomeCategory: string,
    expenseSource: string,
    expenseType: string)

  /** A ChoiceField with required=False and a blank first entry. */
  predicate BlankOrChoice(v: string, choices: seq<Choice>)
  {
    v == "" || IsChoiceKey(v, choices)
  }

  /** What the form's field cleaning and clean_amount accept; save is only
      called on a form that passed them. */
  predicate IsValid(form: FormData)
  {
    CleanAmount(form.amount).Ok?
    && FitsDigits(form.amount, AMOUNT_MAX_DIGITS)
    && form.description != ""
    && ValidDateTime(form.date)
    && BlankOrChoice(form.expenseCategory, EXPENSE_CATEGORIES)
    && BlankOrChoice(form.incomeCategory, INCOME_CATEGORIES)
    && BlankOrChoice(form.expenseSource, EXPENSE_SOURCES)
    && BlankOrChoice(form.expenseType, EXPENSE_TYPES)
  }

  /** super().save(commit=False): an unsaved Transaction carrying the form's
      fields and the user already set on the form's instance. */
  function BuildTransaction(form: FormData, user: Option<UserId>): (t: Transaction)
    ensures t.pk.None?
  {
    Transaction(None, user, form.description, form.kind, form.amount, form.date, form.origin, form.destination)
  }

  /** The Expense row save builds for an expense transaction. */
  function ExpenseFor(t: Transaction, form: FormData): ExpenseDetail
    requires t.origin.Some?
  {
    ExpenseDetail(t.amount, form.expenseCategory, None, t.date, form.expenseSource, form.expenseType, t.pk, t.origin.value)
  }

  /** The Income row save builds for an income transaction. */
  function IncomeFor(t: Transaction, form: FormData): IncomeDetail
    requires t.destination.Some?
  {
    IncomeDetail(t.amount, form.incomeCategory, None, t.date, t.pk, t.destination.value)
  }

  /** The Expense row save builds repeats the transaction's amount, date and
      origin, links to it, and takes category, source and fixed-or-variable
      from the form's expense_category, expense_source and expense_type, each
      blank or one of the model's choices. */
  lemma ExpenseForMirrorsTransaction(t: Transaction, form: FormData)
    requires IsValid(form) && t.kind == Expense && t.origin.Some? && t.pk.Some?
    ensures var d := ExpenseFor(t, form);
      d.amount == t.amount && d.date == t.date && Some(d.account) == t.origin && d.transaction == t.pk
      && d.notes.None?
      && d.category == form.expenseCategory && d.source == form.expenseSource
      && d.fixedOrVariable == form.expenseType
      && BlankOrChoice(d.category, EXPENSE_CATEGORIES)
      && BlankOrChoice(d.source, EXPENSE_SOURCES)
      && BlankOrChoice(d.fixedOrVariable, EXPENSE_TYPES)
  {
  }

  /** The Income row save builds repeats the transaction's amount, date and
      destination, links to it, and takes its category from the form's
      income_category, blank or one of the model's choices. */
  lemma IncomeForMirrorsTransaction(t: Transaction, form: FormData)
    requires IsValid(form) && t.kind == Income && t.destination.Some? && t.pk.Some?
    ensures var d := IncomeFor(t, form);
      d.amount == t.amount && d.date == t.date && Some(d.account) == t.destination && d.transaction == t.pk
      && d.notes.None?
      && d.category == form.incomeCategory
      && BlankOrChoice(d.category, INCOME_CATEGORIES)
  {
  }

  /** The choices are not enforced on save: an expense saved from a form whose
      source was left blank stores "", which is neither personal nor shared. */
  lemma BlankSourceIsStored(t: Transaction, form: FormData)
    requires t.kind == Expense && t.origin.Some? && form.expenseSource == ""
    ensures !IsChoiceKey(ExpenseFor(t, form).source, EXPENSE_SOURCES)
  {
  }

  /** Recomputing accounts whose balances already agree with the
      transactions changes nothing. */
  lemma RecomputeConsistentIsIdentity(accounts: map<AccountId, Account>, txs: seq<Transaction>, ids: seq<AccountId>)
    requires Consistent(accounts, txs)
    requires forall i :: 0 <= i < |ids| ==> ids[i] in accounts
    ensures RecomputeAll(accounts, txs, ids) == accounts
  {
    var r := RecomputeAll(accounts, txs, ids);
    assert forall id :: id in accounts ==> r[id] == accounts[id];
  }

  /** TransactionForm.save(commit). The transaction and its detail row are
      written only when committing; the balances of the dispatched accounts
      are recomputed in both cases, over whatever transactions are stored. */
  method Save(db: Database, form: FormData, user: Option<UserId>, commit: bool) returns (t: Transaction)
    requires db.Valid() && IsValid(form)
    requires LinksExist(BuildTransaction(form, user), db.accounts)
    requires Dispatchable(BuildTransaction(form, user))
    requires commit ==> user.Some?
    modifies db
    ensures db.Valid()
    ensures t == BuildTransaction(form, user).(pk := if commit then Some(|old(db.transactions)|) else None)
    ensures db.transactions == old(db.transactions) + (if commit then [t] else [])
    ensures db.expenses == old(db.expenses) + (if commit && t.kind == Expense then [ExpenseFor(t, form)] else [])
    ensures db.incomes == old(db.incomes) + (if commit && t.kind == Income then [IncomeFor(t, form)] else [])
    ensures db.taxes == old(db.taxes) && db.nextAccountId == old(db.nextAccountId)
    ensures db.accounts == RecomputeAll(old(db.accounts), db.transactions, Affected(t))
    ensures old(Consistent(db.accounts, db.transactions)) && commit && !TaxWithBothAccounts(t)
            ==> Consistent(db.accounts, db.transactions)
    ensures old(Consistent(db.accounts, db.transactions)) && !commit ==> db.accounts == old(db.accounts)
  {
    ghost var consistentBefore := Consistent(db.accounts, db.transactions);
    ghost var txs0, incomes0, expenses0 := db.transactions, db.incomes, db.expenses;
    t := BuildTransaction(form, user);

    if commit {
      t := t.(pk := Some(|db.transactions|));
      db.transactions := db.transactions + [t];
    }

    if t.kind == Expense {
      var expense := ExpenseFor(t, form);
      if commit {
        db.expenses := db.expenses + [expense];
      }
    } else if t.kind == Income {
      var income := IncomeFor(t, form);
      if commit {
        db.incomes := db.incomes + [income];
      }
    }

    if commit {
      if t.kind == Expense {
        SaveExpenseKeepsValid(db.accounts, db.nextAccountId, txs0, incomes0, expenses0, db.taxes, t, ExpenseFor(t, form));
      } else if t.kind == Income {
        SaveIncomeKeepsValid(db.accounts, db.nextAccountId, txs0, incomes0, expenses0, db.taxes, t, IncomeFor(t, form));
      } else {
        SaveTransactionKeepsValid(db.accounts, db.nextAccountId, txs0, incomes0, expenses0, db.taxes, t);
      }
    }
    ghost var before := db.accounts;
    AdjustAccountBalances(db, t);

    if consistentBefore && commit && !TaxWithBothAccounts(t) {
      AdjustKeepsConsistent(before, txs0, t);
    }
    if consistentBefore && !commit {
      RecomputeConsistentIsIdentity(before, db.transactions, Affected(t));
    }
  }
}
