/** TransactionResource: how a transaction becomes a row of the export file
    (the dehydrate_* columns and the field widgets) and how an import row is
    reduced to the cleaned values of Meta.import_id_fields, its natural key.
    A row is a map from column name to cell text. */
module Resources {
  import opened Wrappers
  import opened Text
  import opened Models
  import opened Store

  type Row = map<string, string>

  const DATE_COLUMN := "Date"
  const TYPE_COLUMN := "Type"
  const DESCRIPTION_COLUMN := "Description"
  const AMOUNT_COLUMN := "Amount"
  const INCOME_CATEGORY_COLUMN := "Income Category"
  const EXPENSE_CATEGORY_COLUMN := "Expense Category"
  const SOURCE_COLUMN := "Source"
  const FIXED_OR_VARIABLE_COLUMN := "Fixed or Variable"
  const ORIGIN_ACCOUNT_COLUMN := "Origin Account"
  const DESTINATION_ACCOUNT_COLUMN := "Destination Account"

  /** Meta.import_id_fields, by the column each field reads. */
  const IMPORT_ID_COLUMNS: seq<string> := [
    DATE_COLUMN, TYPE_COLUMN, DESCRIPTION_COLUMN, AMOUNT_COLUMN,
    INCOME_CATEGORY_COLUMN, EXPENSE_CATEGORY_COLUMN, SOURCE_COLUMN,
    FIXED_OR_VARIABLE_COLUMN, ORIGIN_ACCOUNT_COLUMN, DESTINATION_ACCOUNT_COLUMN
  ]

  datatype ExportError = RelatedObjectDoesNotExist(relation: string)

  datatype ImportError =
    | MissingColumn(column: string)
    | InvalidDate(text: string)
    | AccountDoesNotExist(name: string)
    | MultipleAccountsReturned(name: string)

  // ------------------------------------------------------------ Date column

  /** DateWidget(format='%d-%m-%Y').render of the stored date. */
  function FormatDate(d: Date): string
    requires ValidDate(d)
  {
    ZeroPad(d.day, 2) + "-" + ZeroPad(d.month, 2) + "-" + ZeroPad(d.year, 4)
  }

  /** strptime's %d: two digits 01-31, one digit 1-9, or a space and a digit 1-9. */
  function DayField(f: string): Option<int>
  {
    if |f| == 2 && AllDigits(f) && 1 <= DigitsValue(f) <= 31 then Some(DigitsValue(f))
    else if |f| == 1 && IsDigit(f[0]) && f[0] != '0' then Some(DigitValue(f[0]))
    else if |f| == 2 && f[0] == ' ' && IsDigit(f[1]) && f[1] != '0' then Some(DigitValue(f[1]))
    else None
  }

  /** strptime's %m: two digits 01-12 or one digit 1-9. */
  function MonthField(f: string): Option<int>
  {
    if |f| == 2 && AllDigits(f) && 1 <= DigitsValue(f) <= 12 then Some(DigitsValue(f))
    else if |f| == 1 && IsDigit(f[0]) && f[0] != '0' then Some(DigitValue(f[0]))
    else None
  }

  /** strptime's %Y: exactly four digits. */
  function YearField(f: string): Option<int>
  {
    if |f| == 4 && AllDigits(f) then Some(DigitsValue(f)) else None
  }

  /** datetime.strptime(s, '%d-%m-%Y').date(): the whole text must match and
      name a real calendar date. */
  function StrptimeDate(s: string): (r: Option<Date>)
    ensures r.Some? ==> ValidDate(r.value)
  {
    var parts := Split(s, '-');
    if |parts| != 3 then None
    else
      match (DayField(parts[0]), MonthField(parts[1]), YearField(parts[2]))
      case (Some(day), Some(month), Some(year)) =>
        if ValidDate(Date(year, month, day)) then Some(Date(year, month, day)) else None
      case _ => None
  }

  /** DateWidget.clean: an empty cell is no date; anything else must parse. */
  function CleanDateCell(s: string): (r: Result<Option<Date>, ImportError>)
    ensures s == "" ==> r == Ok(None)
    ensures s != "" ==> (r.Ok? <==> StrptimeDate(s).Some?)
    ensures r.Ok? && r.value.Some? ==> ValidDate(r.value.value)
  {
    if s == "" then Ok(None)
    else
      match StrptimeDate(s)
      case Some(d) => Ok(Some(d))
      case None => Err(InvalidDate(s))
  }

  /** Three fields without a dash, joined by dashes, split back into the three. */
  lemma SplitDateFields(a: string, b: string, c: string)
    requires AllDigits(a) && AllDigits(b) && AllDigits(c)
    ensures Split(a + "-" + b + "-" + c, '-') == [a, b, c]
  {
    assert '-' !in a by { assert forall i :: 0 <= i < |a| ==> IsDigit(a[i]); }
    assert '-' !in b by { assert forall i :: 0 <= i < |b| ==> IsDigit(b[i]); }
    assert '-' !in c by { assert forall i :: 0 <= i < |c| ==> IsDigit(c[i]); }
    assert a + "-" + b + "-" + c == a + ['-'] + (b + ['-'] + c);
    SplitAtSeparator(a, '-', b + ['-'] + c);
    SplitAtSeparator(b, '-', c);
    SplitNoSeparator(c, '-');
  }

  /** The Date column reads back the date it was written from. */
  lemma DateColumnRoundTrip(d: Date)
    requires ValidDate(d)
    ensures CleanDateCell(FormatDate(d)) == Ok(Some(d))
  {
    var dd, mm, yyyy := ZeroPad(d.day, 2), ZeroPad(d.month, 2), ZeroPad(d.year, 4);
    SplitDateFields(dd, mm, yyyy);
    DigitsValueOfZeroPad(d.day, 2);
    DigitsValueOfZeroPad(d.month, 2);
    DigitsValueOfZeroPad(d.year, 4);
    assert dd != [] && IsDigit(dd[0]);
  }

  /** Two valid dates are written as the same Date cell only if they are equal. */
  lemma FormatDateInjective(d1: Date, d2: Date)
    requires ValidDate(d1) && ValidDate(d2) && FormatDate(d1) == FormatDate(d2)
    ensures d1 == d2
  {
    DateColumnRoundTrip(d1);
    DateColumnRoundTrip(d2);
  }

  /** A number of one or two digits written without padding is read by %d and %m. */
  lemma {:induction false} ShortField(n: nat)
    requires 1 <= n < 100
    ensures var f := Digits(n);
      (|f| == 1 && IsDigit(f[0]) && f[0] != '0' && DigitValue(f[0]) == n)
      || (|f| == 2 && AllDigits(f) && DigitsValue(f) == n)
  {
    DigitsValueOfDigits(n);
    if n >= 10 {
      assert Digits(n) == Digits(n / 10) + [DigitChar(n % 10)];
    }
  }

  /** strptime's %d and %m also take unpadded numbers: a valid date written
      with the day and month unpadded reads back as that date. */
  lemma UnpaddedDateColumn(d: Date)
    requires ValidDate(d)
    ensures CleanDateCell(Digits(d.day) + "-" + Digits(d.month) + "-" + ZeroPad(d.year, 4)) == Ok(Some(d))
  {
    var dd, mm, yyyy := Digits(d.day), Digits(d.month), ZeroPad(d.year, 4);
    SplitDateFields(dd, mm, yyyy);
    ShortField(d.day);
    ShortField(d.month);
    DigitsValueOfZeroPad(d.year, 4);
    assert DayField(dd) == Some(d.day);
    assert MonthField(mm) == Some(d.month);
    assert dd != [] && IsDigit(dd[0]);
  }

  // ------------------------------------------------------- Dehydrated columns

  /** dehydrate_type: the display label of the type. */
  function DehydrateType(t: Transaction): string
  {
    KindLabel(t.kind)
  }

  /** The Type column tells the kinds apart. */
  lemma TypeColumnIdentifiesKind(t1: Transaction, t2: Transaction)
    ensures DehydrateType(t1) == DehydrateType(t2) <==> t1.kind == t2.kind
  {
  }

  /** The Type column holds the label, which is not a stored type key. */
  lemma TypeColumnIsNotAKey(t: Transaction)
    ensures KindFromKey(DehydrateType(t)) == None
  {
  }

  /** dehydrate_amount: "€ " then the amount with comma thousands separators
      and exactly two decimals. */
  function DehydrateAmount(t: Transaction): string
  {
    "€ " + GroupedDecimal(t.amount)
  }

  /** Reads an Amount cell as written by DehydrateAmount. */
  function ParseExportedAmount(s: string): Option<int>
  {
    if |s| >= 2 && s[..2] == "€ " then ParseGroupedDecimal(s[2..]) else None
  }

  /** The Amount column loses nothing: it reads back the exact amount in cents. */
  lemma AmountColumnRoundTrip(t: Transaction)
    ensures ParseExportedAmount(DehydrateAmount(t)) == Some(t.amount)
  {
    var s := DehydrateAmount(t);
    assert s[..2] == "€ " && s[2..] == GroupedDecimal(t.amount);
    GroupedDecimalRoundTrip(t.amount);
  }

  /** The reverse one-to-one accessor transaction.income_transaction: the
      Income row linked to the transaction, if any. */
  function IncomeOf(incomes: seq<IncomeDetail>, pk: Option<TxId>): (r: Option<IncomeDetail>)
    ensures r.Some? ==> r.value in incomes && r.value.transaction == pk && pk.Some?
    ensures r.None? && pk.Some? ==> forall i :: 0 <= i < |incomes| ==> incomes[i].transaction != pk
  {
    if pk.None? || incomes == [] then None
    else if incomes[0].transaction == pk then Some(incomes[0])
    else IncomeOf(incomes[1..], pk)
  }

  /** transaction.expense_transaction */
  function ExpenseOf(expenses: seq<ExpenseDetail>, pk: Option<TxId>): (r: Option<ExpenseDetail>)
    ensures r.Some? ==> r.value in expenses && r.value.transaction == pk && pk.Some?
    ensures r.None? && pk.Some? ==> forall i :: 0 <= i < |expenses| ==> expenses[i].transaction != pk
  {
    if pk.None? || expenses == [] then None
    else if expenses[0].transaction == pk then Some(expenses[0])
    else ExpenseOf(expenses[1..], pk)
  }

  /** dehydrate_income_category: "" unless the type is income; for an income
      the accessor is evaluated, so a missing Income row raises. */
  function DehydrateIncomeCategory(t: Transaction, incomes: seq<IncomeDetail>): Result<string, ExportError>
  {
    if t.kind == Income then
      match IncomeOf(incomes, t.pk)
      case Some(d) => Ok(Capitalize(d.category))
      case None => Err(RelatedObjectDoesNotExist("income_transaction"))
    else Ok("")
  }

  /** dehydrate_expense_category */
  function DehydrateExpenseCategory(t: Transaction, expenses: seq<ExpenseDetail>): Result<string, ExportError>
  {
    if t.kind == Expense then
      match ExpenseOf(expenses, t.pk)
      case Some(d) => Ok(Capitalize(d.category))
      case None => Err(RelatedObjectDoesNotExist("expense_transaction"))
    else Ok("")
  }

  /** dehydrate_source */
  function DehydrateSource(t: Transaction, expenses: seq<ExpenseDetail>): Result<string, ExportError>
  {
    if t.kind == Expense then
      match ExpenseOf(expenses, t.pk)
      case Some(d) => Ok(Capitalize(d.source))
      case None => Err(RelatedObjectDoesNotExist("expense_transaction"))
    else Ok("")
  }

  /** dehydrate_fixed_or_variable */
  function DehydrateFixedOrVariable(t: Transaction, expenses: seq<ExpenseDetail>): Result<string, ExportError>
  {
    if t.kind == Expense then
      match ExpenseOf(expenses, t.pk)
      case Some(d) => Ok(Capitalize(d.fixedOrVariable))
      case None => Err(RelatedObjectDoesNotExist("expense_transaction"))
    else Ok("")
  }

  /** For a stored transaction with a linked Income row (one-to-one), the
      income category column is that row's capitalized category when the
      transaction is an income, and "" otherwise. */
  lemma IncomeCategoryColumn(db_incomes: seq<IncomeDetail>, t: Transaction, d: IncomeDetail)
    requires IncomesOneToOne(db_incomes) && t.pk.Some?
    requires d in db_incomes && d.transaction == t.pk
    ensures DehydrateIncomeCategory(t, db_incomes)
            == if t.kind == Income then Ok(Capitalize(d.category)) else Ok("")
  {
    if t.kind == Income {
      var r := IncomeOf(db_incomes, t.pk);
      var i :| 0 <= i < |db_incomes| && db_incomes[i] == r.value;
      var j :| 0 <= j < |db_incomes| && db_incomes[j] == d;
      assert i == j || db_incomes[i].transaction != db_incomes[j].transaction;
    }
  }

  /** For a stored transaction with a linked Expense row (one-to-one), the
      three expense columns are that row's capitalized category, source and
      fixed_or_variable when the transaction is an expense, and all "" otherwise. */
  lemma ExpenseColumns(db_expenses: seq<ExpenseDetail>, t: Transaction, d: ExpenseDetail)
    requires ExpensesOneToOne(db_expenses) && t.pk.Some?
    requires d in db_expenses && d.transaction == t.pk
    ensures t.kind == Expense ==>
              DehydrateExpenseCategory(t, db_expenses) == Ok(Capitalize(d.category))
              && DehydrateSource(t, db_expenses) == Ok(Capitalize(d.source))
              && DehydrateFixedOrVariable(t, db_expenses) == Ok(Capitalize(d.fixedOrVariable))
    ensures t.kind != Expense ==>
              DehydrateExpenseCategory(t, db_expenses) == Ok("")
              && DehydrateSource(t, db_expenses) == Ok("")
              && DehydrateFixedOrVariable(t, db_expenses) == Ok("")
  {
    if t.kind == Expense {
      var r := ExpenseOf(db_expenses, t.pk);
      var i :| 0 <= i < |db_expenses| && db_expenses[i] == r.value;
      var j :| 0 <= j < |db_expenses| && db_expenses[j] == d;
      assert i == j || db_expenses[i].transaction != db_expenses[j].transaction;
    }
  }

  /** ForeignKeyWidget(Account, 'name').render: the account's name, "" for none. */
  function AccountCell(accounts: map<AccountId, Account>, link: Option<AccountId>): string
    requires link.Some? ==> link.value in accounts
  {
    if link.None? then "" else accounts[link.value].name
  }

  /** The exported row of a transaction: the ten columns of Meta.fields. */
  function ExportRow(t: Transaction, accounts: map<AccountId, Account>,
                     incomes: seq<IncomeDetail>, expenses: seq<ExpenseDetail>): (r: Result<Row, ExportError>)
    requires ValidDateTime(t.date) && LinksExist(t, accounts)
    ensures r.Ok? <==> (t.kind == Income ==> IncomeOf(incomes, t.pk).Some?)
                       && (t.kind == Expense ==> ExpenseOf(expenses, t.pk).Some?)
    ensures r.Ok? ==> (forall c :: c in r.value <==> c in IMPORT_ID_COLUMNS)
    ensures r.Ok? ==> r.value[DATE_COLUMN] == FormatDate(t.date.date)
                      && r.value[TYPE_COLUMN] == DehydrateType(t)
                      && r.value[DESCRIPTION_COLUMN] == t.description
                      && r.value[AMOUNT_COLUMN] == DehydrateAmount(t)
                      && DehydrateIncomeCategory(t, incomes) == Ok(r.value[INCOME_CATEGORY_COLUMN])
                      && DehydrateExpenseCategory(t, expenses) == Ok(r.value[EXPENSE_CATEGORY_COLUMN])
                      && DehydrateSource(t, expenses) == Ok(r.value[SOURCE_COLUMN])
                      && DehydrateFixedOrVariable(t, expenses) == Ok(r.value[FIXED_OR_VARIABLE_COLUMN])
                      && r.value[ORIGIN_ACCOUNT_COLUMN] == AccountCell(accounts, t.origin)
                      && r.value[DESTINATION_ACCOUNT_COLUMN] == AccountCell(accounts, t.destination)
  {
    var income := DehydrateIncomeCategory(t, incomes);
    var expense := DehydrateExpenseCategory(t, expenses);
    // Source and fixed_or_variable read the same Expense row as the expense
    // category, so they cannot fail once it has not.
    var source := DehydrateSource(t, expenses);
    var fixed := DehydrateFixedOrVariable(t, expenses);
    if income.Err? then Err(income.error)
    else if expense.Err? then Err(expense.error)
    else Ok(Cells(FormatDate(t.date.date), DehydrateType(t), t.description, DehydrateAmount(t),
                  income.value, expense.value, source.value, fixed.value,
                  AccountCell(accounts, t.origin), AccountCell(accounts, t.destination)))
  }

  /** The row holding the given text in each of the ten columns, in the order
      of Meta.fields. */
  function Cells(date: string, kind: string, description: string, amount: string,
                 incomeCategory: string, expenseCategory: string, source: string,
                 fixedOrVariable: string, origin: string, destination: string): (r: Row)
    ensures forall c :: c in r <==> c in IMPORT_ID_COLUMNS
    ensures r[DATE_COLUMN] == date && r[TYPE_COLUMN] == kind
            && r[DESCRIPTION_COLUMN] == description && r[AMOUNT_COLUMN] == amount
            && r[INCOME_CATEGORY_COLUMN] == incomeCategory
            && r[EXPENSE_CATEGORY_COLUMN] == expenseCategory
            && r[SOURCE_COLUMN] == source && r[FIXED_OR_VARIABLE_COLUMN] == fixedOrVariable
            && r[ORIGIN_ACCOUNT_COLUMN] == origin && r[DESTINATION_ACCOUNT_COLUMN] == destination
  {
    map[
      DATE_COLUMN := date,
      TYPE_COLUMN := kind,
      DESCRIPTION_COLUMN := description,
      AMOUNT_COLUMN := amount,
      INCOME_CATEGORY_COLUMN := incomeCategory,
      EXPENSE_CATEGORY_COLUMN := expenseCategory,
      SOURCE_COLUMN := source,
      FIXED_OR_VARIABLE_COLUMN := fixedOrVariable,
      ORIGIN_ACCOUNT_COLUMN := origin,
      DESTINATION_ACCOUNT_COLUMN := destination
    ]
  }

  // ------------------------------------------------------------ Natural key

  /** The cleaned values of the ten import_id_fields of a row. */
  datatype NaturalKey = NaturalKey(
    date: Option<Date>,
    kind: string,
    description: string,
    amount: string,
    incomeCategory: string,
    expenseCategory: string,
    source: string,
    fixedOrVariable: string,
    origin: string,
    destination: string)

  /** ForeignKeyWidget.clean: "" is no account; otherwise exactly one account
      must carry the name. The account is kept by its (then unique) name. */
  function CleanAccountCell(accounts: map<AccountId, Account>, name: string): (r: Result<string, ImportError>)
    ensures name == "" ==> r == Ok("")
    ensures r.Ok? ==> r.value == name
    ensures name != "" ==> (r.Ok? <==> |set id | id in accounts && accounts[id].name == name| == 1)
  {
    if name == "" then Ok("")
    else
      var matching := set id | id in accounts && accounts[id].name == name;
      if |matching| == 0 then Err(AccountDoesNotExist(name))
      else if |matching| > 1 then Err(MultipleAccountsReturned(name))
      else Ok(name)
  }

  /** The first of the columns that the row lacks, if any. */
  function FirstMissing(row: Row, columns: seq<string>): (r: Option<string>)
    ensures r.None? <==> forall c :: c in columns ==> c in row
    ensures r.Some? ==> r.value in columns && r.value !in row
  {
    if columns == [] then None
    else if columns[0] !in row then Some(columns[0])
    else FirstMissing(row, columns[1..])
  }

  /** The natural key of an import row; a missing column, a malformed date or
      an account name that does not resolve is an error. */
  function RowKey(row: Row, accounts: map<AccountId, Account>): (r: Result<NaturalKey, ImportError>)
    ensures r.Ok? <==> (forall c :: c in IMPORT_ID_COLUMNS ==> c in row)
                       && CleanDateCell(row[DATE_COLUMN]).Ok?
                       && CleanAccountCell(accounts, row[ORIGIN_ACCOUNT_COLUMN]).Ok?
                       && CleanAccountCell(accounts, row[DESTINATION_ACCOUNT_COLUMN]).Ok?
    ensures r.Ok? ==> CleanDateCell(row[DATE_COLUMN]) == Ok(r.value.date)
    ensures r.Ok? ==> r.value.kind == row[TYPE_COLUMN] && r.value.description == row[DESCRIPTION_COLUMN]
                      && r.value.amount == row[AMOUNT_COLUMN]
                      && r.value.incomeCategory == row[INCOME_CATEGORY_COLUMN]
                      && r.value.expenseCategory == row[EXPENSE_CATEGORY_COLUMN]
                      && r.value.source == row[SOURCE_COLUMN]
                      && r.value.fixedOrVariable == row[FIXED_OR_VARIABLE_COLUMN]
                      && r.value.origin == row[ORIGIN_ACCOUNT_COLUMN]
                      && r.value.destination == row[DESTINATION_ACCOUNT_COLUMN]
  {
    var missing := FirstMissing(row, IMPORT_ID_COLUMNS);
    if missing.Some? then Err(MissingColumn(missing.value))
    else
      var date := CleanDateCell(row[DATE_COLUMN]);
      var origin := CleanAccountCell(accounts, row[ORIGIN_ACCOUNT_COLUMN]);
      var destination := CleanAccountCell(accounts, row[DESTINATION_ACCOUNT_COLUMN]);
      if date.Err? then Err(date.error)
      else if origin.Err? then Err(origin.error)
      else if destination.Err? then Err(destination.error)
      else Ok(NaturalKey(
        date.value, row[TYPE_COLUMN], row[DESCRIPTION_COLUMN], row[AMOUNT_COLUMN],
        row[INCOME_CATEGORY_COLUMN], row[EXPENSE_CATEGORY_COLUMN], row[SOURCE_COLUMN],
        row[FIXED_OR_VARIABLE_COLUMN], origin.value, destination.value))
  }

  /** Two rows over the import columns whose Date cells are written dates
      have the same natural key exactly when they are the same row. */
  lemma RowKeyIffSameRow(r1: Row, r2: Row, accounts: map<AccountId, Account>, d1: Date, d2: Date)
    requires forall c :: c in r1 <==> c in IMPORT_ID_COLUMNS
    requires forall c :: c in r2 <==> c in IMPORT_ID_COLUMNS
    requires ValidDate(d1) && r1[DATE_COLUMN] == FormatDate(d1)
    requires ValidDate(d2) && r2[DATE_COLUMN] == FormatDate(d2)
    requires RowKey(r1, accounts).Ok? && RowKey(r2, accounts).Ok?
    ensures RowKey(r1, accounts) == RowKey(r2, accounts) <==> r1 == r2
  {
    if RowKey(r1, accounts) == RowKey(r2, accounts) {
      DateColumnRoundTrip(d1);
      DateColumnRoundTrip(d2);
      assert r1[DATE_COLUMN] == r2[DATE_COLUMN];
      assert forall c :: c in r1 ==> r1[c] == r2[c];
    }
  }

  /** The account a link names carries a name no other account has (or there
      is no link), so ForeignKeyWidget.clean can find it again. */
  predicate NameResolves(accounts: map<AccountId, Account>, link: Option<AccountId>)
    requires link.Some? ==> link.value in accounts
  {
    link.None? || |set id | id in accounts && accounts[id].name == accounts[link.value].name| == 1
  }

  /** The row exported for a transaction whose accounts' names are unique
      always has a natural key. */
  lemma ExportedRowHasKey(t: Transaction, accounts: map<AccountId, Account>,
                          incomes: seq<IncomeDetail>, expenses: seq<ExpenseDetail>)
    requires ValidDateTime(t.date) && LinksExist(t, accounts)
    requires NameResolves(accounts, t.origin) && NameResolves(accounts, t.destination)
    requires ExportRow(t, accounts, incomes, expenses).Ok?
    ensures RowKey(ExportRow(t, accounts, incomes, expenses).value, accounts).Ok?
  {
    DateColumnRoundTrip(t.date.date);
  }

  /** Two exported rows, of transactions whose accounts' names are unique,
      have natural keys, and the keys are equal exactly when the rows are. */
  lemma ExportedKeysEqualIffRowsEqual(t1: Transaction, t2: Transaction, accounts: map<AccountId, Account>,
                                      incomes: seq<IncomeDetail>, expenses: seq<ExpenseDetail>)
    requires ValidDateTime(t1.date) && LinksExist(t1, accounts)
    requires ValidDateTime(t2.date) && LinksExist(t2, accounts)
    requires NameResolves(accounts, t1.origin) && NameResolves(accounts, t1.destination)
    requires NameResolves(accounts, t2.origin) && NameResolves(accounts, t2.destination)
    requires ExportRow(t1, accounts, incomes, expenses).Ok?
    requires ExportRow(t2, accounts, incomes, expenses).Ok?
    ensures RowKey(ExportRow(t1, accounts, incomes, expenses).value, accounts).Ok?
    ensures RowKey(ExportRow(t2, accounts, incomes, expenses).value, accounts).Ok?
    ensures RowKey(ExportRow(t1, accounts, incomes, expenses).value, accounts)
            == RowKey(ExportRow(t2, accounts, incomes, expenses).value, accounts)
            <==> ExportRow(t1, accounts, incomes, expenses) == ExportRow(t2, accounts, incomes, expenses)
  {
    ExportedRowHasKey(t1, accounts, incomes, expenses);
    ExportedRowHasKey(t2, accounts, incomes, expenses);
    RowKeyIffSameRow(ExportRow(t1, accounts, incomes, expenses).value,
                     ExportRow(t2, accounts, incomes, expenses).value,
                     accounts, t1.date.date, t2.date.date);
  }

  // ------------------------------------------------------------ Import hook

  /** after_init_instance: the new instance's user is kwargs.get('user');
      nothing else about it changes. */
  function AfterInitInstance(instance: Transaction, kwargs: map<string, UserId>): (r: Transaction)
    ensures r.user == (if "user" in kwargs then Some(kwargs["user"]) else None)
    ensures r.(user := instance.user) == instance
  {
    instance.(user := if "user" in kwargs then Some(kwargs["user"]) else None)
  }
}
