/** The entities of the tracker: accounts, transactions and the one-to-one
    detail records of a transaction, with their choice lists, the field
    bounds the schema declares, the default listing order and the text a
    transaction prints as. Money is held in integer cents. */
module Models {
  import opened Wrappers
  import opened Text

  type AccountId = nat
  type UserId = nat
  type TxId = nat

  /** One entry of a Django choice list: the stored key and the text displayed. */
  datatype Choice = Choice(key: string, display: string)

  predicate IsChoiceKey(v: string, choices: seq<Choice>)
  {
    exists i :: 0 <= i < |choices| && choices[i].key == v
  }

  // ---------------------------------------------------------------- Account

  /** Account.ACCOUNT_TYPES */
  datatype AccountType = Normal | Investment | VirtualTax

  function AccountTypeKey(t: AccountType): string
  {
    match t
    case Normal => "normal"
    case Investment => "investment"
    case VirtualTax => "virtual_tax"
  }

  /** The stored account_type column read back; None for a key outside the choices. */
  function AccountTypeFromKey(s: string): (r: Option<AccountType>)
  {
    if s == "normal" then Some(Normal)
    else if s == "investment" then Some(Investment)
    else if s == "virtual_tax" then Some(VirtualTax)
    else None
  }

  /** Every account type has exactly one key and every key one account type. */
  lemma AccountTypeKeyExact(s: string, t: AccountType)
    ensures AccountTypeFromKey(s) == Some(t) <==> AccountTypeKey(t) == s
  {
  }

  const DEFAULT_ACCOUNT_TYPE: AccountType := Normal

  /** Precision of Account.balance and of the amount of a transaction or detail. */
  const BALANCE_MAX_DIGITS: nat := 12
  const AMOUNT_MAX_DIGITS: nat := 10

  /** A two-place decimal held as cents fits a DecimalField of maxDigits digits. */
  predicate FitsDigits(cents: int, maxDigits: nat)
  {
    Abs(cents) < Pow10(maxDigits)
  }

  datatype Account = Account(name: string, accountType: AccountType, balance: int)

  /** An account as Account(name=..., [account_type=...]) builds it: the type
      defaults to normal and the balance to 0.00. */
  function NewAccount(name: string, accountType: Option<AccountType>): (a: Account)
    ensures a.name == name && a.balance == 0
    ensures FitsDigits(a.balance, BALANCE_MAX_DIGITS)
    ensures accountType.None? ==> a.accountType == DEFAULT_ACCOUNT_TYPE
    ensures accountType.Some? ==> a.accountType == accountType.value
  {
    Account(name, if accountType.Some? then accountType.value else DEFAULT_ACCOUNT_TYPE, 0)
  }

  // ------------------------------------------------------------ Date and time

  datatype Date = Date(year: int, month: int, day: int)

  predicate IsLeapYear(y: int)
  {
    y % 4 == 0 && (y % 100 != 0 || y % 400 == 0)
  }

  function DaysInMonth(year: int, month: int): int
  {
    if month == 2 then (if IsLeapYear(year) then 29 else 28)
    else if month == 4 || month == 6 || month == 9 || month == 11 then 30
    else 31
  }

  /** A date Python's datetime.date accepts. */
  predicate ValidDate(d: Date)
  {
    1 <= d.year <= 9999 && 1 <= d.month <= 12 && 1 <= d.day <= DaysInMonth(d.year, d.month)
  }

  /** A DateTimeField value; the project stores it in UTC. */
  datatype DateTime = DateTime(date: Date, hour: int, minute: int, second: int, microsecond: int)

  predicate ValidDateTime(t: DateTime)
  {
    ValidDate(t.date) && 0 <= t.hour < 24 && 0 <= t.minute < 60 && 0 <= t.second < 60
    && 0 <= t.microsecond < 1000000
  }

  /** The fields of a moment, most significant first. */
  function TimeFields(t: DateTime): seq<int>
  {
    [t.date.year, t.date.month, t.date.day, t.hour, t.minute, t.second, t.microsecond]
  }

  /** Strict lexicographic order on equally long field lists. */
  predicate LexLess(a: seq<int>, b: seq<int>)
    requires |a| == |b|
  {
    |a| > 0 && (a[0] < b[0] || (a[0] == b[0] && LexLess(a[1..], b[1..])))
  }

  lemma {:induction false} LexLessTransitive(a: seq<int>, b: seq<int>, c: seq<int>)
    requires |a| == |b| == |c|
    requires LexLess(a, b) && LexLess(b, c)
    ensures LexLess(a, c)
  {
    if a[0] == b[0] == c[0] {
      LexLessTransitive(a[1..], b[1..], c[1..]);
    }
  }

  lemma {:induction false} LexLessTotal(a: seq<int>, b: seq<int>)
    requires |a| == |b|
    ensures LexLess(a, b) || LexLess(b, a) || a == b
  {
    if |a| > 0 && a[0] == b[0] {
      LexLessTotal(a[1..], b[1..]);
      if a[1..] == b[1..] {
        assert a == [a[0]] + a[1..] && b == [b[0]] + b[1..];
      }
    }
  }

  /** x happened at the same moment as y or after it. */
  predicate NotEarlier(x: DateTime, y: DateTime)
  {
    !LexLess(TimeFields(x), TimeFields(y))
  }

  lemma {:induction false} LexLessAsymmetric(a: seq<int>, b: seq<int>)
    requires |a| == |b|
    ensures LexLess(a, b) ==> !LexLess(b, a)
  {
    if |a| > 0 && a[0] == b[0] {
      LexLessAsymmetric(a[1..], b[1..]);
    }
  }

  lemma NotEarlierTransitive(x: DateTime, y: DateTime, z: DateTime)
    requires NotEarlier(x, y) && NotEarlier(y, z)
    ensures NotEarlier(x, z)
  {
    var a, b, c := TimeFields(x), TimeFields(y), TimeFields(z);
    LexLessTotal(a, b);
    LexLessTotal(b, c);
    if a != b && b != c {
      LexLessTransitive(c, b, a);
      LexLessAsymmetric(c, a);
    }
  }

  lemma NotEarlierTotal(x: DateTime, y: DateTime)
    ensures NotEarlier(x, y) || NotEarlier(y, x)
  {
    LexLessAsymmetric(TimeFields(x), TimeFields(y));
  }

  // ------------------------------------------------------------ Transaction

  /** Transaction.TRANSACTION_TYPES */
  datatype TransactionKind = Income | Expense | Internal | Tax

  function KindKey(k: TransactionKind): string
  {
    match k
    case Income => "income"
    case Expense => "expense"
    case Internal => "internal"
    case Tax => "tax"
  }

  /** get_type_display() */
  function KindLabel(k: TransactionKind): string
  {
    match k
    case Income => "Income"
    case Expense => "Expense"
    case Internal => "Internal"
    case Tax => "Tax"
  }

  /** The stored type column read back; None for a key outside the choices. */
  function KindFromKey(s: string): (r: Option<TransactionKind>)
  {
    if s == "income" then Some(Income)
    else if s == "expense" then Some(Expense)
    else if s == "internal" then Some(Internal)
    else if s == "tax" then Some(Tax)
    else None
  }

  lemma KindKeyExact(s: string, k: TransactionKind)
    ensures KindFromKey(s) == Some(k) <==> KindKey(k) == s
  {
  }

  /** For every kind the capitalized key is the display label. */
  lemma CapitalizedKindKeyIsLabel(k: TransactionKind)
    ensures Capitalize(KindKey(k)) == KindLabel(k)
  {
    match k
    case Income => assert Capitalize("income") == "Income";
    case Expense => assert Capitalize("expense") == "Expense";
    case Internal => assert Capitalize("internal") == "Internal";
    case Tax => assert Capitalize("tax") == "Tax";
  }

  /** A row of the Transaction table, or an instance not yet saved (pk None).
      Origin and destination are each independently optional. */
  datatype Transaction = Transaction(
    pk: Option<TxId>,
    user: Option<UserId>,
    description: string,
    kind: TransactionKind,
    amount: int,
    date: DateTime,
    origin: Option<AccountId>,
    destination: Option<AccountId>)

  /** Transaction.__str__: "<Type> - <amount> on <date>". */
  function TransactionText(t: Transaction): (r: string)
    requires ValidDateTime(t.date)
    ensures r == KindLabel(t.kind) + " - " + PlainDecimal(t.amount) + " on " + DateTimeText(t.date)
  {
    CapitalizedKindKeyIsLabel(t.kind);
    Capitalize(KindKey(t.kind)) + " - " + PlainDecimal(t.amount) + " on " + DateTimeText(t.date)
  }

  /** str() of an aware datetime in UTC: "YYYY-MM-DD HH:MM:SS[.ffffff]+00:00". */
  function DateTimeText(t: DateTime): string
    requires ValidDateTime(t)
  {
    ZeroPad(t.date.year, 4) + "-" + ZeroPad(t.date.month, 2) + "-" + ZeroPad(t.date.day, 2)
    + " " + ZeroPad(t.hour, 2) + ":" + ZeroPad(t.minute, 2) + ":" + ZeroPad(t.second, 2)
    + (if t.microsecond != 0 then "." + ZeroPad(t.microsecond, 6) else "")
    + "+00:00"
  }

  // ---------------------------------------------------------- Listing order

  /** Meta.ordering = ['-date']: every transaction is no earlier than the ones after it. */
  predicate NewestFirst(s: seq<Transaction>)
  {
    forall i, j :: 0 <= i < j < |s| ==> NotEarlier(s[i].date, s[j].date)
  }

  /** The transactions in listing order. */
  function Listing(txs: seq<Transaction>): (r: seq<Transaction>)
    ensures NewestFirst(r)
    ensures multiset(r) == multiset(txs)
  {
    if txs == [] then []
    else
      assert txs == [txs[0]] + txs[1..];
      InsertByDate(txs[0], Listing(txs[1..]))
  }

  function InsertByDate(t: Transaction, s: seq<Transaction>): (r: seq<Transaction>)
    requires NewestFirst(s)
    ensures NewestFirst(r)
    ensures multiset(r) == multiset(s) + multiset{t}
  {
    if s == [] then [t]
    else if NotEarlier(t.date, s[0].date) then
      NewerHeadKeepsOrder(t, s);
      [t] + s
    else
      NotEarlierTotal(t.date, s[0].date);
      var rest := InsertByDate(t, s[1..]);
      assert s == [s[0]] + s[1..];
      OlderTailKeepsOrder(s, t, rest);
      [s[0]] + rest
  }

  /** A transaction no earlier than every member of a newest-first list can lead it. */
  lemma ConsKeepsOrder(x: Transaction, s: seq<Transaction>)
    requires NewestFirst(s)
    requires forall j :: 0 <= j < |s| ==> NotEarlier(x.date, s[j].date)
    ensures NewestFirst([x] + s)
  {
    var r := [x] + s;
    forall i, j | 0 <= i < j < |r| ensures NotEarlier(r[i].date, r[j].date) {
      assert r[j] == s[j - 1];
      if i > 0 { assert r[i] == s[i - 1]; }
    }
  }

  lemma NewerHeadKeepsOrder(t: Transaction, s: seq<Transaction>)
    requires NewestFirst(s) && s != [] && NotEarlier(t.date, s[0].date)
    ensures NewestFirst([t] + s)
  {
    forall j | 0 <= j < |s| ensures NotEarlier(t.date, s[j].date) {
      if j > 0 { NotEarlierTransitive(t.date, s[0].date, s[j].date); }
    }
    ConsKeepsOrder(t, s);
  }

  lemma OlderTailKeepsOrder(s: seq<Transaction>, t: Transaction, rest: seq<Transaction>)
    requires NewestFirst(s) && s != [] && NotEarlier(s[0].date, t.date)
    requires NewestFirst(rest) && multiset(rest) == multiset(s[1..]) + multiset{t}
    ensures NewestFirst([s[0]] + rest)
  {
    forall j | 0 <= j < |rest| ensures NotEarlier(s[0].date, rest[j].date) {
      var x := rest[j];
      assert x in multiset(rest);
      if x != t {
        assert x in multiset(s[1..]);
        var k :| 0 <= k < |s[1..]| && s[1..][k] == x;
        assert s[k + 1] == x;
      }
    }
    ConsKeepsOrder(s[0], rest);
  }

  // --------------------------------------------------------- Detail records

  /** Income.INCOME_CATEGORIES */
  const INCOME_CATEGORIES: seq<Choice> := [
    Choice("salary", "Salary"),
    Choice("interest", "Interest"),
    Choice("parents", "Parents"),
    Choice("birthday", "Birthday"),
    Choice("iva_reimbursement", "IVA Reimbursement")
  ]

  /** Expense.EXPENSE_CATEGORIES */
  const EXPENSE_CATEGORIES: seq<Choice> := [
    Choice("accessories", "Accessories"),
    Choice("books", "Books"),
    Choice("car", "Car"),
    Choice("cash", "Cash"),
    Choice("clothing", "Clothing"),
    Choice("coffees & snacks", "Coffees & Snacks"),
    Choice("dining out", "Dining Out"),
    Choice("entertainment", "Entertainment"),
    Choice("fees", "Fees"),
    Choice("gifts", "Gifts"),
    Choice("groceries", "Groceries"),
    Choice("gym", "Gym"),
    Choice("haircut", "Haircut"),
    Choice("housing", "Housing"),
    Choice("insurance", "Insurance"),
    Choice("healthcare", "Healthcare"),
    Choice("miscellaneous", "Miscellaneous"),
    Choice("office", "Office"),
    Choice("personal development", "Personal Development"),
    Choice("petrol", "Petrol"),
    Choice("pharmacy", "Pharmacy"),
    Choice("phone", "Phone"),
    Choice("rent", "Rent"),
    Choice("sports", "Sports"),
    Choice("supplements", "Supplements"),
    Choice("tattoo", "Tattoo"),
    Choice("taxes", "Taxes"),
    Choice("tech", "Tech"),
    Choice("transportation", "Transportation"),
    Choice("utilities", "Utilities"),
    Choice("vacation", "Vacation")
  ]

  /** Expense.SOURCES */
  const EXPENSE_SOURCES: seq<Choice> := [Choice("personal", "Personal"), Choice("shared", "Shared")]

  /** Expense.TYPES */
  const EXPENSE_TYPES: seq<Choice> := [Choice("fixed", "Fixed"), Choice("variable", "Variable")]

  /** An Income row; transaction is its one-to-one link, account a required link. */
  datatype IncomeDetail = IncomeDetail(
    amount: int,
    category: string,
    notes: Option<string>,
    date: DateTime,
    transaction: Option<TxId>,
    account: AccountId)

  /** An Expense row. */
  datatype ExpenseDetail = ExpenseDetail(
    amount: int,
    category: string,
    notes: Option<string>,
    date: DateTime,
    source: string,
    fixedOrVariable: string,
    transaction: Option<TxId>,
    account: AccountId)

  /** A Tax row. */
  datatype TaxDetail = TaxDetail(
    amount: int,
    year: int,
    date: DateTime,
    transaction: Option<TxId>,
    account: AccountId)
}
