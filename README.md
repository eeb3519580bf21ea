# Finance tracker ledger — a Dafny model

This project models the ledger core of a small Django personal-finance tracker:

- **Models.** Accounts, transactions and the one-to-one detail rows (Income, Expense, Tax), with their choice lists, field bounds, listing order and the text a transaction prints as.
- **Balance recomputation.** An account's balance is rebuilt from scratch out of the transactions that name it (`update_account_balance`), and a saved transaction's type chooses which accounts are rebuilt (`adjust_account_balances`).
- **Form save.** `TransactionForm` checks the amount, builds the transaction and the matching detail row, writes both when committing, and then triggers recomputation.
- **Export/import resource.** `TransactionResource` turns a transaction into an export row (the `dehydrate_*` columns and the date and account widgets). It reduces an import row to its natural key: the cleaned values of the ten `import_id_fields`.

Money is held as integer cents. The database is an in-memory `Store.Database` class:

- a map of accounts;
- the Transaction table as a sequence whose index is the primary key;
- the three detail tables as sequences.

`Valid()` states what the schema guarantees:

- foreign keys resolve;
- one-to-one links are unique;
- each detail row written by the form repeats its transaction's amount, date and account.

Modules, in dependency order:

- `Wrappers`: `Option` and `Result`.
- `Text`: decimal digits, zero padding, thousands grouping, ASCII `str.capitalize`, `str.split`, and the two decimal renderings, each with its reading-back lemma.
- `Models`: `models.py`.
- `Store`: the Database class and its validity invariant.
- `TrackerHelpers`: `tracker_helpers.py`.
- `Forms`: `forms.py`.
- `Resources`: `resources.py`.

### Behaviour of the code worth knowing

- **Tax transactions with both accounts set.** `adjust_account_balances` recomputes the origin of a tax transaction whenever it is set, and the destination only when there is no origin (`finance_project/tracker/tracker_helpers.py:50-56`). With both set, the destination's balance is not refreshed. `TaxWithBothAccountsLeavesDestinationStale` proves that the destination's recomputed balance moves while it is not recomputed. `Forms.Save` promises consistency only outside that case.
- **Missing detail rows.** The income and expense export columns evaluate the reverse one-to-one accessor (`finance_project/tracker/resources.py:69-85`). Django raises `RelatedObjectDoesNotExist` when there is no detail row, before the `and` can fall through to `''`. The model returns `Err(RelatedObjectDoesNotExist(..))` there, and `""` only when the transaction's type does not match.

## Model

| member | source | states |
|---|---|---|
| Models.AccountTypeKeyExact | finance_project/tracker/models.py:12-19 | each account type has exactly one stored key and each key names one account type |
| Models.NewAccount | finance_project/tracker/models.py:18-20 | a new account keeps its name, has balance 0.00 (which fits 12 digits) and type `normal` unless another is given |
| Store.Database.CreateAccount | finance_project/tracker/models.py:18-20 | creating an account adds exactly one fresh row with those defaults, which no transaction references, and keeps the store valid |
| Models.KindKeyExact | finance_project/tracker/models.py:27-36 | each transaction type has exactly one stored key and each key names one type |
| Models.CapitalizedKindKeyIsLabel | finance_project/tracker/models.py:27-32 | capitalizing the stored type key gives the display label for every type |
| Models.TransactionText | finance_project/tracker/models.py:45-46 | `__str__` is the type's label, " - ", the amount's plain decimal text, " on ", the UTC date-time text |
| Text.PlainDecimalRoundTrip | finance_project/tracker/models.py:46 | the amount printed by `__str__` reads back to the exact amount in cents |
| Models.NotEarlierTransitive | finance_project/tracker/models.py:48-49 | "not earlier than" on date-times is transitive |
| Models.NotEarlierTotal | finance_project/tracker/models.py:48-49 | any two date-times are ordered one way or the other |
| Models.InsertByDate | finance_project/tracker/models.py:48-49 | inserting into a newest-first list keeps it newest-first and adds exactly the one transaction |
| Models.Listing | finance_project/tracker/models.py:48-49 | the default listing is newest-first and is a permutation of the stored transactions |
| TrackerHelpers.RecomputeAppend | finance_project/tracker/tracker_helpers.py:11-22 | one more transaction changes the recomputed balance by exactly that transaction's signed effect |
| TrackerHelpers.RecomputeIsSignedTotal | finance_project/tracker/tracker_helpers.py:11-22 | the six-sum formula equals the sum of every transaction's signed effect (income in, expense out, internal in minus out; tax in minus out for virtual_tax) |
| TrackerHelpers.UnreferencedAccountIsZero | finance_project/tracker/tracker_helpers.py:11-22 | an account no transaction names recomputes to 0 (every `or 0` applies) |
| TrackerHelpers.IncomeRaisesDestination | finance_project/tracker/tracker_helpers.py:11-22 | an income into A raises A by its amount, or leaves a virtual_tax A unchanged |
| TrackerHelpers.ExpenseLowersOrigin | finance_project/tracker/tracker_helpers.py:11-22 | an expense out of A lowers A by its amount, or leaves a virtual_tax A unchanged |
| TrackerHelpers.InternalTransferMovesAmount | finance_project/tracker/tracker_helpers.py:13-22 | an internal transfer between distinct ordinary accounts moves its amount from origin to destination and touches no third account |
| TrackerHelpers.InternalTransferPreservesTotal | finance_project/tracker/tracker_helpers.py:13-22 | such a transfer leaves the total of the ordinary balances unchanged |
| TrackerHelpers.KindsThatDoNotCount | finance_project/tracker/tracker_helpers.py:19-22 | tax transactions never move an ordinary balance and only tax transactions move a virtual_tax balance |
| TrackerHelpers.RecomputeOne | finance_project/tracker/tracker_helpers.py:5-26 | updating one account keeps the set of accounts |
| TrackerHelpers.UpdateAccountBalance | finance_project/tracker/tracker_helpers.py:5-26 | writes the recomputed balance of that one account, changes nothing else and keeps the store valid |
| TrackerHelpers.Affected | finance_project/tracker/tracker_helpers.py:29-56 | the accounts dispatched for a transaction are among its origin and destination |
| TrackerHelpers.DispatchCoversEveryChange | finance_project/tracker/tracker_helpers.py:29-56 | except for a tax transaction with both accounts set, every account the new transaction can move is among those dispatched |
| TrackerHelpers.TaxWithBothAccountsLeavesDestinationStale | finance_project/tracker/tracker_helpers.py:50-56 | with both accounts on a tax transaction the destination is not dispatched although its virtual_tax balance moves by the amount |
| TrackerHelpers.RecomputeAll | finance_project/tracker/tracker_helpers.py:29-56 | after recomputing a list of accounts, listed accounts hold their recomputed balance and every other account is untouched |
| TrackerHelpers.RecomputeAllIdempotent | finance_project/tracker/tracker_helpers.py:5-26 | recomputing twice with no change in between gives the same accounts |
| TrackerHelpers.AdjustKeepsConsistent | finance_project/tracker/tracker_helpers.py:29-56 | if every balance matched its recomputation before, it still does after a transaction is added and its accounts are dispatched (tax with both accounts excepted) |
| TrackerHelpers.NewAccountKeepsConsistent | finance_project/tracker/models.py:20 | a new zero-balance account named by no transaction keeps every balance consistent |
| TrackerHelpers.AdjustAccountBalances | finance_project/tracker/tracker_helpers.py:29-56 | recomputes exactly the accounts the type selects, in call order, and keeps the store valid |
| Store.SaveTransactionKeepsValid | finance_project/tracker/forms.py:59-60 | saving a transaction under the next key with existing accounts keeps the store valid |
| Store.SaveExpenseKeepsValid | finance_project/tracker/forms.py:62-73 | saving an expense together with its Expense row keeps the store valid, including one-to-one |
| Store.SaveIncomeKeepsValid | finance_project/tracker/forms.py:75-84 | saving an income together with its Income row keeps the store valid, including one-to-one |
| Forms.CleanAmount | finance_project/tracker/forms.py:36-40 | the amount passes, unchanged, exactly when it is positive; otherwise the error is the "Amount must be a positive number" message on field amount |
| Forms.BuildTransaction | finance_project/tracker/forms.py:57 | the transaction built with commit=False is unsaved |
| Forms.ExpenseForMirrorsTransaction | finance_project/tracker/forms.py:62-71 | the Expense row repeats the transaction's amount, date and origin, links to it, has no notes, and takes its category, source and fixed_or_variable from the form (each a choice or blank) |
| Forms.IncomeForMirrorsTransaction | finance_project/tracker/forms.py:75-82 | the Income row repeats the transaction's amount, date and destination, links to it, has no notes, and takes its category from the form (a choice or blank) |
| Forms.BlankSourceIsStored | finance_project/tracker/forms.py:22-27 | a source left blank on the form is stored as "", which is none of the model's choices |
| Forms.RecomputeConsistentIsIdentity | finance_project/tracker/forms.py:86-87 | recomputing accounts whose balances already match changes nothing |
| Forms.Save | finance_project/tracker/forms.py:56-89 | with commit, appends the transaction under the next key and the detail row of its type; without, writes no row. Either way it recomputes the dispatched accounts, keeps the store valid and keeps balances consistent (tax with both accounts excepted) |
| Text.Capitalize | finance_project/tracker/resources.py:70 | capitalizing keeps the length and every letter up to case; the first character is not lower-case and no later one is upper-case |
| Text.CapitalizeIdempotent | finance_project/tracker/resources.py:70 | capitalizing twice is capitalizing once |
| Resources.StrptimeDate | finance_project/tracker/resources.py:6-10 | a date parsed with `%d-%m-%Y` is a real calendar date |
| Resources.CleanDateCell | finance_project/tracker/resources.py:6-10 | an empty cell is no date; a non-empty cell is accepted exactly when `%d-%m-%Y` parses it; any date the cell yields is valid |
| Resources.DateColumnRoundTrip | finance_project/tracker/resources.py:6-10 | a date written by the Date column parses back to the same date |
| Resources.FormatDateInjective | finance_project/tracker/resources.py:6-10 | distinct valid dates are written as distinct Date cells |
| Resources.UnpaddedDateColumn | finance_project/tracker/resources.py:9 | every valid date written with unpadded day and month (as in "1-2-2024") reads back as that date |
| Resources.TypeColumnIdentifiesKind | finance_project/tracker/resources.py:62-63 | two transactions have the same Type cell exactly when they have the same type |
| Resources.TypeColumnIsNotAKey | finance_project/tracker/resources.py:62-63 | the Type cell is a display label and is not a stored type key |
| Text.GroupedDecimalRoundTrip | finance_project/tracker/resources.py:65-66 | the `,.2f` text of an amount reads back to the amount |
| Text.GroupThousandsValue | finance_project/tracker/resources.py:66 | removing the thousands separators leaves the digits of the number |
| Text.GroupThousandsShape | finance_project/tracker/resources.py:66 | the grouped text is a first group of one to three digits, with no leading zero unless the number is 0, followed by groups of exactly three digits |
| Resources.AmountColumnRoundTrip | finance_project/tracker/resources.py:65-66 | the Amount cell ("€ " then the grouped amount) reads back to the exact amount in cents |
| Resources.IncomeOf | finance_project/tracker/resources.py:68-70 | the accessor yields an Income row linked to the transaction, or there is none |
| Resources.ExpenseOf | finance_project/tracker/resources.py:73-75 | the accessor yields an Expense row linked to the transaction, or there is none |
| Resources.IncomeCategoryColumn | finance_project/tracker/resources.py:68-71 | for a stored transaction with a linked Income row, the cell is that row's capitalized category if the type is income and "" otherwise |
| Resources.ExpenseColumns | finance_project/tracker/resources.py:73-86 | for a stored transaction with a linked Expense row, the three expense cells are its capitalized category, source and fixed_or_variable if the type is expense, and all "" otherwise |
| Resources.ExportRow | finance_project/tracker/resources.py:35-48 | export succeeds exactly when an income has its Income row and an expense its Expense row; the row then has exactly the ten columns, each holding its widget's or `dehydrate_*` method's text |
| Resources.CleanAccountCell | finance_project/tracker/resources.py:21-30 | an empty cell is accepted as no account; a named cell resolves, to that name, exactly when one account carries the name |
| Resources.RowKey | finance_project/tracker/resources.py:49-60 | a key exists exactly when all ten columns are present, the date cell parses and both account cells resolve; it holds the parsed date and the nine other cells |
| Resources.RowKeyIffSameRow | finance_project/tracker/resources.py:49-60 | two rows with written dates have the same key exactly when they are the same row |
| Resources.ExportedRowHasKey | finance_project/tracker/resources.py:21-60 | the row exported for a transaction whose accounts' names are unique always has a natural key |
| Resources.ExportedKeysEqualIffRowsEqual | finance_project/tracker/resources.py:35-60 | two such exported rows have equal natural keys exactly when the rows are equal |
| Resources.AfterInitInstance | finance_project/tracker/resources.py:32-33 | the new instance's user is the `user` keyword argument (None when absent) and nothing else changes |

## Left out

- I/O and the web layer: views, URLs, filters, the admin, settings and the management command are not part of this model.
- The ORM is an in-memory store. Queries, `save()` round trips, cascading deletes and database-level errors are not modelled.
- `User` has no fields of its own in the code, so users are plain identifiers.
- Time zones: date-times are stored and printed in UTC only. The `timezone.now` default is a parameter of the form data.
- Case mapping and digits are ASCII only. `str.capitalize` and `strptime` on non-ASCII text are not modelled.
- `Income.__str__`, `Expense.__str__`, `Tax.__str__` and `Account.__str__` only format text, and are not modelled. They use `get_category_display` and the local date text.
- `CharField.max_length` limits (name 100, type 10, categories 50) are not enforced in the model.
- `Resources.FormatDate`: years are zero-padded to four digits. Some platforms print years below 1000 without padding.
- `TrackerHelpers.UpdateAccountBalance` does not fail when a recomputed balance exceeds the 12 digits of `Account.balance`. The database would refuse that write; the model keeps the unbounded value.
- `Forms.Save` requires that the accounts its dispatch uses are set and exist. The code would pass `None` into `update_account_balance` and fail there.
- `Forms.Save` requires a user when committing. The code would hit the non-null constraint of `Transaction.user`.
- `Resources.CleanAccountCell` keeps an account by its name, which it checks is unique, rather than by the Account row. Lookups by a unique name identify the same row.
- `Resources.RowKey` stops at the natural key. How the import library turns the key into a database lookup is not modelled. That lookup would also meet three things the key does not show: the four category columns have no attribute (`finance_project/tracker/resources.py:16-19`); the Amount column holds formatted text; and the stored date is a date-time while the column holds a date. Creating or updating the instance, dry runs and error reporting are library code and are not modelled either.
- `Models.TransactionText` is the text of a transaction reloaded from the database, whose amount has two decimal places. An instance returned straight from the form prints the `Decimal` as cleaned (for example `5` rather than `5.00`), which the model does not capture.
- `Resources.AfterInitInstance` returns the updated instance rather than assigning `instance.user` in place.
- Tax rows are never written by the form. `Store.TaxLinked` only states that their foreign keys resolve.
