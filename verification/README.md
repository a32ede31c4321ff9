# minibooks ledger core, modelled in Dafny

minibooks is a small double-entry bookkeeping server. Accounts have a type
(cash, current asset, revenue, ...). Money moves only through journals: a
journal is a narrative plus lines, each line a signed amount against an
account (positive = debit, negative = credit). Journals are posted in
batches. An account's balance is the sum of the amounts of its lines. The
HTTP services read account details, the account list and a balance sheet
from that store, and create accounts and journals.

This project models the store operations of `src/db.rs` and `src/settings.rs`,
the ledger layer of `src/ledger.rs` and the handlers of `src/services.rs`.
The modules are:

- `Types`: account types, journals, store errors and the `Result` type.
  A `Result` is `Ok`, `Err` (an error returned through `?`) or `Panicked` (an
  `unwrap` that failed).
- `Decimal`: Rust's decimal rendering of integers, `n.to_string()` and
  `format!("{:<08}", n)`, with a parser that reads it back.
- `Sqlite`: the store as a value (`Tables`) and SQLite's rowid rule.
  `Pool` is a class holding the committed tables. A `Transaction` copies them
  at `begin`, works on its own copy and publishes it at `commit`. Dropping a
  transaction, by an early `?` return or a panic, commits nothing.
- `Settings`: the keyed settings table, with its readers and
  `INSERT OR REPLACE` writers.
- `Db`: the queries, as functions of the tables. Account creation
  (`account_new_tx`) and batch posting (`batch_new_tx`) are methods on the
  pool with the loops of the original. Each is proved equal to a
  specification function (`CreateAccount`, `PostBatch`), and the lemmas state
  what those functions do:
  - both are all-or-nothing;
  - new rowids are fresh and consecutive;
  - the store's keys and references stay intact;
  - posting moves each balance by exactly the posted amounts.
- `Ledger`: the records the ledger builds from query rows, the pass-through
  creation operations, and the balance rule. The rule ("a journal's lines
  sum to zero") is defined and shown to keep the store's total when it
  holds. The program does not enforce it.
- `Services`: the handlers' responses as datatypes of strings, and the
  balance sheet's sections and totals.

The source does not compile as it stands. In each place below, the model takes
the evident intent:

- No source file defines `AccountType` or `Journal`. src/db.rs:21 imports
  both from `crate::ledger`, and src/ledger.rs:4 imports `AccountType` from
  `crate::db`. The model defines `AccountType` as a closed datatype of the
  thirteen account categories, each named as a derived `Debug` prints it.
  It defines `Journal` as a narrative plus lines, which is what
  `batch_new_tx` reads of it (src/db.rs:143-145).
- `ledger::account_new` (src/ledger.rs:52) calls `db::account_new`. Only
  `db::account_new_tx` exists with that signature, so it is modelled as
  calling that.
- `ledger::journal_new` (src/ledger.rs:64) calls `db::journal_new` with a pool
  and a list of lines. That matches no store function. It is modelled as a
  one-journal `batch_new_tx` whose returned ids are dropped.
- `services::journal_new` (src/services.rs:122) passes a `String` where
  `&Option<String>` is expected. It is modelled as passing `Some` of it.
- `ledger::AccountSummary` (src/ledger.rs:6-11) has no `account_type`, yet
  the balance sheet (src/services.rs:153-184) reads one. The model adds the
  field and copies it from the query row.
- `report_balance_sheet` renders with `state.tmpl` (src/services.rs:190), but
  `AppState` (src/main.rs:11-13) holds only the pool. Rendering is not part
  of the model.

## Model

| member | source | states |
|---|---|---|
| Decimal.Format | src/services.rs:29 | renders at least `width` characters: digits only for a non-negative number, otherwise a `-` followed by digits |
| Decimal.ParseFormat | src/services.rs:29-33 | every integer, rendered at any width, parses back to itself |
| Decimal.FormatExactWidth | src/services.rs:29 | a non-negative number with at most `width` digits renders in exactly `width` characters |
| Services.PadId | src/services.rs:29 | `{:<08}` of an id is at least eight characters and reads back as the id |
| Services.PadIdWidth | src/services.rs:29 | ids 0..99999999 render in exactly eight characters |
| Services.ToStringReadsBack | src/services.rs:31-33 | `to_string()` of any integer reads back as that integer |
| Decimal.ToString | src/services.rs:31-33 | `n.to_string()`: `Format` at width 0, so a `-` only for negatives and no padding; ToStringReadsBack states that it reads back |
| Types.TypeName | src/services.rs:30 | `format!("{:?}", account_type)`: the variant's name, never empty |
| Sqlite.NextRowIdFresh | src/db.rs:110-114 | the rowid given to an inserted row exceeds every rowid in its table, so it is new |
| Sqlite.NextRowIdAfterInsert | src/db.rs:110-114 | after an insert the next rowid is one more |
| Sqlite.NextRowIdAfterRange | src/db.rs:140-148 | inserting n rows, each numbered next, moves the next rowid on by n |
| Sqlite.DistinctAfterRange | src/db.rs:140-148 | rows numbered by SQLite keep the id column free of duplicates |
| Sqlite.Pool.constructor | src/db.rs:86 | a pool starts with the given committed tables |
| Sqlite.Transaction.Begin | src/db.rs:88 | a transaction starts from the pool's committed tables |
| Sqlite.Transaction.Commit | src/db.rs:105 | commit publishes the transaction's tables as the committed state |
| Settings.GetSettingsInt | src/settings.rs:3-11 | a missing row panics; otherwise the row's integer column, which may be NULL |
| Settings.GetSettingsStr | src/settings.rs:13-21 | a missing row panics; otherwise the row's string column, which may be NULL |
| Settings.SetSettingsInt | src/settings.rs:23-31 | the whole row for the name is replaced; the name reads back the value and no other name changes |
| Settings.SetSettingsStr | src/settings.rs:33-41 | the row for the name is replaced by one holding the value's decimal text |
| Settings.SetIntReplacesRow | src/settings.rs:23-31 | after an integer write the name reads back that integer and a NULL string; other names read as before |
| Settings.SetStrStoresDecimal | src/settings.rs:33-41 | after a string write the integer column reads NULL and the string parses back to the integer written |
| Db.Debits | src/db.rs:43 | the debit total is never negative |
| Db.Credits | src/db.rs:44 | the credit total is never negative |
| Db.DebitsMinusCredits | src/db.rs:42-50 | total debits minus total credits is the sum of the account's amounts |
| Db.UnusedAccountIsZero | src/db.rs:43-49 | an account no entry names has balance, debits and credits 0 (the IFNULL over the LEFT JOIN) |
| Db.BalanceAppend | src/db.rs:77-81 | the per-account SUM over two runs of entries is the sum of the two |
| Db.Balance | src/db.rs:77-81 | an account's `SUM(amount)` over its entries, 0 when it has none; DebitsMinusCredits, BalanceAppend, UnusedAccountIsZero and BalanceOfLines state its properties |
| Db.AccountListQuery | src/db.rs:72-84 | one result row per account row |
| Db.ListOneRowPerAccount | src/db.rs:72-84 | every account is listed exactly once and a non-account never; the row's balance is the sum of the account's entries, 0 when it has none |
| Db.FindAccount | src/db.rs:46-50 | finds a row with the id exactly when an account has that id |
| Db.SettingName | src/db.rs:89 | the name of the type's next-id setting, `nextAccount` followed by the variant's name; CreateWithCounter and CreateWithoutCounterPanics read and write it |
| Db.AccountDetailQuery | src/db.rs:40-53 | succeeds exactly for an existing account; otherwise the NULL name fails to decode. Total debits are the sum of the positive amounts and total credits the negated sum of the negative ones. Both are non-negative, and they differ by the balance. The name and type are the account's, and the timestamp is the query's |
| Db.UnusedAccountDetailIsZero | src/db.rs:43-49 | an existing account that no entry names has a detail with zero debits and zero credits |
| Db.InsertAccount | src/db.rs:96-101 | a taken id is a unique-key error and changes nothing; otherwise the account row is appended |
| Db.AccountNewTx | src/db.rs:86-107 | the result and the committed tables are those `CreateAccount` gives for the old committed tables |
| Db.CreateAccount | src/db.rs:86-107 | what `account_new_tx` returns and commits; CreateWithExplicitId, CreateWithCounter, CreateWithoutCounterPanics, SuccessiveAutoIdsDiffer and CreateAccountKeepsWellFormed state its promises |
| Db.CreateWithExplicitId | src/db.rs:90-101 | with an explicit id: success exactly when the id is free; the row is appended and the settings are untouched; a collision commits nothing |
| Db.CreateWithCounter | src/db.rs:92-104 | without an id, the type's counter n is the id. On success the row is appended and the counter's row is replaced by one holding n + 1. Every other setting row and every other table is unchanged. A collision commits nothing |
| Db.CreateWithoutCounterPanics | src/db.rs:92-94 | a missing or NULL counter is a panic and commits nothing |
| Db.SuccessiveAutoIdsDiffer | src/db.rs:102-104 | two automatic creations of one type get consecutive ids |
| Db.CreateAccountKeepsWellFormed | src/db.rs:96-104 | creating an account keeps every key column duplicate-free and every reference valid |
| Db.CreatedAccountHasZeroDetail | src/db.rs:40-107 | a new account's detail has its name and type, and zero debits and credits |
| Db.BatchNew | src/db.rs:109-115 | appends a batch row dated today and returns its rowid, the next rowid of the batch table |
| Db.JournalNew | src/db.rs:117-125 | fails with a foreign-key error, changing nothing, exactly when the batch does not exist; otherwise appends the journal row and returns its rowid |
| Db.JournalEntryNew | src/db.rs:127-136 | fails, changing nothing, exactly when the journal or the account does not exist; otherwise appends the entry row and returns its rowid |
| Db.JournalPostNew | src/db.rs:143-146 | succeeds exactly when every line names an existing account, and then returns the journal's id and leaves the tables `PostJournal` gives. On failure the journal row and the earlier lines stay in the transaction's copy and are dropped with it by `BatchNewTx` |
| Db.PostJournal | src/db.rs:143-147 | one journal row numbered next under the batch, then its lines numbered next, in order; PostedStep and PostJournalEntries state where they go |
| Db.PostJournals | src/db.rs:142-148 | posting journals one by one changes neither the accounts nor the batches |
| Db.BatchNewTx | src/db.rs:138-151 | the result and the committed tables are those `PostBatch` gives for the old committed tables |
| Db.PostBatch | src/db.rs:138-151 | what `batch_new_tx` returns and commits; PostBatchAllOrNothing, PostBatchFreshIds, PostBatchJournalRows, PostBatchEntryRows, PostBatchKeepsWellFormed and PostBatchBalance state its promises |
| Db.MissingAccountFails | src/db.rs:144-146 | one line naming a missing account makes the whole batch fail |
| Db.PostJournalsClosedForm | src/db.rs:141-148 | the loop hands out consecutive journal ids from the next rowid and leaves the tables `Posted` describes |
| Db.PostBatchAllOrNothing | src/db.rs:138-151 | a batch succeeds exactly when every line names an existing account; otherwise the error is returned and nothing is committed |
| Db.PostBatchFreshIds | src/db.rs:138-151 | on success the batch id is new, there is one new journal id per journal, each new and increasing in input order, and the old rows are kept in front |
| Db.PostBatchJournalRows | src/db.rs:141-148 | on success each input journal gets a row with its id, the batch id and its narrative, in input order |
| Db.EntryRowsLines | src/db.rs:142-146 | the stored entries carry exactly the input lines, account and amount, in input order |
| Db.EntryRowsAt | src/db.rs:142-146 | line k of journal j becomes the entry row after the lines of the earlier journals, with the next id in line, journal j's id, and the line's account and amount |
| Db.PostBatchEntryRows | src/db.rs:138-151 | on success line k of input journal j is stored after the old entries and the earlier journals' lines. It carries the next entry id in line, the journal id returned for journal j, and the line's account and amount |
| Db.PostBatchKeepsWellFormed | src/db.rs:138-151 | posting keeps every key column duplicate-free and every journal and entry reference valid |
| Db.BalanceOfLines | src/db.rs:77-81 | an account's balance is the sum of the amounts of the lines naming it |
| Db.PostBatchBalance | src/db.rs:138-151 | posting adds to every account's balance exactly the amounts the batch posts to it |
| Ledger.AccountList | src/ledger.rs:13-24 | one summary per account, carrying its id, name, type, the sum of its entries and the query's timestamp |
| Ledger.AccountDetailOf | src/ledger.rs:36-47 | passes the query's error on; otherwise echoes the id, passes name, type and totals through, and the balance is the sum of the account's entries |
| Ledger.DetailAgreesWithList | src/ledger.rs:13-47 | every listed account has a detail, with the same balance as its list row |
| Ledger.MissingAccountHasNoDetail | src/ledger.rs:36-37 | a missing account gives the store's decode error |
| Ledger.AccountNew | src/ledger.rs:49-53 | forwards to account creation: result and committed tables are `CreateAccount`'s |
| Ledger.AccountNewChecksNothing | src/ledger.rs:49-53 | any free id and a name of any length are stored as given |
| Ledger.JournalNew | src/ledger.rs:60-65 | result and committed tables are those of posting one journal whose narrative is the given one or "" |
| Ledger.PostJournal | src/ledger.rs:60-65 | `journal_new`'s result and tables: a one-journal batch with the narrative or "", ids dropped; PostJournalNarrative and UnbalancedJournalAccepted state its promises |
| Ledger.PostJournalNarrative | src/ledger.rs:60-65 | the journal is stored exactly when every line names an account, with the narrative or ""; otherwise nothing is stored |
| Ledger.LinesTotalConcat | src/ledger.rs:62 | the sum of two runs of lines is the sum of their sums |
| Ledger.BalancedLinesCancel | src/error.rs:7-8 | the lines of balanced journals sum to zero |
| Ledger.PostBatchMovesTotal | src/db.rs:138-151 | posting moves the total of all stored amounts by the total of the batch's lines |
| Ledger.BalancedBatchKeepsTotal | src/ledger.rs:62 | were the balance rule enforced, posting would keep the store's total unchanged |
| Ledger.UnbalancedJournalAccepted | src/ledger.rs:60-65 | as written, a one-line unbalanced journal is stored and moves the store's total |
| Services.AccountDetailHandler | src/services.rs:23-36 | panics exactly when the account is missing; otherwise the strings read back as the id, name, type name, debits, credits and balance of that account |
| Services.ListEntryReadsBack | src/services.rs:57-61 | a list entry reads back as the summary's id, name and balance |
| Services.AccountListResponseOf | src/services.rs:54-67 | one entry per summary in order, and the last summary's timestamp, or "" when there is none |
| Services.AccountListHandler | src/services.rs:51-68 | every account once, its strings reading back as its id, name and balance; the timestamp is "" when there are no accounts |
| Services.AccountNewHandler | src/services.rs:84-95 | the committed tables are those of account creation; a ledger error is a panic; the response names the created id, the name and the type name |
| Services.AccountNewResponseNamesStoredId | src/services.rs:89-91 | the id in the response reads back as the id of the stored row |
| Services.JournalNewHandler | src/services.rs:112-124 | the committed tables are those of posting the request as one journal; a ledger error is a panic |
| Services.EntriesOf | src/services.rs:115-121 | one journal line per request line, with its account and amount, in order; JournalNewStoresRequest states what is stored |
| Services.JournalNewStoresRequest | src/services.rs:112-124 | the request is stored exactly when every line names an account: one journal with its narrative or "" and one entry per line, with its account and amount, in order; otherwise nothing |
| Services.FilterAccounts | src/services.rs:126-133 | `filter_accounts_list`: the kept accounts in order; FilterAccountsMembers and FilterAccountsAppend state its promises |
| Services.FilterAccountsMembers | src/services.rs:126-133 | the filter keeps exactly the accounts the predicate accepts |
| Services.FilterAccountsAppend | src/services.rs:126-133 | the filter keeps relative order: filtering a concatenation concatenates the filtered parts |
| Services.SumFilterAccounts | src/services.rs:135-144 | `sum_filter_accounts_list`: the sum of the kept accounts' balances; SumFilterAccountsStep, SumFilterAccountsNone and SumFilterAccountsSplit state its promises |
| Services.SumFilterAccountsStep | src/services.rs:135-144 | each account adds its balance to the filtered sum when kept, and nothing otherwise |
| Services.SumFilterAccountsNone | src/services.rs:135-144 | the filtered sum is 0 when no account is kept |
| Services.SumFilterAccountsSplit | src/services.rs:135-144 | the sum over a disjoint union of two predicates is the sum of the two sums |
| Services.ReportBalanceSheet | src/services.rs:146-188 | panics exactly when the `entityName` row is missing or its string is NULL. Otherwise it returns that name and the sections and totals of the account list |
| Services.BalanceSheetOf | src/services.rs:153-188 | the sections and totals the balance sheet puts into its context; CurrentAssetsExcludeCash, TotalCurrentAssetsIncludesCash, NetAssetsAddLiabilities, BalanceSheetStep and OtherAccountsIgnored state its promises |
| Services.EntityNameWrittenAsIntPanics | src/services.rs:149 | an `entityName` last written by `set_settings_int` holds a NULL string, so the balance sheet panics |
| Services.CurrentAssetsExcludeCash | src/services.rs:153-167 | the cash section is exactly the cash accounts; the current-assets section is exactly the current-asset, inventory and prepayment accounts, never cash |
| Services.TotalCurrentAssetsIncludesCash | src/services.rs:156-177 | total current assets are total cash plus the listed current assets |
| Services.NetAssetsAddLiabilities | src/services.rs:179-188 | the liability total is the sum of the listed liabilities; net assets are cash plus current assets plus liabilities |
| Services.BalanceSheetStep | src/services.rs:153-188 | one more account joins exactly the sections and totals whose predicate keeps it |
| Services.OtherAccountsIgnored | src/services.rs:153-188 | accounts of any other type leave the balance sheet unchanged |

## Left out

- The database schema is not part of this model. The model assumes that
  `account.id` is the primary key, that the journal and entry references are
  enforced foreign keys, and that `settings.name` is the key `INSERT OR
  REPLACE` replaces by.
- I/O failures are not modelled: a lost connection, or a failed `begin`,
  `commit` or statement. Only constraint violations and decode failures are
  store errors.
- Concurrency is not modelled. Each operation runs alone on the committed
  state of the pool.
- The clock is a parameter. `CURRENT_TIMESTAMP` is `now` and `DATE('NOW')` is
  `today`.
- HTTP routing, JSON (de)serialisation, the Tera template rendering of the
  balance sheet, and `src/main.rs` are left out. The handlers are modelled
  from their inputs to their response values.
- `AccountType::from_str` (src/services.rs:88) is left out. `AccountNewHandler`
  receives the parsed type, so an unknown type name, which panics in the
  original, is not modelled.
- `src/error.rs` is not part of this model beyond the journal-balance rule
  its `JournalBalanceError` names (`Ledger.Balanced`).
- Db.Balance: amounts and sums are unbounded integers. The i64 overflow of
  SQLite's `SUM` and of Rust's `sum()` and `+` is not modelled.
- Db.AccountListQuery: the query has no ORDER BY. The model lists accounts
  in table order, which is one of the orders SQLite may return.
- Db.AccountDetailQuery: with the LEFT JOIN an account without entries yields
  one row with NULL sums, which IFNULL turns into 0. The model computes the
  totals directly and does not model the join.
- Settings.SetSettingsStr: the value bound is an i64 and the column is TEXT.
  The model stores its decimal text, the conversion SQLite applies for a
  TEXT-affinity column.
- Services.ReportBalanceSheet: the unwrapped entity name is kept as a field of
  the result. How the template renders it is not modelled.
