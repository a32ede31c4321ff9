/** Types shared by the store, the ledger and the service layer.

    No source file of this model defines `AccountType` or `Journal`:
    src/db.rs imports both from the ledger module, and src/ledger.rs imports
    `AccountType` from the store module. Here `AccountType` is a closed
    datatype of the thirteen account categories, each named as a derived
    `Debug` would print it. `Journal` is a narrative with its lines, which is
    what `batch_new_tx` reads of it. `JournalEntry` is the record of
    src/ledger.rs. */
module Types {

  datatype Option<T> = None | Some(value: T) {
    /** Rust's `unwrap_or` */
    function UnwrapOr(default: T): T {
      if Some? then value else default
    }
  }

  /** The closed set of account categories. */
  datatype AccountType =
    | Cash | CurrentAsset | CurrentLiability | Equity | DirectExpense
    | IndirectExpense | Inventory | NonCurrentAsset | NonCurrentLiability
    | OtherIncome | Prepayments | Revenue | System

  /** The variant name, as the derived `Debug` formatting prints it. */
  function TypeName(t: AccountType): (name: string)
    ensures |name| > 0
  {
    match t
    case Cash => "Cash"
    case CurrentAsset => "CurrentAsset"
    case CurrentLiability => "CurrentLiability"
    case Equity => "Equity"
    case DirectExpense => "DirectExpense"
    case IndirectExpense => "IndirectExpense"
    case Inventory => "Inventory"
    case NonCurrentAsset => "NonCurrentAsset"
    case NonCurrentLiability => "NonCurrentLiability"
    case OtherIncome => "OtherIncome"
    case Prepayments => "Prepayments"
    case Revenue => "Revenue"
    case System => "System"
  }

  /** One line of a journal: a signed amount in minor units against an account
      (positive = debit, negative = credit). */
  datatype JournalEntry = JournalEntry(account: int, amount: int)

  /** A journal as the posting operation receives it: a narrative and its lines. */
  datatype Journal = Journal(narrative: string, entries: seq<JournalEntry>)

  /** Errors the store reports; every one of them aborts the running statement. */
  datatype StoreError =
    | RowNotFound              // `fetch_one` found no row
    | ColumnDecode(column: string)  // a column declared non-null held NULL
    | UniqueViolation          // a PRIMARY KEY collision
    | ForeignKeyViolation      // a reference to a row that does not exist

  /** The outcome of an operation: a value, a store error returned through `?`,
      or a panic raised by an `unwrap`. A panic inside a transaction drops the
      transaction, so nothing it wrote is committed. */
  datatype Result<T> = Ok(value: T) | Err(error: StoreError) | Panicked
}
