/** The relational store behind the ledger, as an abstract in-memory state.

    The database schema is not part of this model; the rows below carry the
    columns the queries and inserts of src/db.rs and src/settings.rs name, and
    the model assumes these keys and constraints:
    - `account.id` is the PRIMARY KEY (a colliding insert fails);
    - `batch`, `journal` and `entry` ids are rowids chosen by SQLite;
    - `journal.batch_id`, `entry.journal_id` and `entry.account_id` are
      foreign keys, which the connection enforces;
    - `settings.name` is the key that `INSERT OR REPLACE` replaces by.

    A `Pool` holds the committed state; a `Transaction` begins from it, works
    on its own copy of the tables and publishes that copy on commit. Dropping a
    transaction without committing (an early `?` return or a panic) leaves the
    pool as it was. */
module Sqlite {
  import opened Types

  datatype Account = Account(id: int, name: string, accountType: AccountType)
  datatype Batch = Batch(id: int, date: string)
  datatype JournalRow = JournalRow(id: int, batchId: int, narrative: string)
  datatype Entry = Entry(id: int, journalId: int, accountId: int, amount: int)
  datatype SettingRow = SettingRow(intValue: Option<int>, strValue: Option<string>)

  datatype Tables = Tables(
    accounts: seq<Account>,
    batches: seq<Batch>,
    journals: seq<JournalRow>,
    entries: seq<Entry>,
    settings: map<string, SettingRow>)

  function AccountIds(rows: seq<Account>): (ids: seq<int>)
    ensures |ids| == |rows|
  {
    seq(|rows|, i requires 0 <= i < |rows| => rows[i].id)
  }

  function BatchIds(rows: seq<Batch>): (ids: seq<int>)
    ensures |ids| == |rows|
  {
    seq(|rows|, i requires 0 <= i < |rows| => rows[i].id)
  }

  function JournalIds(rows: seq<JournalRow>): (ids: seq<int>)
    ensures |ids| == |rows|
  {
    seq(|rows|, i requires 0 <= i < |rows| => rows[i].id)
  }

  function EntryIds(rows: seq<Entry>): (ids: seq<int>)
    ensures |ids| == |rows|
  {
    seq(|rows|, i requires 0 <= i < |rows| => rows[i].id)
  }

  predicate HasAccount(accounts: seq<Account>, id: int) {
    id in AccountIds(accounts)
  }

  /** No value occurs twice: what a PRIMARY KEY guarantees of its column. */
  predicate Distinct(ids: seq<int>) {
    forall i, j :: 0 <= i < j < |ids| ==> ids[i] != ids[j]
  }

  function Occurrences(ids: seq<int>, x: int): (n: nat)
    ensures n <= |ids|
  {
    if ids == [] then 0
    else Occurrences(ids[..|ids| - 1], x) + (if ids[|ids| - 1] == x then 1 else 0)
  }

  /** In a key column every present value occurs exactly once. */
  lemma {:induction false} OccurrencesOfDistinct(ids: seq<int>, x: int)
    requires Distinct(ids)
    ensures Occurrences(ids, x) == if x in ids then 1 else 0
  {
    if ids != [] {
      var front := ids[..|ids| - 1];
      assert ids == front + [ids[|ids| - 1]];
      OccurrencesOfDistinct(front, x);
      if ids[|ids| - 1] == x {
        assert x !in front;
      }
    }
  }

  function MaxId(ids: seq<int>): (m: int)
    requires |ids| > 0
    ensures m in ids
    ensures forall i :: 0 <= i < |ids| ==> ids[i] <= m
  {
    if |ids| == 1 then ids[0]
    else
      var m := MaxId(ids[..|ids| - 1]);
      if ids[|ids| - 1] > m then ids[|ids| - 1] else m
  }

  /** The rowid SQLite gives an inserted row: one more than the largest rowid
      in the table, or 1 when the table is empty. */
  function NextRowId(ids: seq<int>): int {
    if |ids| == 0 then 1 else MaxId(ids) + 1
  }

  /** The next rowid is larger than every rowid in the table, so it is new. */
  lemma NextRowIdFresh(ids: seq<int>)
    ensures forall i :: 0 <= i < |ids| ==> ids[i] < NextRowId(ids)
    ensures NextRowId(ids) !in ids
  {
  }

  /** Inserting the row SQLite numbers next makes the following one one more. */
  lemma NextRowIdAfterInsert(ids: seq<int>)
    ensures NextRowId(ids + [NextRowId(ids)]) == NextRowId(ids) + 1
  {
    var x := NextRowId(ids);
    var w := ids + [x];
    assert w[..|w| - 1] == ids;
    if |ids| > 0 {
      assert MaxId(w) == x;
    }
  }

  /** Appending a row appends its id to the id column. */
  lemma AccountIdsAppend(rows: seq<Account>, row: Account)
    ensures AccountIds(rows + [row]) == AccountIds(rows) + [row.id]
  {
  }

  lemma BatchIdsAppend(rows: seq<Batch>, row: Batch)
    ensures BatchIds(rows + [row]) == BatchIds(rows) + [row.id]
  {
  }

  lemma JournalIdsAppend(rows: seq<JournalRow>, row: JournalRow)
    ensures JournalIds(rows + [row]) == JournalIds(rows) + [row.id]
  {
  }

  lemma EntryIdsAppend(rows: seq<Entry>, row: Entry)
    ensures EntryIds(rows + [row]) == EntryIds(rows) + [row.id]
  {
  }

  /** Concatenating rows concatenates their id columns. */
  lemma JournalIdsConcat(a: seq<JournalRow>, b: seq<JournalRow>)
    ensures JournalIds(a + b) == JournalIds(a) + JournalIds(b)
  {
  }

  lemma EntryIdsConcat(a: seq<Entry>, b: seq<Entry>)
    ensures EntryIds(a + b) == EntryIds(a) + EntryIds(b)
  {
  }

  /** `n` consecutive ids from `first`. */
  function IdRange(first: int, n: nat): (ids: seq<int>)
    ensures |ids| == n
  {
    seq(n, k requires 0 <= k < n => first + k)
  }

  /** `IdRange` grows by one id at its end. */
  lemma IdRangeStep(first: int, n: nat)
    ensures IdRange(first, n + 1) == IdRange(first, n) + [first + n]
  {
  }

  lemma IdRangeConcat(first: int, m: nat, n: nat)
    ensures IdRange(first, m) + IdRange(first + m, n) == IdRange(first, m + n)
  {
  }

  /** Inserting `n` rows, each numbered next by SQLite, moves the next rowid
      on by `n`. */
  lemma {:induction false} NextRowIdAfterRange(ids: seq<int>, n: nat)
    ensures NextRowId(ids + IdRange(NextRowId(ids), n)) == NextRowId(ids) + n
  {
    var first := NextRowId(ids);
    if n == 0 {
      assert ids + IdRange(first, 0) == ids;
    } else {
      NextRowIdAfterRange(ids, n - 1);
      var w := ids + IdRange(first, n - 1);
      IdRangeStep(first, n - 1);
      assert ids + IdRange(first, n) == w + [first + n - 1];
      NextRowIdAfterInsert(w);
    }
  }

  lemma InIdRange(first: int, n: nat, x: int)
    ensures x in IdRange(first, n) <==> first <= x < first + n
  {
    if first <= x < first + n {
      assert IdRange(first, n)[x - first] == x;
    }
  }

  /** A key column stays a key column when a new value is appended. */
  lemma DistinctAppend(ids: seq<int>, x: int)
    requires Distinct(ids) && x !in ids
    ensures Distinct(ids + [x])
  {
  }

  /** A key column stays a key column when rows numbered by SQLite are
      appended: each new rowid is larger than every earlier one. */
  lemma DistinctAfterRange(ids: seq<int>, n: nat)
    requires Distinct(ids)
    ensures Distinct(ids + IdRange(NextRowId(ids), n))
  {
    NextRowIdFresh(ids);
  }

  class Pool {
    /** The committed contents of the database. */
    var committed: Tables

    constructor (initial: Tables)
      ensures committed == initial
    {
      committed := initial;
    }
  }

  class Transaction {
    const pool: Pool
    /** The tables as this transaction sees them, including its own writes. */
    var tables: Tables

    /** `pool.begin()` */
    constructor Begin(pool: Pool)
      ensures this.pool == pool && tables == pool.committed
    {
      this.pool := pool;
      tables := pool.committed;
    }

    /** `transaction.commit()` */
    method Commit()
      modifies pool
      ensures pool.committed == tables
    {
      pool.committed := tables;
    }
  }
}
