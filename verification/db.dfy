/** The database operations of src/db.rs over the abstract store.

    The two read-only aggregations are functions of the tables. The two
    transactions, `account_new_tx` and `batch_new_tx`, are methods that begin
    a transaction on the pool, run their statements one by one and commit;
    each is proved against a function (`CreateAccount`, `PostBatch`) that
    gives its outcome and the committed state it leaves, and the lemmas at
    the end of the module state what those functions promise. */
module Db {
  import opened Types
  import opened Sqlite
  import Settings

  // ---------------------------------------------------------------------
  // Aggregations over the entry log
  // ---------------------------------------------------------------------

  /** SUM(amount) over the entries posted against `accountId`; 0 when there
      are none, as the IFNULL over the LEFT JOIN gives. */
  function Balance(entries: seq<Entry>, accountId: int): int {
    if entries == [] then 0
    else
      var last := entries[|entries| - 1];
      Balance(entries[..|entries| - 1], accountId) + (if last.accountId == accountId then last.amount else 0)
  }

  function PositivePart(amount: int): nat {
    if amount > 0 then amount else 0
  }

  function NegativePart(amount: int): (n: int)
    ensures n <= 0
  {
    if amount < 0 then amount else 0
  }

  /** IFNULL(SUM(max(amount, 0)), 0) over the account's entries. */
  function Debits(entries: seq<Entry>, accountId: int): (d: int)
    ensures d >= 0
  {
    if entries == [] then 0
    else
      var last := entries[|entries| - 1];
      Debits(entries[..|entries| - 1], accountId) + (if last.accountId == accountId then PositivePart(last.amount) else 0)
  }

  /** IFNULL(SUM(min(amount, 0)), 0) over the account's entries. */
  function NegativeSum(entries: seq<Entry>, accountId: int): (s: int)
    ensures s <= 0
  {
    if entries == [] then 0
    else
      var last := entries[|entries| - 1];
      NegativeSum(entries[..|entries| - 1], accountId) + (if last.accountId == accountId then NegativePart(last.amount) else 0)
  }

  /** The negated sum of the negative amounts: `... * -1 AS total_credits`. */
  function Credits(entries: seq<Entry>, accountId: int): (c: int)
    ensures c >= 0
  {
    NegativeSum(entries, accountId) * -1
  }

  /** Splitting every amount into its positive and negative part loses nothing:
      debits minus credits is the plain sum. */
  lemma {:induction false} DebitsMinusCredits(entries: seq<Entry>, accountId: int)
    ensures Debits(entries, accountId) - Credits(entries, accountId) == Balance(entries, accountId)
  {
    if entries != [] {
      DebitsMinusCredits(entries[..|entries| - 1], accountId);
    }
  }

  /** An account nothing was posted against has zero balance, debits and credits. */
  lemma {:induction false} UnusedAccountIsZero(entries: seq<Entry>, accountId: int)
    requires forall i :: 0 <= i < |entries| ==> entries[i].accountId != accountId
    ensures Balance(entries, accountId) == 0
    ensures Debits(entries, accountId) == 0 && Credits(entries, accountId) == 0
  {
    if entries != [] {
      UnusedAccountIsZero(entries[..|entries| - 1], accountId);
    }
  }

  lemma {:induction false} BalanceAppend(front: seq<Entry>, back: seq<Entry>, accountId: int)
    ensures Balance(front + back, accountId) == Balance(front, accountId) + Balance(back, accountId)
    decreases |back|
  {
    if back == [] {
      assert front + back == front;
    } else {
      var all := front + back;
      assert all[..|all| - 1] == front + back[..|back| - 1];
      BalanceAppend(front, back[..|back| - 1], accountId);
    }
  }

  /** One row of `account_list_query`. */
  datatype AccountSummaryResult = AccountSummaryResult(
    accountId: int, accountName: string, accountType: AccountType, balance: int, timestamp: string)

  /** `account_list_query`: one row per account row, with the sum of its
      entries. The query has no ORDER BY; the model lists the rows in table
      order. `now` is the value of CURRENT_TIMESTAMP for this query. */
  function AccountListQuery(t: Tables, now: string): (rows: seq<AccountSummaryResult>)
    ensures |rows| == |t.accounts|
  {
    seq(|t.accounts|, i requires 0 <= i < |t.accounts| =>
      var a := t.accounts[i];
      AccountSummaryResult(a.id, a.name, a.accountType, Balance(t.entries, a.id), now))
  }

  function ResultIds(rows: seq<AccountSummaryResult>): (ids: seq<int>)
    ensures |ids| == |rows|
  {
    seq(|rows|, i requires 0 <= i < |rows| => rows[i].accountId)
  }

  /** The listing has exactly one row for each account, and none for an id
      that is not an account; an account without entries is listed with 0. */
  lemma ListOneRowPerAccount(t: Tables, now: string, id: int)
    requires Distinct(AccountIds(t.accounts))
    ensures Occurrences(ResultIds(AccountListQuery(t, now)), id) == if HasAccount(t.accounts, id) then 1 else 0
    ensures forall i :: 0 <= i < |t.accounts| && t.accounts[i].id == id ==>
      AccountListQuery(t, now)[i].balance == Balance(t.entries, id)
    ensures HasAccount(t.accounts, id) && (forall k :: 0 <= k < |t.entries| ==> t.entries[k].accountId != id) ==>
      forall i :: 0 <= i < |t.accounts| && t.accounts[i].id == id ==> AccountListQuery(t, now)[i].balance == 0
  {
    assert ResultIds(AccountListQuery(t, now)) == AccountIds(t.accounts);
    OccurrencesOfDistinct(AccountIds(t.accounts), id);
    if forall k :: 0 <= k < |t.entries| ==> t.entries[k].accountId != id {
      UnusedAccountIsZero(t.entries, id);
    }
  }

  /** The result of `account_detail_query`. */
  datatype AccountDetailResult = AccountDetailResult(
    accountName: string, accountType: AccountType, totalDebits: int, totalCredits: int, timestamp: string)

  function FindAccount(accounts: seq<Account>, id: int): (r: Option<Account>)
    ensures r.Some? <==> HasAccount(accounts, id)
    ensures r.Some? ==> r.value in accounts && r.value.id == id
  {
    if accounts == [] then None
    else if accounts[0].id == id then
      assert AccountIds(accounts)[0] == id;
      Some(accounts[0])
    else
      assert AccountIds(accounts) == [accounts[0].id] + AccountIds(accounts[1..]);
      FindAccount(accounts[1..], id)
  }

  /** `account_detail_query`. The aggregate without GROUP BY always yields one
      row; when no account has the id its name is NULL, and decoding that NULL
      into the non-null `account_name` fails. So a missing account is an
      error, never a zeroed record. */
  function AccountDetailQuery(t: Tables, accountId: int, now: string): (r: Result<AccountDetailResult>)
    ensures r.Ok? <==> HasAccount(t.accounts, accountId)
    ensures !r.Ok? ==> r == Err(ColumnDecode("account_name"))
    ensures r.Ok? ==>
      && r.value.totalDebits == Debits(t.entries, accountId)
      && r.value.totalCredits == Credits(t.entries, accountId)
      && r.value.timestamp == now
    ensures r.Ok? ==> r.value.totalDebits >= 0 && r.value.totalCredits >= 0
    ensures r.Ok? ==> r.value.totalDebits - r.value.totalCredits == Balance(t.entries, accountId)
    ensures r.Ok? ==>
      exists a :: a in t.accounts && a.id == accountId && a.name == r.value.accountName && a.accountType == r.value.accountType
  {
    match FindAccount(t.accounts, accountId)
    case None => Err(ColumnDecode("account_name"))
    case Some(a) =>
      DebitsMinusCredits(t.entries, accountId);
      Ok(AccountDetailResult(a.name, a.accountType, Debits(t.entries, accountId), Credits(t.entries, accountId), now))
  }

  /** An account no entry names has a detail with zero debits and credits:
      the IFNULL over the empty LEFT JOIN. */
  lemma UnusedAccountDetailIsZero(t: Tables, accountId: int, now: string)
    requires HasAccount(t.accounts, accountId)
    requires forall k :: 0 <= k < |t.entries| ==> t.entries[k].accountId != accountId
    ensures var r := AccountDetailQuery(t, accountId, now);
      r.Ok? && r.value.totalDebits == 0 && r.value.totalCredits == 0
  {
    UnusedAccountIsZero(t.entries, accountId);
  }

  // ---------------------------------------------------------------------
  // Account creation
  // ---------------------------------------------------------------------

  /** `format!("nextAccount{account_type:?}")`: the setting that holds the
      next id for accounts of this type. */
  function SettingName(accountType: AccountType): string {
    "nextAccount" + TypeName(accountType)
  }

  /** What `account_new_tx` returns and the committed tables it leaves. With
      an explicit id that id is inserted as given; without one the current
      value of the type's counter is used and the counter is set one higher.
      A missing counter row or a NULL counter is a panic; an id already
      taken is a unique-key error. Anything but success commits nothing. */
  function CreateAccount(t: Tables, accountId: Option<int>, name: string, accountType: AccountType): (Result<int>, Tables) {
    var key := SettingName(accountType);
    if accountId.None? && (key !in t.settings || t.settings[key].intValue.None?) then (Panicked, t)
    else
      var id := if accountId.Some? then accountId.value else t.settings[key].intValue.value;
      if HasAccount(t.accounts, id) then (Err(UniqueViolation), t)
      else
        var inserted := t.(accounts := t.accounts + [Account(id, name, accountType)]);
        if accountId.Some? then (Ok(id), inserted)
        else (Ok(id), inserted.(settings := t.settings[key := Settings.IntRow(id + 1)]))
  }

  /** `INSERT INTO account (id, name, type) VALUES (?, ?, ?)` */
  method InsertAccount(e: Transaction, id: int, name: string, accountType: AccountType) returns (r: Result<()>)
    modifies e
    ensures HasAccount(old(e.tables.accounts), id) ==> r == Err(UniqueViolation) && e.tables == old(e.tables)
    ensures !HasAccount(old(e.tables.accounts), id) ==>
      r == Ok(()) && e.tables == old(e.tables).(accounts := old(e.tables.accounts) + [Account(id, name, accountType)])
  {
    if HasAccount(e.tables.accounts, id) {
      return Err(UniqueViolation);
    }
    e.tables := e.tables.(accounts := e.tables.accounts + [Account(id, name, accountType)]);
    r := Ok(());
  }

  /** `account_new_tx` */
  method AccountNewTx(db: Pool, accountId: Option<int>, accountName: string, accountType: AccountType)
    returns (r: Result<int>)
    modifies db
    ensures (r, db.committed) == CreateAccount(old(db.committed), accountId, accountName, accountType)
  {
    var tx := new Transaction.Begin(db);
    var key := SettingName(accountType);
    var thisId: int;
    match accountId {
      case Some(id) =>
        thisId := id;
      case None =>
        var next := Settings.GetSettingsInt(tx.tables.settings, key);
        if !next.Ok? || next.value.None? {
          // the unwrap inside get_settings_int (no row) or the one here (NULL value)
          return Panicked;
        }
        thisId := next.value.value;
    }
    var inserted := InsertAccount(tx, thisId, accountName, accountType);
    if inserted.Err? {
      return Err(inserted.error);
    }
    if accountId.None? {
      Settings.SetSettingsInt(tx, key, thisId + 1);
    }
    tx.Commit();
    r := Ok(thisId);
  }

  // ---------------------------------------------------------------------
  // Batch posting
  // ---------------------------------------------------------------------

  /** `batch_new`: insert a batch dated `today` (the value of DATE('NOW'))
      and return its rowid. */
  method BatchNew(e: Transaction, today: string) returns (r: Result<int>)
    modifies e
    ensures r == Ok(NextRowId(BatchIds(old(e.tables.batches))))
    ensures e.tables == old(e.tables).(batches := old(e.tables.batches) + [Batch(r.value, today)])
    ensures r.value in BatchIds(e.tables.batches)
  {
    var id := NextRowId(BatchIds(e.tables.batches));
    BatchIdsAppend(e.tables.batches, Batch(id, today));
    e.tables := e.tables.(batches := e.tables.batches + [Batch(id, today)]);
    r := Ok(id);
  }

  /** `journal_new`: insert a journal of batch `batchId` and return its rowid. */
  method JournalNew(e: Transaction, batchId: int, narrative: string) returns (r: Result<int>)
    modifies e
    ensures r.Ok? <==> batchId in BatchIds(old(e.tables.batches))
    ensures !r.Ok? ==> r == Err(ForeignKeyViolation) && e.tables == old(e.tables)
    ensures r.Ok? ==>
      r.value == NextRowId(JournalIds(old(e.tables.journals))) &&
      e.tables == old(e.tables).(journals := old(e.tables.journals) + [JournalRow(r.value, batchId, narrative)])
    ensures r.Ok? ==> r.value in JournalIds(e.tables.journals)
  {
    if batchId !in BatchIds(e.tables.batches) {
      return Err(ForeignKeyViolation);
    }
    var id := NextRowId(JournalIds(e.tables.journals));
    JournalIdsAppend(e.tables.journals, JournalRow(id, batchId, narrative));
    e.tables := e.tables.(journals := e.tables.journals + [JournalRow(id, batchId, narrative)]);
    r := Ok(id);
  }

  /** `journal_entry_new`: insert one entry of journal `journalId` and return its rowid. */
  method JournalEntryNew(e: Transaction, journalId: int, accountId: int, amount: int) returns (r: Result<int>)
    modifies e
    ensures r.Ok? <==> journalId in JournalIds(old(e.tables.journals)) && HasAccount(old(e.tables.accounts), accountId)
    ensures !r.Ok? ==> r == Err(ForeignKeyViolation) && e.tables == old(e.tables)
    ensures r.Ok? ==>
      r.value == NextRowId(EntryIds(old(e.tables.entries))) &&
      e.tables == old(e.tables).(entries := old(e.tables.entries) + [Entry(r.value, journalId, accountId, amount)])
  {
    if !(journalId in JournalIds(e.tables.journals) && HasAccount(e.tables.accounts, accountId)) {
      return Err(ForeignKeyViolation);
    }
    var id := NextRowId(EntryIds(e.tables.entries));
    e.tables := e.tables.(entries := e.tables.entries + [Entry(id, journalId, accountId, amount)]);
    r := Ok(id);
  }

  /** The journal rows a batch writes, numbered from `firstId`. */
  function JournalRows(journals: seq<Journal>, batchId: int, firstId: int): (rows: seq<JournalRow>)
    ensures |rows| == |journals|
  {
    seq(|journals|, k requires 0 <= k < |journals| => JournalRow(firstId + k, batchId, journals[k].narrative))
  }

  /** The entry rows one journal writes, numbered from `firstId`, in input order. */
  function EntryRowsOf(lines: seq<JournalEntry>, journalId: int, firstId: int): (rows: seq<Entry>)
    ensures |rows| == |lines|
  {
    seq(|lines|, k requires 0 <= k < |lines| => Entry(firstId + k, journalId, lines[k].account, lines[k].amount))
  }

  /** How many entry lines the journals hold in all. */
  function EntryCount(journals: seq<Journal>): nat {
    if journals == [] then 0
    else EntryCount(journals[..|journals| - 1]) + |journals[|journals| - 1].entries|
  }

  /** The entry rows a batch writes: each journal's lines in turn, numbered
      consecutively from `firstEntryId`. */
  function EntryRows(journals: seq<Journal>, firstJournalId: int, firstEntryId: int): (rows: seq<Entry>)
    ensures |rows| == EntryCount(journals)
  {
    if journals == [] then []
    else
      var n := |journals| - 1;
      EntryRows(journals[..n], firstJournalId, firstEntryId)
        + EntryRowsOf(journals[n].entries, firstJournalId + n, firstEntryId + EntryCount(journals[..n]))
  }

  /** Every line names an existing account. */
  predicate LinesReferenceAccounts(accounts: seq<Account>, lines: seq<JournalEntry>) {
    forall k :: 0 <= k < |lines| ==> HasAccount(accounts, lines[k].account)
  }

  /** Every line of every journal names an existing account. */
  predicate EntriesReferenceAccounts(accounts: seq<Account>, journals: seq<Journal>) {
    forall j :: 0 <= j < |journals| ==> LinesReferenceAccounts(accounts, journals[j].entries)
  }

  /** The tables after the journals of a batch and their lines are appended
      to `t`: journal rows numbered from the next journal rowid, then each
      journal's entry rows in turn, numbered from the next entry rowid. */
  function Posted(t: Tables, batchId: int, journals: seq<Journal>): Tables {
    var firstJournalId := NextRowId(JournalIds(t.journals));
    t.(journals := t.journals + JournalRows(journals, batchId, firstJournalId),
       entries := t.entries + EntryRows(journals, firstJournalId, NextRowId(EntryIds(t.entries))))
  }

  /** What `batch_new_tx` returns and the committed tables it leaves. The only
      statement that can fail is an entry insert naming a missing account;
      then nothing is committed. Otherwise one batch, one journal per input
      journal and one entry per input line are appended, in input order, and
      the journal ids are returned in input order. */
  function PostBatch(t: Tables, journals: seq<Journal>, today: string): (Result<(int, seq<int>)>, Tables) {
    if !EntriesReferenceAccounts(t.accounts, journals) then (Err(ForeignKeyViolation), t)
    else
      var batchId := NextRowId(BatchIds(t.batches));
      (Ok((batchId, IdRange(NextRowId(JournalIds(t.journals)), |journals|))),
       Posted(t.(batches := t.batches + [Batch(batchId, today)]), batchId, journals))
  }

  /** The journal id and the tables after one pass of the loop body of
      `batch_new_tx`: a journal row, then its lines, each numbered next. */
  function PostJournal(t: Tables, batchId: int, journal: Journal): (int, Tables) {
    var journalId := NextRowId(JournalIds(t.journals));
    (journalId,
     t.(journals := t.journals + [JournalRow(journalId, batchId, journal.narrative)],
        entries := t.entries + EntryRowsOf(journal.entries, journalId, NextRowId(EntryIds(t.entries)))))
  }

  /** The journal loop of `batch_new_tx` run over `journals`, one
      `PostJournal` at a time, collecting the journal ids. */
  function PostJournals(t: Tables, batchId: int, journals: seq<Journal>): (r: (seq<int>, Tables))
    ensures r.1.accounts == t.accounts && r.1.batches == t.batches
  {
    if journals == [] then ([], t)
    else
      var prefix := PostJournals(t, batchId, journals[..|journals| - 1]);
      var step := PostJournal(prefix.1, batchId, journals[|journals| - 1]);
      (prefix.0 + [step.0], step.1)
  }

  /** `batch_new_tx` */
  method BatchNewTx(db: Pool, journals: seq<Journal>, today: string) returns (r: Result<(int, seq<int>)>)
    modifies db
    ensures (r, db.committed) == PostBatch(old(db.committed), journals, today)
  {
    var tx := new Transaction.Begin(db);
    ghost var t := db.committed;
    var b := BatchNew(tx, today);
    var batchId := b.value;
    ghost var t1 := tx.tables;
    var journalIds: seq<int> := [];
    for i := 0 to |journals|
      modifies tx
      invariant (journalIds, tx.tables) == PostJournals(t1, batchId, journals[..i])
      invariant EntriesReferenceAccounts(t.accounts, journals[..i])
    {
      var jr := JournalPostNew(tx, batchId, journals[i]);
      if jr.Err? {
        // `?` returns before the commit: the transaction is dropped.
        MissingAccountFails(t.accounts, journals, i);
        return Err(jr.error);
      }
      journalIds := journalIds + [jr.value];
      assert journals[..i + 1][..i] == journals[..i];
      EntriesReferenceAccountsStep(t.accounts, journals, i);
    }
    assert journals[..|journals|] == journals;
    PostJournalsClosedForm(t1, batchId, journals);
    tx.Commit();
    r := Ok((batchId, journalIds));
  }

  /** One pass of the loop body of `batch_new_tx`: `journal_new`, then the
      inner loop inserting the journal's lines in order, stopping at the first
      insert that fails. */
  method JournalPostNew(tx: Transaction, batchId: int, journal: Journal) returns (r: Result<int>)
    requires batchId in BatchIds(tx.tables.batches)
    modifies tx
    ensures r.Ok? <==> LinesReferenceAccounts(old(tx.tables.accounts), journal.entries)
    ensures !r.Ok? ==> r == Err(ForeignKeyViolation)
    ensures r.Ok? ==> (r.value, tx.tables) == PostJournal(old(tx.tables), batchId, journal)
  {
    var jr := JournalNew(tx, batchId, journal.narrative);
    var journalId := jr.value;
    ghost var t := tx.tables;
    ghost var firstId := NextRowId(EntryIds(t.entries));
    var lines := journal.entries;
    for m := 0 to |lines|
      invariant tx.tables.accounts == t.accounts && tx.tables.settings == t.settings
      invariant tx.tables.batches == t.batches && tx.tables.journals == t.journals
      invariant tx.tables.entries == t.entries + EntryRowsOf(lines[..m], journalId, firstId)
      invariant NextRowId(EntryIds(tx.tables.entries)) == firstId + m
      invariant LinesReferenceAccounts(t.accounts, lines[..m])
    {
      var line := lines[m];
      ghost var before := tx.tables.entries;
      var er := JournalEntryNew(tx, journalId, line.account, line.amount);
      if er.Err? {
        return Err(er.error);
      }
      EntryAppended(t.entries, before, lines, m, journalId, firstId);
      LinesReferenceAccountsStep(t.accounts, lines, m);
    }
    assert lines[..|lines|] == lines;
    r := Ok(journalId);
  }

  /** A journal naming a missing account fails the whole batch. */
  lemma MissingAccountFails(accounts: seq<Account>, journals: seq<Journal>, i: nat)
    requires i < |journals| && !LinesReferenceAccounts(accounts, journals[i].entries)
    ensures !EntriesReferenceAccounts(accounts, journals)
  {
  }

  /** One step of the loop of `BatchNewTx` on the journals checked so far. */
  lemma EntriesReferenceAccountsStep(accounts: seq<Account>, journals: seq<Journal>, i: nat)
    requires i < |journals|
    requires EntriesReferenceAccounts(accounts, journals[..i])
    requires LinesReferenceAccounts(accounts, journals[i].entries)
    ensures EntriesReferenceAccounts(accounts, journals[..i + 1])
  {
    assert forall j :: 0 <= j < i ==> journals[..i + 1][j] == journals[..i][j];
  }

  /** One step of the inner loop of `JournalPostNew` on the lines checked so far. */
  lemma LinesReferenceAccountsStep(accounts: seq<Account>, lines: seq<JournalEntry>, m: nat)
    requires m < |lines|
    requires LinesReferenceAccounts(accounts, lines[..m]) && HasAccount(accounts, lines[m].account)
    ensures LinesReferenceAccounts(accounts, lines[..m + 1])
  {
    assert forall k :: 0 <= k < m ==> lines[..m + 1][k] == lines[..m][k];
  }

  lemma AppendAssoc<T>(a: seq<T>, b: seq<T>, c: seq<T>)
    ensures (a + b) + c == a + (b + c)
  {
  }

  /** `EntryRowsOf` over one line more. */
  lemma EntryRowsOfStep(lines: seq<JournalEntry>, m: nat, journalId: int, firstId: int)
    requires m < |lines|
    ensures EntryRowsOf(lines[..m + 1], journalId, firstId)
      == EntryRowsOf(lines[..m], journalId, firstId) + [Entry(firstId + m, journalId, lines[m].account, lines[m].amount)]
  {
  }

  /** `JournalRows` over one journal more. */
  lemma JournalRowsSnoc(front: seq<Journal>, journal: Journal, batchId: int, firstId: int)
    ensures JournalRows(front + [journal], batchId, firstId)
      == JournalRows(front, batchId, firstId) + [JournalRow(firstId + |front|, batchId, journal.narrative)]
  {
  }

  /** `EntryRows` over one journal more. */
  lemma EntryRowsSnoc(front: seq<Journal>, journal: Journal, firstJournalId: int, firstEntryId: int)
    ensures EntryRows(front + [journal], firstJournalId, firstEntryId)
      == EntryRows(front, firstJournalId, firstEntryId)
         + EntryRowsOf(journal.entries, firstJournalId + |front|, firstEntryId + EntryCount(front))
  {
    assert (front + [journal])[..|front|] == front;
  }

  /** One step of the inner loop of `JournalPostNew` on the entry table. */
  lemma EntryAppended(rows: seq<Entry>, before: seq<Entry>, lines: seq<JournalEntry>, m: nat, journalId: int, firstId: int)
    requires m < |lines|
    requires before == rows + EntryRowsOf(lines[..m], journalId, firstId)
    requires NextRowId(EntryIds(before)) == firstId + m
    ensures var row := Entry(firstId + m, journalId, lines[m].account, lines[m].amount);
      && NextRowId(EntryIds(before + [row])) == firstId + m + 1
      && before + [row] == rows + EntryRowsOf(lines[..m + 1], journalId, firstId)
  {
    var row := Entry(firstId + m, journalId, lines[m].account, lines[m].amount);
    EntryIdsAppend(before, row);
    NextRowIdAfterInsert(EntryIds(before));
    EntryRowsOfStep(lines, m, journalId, firstId);
    AppendAssoc(rows, EntryRowsOf(lines[..m], journalId, firstId), [row]);
  }

  /** The journal rows of a batch carry consecutive ids. */
  lemma JournalRowsIds(journals: seq<Journal>, batchId: int, firstId: int)
    ensures JournalIds(JournalRows(journals, batchId, firstId)) == IdRange(firstId, |journals|)
  {
  }

  /** The entry rows of one journal carry consecutive ids. */
  lemma EntryRowsOfIds(lines: seq<JournalEntry>, journalId: int, firstId: int)
    ensures EntryIds(EntryRowsOf(lines, journalId, firstId)) == IdRange(firstId, |lines|)
  {
  }

  /** The entry rows of a batch carry consecutive ids, across journals. */
  lemma {:induction false} EntryRowsIds(journals: seq<Journal>, firstJournalId: int, firstId: int)
    ensures EntryIds(EntryRows(journals, firstJournalId, firstId)) == IdRange(firstId, EntryCount(journals))
  {
    if journals != [] {
      var n := |journals| - 1;
      var count := EntryCount(journals[..n]);
      var front := EntryRows(journals[..n], firstJournalId, firstId);
      var lines := EntryRowsOf(journals[n].entries, firstJournalId + n, firstId + count);
      EntryRowsIds(journals[..n], firstJournalId, firstId);
      EntryRowsOfIds(journals[n].entries, firstJournalId + n, firstId + count);
      EntryIdsConcat(front, lines);
      IdRangeConcat(firstId, count, |journals[n].entries|);
    }
  }

  /** The next journal rowid after a batch's journal rows. */
  lemma JournalRowsNextId(rows: seq<JournalRow>, journals: seq<Journal>, batchId: int)
    ensures var firstId := NextRowId(JournalIds(rows));
      NextRowId(JournalIds(rows + JournalRows(journals, batchId, firstId))) == firstId + |journals|
  {
    var firstId := NextRowId(JournalIds(rows));
    JournalIdsConcat(rows, JournalRows(journals, batchId, firstId));
    JournalRowsIds(journals, batchId, firstId);
    NextRowIdAfterRange(JournalIds(rows), |journals|);
  }

  /** The next entry rowid after a batch's entry rows. */
  lemma EntryRowsNextId(rows: seq<Entry>, journals: seq<Journal>, firstJournalId: int)
    ensures var firstId := NextRowId(EntryIds(rows));
      NextRowId(EntryIds(rows + EntryRows(journals, firstJournalId, firstId))) == firstId + EntryCount(journals)
  {
    var firstId := NextRowId(EntryIds(rows));
    EntryIdsConcat(rows, EntryRows(journals, firstJournalId, firstId));
    EntryRowsIds(journals, firstJournalId, firstId);
    NextRowIdAfterRange(EntryIds(rows), EntryCount(journals));
  }

  /** Posting no journals changes nothing. */
  lemma PostedNothing(t: Tables, batchId: int)
    ensures Posted(t, batchId, []) == t
  {
    assert t.journals + JournalRows([], batchId, NextRowId(JournalIds(t.journals))) == t.journals;
    assert t.entries + EntryRows([], NextRowId(JournalIds(t.journals)), NextRowId(EntryIds(t.entries))) == t.entries;
  }

  /** One pass of the loop of `batch_new_tx` takes the tables for some
      journals to the tables for one journal more, and hands out the next id
      of the range. */
  lemma PostedStep(t: Tables, batchId: int, front: seq<Journal>, journal: Journal)
    ensures PostJournal(Posted(t, batchId, front), batchId, journal).0
      == NextRowId(JournalIds(t.journals)) + |front|
    ensures PostJournal(Posted(t, batchId, front), batchId, journal).1
      == Posted(t, batchId, front + [journal])
  {
    PostedJournalsStep(t, batchId, front, journal);
    PostedEntriesStep(t, batchId, front, journal);
  }

  /** `PostedStep` on the journal table. */
  lemma PostedJournalsStep(t: Tables, batchId: int, front: seq<Journal>, journal: Journal)
    ensures var step := PostJournal(Posted(t, batchId, front), batchId, journal);
      && step.0 == NextRowId(JournalIds(t.journals)) + |front|
      && step.1.journals == Posted(t, batchId, front + [journal]).journals
  {
    var firstJournalId := NextRowId(JournalIds(t.journals));
    var rows := JournalRows(front, batchId, firstJournalId);
    JournalRowsNextId(t.journals, front, batchId);
    JournalRowsSnoc(front, journal, batchId, firstJournalId);
    AppendAssoc(t.journals, rows, [JournalRow(firstJournalId + |front|, batchId, journal.narrative)]);
  }

  /** `PostedStep` on the entry table. */
  lemma PostedEntriesStep(t: Tables, batchId: int, front: seq<Journal>, journal: Journal)
    ensures PostJournal(Posted(t, batchId, front), batchId, journal).1.entries
      == Posted(t, batchId, front + [journal]).entries
  {
    var firstJournalId := NextRowId(JournalIds(t.journals));
    var firstEntryId := NextRowId(EntryIds(t.entries));
    var mid := Posted(t, batchId, front);
    PostedEntries(t, batchId, front, firstJournalId, firstEntryId);
    JournalRowsNextId(t.journals, front, batchId);
    EntryRowsNextId(t.entries, front, firstJournalId);
    PostJournalEntries(mid, batchId, journal, firstJournalId + |front|, firstEntryId + EntryCount(front));
    EntriesAppended(t.entries, front, journal, firstJournalId, firstEntryId);
    PostedEntries(t, batchId, front + [journal], firstJournalId, firstEntryId);
  }

  /** The entry rows of one journal more, appended after those of `front`. */
  lemma EntriesAppended(entries: seq<Entry>, front: seq<Journal>, journal: Journal, firstJournalId: int, firstEntryId: int)
    ensures (entries + EntryRows(front, firstJournalId, firstEntryId))
        + EntryRowsOf(journal.entries, firstJournalId + |front|, firstEntryId + EntryCount(front))
      == entries + EntryRows(front + [journal], firstJournalId, firstEntryId)
  {
    var rows := EntryRows(front, firstJournalId, firstEntryId);
    var lines := EntryRowsOf(journal.entries, firstJournalId + |front|, firstEntryId + EntryCount(front));
    AppendAssoc(entries, rows, lines);
    EntryRowsSnoc(front, journal, firstJournalId, firstEntryId);
  }

  /** The entry table `Posted` leaves, given the first journal and entry rowids. */
  lemma PostedEntries(t: Tables, batchId: int, journals: seq<Journal>, firstJournalId: int, firstEntryId: int)
    requires NextRowId(JournalIds(t.journals)) == firstJournalId
    requires NextRowId(EntryIds(t.entries)) == firstEntryId
    ensures Posted(t, batchId, journals).entries == t.entries + EntryRows(journals, firstJournalId, firstEntryId)
  {
  }

  /** The entry rows one pass of the journal loop appends, given the next
      journal and entry rowids. */
  lemma PostJournalEntries(t: Tables, batchId: int, journal: Journal, journalId: int, entryId: int)
    requires NextRowId(JournalIds(t.journals)) == journalId
    requires NextRowId(EntryIds(t.entries)) == entryId
    ensures PostJournal(t, batchId, journal).1.entries == t.entries + EntryRowsOf(journal.entries, journalId, entryId)
  {
  }

  /** The journal loop of `batch_new_tx` has the closed form `Posted`, and
      hands out consecutive journal ids from the next rowid. */
  lemma {:induction false} PostJournalsClosedForm(t: Tables, batchId: int, journals: seq<Journal>)
    ensures PostJournals(t, batchId, journals).0 == IdRange(NextRowId(JournalIds(t.journals)), |journals|)
    ensures PostJournals(t, batchId, journals).1 == Posted(t, batchId, journals)
  {
    if journals == [] {
      PostedNothing(t, batchId);
    } else {
      var front := journals[..|journals| - 1];
      FrontAndLast(journals);
      PostJournalsClosedForm(t, batchId, front);
      PostJournalsClosedFormStep(t, batchId, front, journals[|journals| - 1]);
    }
  }

  /** The induction step of `PostJournalsClosedForm`. */
  lemma PostJournalsClosedFormStep(t: Tables, batchId: int, front: seq<Journal>, journal: Journal)
    requires PostJournals(t, batchId, front) == (IdRange(NextRowId(JournalIds(t.journals)), |front|), Posted(t, batchId, front))
    ensures PostJournals(t, batchId, front + [journal]).0 == IdRange(NextRowId(JournalIds(t.journals)), |front| + 1)
    ensures PostJournals(t, batchId, front + [journal]).1 == Posted(t, batchId, front + [journal])
  {
    var first := NextRowId(JournalIds(t.journals));
    var prefix := PostJournals(t, batchId, front);
    var step := PostJournal(Posted(t, batchId, front), batchId, journal);
    PostJournalsSnoc(t, batchId, front, journal);
    assert PostJournals(t, batchId, front + [journal]) == (prefix.0 + [step.0], step.1);
    PostedStep(t, batchId, front, journal);
    assert step.0 == first + |front|;
    assert prefix.0 == IdRange(first, |front|);
    IdRangeStep(first, |front|);
    assert prefix.0 + [step.0] == IdRange(first, |front| + 1);
  }

  /** The journal loop over one journal more. */
  lemma PostJournalsSnoc(t: Tables, batchId: int, front: seq<Journal>, journal: Journal)
    ensures var prefix := PostJournals(t, batchId, front);
      var step := PostJournal(prefix.1, batchId, journal);
      PostJournals(t, batchId, front + [journal]) == (prefix.0 + [step.0], step.1)
  {
    assert (front + [journal])[..|front|] == front;
  }

  lemma FrontAndLast<T>(s: seq<T>)
    requires |s| > 0
    ensures s[..|s| - 1] + [s[|s| - 1]] == s
  {
  }

  // ---------------------------------------------------------------------
  // What account creation promises
  // ---------------------------------------------------------------------

  /** With an explicit id, `account_new_tx` inserts exactly that id, leaves the
      type's counter alone, and on a collision commits nothing. */
  lemma CreateWithExplicitId(t: Tables, id: int, name: string, accountType: AccountType)
    ensures CreateAccount(t, Some(id), name, accountType).0.Ok? <==> !HasAccount(t.accounts, id)
    ensures HasAccount(t.accounts, id) ==> CreateAccount(t, Some(id), name, accountType) == (Err(UniqueViolation), t)
    ensures !HasAccount(t.accounts, id) ==>
      CreateAccount(t, Some(id), name, accountType) == (Ok(id), t.(accounts := t.accounts + [Account(id, name, accountType)]))
  {
  }

  /** Without an id, `account_new_tx` takes the current value `n` of the type's
      counter as the id and stores `n + 1` back; other settings and the other
      tables are untouched, and on a collision commits nothing. */
  lemma CreateWithCounter(t: Tables, name: string, accountType: AccountType, n: int)
    requires Settings.GetSettingsInt(t.settings, SettingName(accountType)) == Ok(Some(n))
    ensures CreateAccount(t, None, name, accountType).0.Ok? <==> !HasAccount(t.accounts, n)
    ensures HasAccount(t.accounts, n) ==> CreateAccount(t, None, name, accountType) == (Err(UniqueViolation), t)
    ensures !HasAccount(t.accounts, n) ==>
      var after := CreateAccount(t, None, name, accountType).1;
      && CreateAccount(t, None, name, accountType).0 == Ok(n)
      && after.accounts == t.accounts + [Account(n, name, accountType)]
      && after.settings == t.settings[SettingName(accountType) := Settings.IntRow(n + 1)]
      && Settings.GetSettingsInt(after.settings, SettingName(accountType)) == Ok(Some(n + 1))
      && (forall other :: other != SettingName(accountType) ==>
            Settings.GetSettingsInt(after.settings, other) == Settings.GetSettingsInt(t.settings, other))
      && after.batches == t.batches && after.journals == t.journals && after.entries == t.entries
  {
  }

  /** Without an id and without a usable counter (no row, or a NULL value),
      `account_new_tx` panics and commits nothing. */
  lemma CreateWithoutCounterPanics(t: Tables, name: string, accountType: AccountType)
    requires Settings.GetSettingsInt(t.settings, SettingName(accountType)) in {Panicked, Ok(None)}
    ensures CreateAccount(t, None, name, accountType) == (Panicked, t)
  {
  }

  /** Two automatic creations of the same type in a row hand out consecutive,
      hence different, ids. */
  lemma SuccessiveAutoIdsDiffer(t: Tables, name1: string, name2: string, accountType: AccountType)
    requires CreateAccount(t, None, name1, accountType).0.Ok?
    ensures var first := CreateAccount(t, None, name1, accountType);
      var second := CreateAccount(first.1, None, name2, accountType);
      second.0.Ok? ==> second.0.value == first.0.value + 1 && second.0.value != first.0.value
  {
  }

  // ---------------------------------------------------------------------
  // Keys and references the store keeps
  // ---------------------------------------------------------------------

  /** Every journal belongs to an existing batch. */
  predicate JournalsReferenceBatches(journals: seq<JournalRow>, batchIds: seq<int>) {
    forall j :: 0 <= j < |journals| ==> journals[j].batchId in batchIds
  }

  /** Every entry belongs to an existing journal and names an existing account. */
  predicate EntriesReferenceRows(entries: seq<Entry>, journalIds: seq<int>, accounts: seq<Account>) {
    forall k :: 0 <= k < |entries| ==> entries[k].journalId in journalIds && HasAccount(accounts, entries[k].accountId)
  }

  /** The primary keys and the foreign keys of the schema hold. */
  predicate WellFormed(t: Tables) {
    && Distinct(AccountIds(t.accounts))
    && Distinct(BatchIds(t.batches))
    && Distinct(JournalIds(t.journals))
    && Distinct(EntryIds(t.entries))
    && JournalsReferenceBatches(t.journals, BatchIds(t.batches))
    && EntriesReferenceRows(t.entries, JournalIds(t.journals), t.accounts)
  }

  /** References stay valid when the referenced tables only grow. */
  lemma EntriesReferenceMore(entries: seq<Entry>, journalIds: seq<int>, moreJournalIds: seq<int>,
                             accounts: seq<Account>, moreAccounts: seq<Account>)
    requires EntriesReferenceRows(entries, journalIds, accounts)
    requires forall x :: x in journalIds ==> x in moreJournalIds
    requires forall x :: HasAccount(accounts, x) ==> HasAccount(moreAccounts, x)
    ensures EntriesReferenceRows(entries, moreJournalIds, moreAccounts)
  {
  }

  lemma EntriesReferenceConcat(a: seq<Entry>, b: seq<Entry>, journalIds: seq<int>, accounts: seq<Account>)
    requires EntriesReferenceRows(a, journalIds, accounts) && EntriesReferenceRows(b, journalIds, accounts)
    ensures EntriesReferenceRows(a + b, journalIds, accounts)
  {
    assert forall k :: 0 <= k < |a| ==> (a + b)[k] == a[k];
    assert forall k :: |a| <= k < |a + b| ==> (a + b)[k] == b[k - |a|];
  }

  /** `account_new_tx` keeps the keys and references of the store. */
  lemma CreateAccountKeepsWellFormed(t: Tables, accountId: Option<int>, name: string, accountType: AccountType)
    requires WellFormed(t)
    ensures WellFormed(CreateAccount(t, accountId, name, accountType).1)
  {
    var after := CreateAccount(t, accountId, name, accountType).1;
    if after != t {
      var id := after.accounts[|t.accounts|].id;
      assert after.accounts == t.accounts + [Account(id, name, accountType)];
      AccountIdsAppend(t.accounts, Account(id, name, accountType));
      DistinctAppend(AccountIds(t.accounts), id);
      EntriesReferenceMore(t.entries, JournalIds(t.journals), JournalIds(t.journals), t.accounts, after.accounts);
    }
  }

  /** A created account is found by `account_detail_query`; in a well-formed
      store no entry names it yet, so its totals are zero. */
  lemma CreatedAccountHasZeroDetail(t: Tables, accountId: Option<int>, name: string, accountType: AccountType, now: string)
    requires WellFormed(t)
    requires CreateAccount(t, accountId, name, accountType).0.Ok?
    ensures var created := CreateAccount(t, accountId, name, accountType);
      AccountDetailQuery(created.1, created.0.value, now) == Ok(AccountDetailResult(name, accountType, 0, 0, now))
  {
    var created := CreateAccount(t, accountId, name, accountType);
    var id := created.0.value;
    AccountIdsAppend(t.accounts, Account(id, name, accountType));
    FindAccountAfterAppend(t.accounts, Account(id, name, accountType));
    assert forall k :: 0 <= k < |t.entries| ==> t.entries[k].accountId != id;
    UnusedAccountIsZero(t.entries, id);
  }

  /** Looking up the id of an appended account that was not there finds it. */
  lemma {:induction false} FindAccountAfterAppend(accounts: seq<Account>, a: Account)
    requires !HasAccount(accounts, a.id)
    ensures FindAccount(accounts + [a], a.id) == Some(a)
  {
    if accounts == [] {
      assert AccountIds([a])[0] == a.id;
    } else {
      assert AccountIds(accounts)[0] == accounts[0].id;
      assert (accounts + [a])[1..] == accounts[1..] + [a];
      assert AccountIds(accounts) == [accounts[0].id] + AccountIds(accounts[1..]);
      FindAccountAfterAppend(accounts[1..], a);
    }
  }

  // ---------------------------------------------------------------------
  // What batch posting promises
  // ---------------------------------------------------------------------

  /** A batch is all or nothing: it fails exactly when some line names a
      missing account, and then the committed tables are as before. */
  lemma PostBatchAllOrNothing(t: Tables, journals: seq<Journal>, today: string)
    ensures PostBatch(t, journals, today).0.Ok? <==>
      forall j, k :: 0 <= j < |journals| && 0 <= k < |journals[j].entries| ==> HasAccount(t.accounts, journals[j].entries[k].account)
    ensures !PostBatch(t, journals, today).0.Ok? ==> PostBatch(t, journals, today) == (Err(ForeignKeyViolation), t)
  {
  }

  /** On success the batch id and the journal ids are new, the journal ids
      are one per input journal and increase in input order, and the rows
      already in the tables are kept as they were, with the new ones after. */
  lemma PostBatchFreshIds(t: Tables, journals: seq<Journal>, today: string)
    requires PostBatch(t, journals, today).0.Ok?
    ensures var (r, after) := PostBatch(t, journals, today);
      var (batchId, journalIds) := r.value;
      && batchId !in BatchIds(t.batches)
      && |journalIds| == |journals|
      && (forall i :: 0 <= i < |journalIds| ==> journalIds[i] !in JournalIds(t.journals))
      && (forall i, j :: 0 <= i < j < |journalIds| ==> journalIds[i] < journalIds[j])
      && after.batches == t.batches + [Batch(batchId, today)]
      && after.journals[..|t.journals|] == t.journals
      && after.entries[..|t.entries|] == t.entries
      && after.accounts == t.accounts && after.settings == t.settings
  {
    NextRowIdFresh(BatchIds(t.batches));
    NextRowIdFresh(JournalIds(t.journals));
  }

  /** Each new journal row carries the batch id, its returned journal id and
      the input narrative, in input order. */
  lemma PostBatchJournalRows(t: Tables, journals: seq<Journal>, today: string)
    requires PostBatch(t, journals, today).0.Ok?
    ensures var (r, after) := PostBatch(t, journals, today);
      var (batchId, journalIds) := r.value;
      && |after.journals| == |t.journals| + |journals|
      && forall i :: 0 <= i < |journals| ==>
           after.journals[|t.journals| + i] == JournalRow(journalIds[i], batchId, journals[i].narrative)
  {
  }

  /** Line `k` of journal `j` becomes the entry row after the lines of the
      journals before it: numbered next in line, under journal `j`'s id, with
      the line's account and amount. */
  lemma {:induction false} EntryRowsAt(journals: seq<Journal>, firstJournalId: int, firstEntryId: int, j: nat, k: nat)
    requires j < |journals| && k < |journals[j].entries|
    ensures EntryCount(journals[..j]) + |journals[j].entries| <= EntryCount(journals)
    ensures EntryRows(journals, firstJournalId, firstEntryId)[EntryCount(journals[..j]) + k]
      == Entry(firstEntryId + EntryCount(journals[..j]) + k, firstJournalId + j,
               journals[j].entries[k].account, journals[j].entries[k].amount)
  {
    var n := |journals| - 1;
    var front := EntryRows(journals[..n], firstJournalId, firstEntryId);
    var last := EntryRowsOf(journals[n].entries, firstJournalId + n, firstEntryId + EntryCount(journals[..n]));
    assert EntryRows(journals, firstJournalId, firstEntryId) == front + last;
    if j < n {
      assert journals[..n][..j] == journals[..j];
      EntryRowsAt(journals[..n], firstJournalId, firstEntryId, j, k);
    }
  }

  /** On success the new journal ids form the range from the next journal
      rowid, and the new entry rows follow the old ones. */
  lemma PostBatchShape(t: Tables, journals: seq<Journal>, today: string)
    requires PostBatch(t, journals, today).0.Ok?
    ensures PostBatch(t, journals, today).0.value.1 == IdRange(NextRowId(JournalIds(t.journals)), |journals|)
    ensures PostBatch(t, journals, today).1.entries
      == t.entries + EntryRows(journals, NextRowId(JournalIds(t.journals)), NextRowId(EntryIds(t.entries)))
  {
  }

  /** On success every line of every input journal is stored, in input order,
      as an entry row numbered next in line under the id returned for its
      journal. */
  lemma PostBatchEntryRows(t: Tables, journals: seq<Journal>, today: string, j: nat, k: nat)
    requires PostBatch(t, journals, today).0.Ok?
    requires j < |journals| && k < |journals[j].entries|
    ensures var (r, after) := PostBatch(t, journals, today);
      var (batchId, journalIds) := r.value;
      var at := |t.entries| + EntryCount(journals[..j]) + k;
      && |after.entries| == |t.entries| + EntryCount(journals)
      && at < |after.entries|
      && after.entries[at] == Entry(NextRowId(EntryIds(t.entries)) + EntryCount(journals[..j]) + k, journalIds[j],
                                    journals[j].entries[k].account, journals[j].entries[k].amount)
  {
    var posted := PostBatch(t, journals, today);
    var firstJournalId := NextRowId(JournalIds(t.journals));
    var firstEntryId := NextRowId(EntryIds(t.entries));
    var newEntries := EntryRows(journals, firstJournalId, firstEntryId);
    PostBatchShape(t, journals, today);
    EntryRowsAt(journals, firstJournalId, firstEntryId, j, k);
    var at := EntryCount(journals[..j]) + k;
    assert posted.1.entries[|t.entries| + at] == newEntries[at];
  }


  /** All the lines of the journals, journal after journal. */
  function AllLines(journals: seq<Journal>): (lines: seq<JournalEntry>)
    ensures |lines| == EntryCount(journals)
  {
    if journals == [] then []
    else AllLines(journals[..|journals| - 1]) + journals[|journals| - 1].entries
  }

  /** The account and amount of each entry row. */
  function LinesOf(entries: seq<Entry>): (lines: seq<JournalEntry>)
    ensures |lines| == |entries|
  {
    seq(|entries|, k requires 0 <= k < |entries| => JournalEntry(entries[k].accountId, entries[k].amount))
  }

  lemma LinesOfConcat(a: seq<Entry>, b: seq<Entry>)
    ensures LinesOf(a + b) == LinesOf(a) + LinesOf(b)
  {
  }

  lemma LinesOfEntryRowsOf(lines: seq<JournalEntry>, journalId: int, firstId: int)
    ensures LinesOf(EntryRowsOf(lines, journalId, firstId)) == lines
  {
  }

  /** The entry rows of a batch hold every input line once, in input order. */
  lemma {:induction false} EntryRowsLines(journals: seq<Journal>, firstJournalId: int, firstEntryId: int)
    ensures LinesOf(EntryRows(journals, firstJournalId, firstEntryId)) == AllLines(journals)
  {
    if journals != [] {
      var n := |journals| - 1;
      var front := EntryRows(journals[..n], firstJournalId, firstEntryId);
      var last := EntryRowsOf(journals[n].entries, firstJournalId + n, firstEntryId + EntryCount(journals[..n]));
      EntryRowsLines(journals[..n], firstJournalId, firstEntryId);
      LinesOfConcat(front, last);
      LinesOfEntryRowsOf(journals[n].entries, firstJournalId + n, firstEntryId + EntryCount(journals[..n]));
    }
  }

  /** Each new entry row belongs to one of the batch's new journals and
      names an existing account. */
  lemma {:induction false} EntryRowsReference(journals: seq<Journal>, accounts: seq<Account>, firstJournalId: int, firstEntryId: int)
    requires EntriesReferenceAccounts(accounts, journals)
    ensures EntriesReferenceRows(EntryRows(journals, firstJournalId, firstEntryId), IdRange(firstJournalId, |journals|), accounts)
  {
    if journals != [] {
      var n := |journals| - 1;
      var front := EntryRows(journals[..n], firstJournalId, firstEntryId);
      var last := EntryRowsOf(journals[n].entries, firstJournalId + n, firstEntryId + EntryCount(journals[..n]));
      var ids := IdRange(firstJournalId, |journals|);
      assert EntriesReferenceAccounts(accounts, journals[..n]) by {
        assert forall j :: 0 <= j < n ==> journals[..n][j] == journals[j];
      }
      EntryRowsReference(journals[..n], accounts, firstJournalId, firstEntryId);
      assert forall x :: x in IdRange(firstJournalId, n) ==> x in ids by {
        forall x | x in IdRange(firstJournalId, n)
          ensures x in ids
        {
          InIdRange(firstJournalId, n, x);
          InIdRange(firstJournalId, |journals|, x);
        }
      }
      EntriesReferenceMore(front, IdRange(firstJournalId, n), ids, accounts, accounts);
      InIdRange(firstJournalId, |journals|, firstJournalId + n);
      assert LinesReferenceAccounts(accounts, journals[n].entries);
      EntriesReferenceConcat(front, last, ids, accounts);
    }
  }

  /** Posting a batch keeps the keys and references of the store. */
  lemma PostBatchKeepsWellFormed(t: Tables, journals: seq<Journal>, today: string)
    requires WellFormed(t)
    ensures WellFormed(PostBatch(t, journals, today).1)
  {
    if PostBatch(t, journals, today).0.Ok? {
      var after := PostBatch(t, journals, today).1;
      var batchId := NextRowId(BatchIds(t.batches));
      var firstJournalId := NextRowId(JournalIds(t.journals));
      var firstEntryId := NextRowId(EntryIds(t.entries));
      var newJournals := JournalRows(journals, batchId, firstJournalId);
      var newEntries := EntryRows(journals, firstJournalId, firstEntryId);
      assert after.journals == t.journals + newJournals;
      assert after.entries == t.entries + newEntries;
      // keys
      NextRowIdFresh(BatchIds(t.batches));
      BatchIdsAppend(t.batches, Batch(batchId, today));
      DistinctAppend(BatchIds(t.batches), batchId);
      JournalIdsConcat(t.journals, newJournals);
      JournalRowsIds(journals, batchId, firstJournalId);
      DistinctAfterRange(JournalIds(t.journals), |journals|);
      EntryIdsConcat(t.entries, newEntries);
      EntryRowsIds(journals, firstJournalId, firstEntryId);
      DistinctAfterRange(EntryIds(t.entries), EntryCount(journals));
      // journals reference batches
      assert JournalsReferenceBatches(after.journals, BatchIds(after.batches)) by {
        forall j | 0 <= j < |after.journals|
          ensures after.journals[j].batchId in BatchIds(after.batches)
        {
          if j < |t.journals| {
            assert after.journals[j] == t.journals[j];
          } else {
            assert after.journals[j] == newJournals[j - |t.journals|];
          }
        }
      }
      // entries reference journals and accounts
      EntriesReferenceMore(t.entries, JournalIds(t.journals), JournalIds(after.journals), t.accounts, t.accounts);
      EntryRowsReference(journals, t.accounts, firstJournalId, firstEntryId);
      forall x | x in IdRange(firstJournalId, |journals|)
        ensures x in JournalIds(after.journals)
      {
      }
      EntriesReferenceMore(newEntries, IdRange(firstJournalId, |journals|), JournalIds(after.journals), t.accounts, t.accounts);
      EntriesReferenceConcat(t.entries, newEntries, JournalIds(after.journals), t.accounts);
    }
  }

  // ---------------------------------------------------------------------
  // How posting moves balances
  // ---------------------------------------------------------------------

  /** The sum of the amounts of the lines naming `accountId`. */
  function AmountFor(lines: seq<JournalEntry>, accountId: int): int {
    if lines == [] then 0
    else
      var last := lines[|lines| - 1];
      AmountFor(lines[..|lines| - 1], accountId) + (if last.account == accountId then last.amount else 0)
  }

  /** An account's balance is the sum of the amounts of its lines. */
  lemma {:induction false} BalanceOfLines(entries: seq<Entry>, accountId: int)
    ensures Balance(entries, accountId) == AmountFor(LinesOf(entries), accountId)
  {
    if entries != [] {
      var n := |entries| - 1;
      BalanceOfLines(entries[..n], accountId);
      assert LinesOf(entries)[..n] == LinesOf(entries[..n]);
    }
  }

  /** Posting a batch adds to each account's balance exactly the amounts the
      batch's lines post to it, and nothing else. */
  lemma PostBatchBalance(t: Tables, journals: seq<Journal>, today: string, accountId: int)
    requires PostBatch(t, journals, today).0.Ok?
    ensures Balance(PostBatch(t, journals, today).1.entries, accountId)
      == Balance(t.entries, accountId) + AmountFor(AllLines(journals), accountId)
  {
    var firstJournalId := NextRowId(JournalIds(t.journals));
    var newEntries := EntryRows(journals, firstJournalId, NextRowId(EntryIds(t.entries)));
    assert PostBatch(t, journals, today).1.entries == t.entries + newEntries;
    BalanceAppend(t.entries, newEntries, accountId);
    BalanceOfLines(newEntries, accountId);
    EntryRowsLines(journals, firstJournalId, NextRowId(EntryIds(t.entries)));
  }
}
