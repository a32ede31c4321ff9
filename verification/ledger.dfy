/** The ledger layer of src/ledger.rs: it maps the rows of the store's
    queries to the records the services present, derives an account's
    balance from its debit and credit totals, and forwards account and
    journal creation to the store without validating anything. */
module Ledger {
  import opened Types
  import opened Sqlite
  import Db

  /** One account of the account list. The `account_type` field is not in the
      original record, although the balance sheet reads it; it is added here
      and copied from the query row like the other fields. */
  datatype AccountSummary = AccountSummary(
    accountId: int, accountName: string, accountType: AccountType, accountBalance: int, timestamp: string)

  /** The mapping `account_list` applies to each query row. */
  function SummaryOf(row: Db.AccountSummaryResult): AccountSummary {
    AccountSummary(row.accountId, row.accountName, row.accountType, row.balance, row.timestamp)
  }

  /** `account_list`: one summary per account, in the order of the query rows,
      each with the account's id, name and type and the sum of its entries. */
  function AccountList(t: Tables, now: string): (summaries: seq<AccountSummary>)
    ensures |summaries| == |t.accounts|
    ensures forall i :: 0 <= i < |summaries| ==>
      && summaries[i].accountId == t.accounts[i].id
      && summaries[i].accountName == t.accounts[i].name
      && summaries[i].accountType == t.accounts[i].accountType
      && summaries[i].accountBalance == Db.Balance(t.entries, t.accounts[i].id)
      && summaries[i].timestamp == now
  {
    var rows := Db.AccountListQuery(t, now);
    seq(|rows|, i requires 0 <= i < |rows| => SummaryOf(rows[i]))
  }

  /** The record `account_detail` returns. */
  datatype AccountDetail = AccountDetail(
    accountId: int, accountName: string, accountType: AccountType,
    totalCredits: int, totalDebits: int, balance: int, timestamp: string)

  /** `account_detail`: the query's error is passed on unchanged; otherwise the
      requested id is echoed, name, type and both totals are passed through
      and the balance is debits minus credits, which is the sum of the
      account's entries. */
  function AccountDetailOf(t: Tables, accountId: int, now: string): (r: Result<AccountDetail>)
    ensures r.Ok? <==> Db.AccountDetailQuery(t, accountId, now).Ok?
    ensures !r.Ok? ==> r == Err(Db.AccountDetailQuery(t, accountId, now).error)
    ensures r.Ok? ==>
      var q := Db.AccountDetailQuery(t, accountId, now).value;
      && r.value.accountId == accountId
      && r.value.accountName == q.accountName && r.value.accountType == q.accountType
      && r.value.totalDebits == q.totalDebits && r.value.totalCredits == q.totalCredits
      && r.value.timestamp == q.timestamp
      && r.value.balance == Db.Balance(t.entries, accountId)
  {
    match Db.AccountDetailQuery(t, accountId, now)
    case Ok(q) => Ok(AccountDetail(accountId, q.accountName, q.accountType, q.totalCredits, q.totalDebits,
                                   q.totalDebits - q.totalCredits, q.timestamp))
    case Err(e) => Err(e)
    case Panicked => Panicked
  }

  /** Every account in the account list has a detail, and both report the
      same balance. The converse, that an id outside the list has no detail,
      is `MissingAccountHasNoDetail`. */
  lemma DetailAgreesWithList(t: Tables, now: string, i: nat)
    requires i < |t.accounts|
    ensures var detail := AccountDetailOf(t, t.accounts[i].id, now);
      detail.Ok? && detail.value.balance == AccountList(t, now)[i].accountBalance
  {
    assert AccountIds(t.accounts)[i] == t.accounts[i].id;
  }

  /** A missing account has no detail: the store's error comes back. */
  lemma MissingAccountHasNoDetail(t: Tables, accountId: int, now: string)
    requires !HasAccount(t.accounts, accountId)
    ensures AccountDetailOf(t, accountId, now) == Err(ColumnDecode("account_name"))
  {
  }

  /** `account_new`. The original forwards to a store function that does not
      exist under that name; the evident target is `account_new_tx`. Neither
      the id range nor the name length is checked. */
  method AccountNew(db: Pool, accountId: Option<int>, accountName: string, accountType: AccountType)
    returns (r: Result<int>)
    modifies db
    ensures (r, db.committed) == Db.CreateAccount(old(db.committed), accountId, accountName, accountType)
  {
    r := Db.AccountNewTx(db, accountId, accountName, accountType);
  }

  /** No validation: any free id, inside 1..999 or not, and a name of any
      length are stored as given. */
  lemma AccountNewChecksNothing(t: Tables, accountId: int, accountName: string, accountType: AccountType)
    requires !HasAccount(t.accounts, accountId)
    ensures Db.CreateAccount(t, Some(accountId), accountName, accountType).0 == Ok(accountId)
    ensures Db.CreateAccount(t, Some(accountId), accountName, accountType).1.accounts
      == t.accounts + [Account(accountId, accountName, accountType)]
  {
  }

  /** What `journal_new` returns and the tables it leaves: one batch holding
      one journal, whose narrative is the given one or "" when there is none.
      The ids the store hands out are dropped. */
  function PostJournal(t: Tables, narrative: Option<string>, entries: seq<JournalEntry>, today: string): (Result<()>, Tables) {
    var posted := Db.PostBatch(t, [Journal(narrative.UnwrapOr(""), entries)], today);
    (match posted.0 case Ok(_) => Ok(()) case Err(e) => Err(e) case Panicked => Panicked, posted.1)
  }

  /** `journal_new`. The original calls a store function with the signature
      of `batch_new_tx` restricted to one journal; that is what is modelled.
      Neither the narrative length nor the balance of the entries is checked. */
  method JournalNew(db: Pool, narrative: Option<string>, entries: seq<JournalEntry>, today: string)
    returns (r: Result<()>)
    modifies db
    ensures (r, db.committed) == PostJournal(old(db.committed), narrative, entries, today)
  {
    var posted := Db.BatchNewTx(db, [Journal(narrative.UnwrapOr(""), entries)], today);
    match posted
    case Ok(_) => r := Ok(());
    case Err(e) => r := Err(e);
    case Panicked => r := Panicked;
  }

  /** The journal `journal_new` stores carries the narrative, or "" when none
      was given, and fails, storing nothing, exactly when a line names a
      missing account. */
  lemma PostJournalNarrative(t: Tables, narrative: Option<string>, entries: seq<JournalEntry>, today: string)
    ensures PostJournal(t, narrative, entries, today).0.Ok? <==> Db.LinesReferenceAccounts(t.accounts, entries)
    ensures !PostJournal(t, narrative, entries, today).0.Ok? ==>
      PostJournal(t, narrative, entries, today) == (Err(ForeignKeyViolation), t)
    ensures PostJournal(t, narrative, entries, today).0.Ok? ==>
      var after := PostJournal(t, narrative, entries, today).1;
      && |after.journals| == |t.journals| + 1
      && after.journals[|t.journals|].narrative == (if narrative.Some? then narrative.value else "")
  {
    var journals := [Journal(narrative.UnwrapOr(""), entries)];
    Db.PostBatchAllOrNothing(t, journals, today);
    if PostJournal(t, narrative, entries, today).0.Ok? {
      Db.PostBatchJournalRows(t, journals, today);
    }
  }

  // ---------------------------------------------------------------------
  // The balance rule the ledger means to enforce but does not
  // ---------------------------------------------------------------------

  /** The sum of the amounts of the lines. */
  function LinesTotal(lines: seq<JournalEntry>): int {
    if lines == [] then 0 else LinesTotal(lines[..|lines| - 1]) + lines[|lines| - 1].amount
  }

  /** A journal balances when its debits and credits cancel out. This is the
      rule the unused `JournalBalanceError` and the TODO in `journal_new`
      point at; nothing in the program checks it. */
  predicate Balanced(journal: Journal) {
    LinesTotal(journal.entries) == 0
  }

  lemma {:induction false} LinesTotalConcat(a: seq<JournalEntry>, b: seq<JournalEntry>)
    ensures LinesTotal(a + b) == LinesTotal(a) + LinesTotal(b)
    decreases |b|
  {
    if b != [] {
      assert (a + b)[..|a + b| - 1] == a + b[..|b| - 1];
      LinesTotalConcat(a, b[..|b| - 1]);
    } else {
      assert a + b == a;
    }
  }

  /** The lines of balanced journals sum to zero. */
  lemma {:induction false} BalancedLinesCancel(journals: seq<Journal>)
    requires forall j :: 0 <= j < |journals| ==> Balanced(journals[j])
    ensures LinesTotal(Db.AllLines(journals)) == 0
  {
    if journals != [] {
      var n := |journals| - 1;
      BalancedLinesCancel(journals[..n]);
      LinesTotalConcat(Db.AllLines(journals[..n]), journals[n].entries);
    }
  }

  /** Posting a batch moves the sum of all stored amounts by the sum of the
      batch's lines. */
  lemma PostBatchMovesTotal(t: Tables, journals: seq<Journal>, today: string)
    requires Db.PostBatch(t, journals, today).0.Ok?
    ensures LinesTotal(Db.LinesOf(Db.PostBatch(t, journals, today).1.entries))
      == LinesTotal(Db.LinesOf(t.entries)) + LinesTotal(Db.AllLines(journals))
  {
    var firstJournalId := NextRowId(JournalIds(t.journals));
    var newEntries := Db.EntryRows(journals, firstJournalId, NextRowId(EntryIds(t.entries)));
    assert Db.PostBatch(t, journals, today).1.entries == t.entries + newEntries;
    Db.LinesOfConcat(t.entries, newEntries);
    Db.EntryRowsLines(journals, firstJournalId, NextRowId(EntryIds(t.entries)));
    LinesTotalConcat(Db.LinesOf(t.entries), Db.AllLines(journals));
  }

  /** Were the rule enforced, the amounts in the store would always sum to
      what they summed to before: posting balanced journals keeps the total. */
  lemma BalancedBatchKeepsTotal(t: Tables, journals: seq<Journal>, today: string)
    requires forall j :: 0 <= j < |journals| ==> Balanced(journals[j])
    requires Db.PostBatch(t, journals, today).0.Ok?
    ensures LinesTotal(Db.LinesOf(Db.PostBatch(t, journals, today).1.entries)) == LinesTotal(Db.LinesOf(t.entries))
  {
    PostBatchMovesTotal(t, journals, today);
    BalancedLinesCancel(journals);
  }

  /** As it stands the rule is not enforced: a one-line journal that does not
      balance is stored, and the total of the store moves by its amount. */
  lemma UnbalancedJournalAccepted(t: Tables, narrative: Option<string>, accountId: int, amount: int, today: string)
    requires HasAccount(t.accounts, accountId) && amount != 0
    ensures !Balanced(Journal(narrative.UnwrapOr(""), [JournalEntry(accountId, amount)]))
    ensures PostJournal(t, narrative, [JournalEntry(accountId, amount)], today).0 == Ok(())
    ensures LinesTotal(Db.LinesOf(PostJournal(t, narrative, [JournalEntry(accountId, amount)], today).1.entries))
      == LinesTotal(Db.LinesOf(t.entries)) + amount
  {
    var journals := [Journal(narrative.UnwrapOr(""), [JournalEntry(accountId, amount)])];
    assert LinesTotal([JournalEntry(accountId, amount)]) == amount;
    assert Db.AllLines(journals) == [JournalEntry(accountId, amount)] by {
      assert journals[..0] == [];
    }
    PostBatchMovesTotal(t, journals, today);
  }
}
