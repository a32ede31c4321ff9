/** The HTTP handlers of src/services.rs, without the HTTP: each handler is
    modelled on the committed state of the pool it reads or writes, with its
    JSON response as a datatype of strings. Every `unwrap` of a ledger error
    is a panic. */
module Services {
  import opened Types
  import opened Sqlite
  import Db
  import Ledger
  import Decimal
  import Settings

  /** `format!("{:<08}", id)`: the id in decimal, zero-padded after the sign
      to eight characters. */
  function PadId(id: int): (s: string)
    ensures Decimal.Parse(s) == Some(id)
    ensures |s| >= 8
  {
    Decimal.ParseFormat(id, 8);
    Decimal.Format(id, 8)
  }

  /** Ids from 0 to 99999999 take exactly eight characters. */
  lemma PadIdWidth(id: int)
    requires 0 <= id < 100000000
    ensures |PadId(id)| == 8
  {
    assert Decimal.Pow10(8) == 100000000;
    Decimal.FormatExactWidth(id, 8);
  }

  /** `n.to_string()` reads back as `n`. */
  lemma ToStringReadsBack(n: int)
    ensures Decimal.Parse(Decimal.ToString(n)) == Some(n)
  {
    Decimal.ParseFormat(n, 0);
  }

  // ---------------------------------------------------------------------
  // GET /account/{account_id}
  // ---------------------------------------------------------------------

  datatype AccountDetailResponse = AccountDetailResponse(
    accountId: string, accountName: string, accountType: string,
    totalCredits: string, totalDebits: string, balance: string, timestamp: string)

  /** `account_detail`: the ledger's detail rendered as strings; a missing
      account makes the ledger fail and the handler panic. */
  function AccountDetailHandler(db: Pool, accountId: int, now: string): (r: Result<AccountDetailResponse>)
    reads db
    ensures r.Panicked? <==> !HasAccount(db.committed.accounts, accountId)
    ensures !r.Err?
    ensures r.Ok? ==>
      var t := db.committed;
      var a := Db.FindAccount(t.accounts, accountId).value;
      && Decimal.Parse(r.value.accountId) == Some(accountId)
      && r.value.accountName == a.name
      && r.value.accountType == TypeName(a.accountType)
      && Decimal.Parse(r.value.totalDebits) == Some(Db.Debits(t.entries, accountId))
      && Decimal.Parse(r.value.totalCredits) == Some(Db.Credits(t.entries, accountId))
      && Decimal.Parse(r.value.balance) == Some(Db.Balance(t.entries, accountId))
      && r.value.timestamp == now
  {
    var detail := Ledger.AccountDetailOf(db.committed, accountId, now);
    if detail.Ok? then
      var d := detail.value;
      ToStringReadsBack(d.totalDebits);
      ToStringReadsBack(d.totalCredits);
      ToStringReadsBack(d.balance);
      Ok(AccountDetailResponse(PadId(accountId), d.accountName, TypeName(d.accountType),
        Decimal.ToString(d.totalCredits), Decimal.ToString(d.totalDebits), Decimal.ToString(d.balance), d.timestamp))
    else Panicked
  }

  // ---------------------------------------------------------------------
  // GET /account/list
  // ---------------------------------------------------------------------

  datatype AccountListAccountResponse = AccountListAccountResponse(id: string, name: string, balance: string)

  datatype AccountListResponse = AccountListResponse(accounts: seq<AccountListAccountResponse>, timestamp: string)

  /** The response entry the loop of `account_list` pushes for one summary. */
  function ListEntryOf(s: Ledger.AccountSummary): AccountListAccountResponse {
    AccountListAccountResponse(PadId(s.accountId), s.accountName, Decimal.ToString(s.accountBalance))
  }

  /** A list entry reads back as the summary's id, name and balance. */
  lemma ListEntryReadsBack(s: Ledger.AccountSummary)
    ensures Decimal.Parse(ListEntryOf(s).id) == Some(s.accountId)
    ensures ListEntryOf(s).name == s.accountName
    ensures Decimal.Parse(ListEntryOf(s).balance) == Some(s.accountBalance)
  {
    ToStringReadsBack(s.accountBalance);
  }

  /** The entries the loop of `account_list` builds, one per summary, in order. */
  function ListEntries(results: seq<Ledger.AccountSummary>): (entries: seq<AccountListAccountResponse>)
    ensures |entries| == |results|
  {
    seq(|results|, i requires 0 <= i < |results| => ListEntryOf(results[i]))
  }

  lemma ListEntriesSnoc(front: seq<Ledger.AccountSummary>, s: Ledger.AccountSummary)
    ensures ListEntries(front + [s]) == ListEntries(front) + [ListEntryOf(s)]
  {
  }

  /** The loop of `account_list`: one entry per summary, in order, and the
      timestamp of the last summary, or "" when there is none. */
  method AccountListResponseOf(results: seq<Ledger.AccountSummary>) returns (r: AccountListResponse)
    ensures |r.accounts| == |results|
    ensures forall i :: 0 <= i < |results| ==> r.accounts[i] == ListEntryOf(results[i])
    ensures r.timestamp == if results == [] then "" else results[|results| - 1].timestamp
  {
    var accounts: seq<AccountListAccountResponse> := [];
    var timestamp := "";
    for i := 0 to |results|
      invariant accounts == ListEntries(results[..i])
      invariant timestamp == if i == 0 then "" else results[i - 1].timestamp
    {
      assert results[..i + 1] == results[..i] + [results[i]];
      ListEntriesSnoc(results[..i], results[i]);
      accounts := accounts + [ListEntryOf(results[i])];
      timestamp := results[i].timestamp;
    }
    assert results[..|results|] == results;
    r := AccountListResponse(accounts, timestamp);
  }

  /** `account_list`: every account of the store once, in table order, with
      its id, name and balance; the query's timestamp, or "" when there are
      no accounts. */
  method AccountListHandler(db: Pool, now: string) returns (r: AccountListResponse)
    ensures var t := db.committed;
      && |r.accounts| == |t.accounts|
      && (forall i :: 0 <= i < |t.accounts| ==>
            && Decimal.Parse(r.accounts[i].id) == Some(t.accounts[i].id)
            && r.accounts[i].name == t.accounts[i].name
            && Decimal.Parse(r.accounts[i].balance) == Some(Db.Balance(t.entries, t.accounts[i].id)))
      && r.timestamp == if t.accounts == [] then "" else now
  {
    var summaries := Ledger.AccountList(db.committed, now);
    r := AccountListResponseOf(summaries);
    forall i | 0 <= i < |summaries|
      ensures Decimal.Parse(r.accounts[i].balance) == Some(summaries[i].accountBalance)
    {
      ListEntryReadsBack(summaries[i]);
    }
  }

  // ---------------------------------------------------------------------
  // POST /account/new
  // ---------------------------------------------------------------------

  datatype AccountCreateResponse = AccountCreateResponse(accountId: string, accountName: string, accountType: string)

  /** `account_new`: the account type arrives parsed. A ledger error is a
      panic, raised after the transaction was dropped, so nothing is kept. */
  method AccountNewHandler(db: Pool, accountId: Option<int>, accountName: string, accountType: AccountType)
    returns (r: Result<AccountCreateResponse>)
    modifies db
    ensures var created := Db.CreateAccount(old(db.committed), accountId, accountName, accountType);
      && db.committed == created.1
      && (r.Ok? <==> created.0.Ok?)
      && (!r.Ok? ==> r == Panicked)
      && (r.Ok? ==> r.value == AccountCreateResponse(PadId(created.0.value), accountName, TypeName(accountType)))
  {
    var created := Ledger.AccountNew(db, accountId, accountName, accountType);
    if !created.Ok? {
      return Panicked;
    }
    r := Ok(AccountCreateResponse(PadId(created.value), accountName, TypeName(accountType)));
  }

  /** The response names the id the account was stored under. */
  lemma AccountNewResponseNamesStoredId(t: Tables, accountId: Option<int>, accountName: string, accountType: AccountType)
    requires Db.CreateAccount(t, accountId, accountName, accountType).0.Ok?
    ensures var created := Db.CreateAccount(t, accountId, accountName, accountType);
      && Decimal.Parse(PadId(created.0.value)) == Some(created.1.accounts[|t.accounts|].id)
      && created.1.accounts[|t.accounts|] == Account(created.0.value, accountName, accountType)
  {
  }

  // ---------------------------------------------------------------------
  // POST /journal/new
  // ---------------------------------------------------------------------

  datatype JournalCreateEntryData = JournalCreateEntryData(account: int, amount: int)

  /** The request's lines as journal lines, in order. */
  function EntriesOf(data: seq<JournalCreateEntryData>): (entries: seq<JournalEntry>)
    ensures |entries| == |data|
  {
    seq(|data|, i requires 0 <= i < |data| => JournalEntry(data[i].account, data[i].amount))
  }

  /** `journal_new`. The handler passes the narrative with "" for a missing
      one; the ledger takes an optional narrative, so it is passed on as
      present. A ledger error is a panic and nothing is kept. */
  method JournalNewHandler(db: Pool, narrative: Option<string>, data: seq<JournalCreateEntryData>, today: string)
    returns (r: Result<()>)
    modifies db
    ensures var posted := Ledger.PostJournal(old(db.committed), Some(narrative.UnwrapOr("")), EntriesOf(data), today);
      && db.committed == posted.1
      && (r.Ok? <==> posted.0.Ok?)
      && (!r.Ok? ==> r == Panicked)
  {
    var posted := Ledger.JournalNew(db, Some(narrative.UnwrapOr("")), EntriesOf(data), today);
    if !posted.Ok? {
      return Panicked;
    }
    r := Ok(());
  }

  /** What the journal handler stores: when every line names an existing
      account, one journal with the narrative (or "") and one entry per
      request line, with that line's account and amount, in request order;
      otherwise nothing. */
  lemma JournalNewStoresRequest(t: Tables, narrative: Option<string>, data: seq<JournalCreateEntryData>, today: string)
    ensures var posted := Ledger.PostJournal(t, Some(narrative.UnwrapOr("")), EntriesOf(data), today);
      && (posted.0.Ok? <==> forall i :: 0 <= i < |data| ==> HasAccount(t.accounts, data[i].account))
      && (!posted.0.Ok? ==> posted.1 == t)
      && (posted.0.Ok? ==>
            && |posted.1.journals| == |t.journals| + 1
            && posted.1.journals[|t.journals|].narrative == narrative.UnwrapOr("")
            && |posted.1.entries| == |t.entries| + |data|
            && forall i :: 0 <= i < |data| ==>
                 posted.1.entries[|t.entries| + i].accountId == data[i].account
                 && posted.1.entries[|t.entries| + i].amount == data[i].amount)
  {
    var entries := EntriesOf(data);
    var journals := [Journal(narrative.UnwrapOr(""), entries)];
    Ledger.PostJournalNarrative(t, Some(narrative.UnwrapOr("")), entries, today);
    var posted := Ledger.PostJournal(t, Some(narrative.UnwrapOr("")), entries, today);
    if posted.0.Ok? {
      var firstJournalId := NextRowId(JournalIds(t.journals));
      var newEntries := Db.EntryRows(journals, firstJournalId, NextRowId(EntryIds(t.entries)));
      assert posted.1.entries == t.entries + newEntries;
      Db.EntryRowsLines(journals, firstJournalId, NextRowId(EntryIds(t.entries)));
      assert Db.AllLines(journals) == entries by {
        assert journals[..0] == [];
      }
      forall i | 0 <= i < |data|
        ensures posted.1.entries[|t.entries| + i].accountId == data[i].account
        ensures posted.1.entries[|t.entries| + i].amount == data[i].amount
      {
        assert posted.1.entries[|t.entries| + i] == newEntries[i];
        assert Db.LinesOf(newEntries)[i] == entries[i];
      }
    }
  }

  // ---------------------------------------------------------------------
  // GET /report/balance
  // ---------------------------------------------------------------------

  /** `filter_accounts_list`: the accounts the predicate keeps, in order. */
  function FilterAccounts(accounts: seq<Ledger.AccountSummary>, keep: Ledger.AccountSummary -> bool): seq<Ledger.AccountSummary> {
    if accounts == [] then []
    else
      var last := accounts[|accounts| - 1];
      FilterAccounts(accounts[..|accounts| - 1], keep) + (if keep(last) then [last] else [])
  }

  /** The filter keeps exactly the accounts the predicate accepts. */
  lemma {:induction false} FilterAccountsMembers(accounts: seq<Ledger.AccountSummary>, keep: Ledger.AccountSummary -> bool,
                                                 a: Ledger.AccountSummary)
    ensures a in FilterAccounts(accounts, keep) <==> a in accounts && keep(a)
  {
    if accounts != [] {
      var n := |accounts| - 1;
      FilterAccountsMembers(accounts[..n], keep, a);
      assert accounts == accounts[..n] + [accounts[n]];
    }
  }

  /** The filter keeps the relative order: filtering a concatenation is
      concatenating the filtered parts. */
  lemma {:induction false} FilterAccountsAppend(front: seq<Ledger.AccountSummary>, back: seq<Ledger.AccountSummary>,
                                                keep: Ledger.AccountSummary -> bool)
    ensures FilterAccounts(front + back, keep) == FilterAccounts(front, keep) + FilterAccounts(back, keep)
    decreases |back|
  {
    if back == [] {
      assert front + back == front;
    } else {
      var all := front + back;
      assert all[..|all| - 1] == front + back[..|back| - 1];
      FilterAccountsAppend(front, back[..|back| - 1], keep);
    }
  }

  function SumBalances(accounts: seq<Ledger.AccountSummary>): int {
    if accounts == [] then 0 else SumBalances(accounts[..|accounts| - 1]) + accounts[|accounts| - 1].accountBalance
  }

  /** `sum_filter_accounts_list`: the balances of the kept accounts, summed. */
  function SumFilterAccounts(accounts: seq<Ledger.AccountSummary>, keep: Ledger.AccountSummary -> bool): int {
    SumBalances(FilterAccounts(accounts, keep))
  }

  /** The balance an account contributes to a filtered sum. */
  function Contribution(a: Ledger.AccountSummary, keep: Ledger.AccountSummary -> bool): int {
    if keep(a) then a.accountBalance else 0
  }

  /** The filtered sum, account by account: each account adds its balance when
      kept and nothing otherwise. */
  lemma {:induction false} SumFilterAccountsStep(accounts: seq<Ledger.AccountSummary>, keep: Ledger.AccountSummary -> bool)
    requires accounts != []
    ensures SumFilterAccounts(accounts, keep)
      == SumFilterAccounts(accounts[..|accounts| - 1], keep) + Contribution(accounts[|accounts| - 1], keep)
  {
    var n := |accounts| - 1;
    var kept := FilterAccounts(accounts[..n], keep);
    if keep(accounts[n]) {
      assert (kept + [accounts[n]])[..|kept|] == kept;
    } else {
      assert kept + [] == kept;
    }
  }

  /** A filtered sum is 0 when the predicate keeps no account. */
  lemma {:induction false} SumFilterAccountsNone(accounts: seq<Ledger.AccountSummary>, keep: Ledger.AccountSummary -> bool)
    requires forall i :: 0 <= i < |accounts| ==> !keep(accounts[i])
    ensures SumFilterAccounts(accounts, keep) == 0
  {
    if accounts != [] {
      SumFilterAccountsStep(accounts, keep);
      SumFilterAccountsNone(accounts[..|accounts| - 1], keep);
    }
  }

  /** Summing over a predicate that is the disjoint union of two others is
      summing over each. */
  lemma {:induction false} SumFilterAccountsSplit(accounts: seq<Ledger.AccountSummary>,
                                                  keep: Ledger.AccountSummary -> bool,
                                                  left: Ledger.AccountSummary -> bool,
                                                  right: Ledger.AccountSummary -> bool)
    requires forall i :: 0 <= i < |accounts| ==>
      keep(accounts[i]) == (left(accounts[i]) || right(accounts[i])) && !(left(accounts[i]) && right(accounts[i]))
    ensures SumFilterAccounts(accounts, keep) == SumFilterAccounts(accounts, left) + SumFilterAccounts(accounts, right)
  {
    if accounts != [] {
      var n := |accounts| - 1;
      SumFilterAccountsStep(accounts, keep);
      SumFilterAccountsStep(accounts, left);
      SumFilterAccountsStep(accounts, right);
      SumFilterAccountsSplit(accounts[..n], keep, left, right);
    }
  }

  function IsCash(a: Ledger.AccountSummary): bool {
    a.accountType == Cash
  }

  /** The section "current assets": current assets, inventory and
      prepayments, but not cash. */
  function IsCurrentAsset(a: Ledger.AccountSummary): bool {
    match a.accountType
    case CurrentAsset => true
    case Inventory => true
    case Prepayments => true
    case _ => false
  }

  /** The total of current assets counts cash as well. */
  function IsCurrentAssetOrCash(a: Ledger.AccountSummary): bool {
    match a.accountType
    case Cash => true
    case CurrentAsset => true
    case Inventory => true
    case Prepayments => true
    case _ => false
  }

  function IsCurrentLiability(a: Ledger.AccountSummary): bool {
    a.accountType == CurrentLiability
  }

  /** The values `report_balance_sheet` puts into the template context. */
  datatype BalanceSheet = BalanceSheet(
    entityName: string,
    cash: seq<Ledger.AccountSummary>, totalCash: int,
    currentAssets: seq<Ledger.AccountSummary>, totalCurrentAssets: int,
    currentLiabilities: seq<Ledger.AccountSummary>, totalCurrentLiabilities: int,
    netAssets: int)

  /** The sections and totals of the balance sheet over the account list. */
  function BalanceSheetOf(entityName: string, accounts: seq<Ledger.AccountSummary>): BalanceSheet {
    var totalCurrentAssets := SumFilterAccounts(accounts, IsCurrentAssetOrCash);
    var totalCurrentLiabilities := SumFilterAccounts(accounts, IsCurrentLiability);
    BalanceSheet(
      entityName,
      FilterAccounts(accounts, IsCash), SumFilterAccounts(accounts, IsCash),
      FilterAccounts(accounts, IsCurrentAsset), totalCurrentAssets,
      FilterAccounts(accounts, IsCurrentLiability), totalCurrentLiabilities,
      totalCurrentAssets + totalCurrentLiabilities)
  }

  /** `report_balance_sheet`, up to rendering: the `entityName` setting is read
      and unwrapped, so a missing row and a NULL string are both panics; then
      the sections and totals are taken from the account list. */
  function ReportBalanceSheet(db: Pool, now: string): (r: Result<BalanceSheet>)
    reads db
    ensures r.Panicked? <==>
      "entityName" !in db.committed.settings || db.committed.settings["entityName"].strValue.None?
    ensures !r.Err?
    ensures r.Ok? ==>
      r.value == BalanceSheetOf(db.committed.settings["entityName"].strValue.value, Ledger.AccountList(db.committed, now))
  {
    var entityName := Settings.GetSettingsStr(db.committed.settings, "entityName");
    if entityName.Ok? && entityName.value.Some? then
      Ok(BalanceSheetOf(entityName.value.value, Ledger.AccountList(db.committed, now)))
    else Panicked
  }

  /** An `entityName` last written as an integer holds a NULL string, so the
      balance sheet panics. */
  lemma EntityNameWrittenAsIntPanics(db: Pool, settings: map<string, SettingRow>, value: int, now: string)
    requires db.committed.settings == settings["entityName" := Settings.IntRow(value)]
    ensures ReportBalanceSheet(db, now) == Panicked
  {
    Settings.SetIntReplacesRow(settings, "entityName", value);
  }

  /** The current-assets section lists exactly the current-asset, inventory
      and prepayment accounts; no cash account is in it. */
  lemma CurrentAssetsExcludeCash(entityName: string, accounts: seq<Ledger.AccountSummary>, a: Ledger.AccountSummary)
    ensures var sheet := BalanceSheetOf(entityName, accounts);
      && (a in sheet.currentAssets <==> a in accounts && a.accountType in {CurrentAsset, Inventory, Prepayments})
      && (a.accountType == Cash ==> a !in sheet.currentAssets)
      && (a in sheet.cash <==> a in accounts && a.accountType == Cash)
  {
    FilterAccountsMembers(accounts, IsCurrentAsset, a);
    FilterAccountsMembers(accounts, IsCash, a);
  }

  /** The total of current assets is cash plus the listed current assets. */
  lemma TotalCurrentAssetsIncludesCash(entityName: string, accounts: seq<Ledger.AccountSummary>)
    ensures var sheet := BalanceSheetOf(entityName, accounts);
      sheet.totalCurrentAssets == sheet.totalCash + SumBalances(sheet.currentAssets)
  {
    SumFilterAccountsSplit(accounts, IsCurrentAssetOrCash, IsCash, IsCurrentAsset);
  }

  /** Net assets are the current assets plus the (credit, so negative)
      current liabilities; the liability total is the sum of the listed
      liabilities. */
  lemma NetAssetsAddLiabilities(entityName: string, accounts: seq<Ledger.AccountSummary>)
    ensures var sheet := BalanceSheetOf(entityName, accounts);
      && sheet.totalCurrentLiabilities == SumBalances(sheet.currentLiabilities)
      && sheet.netAssets == sheet.totalCash + SumBalances(sheet.currentAssets) + SumBalances(sheet.currentLiabilities)
  {
    TotalCurrentAssetsIncludesCash(entityName, accounts);
  }

  /** The balance sheet over one account more: the account is added to the
      sections and totals whose predicate keeps it. */
  lemma BalanceSheetStep(entityName: string, accounts: seq<Ledger.AccountSummary>, a: Ledger.AccountSummary)
    ensures var before := BalanceSheetOf(entityName, accounts);
      var after := BalanceSheetOf(entityName, accounts + [a]);
      && after.cash == before.cash + (if IsCash(a) then [a] else [])
      && after.currentAssets == before.currentAssets + (if IsCurrentAsset(a) then [a] else [])
      && after.currentLiabilities == before.currentLiabilities + (if IsCurrentLiability(a) then [a] else [])
      && after.totalCash == before.totalCash + Contribution(a, IsCash)
      && after.totalCurrentAssets == before.totalCurrentAssets + Contribution(a, IsCurrentAssetOrCash)
      && after.totalCurrentLiabilities == before.totalCurrentLiabilities + Contribution(a, IsCurrentLiability)
  {
    var all := accounts + [a];
    assert all[..|all| - 1] == accounts;
    SumFilterAccountsStep(all, IsCash);
    SumFilterAccountsStep(all, IsCurrentAssetOrCash);
    SumFilterAccountsStep(all, IsCurrentLiability);
  }

  /** Accounts of other types (neither cash, a current asset, inventory,
      prepayments nor a current liability) do not enter the balance sheet
      at all. */
  lemma OtherAccountsIgnored(entityName: string, accounts: seq<Ledger.AccountSummary>, other: Ledger.AccountSummary)
    requires !IsCurrentAssetOrCash(other) && !IsCurrentLiability(other)
    ensures BalanceSheetOf(entityName, accounts + [other]) == BalanceSheetOf(entityName, accounts)
  {
    BalanceSheetStep(entityName, accounts, other);
    var before := BalanceSheetOf(entityName, accounts);
    var after := BalanceSheetOf(entityName, accounts + [other]);
    assert after.cash == before.cash by {
      assert before.cash + [] == before.cash;
    }
    assert after.currentAssets == before.currentAssets by {
      assert before.currentAssets + [] == before.currentAssets;
    }
    assert after.currentLiabilities == before.currentLiabilities by {
      assert before.currentLiabilities + [] == before.currentLiabilities;
    }
    assert after.totalCurrentAssets == before.totalCurrentAssets;
    assert after.totalCurrentLiabilities == before.totalCurrentLiabilities;
  }

}
