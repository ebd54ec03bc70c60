/** The journal-entry endpoints: validating and storing a manual entry line
    by line, deleting manual entries, and listing entries newest first. */
module JournalApi {
  import opened Common
  import opened Text
  import opened Records
  import opened Ledger
  import opened Posting
  import opened Books
  import opened Ordering

  /** `JournalLineCreate`, amounts in cents. */
  datatype LineRequest = LineRequest(accountId: int, description: Option<string>, debit: int, credit: int)

  /** `JournalEntryCreate` */
  datatype EntryRequest = EntryRequest(entryDate: Date, description: string, notes: Option<string>, lines: seq<LineRequest>)

  predicate LineWellFormed(l: LineRequest) {
    (l.description.None? || |l.description.value| <= 500) && l.debit >= 0 && l.credit >= 0
  }

  /** The schema's limits: a description of 1 to 500 characters, at least two
      lines, no negative amount. */
  predicate EntryWellFormed(data: EntryRequest) {
    && 1 <= |data.description| <= 500
    && |data.lines| >= 2
    && forall l :: l in data.lines ==> LineWellFormed(l)
  }

  /** The account query of the line check: an active account with this id. */
  predicate ActiveAccount(accounts: seq<Account>, id: int) {
    exists a :: a in accounts && a.id == id && a.isActive
  }

  /** The three checks `create_journal_entry` makes on one line, in order. */
  function LineError(accounts: seq<Account>, l: LineRequest): Option<HttpError> {
    if !ActiveAccount(accounts, l.accountId) then
      Some(HttpError(400, "Account ID " + IntToString(l.accountId) + " not found or inactive"))
    else if l.debit == 0 && l.credit == 0 then Some(HttpError(400, "Each line must have a debit or credit amount"))
    else if l.debit > 0 && l.credit > 0 then Some(HttpError(400, "A line cannot have both debit and credit"))
    else None
  }

  function ToLine(l: LineRequest): Line
    requires l.accountId >= 0
  {
    Line(l.accountId, l.description, l.debit, l.credit)
  }

  /** The line loop: the first failing line's error, or the lines to store. */
  function CheckedLines(accounts: seq<Account>, lines: seq<LineRequest>): Result<seq<Line>, HttpError> {
    if lines == [] then Ok([])
    else
      var prev := CheckedLines(accounts, lines[..|lines| - 1]);
      var l := lines[|lines| - 1];
      if prev.Err? then prev
      else
        var err := LineError(accounts, l);
        if err.Some? then Err(err.value)
        else
          assert l.accountId >= 0 by {
            var a :| a in accounts && a.id == l.accountId && a.isActive;
          }
          Ok(prev.value + [ToLine(l)])
  }

  /** The loop accepts exactly the lists whose every line passes and keeps
      them line for line. */
  lemma {:induction false} CheckedLinesOk(accounts: seq<Account>, lines: seq<LineRequest>)
    ensures var r := CheckedLines(accounts, lines);
      && (r.Ok? <==> forall i :: 0 <= i < |lines| ==> LineError(accounts, lines[i]).None?)
      && (r.Ok? ==> && |r.value| == |lines|
                    && forall i :: 0 <= i < |lines| ==>
                         && r.value[i].accountId == lines[i].accountId
                         && r.value[i].description == lines[i].description
                         && r.value[i].debit == lines[i].debit && r.value[i].credit == lines[i].credit)
  {
    if lines != [] {
      var prefix := lines[..|lines| - 1];
      CheckedLinesOk(accounts, prefix);
      assert forall i :: 0 <= i < |prefix| ==> prefix[i] == lines[i];
    }
  }

  /** A rejected list carries the error of its first failing line. */
  lemma {:induction false} CheckedLinesErr(accounts: seq<Account>, lines: seq<LineRequest>)
    ensures var r := CheckedLines(accounts, lines);
      r.Err? ==> exists i :: && 0 <= i < |lines| && LineError(accounts, lines[i]) == Some(r.error)
                             && forall j :: 0 <= j < i ==> LineError(accounts, lines[j]).None?
  {
    if lines != [] {
      var prefix := lines[..|lines| - 1];
      var r := CheckedLines(accounts, lines);
      if CheckedLines(accounts, prefix).Err? {
        CheckedLinesErr(accounts, prefix);
        var i :| && 0 <= i < |prefix| && LineError(accounts, prefix[i]) == Some(r.error)
                 && forall j :: 0 <= j < i ==> LineError(accounts, prefix[j]).None?;
        assert lines[i] == prefix[i];
        assert forall j :: 0 <= j < i ==> lines[j] == prefix[j];
      } else if r.Err? {
        CheckedLinesOk(accounts, prefix);
        assert forall j :: 0 <= j < |prefix| ==> lines[j] == prefix[j];
      }
    }
  }

  /** Every accepted line names an account of the chart. */
  lemma CheckedLinesReferTo(accounts: seq<Account>, lines: seq<LineRequest>)
    requires CheckedLines(accounts, lines).Ok?
    ensures LinesReferTo(CheckedLines(accounts, lines).value, accounts)
  {
    var out := CheckedLines(accounts, lines).value;
    CheckedLinesOk(accounts, lines);
    forall l | l in out ensures AccountById(accounts, l.accountId).Some? {
      var i :| 0 <= i < |out| && out[i] == l;
      assert LineError(accounts, lines[i]).None?;
      var a :| a in accounts && a.id == lines[i].accountId && a.isActive;
    }
  }

  /** With the schema's non-negative amounts, an accepted line has exactly
      one positive side. */
  lemma AcceptedLineOneSided(accounts: seq<Account>, l: LineRequest)
    requires LineWellFormed(l) && LineError(accounts, l).None?
    ensures (l.debit > 0 && l.credit == 0) || (l.debit == 0 && l.credit > 0)
  {
  }

  /** The line loop of `create_journal_entry`. */
  method CheckLines(accounts: seq<Account>, lines: seq<LineRequest>) returns (r: Result<seq<Line>, HttpError>)
    ensures r == CheckedLines(accounts, lines)
  {
    var out: seq<Line> := [];
    var i := 0;
    while i < |lines|
      invariant 0 <= i <= |lines|
      invariant CheckedLines(accounts, lines[..i]) == Ok(out)
    {
      var l := lines[i];
      assert lines[..i + 1][..i] == lines[..i];
      var err := LineError(accounts, l);
      if err.Some? {
        ErrorPersists(accounts, lines, i + 1);
        return Err(err.value);
      }
      assert l.accountId >= 0 by {
        var a :| a in accounts && a.id == l.accountId && a.isActive;
      }
      out := out + [ToLine(l)];
      i := i + 1;
    }
    assert lines[..i] == lines;
    return Ok(out);
  }

  /** Once a prefix of the lines fails, the whole list fails with the same error. */
  lemma {:induction false} ErrorPersists(accounts: seq<Account>, lines: seq<LineRequest>, n: nat)
    requires n <= |lines| && CheckedLines(accounts, lines[..n]).Err?
    ensures CheckedLines(accounts, lines) == CheckedLines(accounts, lines[..n])
    decreases |lines| - n
  {
    if n < |lines| {
      assert lines[..n + 1][..n] == lines[..n];
      ErrorPersists(accounts, lines, n + 1);
    } else {
      assert lines[..n] == lines;
    }
  }

  const NotBalancedError := HttpError(400, "Journal entry is not balanced: total debits must equal total credits")

  /** `create_journal_entry`: schema, then the line loop, then the balance
      check; only then is the entry stored, as a posted manual entry under the
      next id, which is returned. */
  method CreateJournalEntry(b: Books, data: EntryRequest) returns (r: Result<nat, HttpError>)
    requires b.Valid()
    modifies b
    ensures b.Valid()
    ensures b.accounts == old(b.accounts) && b.nextAccountId == old(b.nextAccountId)
    ensures !EntryWellFormed(data) ==> r == Err(ValidationError)
    ensures EntryWellFormed(data) && CheckedLines(b.accounts, data.lines).Err? ==>
      r == Err(CheckedLines(b.accounts, data.lines).error)
    ensures EntryWellFormed(data) && CheckedLines(b.accounts, data.lines).Ok? && !IsBalanced(CheckedLines(b.accounts, data.lines).value) ==>
      r == Err(NotBalancedError)
    ensures r.Err? ==> b.entries == old(b.entries) && b.nextEntryId == old(b.nextEntryId)
    ensures r.Ok? <==>
      EntryWellFormed(data) && CheckedLines(b.accounts, data.lines).Ok? && IsBalanced(CheckedLines(b.accounts, data.lines).value)
    ensures r.Ok? ==>
      && r.value == old(b.nextEntryId) && b.nextEntryId == old(b.nextEntryId) + 1
      && b.entries == old(b.entries)
         + [ManualEntry(old(b.nextEntryId), data.entryDate, data.description, data.notes, CheckedLines(b.accounts, data.lines).value)]
  {
    if !EntryWellFormed(data) {
      return Err(ValidationError);
    }
    var lines := CheckLines(b.accounts, data.lines);
    if lines.Err? {
      return Err(lines.error);
    }
    CheckedLinesReferTo(b.accounts, data.lines);
    if !IsBalanced(lines.value) {
      return Err(NotBalancedError);
    }
    // The service's own checks (balanced, at least one line) cannot fail
    // here, so its `ValueError` path is never taken.
    var created := b.CreateManualJournalEntry(data.entryDate, data.description, lines.value, data.notes);
    assert created.Ok?;
    return Ok(created.value.id);
  }

  /** `delete_journal_entry`: only manual entries may go; the others stay. */
  method DeleteJournalEntry(b: Books, id: nat) returns (r: Result<string, HttpError>)
    requires b.Valid()
    modifies b
    ensures b.Valid()
    ensures b.accounts == old(b.accounts) && b.nextAccountId == old(b.nextAccountId) && b.nextEntryId == old(b.nextEntryId)
    ensures EntryIndex(old(b.entries), id).None? ==> r == Err(HttpError(404, "Journal entry not found"))
    ensures r.Err? ==> b.entries == old(b.entries)
    ensures EntryIndex(old(b.entries), id).Some? ==>
      var k := EntryIndex(old(b.entries), id).value;
      && (old(b.entries)[k].entryType != "manual" ==> r == Err(HttpError(400, "Only manual journal entries can be deleted")))
      && (old(b.entries)[k].entryType == "manual" ==>
            r == Ok("Journal entry deleted") && b.entries == old(b.entries)[..k] + old(b.entries)[k + 1..])
  {
    var k := EntryIndex(b.entries, id);
    if k.None? {
      return Err(HttpError(404, "Journal entry not found"));
    }
    if b.entries[k.value].entryType != "manual" {
      return Err(HttpError(400, "Only manual journal entries can be deleted"));
    }
    b.RemoveEntry(k.value);
    return Ok("Journal entry deleted");
  }

  /** Deleting a manual entry removes exactly that entry: every other entry,
      system-generated ones included, is still stored. */
  lemma DeleteKeepsOthers(entries: seq<Entry>, k: nat)
    requires forall i, j :: 0 <= i < j < |entries| ==> entries[i].id < entries[j].id
    requires k < |entries|
    ensures var after := entries[..k] + entries[k + 1..];
      forall e :: e in after <==> e in entries && e.id != entries[k].id
  {
    DeletedGone(entries, k);
    OthersKept(entries, k);
  }

  lemma DeletedGone(entries: seq<Entry>, k: nat)
    requires forall i, j :: 0 <= i < j < |entries| ==> entries[i].id < entries[j].id
    requires k < |entries|
    ensures forall e :: e in entries[..k] + entries[k + 1..] ==> e in entries && e.id != entries[k].id
  {
    var after := entries[..k] + entries[k + 1..];
    forall e | e in after ensures e in entries && e.id != entries[k].id {
      var j :| 0 <= j < |after| && after[j] == e;
      var j' := if j < k then j else j + 1;
      assert entries[j'] == e;
      if j' < k {
        assert entries[j'].id < entries[k].id;
      } else {
        assert entries[k].id < entries[j'].id;
      }
    }
  }

  lemma OthersKept(entries: seq<Entry>, k: nat)
    requires k < |entries|
    ensures forall e :: e in entries && e.id != entries[k].id ==> e in entries[..k] + entries[k + 1..]
  {
    var after := entries[..k] + entries[k + 1..];
    forall e | e in entries && e.id != entries[k].id ensures e in after {
      var j :| 0 <= j < |entries| && entries[j] == e;
      assert j != k;
      if j < k {
        assert after[j] == e;
      } else {
        assert after[j - 1] == e;
      }
    }
  }

  // ---- Reading (`list_journal_entries`, `get_journal_entry`) ----

  /** `_serialize_entry`: an entry with its debit and credit totals. */
  datatype EntryView = EntryView(entry: Entry, totalDebit: int, totalCredit: int)

  function ViewOf(e: Entry): EntryView {
    EntryView(e, TotalDebit(e.lines), TotalCredit(e.lines))
  }

  /** A stored entry's view shows equal totals. */
  lemma StoredViewBalances(entries: seq<Entry>, nextId: nat, e: Entry)
    requires LedgerInvariant(entries, nextId) && e in entries
    ensures ViewOf(e).totalDebit == ViewOf(e).totalCredit
  {
  }

  /** `get_journal_entry` */
  function GetJournalEntry(entries: seq<Entry>, id: int): (r: Result<EntryView, HttpError>)
    ensures r.Err? <==> forall e :: e in entries ==> e.id != id
    ensures r.Err? ==> r.error == HttpError(404, "Journal entry not found")
    ensures r.Ok? ==> r.value.entry in entries && r.value.entry.id == id
  {
    var k := EntryIndex(entries, id);
    if k.None? then Err(HttpError(404, "Journal entry not found")) else Ok(ViewOf(entries[k.value]))
  }

  /** The query parameters of `list_journal_entries`. */
  datatype EntryFilter = EntryFilter(
    entryType: Option<string>,
    startDate: Option<Date>,
    endDate: Option<Date>,
    accountId: Option<int>)

  predicate Matches(e: Entry, f: EntryFilter) {
    && (f.entryType.Some? && f.entryType.value != "" ==> e.entryType == f.entryType.value)
    && (f.startDate.Some? ==> DateLe(f.startDate.value, e.date))
    && (f.endDate.Some? ==> DateLe(e.date, f.endDate.value))
    && (Truthy(f.accountId) ==> exists l :: l in e.lines && l.accountId == f.accountId.value)
  }

  function Selected(entries: seq<Entry>, f: EntryFilter): (r: seq<Entry>)
    ensures forall e :: e in r <==> e in entries && Matches(e, f)
  {
    if entries == [] then []
    else
      var e := entries[|entries| - 1];
      Selected(entries[..|entries| - 1], f) + (if Matches(e, f) then [e] else [])
  }

  /** `ORDER BY entry_date DESC, id DESC` */
  predicate NewestFirst(a: Entry, b: Entry) {
    if a.date == b.date then a.id >= b.id else DateLe(b.date, a.date)
  }

  lemma NewestFirstIsPreorder()
    ensures TotalPreorder(NewestFirst)
  {
    forall a: Entry, b: Entry ensures NewestFirst(a, b) || NewestFirst(b, a) {
      DateLeTotal(a.date, b.date);
    }
    forall a: Entry, b: Entry, c: Entry | NewestFirst(a, b) && NewestFirst(b, c)
      ensures NewestFirst(a, c)
    {
      DateLeTotal(a.date, b.date);
      DateLeTotal(b.date, c.date);
      DateLeTotal(a.date, c.date);
      DateLeTransitive(c.date, b.date, a.date);
    }
  }

  const ListPageCap := 100

  datatype EntryList = EntryList(total: nat, entries: seq<EntryView>)

  /** `list_journal_entries` */
  function ListJournalEntries(entries: seq<Entry>, f: EntryFilter, skip: nat, limit: nat): (r: EntryList)
    ensures r.total == |Selected(entries, f)|
  {
    var selected := Selected(entries, f);
    var size := if limit < ListPageCap then limit else ListPageCap;
    var page := Page(SortBy(selected, NewestFirst), skip, size);
    EntryList(|selected|, seq(|page|, i requires 0 <= i < |page| => ViewOf(page[i])))
  }

  /** The listing's page holds at most `min(limit, 100)` entries taken from
      `skip` on in the newest-first order of all matching entries; `total`
      counts all of them. */
  lemma ListJournalEntriesSpec(entries: seq<Entry>, f: EntryFilter, skip: nat, limit: nat)
    ensures var r := ListJournalEntries(entries, f, skip, limit);
      var ordered := SortBy(Selected(entries, f), NewestFirst);
      && SortedBy(ordered, NewestFirst)
      && multiset(ordered) == multiset(Selected(entries, f))
      && |r.entries| <= ListPageCap && |r.entries| <= limit
      && (forall i :: 0 <= i < |r.entries| ==> r.entries[i] == ViewOf(ordered[skip + i]))
  {
    NewestFirstIsPreorder();
    SortBySorted(Selected(entries, f), NewestFirst);
  }

  /** Every listed entry is stored and matches the filters. */
  lemma ListedEntriesMatch(entries: seq<Entry>, f: EntryFilter, skip: nat, limit: nat)
    ensures forall v :: v in ListJournalEntries(entries, f, skip, limit).entries ==> v.entry in entries && Matches(v.entry, f)
  {
    var selected := Selected(entries, f);
    var ordered := SortBy(selected, NewestFirst);
    var r := ListJournalEntries(entries, f, skip, limit);
    ListJournalEntriesSpec(entries, f, skip, limit);
    forall v | v in r.entries ensures v.entry in entries && Matches(v.entry, f) {
      var i :| 0 <= i < |r.entries| && r.entries[i] == v;
      assert v.entry == ordered[skip + i];
      assert ordered[skip + i] in multiset(ordered);
    }
  }
}
