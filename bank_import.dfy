/** Bank statement CSV import: header normalisation, format detection
    (TD, RBC, Scotiabank, BMO, then a generic fallback), date and amount
    parsing, and the row loop that turns CSV records into transactions.
    `datetime.strptime` and `float()` are parameters of the parser. */
module BankImport {
  import opened Common
  import opened Text
  import opened Records
  import opened Totals

  /** The library parsers the importer calls: `strptime(text, format)` and
      `float(text)`, each `None` where Python raises `ValueError`. */
  datatype Parsers = Parsers(strptime: (string, string) -> Option<Date>, float: string -> Option<real>)

  // ---- Dates ----

  const DateFormats: seq<string> := ["%m/%d/%Y", "%Y-%m-%d", "%d/%m/%Y", "%m-%d-%Y", "%Y/%m/%d", "%b %d, %Y", "%B %d, %Y"]

  /** The first of `formats` that parses `value`. */
  function FirstDate(p: Parsers, formats: seq<string>, value: string): (r: Option<Date>)
    ensures r.None? <==> forall i :: 0 <= i < |formats| ==> p.strptime(value, formats[i]).None?
    ensures r.Some? ==> exists i :: (0 <= i < |formats| && r == p.strptime(value, formats[i])
      && forall j :: 0 <= j < i ==> p.strptime(value, formats[j]).None?)
  {
    if formats == [] then None
    else if p.strptime(value, formats[0]).Some? then p.strptime(value, formats[0])
    else
      var r := FirstDate(p, formats[1..], value);
      assert forall i :: 1 <= i < |formats| ==> formats[i] == formats[1..][i - 1];
      if r.Some? then
        var i :| 0 <= i < |formats[1..]| && r == p.strptime(value, formats[1..][i])
          && forall j :: 0 <= j < i ==> p.strptime(value, formats[1..][j]).None?;
        assert forall j :: 0 <= j < i + 1 ==> p.strptime(value, formats[j]).None?;
        r
      else r
  }

  /** `_parse_date`: the stripped text in the first format that fits. */
  function ParseDate(p: Parsers, value: string): Option<Date> {
    FirstDate(p, DateFormats, Strip(value))
  }

  // ---- Amounts ----

  /** `s.replace(c, "")` */
  function Without(s: string, c: char): (r: string)
    ensures |r| <= |s|
    ensures forall i :: 0 <= i < |r| ==> r[i] != c
    ensures (forall i :: 0 <= i < |s| ==> s[i] != c) ==> r == s
  {
    if s == [] then [] else (if s[0] == c then [] else [s[0]]) + Without(s[1..], c)
  }

  /** `value.strip().replace(",", "").replace("$", "").replace(" ", "")` */
  function Cleaned(value: string): (r: string)
    ensures forall i :: 0 <= i < |r| ==> r[i] != ',' && r[i] != '$' && r[i] != ' '
  {
    var a := Without(Strip(value), ',');
    var b := Without(a, '$');
    var c := Without(b, ' ');
    assert forall i :: 0 <= i < |b| ==> b[i] != ',' by {
      assert forall x :: x in b ==> x in a by { WithoutSubset(a, '$'); }
      forall i | 0 <= i < |b| ensures b[i] != ',' { assert b[i] in b; }
    }
    assert forall x :: x in c ==> x in b by { WithoutSubset(b, ' '); }
    forall i | 0 <= i < |c| ensures c[i] != ',' && c[i] != '$' { assert c[i] in c; }
    c
  }

  lemma {:induction false} WithoutSubset(s: string, c: char)
    ensures forall x :: x in Without(s, c) ==> x in s
  {
    if s != [] {
      WithoutSubset(s[1..], c);
      assert forall x :: x in s[1..] ==> x in s;
    }
  }

  /** "(x)" becomes "-x"; any other text is kept. */
  function Unbracketed(v: string): (r: string)
    requires forall i :: 0 <= i < |v| ==> v[i] != ',' && v[i] != '$' && v[i] != ' '
    ensures forall i :: 0 <= i < |r| ==> r[i] != ',' && r[i] != '$' && r[i] != ' '
  {
    if v != [] && v[0] == '(' && v[|v| - 1] == ')' then
      var r := "-" + v[1..|v| - 1];
      forall i | 0 <= i < |r| ensures r[i] != ',' && r[i] != '$' && r[i] != ' ' {
        if 0 < i {
          assert r[i] == v[i];
        }
      }
      r
    else v
  }

  /** The text `_parse_amount` hands to `float()`: stripped, without commas,
      dollar signs or spaces, and with "(x)" turned into "-x". */
  function AmountText(value: string): (r: string)
    ensures forall i :: 0 <= i < |r| ==> r[i] != ',' && r[i] != '$' && r[i] != ' '
  {
    Unbracketed(Cleaned(value))
  }

  /** `_parse_amount` */
  function ParseAmount(p: Parsers, value: string): (r: Option<real>)
    ensures value == "" ==> r.None?
    ensures value != "" ==> r == p.float(AmountText(value))
  {
    if value == "" then None else p.float(AmountText(value))
  }

  /** Bracketed amounts are negative: "(12.50)" is read as "-12.50". */
  lemma BracketsNegate(value: string, inner: string)
    requires Strip(value) == "(" + inner + ")"
    requires forall i :: 0 <= i < |inner| ==> inner[i] != ',' && inner[i] != '$' && inner[i] != ' '
    ensures AmountText(value) == "-" + inner
  {
    var s := "(" + inner + ")";
    assert forall i :: 0 <= i < |s| ==> s[i] != ',' && s[i] != '$' && s[i] != ' ' by {
      forall i | 0 <= i < |s| ensures s[i] != ',' && s[i] != '$' && s[i] != ' ' {
        if 0 < i < |s| - 1 {
          assert s[i] == inner[i - 1];
        }
      }
    }
    assert Without(s, ',') == s;
    assert Without(Without(s, ','), '$') == s;
    assert Cleaned(value) == s;
    assert s[1..|s| - 1] == inner;
  }

  // ---- Headers and formats ----

  /** `_normalize_header`: `header.lower().strip()`. */
  function NormalizeHeader(h: string): string {
    Strip(Lower(h))
  }

  /** Text that `lower()` leaves as it is. */
  predicate Lowered(s: string) {
    forall i :: 0 <= i < |s| ==> LowerChar(s[i]) == s[i]
  }

  lemma LowerIsLowered(h: string)
    ensures Lowered(Lower(h))
  {
    forall i | 0 <= i < |h| ensures LowerChar(Lower(h)[i]) == Lower(h)[i] {
      assert Lower(h)[i] == LowerChar(h[i]);
    }
  }

  lemma {:induction false} LoweredFixed(s: string)
    requires Lowered(s)
    ensures Lower(s) == s
  {
    if s != [] {
      assert Lowered(s[1..]) by {
        forall i | 0 <= i < |s[1..]| ensures LowerChar(s[1..][i]) == s[1..][i] {
          assert s[1..][i] == s[i + 1];
        }
      }
      LoweredFixed(s[1..]);
    }
  }

  /** Stripping keeps a middle slice of the text. */
  lemma StripIsSlice(s: string) returns (a: nat)
    ensures a + |Strip(s)| <= |s| && Strip(s) == s[a..a + |Strip(s)|]
  {
    var t := TrimStart(s);
    a := |s| - |t|;
    assert Strip(s) == TrimEnd(t) == t[..|Strip(s)|];
  }

  /** Normalising a normalised header changes nothing. */
  lemma NormalizeIdempotent(h: string)
    ensures NormalizeHeader(NormalizeHeader(h)) == NormalizeHeader(h)
  {
    var l := Lower(h);
    var s := Strip(l);
    LowerIsLowered(h);
    var a := StripIsSlice(l);
    assert Lowered(s) by {
      forall i | 0 <= i < |s| ensures LowerChar(s[i]) == s[i] {
        assert s[i] == l[a + i];
      }
    }
    LoweredFixed(s);
    StripUnchanged(s);
  }

  /** The header row as `parse_bank_csv` keeps it: every cell normalised. */
  function Headers(raw: seq<string>): (r: seq<string>)
    ensures |r| == |raw| && forall i :: 0 <= i < |raw| ==> r[i] == NormalizeHeader(raw[i])
    ensures forall i :: 0 <= i < |r| ==> NormalizeHeader(r[i]) == r[i]
  {
    var r := seq(|raw|, i requires 0 <= i < |raw| => NormalizeHeader(raw[i]));
    forall i | 0 <= i < |r| ensures NormalizeHeader(r[i]) == r[i] {
      NormalizeIdempotent(raw[i]);
    }
    r
  }

  datatype Columns = DebitCreditColumns(debitCol: string, creditCol: string) | AmountColumn(amountCol: string)

  /** A known bank's export: the headers that identify it and the columns
      the importer reads. */
  datatype Format = Format(name: string, headers: seq<string>, dateCol: string, descCol: string, columns: Columns)

  const Td := Format("td", ["date", "description", "debit", "credit"], "date", "description", DebitCreditColumns("debit", "credit"))
  const Rbc := Format("rbc", ["account type", "account number", "transaction date", "cheque number", "description 1", "description 2", "cad$"],
                      "transaction date", "description 1", AmountColumn("cad$"))
  const Scotiabank := Format("scotiabank", ["date", "amount", "description"], "date", "description", AmountColumn("amount"))
  const Bmo := Format("bmo", ["first bank card", "transaction type", "date posted", "transaction amount", "description"],
                      "date posted", "description", AmountColumn("transaction amount"))

  /** `KNOWN_FORMATS`, in the order detection tries them. */
  const KnownFormats: seq<Format> := [Td, Rbc, Scotiabank, Bmo]

  /** Every column a format reads is one of its identifying headers. */
  predicate ReadsOwnHeaders(f: Format) {
    && f.dateCol in f.headers && f.descCol in f.headers
    && (f.columns.DebitCreditColumns? ==> f.columns.debitCol in f.headers && f.columns.creditCol in f.headers)
    && (f.columns.AmountColumn? ==> f.columns.amountCol in f.headers)
  }

  lemma KnownFormatsReadOwnHeaders()
    ensures forall f :: f in KnownFormats ==> ReadsOwnHeaders(f)
  {
    assert ReadsOwnHeaders(Td) && ReadsOwnHeaders(Rbc) && ReadsOwnHeaders(Scotiabank) && ReadsOwnHeaders(Bmo);
  }

  predicate HeadersPresent(f: Format, present: set<string>) {
    forall h :: h in f.headers ==> h in present
  }

  function FirstFormat(formats: seq<Format>, present: set<string>): (r: Option<Format>)
    ensures r.None? <==> forall i :: 0 <= i < |formats| ==> !HeadersPresent(formats[i], present)
    ensures r.Some? ==> exists i :: (0 <= i < |formats| && r.value == formats[i] && HeadersPresent(formats[i], present)
      && forall j :: 0 <= j < i ==> !HeadersPresent(formats[j], present))
  {
    if formats == [] then None
    else if HeadersPresent(formats[0], present) then Some(formats[0])
    else
      var r := FirstFormat(formats[1..], present);
      assert forall i :: 1 <= i < |formats| ==> formats[i] == formats[1..][i - 1];
      if r.Some? then
        var i :| 0 <= i < |formats[1..]| && r.value == formats[1..][i] && HeadersPresent(formats[1..][i], present)
          && forall j :: 0 <= j < i ==> !HeadersPresent(formats[1..][j], present);
        assert forall j :: 0 <= j < i + 1 ==> !HeadersPresent(formats[j], present);
        r
      else r
  }

  /** `_detect_format`: the first known format (TD, RBC, Scotiabank, BMO)
      whose identifying headers are all among the normalised headers. */
  function DetectFormat(headers: seq<string>): Option<Format> {
    FirstFormat(KnownFormats, set h | h in headers :: NormalizeHeader(h))
  }

  /** `headers.index(name)`: the first position holding `name`. */
  function IndexOf(headers: seq<string>, name: string): (r: Option<nat>)
    ensures r.Some? ==> (r.value < |headers| && headers[r.value] == name
      && forall j :: 0 <= j < r.value ==> headers[j] != name)
    ensures r.None? <==> name !in headers
  {
    if headers == [] then None
    else if headers[0] == name then Some(0)
    else
      var rest := IndexOf(headers[1..], name);
      if rest.Some? then Some(rest.value + 1) else None
  }

  /** A format detected on normalised headers finds each column it reads. */
  lemma DetectedColumnsPresent(headers: seq<string>, f: Format)
    requires forall i :: 0 <= i < |headers| ==> NormalizeHeader(headers[i]) == headers[i]
    requires DetectFormat(headers) == Some(f)
    ensures f.dateCol in headers && f.descCol in headers
    ensures f.columns.DebitCreditColumns? ==> f.columns.debitCol in headers && f.columns.creditCol in headers
    ensures f.columns.AmountColumn? ==> f.columns.amountCol in headers
  {
    KnownFormatsReadOwnHeaders();
    var present := set h | h in headers :: NormalizeHeader(h);
    assert f in KnownFormats;
    forall h | h in present ensures h in headers {
      var x :| x in headers && h == NormalizeHeader(x);
      var i :| 0 <= i < |headers| && headers[i] == x;
    }
  }

  // ---- Layouts: which column holds what ----

  /** Where the row loop reads each field. */
  datatype Layout =
    | DebitCreditLayout(dateIdx: nat, descIdx: nat, debitIdx: nat, creditIdx: nat, balanceIdx: Option<nat>)
    | AmountLayout(dateIdx: nat, descIdx: nat, amountIdx: nat, balanceIdx: Option<nat>, refIdx: Option<nat>)
    | GenericLayout(dateIdx: nat, descIdx: nat, amountCol: Option<nat>, debitCol: Option<nat>, creditCol: Option<nat>, balanceIdx: Option<nat>)

  const DateNames: seq<string> := ["date", "transaction date", "posted date", "date posted"]
  const DescNames: seq<string> := ["description", "memo", "narrative", "details", "transaction details", "description 1"]
  const AmountNames: seq<string> := ["amount", "transaction amount", "value"]
  const DebitNames: seq<string> := ["debit", "withdrawal", "withdrawals"]
  const CreditNames: seq<string> := ["credit", "deposit", "deposits"]
  const BalanceNames: seq<string> := ["balance", "running balance"]

  /** The last position whose header is one of `names` (later columns win). */
  function LastIndexIn(headers: seq<string>, names: seq<string>): (r: Option<nat>)
    ensures r.Some? ==> (r.value < |headers| && headers[r.value] in names
      && forall j :: r.value < j < |headers| ==> headers[j] !in names)
    ensures r.None? <==> forall j :: 0 <= j < |headers| ==> headers[j] !in names
  {
    if headers == [] then None
    else if headers[|headers| - 1] in names then Some(|headers| - 1)
    else LastIndexIn(headers[..|headers| - 1], names)
  }

  lemma LastIndexStep(headers: seq<string>, i: nat, names: seq<string>)
    requires i < |headers|
    ensures LastIndexIn(headers[..i + 1], names) == if headers[i] in names then Some(i) else LastIndexIn(headers[..i], names)
  {
    assert headers[..i + 1][..i] == headers[..i];
  }

  /** No header belongs to two of the fallback's name lists. */
  lemma NamesDisjoint(h: string)
    ensures h in DateNames ==> h !in DescNames && h !in AmountNames && h !in DebitNames && h !in CreditNames && h !in BalanceNames
    ensures h in DescNames ==> h !in AmountNames && h !in DebitNames && h !in CreditNames && h !in BalanceNames
    ensures h in AmountNames ==> h !in DebitNames && h !in CreditNames && h !in BalanceNames
    ensures h in DebitNames ==> h !in CreditNames && h !in BalanceNames
    ensures h in CreditNames ==> h !in BalanceNames
  {
  }

  /** The generic fallback's column scan. */
  datatype GenericColumns = GenericColumns(date: Option<nat>, desc: Option<nat>, amount: Option<nat>, debit: Option<nat>, credit: Option<nat>, balance: Option<nat>)

  function GenericColumnsOf(headers: seq<string>): GenericColumns {
    GenericColumns(LastIndexIn(headers, DateNames), LastIndexIn(headers, DescNames), LastIndexIn(headers, AmountNames),
                   LastIndexIn(headers, DebitNames), LastIndexIn(headers, CreditNames), LastIndexIn(headers, BalanceNames))
  }

  /** The `enumerate(headers)` loop of the generic fallback. */
  method ScanGenericColumns(headers: seq<string>) returns (c: GenericColumns)
    ensures c == GenericColumnsOf(headers)
  {
    var date, desc, amount, debit, credit, balance := None, None, None, None, None, None;
    for i := 0 to |headers|
      invariant date == LastIndexIn(headers[..i], DateNames) && desc == LastIndexIn(headers[..i], DescNames)
      invariant amount == LastIndexIn(headers[..i], AmountNames) && debit == LastIndexIn(headers[..i], DebitNames)
      invariant credit == LastIndexIn(headers[..i], CreditNames) && balance == LastIndexIn(headers[..i], BalanceNames)
    {
      var h := headers[i];
      NamesDisjoint(h);
      LastIndexStep(headers, i, DateNames);
      LastIndexStep(headers, i, DescNames);
      LastIndexStep(headers, i, AmountNames);
      LastIndexStep(headers, i, DebitNames);
      LastIndexStep(headers, i, CreditNames);
      LastIndexStep(headers, i, BalanceNames);
      if h in DateNames {
        date := Some(i);
      } else if h in DescNames {
        desc := Some(i);
      } else if h in AmountNames {
        amount := Some(i);
      } else if h in DebitNames {
        debit := Some(i);
      } else if h in CreditNames {
        credit := Some(i);
      } else if h in BalanceNames {
        balance := Some(i);
      }
    }
    assert headers[..|headers|] == headers;
    c := GenericColumns(date, desc, amount, debit, credit, balance);
  }

  /** The layout `parse_bank_csv` reads the rows with, or `None` when the
      generic fallback finds no date or no description column. */
  function LayoutOf(headers: seq<string>): Option<Layout>
    requires forall i :: 0 <= i < |headers| ==> NormalizeHeader(headers[i]) == headers[i]
  {
    var fmt := DetectFormat(headers);
    if fmt.Some? then
      DetectedColumnsPresent(headers, fmt.value);
      var f := fmt.value;
      match f.columns
      case DebitCreditColumns(debitCol, creditCol) =>
        Some(DebitCreditLayout(IndexOf(headers, f.dateCol).value, IndexOf(headers, f.descCol).value,
                               IndexOf(headers, debitCol).value, IndexOf(headers, creditCol).value,
                               IndexOf(headers, "balance")))
      case AmountColumn(amountCol) =>
        Some(AmountLayout(IndexOf(headers, f.dateCol).value, IndexOf(headers, f.descCol).value,
                          IndexOf(headers, amountCol).value, IndexOf(headers, "balance"),
                          IndexOf(headers, "cheque number")))
    else
      var c := GenericColumnsOf(headers);
      if c.date.None? || c.desc.None? then None
      else Some(GenericLayout(c.date.value, c.desc.value, c.amount, c.debit, c.credit, c.balance))
  }

  /** A detected format always yields a layout; otherwise the layout is the
      generic column scan's, when it found a date and a description. */
  lemma LayoutCases(headers: seq<string>)
    requires forall i :: 0 <= i < |headers| ==> NormalizeHeader(headers[i]) == headers[i]
    ensures DetectFormat(headers).Some? ==> LayoutOf(headers).Some?
    ensures DetectFormat(headers).None? ==>
      var c := GenericColumnsOf(headers);
      LayoutOf(headers) == if c.date.None? || c.desc.None? then None
                           else Some(GenericLayout(c.date.value, c.desc.value, c.amount, c.debit, c.credit, c.balance))
  {
  }

  // ---- Rows ----

  /** A parsed transaction; amounts in cents, as `round(x, 2)` stores them. */
  datatype ImportedRow = ImportedRow(date: Date, description: string, amount: int, balance: Option<int>,
                                     reference: Option<string>, importHash: ImportHash)

  /** A credit above zero is money in; otherwise a debit above zero is money
      out; otherwise there is no amount. */
  function DebitCreditAmount(debit: Option<real>, credit: Option<real>): (r: real)
    ensures credit.Some? && credit.value > 0.0 ==> r == credit.value
    ensures !(credit.Some? && credit.value > 0.0) && debit.Some? && debit.value > 0.0 ==> r == -debit.value
    ensures !(credit.Some? && credit.value > 0.0) && !(debit.Some? && debit.value > 0.0) ==> r == 0.0
  {
    if credit.Some? && credit.value > 0.0 then credit.value
    else if debit.Some? && debit.value > 0.0 then -debit.value
    else 0.0
  }

  /** The cell at `idx` when the row has it. */
  function Cell(row: seq<string>, idx: Option<nat>): Option<string> {
    if idx.Some? && idx.value < |row| then Some(row[idx.value]) else None
  }

  function Max(a: nat, b: nat): nat { if a < b then b else a }

  /** The amount a row carries, before the zero check; `None` where the
      single-amount layouts skip the row for an unparsable amount. */
  function RowAmount(p: Parsers, layout: Layout, row: seq<string>): Option<real>
    requires |row| > Max(layout.dateIdx, layout.descIdx)
    requires layout.DebitCreditLayout? ==> |row| > Max(layout.debitIdx, layout.creditIdx)
    requires layout.AmountLayout? ==> |row| > layout.amountIdx
  {
    match layout
    case DebitCreditLayout(_, _, debitIdx, creditIdx, _) =>
      Some(DebitCreditAmount(ParseAmount(p, row[debitIdx]), ParseAmount(p, row[creditIdx])))
    case AmountLayout(_, _, amountIdx, _, _) =>
      ParseAmount(p, row[amountIdx])
    case GenericLayout(_, _, amountCol, debitCol, creditCol, _) =>
      if amountCol.Some? && amountCol.value < |row| then
        var amt := ParseAmount(p, row[amountCol.value]);
        Some(if amt.Some? then amt.value else 0.0)
      else if debitCol.Some? && creditCol.Some? then
        var debit := if debitCol.value < |row| then ParseAmount(p, row[debitCol.value]) else None;
        var credit := if creditCol.value < |row| then ParseAmount(p, row[creditCol.value]) else None;
        Some(DebitCreditAmount(debit, credit))
      else Some(0.0)
  }

  /** The shortest row each layout reads: longer than its largest required
      index. */
  predicate LongEnough(layout: Layout, row: seq<string>) {
    match layout
    case DebitCreditLayout(d, s, debit, credit, _) => |row| > Max(Max(d, s), Max(debit, credit))
    case AmountLayout(d, s, a, _, _) => |row| > Max(Max(d, s), a)
    case GenericLayout(d, s, _, _, _, _) => |row| > Max(d, s)
  }

  /** The row check `amount == 0.0` as the source writes it: on the parsed
      amount, before rounding to the cent. */
  predicate KeptAsWritten(amount: real) {
    amount != 0.0
  }

  /** The row check the import evidently intends: no row whose stored,
      cent-rounded amount is zero. */
  predicate Kept(amount: real) {
    RoundCents(amount) != 0
  }

  /** A credit of a tenth of a cent passes the source's zero check, yet the
      row it emits stores an amount of zero. */
  lemma SubCentCreditKeptAsWritten()
    ensures var amount := DebitCreditAmount(None, Some(0.001));
      KeptAsWritten(amount) && RoundCents(amount) == 0 && !Kept(amount)
  {
  }

  /** One CSV record through the row loop: skipped (`None`) when too short,
      undated, undescribed or without an amount; otherwise the transaction. */
  function ParseRow(p: Parsers, layout: Layout, row: seq<string>): (r: Option<ImportedRow>)
    ensures r.Some? ==> r.value.description != [] && Strip(r.value.description) == r.value.description
    ensures r.Some? ==> r.value.amount != 0
  {
    if !LongEnough(layout, row) then None
    else
      var date := ParseDate(p, row[layout.dateIdx]);
      if date.None? then None
      else
        var desc := Strip(row[layout.descIdx]);
        if desc == [] then None
        else
          var amount := RowAmount(p, layout, row);
          if amount.None? || !Kept(amount.value) then None
          else
            var balance := Cell(row, layout.balanceIdx);
            var parsedBalance := if balance.Some? then ParseAmount(p, balance.value) else None;
            var reference :=
              if layout.AmountLayout? && Cell(row, layout.refIdx).Some? && Strip(Cell(row, layout.refIdx).value) != []
              then Some(Strip(Cell(row, layout.refIdx).value)) else None;
            StripUnchanged(desc);
            Some(ImportedRow(date.value, desc, RoundCents(amount.value),
                             if parsedBalance.Some? then Some(RoundCents(parsedBalance.value)) else None,
                             reference, ImportHash(date.value, desc, RoundCents(amount.value))))
  }

  /** The rows the loop emits, in file order. */
  function ParsedRows(p: Parsers, layout: Layout, rows: seq<seq<string>>): seq<ImportedRow> {
    if rows == [] then []
    else
      var last := ParseRow(p, layout, rows[|rows| - 1]);
      ParsedRows(p, layout, rows[..|rows| - 1]) + (if last.Some? then [last.value] else [])
  }

  /** Every emitted row has a date, a stripped non-empty description and a
      non-zero amount, and came from one record of the file. */
  lemma {:induction false} ParsedRowsSpec(p: Parsers, layout: Layout, rows: seq<seq<string>>)
    ensures |ParsedRows(p, layout, rows)| <= |rows|
    ensures forall t :: t in ParsedRows(p, layout, rows) ==>
      t.amount != 0 && t.description != [] && exists row :: row in rows && ParseRow(p, layout, row) == Some(t)
  {
    if rows != [] {
      var prefix := rows[..|rows| - 1];
      ParsedRowsSpec(p, layout, prefix);
      assert forall row :: row in prefix ==> row in rows;
      assert rows[|rows| - 1] in rows;
    }
  }

  /** `parse_bank_csv` over the file's CSV records, the first being the
      header row. */
  function BankCsv(p: Parsers, file: seq<seq<string>>): seq<ImportedRow> {
    if file == [] || file[0] == [] then [] else RowsUnder(p, Headers(file[0]), file[1..])
  }

  /** The records after the header row, read with the headers' layout. */
  function RowsUnder(p: Parsers, headers: seq<string>, rows: seq<seq<string>>): seq<ImportedRow>
    requires forall i :: 0 <= i < |headers| ==> NormalizeHeader(headers[i]) == headers[i]
  {
    var layout := LayoutOf(headers);
    if layout.None? then [] else ParsedRows(p, layout.value, rows)
  }

  /** The row loop of `parse_bank_csv`. */
  method ParseRows(p: Parsers, layout: Layout, rows: seq<seq<string>>) returns (transactions: seq<ImportedRow>)
    ensures transactions == ParsedRows(p, layout, rows)
  {
    transactions := [];
    for i := 0 to |rows|
      invariant transactions == ParsedRows(p, layout, rows[..i])
    {
      assert rows[..i + 1][..i] == rows[..i];
      var row := rows[i];
      var parsed := ParseRow(p, layout, row);
      if parsed.Some? {
        transactions := transactions + [parsed.value];
      }
    }
    assert rows[..|rows|] == rows;
  }

  /** `parse_bank_csv` */
  method ParseBankCsv(p: Parsers, file: seq<seq<string>>) returns (transactions: seq<ImportedRow>)
    ensures transactions == BankCsv(p, file)
  {
    if file == [] || file[0] == [] {
      return [];
    }
    var headers := Headers(file[0]);
    assert BankCsv(p, file) == RowsUnder(p, headers, file[1..]);
    LayoutCases(headers);
    var fmt := DetectFormat(headers);
    var layout: Layout;
    if fmt.Some? {
      layout := LayoutOf(headers).value;
    } else {
      var c := ScanGenericColumns(headers);
      if c.date.None? || c.desc.None? {
        return [];
      }
      layout := GenericLayout(c.date.value, c.desc.value, c.amount, c.debit, c.credit, c.balance);
    }
    transactions := ParseRows(p, layout, file[1..]);
  }

  /** A file without a header row parses to nothing; so does a generic file
      with no date or no description column. */
  lemma EmptyCases(p: Parsers, file: seq<seq<string>>)
    ensures file == [] || file[0] == [] ==> BankCsv(p, file) == []
    ensures file != [] && file[0] != [] ==>
      var headers := Headers(file[0]);
      var c := GenericColumnsOf(headers);
      DetectFormat(headers).None? && (c.date.None? || c.desc.None?) ==> BankCsv(p, file) == []
  {
  }

  /** In the generic layout an amount column the row reaches takes
      precedence over a debit/credit pair. */
  lemma GenericAmountFirst(p: Parsers, layout: Layout, row: seq<string>)
    requires layout.GenericLayout? && |row| > Max(layout.dateIdx, layout.descIdx)
    requires layout.amountCol.Some? && layout.amountCol.value < |row|
    ensures var amt := ParseAmount(p, row[layout.amountCol.value]);
      RowAmount(p, layout, row) == Some(if amt.Some? then amt.value else 0.0)
  {
  }
}
