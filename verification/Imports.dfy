/** The receivables import (imports/receivables.py): rows are validated against the portfolio
    and against each other, and accepted rows are persisted. The text of numbers and dates has
    been read already; `fold` stands for case folding. */
module Imports {
  import opened Domain

  datatype Cell = Missing | Malformed | Value(v: int)

  datatype StatusCell = NoStatus | Unsupported | Given(status: InvoiceStatus)

  datatype Row = Row(
    reference: string, name: string, number: string, original: Cell, outstanding: Cell, issue: Cell, due: Cell,
    currency: string, status: StatusCell)

  datatype Receivable = Receivable(
    reference: string, name: string, number: string, original: int, outstanding: int, issue: int, due: int,
        status: InvoiceStatus)

  datatype CustomerRow = CustomerRow(reference: string, name: string, numbers: seq<string>)

  datatype Verdict = ValidRow | InvalidRow | DuplicateRow

  type Fold = string -> string

  datatype Key = Key(reference: string, number: string)

  datatype RowError =
    | NoReference | LongReference | NoName | LongName | NoNumber | LongNumber | ForeignReference
    | BadOriginal | BadOutstanding | BadIssue | BadDue | OriginalNotPositive | OutstandingNegative | OutstandingTooLarge
    | DueBeforeIssue | ForeignCurrency | BadStatus | PaidWithBalance | UnpaidWithoutBalance | NotPartial | NotYetOverdue

  function KeyOf(r: Receivable, fold: Fold): Key { Key(fold(r.reference), fold(r.number)) }

  // ---------------------------------------------------------------- the portfolio

  /** The position of the customer a folded reference stands for: the last one that has it. */
  function CustomerAt(customers: seq<CustomerRow>, reference: string, fold: Fold): (at: Option<nat>)
    ensures at.Some? ==> at.value < |customers| && fold(customers[at.value].reference) == reference
    ensures at.None? ==> forall k :: 0 <= k < |customers| ==> fold(customers[k].reference) != reference
  {
    if customers == [] then None
    else if fold(customers[|customers| - 1].reference) == reference then Some(|customers| - 1)
    else CustomerAt(customers[..|customers| - 1], reference, fold)
  }

  function KnownName(customers: seq<CustomerRow>, reference: string, fold: Fold): Option<string> {
    match CustomerAt(customers, reference, fold)
    case None => None
    case Some(at) => Some(customers[at].name)
  }

  predicate HasInvoice(customers: seq<CustomerRow>, key: Key, fold: Fold) {
    exists c, n :: 0 <= c < |customers| && 0 <= n < |customers[c].numbers|
      && Key(fold(customers[c].reference), fold(customers[c].numbers[n])) == key
  }

  // ---------------------------------------------------------------- one row

  function DerivedStatus(original: int, outstanding: int, due: int, today: int): InvoiceStatus {
    if outstanding == 0 then PaidInvoice
    else if outstanding < original then PartiallyPaid
    else if due < today then OverdueInvoice
    else OpenInvoice
  }

  function NameErrors(row: Row, known: Option<string>, fold: Fold): seq<RowError> {
    (if row.reference == "" then [NoReference] else if |row.reference| > 100 then [LongReference] else [])
    + (if row.name == "" then [NoName] else if |row.name| > 255 then [LongName] else [])
    + (if row.number == "" then [NoNumber] else if |row.number| > 100 then [LongNumber] else [])
    + (if row.reference != "" && known.Some? && known.value != ""
       && fold(known.value) != fold(row.name) then [ForeignReference] else [])
  }

  function AmountErrors(row: Row): seq<RowError> {
    (if row.original.Value? then [] else [BadOriginal])
    + (if row.outstanding.Value? then [] else [BadOutstanding])
    + (if row.issue.Value? then [] else [BadIssue])
    + (if row.due.Value? then [] else [BadDue])
    + (if row.original.Value? && row.original.v <= 0 then [OriginalNotPositive] else [])
    + (if row.outstanding.Value? && row.outstanding.v < 0 then [OutstandingNegative] else [])
    + (if row.original.Value? && row.outstanding.Value?
       && row.outstanding.v > row.original.v then [OutstandingTooLarge] else [])
    + (if row.issue.Value? && row.due.Value? && row.due.v < row.issue.v then [DueBeforeIssue] else [])
    + (if row.currency != "" && row.currency != "INR" then [ForeignCurrency] else [])
    + (if row.status.Unsupported? then [BadStatus] else [])
  }

  /** The checks that need a complete row and its given or derived status. */
  function StatusErrors(status: InvoiceStatus, original: int, outstanding: int, due: int, today: int): seq<RowError> {
    (if status.PaidInvoice? && outstanding != 0 then [PaidWithBalance] else [])
    + (if (status.OpenInvoice? || status.OverdueInvoice? || status.Disputed? || status.PartiallyPaid?)
       && outstanding <= 0
       then [UnpaidWithoutBalance] else [])
    + (if status.PartiallyPaid? && !(0 < outstanding < original) then [NotPartial] else [])
    + (if status.OverdueInvoice? && due >= today then [NotYetOverdue] else [])
  }

  function StatusOf(row: Row, today: int): InvoiceStatus
    requires row.original.Value? && row.outstanding.Value? && row.due.Value?
  {
    if row.status.Given? then row.status.status else DerivedStatus(row.original.v, row.outstanding.v, row.due.v, today)
  }

  /** The record of a row without errors. */
  function Validate(row: Row, known: Option<string>, today: int, fold: Fold): Option<Receivable> {
    if NameErrors(row, known, fold) + AmountErrors(row) != [] then None
    else if row.original.Value? && row.outstanding.Value? && row.issue.Value? && row.due.Value? then
      var status := StatusOf(row, today);
      if StatusErrors(status, row.original.v, row.outstanding.v, row.due.v, today) != [] then None
      else
        Some(Receivable(row.reference, row.name, row.number, row.original.v, row.outstanding.v, row.issue.v, row.due.v,
                        status))
    else None
  }

  // ---------------------------------------------------------------- all rows

  datatype Parse = Parse(verdicts: seq<Verdict>, records: seq<Receivable>, seen: map<Key, Receivable>,
                         names: map<string, string>)

  const NOTHING_PARSED := Parse([], [], map[], map[])

  function Note(p: Parse, verdict: Verdict): Parse { p.(verdicts := p.verdicts + [verdict]) }

  function ParseRow(p: Parse, row: Row, customers: seq<CustomerRow>, today: int, fold: Fold): Parse {
    match Validate(row, KnownName(customers, fold(row.reference), fold), today, fold)
    case None => Note(p, InvalidRow)
    case Some(record) =>
      var reference := fold(record.reference);
      if reference in p.names && fold(p.names[reference]) != fold(record.name) then Note(p, InvalidRow)
      else
        var named := p.(names := p.names[reference := record.name]);
        var key := KeyOf(record, fold);
        if HasInvoice(customers, key, fold) then Note(named, DuplicateRow)
        else if key in p.seen then Note(named, if p.seen[key] == record then DuplicateRow else InvalidRow)
        else Note(named.(seen := p.seen[key := record], records := p.records + [record]), ValidRow)
  }

  /** The state after the first `n` rows. */
  function ParseRows(rows: seq<Row>, n: nat, customers: seq<CustomerRow>, today: int, fold: Fold): (p: Parse)
    requires n <= |rows|
    ensures |p.verdicts| == n
  {
    if n == 0 then NOTHING_PARSED
    else ParseRow(ParseRows(rows, n - 1, customers, today, fold), rows[n - 1], customers, today, fold)
  }

  function AddInvoice(customers: seq<CustomerRow>, r: Receivable, fold: Fold): seq<CustomerRow> {
    match CustomerAt(customers, fold(r.reference), fold)
    case None => customers + [CustomerRow(r.reference, r.name, [r.number])]
    case Some(at) => customers[at := customers[at].(numbers := customers[at].numbers + [r.number])]
  }

  function PersistRecords(customers: seq<CustomerRow>, records: seq<Receivable>, n: nat, fold: Fold): seq<CustomerRow>
    requires n <= |records|
  {
    if n == 0 then customers else AddInvoice(PersistRecords(customers, records, n - 1, fold), records[n - 1], fold)
  }

  // ---------------------------------------------------------------- in place

  method ValidateRow(row: Row, known: Option<string>, today: int, fold: Fold)
      returns (record: Option<Receivable>, errors: seq<RowError>)
    ensures record == Validate(row, known, today, fold)
    ensures record.Some? <==> errors == []
  {
    errors := NameErrors(row, known, fold);
    errors := errors + AmountErrors(row);
    record := None;
    if errors == [] {
      assert AmountErrors(row) == [];
      CompleteRow(row);
      var status := StatusOf(row, today);
      errors := errors + StatusErrors(status, row.original.v, row.outstanding.v, row.due.v, today);
      if errors == [] {
        record := Some(Receivable(row.reference, row.name, row.number, row.original.v, row.outstanding.v, row.issue.v,
                                  row.due.v, status));
      }
    }
  }

  lemma CompleteRow(row: Row)
    requires AmountErrors(row) == []
    ensures row.original.Value? && row.outstanding.Value? && row.issue.Value? && row.due.Value?
    ensures 0 < row.original.v && 0 <= row.outstanding.v <= row.original.v && row.issue.v <= row.due.v
    ensures !row.status.Unsupported?
  {
  }

  method ParseReceivables(rows: seq<Row>, customers: seq<CustomerRow>, today: int, fold: Fold)
      returns (verdicts: seq<Verdict>, records: seq<Receivable>)
    ensures verdicts == ParseRows(rows, |rows|, customers, today, fold).verdicts
    ensures records == ParseRows(rows, |rows|, customers, today, fold).records
  {
    hide Validate, HasInvoice, KnownName;
    verdicts, records := [], [];
    var seen: map<Key, Receivable>, names: map<string, string> := map[], map[];
    for i := 0 to |rows|
      invariant Parse(verdicts, records, seen, names) == ParseRows(rows, i, customers, today, fold)
    {
      var verdict := InvalidRow;
      var record, _ := ValidateRow(rows[i], KnownName(customers, fold(rows[i].reference), fold), today, fold);
      if record.Some? {
        var reference := fold(record.value.reference);
        if !(reference in names && fold(names[reference]) != fold(record.value.name)) {
          names := names[reference := record.value.name];
          var key := KeyOf(record.value, fold);
          if HasInvoice(customers, key, fold) {
            verdict := DuplicateRow;
          } else if key in seen {
            verdict := if seen[key] == record.value then DuplicateRow else InvalidRow;
          } else {
            seen := seen[key := record.value];
            records := records + [record.value];
            verdict := ValidRow;
          }
        }
      }
      verdicts := verdicts + [verdict];
    }
  }

  /** A file with an invalid row is not persisted at all. */
  method PersistReceivables(verdicts: seq<Verdict>, records: seq<Receivable>, customers: seq<CustomerRow>, fold: Fold)
    returns (after: Option<seq<CustomerRow>>)
    ensures after == if InvalidRow in verdicts then None else Some(PersistRecords(customers, records, |records|, fold))
  {
    if InvalidRow in verdicts {
      return None;
    }
    var all := customers;
    for i := 0 to |records|
      invariant all == PersistRecords(customers, records, i, fold)
    {
      all := AddInvoice(all, records[i], fold);
    }
    after := Some(all);
  }

  // ---------------------------------------------------------------- what is accepted

  predicate Constrained(r: Receivable, today: int) {
    && 0 < r.original && 0 <= r.outstanding <= r.original && r.issue <= r.due
    && r.reference != "" && r.name != "" && r.number != ""
    && (r.status.PaidInvoice? ==> r.outstanding == 0)
    && (r.status.OpenInvoice? || r.status.Disputed? || r.status.OverdueInvoice? || r.status.PartiallyPaid? ==>
          0 < r.outstanding)
    && (r.status.PartiallyPaid? ==> r.outstanding < r.original)
    && (r.status.OverdueInvoice? ==> r.due < today)
  }

  lemma ValidateConstrains(row: Row, known: Option<string>, today: int, fold: Fold)
    ensures var record := Validate(row, known, today, fold);
            record.Some? ==>
              && Constrained(record.value, today)
              && record.value.reference == row.reference && record.value.name == row.name && record.value.number
                  == row.number
              && (known.Some? && known.value != "" ==> fold(known.value) == fold(row.name))
  {
    if Validate(row, known, today, fold).Some? {
      var names, amounts := NameErrors(row, known, fold), AmountErrors(row);
      assert names == [] && amounts == [] by { assert names + amounts == []; }
      CompleteRow(row);
    }
  }

  /** What the parse state knows about what it has accepted so far. */
  ghost predicate Accepted(p: Parse, customers: seq<CustomerRow>, today: int, fold: Fold) {
    && (forall i :: 0 <= i < |p.records| ==>
          && Constrained(p.records[i], today)
          && !HasInvoice(customers, KeyOf(p.records[i], fold), fold)
          && KeyOf(p.records[i], fold) in p.seen && p.seen[KeyOf(p.records[i], fold)] == p.records[i]
          && fold(p.records[i].reference) in p.names
          && fold(p.names[fold(p.records[i].reference)]) == fold(p.records[i].name))
    && (forall i, j :: 0 <= i < j < |p.records| ==> KeyOf(p.records[i], fold) != KeyOf(p.records[j], fold))
    && (forall key :: key in p.seen ==>
          exists i :: 0 <= i < |p.records| && p.records[i] == p.seen[key] && KeyOf(p.records[i], fold) == key)
  }

  lemma NamingKeepsAccepted(p: Parse, reference: string, name: string, customers: seq<CustomerRow>, today: int,
                            fold: Fold)
    requires Accepted(p, customers, today, fold)
    requires reference in p.names ==> fold(p.names[reference]) == fold(name)
    ensures Accepted(p.(names := p.names[reference := name]), customers, today, fold)
  {
    hide Constrained, HasInvoice, KeyOf;
  }

  lemma NotingKeepsAccepted(p: Parse, verdict: Verdict, customers: seq<CustomerRow>, today: int, fold: Fold)
    requires Accepted(p, customers, today, fold)
    ensures Accepted(Note(p, verdict), customers, today, fold)
  {
    hide Constrained, HasInvoice, KeyOf;
  }

  lemma AddingKeepsAccepted(p: Parse, record: Receivable, customers: seq<CustomerRow>, today: int, fold: Fold)
    requires Accepted(p, customers, today, fold)
    requires Constrained(record, today) && !HasInvoice(customers, KeyOf(record, fold), fold)
             && KeyOf(record, fold) !in p.seen
    requires fold(record.reference) in p.names && fold(p.names[fold(record.reference)]) == fold(record.name)
    ensures Accepted(p.(seen := p.seen[KeyOf(record, fold) := record], records := p.records + [record]), customers,
                     today, fold)
  {
    hide Constrained, HasInvoice, KeyOf;
    var r := p.(seen := p.seen[KeyOf(record, fold) := record], records := p.records + [record]);
    forall key | key in r.seen
      ensures exists i :: 0 <= i < |r.records| && r.records[i] == r.seen[key] && KeyOf(r.records[i], fold) == key
    {
      if key == KeyOf(record, fold) {
        assert r.records[|p.records|] == r.seen[key];
      } else {
        var i :| 0 <= i < |p.records| && p.records[i] == p.seen[key] && KeyOf(p.records[i], fold) == key;
        assert r.records[i] == p.records[i];
      }
    }
  }

  lemma ParseRowAccepts(p: Parse, row: Row, customers: seq<CustomerRow>, today: int, fold: Fold)
    requires Accepted(p, customers, today, fold)
    ensures Accepted(ParseRow(p, row, customers, today, fold), customers, today, fold)
  {
    hide Validate, Constrained, HasInvoice, KnownName, Accepted, Note;
    ValidateConstrains(row, KnownName(customers, fold(row.reference), fold), today, fold);
    NotingKeepsAccepted(p, InvalidRow, customers, today, fold);
    var validated := Validate(row, KnownName(customers, fold(row.reference), fold), today, fold);
    if validated.Some? {
      var record := validated.value;
      var reference := fold(record.reference);
      if !(reference in p.names && fold(p.names[reference]) != fold(record.name)) {
        var named := p.(names := p.names[reference := record.name]);
        NamingKeepsAccepted(p, reference, record.name, customers, today, fold);
        NotingKeepsAccepted(named, DuplicateRow, customers, today, fold);
        NotingKeepsAccepted(named, InvalidRow, customers, today, fold);
        var key := KeyOf(record, fold);
        if !HasInvoice(customers, key, fold) && key !in p.seen {
          AddingKeepsAccepted(named, record, customers, today, fold);
          NotingKeepsAccepted(named.(seen := p.seen[key := record], records := p.records + [record]), ValidRow,
                              customers, today, fold);
        }
      }
    }
  }

  /** Accepted records meet the invoice constraints, have keys that are distinct up to case and
      new to the portfolio, and use one name, up to case, for each customer reference. */
  lemma {:induction false} AcceptedRecordsAreSafe(rows: seq<Row>, n: nat, customers: seq<CustomerRow>, today: int,
                                                  fold: Fold)
    requires n <= |rows|
    ensures Accepted(ParseRows(rows, n, customers, today, fold), customers, today, fold)
  {
    hide Accepted, ParseRow;
    if n == 0 {
      assert Accepted(NOTHING_PARSED, customers, today, fold) by { NothingAccepted(customers, today, fold); }
    } else {
      AcceptedRecordsAreSafe(rows, n - 1, customers, today, fold);
      ParseRowAccepts(ParseRows(rows, n - 1, customers, today, fold), rows[n - 1], customers, today, fold);
    }
  }

  lemma NothingAccepted(customers: seq<CustomerRow>, today: int, fold: Fold)
    ensures Accepted(NOTHING_PARSED, customers, today, fold)
  {
  }

  // ---------------------------------------------------------------- persisting

  /** Adding an invoice adds its key, and a name only for a reference that had none. */
  lemma AddInvoiceKeys(customers: seq<CustomerRow>, r: Receivable, fold: Fold)
    ensures var after := AddInvoice(customers, r, fold);
            forall key :: HasInvoice(after, key, fold) <==> HasInvoice(customers, key, fold) || key == KeyOf(r, fold)
  {
    var after := AddInvoice(customers, r, fold);
    var at := CustomerAt(customers, fold(r.reference), fold);
    var c := if at.Some? then at.value else |customers|;
    assert after[c].numbers[|after[c].numbers| - 1] == r.number;
    forall key | HasInvoice(customers, key, fold)
      ensures HasInvoice(after, key, fold)
    {
      var i, n :| 0 <= i < |customers| && 0 <= n < |customers[i].numbers|
                  && Key(fold(customers[i].reference), fold(customers[i].numbers[n])) == key;
      assert after[i].reference == customers[i].reference && after[i].numbers[n] == customers[i].numbers[n];
    }
    forall key | HasInvoice(after, key, fold) && key != KeyOf(r, fold)
      ensures HasInvoice(customers, key, fold)
    {
      var i, n :| 0 <= i < |after| && 0 <= n < |after[i].numbers|
                  && Key(fold(after[i].reference), fold(after[i].numbers[n])) == key;
      assert i < |customers| && n < |customers[i].numbers|;
      assert after[i].reference == customers[i].reference && after[i].numbers[n] == customers[i].numbers[n];
    }
  }

  lemma {:induction false} CustomerAtSame(a: seq<CustomerRow>, b: seq<CustomerRow>, reference: string, fold: Fold)
    requires |a| == |b| && forall k :: 0 <= k < |a| ==> a[k].reference == b[k].reference
    ensures CustomerAt(a, reference, fold) == CustomerAt(b, reference, fold)
  {
    if a != [] {
      CustomerAtSame(a[..|a| - 1], b[..|b| - 1], reference, fold);
    }
  }

  lemma AddInvoiceNames(customers: seq<CustomerRow>, r: Receivable, reference: string, fold: Fold)
    ensures var before, after := KnownName(customers, reference, fold),
            KnownName(AddInvoice(customers, r, fold), reference, fold);
            && (before.Some? ==> after == before)
            && (before.None? ==> after == if reference == fold(r.reference) then Some(r.name) else None)
  {
    var after := AddInvoice(customers, r, fold);
    if CustomerAt(customers, fold(r.reference), fold).Some? {
      CustomerAtSame(customers, after, reference, fold);
    } else {
      assert after[..|customers|] == customers;
    }
  }

  /** After persisting, every record's key is known, nothing known is lost, and a reference has
      the name it had or else the name of one of its records. */
  lemma {:induction false} PersistedPortfolio(customers: seq<CustomerRow>, records: seq<Receivable>, n: nat,
                                              reference: string, fold: Fold)
    requires n <= |records|
    ensures var after := PersistRecords(customers, records, n, fold);
            && (forall i :: 0 <= i < n ==> HasInvoice(after, KeyOf(records[i], fold), fold))
            && (forall key :: HasInvoice(customers, key, fold) ==> HasInvoice(after, key, fold))
            && NameGrounded(customers, records, n, KnownName(after, reference, fold), reference, fold)
  {
    hide HasInvoice, KnownName, AddInvoice, NameGrounded;
    if n == 0 {
      NameGroundedStart(customers, records, reference, fold);
    } else {
      PersistedPortfolio(customers, records, n - 1, reference, fold);
      var before := PersistRecords(customers, records, n - 1, fold);
      AddInvoiceKeys(before, records[n - 1], fold);
      AddInvoiceNames(before, records[n - 1], reference, fold);
      NameGroundedStep(customers, records, n, KnownName(before, reference, fold),
                       KnownName(AddInvoice(before, records[n - 1], fold), reference, fold), reference, fold);
    }
  }

  ghost predicate NameGrounded(customers: seq<CustomerRow>, records: seq<Receivable>, n: nat, name: Option<string>,
                               reference: string, fold: Fold)
    requires n <= |records|
  {
    && (KnownName(customers, reference, fold).Some? ==> name == KnownName(customers, reference, fold))
    && (KnownName(customers, reference, fold).None? && name.Some? ==>
          exists i :: 0 <= i < n && fold(records[i].reference) == reference && records[i].name == name.value)
  }

  lemma NameGroundedStart(customers: seq<CustomerRow>, records: seq<Receivable>, reference: string, fold: Fold)
    ensures NameGrounded(customers, records, 0, KnownName(customers, reference, fold), reference, fold)
  {
  }

  lemma NameGroundedStep(customers: seq<CustomerRow>, records: seq<Receivable>, n: nat, before: Option<string>,
                         after: Option<string>,
                         reference: string, fold: Fold)
    requires 0 < n <= |records| && NameGrounded(customers, records, n - 1, before, reference, fold)
    requires before.Some? ==> after == before
    requires before.None? ==> after == if reference
             == fold(records[n - 1].reference) then Some(records[n - 1].name) else None
    ensures NameGrounded(customers, records, n, after, reference, fold)
  {
    hide KnownName;
    if KnownName(customers, reference, fold).None? && before.Some? {
      var i :| 0 <= i < n - 1 && fold(records[i].reference) == reference && records[i].name == before.value;
      assert fold(records[i].reference) == reference && records[i].name == after.value;
    }
  }

  // ---------------------------------------------------------------- importing again

  /** A row that was valid stays valid on later days, under any known name equal up to case. */
  lemma ValidateLater(row: Row, known: Option<string>, again: Option<string>, today: int, later: int, fold: Fold)
    requires today <= later && Validate(row, known, today, fold).Some?
    requires again.Some? && again.value != "" ==> fold(again.value) == fold(row.name)
    ensures Validate(row, again, later, fold).Some?
  {
    var names, amounts := NameErrors(row, known, fold), AmountErrors(row);
    assert names == [] && amounts == [] by { assert names + amounts == []; }
    CompleteRow(row);
    assert NameErrors(row, again, fold) == [] by { NamesStay(row, known, again, fold); }
    assert NameErrors(row, again, fold) + AmountErrors(row) == [];
    var status := StatusOf(row, today);
    StatusesStay(status, row.original.v, row.outstanding.v, row.due.v, today, later);
    DerivedIsConsistent(row.original.v, row.outstanding.v, row.due.v, later);
  }

  lemma NamesStay(row: Row, known: Option<string>, again: Option<string>, fold: Fold)
    requires NameErrors(row, known, fold) == []
    requires again.Some? && again.value != "" ==> fold(again.value) == fold(row.name)
    ensures NameErrors(row, again, fold) == []
  {
  }

  lemma StatusesStay(status: InvoiceStatus, original: int, outstanding: int, due: int, today: int, later: int)
    requires StatusErrors(status, original, outstanding, due, today) == [] && today <= later
    ensures StatusErrors(status, original, outstanding, due, later) == []
  {
  }

  lemma DerivedIsConsistent(original: int, outstanding: int, due: int, today: int)
    requires 0 < original && 0 <= outstanding <= original
    ensures StatusErrors(DerivedStatus(original, outstanding, due, today), original, outstanding, due, today) == []
  {
  }

  /** What a parse without invalid rows says of its first `n` rows: each has a record whose key
      is known or accepted, and all names for a reference agree up to case. */
  ghost predicate RowCovered(row: Row, p: Parse, customers: seq<CustomerRow>, today: int, fold: Fold) {
    var record := Validate(row, KnownName(customers, fold(row.reference), fold), today, fold);
    && record.Some?
    && (HasInvoice(customers, KeyOf(record.value, fold), fold) || KeyOf(record.value, fold) in p.seen)
    && fold(row.reference) in p.names && fold(p.names[fold(row.reference)]) == fold(row.name)
  }

  lemma ParseRowCovers(p: Parse, row: Row, other: Row, customers: seq<CustomerRow>, today: int, fold: Fold)
    ensures var r := ParseRow(p, row, customers, today, fold);
            && (r.verdicts[|p.verdicts|] != InvalidRow ==> RowCovered(row, r, customers, today, fold))
            && (RowCovered(other, p, customers, today, fold) ==> RowCovered(other, r, customers, today, fold))
  {
    hide Validate, HasInvoice, KnownName;
    ValidateConstrains(row, KnownName(customers, fold(row.reference), fold), today, fold);
  }

  lemma {:induction false} AllRowsCovered(rows: seq<Row>, n: nat, customers: seq<CustomerRow>, today: int, fold: Fold,
                                          i: nat)
    requires i < n <= |rows|
    requires InvalidRow !in ParseRows(rows, n, customers, today, fold).verdicts
    ensures RowCovered(rows[i], ParseRows(rows, n, customers, today, fold), customers, today, fold)
  {
    hide RowCovered, ParseRow;
    var p := ParseRows(rows, n - 1, customers, today, fold);
    var r := ParseRows(rows, n, customers, today, fold);
    VerdictsAppend(p, rows[n - 1], customers, today, fold);
    ParseRowCovers(p, rows[n - 1], rows[i], customers, today, fold);
    assert r.verdicts[n - 1] in r.verdicts;
    if i < n - 1 {
      AllRowsCovered(rows, n - 1, customers, today, fold, i);
    }
  }

  lemma VerdictsAppend(p: Parse, row: Row, customers: seq<CustomerRow>, today: int, fold: Fold)
    ensures var r := ParseRow(p, row, customers, today, fold);
            |r.verdicts| == |p.verdicts| + 1 && r.verdicts[..|p.verdicts|] == p.verdicts
            && forall v :: v in p.verdicts ==> v in r.verdicts
  {
  }

  /** All names a parse has noted agree, up to case, with those of another parse. */
  ghost predicate NamesAgree(p: Parse, q: Parse, fold: Fold) {
    forall reference :: reference in p.names ==>
          reference in q.names && fold(p.names[reference]) == fold(q.names[reference])
  }

  /** One row of the second parse: it validates, clashes with no name, and its key exists. */
  lemma RowIsDuplicateAgain(first: Parse, again: Parse, row: Row, customers: seq<CustomerRow>, after: seq<CustomerRow>,
                            today: int, later: int, fold: Fold)
    requires today <= later && RowCovered(row, first, customers, today, fold)
    requires Accepted(first, customers, today, fold)
    requires after == PersistRecords(customers, first.records, |first.records|, fold)
    requires NamesAgree(again, first, fold)
    ensures var r := ParseRow(again, row, after, later, fold);
            && r.verdicts == again.verdicts + [DuplicateRow]
            && NamesAgree(r, first, fold)
  {
    hide Validate, HasInvoice, KnownName, PersistRecords, NameGrounded, Constrained;
    var reference := fold(row.reference);
    PersistedPortfolio(customers, first.records, |first.records|, reference, fold);
    var known, again' := KnownName(customers, reference, fold), KnownName(after, reference, fold);
    ValidateConstrains(row, known, today, fold);
    assert NameGrounded(customers, first.records, |first.records|, again', reference, fold);
    GroundedNameAgrees(first, row, customers, again', today, fold);
    ValidateLater(row, known, again', today, later, fold);
    ValidateConstrains(row, again', later, fold);
    var record := Validate(row, known, today, fold).value;
    var record' := Validate(row, again', later, fold).value;
    assert KeyOf(record, fold) == KeyOf(record', fold);
    if KeyOf(record, fold) in first.seen {
      var i :| 0 <= i < |first.records| && KeyOf(first.records[i], fold) == KeyOf(record, fold);
      assert HasInvoice(after, KeyOf(first.records[i], fold), fold);
    }
  }

  lemma GroundedNameAgrees(first: Parse, row: Row, customers: seq<CustomerRow>, name: Option<string>, today: int,
                           fold: Fold)
    requires RowCovered(row, first, customers, today, fold) && Accepted(first, customers, today, fold)
    requires NameGrounded(customers, first.records, |first.records|, name, fold(row.reference), fold)
    ensures name.Some? && name.value != "" ==> fold(name.value) == fold(row.name)
  {
    hide Validate, HasInvoice, KnownName, Constrained;
    ValidateConstrains(row, KnownName(customers, fold(row.reference), fold), today, fold);
    if KnownName(customers, fold(row.reference), fold).None? && name.Some? {
      var i :| 0 <= i < |first.records| && fold(first.records[i].reference) == fold(row.reference)
          && first.records[i].name == name.value;
    }
  }

  /** Import is idempotent. Once a file without invalid rows has been persisted, parsing it
      again against the new portfolio, on the same or any later day, finds only duplicates. */
  lemma {:induction false} ReimportFindsOnlyDuplicates(rows: seq<Row>, n: nat, customers: seq<CustomerRow>, today: int,
                                                       later: int, fold: Fold)
    requires today <= later && n <= |rows|
    requires InvalidRow !in ParseRows(rows, |rows|, customers, today, fold).verdicts
    ensures var first := ParseRows(rows, |rows|, customers, today, fold);
            var after := PersistRecords(customers, first.records, |first.records|, fold);
            var again := ParseRows(rows, n, after, later, fold);
            && (forall k :: 0 <= k < n ==> again.verdicts[k] == DuplicateRow)
            && NamesAgree(again, first, fold)
  {
    hide ParseRow, RowCovered, Accepted, NamesAgree;
    var first := ParseRows(rows, |rows|, customers, today, fold);
    var after := PersistRecords(customers, first.records, |first.records|, fold);
    if n == 0 {
      assert NamesAgree(NOTHING_PARSED, first, fold) by { NothingToAgree(first, fold); }
    } else {
      ReimportFindsOnlyDuplicates(rows, n - 1, customers, today, later, fold);
      AllRowsCovered(rows, |rows|, customers, today, fold, n - 1);
      AcceptedRecordsAreSafe(rows, |rows|, customers, today, fold);
      RowIsDuplicateAgain(first, ParseRows(rows, n - 1, after, later, fold), rows[n - 1], customers, after, today,
                          later, fold);
    }
  }

  lemma NothingToAgree(first: Parse, fold: Fold)
    ensures NamesAgree(NOTHING_PARSED, first, fold)
  {
  }

  // ---------------------------------------------------------------- exactly which rows are accepted

  /** A row with names of allowed length, a name that agrees with the portfolio, and all amounts
      and dates present and consistent. */
  predicate RowComplete(row: Row, known: Option<string>, fold: Fold) {
    && 0 < |row.reference| <= 100 && 0 < |row.name| <= 255 && 0 < |row.number| <= 100
    && (known.Some? && known.value != "" ==> fold(known.value) == fold(row.name))
    && row.original.Value? && row.outstanding.Value? && row.issue.Value? && row.due.Value?
    && 0 < row.original.v && 0 <= row.outstanding.v <= row.original.v && row.issue.v <= row.due.v
    && row.currency in {"", "INR"} && row.status != Unsupported
  }

  /** A status that fits the amounts and dates it comes with. */
  predicate StatusFits(status: InvoiceStatus, original: int, outstanding: int, due: int, today: int) {
    match status
    case PaidInvoice => outstanding == 0
    case OpenInvoice => 0 < outstanding
    case Disputed => 0 < outstanding
    case OverdueInvoice => 0 < outstanding && due < today
    case PartiallyPaid => 0 < outstanding < original
    case WrittenOff => true
    case CancelledInvoice => true
  }

  /** The status of a row that gives none: paid without a balance, partially paid below the
      original amount, and otherwise overdue or open by its due date. */
  predicate StatusDerived(status: InvoiceStatus, original: int, outstanding: int, due: int, today: int) {
    && (status == PaidInvoice <==> outstanding == 0)
    && (status == PartiallyPaid <==> outstanding != 0 && outstanding < original)
    && (status == OverdueInvoice <==> outstanding != 0 && original <= outstanding && due < today)
    && (status == OpenInvoice <==> outstanding != 0 && original <= outstanding && today <= due)
  }

  lemma NameErrorsExactly(row: Row, known: Option<string>, fold: Fold)
    ensures NameErrors(row, known, fold) == [] <==>
              && 0 < |row.reference| <= 100 && 0 < |row.name| <= 255 && 0 < |row.number| <= 100
              && (known.Some? && known.value != "" ==> fold(known.value) == fold(row.name))
  {
  }

  lemma AmountErrorsExactly(row: Row)
    ensures AmountErrors(row) == [] <==>
              && row.original.Value? && row.outstanding.Value? && row.issue.Value? && row.due.Value?
              && 0 < row.original.v && 0 <= row.outstanding.v <= row.original.v && row.issue.v <= row.due.v
              && row.currency in {"", "INR"} && row.status != Unsupported
  {
  }

  lemma StatusErrorsExactly(status: InvoiceStatus, original: int, outstanding: int, due: int, today: int)
    requires 0 <= outstanding
    ensures StatusErrors(status, original, outstanding, due, today) == []
            <==> StatusFits(status, original, outstanding, due, today)
  {
  }

  /** Exactly which rows give a record, and which one: complete rows whose given status fits, or
      that give none; the record carries the row's own values, and the status given or derived. */
  lemma ValidateExactly(row: Row, known: Option<string>, today: int, fold: Fold)
    ensures var record := Validate(row, known, today, fold);
            && (record.Some? <==>
                  && RowComplete(row, known, fold)
                  && (row.status.Given? ==> StatusFits(row.status.status, row.original.v, row.outstanding.v, row.due.v,
                                                       today)))
            && (record.Some? ==>
                  var r := record.value;
                  && r == Receivable(row.reference, row.name, row.number, row.original.v, row.outstanding.v,
                                     row.issue.v, row.due.v, r.status)
                  && (if row.status.Given? then r.status == row.status.status
                      else StatusDerived(r.status, r.original, r.outstanding, r.due, today)))
  {
    hide NameErrors, AmountErrors, StatusErrors;
    var names, amounts := NameErrors(row, known, fold), AmountErrors(row);
    assert names + amounts == [] <==> names == [] && amounts == [];
    NameErrorsExactly(row, known, fold);
    AmountErrorsExactly(row);
    if amounts == [] {
      var o, b, d := row.original.v, row.outstanding.v, row.due.v;
      StatusErrorsExactly(StatusOf(row, today), o, b, d, today);
      DerivedIsConsistent(o, b, d, today);
    }
  }

  /** How a row is judged among those before it. It is invalid if it gives no record, or names its
      customer otherwise than an earlier row of the file, or repeats a key of the file with other
      values; it is a duplicate if its key is in the portfolio, or it repeats an earlier record;
      and otherwise it is accepted. */
  lemma VerdictExactly(p: Parse, row: Row, customers: seq<CustomerRow>, today: int, fold: Fold)
    requires Accepted(p, customers, today, fold)
    ensures var after := ParseRow(p, row, customers, today, fold);
            var record := Validate(row, KnownName(customers, fold(row.reference), fold), today, fold);
            var reference := fold(row.reference);
            var renamed := reference in p.names && fold(p.names[reference]) != fold(row.name);
            var key := Key(reference, fold(row.number));
            var taken := exists i :: 0 <= i < |p.records| && KeyOf(p.records[i], fold) == key;
            && |after.verdicts| == |p.verdicts| + 1 && after.verdicts[..|p.verdicts|] == p.verdicts
            && var verdict := after.verdicts[|p.verdicts|];
               && (verdict == DuplicateRow <==>
                     record.Some? && !renamed && (HasInvoice(customers, key, fold) || record.value in p.records))
               && (verdict == ValidRow <==> record.Some? && !renamed && !HasInvoice(customers, key, fold) && !taken)
               && after.records == (if verdict == ValidRow then p.records + [record.value] else p.records)
  {
    hide Validate, HasInvoice, KnownName, Constrained;
    ValidateConstrains(row, KnownName(customers, fold(row.reference), fold), today, fold);
  }
}
