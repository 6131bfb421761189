/** What a synchronisation writes to the audit log, on the fields of the rows: every detection
    that is due and no other, and one entry for every case that moves. */
module SyncAudits {
  import opened Domain
  import opened Engine
  import opened Sums
  import opened Recommendations
  import opened Synchronisation

  // ---------------------------------------------------------------- what is due

  predicate OverdueDue(invoices: seq<Invoice>, i: nat, today: int) {
    && i < |invoices|
    && invoices[i].issueDate <= today && invoices[i].outstanding != 0 && invoices[i].dueDate < today
  }

  /** A promise is broken when it is past its date and the payments since its source, if it has
      one, do not cover it. */
  predicate BrokenDue(invoices: seq<Invoice>, i: nat, j: nat, today: int) {
    && i < |invoices| && j < |invoices[i].promises|
    && var p := invoices[i].promises[j];
       && p.status != CancelledPromise && p.date < today
       && SumOf(invoices[i].payments, (q: Payment) =>
            if q.date <= today && (p.source == None || p.source.value <= q.date) then q.amount else 0) < p.amount
  }

  predicate DisputeDue(cases: seq<CaseRow>, invoices: seq<Invoice>, c: nat)
    requires AllLinked(cases, invoices)
  {
    c < |cases| && cases[c].invoice.Some? && invoices[cases[c].invoice.value].status == Disputed
  }

  predicate IsDue(cases: seq<CaseRow>, invoices: seq<Invoice>, today: int, key: AuditKey)
    requires AllLinked(cases, invoices)
  {
    match key
    case OverdueDetected(i) => OverdueDue(invoices, i, today)
    case BrokenDetected(i, j) => BrokenDue(invoices, i, j, today)
    case DisputeBlocked(c) => DisputeDue(cases, invoices, c)
  }

  // ---------------------------------------------------------------- what is offered

  lemma {:induction false} InvoiceItemsAre(invoices: seq<Invoice>, today: int, from: nat, item: AuditEntry)
    requires from <= |invoices|
    ensures item in AllInvoiceItems(invoices, today, from) <==>
              && item.Detection? && item.day == today && item.key.OverdueDetected?
              && from <= item.key.invoice && OverdueDue(invoices, item.key.invoice, today)
    decreases |invoices| - from
  {
    hide InvoiceItems;
    if from < |invoices| {
      InvoiceItemsAre(invoices, today, from + 1, item);
      OneInvoiceItemsAre(invoices, today, from, item);
    }
  }

  lemma OneInvoiceItemsAre(invoices: seq<Invoice>, today: int, i: nat, item: AuditEntry)
    requires i < |invoices|
    ensures item in InvoiceItems(invoices, today, i)
       <==> item == Detection(OverdueDetected(i), today) && OverdueDue(invoices, i, today)
  {
    hide EvaluateInvoice;
    InvoiceStateExactly(invoices[i], today);
  }

  lemma {:induction false} RestPromiseItemsAre(invoices: seq<Invoice>, today: int, i: nat, j: nat, item: AuditEntry)
    requires i < |invoices| && j <= |invoices[i].promises|
    ensures item in RestPromiseItems(invoices, today, i, j) <==>
              && item.Detection? && item.day == today && item.key.BrokenDetected? && item.key.ofInvoice == i
              && j <= item.key.promise && BrokenDue(invoices, i, item.key.promise, today)
    decreases |invoices[i].promises| - j
  {
    hide PromiseItems, SumOf;
    if j < |invoices[i].promises| {
      RestPromiseItemsAre(invoices, today, i, j + 1, item);
      OnePromiseItemsAre(invoices, today, i, j, item);
    }
  }

  lemma OnePromiseItemsAre(invoices: seq<Invoice>, today: int, i: nat, j: nat, item: AuditEntry)
    requires i < |invoices| && j < |invoices[i].promises|
    ensures item in PromiseItems(invoices, today, i, j)
       <==> item == Detection(BrokenDetected(i, j), today) && BrokenDue(invoices, i, j, today)
  {
    hide EvaluatePromise, SumOf;
    PromiseStateExactly(invoices[i].promises[j], invoices[i].payments, today);
  }

  lemma {:induction false} PromiseItemsAre(invoices: seq<Invoice>, today: int, from: nat, item: AuditEntry)
    requires from <= |invoices|
    ensures item in AllPromiseItems(invoices, today, from) <==>
              && item.Detection? && item.day == today && item.key.BrokenDetected?
              && from <= item.key.ofInvoice && BrokenDue(invoices, item.key.ofInvoice, item.key.promise, today)
    decreases |invoices| - from
  {
    hide SumOf;
    if from < |invoices| {
      PromiseItemsAre(invoices, today, from + 1, item);
      RestPromiseItemsAre(invoices, today, from, 0, item);
    }
  }

  lemma {:induction false} CaseItemsAre(cases: seq<CaseRow>, invoices: seq<Invoice>, today: int, from: nat,
                                        item: AuditEntry)
    requires AllLinked(cases, invoices) && from <= |cases|
    ensures item in AllCaseItems(cases, invoices, today, from) && item.Detection? <==>
              && item.Detection? && item.day == today && item.key.DisputeBlocked?
              && from <= item.key.ofCase && DisputeDue(cases, invoices, item.key.ofCase)
    decreases |cases| - from
  {
    hide CaseItems;
    if from < |cases| {
      CaseItemsAre(cases, invoices, today, from + 1, item);
      OneCaseItemsAre(cases, invoices, today, from, item);
    }
  }

  lemma OneCaseItemsAre(cases: seq<CaseRow>, invoices: seq<Invoice>, today: int, c: nat, item: AuditEntry)
    requires AllLinked(cases, invoices) && c < |cases|
    ensures item in CaseItems(cases, invoices, today, c) && item.Detection?
       <==> item == Detection(DisputeBlocked(c), today) && DisputeDue(cases, invoices, c)
  {
    DisputedIs(cases[c], invoices, today);
    hide EvaluateCase;
  }

  lemma DisputedIs(row: CaseRow, invoices: seq<Invoice>, today: int)
    requires Linked(row, invoices)
    ensures EvaluateCase(ViewOf(row, invoices), today).disputed
       <==> row.invoice.Some? && invoices[row.invoice.value].status == Disputed
  {
    hide EvaluateInvoice, EvaluatePromises, DesiredState, CommunicationBlockers, RecentCount;
  }

  lemma DetectionsOffered(cases: seq<CaseRow>, invoices: seq<Invoice>, today: int, key: AuditKey, day: int)
    requires AllLinked(cases, invoices)
    ensures Detection(key, day) in Items(cases, invoices, today) <==> day == today && IsDue(cases, invoices, today, key)
  {
    hide AllInvoiceItems, AllPromiseItems, AllCaseItems, OverdueDue, BrokenDue, DisputeDue;
    InvoiceItemsAre(invoices, today, 0, Detection(key, day));
    PromiseItemsAre(invoices, today, 0, Detection(key, day));
    CaseItemsAre(cases, invoices, today, 0, Detection(key, day));
  }

  // ---------------------------------------------------------------- what is recorded

  lemma {:induction false} RecordedExactly(log: seq<AuditEntry>, items: seq<AuditEntry>, key: AuditKey)
    ensures Recorded(Record(log, items), key)
            <==> Recorded(log, key) || exists item :: item in items && item.Detection? && item.key == key
    decreases |items|
  {
    hide Recorded;
    if items != [] {
      RecordedAfter(log, items[0], key);
      RecordedExactly(RecordOne(log, items[0]), items[1..], key);
      assert forall item :: item in items <==> item == items[0] || item in items[1..];
    }
  }

  /** Recording appends, and only entries that were offered. */
  lemma {:induction false} RecordAppends(log: seq<AuditEntry>, items: seq<AuditEntry>)
    ensures log <= Record(log, items)
    ensures forall k :: |log| <= k < |Record(log, items)| ==> Record(log, items)[k] in items
    decreases |items|
  {
    hide Recorded;
    if items != [] {
      RecordAppends(RecordOne(log, items[0]), items[1..]);
    }
  }

  /** Detections exactly. After a synchronisation a detection is on record if and only if it was
      before, or it is due today: for an invoice issued, unpaid and past its due date; for a
      promise not cancelled, past its date and not covered; for a case whose invoice is
      disputed. Each new one carries today's date. */
  lemma DetectionsExactly(cases: seq<CaseRow>, invoices: seq<Invoice>, today: int, log: seq<AuditEntry>, key: AuditKey)
    requires AllLinked(cases, invoices)
    ensures var after := Record(log, Items(cases, invoices, today));
            && (Recorded(after, key) <==> Recorded(log, key) || IsDue(cases, invoices, today, key))
            && log <= after
            && (forall k :: |log| <= k < |after| && after[k].Detection? ==>
                  after[k].day == today && IsDue(cases, invoices, today, after[k].key))
  {
    hide Items, Record, Recorded, IsDue;
    var items := Items(cases, invoices, today);
    var after := Record(log, items);
    RecordAppends(log, items);
    RecordedExactly(log, items, key);
    DetectionsOffered(cases, invoices, today, key, today);
    if item :| item in items && item.Detection? && item.key == key {
      DetectionsOffered(cases, invoices, today, key, item.day);
    }
    forall k | |log| <= k < |after| && after[k].Detection?
      ensures after[k].day == today && IsDue(cases, invoices, today, after[k].key)
    {
      DetectionsOffered(cases, invoices, today, after[k].key, after[k].day);
    }
  }

  // ---------------------------------------------------------------- state changes

  function ChangesOf(log: seq<AuditEntry>, c: nat): seq<AuditEntry> {
    if log == [] then []
    else
      var last := log[|log| - 1];
      ChangesOf(log[..|log| - 1], c) + (if last.StateChange? && last.of == c then [last] else [])
  }

  lemma ChangesSnoc(log: seq<AuditEntry>, item: AuditEntry, c: nat)
    ensures ChangesOf(log + [item], c) == ChangesOf(log, c) + (if item.StateChange? && item.of == c then [item] else [])
  {
    assert (log + [item])[..|log|] == log;
  }

  lemma {:induction false} ChangesAppend(a: seq<AuditEntry>, b: seq<AuditEntry>, c: nat)
    ensures ChangesOf(a + b, c) == ChangesOf(a, c) + ChangesOf(b, c)
  {
    if b == [] {
      assert a + b == a;
    } else {
      var n := |b| - 1;
      assert b == b[..n] + [b[n]];
      assert a + b == (a + b[..n]) + [b[n]];
      ChangesAppend(a, b[..n], c);
      ChangesSnoc(a + b[..n], b[n], c);
      ChangesSnoc(b[..n], b[n], c);
    }
  }

  /** Recording never withholds a state change. */
  lemma {:induction false} RecordKeepsChanges(log: seq<AuditEntry>, items: seq<AuditEntry>, c: nat)
    ensures ChangesOf(Record(log, items), c) == ChangesOf(log, c) + ChangesOf(items, c)
    decreases |items|
  {
    hide Recorded;
    if items != [] {
      RecordKeepsChanges(RecordOne(log, items[0]), items[1..], c);
      ChangesSnoc(log, items[0], c);
      ChangesAppend([items[0]], items[1..], c);
      assert items == [items[0]] + items[1..];
      assert [] + [items[0]] == [items[0]];
      ChangesSnoc([], items[0], c);
    }
  }

  lemma {:induction false} NoChanges(items: seq<AuditEntry>, c: nat)
    requires forall k :: 0 <= k < |items| ==> items[k].Detection?
    ensures ChangesOf(items, c) == []
  {
    if items != [] {
      NoChanges(items[..|items| - 1], c);
    }
  }

  /** The entry of a case that moves. */
  function ChangeOf(cases: seq<CaseRow>, invoices: seq<Invoice>, today: int, c: nat): seq<AuditEntry>
    requires AllLinked(cases, invoices)
  {
    if c < |cases| && SyncRow(cases[c], invoices, today).state != cases[c].state
    then [StateChange(c, cases[c].state, SyncRow(cases[c], invoices, today).state, today)] else []
  }

  lemma OwnChange(cases: seq<CaseRow>, invoices: seq<Invoice>, today: int, c: nat, of: nat)
    requires AllLinked(cases, invoices) && c < |cases|
    ensures ChangesOf(CaseItems(cases, invoices, today, c), of)
         == if of == c then ChangeOf(cases, invoices, today, c) else []
  {
    EvaluationKeepsState(ViewOf(cases[c], invoices), today);
    hide EvaluateCase;
    var e := EvaluateCase(ViewOf(cases[c], invoices), today);
    var detections := if e.disputed then [Detection(DisputeBlocked(c), today)] else [];
    var changes := if e.current != e.derived then [StateChange(c, e.current, e.derived, today)] else [];
    NoChanges(detections, of);
    ChangesAppend(detections, changes, of);
    if changes != [] {
      ChangesSnoc([], changes[0], of);
      assert [] + changes == changes;
    }
  }

  lemma {:induction false} CaseChanges(cases: seq<CaseRow>, invoices: seq<Invoice>, today: int, from: nat, c: nat)
    requires AllLinked(cases, invoices) && from <= |cases|
    ensures ChangesOf(AllCaseItems(cases, invoices, today, from), c)
         == if from <= c then ChangeOf(cases, invoices, today, c) else []
    decreases |cases| - from
  {
    hide CaseItems, SyncRow;
    if from < |cases| {
      CaseChanges(cases, invoices, today, from + 1, c);
      OwnChange(cases, invoices, today, from, c);
      ChangesAppend(CaseItems(cases, invoices, today, from), AllCaseItems(cases, invoices, today, from + 1), c);
    }
  }

  /** State changes exactly. A synchronisation adds one entry, with the states before and after
      and today's date, for every case whose state moves, and none for any other. */
  lemma StateChangesExactly(cases: seq<CaseRow>, invoices: seq<Invoice>, today: int, log: seq<AuditEntry>, c: nat)
    requires AllLinked(cases, invoices)
    ensures ChangesOf(Record(log, Items(cases, invoices, today)), c)
         == ChangesOf(log, c) + ChangeOf(cases, invoices, today, c)
  {
    hide AllInvoiceItems, AllPromiseItems, AllCaseItems, Record, ChangesOf, ChangeOf;
    var a, b, d := AllInvoiceItems(invoices, today, 0), AllPromiseItems(invoices, today, 0),
        AllCaseItems(cases, invoices, today, 0);
    RecordKeepsChanges(log, Items(cases, invoices, today), c);
    ChangesAppend(a + b, d, c);
    ChangesAppend(a, b, c);
    InvoiceItemsAreDetections(invoices, today, 0);
    PromiseItemsAreDetections(invoices, today, 0);
    NoChanges(a, c);
    NoChanges(b, c);
    CaseChanges(cases, invoices, today, 0, c);
  }

  // ---------------------------------------------------------------- the rows

  /** What a synchronisation does to a row: it takes the state the facts call for, with today's
      date if that is a new one, and nothing else changes. */
  lemma RowExactly(row: CaseRow, invoices: seq<Invoice>, today: int)
    requires Linked(row, invoices)
    ensures var r := SyncRow(row, invoices, today); var derived := EvaluateCase(ViewOf(row, invoices), today).derived;
            && r == row.(state := derived, updatedOn := r.updatedOn)
            && r.updatedOn == (if derived == row.state then row.updatedOn else today)
  {
    EvaluationKeepsState(ViewOf(row, invoices), today);
    hide EvaluateCase;
  }

  lemma {:induction false} CountChanges(log: seq<AuditEntry>, items: seq<AuditEntry>)
    ensures CountOf(Record(log, items), (e: AuditEntry) => e.StateChange?)
         == CountOf(log, (e: AuditEntry) => e.StateChange?) + CountOf(items, (e: AuditEntry) => e.StateChange?)
    decreases |items|
  {
    hide Recorded;
    if items != [] {
      CountChanges(RecordOne(log, items[0]), items[1..]);
      CountConcat(log, [items[0]], (e: AuditEntry) => e.StateChange?);
      assert CountOf([items[0]], (e: AuditEntry) => e.StateChange?) == if items[0].StateChange? then 1 else 0;
    }
  }

  lemma {:induction false} CaseMoves(cases: seq<CaseRow>, invoices: seq<Invoice>, today: int, from: nat)
    requires AllLinked(cases, invoices) && from <= |cases|
    ensures CountOf(AllCaseItems(cases, invoices, today, from), (e: AuditEntry) => e.StateChange?)
         == MoveCount(cases, invoices, today, |cases|) - MoveCount(cases, invoices, today, from)
    decreases |cases| - from
  {
    hide CaseItems, Moves;
    if from < |cases| {
      CaseMoves(cases, invoices, today, from + 1);
      var own, rest := CaseItems(cases, invoices, today, from), AllCaseItems(cases, invoices, today, from + 1);
      CountConcat(own, rest, (e: AuditEntry) => e.StateChange?);
      OwnMove(cases, invoices, today, from);
    }
  }

  lemma OwnMove(cases: seq<CaseRow>, invoices: seq<Invoice>, today: int, c: nat)
    requires AllLinked(cases, invoices) && c < |cases|
    ensures CountOf(CaseItems(cases, invoices, today, c), (e: AuditEntry) => e.StateChange?)
         == if Moves(cases[c], invoices, today) then 1 else 0
  {
    hide EvaluateCase;
    var e := EvaluateCase(ViewOf(cases[c], invoices), today);
    var detections := if e.disputed then [Detection(DisputeBlocked(c), today)] else [];
    var changes := if e.current != e.derived then [StateChange(c, e.current, e.derived, today)] else [];
    CountConcat(detections, changes, (e: AuditEntry) => e.StateChange?);
  }

  /** The reported number of changed cases is the number of state changes written to the log. */
  lemma ReportedMovesAreAudited(cases: seq<CaseRow>, invoices: seq<Invoice>, today: int, log: seq<AuditEntry>)
    requires AllLinked(cases, invoices)
    ensures CountOf(Record(log, Items(cases, invoices, today)), (e: AuditEntry) => e.StateChange?)
         == CountOf(log, (e: AuditEntry) => e.StateChange?) + MoveCount(cases, invoices, today, |cases|)
  {
    hide AllInvoiceItems, AllPromiseItems, AllCaseItems, Record, CountOf;
    var a, b, d := AllInvoiceItems(invoices, today, 0), AllPromiseItems(invoices, today, 0),
        AllCaseItems(cases, invoices, today, 0);
    CountChanges(log, Items(cases, invoices, today));
    CountConcat(a + b, d, (e: AuditEntry) => e.StateChange?);
    CountConcat(a, b, (e: AuditEntry) => e.StateChange?);
    InvoiceItemsAreDetections(invoices, today, 0);
    PromiseItemsAreDetections(invoices, today, 0);
    CountZero(a, (e: AuditEntry) => e.StateChange?);
    CountZero(b, (e: AuditEntry) => e.StateChange?);
    CaseMoves(cases, invoices, today, 0);
  }
}
