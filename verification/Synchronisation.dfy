/** Synchronisation of recovery cases with the facts (recovery/engine.py): case states follow
    the evaluation, every detection is audited once, every state change is audited. */
module Synchronisation {
  import opened Domain
  import opened Engine

  /** A row of the case table; `invoice` is a row number of the invoice table. */
  datatype CaseRow = CaseRow(
    customerId: nat,
    customer: Customer,
    invoice: Option<nat>,
    state: RecoveryState,
    priority: Priority,
    closed: bool,
    updatedOn: int,
    actions: seq<ActionFact>,
    signals: seq<Signal>)

  predicate Linked(row: CaseRow, invoices: seq<Invoice>) {
    row.invoice.Some? ==> row.invoice.value < |invoices|
  }

  predicate AllLinked(cases: seq<CaseRow>, invoices: seq<Invoice>) {
    forall c :: 0 <= c < |cases| ==> Linked(cases[c], invoices)
  }

  function ViewOf(row: CaseRow, invoices: seq<Invoice>): RecoveryCase
    requires Linked(row, invoices)
  {
    RecoveryCase(row.customer, if row.invoice.Some? then Some(invoices[row.invoice.value]) else None,
                 row.state, row.priority, row.closed, row.actions, row.signals)
  }

  datatype AuditKey =
    | OverdueDetected(invoice: nat)
    | BrokenDetected(ofInvoice: nat, promise: nat)
    | DisputeBlocked(ofCase: nat)

  datatype AuditEntry =
    | Detection(key: AuditKey, day: int)
    | StateChange(of: nat, before: RecoveryState, after: RecoveryState, day: int)

  // ---------------------------------------------------------------- what a synchronisation records

  /** The entries a synchronisation would like to add, in order. A detection is only added
      when its key is new. */
  function InvoiceItems(invoices: seq<Invoice>, today: int, i: nat): seq<AuditEntry>
    requires i < |invoices|
  {
    if EvaluateInvoice(invoices[i], today).state.Overdue? then [Detection(OverdueDetected(i), today)] else []
  }

  function PromiseItems(invoices: seq<Invoice>, today: int, i: nat, j: nat): seq<AuditEntry>
    requires i < |invoices| && j < |invoices[i].promises|
  {
    if EvaluatePromise(invoices[i].promises[j], invoices[i].payments, today).IsBroken?
    then [Detection(BrokenDetected(i, j), today)] else []
  }

  function CaseItems(cases: seq<CaseRow>, invoices: seq<Invoice>, today: int, c: nat): seq<AuditEntry>
    requires c < |cases| && Linked(cases[c], invoices)
  {
    var e := EvaluateCase(ViewOf(cases[c], invoices), today);
    (if e.disputed then [Detection(DisputeBlocked(c), today)] else [])
    + (if e.current != e.derived then [StateChange(c, e.current, e.derived, today)] else [])
  }

  function AllInvoiceItems(invoices: seq<Invoice>, today: int, from: nat): seq<AuditEntry>
    requires from <= |invoices|
    decreases |invoices| - from
  {
    if from == |invoices| then [] else InvoiceItems(invoices, today, from) + AllInvoiceItems(invoices, today, from + 1)
  }

  function RestPromiseItems(invoices: seq<Invoice>, today: int, i: nat, j: nat): seq<AuditEntry>
    requires i < |invoices| && j <= |invoices[i].promises|
    decreases |invoices[i].promises| - j
  {
    if j == |invoices[i].promises| then []
    else PromiseItems(invoices, today, i, j) + RestPromiseItems(invoices, today, i, j + 1)
  }

  function AllPromiseItems(invoices: seq<Invoice>, today: int, from: nat): seq<AuditEntry>
    requires from <= |invoices|
    decreases |invoices| - from
  {
    if from == |invoices| then []
    else RestPromiseItems(invoices, today, from, 0) + AllPromiseItems(invoices, today, from + 1)
  }

  function AllCaseItems(cases: seq<CaseRow>, invoices: seq<Invoice>, today: int, from: nat): seq<AuditEntry>
    requires AllLinked(cases, invoices) && from <= |cases|
    decreases |cases| - from
  {
    if from == |cases| then []
    else CaseItems(cases, invoices, today, from) + AllCaseItems(cases, invoices, today, from + 1)
  }

  function Items(cases: seq<CaseRow>, invoices: seq<Invoice>, today: int): seq<AuditEntry>
    requires AllLinked(cases, invoices)
  {
    AllInvoiceItems(invoices, today, 0) + AllPromiseItems(invoices, today, 0) + AllCaseItems(cases, invoices, today, 0)
  }

  predicate Recorded(log: seq<AuditEntry>, key: AuditKey) {
    exists k :: 0 <= k < |log| && log[k].Detection? && log[k].key == key
  }

  function RecordOne(log: seq<AuditEntry>, item: AuditEntry): seq<AuditEntry> {
    if item.Detection? && Recorded(log, item.key) then log else log + [item]
  }

  function Record(log: seq<AuditEntry>, items: seq<AuditEntry>): seq<AuditEntry>
    decreases |items|
  {
    if items == [] then log else Record(RecordOne(log, items[0]), items[1..])
  }

  function SyncRow(row: CaseRow, invoices: seq<Invoice>, today: int): (r: CaseRow)
    requires Linked(row, invoices)
    ensures Linked(r, invoices)
  {
    var e := EvaluateCase(ViewOf(row, invoices), today);
    if e.current != e.derived then row.(state := e.derived, updatedOn := today) else row
  }

  function SyncCases(cases: seq<CaseRow>, invoices: seq<Invoice>, today: int): (r: seq<CaseRow>)
    requires AllLinked(cases, invoices)
    ensures AllLinked(r, invoices)
  {
    seq(|cases|, c requires 0 <= c < |cases| => SyncRow(cases[c], invoices, today))
  }

  predicate Moves(row: CaseRow, invoices: seq<Invoice>, today: int)
    requires Linked(row, invoices)
  {
    var e := EvaluateCase(ViewOf(row, invoices), today);
    e.current != e.derived
  }

  /** How many of the first `n` cases change state. */
  function MoveCount(cases: seq<CaseRow>, invoices: seq<Invoice>, today: int, n: nat): nat
    requires AllLinked(cases, invoices) && n <= |cases|
  {
    if n == 0 then 0
    else MoveCount(cases, invoices, today, n - 1) + (if Moves(cases[n - 1], invoices, today) then 1 else 0)
  }

  lemma {:induction false} RecordAppend(log: seq<AuditEntry>, a: seq<AuditEntry>, b: seq<AuditEntry>)
    ensures Record(log, a + b) == Record(Record(log, a), b)
    decreases |a|
  {
    hide RecordOne;
    if a == [] {
      assert a + b == b;
    } else {
      assert (a + b)[1..] == a[1..] + b;
      RecordAppend(RecordOne(log, a[0]), a[1..], b);
    }
  }

  /** `known` is the cache of detection keys a synchronisation keeps of the log. */
  ghost predicate Mirrors(known: set<AuditKey>, log: seq<AuditEntry>) {
    forall k :: k in known <==> Recorded(log, k)
  }

  lemma RecordedAfter(log: seq<AuditEntry>, item: AuditEntry, key: AuditKey)
    ensures Recorded(log + [item], key) <==> Recorded(log, key) || (item.Detection? && item.key == key)
  {
    var after := log + [item];
    if Recorded(log, key) {
      var x :| 0 <= x < |log| && log[x].Detection? && log[x].key == key;
      assert after[x] == log[x];
    }
    if item.Detection? && item.key == key {
      assert after[|log|] == item;
    }
  }

  lemma MirrorsAfter(known: set<AuditKey>, log: seq<AuditEntry>, item: AuditEntry)
    requires Mirrors(known, log)
    ensures Mirrors(if item.Detection? then known + {item.key} else known, log + [item])
  {
    hide Recorded;
    forall k
      ensures Recorded(log + [item], k) <==> Recorded(log, k) || (item.Detection? && item.key == k)
    {
      RecordedAfter(log, item, k);
    }
  }

  // ---------------------------------------------------------------- in place

  class CaseTable {
    var cases: seq<CaseRow>
    var log: seq<AuditEntry>

    constructor (cases: seq<CaseRow>, log: seq<AuditEntry>)
      ensures this.cases == cases && this.log == log
    {
      this.cases, this.log := cases, log;
    }

    /** Append a detection unless its key is already there. */
    method AuditOnce(key: AuditKey, day: int, existing: set<AuditKey>) returns (known: set<AuditKey>)
      requires Mirrors(existing, log)
      modifies `log
      ensures log == RecordOne(old(log), Detection(key, day))
      ensures Mirrors(known, log)
    {
      known := existing;
      if key !in existing {
        MirrorsAfter(existing, log, Detection(key, day));
        log := log + [Detection(key, day)];
        known := existing + {key};
      }
    }

    method AuditInvoices(invoices: seq<Invoice>, today: int, existing: set<AuditKey>) returns (known: set<AuditKey>)
      requires Mirrors(existing, log)
      modifies `log
      ensures log == Record(old(log), AllInvoiceItems(invoices, today, 0))
      ensures Mirrors(known, log)
    {
      hide RecordOne, Mirrors, EvaluateInvoice;
      known := existing;
      for i := 0 to |invoices|
        invariant Record(log, AllInvoiceItems(invoices, today, i))
                  == Record(old(log), AllInvoiceItems(invoices, today, 0))
        invariant Mirrors(known, log)
      {
        RecordAppend(log, InvoiceItems(invoices, today, i), AllInvoiceItems(invoices, today, i + 1));
        if EvaluateInvoice(invoices[i], today).state.Overdue? {
          known := AuditOnce(OverdueDetected(i), today, known);
        }
      }
    }

    method AuditPromisesOf(invoices: seq<Invoice>, today: int, i: nat, existing: set<AuditKey>)
        returns (known: set<AuditKey>)
      requires i < |invoices| && Mirrors(existing, log)
      modifies `log
      ensures log == Record(old(log), RestPromiseItems(invoices, today, i, 0))
      ensures Mirrors(known, log)
    {
      hide RecordOne, Mirrors, EvaluatePromise;
      known := existing;
      for j := 0 to |invoices[i].promises|
        invariant Record(log, RestPromiseItems(invoices, today, i, j))
                  == Record(old(log), RestPromiseItems(invoices, today, i, 0))
        invariant Mirrors(known, log)
      {
        RecordAppend(log, PromiseItems(invoices, today, i, j), RestPromiseItems(invoices, today, i, j + 1));
        if EvaluatePromise(invoices[i].promises[j], invoices[i].payments, today).IsBroken? {
          known := AuditOnce(BrokenDetected(i, j), today, known);
        }
      }
    }

    method AuditPromises(invoices: seq<Invoice>, today: int, existing: set<AuditKey>) returns (known: set<AuditKey>)
      requires Mirrors(existing, log)
      modifies `log
      ensures log == Record(old(log), AllPromiseItems(invoices, today, 0))
      ensures Mirrors(known, log)
    {
      hide Record, Mirrors, RestPromiseItems;
      known := existing;
      assert Record(log, []) == log by { RecordNothing(log); }
      for i := 0 to |invoices|
        invariant Record(log, AllPromiseItems(invoices, today, i))
                  == Record(old(log), AllPromiseItems(invoices, today, 0))
        invariant Mirrors(known, log)
      {
        RecordAppend(log, RestPromiseItems(invoices, today, i, 0), AllPromiseItems(invoices, today, i + 1));
        known := AuditPromisesOf(invoices, today, i, known);
      }
      RecordNothing(log);
    }

    method SyncCase(invoices: seq<Invoice>, today: int, c: nat, existing: set<AuditKey>)
        returns (known: set<AuditKey>, moved: bool)
      requires c < |cases| && Linked(cases[c], invoices)
      requires Mirrors(existing, log)
      modifies this
      ensures cases == old(cases)[c := SyncRow(old(cases)[c], invoices, today)]
      ensures log == Record(old(log), CaseItems(old(cases), invoices, today, c))
      ensures Mirrors(known, log)
      ensures moved == Moves(old(cases)[c], invoices, today)
    {
      hide EvaluateCase, Mirrors;
      known := existing;
      var e := EvaluateCase(ViewOf(cases[c], invoices), today);
      ghost var first := if e.disputed then [Detection(DisputeBlocked(c), today)] else [];
      ghost var second := if e.current != e.derived then [StateChange(c, e.current, e.derived, today)] else [];
      RecordAppend(log, first, second);
      RecordSingle(log, Detection(DisputeBlocked(c), today));
      if e.disputed {
        known := AuditOnce(DisputeBlocked(c), today, known);
      }
      moved := e.current != e.derived;
      if moved {
        cases := cases[c := cases[c].(state := e.derived, updatedOn := today)];
        MirrorsAfter(known, log, StateChange(c, e.current, e.derived, today));
        RecordSingle(log, StateChange(c, e.current, e.derived, today));
        log := log + [StateChange(c, e.current, e.derived, today)];
      }
    }

    method SyncEachCase(invoices: seq<Invoice>, today: int, existing: set<AuditKey>) returns (changed: nat)
      requires AllLinked(cases, invoices)
      requires Mirrors(existing, log)
      modifies this
      ensures cases == SyncCases(old(cases), invoices, today)
      ensures log == Record(old(log), AllCaseItems(old(cases), invoices, today, 0))
      ensures changed == MoveCount(old(cases), invoices, today, |old(cases)|)
    {
      hide Record, Mirrors, CaseItems, SyncRow, Moves;
      ghost var before := cases;
      var known, moved := existing, false;
      changed := 0;
      for c := 0 to |cases|
        invariant |cases| == |before|
        invariant forall k :: 0 <= k < c ==> cases[k] == SyncRow(before[k], invoices, today)
        invariant forall k :: c <= k < |before| ==> cases[k] == before[k]
        invariant Record(log, AllCaseItems(before, invoices, today, c))
                  == Record(old(log), AllCaseItems(before, invoices, today, 0))
        invariant Mirrors(known, log)
        invariant changed == MoveCount(before, invoices, today, c)
      {
        RecordAppend(log, CaseItems(before, invoices, today, c), AllCaseItems(before, invoices, today, c + 1));
        CaseItemsLocal(cases, before, invoices, today, c);
        known, moved := SyncCase(invoices, today, c, known);
        if moved {
          changed := changed + 1;
        }
      }
      RecordNothing(log);
    }

    /** Synchronise every case with the facts of a day. */
    method Synchronize(invoices: seq<Invoice>, today: int) returns (changed: nat)
      requires AllLinked(cases, invoices)
      modifies this
      ensures cases == SyncCases(old(cases), invoices, today)
      ensures log == Record(old(log), Items(old(cases), invoices, today))
      ensures changed == MoveCount(old(cases), invoices, today, |old(cases)|)
    {
      hide Record, AllInvoiceItems, AllPromiseItems, AllCaseItems, SyncCases, MoveCount;
      var a, b, c := AllInvoiceItems(invoices, today, 0), AllPromiseItems(invoices, today, 0),
          AllCaseItems(cases, invoices, today, 0);
      RecordAppend(log, a, b);
      RecordAppend(log, a + b, c);
      var known := set e | e in log && e.Detection? :: e.key;
      assert Mirrors(known, log);
      known := AuditInvoices(invoices, today, known);
      known := AuditPromises(invoices, today, known);
      changed := SyncEachCase(invoices, today, known);
    }
  }

  lemma RecordSingle(log: seq<AuditEntry>, item: AuditEntry)
    ensures Record(log, [item]) == RecordOne(log, item)
  {
    assert Record(RecordOne(log, item), []) == RecordOne(log, item);
  }

  lemma RecordNothing(log: seq<AuditEntry>)
    ensures Record(log, []) == log
  {
  }

  lemma CaseItemsLocal(cases: seq<CaseRow>, before: seq<CaseRow>, invoices: seq<Invoice>, today: int, c: nat)
    requires c < |cases| == |before| && cases[c] == before[c] && Linked(cases[c], invoices)
    ensures CaseItems(cases, invoices, today, c) == CaseItems(before, invoices, today, c)
  {
  }

  // ---------------------------------------------------------------- audited at most once

  /** No detection key occurs twice in the log. */
  ghost predicate AuditedOnce(log: seq<AuditEntry>) {
    forall x, y :: 0 <= x < y < |log| && log[x].Detection? && log[y].Detection? ==> log[x].key != log[y].key
  }

  lemma RecordOneKeepsOnce(log: seq<AuditEntry>, item: AuditEntry)
    requires AuditedOnce(log)
    ensures AuditedOnce(RecordOne(log, item)) && log <= RecordOne(log, item)
  {
  }

  /** Recording anything appends to the log and never repeats a detection. */
  lemma {:induction false} RecordKeepsOnce(log: seq<AuditEntry>, items: seq<AuditEntry>)
    requires AuditedOnce(log)
    ensures AuditedOnce(Record(log, items)) && log <= Record(log, items)
    decreases |items|
  {
    hide AuditedOnce, RecordOne;
    if items != [] {
      RecordOneKeepsOnce(log, items[0]);
      RecordKeepsOnce(RecordOne(log, items[0]), items[1..]);
    }
  }

  // ---------------------------------------------------------------- idempotence

  /** Every entry is a detection the log already has. */
  ghost predicate AllKnown(log: seq<AuditEntry>, items: seq<AuditEntry>) {
    forall k :: 0 <= k < |items| ==> items[k].Detection? && Recorded(log, items[k].key)
  }

  lemma {:induction false} RecordKnown(log: seq<AuditEntry>, items: seq<AuditEntry>)
    requires AllKnown(log, items)
    ensures Record(log, items) == log
    decreases |items|
  {
    hide Recorded;
    if items != [] {
      assert RecordOne(log, items[0]) == log;
      RecordKnown(log, items[1..]);
    }
  }

  lemma {:induction false} RecordMakesKnown(log: seq<AuditEntry>, items: seq<AuditEntry>, key: AuditKey)
    requires Recorded(log, key) || exists k :: 0 <= k < |items| && items[k].Detection? && items[k].key == key
    ensures Recorded(Record(log, items), key)
    decreases |items|
  {
    hide Recorded;
    if items != [] {
      RecordedAfter(log, items[0], key);
      if !Recorded(RecordOne(log, items[0]), key) {
        var k :| 0 <= k < |items| && items[k].Detection? && items[k].key == key;
        assert items[1..][k - 1] == items[k];
      }
      RecordMakesKnown(RecordOne(log, items[0]), items[1..], key);
    }
  }

  lemma SyncedRowRests(row: CaseRow, invoices: seq<Invoice>, today: int)
    requires Linked(row, invoices)
    ensures var r := SyncRow(row, invoices, today);
            && EvaluateCase(ViewOf(r, invoices), today).derived == r.state
            && EvaluateCase(ViewOf(r, invoices), today).disputed == EvaluateCase(ViewOf(row, invoices), today).disputed
            && SyncRow(r, invoices, today) == r
            && !Moves(r, invoices, today)
  {
    DerivedStateStable(ViewOf(row, invoices), today);
    var r := SyncRow(row, invoices, today);
    assert ViewOf(r, invoices) == ViewOf(row, invoices).(state := r.state);
  }

  lemma {:induction false} SyncedItemsKnown(cases: seq<CaseRow>, invoices: seq<Invoice>, today: int, from: nat,
                                            items: seq<AuditEntry>, log: seq<AuditEntry>)
    requires AllLinked(cases, invoices) && from <= |cases|
    requires items == AllCaseItems(cases, invoices, today, from)
    requires forall k :: 0 <= k < |items| && items[k].Detection? ==> Recorded(log, items[k].key)
    ensures AllKnown(log, AllCaseItems(SyncCases(cases, invoices, today), invoices, today, from))
    decreases |cases| - from
  {
    hide Recorded, SyncRow, EvaluateCase;
    if from < |cases| {
      var synced := SyncCases(cases, invoices, today);
      SyncedRowRests(cases[from], invoices, today);
      var head := CaseItems(cases, invoices, today, from);
      var rest := AllCaseItems(cases, invoices, today, from + 1);
      assert items == head + rest;
      forall k | 0 <= k < |rest| && rest[k].Detection?
        ensures Recorded(log, rest[k].key)
      {
        assert items[|head| + k] == rest[k];
      }
      SyncedItemsKnown(cases, invoices, today, from + 1, rest, log);
      var e := EvaluateCase(ViewOf(cases[from], invoices), today);
      EvaluationKeepsState(ViewOf(synced[from], invoices), today);
      if e.disputed {
        assert items[0] == Detection(DisputeBlocked(from), today);
        assert CaseItems(synced, invoices, today, from) == [Detection(DisputeBlocked(from), today)];
      } else {
        assert CaseItems(synced, invoices, today, from) == [];
      }
    }
  }

  lemma EvaluationKeepsState(c: RecoveryCase, today: int)
    ensures EvaluateCase(c, today).current == c.state
  {
  }

  lemma {:induction false} InvoiceItemsAreDetections(invoices: seq<Invoice>, today: int, from: nat)
    requires from <= |invoices|
    ensures forall k :: 0 <= k < |AllInvoiceItems(invoices, today, from)| ==>
              AllInvoiceItems(invoices, today, from)[k].Detection?
    decreases |invoices| - from
  {
    if from < |invoices| {
      InvoiceItemsAreDetections(invoices, today, from + 1);
    }
  }

  lemma {:induction false} RestPromiseItemsAreDetections(invoices: seq<Invoice>, today: int, i: nat, j: nat)
    requires i < |invoices| && j <= |invoices[i].promises|
    ensures forall k :: 0 <= k < |RestPromiseItems(invoices, today, i, j)| ==>
              RestPromiseItems(invoices, today, i, j)[k].Detection?
    decreases |invoices[i].promises| - j
  {
    hide EvaluatePromise;
    if j < |invoices[i].promises| {
      RestPromiseItemsAreDetections(invoices, today, i, j + 1);
    }
  }

  lemma {:induction false} PromiseItemsAreDetections(invoices: seq<Invoice>, today: int, from: nat)
    requires from <= |invoices|
    ensures forall k :: 0 <= k < |AllPromiseItems(invoices, today, from)| ==>
              AllPromiseItems(invoices, today, from)[k].Detection?
    decreases |invoices| - from
  {
    hide RestPromiseItems;
    if from < |invoices| {
      RestPromiseItemsAreDetections(invoices, today, from, 0);
      PromiseItemsAreDetections(invoices, today, from + 1);
    }
  }

  /** Synchronising a second time on the same day changes no case and adds no entry. */
  lemma SynchroniseTwice(cases: seq<CaseRow>, log: seq<AuditEntry>, invoices: seq<Invoice>, today: int)
    requires AllLinked(cases, invoices)
    ensures var cases1, log1 := SyncCases(cases, invoices, today), Record(log, Items(cases, invoices, today));
            && SyncCases(cases1, invoices, today) == cases1
            && Record(log1, Items(cases1, invoices, today)) == log1
  {
    hide SyncRow, Recorded, Record, AllInvoiceItems, AllPromiseItems, AllCaseItems;
    var cases1, log1 := SyncCases(cases, invoices, today), Record(log, Items(cases, invoices, today));
    forall c | 0 <= c < |cases|
      ensures SyncRow(cases1[c], invoices, today) == cases1[c]
    {
      SyncedRowRests(cases[c], invoices, today);
    }
    var a, b, c := AllInvoiceItems(invoices, today, 0), AllPromiseItems(invoices, today, 0),
        AllCaseItems(cases, invoices, today, 0);
    var ab := a + b;
    var items := ab + c;
    forall k | 0 <= k < |items| && items[k].Detection?
      ensures Recorded(log1, items[k].key)
    {
      RecordMakesKnown(log, items, items[k].key);
    }
    InvoiceItemsAreDetections(invoices, today, 0);
    PromiseItemsAreDetections(invoices, today, 0);
    forall k | 0 <= k < |ab|
      ensures ab[k].Detection? && Recorded(log1, ab[k].key)
    {
      assert items[k] == ab[k];
    }
    forall k | 0 <= k < |c| && c[k].Detection?
      ensures Recorded(log1, c[k].key)
    {
      assert items[|ab| + k] == c[k];
    }
    SyncedItemsKnown(cases, invoices, today, 0, c, log1);
    RecordKnown(log1, ab + AllCaseItems(cases1, invoices, today, 0));
  }

  // ---------------------------------------------------------------- absorbing states

  /** A closed case stays closed, whatever the facts. */
  lemma ClosedAbsorbs(row: CaseRow, invoices: seq<Invoice>, today: int)
    requires Linked(row, invoices)
    ensures row.closed || row.state.Closed? ==> SyncRow(row, invoices, today).state.Closed?
  {
  }

  /** On a settled invoice synchronisation leaves a case closed or makes it resolved. */
  lemma SettledResolves(row: CaseRow, invoices: seq<Invoice>, today: int)
    requires Linked(row, invoices) && row.invoice.Some?
    requires invoices[row.invoice.value].issueDate <= today && invoices[row.invoice.value].outstanding == 0
    ensures SyncRow(row, invoices, today).state == if row.closed || row.state.Closed? then Closed else Resolved
  {
  }
}
