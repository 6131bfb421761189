/** The backend as one machine: simulation ticks, provider deliveries, payment requests and
    synchronisations in any order, over one ledger. The theorems hold of every run. */
module Backend {
  import opened Domain
  import opened Engine
  import opened Ledger
  import opened Synchronisation
  import Simulation
  import TickProperties
  import opened Payments

  datatype World = World(today: int, store: Store, cases: seq<CaseRow>, log: seq<AuditEntry>)

  datatype Operation =
    | Tick(rolls: nat -> Simulation.Roll, secondary: nat)
    | Deliver(request: nat, from: CaseRef, delivery: Delivery)
    | RequestPayment(caseId: nat, input: CreateInput, provider: ProviderName, mode: ProviderMode,
                     answer: ProviderAnswer)
    | Synchronise

  ghost predicate Valid(w: World) {
    AllLinked(w.cases, w.store.invoices)
  }

  function Synced(w: World): World
    requires AllLinked(w.cases, w.store.invoices)
  {
    w.(cases := SyncCases(w.cases, w.store.invoices, w.today),
       log := Record(w.log, Items(w.cases, w.store.invoices, w.today)))
  }

  /** A tick moves the date and the invoices and then synchronises; an applied delivery
      synchronises too. Operations on rows that do not exist do nothing. */
  function Step(w: World, op: Operation): World
    requires AllLinked(w.cases, w.store.invoices)
  {
    match op
    case Tick(rolls, secondary) =>
      (match Simulation.Tick(w.store.invoices, w.today + 1, rolls, secondary)
       case None => w
       case Some((after, _)) => Synced(w.(today := w.today + 1, store := w.store.(invoices := after))))
    case Deliver(request, from, delivery) =>
      if |w.store.requests| <= request then w
      else
        var (after, outcome) := Ingest(w.store, request, from, w.today, delivery);
        IngestMoves(w.store, request, from, w.today, delivery);
        if outcome.Applied? then Synced(w.(store := after)) else w.(store := after)
    case RequestPayment(caseId, input, provider, mode, answer) =>
      if |w.cases| <= caseId then w
      else w.(store := Create(w.store, caseId, w.cases[caseId], w.today, input, provider, mode, answer).0)
    case Synchronise => Synced(w)
  }

  lemma StepValid(w: World, op: Operation)
    requires Valid(w)
    ensures Valid(Step(w, op))
  {
    hide Ingest, Create, Simulation.Tick, Record, Items, SyncCases;
    if op.Deliver? && op.request < |w.store.requests| {
      IngestMoves(w.store, op.request, op.from, w.today, op.delivery);
    } else if op.RequestPayment? && op.caseId < |w.cases| {
      CreateKeepsInvoices(w, op);
    }
  }

  lemma CreateKeepsInvoices(w: World, op: Operation)
    requires Valid(w) && op.RequestPayment? && op.caseId < |w.cases|
    ensures var after := Create(w.store, op.caseId, w.cases[op.caseId], w.today, op.input, op.provider, op.mode,
                                op.answer).0;
            after.invoices == w.store.invoices && after.events == w.store.events
  {
    hide RefusalOf;
  }

  ghost function Run(w: World, ops: seq<Operation>): (r: World)
    requires Valid(w)
    ensures Valid(r)
    decreases |ops|
  {
    if ops == [] then w
    else
      StepValid(w, ops[0]);
      Run(Step(w, ops[0]), ops[1..])
  }

  // ---------------------------------------------------------------- the ledger over a run

  /** Every invoice has moved as it may since `a`, and stayed sound and honest. */
  ghost predicate LedgerMoves(a: World, b: World) {
    && a.today <= b.today
    && |b.store.invoices| == |a.store.invoices|
    && |b.cases| == |a.cases|
    && forall i :: 0 <= i < |a.store.invoices| ==>
          InvoiceMoves(a.store.invoices[i], b.store.invoices[i], a.today, b.today)
  }

  ghost predicate InvoiceMoves(x: Invoice, y: Invoice, today: int, later: int) {
    && Evolves(x, y, later)
    && (Sound(x) ==> Sound(y))
    && (Sound(x) && PromisesHonest(x, today) ==> PromisesHonest(y, later))
  }

  lemma InvoiceMovesTrans(x: Invoice, y: Invoice, z: Invoice, d0: int, d1: int, d2: int)
    requires InvoiceMoves(x, y, d0, d1) && InvoiceMoves(y, z, d1, d2) && d0 <= d1 <= d2
    ensures InvoiceMoves(x, z, d0, d2)
  {
    hide Evolves, Sound, PromisesHonest;
    EvolvesTrans(x, y, z, d1, d2);
  }

  lemma InvoiceRests(x: Invoice, today: int, later: int)
    requires 0 <= x.outstanding && today <= later
    ensures InvoiceMoves(x, x, today, later)
  {
    EvolvesRefl(x, later);
    if Sound(x) && PromisesHonest(x, today) {
      HonestyPersists(x, [], today, later);
      assert x.(payments := x.payments + []) == x;
    }
  }

  lemma SettleMoves(x: Invoice, amount: int, date: int, today: int)
    requires 0 < amount <= x.outstanding
    ensures InvoiceMoves(x, Settle(x, amount, date), today, today)
  {
    SettleEvolves(x, amount, date, today);
    if Sound(x) && PromisesHonest(x, today) {
      HonestyPersists(x, [Payment(amount, date)], today, today);
    }
  }

  lemma TickMoves(w: World, after: seq<Invoice>, rolls: nat -> Simulation.Roll, secondary: nat, i: nat)
    requires Simulation.Tick(w.store.invoices, w.today + 1, rolls, secondary).Some?
    requires Simulation.Tick(w.store.invoices, w.today + 1, rolls, secondary).value.0 == after
    requires TickProperties.Solvent(w.store.invoices)
    requires i < |w.store.invoices| == |after|
    ensures InvoiceMoves(w.store.invoices[i], after[i], w.today, w.today + 1)
    ensures 0 <= after[i].outstanding
  {
    hide Simulation.Tick, Evolves, Sound, PromisesHonest;
    TickProperties.TickEvolves(w.store.invoices, w.today + 1, rolls, secondary);
    InvoiceRests(w.store.invoices[i], w.today, w.today + 1);
  }

  lemma StepMoves(w: World, op: Operation)
    requires Valid(w) && TickProperties.Solvent(w.store.invoices)
    ensures LedgerMoves(w, Step(w, op))
    ensures TickProperties.Solvent(Step(w, op).store.invoices)
  {
    hide Simulation.Tick, Ingest, Create, Record, Items, SyncCases, InvoiceMoves, Settle;
    var next := Step(w, op);
    assert |next.cases| == |w.cases| by { SyncKeepsCount(w, op); }
    if op.Deliver? && op.request < |w.store.requests| {
      IngestMoves(w.store, op.request, op.from, w.today, op.delivery);
    } else if op.RequestPayment? && op.caseId < |w.cases| {
      CreateKeepsInvoices(w, op);
    }
    forall i | 0 <= i < |w.store.invoices|
      ensures InvoiceMoves(w.store.invoices[i], next.store.invoices[i], w.today, next.today)
      ensures 0 <= next.store.invoices[i].outstanding
    {
      if next.store.invoices[i] == w.store.invoices[i] {
        InvoiceRests(w.store.invoices[i], w.today, next.today);
      } else if op.Tick? {
        TickMoves(w, next.store.invoices, op.rolls, op.secondary, i);
      } else {
        DeliveryMoves(w, op, i);
      }
    }
  }

  lemma DeliveryMoves(w: World, op: Operation, i: nat)
    requires Valid(w) && op.Deliver? && op.request < |w.store.requests| && i < |w.store.invoices|
    requires |Step(w, op).store.invoices| == |w.store.invoices|
    requires Step(w, op).store.invoices[i] != w.store.invoices[i]
    ensures InvoiceMoves(w.store.invoices[i], Step(w, op).store.invoices[i], w.today, w.today)
    ensures 0 <= Step(w, op).store.invoices[i].outstanding
  {
    hide Ingest, InvoiceMoves, Record, Items, SyncCases;
    IngestMoves(w.store, op.request, op.from, w.today, op.delivery);
    SettleMoves(w.store.invoices[i], op.delivery.amount, op.delivery.date, w.today);
  }

  lemma SyncKeepsCount(w: World, op: Operation)
    requires Valid(w)
    ensures |Step(w, op).cases| == |w.cases|
  {
    hide Simulation.Tick, Ingest, Create, Record, Items, SyncRow;
  }

  /** Ledger conservation. Over every run each invoice keeps its terms, its balance plus its
      payments is constant, the balance never grows and never goes below zero, payments are
      only appended and positive, "paid" goes with a zero balance, and a promise stored as
      fulfilled is evaluated fulfilled. */
  lemma {:induction false} LedgerConserved(w: World, ops: seq<Operation>)
    requires Valid(w) && TickProperties.Solvent(w.store.invoices)
    ensures LedgerMoves(w, Run(w, ops))
    ensures TickProperties.Solvent(Run(w, ops).store.invoices)
    decreases |ops|
  {
    hide Step, InvoiceMoves;
    if ops == [] {
      forall i | 0 <= i < |w.store.invoices|
        ensures InvoiceMoves(w.store.invoices[i], w.store.invoices[i], w.today, w.today)
      {
        InvoiceRests(w.store.invoices[i], w.today, w.today);
      }
    } else {
      StepValid(w, ops[0]);
      StepMoves(w, ops[0]);
      var next := Step(w, ops[0]);
      LedgerConserved(next, ops[1..]);
      var last := Run(w, ops);
      forall i | 0 <= i < |w.store.invoices|
        ensures InvoiceMoves(w.store.invoices[i], last.store.invoices[i], w.today, last.today)
      {
        InvoiceMovesTrans(w.store.invoices[i], next.store.invoices[i], last.store.invoices[i], w.today, next.today,
                          last.today);
      }
    }
  }

  /** Promise progress over every run: what the evaluator says of a promise moves only from
      active over broken to fulfilled, and cancellation is permanent. */
  lemma PromisesOnlyProgress(w: World, ops: seq<Operation>, i: nat, j: nat)
    requires Valid(w) && TickProperties.Solvent(w.store.invoices)
    requires i < |w.store.invoices| && j < |w.store.invoices[i].promises|
    requires Sound(w.store.invoices[i])
    ensures var last := Run(w, ops);
            && i < |last.store.invoices| && j < |last.store.invoices[i].promises|
            && var before := EvaluatePromise(w.store.invoices[i].promises[j], w.store.invoices[i].payments, w.today);
               var after := EvaluatePromise(last.store.invoices[i].promises[j], last.store.invoices[i].payments,
                                            last.today);
               Rank(before) <= Rank(after) && (before.IsCancelled? <==> after.IsCancelled?)
  {
    hide Run, EvaluatePromise;
    LedgerConserved(w, ops);
    var last := Run(w, ops);
    var x, y := w.store.invoices[i], last.store.invoices[i];
    assert InvoiceMoves(x, y, w.today, last.today);
    var more := y.payments[|x.payments|..];
    assert y.payments == x.payments + more;
    assert PromiseMoves(x.promises[j], y.promises[j], last.today);
    PromiseProgress(x.promises[j], y.promises[j], x.payments, more, w.today, last.today);
  }

  // ---------------------------------------------------------------- requests and audits over a run

  ghost predicate InOrder(w: World) {
    Reconciled(w.store) && OneOpenPerCase(w.store.requests) && AuditedOnce(w.log)
  }

  lemma SyncedInOrder(w: World)
    requires Valid(w) && InOrder(w)
    ensures InOrder(Synced(w)) && w.log <= Synced(w).log
  {
    hide Reconciled, OneOpenPerCase, AuditedOnce, Record, Items, SyncCases;
    RecordKeepsOnce(w.log, Items(w.cases, w.store.invoices, w.today));
  }

  lemma StepInOrder(w: World, op: Operation)
    requires Valid(w) && InOrder(w)
    ensures InOrder(Step(w, op)) && w.log <= Step(w, op).log
  {
    hide Simulation.Tick, Ingest, Create, Record, Items, SyncCases, OneOpenPerCase, AuditedOnce, RequestsBalance,
        EventsDistinct;
    match op
    case Tick(rolls, secondary) =>
      var t := Simulation.Tick(w.store.invoices, w.today + 1, rolls, secondary);
      if t.Some? {
        var moved := w.(today := w.today + 1, store := w.store.(invoices := t.value.0));
        ReconciledIgnoresInvoices(w.store, moved.store);
        SyncedInOrder(moved);
      }
    case Deliver(request, from, d) =>
      if request < |w.store.requests| {
        IngestReconciles(w.store, request, from, w.today, d);
        IngestKeepsOneOpen(w.store, request, from, w.today, d);
        IngestMoves(w.store, request, from, w.today, d);
        var moved := w.(store := Ingest(w.store, request, from, w.today, d).0);
        SyncedInOrder(moved);
      }
    case RequestPayment(caseId, input, provider, mode, answer) =>
      if caseId < |w.cases| {
        CreateReconciles(w.store, caseId, w.cases[caseId], w.today, input, provider, mode, answer);
        CreateKeepsOneOpen(w.store, caseId, w.cases[caseId], w.today, input, provider, mode, answer);
      }
    case Synchronise => SyncedInOrder(w);
  }

  lemma ReconciledIgnoresInvoices(a: Store, b: Store)
    requires Reconciled(a) && b == a.(invoices := b.invoices)
    ensures Reconciled(b)
  {
    hide RequestBalances;
  }

  /** In every reachable state each request has been paid what its accepted events say and is
      paid exactly when it is cleared, event identities are distinct, no case has two open
      requests, and no detection was audited twice; and the audit log only grows. */
  lemma {:induction false} OrderIsKept(w: World, ops: seq<Operation>)
    requires Valid(w) && InOrder(w)
    ensures InOrder(Run(w, ops)) && w.log <= Run(w, ops).log
    decreases |ops|
  {
    hide Step, InOrder;
    if ops != [] {
      StepValid(w, ops[0]);
      StepInOrder(w, ops[0]);
      OrderIsKept(Step(w, ops[0]), ops[1..]);
    }
  }

  // ---------------------------------------------------------------- resolved cases stay resolved

  /** A case whose invoice is settled and that is resolved, or closed, for good. */
  ghost predicate Finished(w: World, c: nat) {
    && c < |w.cases|
    && (w.cases[c].state.Closed?
        || (&& w.cases[c].state.Resolved? && !w.cases[c].closed
            && w.cases[c].invoice.Some? && w.cases[c].invoice.value < |w.store.invoices|
            && w.store.invoices[w.cases[c].invoice.value].issueDate <= w.today
            && w.store.invoices[w.cases[c].invoice.value].outstanding == 0))
  }

  /** Synchronising a case whose invoice is settled finishes it. */
  lemma SettledCaseFinishes(w: World, c: nat)
    requires Valid(w) && c < |w.cases| && w.cases[c].invoice.Some?
    requires w.store.invoices[w.cases[c].invoice.value].issueDate <= w.today
    requires w.store.invoices[w.cases[c].invoice.value].outstanding == 0
    ensures Finished(Synced(w), c)
  {
    hide Record, Items;
    SettledResolves(w.cases[c], w.store.invoices, w.today);
  }

  lemma FinishedSurvivesFacts(a: World, b: World, c: nat)
    requires Finished(a, c) && LedgerMoves(a, b) && b.cases == a.cases
    ensures Finished(b, c)
  {
    if !a.cases[c].state.Closed? {
      var i := a.cases[c].invoice.value;
      assert InvoiceMoves(a.store.invoices[i], b.store.invoices[i], a.today, b.today);
    }
  }

  lemma FinishedSurvivesSync(w: World, c: nat)
    requires Valid(w) && Finished(w, c)
    ensures Finished(Synced(w), c) && Synced(w).cases[c].state == w.cases[c].state
  {
    hide Record, Items;
    if w.cases[c].state.Closed? {
      ClosedAbsorbs(w.cases[c], w.store.invoices, w.today);
    } else {
      SettledResolves(w.cases[c], w.store.invoices, w.today);
    }
  }

  lemma StepKeepsFinished(w: World, op: Operation, c: nat)
    requires Valid(w) && TickProperties.Solvent(w.store.invoices) && Finished(w, c)
    ensures Finished(Step(w, op), c) && Step(w, op).cases[c].state == w.cases[c].state
  {
    hide Simulation.Tick, Ingest, Create, SyncCases, Record, Items, Finished;
    StepMoves(w, op);
    match op
    case Tick(rolls, secondary) =>
      var t := Simulation.Tick(w.store.invoices, w.today + 1, rolls, secondary);
      if t.Some? {
        var moved := w.(today := w.today + 1, store := w.store.(invoices := t.value.0));
        assert LedgerMoves(w, moved);
        FinishedSurvivesFacts(w, moved, c);
        FinishedSurvivesSync(moved, c);
      }
    case Deliver(request, from, d) =>
      if request < |w.store.requests| {
        IngestMoves(w.store, request, from, w.today, d);
        var moved := w.(store := Ingest(w.store, request, from, w.today, d).0);
        assert LedgerMoves(w, moved);
        FinishedSurvivesFacts(w, moved, c);
        FinishedSurvivesSync(moved, c);
      }
    case RequestPayment(caseId, input, provider, mode, answer) =>
      FinishedSurvivesFacts(w, Step(w, op), c);
    case Synchronise => FinishedSurvivesSync(w, c);
  }

  /** A resolved case with a settled invoice stays resolved, and a closed case closed, at all
      later dates of every run. */
  lemma {:induction false} FinishedForGood(w: World, ops: seq<Operation>, c: nat)
    requires Valid(w) && TickProperties.Solvent(w.store.invoices) && Finished(w, c)
    ensures Finished(Run(w, ops), c) && Run(w, ops).cases[c].state == w.cases[c].state
    decreases |ops|
  {
    hide Step, Finished;
    assert c < |w.cases| by { FinishedExists(w, c); }
    if ops != [] {
      StepValid(w, ops[0]);
      StepMoves(w, ops[0]);
      StepKeepsFinished(w, ops[0], c);
      FinishedForGood(Step(w, ops[0]), ops[1..], c);
    }
  }

  lemma FinishedExists(w: World, c: nat)
    requires Finished(w, c)
    ensures c < |w.cases|
  {
  }

  // ---------------------------------------------------------------- redelivery

  /** An operation of a run, or an extra one inserted into it. */
  datatype Marked = Marked(op: Operation, extra: bool)

  ghost function Everything(marked: seq<Marked>): seq<Operation>
    decreases |marked|
  {
    if marked == [] then [] else [marked[0].op] + Everything(marked[1..])
  }

  ghost function Original(marked: seq<Marked>): seq<Operation>
    decreases |marked|
  {
    if marked == [] then []
    else if marked[0].extra then Original(marked[1..])
    else [marked[0].op] + Original(marked[1..])
  }

  /** Every extra operation delivers an event whose id or payment reference the demo provider
      already has on record at that point of the run. */
  ghost predicate ExtrasAreRedeliveries(w: World, marked: seq<Marked>)
    requires Valid(w)
    decreases |marked|
  {
    marked == [] ||
    (&& (marked[0].extra ==>
           marked[0].op.Deliver? && FindEvent(w.store.events, ProviderDemo, marked[0].op.delivery).Some?)
     && (StepValid(w, marked[0].op); ExtrasAreRedeliveries(Step(w, marked[0].op), marked[1..])))
  }

  /** Everything but the provider audit trail agrees. */
  ghost predicate SameFacts(a: World, b: World) {
    a == b.(store := b.store.(audits := a.store.audits))
  }

  lemma StepSameFacts(a: World, b: World, op: Operation)
    requires Valid(a) && Valid(b) && SameFacts(a, b)
    ensures SameFacts(Step(a, op), Step(b, op))
  {
    hide Simulation.Tick, Record, Items, SyncCases, FindEvent, EvaluateCase, Settle;
  }

  lemma RedeliveryKeepsFacts(w: World, op: Operation)
    requires Valid(w) && op.Deliver? && FindEvent(w.store.events, ProviderDemo, op.delivery).Some?
    ensures SameFacts(Step(w, op), w)
  {
    hide Ingest, Record, Items, SyncCases;
    if op.request < |w.store.requests| {
      RedeliveryIsInert(w.store, op.request, op.from, w.today, op.delivery);
    }
  }

  /** Redelivery invariance. Inserting any number of redeliveries of accepted events into a
      run, at any later positions, leaves the date, the invoices, the requests, the provider
      events, the cases and the recovery audit log exactly as they would have been. */
  lemma {:induction false} RedeliveriesChangeNothing(a: World, b: World, marked: seq<Marked>)
    requires Valid(a) && Valid(b) && SameFacts(a, b)
    requires ExtrasAreRedeliveries(a, marked)
    ensures SameFacts(Run(a, Everything(marked)), Run(b, Original(marked)))
    decreases |marked|
  {
    hide Step, FindEvent, SameFacts;
    if marked != [] {
      var op := marked[0].op;
      StepValid(a, op);
      StepValid(b, op);
      var all, rest := Everything(marked), Everything(marked[1..]);
      assert all[0] == op && all[1..] == rest;
      if marked[0].extra {
        RedeliveryKeepsFacts(a, op);
        SameFactsTrans(Step(a, op), a, b);
        RedeliveriesChangeNothing(Step(a, op), b, marked[1..]);
      } else {
        var original := Original(marked);
        assert original[0] == op && original[1..] == Original(marked[1..]);
        StepSameFacts(a, b, op);
        RedeliveriesChangeNothing(Step(a, op), Step(b, op), marked[1..]);
      }
    }
  }

  lemma SameFactsTrans(a: World, b: World, c: World)
    requires SameFacts(a, b) && SameFacts(b, c)
    ensures SameFacts(a, c)
  {
  }

  // ---------------------------------------------------------------- the cases follow the facts

  /** Every case is in the state the facts call for today. */
  ghost predicate AtRest(w: World) {
    && AllLinked(w.cases, w.store.invoices)
    && forall c :: 0 <= c < |w.cases| ==>
          EvaluateCase(ViewOf(w.cases[c], w.store.invoices), w.today).derived == w.cases[c].state
  }

  /** What an operation changes in the facts is followed by the cases at once: after a tick, an
      applied delivery or a synchronisation every case is in the state the facts call for; and an
      operation that changes no invoice and no date leaves the cases alone or brings them there. */
  lemma CasesFollowTheFacts(w: World, op: Operation)
    requires Valid(w)
    ensures var after := Step(w, op);
            && (after.today != w.today || after.store.invoices != w.store.invoices || op.Synchronise? ==> AtRest(after))
            && (AtRest(w) ==> AtRest(after))
  {
    hide Simulation.Tick, Ingest, Create, Record, Items, EvaluateCase, SyncRow;
    if op.Tick? {
      var ticked := Simulation.Tick(w.store.invoices, w.today + 1, op.rolls, op.secondary);
      if ticked.Some? {
        SyncedAtRest(w.(today := w.today + 1, store := w.store.(invoices := ticked.value.0)));
      }
    } else if op.Deliver? && op.request < |w.store.requests| {
      IngestMoves(w.store, op.request, op.from, w.today, op.delivery);
      var (after, outcome) := Ingest(w.store, op.request, op.from, w.today, op.delivery);
      if outcome.Applied? {
        SyncedAtRest(w.(store := after));
      }
    } else if op.RequestPayment? && op.caseId < |w.cases| {
      CreateKeepsInvoices(w, op);
    } else if op.Synchronise? {
      SyncedAtRest(w);
    }
  }

  lemma SyncedAtRest(w: World)
    requires Valid(w)
    ensures AtRest(Synced(w)) && Synced(w).today == w.today && Synced(w).store == w.store
  {
    hide Record, Items, EvaluateCase;
    forall c | 0 <= c < |w.cases|
      ensures EvaluateCase(ViewOf(SyncRow(w.cases[c], w.store.invoices, w.today), w.store.invoices), w.today).derived
           == SyncRow(w.cases[c], w.store.invoices, w.today).state
    {
      SyncedRowRests(w.cases[c], w.store.invoices, w.today);
    }
  }
}
