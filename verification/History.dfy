/** The recovery proof over every run: whatever ticks, deliveries and synchronisations do, the
    history kept on each invoice stays complete, so reporting can look back at it. */
module History {
  import opened Domain
  import opened Ledger
  import Simulation
  import Payments
  import opened Synchronisation
  import opened Backend
  import Reconciliation

  // ---------------------------------------------------------------- no payment from the future

  ghost predicate Past(payments: seq<Payment>, today: int) {
    forall k :: 0 <= k < |payments| ==> payments[k].date <= today
  }

  ghost predicate AllPast(invoices: seq<Invoice>, today: int) {
    forall i :: 0 <= i < |invoices| ==> Past(invoices[i].payments, today)
  }

  lemma ApplyIsPast(t: Simulation.TickState, today: int, kind: Simulation.EventKind, roll: Simulation.Roll)
    requires Simulation.Available(t, kind) && AllPast(t.invoices, today)
    ensures AllPast(Simulation.Apply(t, today, kind, roll).0.invoices, today)
  {
    hide Simulation.Candidates, Simulation.BreakCandidates, Simulation.EventAmount, Simulation.FractionalAmount,
        Simulation.FulfilCovered;
  }

  lemma {:induction false} GenerateIsPast(t: Simulation.TickState, today: int, rolls: nat -> Simulation.Roll,
                                          ordinal: nat, count: nat)
    requires AllPast(t.invoices, today)
    ensures AllPast(Simulation.Generate(t, today, rolls, ordinal, count).0.invoices, today)
    decreases count
  {
    hide Simulation.Apply, AllPast;
    if count != 0 && Simulation.AvailableKinds(t) != [] {
      var kind := Simulation.Chosen(t, rolls(ordinal));
      assert kind in Simulation.AvailableKinds(t);
      ApplyIsPast(t, today, kind, rolls(ordinal));
      GenerateIsPast(Simulation.Apply(t, today, kind, rolls(ordinal)).0, today, rolls, ordinal + 1, count - 1);
    }
  }

  lemma TickIsPast(invoices: seq<Invoice>, today: int, rolls: nat -> Simulation.Roll, secondary: nat)
    requires AllPast(invoices, today)
    ensures match Simulation.Tick(invoices, today, rolls, secondary)
            case None => true
            case Some((after, _)) => AllPast(after, today)
  {
    hide Simulation.Generate, Simulation.AvailableKinds, Simulation.AllActive;
    var morning := Simulation.Morning(invoices, today);
    assert AllPast(morning.invoices, today);
    if Simulation.AvailableKinds(morning) != [] {
      GenerateIsPast(morning, today, rolls, 0, 1 + secondary);
    }
  }

  lemma StepIsPast(w: World, op: Operation)
    requires Valid(w) && AllPast(w.store.invoices, w.today)
    ensures AllPast(Step(w, op).store.invoices, Step(w, op).today)
  {
    hide Simulation.Tick, Payments.Ingest, Payments.Create, Record, Items, SyncCases;
    match op
    case Tick(rolls, secondary) =>
      TickIsPast(w.store.invoices, w.today + 1, rolls, secondary);
    case Deliver(request, from, delivery) =>
      if request < |w.store.requests| {
        Payments.IngestMoves(w.store, request, from, w.today, delivery);
      }
    case RequestPayment(caseId, _, _, _, _) =>
      if caseId < |w.cases| {
        CreateKeepsInvoices(w, op);
      }
    case Synchronise =>
  }

  lemma {:induction false} RunIsPast(w: World, ops: seq<Operation>)
    requires Valid(w) && AllPast(w.store.invoices, w.today)
    ensures AllPast(Run(w, ops).store.invoices, Run(w, ops).today)
    decreases |ops|
  {
    hide Step, AllPast;
    if ops != [] {
      StepValid(w, ops[0]);
      StepIsPast(w, ops[0]);
      RunIsPast(Step(w, ops[0]), ops[1..]);
    }
  }

  // ---------------------------------------------------------------- the recovery proof looks back

  function Evidenced(payments: seq<Payment>, firstId: nat): (r: seq<Reconciliation.EvidencedPayment>)
    ensures |r| == |payments|
    ensures forall k :: 0 <= k < |r| ==> r[k].amount == payments[k].amount && r[k].date == payments[k].date
  {
    if payments == [] then []
    else
      [Reconciliation.EvidencedPayment(firstId, payments[0].amount, payments[0].date)]
          + Evidenced(payments[1..], firstId + 1)
  }

  /** An invoice as the recovery proof reads it. */
  function Reported(inv: Invoice, customer: nat, imported: bool, firstId: nat): Reconciliation.BatchInvoice {
    Reconciliation.BatchInvoice(customer, imported, inv.issueDate, inv.dueDate, inv.original, inv.outstanding,
                                inv.status,
                                Evidenced(inv.payments, firstId))
  }

  lemma {:induction false} EvidencedTotal(payments: seq<Payment>, firstId: nat)
    ensures Reconciliation.AmountOf(Evidenced(payments, firstId)) == PaymentSum(payments)
  {
    if payments != [] {
      EvidencedTotal(payments[1..], firstId + 1);
      assert Evidenced(payments, firstId)[1..] == Evidenced(payments[1..], firstId + 1);
    }
  }

  /** A ledger as the portfolio starts with it: sound, complete and without future payments. */
  ghost predicate CompleteLedger(w: World) {
    && Valid(w) && AllPast(w.store.invoices, w.today)
    && forall i :: 0 <= i < |w.store.invoices| ==>
         Sound(w.store.invoices[i])
         && w.store.invoices[i].outstanding + PaymentSum(w.store.invoices[i].payments) == w.store.invoices[i].original
  }

  /** From a complete ledger every run leads to a complete ledger, in which every invoice meets
      what the recovery proof needs to reconstruct its balance at the end of its due date. */
  lemma EveryReachableLedgerReconciles(w: World, ops: seq<Operation>, i: nat, customer: nat, imported: bool,
                                       firstId: nat)
    requires CompleteLedger(w) && i < |w.store.invoices|
    ensures var last := Run(w, ops);
            && CompleteLedger(last)
            && i < |last.store.invoices|
            && var inv := Reported(last.store.invoices[i], customer, imported, firstId);
               && Reconciliation.Reconciles(inv, last.today)
               && Reconciliation.BalanceAt(inv, inv.dueDate)
                   == inv.outstanding + Reconciliation.RecoveredOn(inv, last.today)
  {
    hide Run, AllPast, PaymentSum, Reconciliation.BalanceAt, Reconciliation.RecoveredOn, Reconciliation.AmountOf;
    var last := Run(w, ops);
    LedgerConserved(w, ops);
    RunIsPast(w, ops);
    forall k | 0 <= k < |last.store.invoices|
      ensures Sound(last.store.invoices[k])
      ensures last.store.invoices[k].outstanding + PaymentSum(last.store.invoices[k].payments)
              == last.store.invoices[k].original
    {
      assert InvoiceMoves(w.store.invoices[k], last.store.invoices[k], w.today, last.today);
    }
    var y := last.store.invoices[i];
    EvidencedTotal(y.payments, firstId);
    assert Past(y.payments, last.today) by { PastOf(last.store.invoices, last.today, i); }
    Reconciliation.BalanceAtDueDate(Reported(y, customer, imported, firstId), last.today);
  }

  lemma PastOf(invoices: seq<Invoice>, today: int, i: nat)
    requires AllPast(invoices, today) && i < |invoices|
    ensures Past(invoices[i].payments, today)
  {
  }
}
