/** Payment requests and provider events (payments/service.py): an operator creates a request
    for a case, the demo provider reports payments, and every report is applied at most once. */
module Payments {
  import opened Domain
  import opened Engine
  import opened Recommendations
  import opened Ledger
  import opened Synchronisation

  datatype ProviderName = ProviderDemo | Razorpay

  datatype ProviderMode = DemoMode | TestMode

  datatype RequestStatus =
    | PendingProvider | ActiveRequest | PartiallyPaidRequest | PaidRequest | FailedRequest | OtherStatus(text: string)

  /** `reference` is the provider's name for the request. */
  datatype Request = Request(
    caseId: nat,
    customerId: nat,
    invoiceId: nat,
    provider: ProviderName,
    mode: ProviderMode,
    reference: Option<string>,
    requested: int,
    paid: int,
    status: RequestStatus)

  datatype PaymentEventType = RequestPaid | RequestPartiallyPaid

  /** The event schema only admits positive amounts. */
  datatype DeliveryFields = DeliveryFields(
    eventId: string, reference: string, paymentReference: string, amount: int, date: int, kind: PaymentEventType)

  type Delivery = d: DeliveryFields | 0 < d.amount witness DeliveryFields("e", "r", "p", 1, 0, RequestPaid)

  /** The record kept of an accepted delivery. */
  datatype ProviderEvent = ProviderEvent(request: nat, provider: ProviderName, eventId: string,
                                         paymentReference: string, amount: int)

  datatype PaymentAudit =
    | RequestCreated(request: nat)
    | RequestFailed(ofRequest: nat)
    | EventApplied(eventId: string)
    | DuplicateIgnored(replayed: string, original: string)

  datatype Store = Store(invoices: seq<Invoice>, requests: seq<Request>, events: seq<ProviderEvent>,
                         audits: seq<PaymentAudit>)

  datatype Reason =
    | NotConfirmed | NoInvoice | WrongCaseState | NothingOutstanding | StaleAction | StaleAmount | UnsupportedAction
    | Blocked | AmountTooLarge | AlreadyOpen | ProviderFailed
    | NotDemo | WrongRequestState | WrongReference | WrongCase | WrongInvoice | FuturePayment | NothingPayable
    | NotClearing | NotPartial

  // ---------------------------------------------------------------- creating a request

  /** The request schema, too, only admits positive amounts. */
  datatype CreateFields = CreateFields(confirmed: bool, amount: int, expectedAction: Action, expectedOutstanding: int)

  type CreateInput = c: CreateFields | 0 < c.amount witness CreateFields(true, 1, SendPaymentReminder, 1)

  /** What the provider answers to a request. */
  datatype ProviderAnswer = Accepted(reference: string, status: RequestStatus) | Failure

  datatype CreateOutcome = Created(id: nat) | Refused(reason: Reason)

  predicate OpenStatus(s: RequestStatus) {
    s.PendingProvider? || s.ActiveRequest? || s.PartiallyPaidRequest?
  }

  predicate HasOpenRequest(requests: seq<Request>, caseId: nat) {
    exists r :: 0 <= r < |requests| && requests[r].caseId == caseId && OpenStatus(requests[r].status)
  }

  function RefusalOf(store: Store, caseId: nat, row: CaseRow, today: int, input: CreateInput): Option<Reason>
    requires Linked(row, store.invoices)
  {
    if !input.confirmed then Some(NotConfirmed)
    else if row.invoice.None? then Some(NoInvoice)
    else if row.state.AwaitingCustomer? || row.state.PromiseMonitoring? || row.state.Resolved? || row.state.Closed?
        then Some(WrongCaseState)
    else
      var inv := store.invoices[row.invoice.value];
      if inv.outstanding <= 0 || inv.status.PaidInvoice? then Some(NothingOutstanding)
      else
        var c := ViewOf(row, store.invoices);
        var rec := Recommend(c, today);
        if rec.action != input.expectedAction then Some(StaleAction)
        else if inv.outstanding != input.expectedOutstanding then Some(StaleAmount)
        else if !IsOutreach(rec.action) then Some(UnsupportedAction)
        else if rec.blockers != {} || EvaluateCase(c, today).blockers != {} then Some(Blocked)
        else if input.amount > inv.outstanding then Some(AmountTooLarge)
        else if HasOpenRequest(store.requests, caseId) then Some(AlreadyOpen)
        else None
  }

  /** Create a request and record the provider's answer to it. */
  function Create(store: Store, caseId: nat, row: CaseRow, today: int, input: CreateInput, provider: ProviderName,
                  mode: ProviderMode, answer: ProviderAnswer): (r: (Store, CreateOutcome))
    requires Linked(row, store.invoices)
  {
    match RefusalOf(store, caseId, row, today, input)
    case Some(reason) => (store, Refused(reason))
    case None =>
      var id := |store.requests|;
      var record := Request(caseId, row.customerId, row.invoice.value, provider, mode, None, input.amount, 0,
                            PendingProvider);
      match answer
      case Accepted(reference, status) =>
        (store.(requests := store.requests + [record.(reference := Some(reference), status := status)],
                audits := store.audits + [RequestCreated(id)]),
         Created(id))
      case Failure =>
        (store.(requests := store.requests + [record.(status := FailedRequest)],
                audits := store.audits + [RequestFailed(id)]),
         Refused(ProviderFailed))
  }

  // ---------------------------------------------------------------- ingesting an event

  /** The identity of the case a delivery arrives with. */
  datatype CaseRef = CaseRef(id: nat, customerId: nat, invoice: Option<nat>)

  datatype IngestOutcome = Applied(eventId: string) | Duplicate(original: string) | Declined(reason: Reason)

  predicate SameIdentity(e: ProviderEvent, provider: ProviderName, d: Delivery) {
    e.provider == provider && (e.eventId == d.eventId || e.paymentReference == d.paymentReference)
  }

  /** The first recorded event with the identity of a delivery. */
  function FindEvent(events: seq<ProviderEvent>, provider: ProviderName, d: Delivery): (found: Option<ProviderEvent>)
    ensures found.Some? <==> exists k :: 0 <= k < |events| && SameIdentity(events[k], provider, d)
    ensures found.Some? ==> found.value in events && SameIdentity(found.value, provider, d)
  {
    if events == [] then None
    else if SameIdentity(events[0], provider, d) then Some(events[0])
    else FindEvent(events[1..], provider, d)
  }

  function RejectionOf(store: Store, request: nat, c: CaseRef, today: int, d: Delivery): Option<Reason>
    requires request < |store.requests|
  {
    var r := store.requests[request];
    if !r.status.ActiveRequest? && !r.status.PartiallyPaidRequest? then Some(WrongRequestState)
    else if r.reference != Some(d.reference) then Some(WrongReference)
    else if r.caseId != c.id || r.customerId != c.customerId then Some(WrongCase)
    else if c.invoice != Some(r.invoiceId) || |store.invoices| <= r.invoiceId then Some(WrongInvoice)
    else if d.date > today then Some(FuturePayment)
    else
      var remaining := r.requested - r.paid;
      var outstanding := store.invoices[r.invoiceId].outstanding;
      if outstanding <= 0 || remaining <= 0 then Some(NothingPayable)
      else if d.amount > outstanding || d.amount > remaining then Some(AmountTooLarge)
      else if d.kind.RequestPaid? && d.amount != remaining then Some(NotClearing)
      else if d.kind.RequestPartiallyPaid? && d.amount >= remaining then Some(NotPartial)
      else None
  }

  /** Book an acceptable delivery. */
  function Book(store: Store, request: nat, d: Delivery): Store
    requires request < |store.requests| && store.requests[request].invoiceId < |store.invoices|
  {
    var r := store.requests[request];
    var paid := r.paid + d.amount;
    Store(
      store.invoices[r.invoiceId := Settle(store.invoices[r.invoiceId], d.amount, d.date)],
      store.requests[request := r.(paid := paid,
                                   status := if paid == r.requested then PaidRequest else PartiallyPaidRequest)],
      store.events + [ProviderEvent(request, r.provider, d.eventId, d.paymentReference, d.amount)],
      store.audits + [EventApplied(d.eventId)])
  }

  function Ingest(store: Store, request: nat, c: CaseRef, today: int, d: Delivery): (r: (Store, IngestOutcome))
    requires request < |store.requests|
  {
    var req := store.requests[request];
    if !req.mode.DemoMode? || !req.provider.ProviderDemo? then (store, Declined(NotDemo))
    else
      match FindEvent(store.events, req.provider, d)
      case Some(existing) =>
        (store.(audits := store.audits + [DuplicateIgnored(d.eventId, existing.eventId)]), Duplicate(existing.eventId))
      case None =>
        match RejectionOf(store, request, c, today, d)
        case Some(reason) => (store, Declined(reason))
        case None => (Book(store, request, d), Applied(d.eventId))
  }

  // ---------------------------------------------------------------- in place

  class PaymentDesk {
    var invoices: seq<Invoice>
    var requests: seq<Request>
    var events: seq<ProviderEvent>
    var audits: seq<PaymentAudit>

    ghost function State(): Store
      reads this
    {
      Store(invoices, requests, events, audits)
    }

    constructor (store: Store)
      ensures State() == store
    {
      invoices, requests, events, audits := store.invoices, store.requests, store.events, store.audits;
    }

    /** The guards run in order, each on its own fact, before a row is written. */
    method CreateRequest(caseId: nat, row: CaseRow, today: int, input: CreateInput, provider: ProviderName,
                         mode: ProviderMode,
                         answer: ProviderAnswer) returns (outcome: CreateOutcome)
      requires Linked(row, invoices)
      modifies `requests, `audits
      ensures (State(), outcome) == Create(old(State()), caseId, row, today, input, provider, mode, answer)
    {
      hide Recommend, EvaluateCase, ViewOf;
      if !input.confirmed {
        return Refused(NotConfirmed);
      }
      if row.invoice.None? {
        return Refused(NoInvoice);
      }
      if row.state in {AwaitingCustomer, PromiseMonitoring, Resolved, Closed} {
        return Refused(WrongCaseState);
      }
      var inv := invoices[row.invoice.value];
      if inv.outstanding <= 0 || inv.status.PaidInvoice? {
        return Refused(NothingOutstanding);
      }
      var c := ViewOf(row, invoices);
      var rec := Recommend(c, today);
      if rec.action != input.expectedAction {
        return Refused(StaleAction);
      }
      if inv.outstanding != input.expectedOutstanding {
        return Refused(StaleAmount);
      }
      if !IsOutreach(rec.action) {
        return Refused(UnsupportedAction);
      }
      if rec.blockers != {} || EvaluateCase(c, today).blockers != {} {
        return Refused(Blocked);
      }
      if input.amount > inv.outstanding {
        return Refused(AmountTooLarge);
      }
      if HasOpenRequest(requests, caseId) {
        return Refused(AlreadyOpen);
      }
      var id := |requests|;
      var record := Request(caseId, row.customerId, row.invoice.value, provider, mode, None, input.amount, 0,
                            PendingProvider);
      match answer {
        case Accepted(reference, status) =>
          requests := requests + [record.(reference := Some(reference), status := status)];
          audits := audits + [RequestCreated(id)];
          outcome := Created(id);
        case Failure =>
          requests := requests + [record.(status := FailedRequest)];
          audits := audits + [RequestFailed(id)];
          outcome := Refused(ProviderFailed);
      }
    }

    method IngestEvent(request: nat, c: CaseRef, today: int, d: Delivery) returns (outcome: IngestOutcome)
      requires request < |requests|
      modifies this
      ensures (State(), outcome) == Ingest(old(State()), request, c, today, d)
    {
      var r := requests[request];
      if r.mode != DemoMode || r.provider != ProviderDemo {
        return Declined(NotDemo);
      }
      var existing := FindEvent(events, r.provider, d);
      if existing.Some? {
        audits := audits + [DuplicateIgnored(d.eventId, existing.value.eventId)];
        return Duplicate(existing.value.eventId);
      }
      if r.status != ActiveRequest && r.status != PartiallyPaidRequest {
        return Declined(WrongRequestState);
      }
      if r.reference != Some(d.reference) {
        return Declined(WrongReference);
      }
      if r.caseId != c.id || r.customerId != c.customerId {
        return Declined(WrongCase);
      }
      if c.invoice != Some(r.invoiceId) || |invoices| <= r.invoiceId {
        return Declined(WrongInvoice);
      }
      if d.date > today {
        return Declined(FuturePayment);
      }
      var inv := invoices[r.invoiceId];
      var remaining := r.requested - r.paid;
      if inv.outstanding <= 0 || remaining <= 0 {
        return Declined(NothingPayable);
      }
      if d.amount > inv.outstanding || d.amount > remaining {
        return Declined(AmountTooLarge);
      }
      if d.kind.RequestPaid? && d.amount != remaining {
        return Declined(NotClearing);
      }
      if d.kind.RequestPartiallyPaid? && d.amount >= remaining {
        return Declined(NotPartial);
      }
      invoices := invoices[r.invoiceId := Settle(inv, d.amount, d.date)];
      var paid := r.paid + d.amount;
      requests := requests[request := r.(paid := paid,
                                         status := if paid == r.requested then PaidRequest else PartiallyPaidRequest)];
      events := events + [ProviderEvent(request, r.provider, d.eventId, d.paymentReference, d.amount)];
      audits := audits + [EventApplied(d.eventId)];
      outcome := Applied(d.eventId);
    }
  }

  // ---------------------------------------------------------------- creation is safe

  /** What must be true of the case on the day a request is created for it: it is open, and its
      invoice is overdue with a positive balance, undisputed, without an active or broken
      promise and without a payment claim, not severe unless a recent commitment or delay
      softens it, and outreach is permitted and not in its cooldown. */
  ghost predicate Requestable(row: CaseRow, inv: Invoice, today: int) {
    && !row.closed && row.state in {NewCase, InProgress, Escalated}
    && inv.issueDate <= today && inv.dueDate < today
    && 0 < inv.outstanding && !inv.status.Disputed? && !inv.status.PaidInvoice?
    && (forall p :: p in inv.promises ==> EvaluatePromise(p, inv.payments, today) in {IsFulfilled, IsCancelled})
    && !ClaimsPayment(row.signals)
    && (RecentCommitmentOrDelay(row.signals, today)
        || (row.priority != CriticalPriority && inv.outstanding < SEVERE_EXPOSURE
            && today - inv.dueDate < SEVERE_OVERDUE_DAYS))
    && Permitted(row.customer)
    && (forall a :: a in row.actions ==> !ContactedToday(a, today))
  }

  /** The outreach a requestable case calls for. */
  function OutreachFor(row: CaseRow, today: int): Action {
    if RecentCommitmentOrDelay(row.signals, today) then RequestPaymentDate else SendPaymentReminder
  }

  /** A request is created if and only if the operator confirmed it against the current action
      and balance, the case is requestable, at most the balance is requested, no other request
      is open, and the provider accepts. */
  lemma CreationExactly(store: Store, caseId: nat, row: CaseRow, today: int, input: CreateInput, provider: ProviderName,
                        mode: ProviderMode, answer: ProviderAnswer)
    requires Linked(row, store.invoices)
    ensures Create(store, caseId, row, today, input, provider, mode, answer).1.Created? <==>
              (&& input.confirmed && answer.Accepted?
               && row.invoice.Some?
               && Requestable(row, store.invoices[row.invoice.value], today)
               && input.expectedAction == OutreachFor(row, today)
               && input.amount <= store.invoices[row.invoice.value].outstanding == input.expectedOutstanding
               && !HasOpenRequest(store.requests, caseId))
  {
    hide HasOpenRequest, Decide, EvaluateCase, CommunicationBlockers, RecentCommitmentOrDelay, ClaimsPayment,
        EvaluatePromise;
    if row.invoice.Some? {
      var c := ViewOf(row, store.invoices);
      OutreachExactly(c, today);
      if IsOutreach(Recommend(c, today).action) {
        OutreachBlockers(c, today);
      }
    }
  }

  /** An outreach recommendation is blocked by nothing but permission and the cooldown. */
  lemma OutreachBlockers(c: RecoveryCase, today: int)
    requires IsOutreach(Recommend(c, today).action)
    ensures Recommend(c, today).action
            == if RecentCommitmentOrDelay(c.signals, today) then RequestPaymentDate else SendPaymentReminder
    ensures EvaluateCase(c, today).blockers <= Recommend(c, today).blockers
    ensures Recommend(c, today).blockers == {}
       <==> Permitted(c.customer) && forall a :: a in c.actions ==> !ContactedToday(a, today)
  {
    PermissionExactly(c.customer);
    hide EvaluatePromise, EvaluateInvoice, CommunicationBlockers, ClaimsPayment, RecentCommitmentOrDelay;
  }

  /** So a created request implies, on that day, an overdue invoice with a positive balance of
      which at most the whole is requested, no dispute, no active or broken promise, no
      payment claim, permitted outreach and no cooldown; and it adds one unpaid request and
      changes nothing else. */
  lemma CreationIsSafe(store: Store, caseId: nat, row: CaseRow, today: int, input: CreateInput, provider: ProviderName,
                       mode: ProviderMode, answer: ProviderAnswer)
    requires Linked(row, store.invoices)
    requires Create(store, caseId, row, today, input, provider, mode, answer).1.Created?
    ensures input.confirmed && row.invoice.Some?
    ensures var inv := store.invoices[row.invoice.value];
            && inv.issueDate <= today && inv.dueDate < today
            && 0 < inv.outstanding == input.expectedOutstanding && input.amount <= inv.outstanding
            && !inv.status.Disputed?
            && (forall p :: p in inv.promises ==> EvaluatePromise(p, inv.payments, today) in {IsFulfilled, IsCancelled})
    ensures !row.state.Closed? && !row.closed
    ensures !ClaimsPayment(row.signals)
    ensures Permitted(row.customer)
    ensures forall a :: a in row.actions ==> !ContactedToday(a, today)
    ensures Recommend(ViewOf(row, store.invoices), today).action
            == input.expectedAction && IsOutreach(input.expectedAction)
    ensures !HasOpenRequest(store.requests, caseId)
    ensures var after := Create(store, caseId, row, today, input, provider, mode, answer).0;
            && after.invoices == store.invoices && after.events == store.events
            && |after.requests| == |store.requests| + 1 && after.requests[..|store.requests|] == store.requests
            && after.requests[|store.requests|].caseId == caseId
            && after.requests[|store.requests|].requested == input.amount
            && after.requests[|store.requests|].paid == 0
  {
    OutreachExactly(ViewOf(row, store.invoices), today);
    UnblockedFacts(ViewOf(row, store.invoices), today);
    hide Recommend, EvaluateCase;
  }

  lemma UnblockedFacts(c: RecoveryCase, today: int)
    requires IsOutreach(Recommend(c, today).action) && Recommend(c, today).blockers == {}
    ensures Permitted(c.customer)
    ensures forall a :: a in c.actions ==> !ContactedToday(a, today)
  {
    PermissionExactly(c.customer);
    hide Decide, DesiredState, CommunicationBlockers, EvaluateInvoice, EvaluatePromise;
    var e := EvaluateCase(c, today);
    assert e.blockers <= Recommend(c, today).blockers;
    assert RecentCount(c.actions, today) > 0 ==> CooldownActive in e.blockers;
  }

  // ---------------------------------------------------------------- which deliveries are applied

  /** A delivery the request can take on this day, by the fields of the two. The kind must say
      "paid" exactly for the amount that clears the request. */
  ghost predicate Takes(store: Store, request: nat, c: CaseRef, today: int, d: Delivery)
    requires request < |store.requests|
  {
    var r := store.requests[request];
    && r.status in {ActiveRequest, PartiallyPaidRequest}
    && r.reference == Some(d.reference)
    && r.caseId == c.id && r.customerId == c.customerId && c.invoice == Some(r.invoiceId)
    && r.invoiceId < |store.invoices|
    && d.date <= today
    && 0 < d.amount <= store.invoices[r.invoiceId].outstanding
    && d.amount <= r.requested - r.paid
    && (d.kind == RequestPaid <==> d.amount == r.requested - r.paid)
  }

  ghost predicate Known(events: seq<ProviderEvent>, d: Delivery) {
    exists k :: 0 <= k < |events| && events[k].provider == ProviderDemo
      && (events[k].eventId == d.eventId || events[k].paymentReference == d.paymentReference)
  }

  /** What becomes of a delivery. It is applied if and only if the request is one of the demo
      provider, neither identity of the event is on record, and the request can take it; it is
      a duplicate if and only if the request is one of the demo provider and an identity is. */
  lemma IngestionExactly(store: Store, request: nat, c: CaseRef, today: int, d: Delivery)
    requires request < |store.requests|
    ensures var r := store.requests[request]; var outcome := Ingest(store, request, c, today, d).1;
            var demo := r.mode == DemoMode && r.provider == ProviderDemo;
            && (outcome.Applied? <==> demo && !Known(store.events, d) && Takes(store, request, c, today, d))
            && (outcome.Duplicate? <==> demo && Known(store.events, d))
            && (outcome.Applied? ==> outcome.eventId == d.eventId)
  {
  }

  /** And what an applied delivery leaves: the payment on the invoice with its amount and date, the
      amount on the request, and the event under both its identities; nothing else changes. */
  lemma AppliedExactly(store: Store, request: nat, c: CaseRef, today: int, d: Delivery)
    requires request < |store.requests| && Ingest(store, request, c, today, d).1.Applied?
    ensures var after := Ingest(store, request, c, today, d).0;
            var r := store.requests[request]; var inv := store.invoices[r.invoiceId];
            var left, paid := inv.outstanding - d.amount, r.paid + d.amount;
            && after.invoices == store.invoices[r.invoiceId := inv.(
                 outstanding := left, status := if left == 0 then PaidInvoice else PartiallyPaid,
                 payments := inv.payments + [Payment(d.amount, d.date)])]
            && after.requests == store.requests[request := r.(
                 paid := paid, status := if d.kind == RequestPaid then PaidRequest else PartiallyPaidRequest)]
            && (r.paid + d.amount == r.requested <==> d.kind == RequestPaid)
            && after.events == store.events
                + [ProviderEvent(request, ProviderDemo, d.eventId, d.paymentReference, d.amount)]
            && after.audits == store.audits + [EventApplied(d.eventId)]
  {
    IngestionExactly(store, request, c, today, d);
  }

  // ---------------------------------------------------------------- one open request per case

  ghost predicate OneOpenPerCase(requests: seq<Request>) {
    forall x, y :: 0 <= x < y < |requests| && OpenStatus(requests[x].status) && OpenStatus(requests[y].status) ==>
      requests[x].caseId != requests[y].caseId
  }

  lemma CreateKeepsOneOpen(store: Store, caseId: nat, row: CaseRow, today: int, input: CreateInput,
                           provider: ProviderName,
                           mode: ProviderMode, answer: ProviderAnswer)
    requires Linked(row, store.invoices) && OneOpenPerCase(store.requests)
    ensures OneOpenPerCase(Create(store, caseId, row, today, input, provider, mode, answer).0.requests)
  {
    hide Recommend, EvaluateCase;
  }

  lemma IngestKeepsOneOpen(store: Store, request: nat, c: CaseRef, today: int, d: Delivery)
    requires request < |store.requests| && OneOpenPerCase(store.requests)
    ensures OneOpenPerCase(Ingest(store, request, c, today, d).0.requests)
  {
  }

  // ---------------------------------------------------------------- the books of a request

  /** What the accepted events of one request add up to. */
  function AcceptedTotal(events: seq<ProviderEvent>, request: nat): int {
    if events == [] then 0
    else
      var last := events[|events| - 1];
      AcceptedTotal(events[..|events| - 1], request) + (if last.request == request then last.amount else 0)
  }

  predicate HasEvent(events: seq<ProviderEvent>, request: nat) {
    exists k :: 0 <= k < |events| && events[k].request == request
  }

  /** Every request has been paid exactly what its accepted events say, never more than it
      asked for, and once an event was accepted it is paid if and only if it is cleared. */
  ghost predicate RequestsBalance(store: Store) {
    forall r :: 0 <= r < |store.requests| ==> RequestBalances(store.requests[r], store.events, r)
  }

  ghost predicate RequestBalances(req: Request, events: seq<ProviderEvent>, r: nat) {
    && req.paid == AcceptedTotal(events, r)
    && 0 < req.requested && 0 <= req.paid <= req.requested
    && (HasEvent(events, r) ==>
          && (req.status.PaidRequest? <==> req.paid == req.requested)
          && (req.status.PaidRequest? || req.status.PartiallyPaidRequest?))
  }

  /** No two accepted events of a provider share an event id or a payment reference, every
      event belongs to a request of its provider, and every amount is positive. */
  ghost predicate EventsDistinct(store: Store) {
    && (forall x, y :: 0 <= x < y < |store.events| && store.events[x].provider == store.events[y].provider ==>
          store.events[x].eventId != store.events[y].eventId
              && store.events[x].paymentReference != store.events[y].paymentReference)
    && (forall x :: 0 <= x < |store.events| ==>
          && store.events[x].request < |store.requests|
          && store.events[x].provider == store.requests[store.events[x].request].provider
          && 0 < store.events[x].amount)
  }

  ghost predicate Reconciled(store: Store) {
    RequestsBalance(store) && EventsDistinct(store)
  }

  lemma {:induction false} NoEventNoTotal(events: seq<ProviderEvent>, request: nat)
    requires !HasEvent(events, request)
    ensures AcceptedTotal(events, request) == 0
  {
    if events != [] {
      var n := |events| - 1;
      assert events[n].request != request;
      assert forall k :: 0 <= k < n ==> events[..n][k] == events[k];
      NoEventNoTotal(events[..n], request);
    }
  }

  lemma CreateReconciles(store: Store, caseId: nat, row: CaseRow, today: int, input: CreateInput,
                         provider: ProviderName,
                         mode: ProviderMode, answer: ProviderAnswer)
    requires Linked(row, store.invoices) && Reconciled(store)
    ensures Reconciled(Create(store, caseId, row, today, input, provider, mode, answer).0)
  {
    hide Recommend, EvaluateCase, RefusalOf;
    var id := |store.requests|;
    assert !HasEvent(store.events, id);
    NoEventNoTotal(store.events, id);
  }

  lemma {:induction false} TotalAppend(events: seq<ProviderEvent>, e: ProviderEvent, request: nat)
    ensures AcceptedTotal(events + [e], request)
            == AcceptedTotal(events, request) + (if e.request == request then e.amount else 0)
  {
    assert (events + [e])[..|events|] == events;
  }

  lemma BookKeepsBalance(store: Store, request: nat, d: Delivery, r: nat)
    requires request < |store.requests| && store.requests[request].invoiceId < |store.invoices| && r < |store.requests|
    requires RequestBalances(store.requests[r], store.events, r)
    requires d.amount <= store.requests[request].requested - store.requests[request].paid
    ensures RequestBalances(Book(store, request, d).requests[r], Book(store, request, d).events, r)
  {
    hide Settle, AcceptedTotal;
    var after := Book(store, request, d);
    var n := |store.events|;
    TotalAppend(store.events, after.events[n], r);
    if r != request && HasEvent(after.events, r) {
      var k :| 0 <= k < |after.events| && after.events[k].request == r;
      assert store.events[k].request == r;
    }
  }

  lemma BookKeepsDistinct(store: Store, request: nat, d: Delivery)
    requires request < |store.requests| && store.requests[request].invoiceId < |store.invoices|
    requires EventsDistinct(store)
    requires FindEvent(store.events, store.requests[request].provider, d).None?
    ensures EventsDistinct(Book(store, request, d))
  {
    hide Settle;
    forall x | 0 <= x < |store.events|
      ensures store.events[x].provider == store.requests[request].provider ==>
                store.events[x].eventId != d.eventId && store.events[x].paymentReference != d.paymentReference
    {
      assert !SameIdentity(store.events[x], store.requests[request].provider, d);
    }
  }

  lemma BookReconciles(store: Store, request: nat, d: Delivery)
    requires request < |store.requests| && store.requests[request].invoiceId < |store.invoices|
    requires Reconciled(store)
    requires FindEvent(store.events, store.requests[request].provider, d).None?
    requires d.amount <= store.requests[request].requested - store.requests[request].paid
    ensures Reconciled(Book(store, request, d))
  {
    hide Settle, RequestBalances, EventsDistinct;
    BookKeepsDistinct(store, request, d);
    forall r | 0 <= r < |store.requests|
      ensures RequestBalances(Book(store, request, d).requests[r], Book(store, request, d).events, r)
    {
      BookKeepsBalance(store, request, d, r);
    }
  }

  lemma IngestReconciles(store: Store, request: nat, c: CaseRef, today: int, d: Delivery)
    requires request < |store.requests| && Reconciled(store)
    ensures Reconciled(Ingest(store, request, c, today, d).0)
  {
    hide Book, RequestBalances;
    var req := store.requests[request];
    if req.mode.DemoMode? && req.provider.ProviderDemo? && FindEvent(store.events, req.provider, d).None?
       && RejectionOf(store, request, c, today, d).None? {
      BookReconciles(store, request, d);
    }
  }

  /** What a delivery does to the money: nothing, unless it is applied. */
  lemma IngestMoves(store: Store, request: nat, c: CaseRef, today: int, d: Delivery)
    requires request < |store.requests|
    ensures var (after, outcome) := Ingest(store, request, c, today, d);
            if outcome.Applied? then
              var i := store.requests[request].invoiceId;
              && i < |store.invoices| && c.invoice == Some(i)
              && d.amount <= store.invoices[i].outstanding
              && d.date <= today
              && after.invoices == store.invoices[i := Settle(store.invoices[i], d.amount, d.date)]
              && |after.requests| == |store.requests|
            else after.invoices == store.invoices && after.requests == store.requests && after.events == store.events
  {
    hide Settle;
  }

  /** A delivery whose identity is already recorded is never applied again, whichever request
      it names and whatever else it says. */
  lemma RedeliveryIsInert(store: Store, request: nat, c: CaseRef, today: int, d: Delivery)
    requires request < |store.requests|
    requires FindEvent(store.events, ProviderDemo, d).Some?
    ensures var (after, outcome) := Ingest(store, request, c, today, d);
            && after.invoices == store.invoices && after.requests == store.requests && after.events == store.events
            && (outcome.Duplicate? || outcome == Declined(NotDemo))
  {
  }

  /** An applied delivery is from then on recorded. */
  lemma AppliedIsRecorded(store: Store, request: nat, c: CaseRef, today: int, d: Delivery)
    requires request < |store.requests|
    requires Ingest(store, request, c, today, d).1.Applied?
    ensures FindEvent(Ingest(store, request, c, today, d).0.events, ProviderDemo, d).Some?
  {
    hide Settle;
    var after := Ingest(store, request, c, today, d).0;
    assert SameIdentity(after.events[|store.events|], ProviderDemo, d);
  }

  // ---------------------------------------------------------------- what a creation leaves

  /** The row a creation leaves: none when it was refused before the provider was asked; else one
      unpaid row for the case, its customer and its invoice, open as the provider answered and
      under its reference, or failed and without one. */
  lemma CreationLeaves(store: Store, caseId: nat, row: CaseRow, today: int, input: CreateInput, provider: ProviderName,
                       mode: ProviderMode, answer: ProviderAnswer)
    requires Linked(row, store.invoices)
    ensures var (after, outcome) := Create(store, caseId, row, today, input, provider, mode, answer);
            var id := |store.requests|;
            var invoiceId := if row.invoice.Some? then row.invoice.value else 0;
            var blank := Request(caseId, row.customerId, invoiceId, provider, mode,
                                 None, input.amount, 0, FailedRequest);
            && (outcome.Created? ==>
                  && answer.Accepted? && outcome.id == id
                  && after.requests == store.requests
                      + [blank.(reference := Some(answer.reference), status := answer.status)]
                  && after.audits == store.audits + [RequestCreated(id)])
            && (outcome == Refused(ProviderFailed) ==>
                  && answer == Failure && after.requests == store.requests + [blank]
                  && after.audits == store.audits + [RequestFailed(id)])
            && (outcome.Refused? && outcome.reason != ProviderFailed ==> after == store)
            && after.invoices == store.invoices && after.events == store.events
  {
    hide Recommend, EvaluateCase, HasOpenRequest;
  }

  // ---------------------------------------------------------------- why something is refused

  /** Why a delivery is declined: the first of its fields, in this order, that does not fit. */
  lemma DeclinedExactly(store: Store, request: nat, c: CaseRef, today: int, d: Delivery, reason: Reason)
    requires request < |store.requests|
    requires Ingest(store, request, c, today, d).1 == Declined(reason)
    ensures var r := store.requests[request]; var remaining := r.requested - r.paid;
            if r.mode != DemoMode || r.provider != ProviderDemo then reason == NotDemo
            else if r.status !in {ActiveRequest, PartiallyPaidRequest} then reason == WrongRequestState
            else if r.reference != Some(d.reference) then reason == WrongReference
            else if r.caseId != c.id || r.customerId != c.customerId then reason == WrongCase
            else if c.invoice != Some(r.invoiceId) || r.invoiceId >= |store.invoices| then reason == WrongInvoice
            else if today < d.date then reason == FuturePayment
            else if store.invoices[r.invoiceId].outstanding < 1 || remaining < 1 then reason == NothingPayable
            else if store.invoices[r.invoiceId].outstanding < d.amount || remaining < d.amount
                then reason == AmountTooLarge
            else if d.kind == RequestPaid then reason == NotClearing && d.amount < remaining
            else reason == NotPartial && d.amount == remaining
  {
  }

  /** Why a request is refused: the first of these facts, in this order, that stands against it. */
  lemma RefusedExactly(store: Store, caseId: nat, row: CaseRow, today: int, input: CreateInput, provider: ProviderName,
                       mode: ProviderMode, answer: ProviderAnswer, reason: Reason)
    requires Linked(row, store.invoices)
    requires Create(store, caseId, row, today, input, provider, mode, answer).1 == Refused(reason)
    ensures if !input.confirmed then reason == NotConfirmed
            else if row.invoice == None then reason == NoInvoice
            else if row.state in {AwaitingCustomer, PromiseMonitoring, Resolved, Closed} then reason == WrongCaseState
            else
              var inv := store.invoices[row.invoice.value]; var rec := Recommend(ViewOf(row, store.invoices), today);
              if inv.outstanding < 1 || inv.status == PaidInvoice then reason == NothingOutstanding
              else if rec.action != input.expectedAction then reason == StaleAction
              else if inv.outstanding != input.expectedOutstanding then reason == StaleAmount
              else if rec.action !in {SendPaymentReminder, RequestPaymentDate} then reason == UnsupportedAction
              else if rec.blockers != {} then reason == Blocked
              else if inv.outstanding < input.amount then reason == AmountTooLarge
              else if HasOpenRequest(store.requests, caseId) then reason == AlreadyOpen
              else reason == ProviderFailed && answer == Failure
  {
    if row.invoice.Some? {
      CarriedExactly(ViewOf(row, store.invoices), today);
    }
    hide Recommend, EvaluateCase, HasOpenRequest;
  }

  /** What a duplicate leaves: an entry that names the event replayed and the one on record under
      one of its identities, and nothing else. */
  lemma DuplicateExactly(store: Store, request: nat, c: CaseRef, today: int, d: Delivery)
    requires request < |store.requests| && Ingest(store, request, c, today, d).1.Duplicate?
    ensures var (after, outcome) := Ingest(store, request, c, today, d);
            && after == store.(audits := store.audits + [DuplicateIgnored(d.eventId, outcome.original)])
            && exists e :: e in store.events && e.provider == ProviderDemo && e.eventId == outcome.original
                 && (e.eventId == d.eventId || e.paymentReference == d.paymentReference)
  {
  }
}
