/** The factual recovery rules (recovery/engine.py): how invoices, promises and cases are
    evaluated on a given day. Nothing here changes a record. */
module Engine {
  import opened Domain

  const COOLDOWN_DAYS := 1
  const MAX_AUTOMATED_ACTIONS := 3

  datatype InvoiceState = Scheduled | Settled | Overdue | Due | NotYetDue

  datatype InvoiceFacts = InvoiceFacts(state: InvoiceState, daysOverdue: int, outstanding: int, recovered: int)

  datatype PromiseState = IsActive | IsBroken | IsFulfilled | IsCancelled

  datatype Blocker =
    | ActiveDispute | InvoiceScheduled | CaseClosed | InvoicePaid | ActivePaymentPromise | CooldownActive
    | MaxRecentAutomatedActions | CommunicationOptedOut | CommunicationConsentUnknown | CommunicationChannelUnavailable

  datatype CaseEvaluation = CaseEvaluation(
    current: RecoveryState,
    derived: RecoveryState,
    invoice: Option<InvoiceFacts>,
    promises: seq<PromiseState>,
    disputed: bool,
    blockers: set<Blocker>,
    communication: set<Blocker>)

  function EvaluateInvoice(inv: Invoice, today: int): InvoiceFacts {
    var recovered := inv.original - inv.outstanding;
    if inv.issueDate > today then InvoiceFacts(Scheduled, 0, inv.outstanding, recovered)
    else if inv.outstanding == 0 then InvoiceFacts(Settled, 0, inv.outstanding, recovered)
    else if inv.dueDate < today then InvoiceFacts(Overdue, today - inv.dueDate, inv.outstanding, recovered)
    else if inv.dueDate == today then InvoiceFacts(Due, 0, inv.outstanding, recovered)
    else InvoiceFacts(NotYetDue, 0, inv.outstanding, recovered)
  }

  /** A payment counts towards a promise when it falls between the promise's source
      communication, if any, and today. */
  predicate Counts(p: Payment, source: Option<int>, today: int) {
    (source.None? || source.value <= p.date) && p.date <= today
  }

  function CountedTotal(payments: seq<Payment>, source: Option<int>, today: int): int {
    if payments == [] then 0
    else
      (if Counts(payments[0], source, today) then payments[0].amount else 0)
          + CountedTotal(payments[1..], source, today)
  }

  /** Every stored status except a cancellation is ignored: the state follows from the
      payments and the date. */
  function EvaluatePromise(p: Promise, payments: seq<Payment>, today: int): PromiseState {
    if p.status.CancelledPromise? then IsCancelled
    else if CountedTotal(payments, p.source, today) >= p.amount then IsFulfilled
    else if p.date < today then IsBroken
    else IsActive
  }

  function EvaluatePromises(promises: seq<Promise>, payments: seq<Payment>, today: int): (states: seq<PromiseState>)
    ensures |states| == |promises|
    ensures forall i :: 0 <= i < |promises| ==> states[i] == EvaluatePromise(promises[i], payments, today)
  {
    if promises == [] then []
    else [EvaluatePromise(promises[0], payments, today)] + EvaluatePromises(promises[1..], payments, today)
  }

  function DesiredState(c: RecoveryCase, facts: Option<InvoiceFacts>, promises: seq<PromiseState>,
                        disputed: bool): RecoveryState {
    if c.state.Closed? || c.closed then Closed
    else if facts.Some? && facts.value.state == Settled then Resolved
    else if disputed then AwaitingCustomer
    else if IsActive in promises then PromiseMonitoring
    else if IsBroken in promises then
      (if c.priority.HighPriority? || c.priority.CriticalPriority? then Escalated else InProgress)
    else if facts.Some? && facts.value.state == Overdue then InProgress
    else c.state
  }

  /** Outreach permission, judged independently of the money. */
  function CommunicationBlockers(customer: Customer): set<Blocker> {
    if customer.consent.None? && customer.channel.None? then {}
    else
      (match customer.consent
       case Some(OptedIn) => {}
       case Some(OptedOut) => {CommunicationOptedOut}
       case _ => {CommunicationConsentUnknown})
      + (if customer.channel in {Some(Email), Some(Phone), Some(Portal)} then {} else {CommunicationChannelUnavailable})
  }

  /** Outreach is permitted on records without consent columns, and otherwise only with consent
      given and a usable channel. */
  predicate Permitted(c: Customer) {
    (c.consent == None && c.channel == None)
    || (c.consent == Some(OptedIn) && c.channel in {Some(Email), Some(Phone), Some(Portal)})
  }

  /** What each communication blocker stands for. */
  lemma PermissionExactly(c: Customer)
    ensures var missing := CommunicationBlockers(c); var recorded := c.consent.Some? || c.channel.Some?;
            && (missing == {} <==> Permitted(c))
            && (CommunicationOptedOut in missing <==> c.consent == Some(OptedOut))
            && (CommunicationConsentUnknown in missing <==> recorded && c.consent in {None, Some(ConsentUnknown)})
            && (CommunicationChannelUnavailable in missing <==>
                  recorded && c.channel !in {Some(Email), Some(Phone), Some(Portal)})
            && missing <= {CommunicationOptedOut, CommunicationConsentUnknown, CommunicationChannelUnavailable}
  {
    var missing := CommunicationBlockers(c);
    if c.consent == Some(OptedOut) {
      assert CommunicationOptedOut in missing;
    } else if c.consent != Some(OptedIn) && !Permitted(c) {
      assert CommunicationConsentUnknown in missing;
    } else if !Permitted(c) {
      assert CommunicationChannelUnavailable in missing;
    }
  }

  predicate RecentAutomated(a: ActionFact, today: int) {
    && (a.kind.Outreach? || a.kind.FollowUp?)
    && a.status.Executed?
    && a.executedOn.Some?
    && today - a.executedOn.value < COOLDOWN_DAYS
  }

  function RecentCount(actions: seq<ActionFact>, today: int): (n: nat)
    ensures n > 0 <==> exists a :: a in actions && RecentAutomated(a, today)
  {
    if actions == [] then 0
    else (if RecentAutomated(actions[0], today) then 1 else 0) + RecentCount(actions[1..], today)
  }

  function EvaluateCase(c: RecoveryCase, today: int): CaseEvaluation {
    var facts := if c.invoice.Some? then Some(EvaluateInvoice(c.invoice.value, today)) else None;
    var promises :=
      if c.invoice.Some? then EvaluatePromises(c.invoice.value.promises, c.invoice.value.payments, today) else [];
    var disputed := c.invoice.Some? && c.invoice.value.status.Disputed?;
    var recent := RecentCount(c.actions, today);
    var blockers :=
      (if disputed then {ActiveDispute} else {})
      + (if facts.Some? && facts.value.state == Scheduled then {InvoiceScheduled} else {})
      + (if c.state.Closed? || c.closed then {CaseClosed} else {})
      + (if facts.Some? && facts.value.state == Settled then {InvoicePaid} else {})
      + (if IsActive in promises then {ActivePaymentPromise} else {})
      + (if recent > 0 then {CooldownActive} else {})
      + (if recent >= MAX_AUTOMATED_ACTIONS then {MaxRecentAutomatedActions} else {});
    CaseEvaluation(c.state, DesiredState(c, facts, promises, disputed), facts, promises, disputed, blockers,
                   CommunicationBlockers(c.customer))
  }

  /** Applying the derived state to a case is a fixed point: evaluating again derives the
      same state, whatever the promises and the dispute flag are. */
  lemma DerivedStateStable(c: RecoveryCase, today: int)
    ensures var derived := EvaluateCase(c, today).derived;
            EvaluateCase(c.(state := derived), today).derived == derived
  {
    var derived := EvaluateCase(c, today).derived;
    var c' := c.(state := derived);
    assert c'.invoice == c.invoice;
  }

  // ---------------------------------------------------------------- promises over time

  /** How far along a promise is; a cancelled promise has left the scale. */
  function Rank(s: PromiseState): int {
    match s
    case IsActive => 0
    case IsBroken => 1
    case IsFulfilled => 2
    case IsCancelled => 3
  }

  /** What a run may do to a promise between two days: only an active promise changes its
      stored status, never to cancelled, and only a simulated break moves the date, which it
      pulls before the new day. */
  predicate PromiseMoves(before: Promise, after: Promise, later: int) {
    && before.amount == after.amount
    && before.source == after.source
    && (after.status == before.status || (before.status.ActivePromise? && !after.status.CancelledPromise?))
    && (after.date == before.date || (after.date < later && after.status.BrokenPromise?))
  }

  lemma {:induction false} CountedTotalGrows(old_: seq<Payment>, more: seq<Payment>, source: Option<int>, today: int,
                                             later: int)
    requires today <= later
    requires forall i :: 0 <= i < |old_| ==> old_[i].amount > 0
    requires forall i :: 0 <= i < |more| ==> more[i].amount > 0
    ensures CountedTotal(old_, source, today) <= CountedTotal(old_ + more, source, later)
  {
    if old_ == [] {
      assert old_ + more == more;
      CountedTotalNonNegative(more, source, later);
    } else {
      CountedTotalGrows(old_[1..], more, source, today, later);
      assert (old_ + more)[1..] == old_[1..] + more;
    }
  }

  lemma {:induction false} CountedTotalNonNegative(payments: seq<Payment>, source: Option<int>, today: int)
    requires forall i :: 0 <= i < |payments| ==> payments[i].amount > 0
    ensures 0 <= CountedTotal(payments, source, today)
  {
    if payments != [] {
      CountedTotalNonNegative(payments[1..], source, today);
    }
  }

  /** A payment dated today, after the promise's source, counts in full. */
  lemma {:induction false} CountedTotalIncludes(payments: seq<Payment>, p: Payment, source: Option<int>, today: int)
    requires forall i :: 0 <= i < |payments| ==> payments[i].amount > 0
    requires p.amount > 0 && Counts(p, source, today)
    ensures CountedTotal(payments + [p], source, today) >= p.amount
  {
    if payments == [] {
      assert payments + [p] == [p];
    } else {
      CountedTotalIncludes(payments[1..], p, source, today);
      assert (payments + [p])[1..] == payments[1..] + [p];
    }
  }

  /** Promise progress is one-way: as days pass, payments arrive and breaks are simulated,
      the evaluated state only moves from active over broken to fulfilled, and a cancelled
      promise stays cancelled. */
  lemma PromiseProgress(before: Promise, after: Promise, old_: seq<Payment>, more: seq<Payment>, today: int, later: int)
    requires today <= later
    requires PromiseMoves(before, after, later)
    requires forall i :: 0 <= i < |old_| ==> old_[i].amount > 0
    requires forall i :: 0 <= i < |more| ==> more[i].amount > 0
    ensures Rank(EvaluatePromise(before, old_, today)) <= Rank(EvaluatePromise(after, old_ + more, later))
    ensures EvaluatePromise(before, old_, today).IsCancelled?
            <==> EvaluatePromise(after, old_ + more, later).IsCancelled?
  {
    CountedTotalGrows(old_, more, before.source, today, later);
  }
}
