/** The recommendation cascade (recommendations/service.py): ordered facts decide one
    advisory action, interpretation signals only matter where no fact decides. */
module Recommendations {
  import opened Domain
  import opened Engine
  import opened Sums

  const SEVERE_EXPOSURE := 25_000_000 // 250,000.00 in cents
  const SEVERE_OVERDUE_DAYS := 90
  const RECENT_SIGNAL_DAYS := 14

  datatype Action =
    | SendPaymentReminder | MonitorActivePromise | RequestPaymentDate | ReviewPaymentClaim
    | HoldForDispute | EscalateToHuman | PrepareEscalation | NoActionRequired

  datatype Level = LowLevel | MediumLevel | HighLevel | CriticalLevel

  datatype Recommendation = Recommendation(
    action: Action,
    level: Level,
    approvalRequired: bool,
    blockers: set<Blocker>,
    recoveryState: RecoveryState,
    communicationRequired: bool,
    communicationBlockers: set<Blocker>)

  predicate IsOutreach(a: Action) {
    a.SendPaymentReminder? || a.RequestPaymentDate?
  }

  predicate RecentCommitmentOrDelay(signals: seq<Signal>, today: int) {
    exists i :: 0 <= i < |signals| && today - signals[i].day <= RECENT_SIGNAL_DAYS
        && (signals[i].commitment || signals[i].delay)
  }

  predicate ClaimsPayment(signals: seq<Signal>) {
    exists i :: 0 <= i < |signals| && signals[i].paymentClaim
  }

  function Exposure(e: CaseEvaluation): int {
    if e.invoice.Some? then e.invoice.value.outstanding else 0
  }

  function DaysOverdue(e: CaseEvaluation): int {
    if e.invoice.Some? then e.invoice.value.daysOverdue else 0
  }

  predicate HasState(e: CaseEvaluation, s: InvoiceState) {
    e.invoice.Some? && e.invoice.value.state == s
  }

  function EscalationLevel(c: RecoveryCase, e: CaseEvaluation): Level {
    if c.priority.CriticalPriority? || (e.invoice.Some? && e.invoice.value.outstanding >= SEVERE_EXPOSURE)
    then CriticalLevel else HighLevel
  }

  predicate Severe(c: RecoveryCase, e: CaseEvaluation) {
    c.priority.CriticalPriority? || Exposure(e) >= SEVERE_EXPOSURE || DaysOverdue(e) >= SEVERE_OVERDUE_DAYS
  }

  /** The cascade itself: action, level and whether approval is required. */
  function Decide(c: RecoveryCase, e: CaseEvaluation, today: int): (Action, Level, bool) {
    if e.derived in {Closed, Resolved} || HasState(e, Settled) then (NoActionRequired, LowLevel, false)
    else if e.disputed then (HoldForDispute, HighLevel, true)
    else if ClaimsPayment(c.signals) then (ReviewPaymentClaim, HighLevel, true)
    else if IsActive in e.promises then (MonitorActivePromise, MediumLevel, c.customer.strategic)
    else if IsBroken in e.promises then
      var level := EscalationLevel(c, e);
      var significant := level.CriticalLevel? || DaysOverdue(e) >= SEVERE_OVERDUE_DAYS;
      (if significant then EscalateToHuman else PrepareEscalation, level, true)
    else if HasState(e, Overdue) && Severe(c, e) && !RecentCommitmentOrDelay(c.signals, today) then
      (PrepareEscalation, EscalationLevel(c, e), true)
    else if HasState(e, Overdue) && RecentCommitmentOrDelay(c.signals, today)
        then (RequestPaymentDate, MediumLevel, false)
    else if HasState(e, Overdue) then (SendPaymentReminder, MediumLevel, false)
    else (NoActionRequired, LowLevel, false)
  }

  function Recommend(c: RecoveryCase, today: int): Recommendation {
    var e := EvaluateCase(c, today);
    var (action, level, approval) := Decide(c, e, today);
    var required := IsOutreach(action);
    var blockedOutreach := required && e.communication != {};
    Recommendation(
      action, level,
      approval || (blockedOutreach && CommunicationOptedOut !in e.communication),
      e.blockers + (if blockedOutreach then e.communication else {}),
      e.derived, required, e.communication)
  }

  lemma NothingPending(promises: seq<Promise>, payments: seq<Payment>, today: int)
    ensures var states := EvaluatePromises(promises, payments, today);
            (IsActive !in states && IsBroken !in states) <==>
            (forall p :: p in promises ==> EvaluatePromise(p, payments, today) in {IsFulfilled, IsCancelled})
  {
    hide EvaluatePromise;
    var states := EvaluatePromises(promises, payments, today);
    forall p | p in promises && IsActive !in states && IsBroken !in states
      ensures EvaluatePromise(p, payments, today) in {IsFulfilled, IsCancelled}
    {
      var i :| 0 <= i < |promises| && promises[i] == p;
      assert states[i] in states;
    }
  }

  /** Outreach is recommended exactly for an open, undisputed, overdue balance without a
      payment claim, without an active or broken promise, and either not severe or softened
      by a recent commitment or delay signal. */
  lemma OutreachExactly(c: RecoveryCase, today: int)
    ensures IsOutreach(Recommend(c, today).action) <==>
      (&& !c.state.Closed? && !c.closed
       && c.invoice.Some?
       && c.invoice.value.issueDate <= today
       && c.invoice.value.outstanding != 0
       && c.invoice.value.dueDate < today
       && !c.invoice.value.status.Disputed?
       && !ClaimsPayment(c.signals)
       && (forall p :: p in c.invoice.value.promises ==>
             EvaluatePromise(p, c.invoice.value.payments, today) in {IsFulfilled, IsCancelled})
       && (RecentCommitmentOrDelay(c.signals, today)
           || (c.priority != CriticalPriority && c.invoice.value.outstanding < SEVERE_EXPOSURE
               && today - c.invoice.value.dueDate < SEVERE_OVERDUE_DAYS)))
  {
    if c.invoice.Some? {
      NothingPending(c.invoice.value.promises, c.invoice.value.payments, today);
    }
  }

  // ---------------------------------------------------------------- the cascade, decision by decision

  predicate Finished(c: RecoveryCase, today: int) {
    c.state.Closed? || c.closed
    || (c.invoice.Some? && c.invoice.value.issueDate <= today && c.invoice.value.outstanding == 0)
  }

  predicate InDispute(c: RecoveryCase) { c.invoice.Some? && c.invoice.value.status.Disputed? }

  predicate Late(c: RecoveryCase, today: int) {
    && c.invoice.Some?
    && c.invoice.value.issueDate <= today && c.invoice.value.outstanding != 0 && c.invoice.value.dueDate < today
  }

  predicate SomePromise(c: RecoveryCase, state: PromiseState, today: int) {
    && c.invoice.Some?
    && (exists p :: p in c.invoice.value.promises && EvaluatePromise(p, c.invoice.value.payments, today) == state)
  }

  /** A balance, a delay or a priority that makes a case material. */
  predicate Material(c: RecoveryCase, today: int) {
    || c.priority.CriticalPriority?
    || (c.invoice.Some? && c.invoice.value.outstanding >= 25_000_000)
    || (Late(c, today) && today - c.invoice.value.dueDate >= 90)
  }

  /** A case resolved before, to which nothing has happened that would reopen it. */
  predicate StillResolved(c: RecoveryCase, today: int) {
    c.state.Resolved? && !SomePromise(c, IsActive, today) && !SomePromise(c, IsBroken, today) && !Late(c, today)
  }

  lemma PromiseStates(c: RecoveryCase, state: PromiseState, today: int)
    requires c.invoice.Some?
    ensures state in EvaluateCase(c, today).promises <==> SomePromise(c, state, today)
  {
    hide EvaluatePromise, DesiredState, CommunicationBlockers;
    var inv := c.invoice.value;
    var states := EvaluateCase(c, today).promises;
    if state in states {
      var i :| 0 <= i < |states| && states[i] == state;
      assert inv.promises[i] in inv.promises;
    }
    if SomePromise(c, state, today) {
      var p :| p in inv.promises && EvaluatePromise(p, inv.payments, today) == state;
      var i :| 0 <= i < |inv.promises| && inv.promises[i] == p;
      assert states[i] == state;
    }
  }

  /** An automated contact executed within the last day. */
  predicate ContactedToday(a: ActionFact, today: int) {
    a.kind in {Outreach, FollowUp} && a.status == Executed && a.executedOn.Some? && today - a.executedOn.value < 1
  }

  lemma {:induction false} ContactsCounted(actions: seq<ActionFact>, today: int)
    ensures RecentCount(actions, today) == CountOf(actions, (a: ActionFact) => ContactedToday(a, today))
    ensures RecentCount(actions, today) == 0 <==> forall a :: a in actions ==> !ContactedToday(a, today)
  {
    if actions != [] {
      ContactsCounted(actions[1..], today);
    }
  }

  /** What each blocker from the facts of a case stands for. */
  lemma FactBlockersExactly(c: RecoveryCase, today: int)
    ensures var blockers := EvaluateCase(c, today).blockers;
            && (ActiveDispute in blockers <==> InDispute(c))
            && (InvoiceScheduled in blockers <==> c.invoice.Some? && today < c.invoice.value.issueDate)
            && (CaseClosed in blockers <==> c.state == Closed || c.closed)
            && (InvoicePaid in blockers <==>
                  c.invoice.Some? && c.invoice.value.issueDate <= today && c.invoice.value.outstanding == 0)
            && (ActivePaymentPromise in blockers <==> SomePromise(c, IsActive, today))
  {
    hide SomePromise, CommunicationBlockers, EvaluatePromises, DesiredState, RecentCount;
    if c.invoice.Some? {
      PromiseStates(c, IsActive, today);
    } else {
      NoInvoiceNoPromise(c, today);
    }
  }

  /** What the blockers from its actions stand for. */
  lemma CooldownExactly(c: RecoveryCase, today: int)
    ensures var blockers := EvaluateCase(c, today).blockers;
            var contacts := CountOf(c.actions, (a: ActionFact) => ContactedToday(a, today));
            && (CooldownActive in blockers <==> 0 < contacts)
            && (MaxRecentAutomatedActions in blockers <==> 3 <= contacts)
  {
    hide CommunicationBlockers, EvaluatePromises, EvaluateInvoice, DesiredState, ContactedToday, RecentCount;
    ContactsCounted(c.actions, today);
  }

  /** What each evaluated state of an invoice stands for, and its figures. */
  lemma InvoiceStateExactly(inv: Invoice, today: int)
    ensures var facts := EvaluateInvoice(inv, today); var issued := inv.issueDate <= today;
            && (facts.state == Scheduled <==> !issued)
            && (facts.state == Settled <==> issued && inv.outstanding == 0)
            && (facts.state == Overdue <==> issued && inv.outstanding != 0 && inv.dueDate < today)
            && (facts.state == Due <==> issued && inv.outstanding != 0 && inv.dueDate == today)
            && (facts.state == NotYetDue <==> issued && inv.outstanding != 0 && today < inv.dueDate)
            && facts.daysOverdue == (if facts.state == Overdue then today - inv.dueDate else 0)
            && facts.outstanding == inv.outstanding && facts.recovered == inv.original - inv.outstanding
  {
  }

  lemma {:induction false} CountedIsSum(payments: seq<Payment>, source: Option<int>, today: int)
    ensures CountedTotal(payments, source, today)
         == SumOf(payments, (p: Payment) =>
              if p.date <= today && (source == None || source.value <= p.date) then p.amount else 0)
  {
    if payments != [] {
      CountedIsSum(payments[1..], source, today);
    }
  }

  /** What each evaluated state of a promise stands for: only cancellation is read from its
      status, the rest follows from its date and the payments since its source. */
  lemma PromiseStateExactly(p: Promise, payments: seq<Payment>, today: int)
    ensures var state := EvaluatePromise(p, payments, today);
            var counted := SumOf(payments, (q: Payment) =>
              if q.date <= today && (p.source == None || p.source.value <= q.date) then q.amount else 0);
            && (state == IsCancelled <==> p.status == CancelledPromise)
            && (state == IsFulfilled <==> p.status != CancelledPromise && p.amount <= counted)
            && (state == IsBroken <==> p.status != CancelledPromise && counted < p.amount && p.date < today)
            && (state == IsActive <==> p.status != CancelledPromise && counted < p.amount && today <= p.date)
  {
    CountedIsSum(payments, p.source, today);
  }

  /** The state the facts call for: closure is final, a settled invoice resolves the case, a
      dispute waits for the customer, an active promise is monitored, a broken one is worked on
      or escalated by priority, a late invoice is worked on, and otherwise nothing changes. */
  lemma DerivedStateExactly(c: RecoveryCase, today: int)
    ensures EvaluateCase(c, today).derived ==
              if c.state.Closed? || c.closed then Closed
              else if Finished(c, today) then Resolved
              else if InDispute(c) then AwaitingCustomer
              else if SomePromise(c, IsActive, today) then PromiseMonitoring
              else if SomePromise(c, IsBroken, today) then
                (if c.priority in {HighPriority, CriticalPriority} then Escalated else InProgress)
              else if Late(c, today) then InProgress
              else c.state
  {
    hide SomePromise, CommunicationBlockers, EvaluatePromises;
    if c.invoice.Some? {
      PromiseStates(c, IsActive, today);
      PromiseStates(c, IsBroken, today);
    } else {
      NoInvoiceNoPromise(c, today);
    }
  }

  /** Which facts each decision stands for. A dispute outranks everything but a finished case,
      a payment claim outranks every promise, an active promise outranks a broken one, and
      only what is left is judged by its delay and its size. */
  lemma CascadeExactly(c: RecoveryCase, today: int)
    ensures var action := Recommend(c, today).action;
            var open := !Finished(c, today) && !InDispute(c);
            var quiet := open && !ClaimsPayment(c.signals) && !SomePromise(c, IsActive, today);
            var broken := SomePromise(c, IsBroken, today);
            && (action.HoldForDispute? <==> !Finished(c, today) && InDispute(c))
            && (action.ReviewPaymentClaim? <==> open && ClaimsPayment(c.signals) && !StillResolved(c, today))
            && (action.MonitorActivePromise? <==> open && !ClaimsPayment(c.signals) && SomePromise(c, IsActive, today))
            && (action.EscalateToHuman? <==> quiet && broken && Material(c, today))
            && (action.PrepareEscalation? <==>
                  quiet && if broken then !Material(c, today)
                           else Late(c, today) && Material(c, today) && !RecentCommitmentOrDelay(c.signals, today))
            && (action.RequestPaymentDate?
                <==> quiet && !broken && Late(c, today) && RecentCommitmentOrDelay(c.signals, today))
            && (action.SendPaymentReminder? <==>
                  quiet && !broken && Late(c, today) && !Material(c, today)
                      && !RecentCommitmentOrDelay(c.signals, today))
  {
    hide ClaimsPayment, RecentCommitmentOrDelay, SomePromise, CommunicationBlockers, EvaluatePromises;
    if c.invoice.Some? {
      PromiseStates(c, IsActive, today);
      PromiseStates(c, IsBroken, today);
    } else {
      NoInvoiceNoPromise(c, today);
    }
  }

  lemma NoInvoiceNoPromise(c: RecoveryCase, today: int)
    requires c.invoice.None?
    ensures !SomePromise(c, IsActive, today) && !SomePromise(c, IsBroken, today)
  {
  }

  /** Whose approval each decision needs: material work always, monitoring for strategic
      accounts, and outreach only where permission is missing but not refused. */
  lemma ApprovalExactly(c: RecoveryCase, today: int)
    ensures var rec := Recommend(c, today);
            var missing := !Permitted(c.customer) && c.customer.consent != Some(OptedOut);
            rec.approvalRequired <==>
              match rec.action
              case NoActionRequired => false
              case MonitorActivePromise => c.customer.strategic
              case SendPaymentReminder => missing
              case RequestPaymentDate => missing
              case _ => true
  {
    PermissionExactly(c.customer);
    hide ClaimsPayment, RecentCommitmentOrDelay, CommunicationBlockers, EvaluatePromises, DesiredState, Permitted;
  }

  /** How urgent each decision is: nothing to do is low, waiting and outreach are medium, disputes
      and claims high, and escalations critical for critical cases and severe balances. */
  lemma LevelExactly(c: RecoveryCase, today: int)
    ensures var rec := Recommend(c, today);
            rec.level ==
              if rec.action == NoActionRequired then LowLevel
              else if rec.action in {MonitorActivePromise, SendPaymentReminder, RequestPaymentDate} then MediumLevel
              else if rec.action in {EscalateToHuman, PrepareEscalation}
                      && (c.priority == CriticalPriority
                          || (c.invoice.Some? && SEVERE_EXPOSURE <= c.invoice.value.outstanding)) then CriticalLevel
              else HighLevel
  {
    hide ClaimsPayment, RecentCommitmentOrDelay, CommunicationBlockers, EvaluatePromises, DesiredState;
  }

  /** What a recommendation carries besides: the derived state, whether it is outreach, what
      stands against contact, and as blockers those of the case, together with the latter when it
      is outreach. */
  lemma CarriedExactly(c: RecoveryCase, today: int)
    ensures var rec := Recommend(c, today);
            && rec.recoveryState == EvaluateCase(c, today).derived
            && (rec.communicationRequired <==> rec.action in {SendPaymentReminder, RequestPaymentDate})
            && rec.communicationBlockers == CommunicationBlockers(c.customer)
            && rec.blockers == EvaluateCase(c, today).blockers
                 + (if rec.communicationRequired then CommunicationBlockers(c.customer) else {})
  {
    hide Decide, CommunicationBlockers, EvaluatePromises, DesiredState, RecentCount;
  }

  /** The interpretation signals that count, with their ages. */
  lemma SignalsExactly(signals: seq<Signal>, today: int)
    ensures ClaimsPayment(signals) <==> exists s :: s in signals && s.paymentClaim
    ensures RecentCommitmentOrDelay(signals, today) <==>
              exists s :: s in signals && today - s.day <= 14 && (s.commitment || s.delay)
  {
    if s :| s in signals && today - s.day <= 14 && (s.commitment || s.delay) {
      var i :| 0 <= i < |signals| && signals[i] == s;
      assert today - signals[i].day <= RECENT_SIGNAL_DAYS;
    }
  }
}
