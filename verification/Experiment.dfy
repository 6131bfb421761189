/** The paired shadow experiment (reporting/recovery_experiment.py). One arm is an isolated
    copy of a case that lives through a number of simulated days; the two arms of a pair
    share every draw. The state functions below say what each step of the day loop does,
    the class `Arm` performs the same steps in place. */
module Experiment {
  import opened Domain
  import opened Money
  import opened Engine
  import opened Recommendations

  const HORIZON_DAYS := 30
  const BASELINE_CADENCE_DAYS := 14
  const RECONMATE_ACTION_CADENCE_DAYS := 7
  const ASSOCIATION_WINDOW_DAYS := 7
  const PROMISE_FULFILMENT_PROBABILITY := 0.55
  const DAILY_DISPUTE_RESOLUTION_PROBABILITY := 0.04
  const MATERIAL_APPROVAL_PROBABILITY := 0.80
  const BASELINE_RESPONSE_INCREMENT := 0.020

  datatype DrawChannel = DisputeResolution | PromiseKept(id: nat) | MaterialApproval | PaymentOccurrence | PaymentShare

  /** The seeded draws of one pair, by day and channel. */
  type Draws = (int, DrawChannel) -> Draw

  datatype ArmName = Baseline | ReconMate

  datatype Association = PromiseFulfilment | NaturalRecovery | InterventionAssociated | StandardCollectionsAssociated

  datatype ActionRef = ActionRef(day: int, attempt: nat)

  datatype PaymentRow = PaymentRow(
    day: int, ordinal: nat, amount: int, before: int, after: int, association: Association, action: Option<ActionRef>)

  datatype ArmAction = StandardScheduledReminder | Recommended(action: Action)

  datatype ActionRow = ActionRow(ref: ActionRef, day: int, action: ArmAction, completed: bool, increment: real)

  /** The response window a completed action opens: its last day, its increment, its action. */
  datatype Response = Response(until: int, increment: real, action: ActionRef)

  datatype ArmState = ArmState(
    name: ArmName,
    shadow: RecoveryCase,
    starting: int,
    recovered: int,
    attempts: nat,
    completed: nat,
    disputeViolations: nat,
    promiseViolations: nat,
    deferred: bool,
    lastActionDay: Option<int>,
    response: Option<Response>,
    fullyRecoveredDay: Option<int>,
    payments: seq<PaymentRow>,
    actions: seq<ActionRow>,
    decisions: seq<Action>)
  {
    predicate Backed() { shadow.invoice.Some? }

    function Invoice(): Invoice
      requires Backed()
    {
      shadow.invoice.value
    }

    function Outstanding(): int
      requires Backed()
    {
      Invoice().outstanding
    }

    function WithInvoice(inv: Invoice): ArmState {
      this.(shadow := shadow.(invoice := Some(inv)))
    }
  }

  function NaturalDailyProbability(daysOverdue: int): real {
    0.006 + Min(Max(daysOverdue, 0), 180) as real / 180.0 * 0.009
  }

  /** The daily probability of a payment without any contact grows evenly with the days overdue,
      from 0.6% to 1.5% at half a year, and no further. */
  lemma NaturalGrows(days: int, more: int)
    requires days <= more
    ensures 0.006 <= NaturalDailyProbability(days) <= NaturalDailyProbability(more) <= 0.015
    ensures days <= 0 ==> NaturalDailyProbability(days) == 0.006
    ensures 180 <= days ==> NaturalDailyProbability(days) == 0.015
    ensures 0 <= days <= more <= 180 ==>
              NaturalDailyProbability(more) - NaturalDailyProbability(days) == (more - days) as real * 0.00005
  {
  }

  function ResponseIncrement(a: Action): real {
    match a
    case SendPaymentReminder => 0.025
    case RequestPaymentDate => 0.030
    case _ => 0.0
  }

  // ---------------------------------------------------------------- the shadow copy

  /** A promise is copied when it is evaluated active or broken today, capped at the
      outstanding balance. */
  function ShadowOf(p: Promise, payments: seq<Payment>, balance: int, today: int): (shadow: Option<Promise>)
    ensures shadow.Some? ==> shadow.value.amount <= balance && !shadow.value.status.CancelledPromise?
  {
    match EvaluatePromise(p, payments, today)
    case IsActive => Some(Promise(p.id, Min(p.amount, balance), p.date, ActivePromise, None))
    case IsBroken => Some(Promise(p.id, Min(p.amount, balance), p.date, BrokenPromise, None))
    case _ => None
  }

  function ShadowPromises(promises: seq<Promise>, payments: seq<Payment>, balance: int,
                          today: int): (shadows: seq<Promise>)
    ensures forall i :: 0 <= i < |shadows| ==> shadows[i].amount <= balance && !shadows[i].status.CancelledPromise?
  {
    if promises == [] then []
    else
      var rest := ShadowPromises(promises[1..], payments, balance, today);
      match ShadowOf(promises[0], payments, balance, today)
      case None => rest
      case Some(shadow) => [shadow] + rest
  }

  /** The copy keeps no payments, no actions and no consent columns. */
  function ShadowCase(source: RecoveryCase, today: int): RecoveryCase
    requires source.invoice.Some?
  {
    var inv := source.invoice.value;
    source.(
      customer := Customer(source.customer.strategic, None, None),
      invoice := Some(inv.(original := inv.outstanding, payments := [],
                           promises := ShadowPromises(inv.promises, inv.payments, inv.outstanding, today))),
      closed := false,
      actions := [])
  }

  function InitialArm(source: RecoveryCase, name: ArmName, today: int): ArmState
    requires source.invoice.Some?
  {
    ArmState(name, ShadowCase(source, today), source.invoice.value.outstanding, 0, 0, 0, 0, 0, false,
             None, None, None, [], [], [])
  }

  // ---------------------------------------------------------------- one day, step by step

  function ApplyPayment(s: ArmState, day: int, wanted: int, association: Association,
                        action: Option<ActionRef>): (r: ArmState)
    requires s.Backed()
    ensures r.Backed()
  {
    var inv := s.Invoice();
    var amount := Min(wanted, inv.outstanding);
    if amount <= 0 then s
    else
      var left := inv.outstanding - amount;
      s.WithInvoice(inv.(outstanding := left, status := if left == 0 then PaidInvoice else PartiallyPaid)).(
        recovered := s.recovered + amount,
        payments := s.payments + [PaymentRow(day, |s.payments| + 1, amount, inv.outstanding, left, association,
                                             action)],
        fullyRecoveredDay := if left == 0 && s.fullyRecoveredDay.None? then Some(day) else s.fullyRecoveredDay)
  }

  function SetPromiseStatus(s: ArmState, j: nat, status: PromiseStatus): (r: ArmState)
    requires s.Backed() && j < |s.Invoice().promises|
    ensures r.Backed()
  {
    var inv := s.Invoice();
    s.WithInvoice(inv.(promises := inv.promises[j := inv.promises[j].(status := status)]))
  }

  function PromiseStep(s: ArmState, draws: Draws, day: int, date: int, j: nat): (r: ArmState)
    requires s.Backed() && j < |s.Invoice().promises|
    ensures r.Backed() && |r.Invoice().promises| == |s.Invoice().promises|
  {
    var p := s.Invoice().promises[j];
    if !p.status.ActivePromise? || p.date > date then s
    else if draws(day, PromiseKept(p.id)) < PROMISE_FULFILMENT_PROBABILITY then
      ApplyPayment(SetPromiseStatus(s, j, FulfilledPromise), day, Min(p.amount, s.Outstanding()), PromiseFulfilment,
                   None)
    else if p.date < date then SetPromiseStatus(s, j, BrokenPromise)
    else s
  }

  function PromiseLoop(s: ArmState, draws: Draws, day: int, date: int, j: nat): (r: ArmState)
    requires s.Backed() && j <= |s.Invoice().promises|
    ensures r.Backed() && |r.Invoice().promises| == |s.Invoice().promises|
    decreases |s.Invoice().promises| - j
  {
    if j == |s.Invoice().promises| then s
    else PromiseLoop(PromiseStep(s, draws, day, date, j), draws, day, date, j + 1)
  }

  function ResolveDispute(s: ArmState, draws: Draws, day: int): (r: ArmState)
    requires s.Backed()
    ensures r.Backed() && |r.Invoice().promises| == |s.Invoice().promises|
  {
    if s.Invoice().status.Disputed? && draws(day, DisputeResolution) < DAILY_DISPUTE_RESOLUTION_PROBABILITY
    then s.WithInvoice(s.Invoice().(status := OverdueInvoice)) else s
  }

  function ExternalEvents(s: ArmState, draws: Draws, day: int, date: int): (r: ArmState)
    requires s.Backed()
    ensures r.Backed()
  {
    if s.Outstanding() <= 0 then s
    else PromiseLoop(ResolveDispute(s, draws, day), draws, day, date, 0)
  }

  function RecordAction(s: ArmState, day: int, date: int, action: ArmAction, done: bool, effect: real): (r: ArmState)
    requires s.Backed()
    ensures r.Backed()
  {
    var ref := ActionRef(day, s.attempts + 1);
    s.(
      attempts := s.attempts + 1,
      completed := if done then s.completed + 1 else s.completed,
      actions := s.actions + [ActionRow(ref, day, action, done, if done then effect else 0.0)],
      lastActionDay := Some(day),
      response := if done && effect > 0.0 then Some(Response(day + ASSOCIATION_WINDOW_DAYS - 1, effect, ref))
          else s.response,
      shadow := if done then s.shadow.(actions := s.shadow.actions + [ActionFact(FollowUp, Executed, Some(date))])
          else s.shadow)
  }

  function BaselinePolicy(s: ArmState, day: int, date: int): (r: ArmState)
    requires s.Backed()
    ensures r.Backed()
  {
    if day % BASELINE_CADENCE_DAYS != 0 then s
    else
      var e := EvaluateCase(s.shadow, date);
      var counted := s.(
        disputeViolations := s.disputeViolations + (if e.disputed then 1 else 0),
        promiseViolations := s.promiseViolations + (if IsActive in e.promises then 1 else 0));
      RecordAction(counted, day, date, StandardScheduledReminder, true, BASELINE_RESPONSE_INCREMENT)
  }

  predicate Holds(a: Action) {
    a.NoActionRequired? || a.HoldForDispute? || a.MonitorActivePromise? || a.ReviewPaymentClaim?
  }

  predicate CadenceOpen(s: ArmState, day: int) {
    s.lastActionDay.None? || day - s.lastActionDay.value >= RECONMATE_ACTION_CADENCE_DAYS
  }

  function NoteDecision(s: ArmState, a: Action): ArmState {
    if s.decisions == [] || s.decisions[|s.decisions| - 1] != a then s.(decisions := s.decisions + [a]) else s
  }

  function ReconMatePolicy(s: ArmState, draws: Draws, day: int, date: int): (r: ArmState)
    requires s.Backed()
    ensures r.Backed()
  {
    var rec := Recommend(s.shadow, date);
    var noted := NoteDecision(s, rec.action);
    if rec.blockers != {} || Holds(rec.action) then
      (if rec.blockers != {} || rec.action.HoldForDispute? || rec.action.MonitorActivePromise?
       then noted.(deferred := true) else noted)
    else if !CadenceOpen(s, day) then noted
    else
      var approved := !rec.approvalRequired || draws(day, MaterialApproval) < MATERIAL_APPROVAL_PROBABILITY;
      RecordAction(noted, day, date, Recommended(rec.action), approved, ResponseIncrement(rec.action))
  }

  function Policy(s: ArmState, draws: Draws, day: int, date: int): (r: ArmState)
    requires s.Backed()
    ensures r.Backed()
  {
    if s.name.Baseline? then BaselinePolicy(s, day, date) else ReconMatePolicy(s, draws, day, date)
  }

  /** The response increment in force on a day. */
  function Effect(s: ArmState, day: int): real {
    if s.response.Some? && day <= s.response.value.until then s.response.value.increment else 0.0
  }

  function ResponseAction(s: ArmState): Option<ActionRef> {
    if s.response.Some? then Some(s.response.value.action) else None
  }

  function SimulatedPayment(s: ArmState, draws: Draws, day: int, date: int): (r: ArmState)
    requires s.Backed()
    ensures r.Backed()
  {
    var inv := s.Invoice();
    if inv.outstanding <= 0 || inv.status.Disputed? then s
    else
      var natural := NaturalDailyProbability(Max(0, date - inv.dueDate));
      var occurrence := draws(day, PaymentOccurrence);
      if occurrence >= natural + Effect(s, day) then s
      else
        var amount := PaymentAmount(inv.outstanding, draws(day, PaymentShare));
        if occurrence < natural then ApplyPayment(s, day, amount, NaturalRecovery, None)
        else if s.name.ReconMate? then ApplyPayment(s, day, amount, InterventionAssociated, ResponseAction(s))
        else ApplyPayment(s, day, amount, StandardCollectionsAssociated, ResponseAction(s))
  }

  /** A whole day; an arm whose balance is gone lives through it unchanged. */
  function Day(s: ArmState, draws: Draws, start: int, day: int): (r: ArmState)
    requires s.Backed()
    ensures r.Backed()
  {
    if s.Outstanding() <= 0 then s
    else
      var seen := ExternalEvents(s, draws, day, start + day);
      if seen.Outstanding() <= 0 then seen
      else SimulatedPayment(Policy(seen, draws, day, start + day), draws, day, start + day)
  }

  /** The arm after the first `days` days. */
  function Run(s: ArmState, draws: Draws, start: int, days: nat): (r: ArmState)
    requires s.Backed()
    ensures r.Backed()
  {
    if days == 0 then s else Day(Run(s, draws, start, days - 1), draws, start, days - 1)
  }

  /** The arm on a day as its policy finds it, and as the payment draw finds it. */
  function AtPolicy(s: ArmState, draws: Draws, start: int, day: nat): (r: ArmState)
    requires s.Backed()
    ensures r.Backed()
  {
    ExternalEvents(Run(s, draws, start, day), draws, day, start + day)
  }

  function AtPayment(s: ArmState, draws: Draws, start: int, day: nat): (r: ArmState)
    requires s.Backed()
    ensures r.Backed()
  {
    Policy(AtPolicy(s, draws, start, day), draws, day, start + day)
  }

  /** Once the balance is gone the remaining days change nothing, so leaving the loop early
      is the same as living to the end. */
  lemma {:induction false} ClosedArmStays(s: ArmState, draws: Draws, start: int, day: nat, days: nat)
    requires s.Backed() && day <= days
    requires Run(s, draws, start, day).Outstanding() <= 0
    ensures Run(s, draws, start, days) == Run(s, draws, start, day)
  {
    hide ExternalEvents, Policy, SimulatedPayment;
    if day < days {
      ClosedArmStays(s, draws, start, day, days - 1);
    }
  }

  // ---------------------------------------------------------------- the arm in place

  method CopyOpenPromises(promises: seq<Promise>, payments: seq<Payment>, balance: int, today: int)
      returns (shadows: seq<Promise>)
    ensures shadows == ShadowPromises(promises, payments, balance, today)
  {
    hide ShadowOf;
    shadows := [];
    for i := 0 to |promises|
      invariant shadows + ShadowPromises(promises[i..], payments, balance, today)
                == ShadowPromises(promises, payments, balance, today)
    {
      assert promises[i..][1..] == promises[i + 1..];
      var shadow := ShadowOf(promises[i], payments, balance, today);
      if shadow.Some? {
        ghost var rest := ShadowPromises(promises[i + 1..], payments, balance, today);
        assert shadows + ([shadow.value] + rest) == (shadows + [shadow.value]) + rest;
        shadows := shadows + [shadow.value];
      }
    }
  }

  class Arm {
    const name: ArmName
    const starting: int
    var shadow: RecoveryCase
    var recovered: int
    var attempts: nat
    var completed: nat
    var disputeViolations: nat
    var promiseViolations: nat
    var deferred: bool
    var lastActionDay: Option<int>
    var response: Option<Response>
    var fullyRecoveredDay: Option<int>
    var payments: seq<PaymentRow>
    var actions: seq<ActionRow>
    var decisions: seq<Action>

    ghost function State(): ArmState
      reads this
    {
      ArmState(name, shadow, starting, recovered, attempts, completed, disputeViolations, promiseViolations, deferred,
               lastActionDay, response, fullyRecoveredDay, payments, actions, decisions)
    }

    constructor (source: RecoveryCase, arm: ArmName, today: int)
      requires source.invoice.Some?
      ensures State() == InitialArm(source, arm, today)
    {
      var inv := source.invoice.value;
      name, starting := arm, inv.outstanding;
      recovered, attempts, completed, disputeViolations, promiseViolations, deferred := 0, 0, 0, 0, 0, false;
      lastActionDay, response, fullyRecoveredDay := None, None, None;
      payments, actions, decisions := [], [], [];
      new;
      var promises := CopyOpenPromises(inv.promises, inv.payments, inv.outstanding, today);
      shadow := source.(
        customer := Customer(source.customer.strategic, None, None),
        invoice := Some(inv.(original := inv.outstanding, payments := [], promises := promises)),
        closed := false,
        actions := []);
    }

    method Pay(day: int, wanted: int, association: Association, action: Option<ActionRef>)
      requires State().Backed()
      modifies this
      ensures State() == ApplyPayment(old(State()), day, wanted, association, action)
    {
      var inv := shadow.invoice.value;
      var amount := Min(wanted, inv.outstanding);
      if amount <= 0 {
        return;
      }
      var left := inv.outstanding - amount;
      shadow := shadow.(invoice := Some(inv.(outstanding := left,
                                             status := if left == 0 then PaidInvoice else PartiallyPaid)));
      recovered := recovered + amount;
      payments := payments + [PaymentRow(day, |payments| + 1, amount, inv.outstanding, left, association, action)];
      if left == 0 && fullyRecoveredDay.None? {
        fullyRecoveredDay := Some(day);
      }
    }

    method LivePromise(draws: Draws, day: int, date: int, j: nat)
      requires State().Backed() && j < |State().Invoice().promises|
      modifies this
      ensures State() == PromiseStep(old(State()), draws, day, date, j)
    {
      hide ApplyPayment;
      var inv := shadow.invoice.value;
      var p := inv.promises[j];
      if !p.status.ActivePromise? || p.date > date {
        return;
      }
      if draws(day, PromiseKept(p.id)) < PROMISE_FULFILMENT_PROBABILITY {
        var amount := Min(p.amount, inv.outstanding);
        shadow := shadow.(invoice := Some(inv.(promises := inv.promises[j := p.(status := FulfilledPromise)])));
        Pay(day, amount, PromiseFulfilment, None);
      } else if p.date < date {
        shadow := shadow.(invoice := Some(inv.(promises := inv.promises[j := p.(status := BrokenPromise)])));
      }
    }

    method LiveExternalEvents(draws: Draws, day: int, date: int)
      requires State().Backed()
      modifies this
      ensures State() == ExternalEvents(old(State()), draws, day, date)
    {
      if shadow.invoice.value.outstanding <= 0 {
        return;
      }
      if shadow.invoice.value.status.Disputed? && draws(day, DisputeResolution) < DAILY_DISPUTE_RESOLUTION_PROBABILITY {
        shadow := shadow.(invoice := Some(shadow.invoice.value.(status := OverdueInvoice)));
      }
      hide PromiseStep;
      var j := 0;
      while j < |shadow.invoice.value.promises|
        invariant State().Backed() && 0 <= j <= |shadow.invoice.value.promises|
        invariant PromiseLoop(State(), draws, day, date, j) == ExternalEvents(old(State()), draws, day, date)
        decreases |shadow.invoice.value.promises| - j
      {
        LivePromise(draws, day, date, j);
        j := j + 1;
      }
    }

    method Record(day: int, date: int, action: ArmAction, done: bool, effect: real)
      requires State().Backed()
      modifies this
      ensures State() == RecordAction(old(State()), day, date, action, done, effect)
    {
      attempts := attempts + 1;
      var ref := ActionRef(day, attempts);
      actions := actions + [ActionRow(ref, day, action, done, if done then effect else 0.0)];
      lastActionDay := Some(day);
      if !done {
        return;
      }
      completed := completed + 1;
      if effect > 0.0 {
        response := Some(Response(day + ASSOCIATION_WINDOW_DAYS - 1, effect, ref));
      }
      shadow := shadow.(actions := shadow.actions + [ActionFact(FollowUp, Executed, Some(date))]);
    }

    method ApplyBaselinePolicy(day: int, date: int)
      requires State().Backed()
      modifies this
      ensures State() == BaselinePolicy(old(State()), day, date)
    {
      hide EvaluateCase, RecordAction;
      if day % BASELINE_CADENCE_DAYS != 0 {
        return;
      }
      var e := EvaluateCase(shadow, date);
      if e.disputed {
        disputeViolations := disputeViolations + 1;
      }
      if IsActive in e.promises {
        promiseViolations := promiseViolations + 1;
      }
      Record(day, date, StandardScheduledReminder, true, BASELINE_RESPONSE_INCREMENT);
    }

    method ApplyReconMatePolicy(draws: Draws, day: int, date: int)
      requires State().Backed()
      modifies this
      ensures State() == ReconMatePolicy(old(State()), draws, day, date)
    {
      hide Recommend, RecordAction, ResponseIncrement;
      var rec := Recommend(shadow, date);
      if decisions == [] || decisions[|decisions| - 1] != rec.action {
        decisions := decisions + [rec.action];
      }
      if rec.blockers != {} || Holds(rec.action) {
        if rec.blockers != {} || rec.action.HoldForDispute? || rec.action.MonitorActivePromise? {
          deferred := true;
        }
        return;
      }
      if lastActionDay.Some? && day - lastActionDay.value < RECONMATE_ACTION_CADENCE_DAYS {
        return;
      }
      var approved := !rec.approvalRequired || draws(day, MaterialApproval) < MATERIAL_APPROVAL_PROBABILITY;
      Record(day, date, Recommended(rec.action), approved, ResponseIncrement(rec.action));
    }

    method DrawPayment(draws: Draws, day: int, date: int)
      requires State().Backed()
      modifies this
      ensures State() == SimulatedPayment(old(State()), draws, day, date)
    {
      var inv := shadow.invoice.value;
      if inv.outstanding <= 0 || inv.status.Disputed? {
        return;
      }
      var natural := NaturalDailyProbability(Max(0, date - inv.dueDate));
      var effect := if response.Some? && day <= response.value.until then response.value.increment else 0.0;
      var ref := if response.Some? then Some(response.value.action) else None;
      var occurrence := draws(day, PaymentOccurrence);
      if occurrence >= natural + effect {
        return;
      }
      var amount := PaymentAmount(inv.outstanding, draws(day, PaymentShare));
      if occurrence < natural {
        Pay(day, amount, NaturalRecovery, None);
      } else if name.ReconMate? {
        Pay(day, amount, InterventionAssociated, ref);
      } else {
        Pay(day, amount, StandardCollectionsAssociated, ref);
      }
    }

    method ApplyPolicy(draws: Draws, day: int, date: int)
      requires State().Backed()
      modifies this
      ensures State() == Policy(old(State()), draws, day, date)
    {
      if name.Baseline? {
        ApplyBaselinePolicy(day, date);
      } else {
        ApplyReconMatePolicy(draws, day, date);
      }
    }

    method LiveDay(draws: Draws, start: int, day: int)
      requires State().Backed() && State().Outstanding() > 0
      modifies this
      ensures State() == Day(old(State()), draws, start, day)
    {
      hide ExternalEvents, Policy, SimulatedPayment;
      LiveExternalEvents(draws, day, start + day);
      if shadow.invoice.value.outstanding > 0 {
        ApplyPolicy(draws, day, start + day);
        DrawPayment(draws, day, start + day);
      }
    }

    /** The day loop, which stops as soon as nothing is outstanding. */
    method Simulate(draws: Draws, start: int, horizon: nat)
      requires State().Backed()
      modifies this
      ensures State() == Run(old(State()), draws, start, horizon)
    {
      hide Day;
      ghost var s0 := State();
      for day := 0 to horizon
        invariant State() == Run(s0, draws, start, day)
      {
        if shadow.invoice.value.outstanding <= 0 {
          ClosedArmStays(s0, draws, start, day, horizon);
          return;
        }
        LiveDay(draws, start, day);
      }
    }
  }
}
