/** Draws that set a trap: nothing happens to either arm until one day, on which the payment
    draw clears the balance of the arm that has a response window open and of no other. */
module PolicyTrap {
  import opened Domain
  import opened Money
  import opened Experiment
  import opened ArmSteps
  import opened PolicySchedule
  import opened ReconMateSchedule

  /** Any dispute ends on `endDay` and no promise is kept. On `payDay` the occurrence draw is
      just not enough for a natural payment, on other days it is out of reach; a payment would
      be a full one. */
  function Trap(payDay: int, endDay: int, natural: Draw): Draws {
    (day: int, channel: DrawChannel) =>
      match channel
      case DisputeResolution => if day == endDay then 0.0 else 0.9
      case PromiseKept(_) => 0.9
      case MaterialApproval => 0.0
      case PaymentOccurrence => if day == payDay then natural else 0.9
      case PaymentShare => 0.0
  }

  lemma NaturalBounds(daysOverdue: int)
    ensures 0.006 <= NaturalDailyProbability(daysOverdue) <= 0.015
  {
  }

  function NaturalOn(source: RecoveryCase, date: int): Draw
    requires source.invoice.Some?
  {
    NaturalBounds(Max(0, date - source.invoice.value.dueDate));
    NaturalDailyProbability(Max(0, date - source.invoice.value.dueDate))
  }

  /** The trap for a payment on day `payDay`. */
  function TrapFor(source: RecoveryCase, start: int, payDay: int, endDay: int): Draws
    requires source.invoice.Some?
  {
    Trap(payDay, endDay, NaturalOn(source, start + payDay))
  }

  // ---------------------------------------------------------------- the quiet days

  /** An arm to which nothing has happened yet by the morning of day `x`. */
  ghost predicate Quiet(s: ArmState, source: RecoveryCase, endDay: int, x: int) {
    && s.Backed() && source.invoice.Some?
    && s.Outstanding() == source.invoice.value.outstanding
    && s.Invoice().dueDate == source.invoice.value.dueDate
    && (s.Invoice().status.Disputed? <==> InDisputeAtStart(source) && x <= endDay)
    && Uncancelled(s) && Measured(s)
  }

  lemma {:induction false} NoPromiseKept(s: ArmState, draws: Draws, day: int, date: int, j: nat)
    requires s.Backed() && j <= |s.Invoice().promises|
    requires forall id :: PROMISE_FULFILMENT_PROBABILITY <= draws(day, PromiseKept(id))
    ensures var r := PromiseLoop(s, draws, day, date, j);
            r.Outstanding() == s.Outstanding() && r.Invoice().status == s.Invoice().status
    decreases |s.Invoice().promises| - j
  {
    hide PromiseStep;
    if j < |s.Invoice().promises| {
      PromiseStepCredits(s, draws, day, date, j);
      NoPromiseKept(PromiseStep(s, draws, day, date, j), draws, day, date, j + 1);
    }
  }

  lemma QuietEvents(s: ArmState, source: RecoveryCase, payDay: int, endDay: int, start: int, x: nat)
    requires Admitted(source, start) && Quiet(s, source, endDay, x)
    ensures Quiet(ExternalEvents(s, TrapFor(source, start, payDay, endDay), x, start + x), source, endDay, x + 1)
  {
    hide PromiseLoop;
    var draws := TrapFor(source, start, payDay, endDay);
    ExternalKeeps(s, draws, x, start + x);
    NoPromiseKept(ResolveDispute(s, draws, x), draws, x, start + x, 0);
  }

  lemma QuietPolicy(s: ArmState, source: RecoveryCase, draws: Draws, endDay: int, x: nat, date: int)
    requires Quiet(s, source, endDay, x + 1)
    ensures Quiet(Policy(s, draws, x, date), source, endDay, x + 1)
  {
    PolicyKeepsInvoice(s, draws, x, date);
    PolicyMeasured(s, draws, x, date);
    hide Policy;
  }

  lemma QuietDay(s: ArmState, source: RecoveryCase, payDay: int, endDay: int, start: int, x: nat)
    requires Admitted(source, start) && Quiet(s, source, endDay, x) && x < payDay
    ensures Quiet(Day(s, TrapFor(source, start, payDay, endDay), start, x), source, endDay, x + 1)
  {
    hide ExternalEvents, Policy, SimulatedPayment, NaturalDailyProbability;
    var draws := TrapFor(source, start, payDay, endDay);
    QuietEvents(s, source, payDay, endDay, start, x);
    var seen := ExternalEvents(s, draws, x, start + x);
    QuietPolicy(seen, source, draws, endDay, x, start + x);
    var acted := Policy(seen, draws, x, start + x);
    NaturalBounds(Max(0, start + x - acted.Invoice().dueDate));
    SimulatedPaymentCredits(acted, draws, x, start + x);
    PaymentKeeps(acted, draws, x, start + x);
  }

  /** Nothing happens to either arm before the day of the payment. */
  lemma {:induction false} QuietRun(source: RecoveryCase, name: ArmName, payDay: nat, endDay: nat, start: int, x: nat)
    requires Admitted(source, start) && x <= payDay
    ensures Quiet(Run(InitialArm(source, name, start), TrapFor(source, start, payDay, endDay), start, x), source,
                  endDay, x)
  {
    hide Day, Trap, NaturalOn;
    if x == 0 {
      InitialUncancelled(source, name, start);
    } else {
      QuietRun(source, name, payDay, endDay, start, x - 1);
      QuietDay(Run(InitialArm(source, name, start), TrapFor(source, start, payDay, endDay), start, x - 1),
               source, payDay, endDay, start, x - 1);
    }
  }

  // ---------------------------------------------------------------- the trap

  /** On the day of the payment, with any dispute over, an arm is cleared if it responds and left
      alone if it does not. */
  lemma TrapSprings(source: RecoveryCase, name: ArmName, payDay: nat, endDay: nat, start: int)
    requires Admitted(source, start) && endDay <= payDay
    ensures var init := InitialArm(source, name, start);
            var draws := TrapFor(source, start, payDay, endDay);
            && Quiet(AtPolicy(init, draws, start, payDay), source, endDay, payDay + 1)
            && Run(init, draws, start, payDay + 1).Outstanding()
               == (if 0.0 < Effect(AtPayment(init, draws, start, payDay), payDay) then 0
                   else source.invoice.value.outstanding)
  {
    hide ExternalEvents, Policy, SimulatedPayment, NaturalDailyProbability, Effect, Run;
    var init, draws := InitialArm(source, name, start), TrapFor(source, start, payDay, endDay);
    QuietRun(source, name, payDay, endDay, start, payDay);
    var s := Run(init, draws, start, payDay);
    QuietEvents(s, source, payDay, endDay, start, payDay);
    QuietPolicy(AtPolicy(init, draws, start, payDay), source, draws, endDay, payDay, start + payDay);
    var acted := AtPayment(init, draws, start, payDay);
    SimulatedPaymentCredits(acted, draws, payDay, start + payDay);
    NextDay(init, draws, start, payDay);
  }

  lemma NextDay(s: ArmState, draws: Draws, start: int, day: nat)
    requires s.Backed()
    ensures Run(s, draws, start, day + 1) == Day(Run(s, draws, start, day), draws, start, day)
  {
  }

  /** The last action is never older than a day from which on the arm had taken none. */
  lemma {:induction false} ActsSince(s: ArmState, draws: Draws, start: int, from: nat, x: nat)
    requires s.Backed() && from <= x
    requires Uncancelled(Run(s, draws, start, from)) && Run(s, draws, start, from).lastActionDay.None?
    ensures var r := Run(s, draws, start, x);
            Uncancelled(r) && (r.lastActionDay.Some? ==> from <= r.lastActionDay.value)
  {
    hide ExternalEvents, Policy, SimulatedPayment;
    if from < x {
      ActsSince(s, draws, start, from, x - 1);
      ActsToday(Run(s, draws, start, x - 1), draws, start, x - 1);
    }
  }

  lemma ActsToday(s: ArmState, draws: Draws, start: int, day: int)
    requires s.Backed() && Uncancelled(s)
    ensures var r := Day(s, draws, start, day);
            Uncancelled(r) && (r.lastActionDay == s.lastActionDay || r.lastActionDay == Some(day))
    ensures var r := Policy(ExternalEvents(s, draws, day, start + day), draws, day, start + day);
            r.lastActionDay == s.lastActionDay || r.lastActionDay == Some(day)
  {
    hide ExternalEvents, Policy, SimulatedPayment;
    ExternalKeeps(s, draws, day, start + day);
    var seen := ExternalEvents(s, draws, day, start + day);
    PolicyMovesLastDay(seen, draws, day, start + day);
    PolicyKeepsInvoice(seen, draws, day, start + day);
    PaymentKeeps(Policy(seen, draws, day, start + day), draws, day, start + day);
  }

  /** A day on which ReconMate's last action may lie when a payment is drawn on `day`: any of the
      last seven if the case is disputed at the start, else the last multiple of seven. */
  predicate ContactDay(source: RecoveryCase, day: nat, contact: nat)
    requires source.invoice.Some?
  {
    && day - RECONMATE_ACTION_CADENCE_DAYS < contact <= day
    && (contact % RECONMATE_ACTION_CADENCE_DAYS == 0 || InDisputeAtStart(source))
  }

  /** If no outreach can be expected on a possible contact day, the trap whose dispute ends on
      that day finds ReconMate without a window. */
  lemma TrapFindsNoWindow(source: RecoveryCase, start: int, payDay: nat, contact: nat)
    requires Admitted(source, start) && PositivePromises(source)
    requires ContactDay(source, payDay, contact) && !OutreachAt(source, start, start + contact)
    ensures Effect(AtPayment(InitialArm(source, ReconMate, start), TrapFor(source, start, payDay, contact), start,
                             payDay), payDay) <= 0.0
  {
    hide Run, ExternalEvents, Policy, Trap, NaturalOn, Willing, Mild;
    var init, draws := InitialArm(source, ReconMate, start), TrapFor(source, start, payDay, contact);
    if Willing(source, start) {
      TrapSprings(source, ReconMate, payDay, contact, start);
      CalendarAtPayment(source, draws, start, payDay);
      var acted := AtPayment(init, draws, start, payDay);
      var last := acted.lastActionDay.value;
      if InDisputeAtStart(source) {
        NoActionBefore(source, start, payDay, contact);
        if OutreachAt(source, start, start + last) {
          OutreachFades(source, start, start + contact, start + last);
        }
      }
    } else {
      UnwillingNeverResponds(source, draws, start, payDay);
    }
  }

  lemma NoActionBefore(source: RecoveryCase, start: int, payDay: nat, endDay: nat)
    requires Admitted(source, start) && Willing(source, start) && InDisputeAtStart(source) && endDay <= payDay
    ensures var r := AtPayment(InitialArm(source, ReconMate, start), TrapFor(source, start, payDay, endDay), start,
                               payDay);
            r.lastActionDay.Some? ==> endDay <= r.lastActionDay.value
  {
    hide Run, ExternalEvents, Policy, Trap, NaturalOn, Willing, OutreachAt;
    var init, draws := InitialArm(source, ReconMate, start), TrapFor(source, start, payDay, endDay);
    QuietRun(source, ReconMate, payDay, endDay, start, endDay);
    RunOnCalendar(source, draws, start, endDay);
    ActsSince(init, draws, start, endDay, payDay);
    ActsToday(Run(init, draws, start, payDay), draws, start, payDay);
  }
}
