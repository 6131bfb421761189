/** What the records of an arm mean: when the baseline contacts a customer and how its contact
    violations are counted, and on which days money was booked. */
module ArmRecords {
  import opened Domain
  import opened Money
  import opened Engine
  import opened Recommendations
  import opened Experiment
  import opened ArmSteps
  import opened ArmSafety
  import opened Sums

  // ---------------------------------------------------------------- the baseline schedule

  /** The days before `days` on which a reminder falls due while the arm is still open. */
  ghost function ReminderDays(init: ArmState, draws: Draws, start: int, days: nat): seq<nat>
    requires init.Backed()
  {
    if days == 0 then []
    else
      ReminderDays(init, draws, start, days - 1)
      + (if (days - 1) % 14 == 0 && AtPolicy(init, draws, start, days - 1).Outstanding() > 0
         then [days - 1] else [])
  }

  ghost predicate DisputedThen(init: ArmState, draws: Draws, start: int, day: nat) {
    init.Backed() && AtPolicy(init, draws, start, day).Invoice().status.Disputed?
  }

  ghost predicate PromisedThen(init: ArmState, draws: Draws, start: int, day: nat) {
    init.Backed() && PromisedNow(AtPolicy(init, draws, start, day), start + day)
  }

  ghost predicate PromisedNow(s: ArmState, date: int) {
    && s.Backed()
    && (exists i :: 0 <= i < |s.Invoice().promises|
          && EvaluatePromise(s.Invoice().promises[i], s.Invoice().payments, date).IsActive?)
  }

  /** The actions are one completed standard reminder on each of these days, and the violation
      counters count those of them that met a dispute or an active promise. */
  ghost predicate Reminds(r: ArmState, init: ArmState, draws: Draws, start: int, due: seq<nat>) {
    && |r.actions| == |due| == r.attempts == r.completed
    && (forall i :: 0 <= i < |due| ==>
          r.actions[i] == ActionRow(ActionRef(due[i], i + 1), due[i], StandardScheduledReminder, true, 0.020))
    && r.disputeViolations == CountOf(due, day => DisputedThen(init, draws, start, day))
    && r.promiseViolations == CountOf(due, day => PromisedThen(init, draws, start, day))
  }

  lemma BaselineActs(s: ArmState, draws: Draws, day: nat, date: int)
    requires s.Backed() && s.name.Baseline?
    ensures var r := Policy(s, draws, day, date);
            if day % BASELINE_CADENCE_DAYS != 0 then r == s
            else
              && r.actions == s.actions + [ActionRow(ActionRef(day, s.attempts + 1), day, StandardScheduledReminder,
                                                     true, BASELINE_RESPONSE_INCREMENT)]
              && r.attempts == s.attempts + 1 && r.completed == s.completed + 1
              && r.disputeViolations == s.disputeViolations + (if s.Invoice().status.Disputed? then 1 else 0)
              && r.promiseViolations == s.promiseViolations + (if PromisedNow(s, date) then 1 else 0)
  {
    hide EvaluatePromise, DesiredState, CommunicationBlockers;
    var e := EvaluateCase(s.shadow, date);
    assert IsActive in e.promises <==> PromisedNow(s, date) by {
      if PromisedNow(s, date) {
        var i :| 0 <= i < |s.Invoice().promises|
            && EvaluatePromise(s.Invoice().promises[i], s.Invoice().payments, date).IsActive?;
        assert e.promises[i] == IsActive;
      }
      if IsActive in e.promises {
        var i :| 0 <= i < |e.promises| && e.promises[i] == IsActive;
        assert EvaluatePromise(s.Invoice().promises[i], s.Invoice().payments, date).IsActive?;
      }
    }
  }

  lemma RemindsKept(r: ArmState, t: ArmState, init: ArmState, draws: Draws, start: int, due: seq<nat>)
    requires Reminds(r, init, draws, start, due)
    requires t.actions == r.actions && t.attempts == r.attempts && t.completed == r.completed
             && t.disputeViolations == r.disputeViolations && t.promiseViolations == r.promiseViolations
    ensures Reminds(t, init, draws, start, due)
  {
  }

  /** The baseline contacts the customer on every fourteenth day while money is owed and on no
      other day, whatever is disputed or promised; its violation counters say how often that
      contact met a dispute, and how often an active promise. */
  lemma {:induction false} BaselineKeepsItsSchedule(source: RecoveryCase, draws: Draws, start: int, days: nat)
    requires source.invoice.Some?
    ensures var init := InitialArm(source, Baseline, start);
            Reminds(Run(init, draws, start, days), init, draws, start, ReminderDays(init, draws, start, days))
  {
    hide ExternalEvents, Policy, SimulatedPayment, Reminds, EvaluatePromise;
    var init := InitialArm(source, Baseline, start);
    if days == 0 {
      NothingReminded(init, draws, start);
    } else {
      BaselineKeepsItsSchedule(source, draws, start, days - 1);
      RunShaped(source, Baseline, draws, start, days - 1);
      RemindedDay(init, draws, start, days - 1);
    }
  }

  lemma NothingReminded(init: ArmState, draws: Draws, start: int)
    requires init.actions == [] && init.attempts == init.completed == init.disputeViolations == init.promiseViolations
             == 0
    ensures Reminds(init, init, draws, start, [])
  {
  }

  lemma RemindedDay(init: ArmState, draws: Draws, start: int, day: nat)
    requires init.Backed()
    requires var s := Run(init, draws, start, day); s.name.Baseline? && Uncancelled(s)
    requires Reminds(Run(init, draws, start, day), init, draws, start, ReminderDays(init, draws, start, day))
    ensures Reminds(Run(init, draws, start, day + 1), init, draws, start, ReminderDays(init, draws, start, day + 1))
  {
    hide ExternalEvents, Policy, SimulatedPayment, Reminds, EvaluatePromise;
    var s := Run(init, draws, start, day);
    var seen := AtPolicy(init, draws, start, day);
    var due, next := ReminderDays(init, draws, start, day), ReminderDays(init, draws, start, day + 1);
    assert next == due + (if day % BASELINE_CADENCE_DAYS == 0 && seen.Outstanding() > 0 then [day] else []);
    ExternalKeeps(s, draws, day, start + day);
    RemindsKept(s, seen, init, draws, start, due);
    if s.Outstanding() <= 0 {
      assert seen == s by { ClosedExternal(s, draws, day, start + day); }
    }
    if seen.Outstanding() > 0 {
      var acted := Policy(seen, draws, day, start + day);
      PolicyKeepsShape(seen, draws, day, start + day);
      BaselineActs(seen, draws, day, start + day);
      if day % BASELINE_CADENCE_DAYS == 0 {
        RemindedToday(seen, acted, init, draws, start, due, day);
      } else {
        assert acted == seen && next == due;
      }
      PaymentKeeps(acted, draws, day, start + day);
      RemindsKept(acted, SimulatedPayment(acted, draws, day, start + day), init, draws, start, next);
    } else {
      assert next == due;
      assert s.Outstanding() > 0 ==> Run(init, draws, start, day + 1) == seen;
    }
  }

  lemma ClosedExternal(s: ArmState, draws: Draws, day: int, date: int)
    requires s.Backed() && s.Outstanding() <= 0
    ensures ExternalEvents(s, draws, day, date) == s
  {
  }

  lemma RemindedToday(seen: ArmState, acted: ArmState, init: ArmState, draws: Draws, start: int, due: seq<nat>,
                      day: nat)
    requires init.Backed() && seen == AtPolicy(init, draws, start, day) && Reminds(seen, init, draws, start, due)
    requires acted.actions == seen.actions
             + [ActionRow(ActionRef(day, seen.attempts + 1), day, StandardScheduledReminder, true,
                          BASELINE_RESPONSE_INCREMENT)]
    requires acted.attempts == seen.attempts + 1 && acted.completed == seen.completed + 1
    requires acted.disputeViolations == seen.disputeViolations + (if seen.Invoice().status.Disputed? then 1 else 0)
    requires acted.promiseViolations == seen.promiseViolations + (if PromisedNow(seen, start + day) then 1 else 0)
    ensures Reminds(acted, init, draws, start, due + [day])
  {
    hide AtPolicy, PromisedNow;
    var now := due + [day];
    assert now[..|due|] == due && now[..|due| + 1] == now;
    CountSnoc(now, |due|, d => DisputedThen(init, draws, start, d));
    CountSnoc(now, |due|, d => PromisedThen(init, draws, start, d));
  }

  // ---------------------------------------------------------------- the same count for ReconMate

  /** Counted as the baseline's contacts are, none of ReconMate's contacts meets a dispute or an
      active promise; so its violation counters, which stay at zero, are right. */
  lemma ReconMateNeverViolates(source: RecoveryCase, draws: Draws, start: int, days: nat)
    requires source.invoice.Some?
    ensures var init := InitialArm(source, ReconMate, start); var r := Run(init, draws, start, days);
            && (forall i :: 0 <= i < |r.actions| ==>
                  && 0 <= r.actions[i].day < days
                  && !DisputedThen(init, draws, start, r.actions[i].day)
                  && !PromisedThen(init, draws, start, r.actions[i].day))
            && r.disputeViolations == 0 && r.promiseViolations == 0
  {
    hide AtPolicy, Run, EvaluatePromise, Recommend;
    ReconMateContactIsSafe(source, draws, start, days);
    ReconMateCountsNone(source, draws, start, days);
  }

  lemma {:induction false} ReconMateCountsNone(source: RecoveryCase, draws: Draws, start: int, days: nat)
    requires source.invoice.Some?
    ensures var r := Run(InitialArm(source, ReconMate, start), draws, start, days);
            r.disputeViolations == 0 && r.promiseViolations == 0
  {
    hide Day;
    if days > 0 {
      ReconMateCountsNone(source, draws, start, days - 1);
      RunShaped(source, ReconMate, draws, start, days - 1);
      DayKeepsCounters(Run(InitialArm(source, ReconMate, start), draws, start, days - 1), draws, start, days - 1);
    }
  }

  lemma DayKeepsCounters(s: ArmState, draws: Draws, start: int, day: int)
    requires s.Backed() && Uncancelled(s) && s.name.ReconMate?
    ensures var r := Day(s, draws, start, day);
            r.disputeViolations == s.disputeViolations && r.promiseViolations == s.promiseViolations
  {
    hide ExternalEvents, Policy, SimulatedPayment;
    ExternalKeeps(s, draws, day, start + day);
    var seen := ExternalEvents(s, draws, day, start + day);
    ReconMateKeepsCounters(seen, draws, day, start + day);
    PolicyKeepsShape(seen, draws, day, start + day);
    PaymentKeeps(Policy(seen, draws, day, start + day), draws, day, start + day);
  }

  lemma ReconMateKeepsCounters(s: ArmState, draws: Draws, day: int, date: int)
    requires s.Backed() && s.name.ReconMate?
    ensures var r := Policy(s, draws, day, date);
            r.disputeViolations == s.disputeViolations && r.promiseViolations == s.promiseViolations
  {
    hide Recommend;
  }

  // ---------------------------------------------------------------- the days of the payments

  /** Payments are booked day by day, and the day of full recovery is the day of the last one. */
  ghost predicate Dated(s: ArmState, day: int) {
    && (forall k :: 0 <= k < |s.payments| ==> 0 <= s.payments[k].day < day)
    && (forall k :: 0 < k < |s.payments| ==> s.payments[k - 1].day <= s.payments[k].day)
    && (s.fullyRecoveredDay.Some? ==> s.payments != [] && s.fullyRecoveredDay.value == s.payments[|s.payments| - 1].day)
  }

  lemma ApplyPaymentDated(s: ArmState, day: int, wanted: int, association: Association, action: Option<ActionRef>)
    requires Balanced(s) && Dated(s, day + 1) && 0 <= day
    ensures Dated(ApplyPayment(s, day, wanted, association, action), day + 1)
  {
    hide Chained;
  }

  lemma PromiseStepDated(s: ArmState, draws: Draws, day: int, date: int, j: nat)
    requires Balanced(s) && Dated(s, day + 1) && 0 <= day && j < |s.Invoice().promises|
    ensures Dated(PromiseStep(s, draws, day, date, j), day + 1)
  {
    hide ApplyPayment, Chained;
    var p := s.Invoice().promises[j];
    if p.status.ActivePromise? && p.date <= date && draws(day, PromiseKept(p.id)) < PROMISE_FULFILMENT_PROBABILITY {
      ApplyPaymentDated(SetPromiseStatus(s, j, FulfilledPromise), day, Min(p.amount, s.Outstanding()),
                        PromiseFulfilment, None);
    }
  }

  lemma {:induction false} PromiseLoopDated(s: ArmState, draws: Draws, day: int, date: int, j: nat)
    requires Balanced(s) && Dated(s, day + 1) && 0 <= day && j <= |s.Invoice().promises|
    ensures Dated(PromiseLoop(s, draws, day, date, j), day + 1)
    decreases |s.Invoice().promises| - j
  {
    hide PromiseStep, Chained, Dated;
    if j < |s.Invoice().promises| {
      PromiseStepDated(s, draws, day, date, j);
      PromiseStepBalanced(s, draws, day, date, j);
      PromiseLoopDated(PromiseStep(s, draws, day, date, j), draws, day, date, j + 1);
    }
  }

  lemma DayDated(s: ArmState, draws: Draws, start: int, day: int)
    requires Balanced(s) && Dated(s, day) && 0 <= day
    ensures Dated(Day(s, draws, start, day), day + 1)
  {
    hide PromiseLoop, Policy, SimulatedPayment, Chained;
    if s.Outstanding() > 0 {
      var resolved := ResolveDispute(s, draws, day);
      PromiseLoopDated(resolved, draws, day, start + day, 0);
      ExternalBalanced(s, draws, day, start + day);
      var seen := ExternalEvents(s, draws, day, start + day);
      PolicyDated(seen, draws, day, start + day);
      PolicyBalanced(seen, draws, day, start + day);
      PaymentDated(Policy(seen, draws, day, start + day), draws, day, start + day);
    }
  }

  lemma PolicyDated(s: ArmState, draws: Draws, day: int, date: int)
    requires s.Backed() && Dated(s, day + 1)
    ensures Dated(Policy(s, draws, day, date), day + 1)
  {
    hide Recommend, EvaluateCase;
  }

  lemma PaymentDated(s: ArmState, draws: Draws, day: int, date: int)
    requires Balanced(s) && Dated(s, day + 1) && 0 <= day
    ensures Dated(SimulatedPayment(s, draws, day, date), day + 1)
  {
    hide ApplyPayment, Chained, Dated, PaymentAmount, NaturalDailyProbability, Effect;
    var amount := PaymentAmount(s.Outstanding(), draws(day, PaymentShare));
    ApplyPaymentDated(s, day, amount, NaturalRecovery, None);
    ApplyPaymentDated(s, day, amount, InterventionAssociated, ResponseAction(s));
    ApplyPaymentDated(s, day, amount, StandardCollectionsAssociated, ResponseAction(s));
  }

  /** In every arm the payment rows are in day order within the days lived, and the reported
      day of full recovery is the day of the payment that cleared the balance. */
  lemma {:induction false} PaymentsAreDated(source: RecoveryCase, name: ArmName, draws: Draws, start: int, days: nat)
    requires source.invoice.Some? && 0 < source.invoice.value.outstanding
    ensures var r := Run(InitialArm(source, name, start), draws, start, days);
            Dated(r, days) && (r.fullyRecoveredDay.Some? <==> r.Outstanding() == 0)
  {
    hide Day, Chained;
    BooksBalance(source, name, draws, start, days);
    if days > 0 {
      BooksBalance(source, name, draws, start, days - 1);
      PaymentsAreDated(source, name, draws, start, days - 1);
      DayDated(Run(InitialArm(source, name, start), draws, start, days - 1), draws, start, days - 1);
    }
    RunShaped(source, name, draws, start, days);
  }

  // ---------------------------------------------------------------- the promises of a shadow

  /** No payment is kept on the shadow invoice, and every promise is a positive one. */
  ghost predicate Unpaid(s: ArmState) {
    && s.Backed() && Uncancelled(s) && s.Invoice().payments == []
    && forall i :: 0 <= i < |s.Invoice().promises| ==> 0 < s.Invoice().promises[i].amount
  }

  lemma {:induction false} ShadowsArePositive(promises: seq<Promise>, payments: seq<Payment>, balance: int, today: int)
    requires 0 < balance && forall k :: 0 <= k < |promises| ==> 0 < promises[k].amount
    ensures forall i :: 0 <= i < |ShadowPromises(promises, payments, balance, today)| ==>
              0 < ShadowPromises(promises, payments, balance, today)[i].amount
  {
    hide EvaluatePromise;
    if promises != [] {
      ShadowsArePositive(promises[1..], payments, balance, today);
    }
  }

  lemma DayUnpaid(s: ArmState, draws: Draws, start: int, day: int)
    requires Unpaid(s)
    ensures Unpaid(Day(s, draws, start, day))
  {
    hide ExternalEvents, Policy, SimulatedPayment;
    if s.Outstanding() > 0 {
      ExternalKeeps(s, draws, day, start + day);
      var seen := ExternalEvents(s, draws, day, start + day);
      PolicyKeepsInvoice(seen, draws, day, start + day);
      PaymentKeeps(Policy(seen, draws, day, start + day), draws, day, start + day);
    }
  }

  lemma {:induction false} RunUnpaid(source: RecoveryCase, name: ArmName, draws: Draws, start: int, days: nat)
    requires source.invoice.Some? && 0 < source.invoice.value.outstanding
    requires forall k :: 0 <= k < |source.invoice.value.promises| ==> 0 < source.invoice.value.promises[k].amount
    ensures Unpaid(Run(InitialArm(source, name, start), draws, start, days))
  {
    hide Day, EvaluatePromise;
    if days == 0 {
      var inv := source.invoice.value;
      ShadowsArePositive(inv.promises, inv.payments, inv.outstanding, start);
      assert InitialArm(source, name, start).Invoice().promises
             == ShadowPromises(inv.promises, inv.payments, inv.outstanding, start);
    } else {
      RunUnpaid(source, name, draws, start, days - 1);
      DayUnpaid(Run(InitialArm(source, name, start), draws, start, days - 1), draws, start, days - 1);
    }
  }

  /** In an arm no promise is ever evaluated fulfilled, not even one the arm has marked so and
      booked a payment for: it is active up to its date and broken after it. */
  lemma ShadowPromisesAreNeverFulfilled(source: RecoveryCase, name: ArmName, draws: Draws, start: int, days: nat,
                                        i: nat, date: int)
    requires source.invoice.Some? && 0 < source.invoice.value.outstanding
    requires forall k :: 0 <= k < |source.invoice.value.promises| ==> 0 < source.invoice.value.promises[k].amount
    requires i < |Run(InitialArm(source, name, start), draws, start, days).Invoice().promises|
    ensures var inv := Run(InitialArm(source, name, start), draws, start, days).Invoice();
            EvaluatePromise(inv.promises[i], inv.payments, date)
                == if inv.promises[i].date < date then IsBroken else IsActive
  {
    hide Run;
    RunUnpaid(source, name, draws, start, days);
  }
}
