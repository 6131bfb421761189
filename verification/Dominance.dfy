/** Two arms over common draws: when one arm's response increment never falls behind the
    other's, its balance never does either. */
module Dominance {
  import opened Domain
  import opened Money
  import opened Experiment
  import opened ArmSteps

  /** `ahead` owes at most what `behind` owes. While `ahead` is open, the two arms also agree
      on the dispute flag and on every promise. */
  ghost predicate Coupled(behind: ArmState, ahead: ArmState) {
    && behind.Backed() && ahead.Backed()
    && behind.Invoice().dueDate == ahead.Invoice().dueDate
    && 0 <= ahead.Outstanding() <= behind.Outstanding()
    && (ahead.Outstanding() > 0 ==> SameEvents(behind, ahead))
  }

  ghost predicate SameEvents(a: ArmState, b: ArmState)
    requires a.Backed() && b.Backed()
  {
    && (a.Invoice().status.Disputed? <==> b.Invoice().status.Disputed?)
    && a.Invoice().promises == b.Invoice().promises
  }

  /** Coupling inside the promise loop, where an arm whose balance reached zero goes on
      updating its promises. */
  ghost predicate LoopCoupled(behind: ArmState, ahead: ArmState) {
    && behind.Backed() && ahead.Backed()
    && behind.Invoice().dueDate == ahead.Invoice().dueDate
    && 0 <= ahead.Outstanding() <= behind.Outstanding()
    && behind.Invoice().promises == ahead.Invoice().promises
    && (ahead.Outstanding() > 0 ==> (behind.Invoice().status.Disputed? <==> ahead.Invoice().status.Disputed?))
  }

  lemma PromiseStepCoupled(behind: ArmState, ahead: ArmState, draws: Draws, day: int, date: int, j: nat)
    requires LoopCoupled(behind, ahead) && j < |behind.Invoice().promises|
    ensures LoopCoupled(PromiseStep(behind, draws, day, date, j), PromiseStep(ahead, draws, day, date, j))
  {
    hide PromiseStep;
    PromiseStepCredits(behind, draws, day, date, j);
    PromiseStepCredits(ahead, draws, day, date, j);
  }

  lemma {:induction false} PromiseLoopCoupled(behind: ArmState, ahead: ArmState, draws: Draws, day: int, date: int,
                                              j: nat)
    requires LoopCoupled(behind, ahead) && j <= |behind.Invoice().promises|
    ensures LoopCoupled(PromiseLoop(behind, draws, day, date, j), PromiseLoop(ahead, draws, day, date, j))
    decreases |behind.Invoice().promises| - j
  {
    hide PromiseStep;
    if j < |behind.Invoice().promises| {
      PromiseStepCoupled(behind, ahead, draws, day, date, j);
      PromiseLoopCoupled(PromiseStep(behind, draws, day, date, j), PromiseStep(ahead, draws, day, date, j), draws, day,
                         date, j + 1);
    }
  }

  // ---------------------------------------------------------------- the coupled day

  lemma ExternalCoupled(behind: ArmState, ahead: ArmState, draws: Draws, day: int, date: int)
    requires Coupled(behind, ahead)
    ensures Coupled(ExternalEvents(behind, draws, day, date), ExternalEvents(ahead, draws, day, date))
  {
    hide PromiseLoop;
    if ahead.Outstanding() > 0 {
      PromiseLoopCoupled(ResolveDispute(behind, draws, day), ResolveDispute(ahead, draws, day), draws, day, date, 0);
    } else {
      ExternalShrinks(behind, draws, day, date);
    }
  }

  /** Whether a payment can be drawn at all: nothing is drawn while the invoice is disputed. */
  ghost predicate Payable(s: ArmState)
    requires s.Backed()
  {
    s.Outstanding() > 0 && !s.Invoice().status.Disputed?
  }

  /** The payment draw keeps the coupling when the effect of `ahead` is at least as large: it
      pays whenever `behind` does, and a larger balance keeps a larger remainder. */
  lemma PaymentCoupled(behind: ArmState, ahead: ArmState, draws: Draws, day: int, date: int)
    requires Coupled(behind, ahead)
    requires Payable(ahead) ==> Effect(behind, day) <= Effect(ahead, day)
    ensures Coupled(SimulatedPayment(behind, draws, day, date), SimulatedPayment(ahead, draws, day, date))
  {
    hide SimulatedPayment, PaymentAmount, NaturalDailyProbability, Effect;
    SimulatedPaymentCredits(behind, draws, day, date);
    SimulatedPaymentCredits(ahead, draws, day, date);
    if ahead.Outstanding() > 0 {
      PaymentRemainderMonotone(ahead.Outstanding(), behind.Outstanding(), draws(day, PaymentShare));
      PaymentAmountBounds(ahead.Outstanding(), draws(day, PaymentShare));
      PaymentAmountBounds(behind.Outstanding(), draws(day, PaymentShare));
    } else {
      PaymentShrinks(behind, draws, day, date);
    }
  }

  /** On this day `ahead` responds at least as strongly as `behind`, if a payment can be drawn
      for it. */
  ghost predicate RespondsNoWeaker(behind: ArmState, ahead: ArmState, draws: Draws, start: int, day: nat)
    requires behind.Backed() && ahead.Backed()
  {
    Payable(AtPolicy(ahead, draws, start, day)) ==>
      Effect(AtPayment(behind, draws, start, day), day) <= Effect(AtPayment(ahead, draws, start, day), day)
  }

  lemma DayCoupled(behind: ArmState, ahead: ArmState, draws: Draws, start: int, day: int)
    requires Coupled(behind, ahead)
    requires var (b, a) := (ExternalEvents(behind, draws, day, start + day),
                            ExternalEvents(ahead, draws, day, start + day));
             Payable(a) ==>
               Effect(Policy(b, draws, day, start + day), day) <= Effect(Policy(a, draws, day, start + day), day)
    ensures Coupled(Day(behind, draws, start, day), Day(ahead, draws, start, day))
  {
    hide ExternalEvents, Policy, SimulatedPayment, Effect;
    var b, a := ExternalEvents(behind, draws, day, start + day), ExternalEvents(ahead, draws, day, start + day);
    ExternalCoupled(behind, ahead, draws, day, start + day);
    if ahead.Outstanding() > 0 && a.Outstanding() > 0 {
      PolicyKeepsInvoice(b, draws, day, start + day);
      PolicyKeepsInvoice(a, draws, day, start + day);
      PaymentCoupled(Policy(b, draws, day, start + day), Policy(a, draws, day, start + day), draws, day, start + day);
    } else {
      DayShrinks(behind, draws, start, day);
      ExternalShrinks(ahead, draws, day, start + day);
    }
  }

  /** Coupled dominance. Two arms that start coupled, over the same draws, stay coupled after
      every day of any horizon, as long as the response of `ahead` is no weaker on the days
      on which it can still be paid. */
  lemma {:induction false} CoupledDominance(behind: ArmState, ahead: ArmState, draws: Draws, start: int, days: nat)
    requires Coupled(behind, ahead)
    requires forall day: nat :: day < days ==> RespondsNoWeaker(behind, ahead, draws, start, day)
    ensures Coupled(Run(behind, draws, start, days), Run(ahead, draws, start, days))
  {
    hide Day, ExternalEvents, Policy, Effect;
    if days > 0 {
      CoupledDominance(behind, ahead, draws, start, days - 1);
      assert RespondsNoWeaker(behind, ahead, draws, start, days - 1);
      DayCoupled(Run(behind, draws, start, days - 1), Run(ahead, draws, start, days - 1), draws, start, days - 1);
    }
  }

  /** The two arms of a pair start coupled, either way round. */
  lemma PairStartsCoupled(source: RecoveryCase, one: ArmName, other: ArmName, today: int)
    requires source.invoice.Some? && 0 <= source.invoice.value.outstanding
    ensures Coupled(InitialArm(source, one, today), InitialArm(source, other, today))
  {
  }
}
