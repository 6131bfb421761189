/** What the single steps of an arm's day change and what they leave alone. */
module ArmSteps {
  import opened Domain
  import opened Money
  import opened Engine
  import opened Recommendations
  import opened Experiment

  /** What a payment does to the shadow invoice, leaving the rest of the arm aside. */
  function Credit(inv: Invoice, wanted: int): Invoice {
    var amount := Min(wanted, inv.outstanding);
    if amount <= 0 then inv
    else
      inv.(outstanding := inv.outstanding - amount,
           status := if inv.outstanding == amount then PaidInvoice else PartiallyPaid)
  }

  lemma ApplyPaymentCredits(s: ArmState, day: int, wanted: int, association: Association, action: Option<ActionRef>)
    requires s.Backed()
    ensures ApplyPayment(s, day, wanted, association, action).Invoice() == Credit(s.Invoice(), wanted)
  {
  }

  /** The promise step and the payment draw as far as the invoice is concerned. */
  lemma PromiseStepCredits(s: ArmState, draws: Draws, day: int, date: int, j: nat)
    requires s.Backed() && j < |s.Invoice().promises|
    ensures var inv := s.Invoice(); var p := inv.promises[j];
            PromiseStep(s, draws, day, date, j).Invoice() ==
              if !p.status.ActivePromise? || p.date > date then inv
              else if draws(day, PromiseKept(p.id)) < PROMISE_FULFILMENT_PROBABILITY then
                Credit(inv.(promises := inv.promises[j := p.(status := FulfilledPromise)]),
                       Min(p.amount, inv.outstanding))
              else if p.date < date then inv.(promises := inv.promises[j := p.(status := BrokenPromise)])
              else inv
  {
    hide ApplyPayment;
    var p := s.Invoice().promises[j];
    if p.status.ActivePromise? && p.date <= date && draws(day, PromiseKept(p.id)) < PROMISE_FULFILMENT_PROBABILITY {
      ApplyPaymentCredits(SetPromiseStatus(s, j, FulfilledPromise), day, Min(p.amount, s.Outstanding()),
                          PromiseFulfilment, None);
    }
  }

  lemma SimulatedPaymentCredits(s: ArmState, draws: Draws, day: int, date: int)
    requires s.Backed()
    ensures var inv := s.Invoice();
            SimulatedPayment(s, draws, day, date).Invoice() ==
              if inv.outstanding <= 0 || inv.status.Disputed?
                 || draws(day, PaymentOccurrence) >= NaturalDailyProbability(Max(0, date - inv.dueDate))
                     + Effect(s, day)
              then inv
              else Credit(inv, PaymentAmount(inv.outstanding, draws(day, PaymentShare)))
  {
    hide ApplyPayment, PaymentAmount, NaturalDailyProbability, Effect;
    var amount := PaymentAmount(s.Outstanding(), draws(day, PaymentShare));
    ApplyPaymentCredits(s, day, amount, NaturalRecovery, None);
    ApplyPaymentCredits(s, day, amount, InterventionAssociated, ResponseAction(s));
    ApplyPaymentCredits(s, day, amount, StandardCollectionsAssociated, ResponseAction(s));
  }

  /** What every step keeps of a single arm: the due date, and a balance that stays between
      zero and what it was. */
  ghost predicate Shrinks(before: ArmState, after: ArmState) {
    && before.Backed() && after.Backed()
    && after.Invoice().dueDate == before.Invoice().dueDate
    && after.Invoice().issueDate == before.Invoice().issueDate
    && 0 <= after.Outstanding() <= before.Outstanding()
  }

  lemma {:induction false} PromiseLoopShrinks(s: ArmState, draws: Draws, day: int, date: int, j: nat)
    requires s.Backed() && 0 <= s.Outstanding() && j <= |s.Invoice().promises|
    ensures Shrinks(s, PromiseLoop(s, draws, day, date, j))
    decreases |s.Invoice().promises| - j
  {
    hide PromiseStep;
    if j < |s.Invoice().promises| {
      var next := PromiseStep(s, draws, day, date, j);
      PromiseStepCredits(s, draws, day, date, j);
      assert Shrinks(s, next);
      PromiseLoopShrinks(next, draws, day, date, j + 1);
    }
  }

  lemma ExternalShrinks(s: ArmState, draws: Draws, day: int, date: int)
    requires s.Backed() && 0 <= s.Outstanding()
    ensures Shrinks(s, ExternalEvents(s, draws, day, date))
  {
    if s.Outstanding() > 0 {
      PromiseLoopShrinks(ResolveDispute(s, draws, day), draws, day, date, 0);
    }
  }

  /** Policies never touch the money. */
  lemma PolicyKeepsInvoice(s: ArmState, draws: Draws, day: int, date: int)
    requires s.Backed()
    ensures Policy(s, draws, day, date).shadow.invoice == s.shadow.invoice
  {
    hide Recommend, EvaluateCase;
  }

  lemma PaymentShrinks(s: ArmState, draws: Draws, day: int, date: int)
    requires s.Backed() && 0 <= s.Outstanding()
    ensures Shrinks(s, SimulatedPayment(s, draws, day, date))
  {
    hide SimulatedPayment, PaymentAmount, NaturalDailyProbability, Effect;
    SimulatedPaymentCredits(s, draws, day, date);
  }

  lemma DayShrinks(s: ArmState, draws: Draws, start: int, day: int)
    requires s.Backed() && 0 <= s.Outstanding()
    ensures Shrinks(s, Day(s, draws, start, day))
  {
    hide ExternalEvents, Policy, SimulatedPayment;
    if s.Outstanding() > 0 {
      var seen := ExternalEvents(s, draws, day, start + day);
      ExternalShrinks(s, draws, day, start + day);
      PolicyKeepsInvoice(seen, draws, day, start + day);
      PaymentShrinks(Policy(seen, draws, day, start + day), draws, day, start + day);
    }
  }

  // ---------------------------------------------------------------- the money steps and the policy state

  predicate SamePlans(a: seq<Promise>, b: seq<Promise>) {
    && |a| == |b|
    && forall i :: 0 <= i < |a| ==>
         b[i].id == a[i].id && b[i].amount == a[i].amount && b[i].date == a[i].date && b[i].source == a[i].source
             && !b[i].status.CancelledPromise?
  }

  /** Payments and promise events leave everything the policies keep: the actions taken, the
      response window, the decisions and the terms of the invoice and its promises. */
  ghost predicate KeepsPolicyState(a: ArmState, b: ArmState) {
    && a.Backed() && b.Backed()
    && b.name == a.name && b.starting == a.starting && b.attempts == a.attempts && b.completed == a.completed
    && b.disputeViolations == a.disputeViolations && b.promiseViolations == a.promiseViolations
    && b.lastActionDay == a.lastActionDay && b.response == a.response
    && b.actions == a.actions && b.deferred == a.deferred && b.decisions == a.decisions
    && b.shadow == a.shadow.(invoice := b.shadow.invoice)
    && b.Invoice().issueDate == a.Invoice().issueDate
    && b.Invoice().dueDate == a.Invoice().dueDate
    && b.Invoice().payments == a.Invoice().payments
    && SamePlans(a.Invoice().promises, b.Invoice().promises)
  }

  ghost predicate Uncancelled(s: ArmState)
    requires s.Backed()
  {
    forall i :: 0 <= i < |s.Invoice().promises| ==> !s.Invoice().promises[i].status.CancelledPromise?
  }

  lemma ApplyPaymentKeeps(s: ArmState, day: int, wanted: int, association: Association, action: Option<ActionRef>)
    requires s.Backed() && Uncancelled(s)
    ensures var r := ApplyPayment(s, day, wanted, association, action);
            KeepsPolicyState(s, r) && r.Invoice().promises == s.Invoice().promises
  {
  }

  lemma PromiseStepKeeps(s: ArmState, draws: Draws, day: int, date: int, j: nat)
    requires s.Backed() && Uncancelled(s) && j < |s.Invoice().promises|
    ensures KeepsPolicyState(s, PromiseStep(s, draws, day, date, j))
  {
    hide ApplyPayment;
    var p := s.Invoice().promises[j];
    if p.status.ActivePromise? && p.date <= date && draws(day, PromiseKept(p.id)) < PROMISE_FULFILMENT_PROBABILITY {
      ApplyPaymentKeeps(SetPromiseStatus(s, j, FulfilledPromise), day, Min(p.amount, s.Outstanding()),
                        PromiseFulfilment, None);
    }
  }

  lemma {:induction false} PromiseLoopKeeps(s: ArmState, draws: Draws, day: int, date: int, j: nat)
    requires s.Backed() && Uncancelled(s) && j <= |s.Invoice().promises|
    ensures KeepsPolicyState(s, PromiseLoop(s, draws, day, date, j))
    decreases |s.Invoice().promises| - j
  {
    hide PromiseStep;
    if j < |s.Invoice().promises| {
      PromiseStepKeeps(s, draws, day, date, j);
      PromiseLoopKeeps(PromiseStep(s, draws, day, date, j), draws, day, date, j + 1);
    }
  }

  lemma ExternalKeeps(s: ArmState, draws: Draws, day: int, date: int)
    requires s.Backed() && Uncancelled(s)
    ensures KeepsPolicyState(s, ExternalEvents(s, draws, day, date))
  {
    hide PromiseLoop;
    if s.Outstanding() > 0 {
      PromiseLoopKeeps(ResolveDispute(s, draws, day), draws, day, date, 0);
    }
  }

  lemma PaymentKeeps(s: ArmState, draws: Draws, day: int, date: int)
    requires s.Backed() && Uncancelled(s)
    ensures KeepsPolicyState(s, SimulatedPayment(s, draws, day, date))
    ensures SimulatedPayment(s, draws, day, date).Invoice().promises == s.Invoice().promises
  {
    hide ApplyPayment, PaymentAmount, NaturalDailyProbability, Effect;
    var amount := PaymentAmount(s.Outstanding(), draws(day, PaymentShare));
    ApplyPaymentKeeps(s, day, amount, NaturalRecovery, None);
    ApplyPaymentKeeps(s, day, amount, InterventionAssociated, ResponseAction(s));
    ApplyPaymentKeeps(s, day, amount, StandardCollectionsAssociated, ResponseAction(s));
  }
}
