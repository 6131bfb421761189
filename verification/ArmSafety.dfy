/** What every arm keeps over the whole horizon: the books balance, contact stays spaced and
    unblocked, and no payment is credited to an action that was not taken in time. */
module ArmSafety {
  import opened Domain
  import opened Money
  import opened Engine
  import opened Recommendations
  import opened Experiment
  import opened ArmSteps

  // ---------------------------------------------------------------- the books

  /** The payment rows form a chain from the starting exposure to the current balance. */
  ghost predicate Chained(rows: seq<PaymentRow>, starting: int, balance: int) {
    if rows == [] then starting == balance
    else
      var last := rows[|rows| - 1];
      && last.after == balance
      && last.ordinal == |rows|
      && last.amount == last.before - last.after
      && 0 < last.amount
      && 0 <= last.after
      && Chained(rows[..|rows| - 1], starting, last.before)
  }

  ghost predicate Balanced(s: ArmState) {
    && s.Backed()
    && 0 <= s.Outstanding()
    && s.recovered + s.Outstanding() == s.starting
    && Chained(s.payments, s.starting, s.Outstanding())
    && (s.fullyRecoveredDay.Some? ==> s.Outstanding() == 0)
    && (s.Outstanding() == 0 && 0 < s.starting ==> s.fullyRecoveredDay.Some?)
  }

  lemma ApplyPaymentBalanced(s: ArmState, day: int, wanted: int, association: Association, action: Option<ActionRef>)
    requires Balanced(s)
    ensures Balanced(ApplyPayment(s, day, wanted, association, action))
  {
    var r := ApplyPayment(s, day, wanted, association, action);
    if r.payments != s.payments {
      assert r.payments[..|r.payments| - 1] == s.payments;
    }
  }

  lemma PromiseStepBalanced(s: ArmState, draws: Draws, day: int, date: int, j: nat)
    requires Balanced(s) && j < |s.Invoice().promises|
    ensures Balanced(PromiseStep(s, draws, day, date, j))
  {
    hide ApplyPayment, Chained;
    var p := s.Invoice().promises[j];
    if p.status.ActivePromise? && p.date <= date && draws(day, PromiseKept(p.id)) < PROMISE_FULFILMENT_PROBABILITY {
      ApplyPaymentBalanced(SetPromiseStatus(s, j, FulfilledPromise), day, Min(p.amount, s.Outstanding()),
                           PromiseFulfilment, None);
    }
  }

  lemma {:induction false} PromiseLoopBalanced(s: ArmState, draws: Draws, day: int, date: int, j: nat)
    requires Balanced(s) && j <= |s.Invoice().promises|
    ensures Balanced(PromiseLoop(s, draws, day, date, j))
    decreases |s.Invoice().promises| - j
  {
    hide PromiseStep, Chained;
    if j < |s.Invoice().promises| {
      PromiseStepBalanced(s, draws, day, date, j);
      PromiseLoopBalanced(PromiseStep(s, draws, day, date, j), draws, day, date, j + 1);
    }
  }

  lemma ExternalBalanced(s: ArmState, draws: Draws, day: int, date: int)
    requires Balanced(s)
    ensures Balanced(ExternalEvents(s, draws, day, date))
  {
    hide PromiseLoop, Chained;
    if s.Outstanding() > 0 {
      PromiseLoopBalanced(ResolveDispute(s, draws, day), draws, day, date, 0);
    }
  }

  lemma PolicyBalanced(s: ArmState, draws: Draws, day: int, date: int)
    requires Balanced(s)
    ensures Balanced(Policy(s, draws, day, date))
  {
    hide Recommend, EvaluateCase, Chained;
  }

  lemma PaymentBalanced(s: ArmState, draws: Draws, day: int, date: int)
    requires Balanced(s)
    ensures Balanced(SimulatedPayment(s, draws, day, date))
  {
    hide ApplyPayment, Chained, PaymentAmount, NaturalDailyProbability, Effect;
    var amount := PaymentAmount(s.Outstanding(), draws(day, PaymentShare));
    ApplyPaymentBalanced(s, day, amount, NaturalRecovery, None);
    ApplyPaymentBalanced(s, day, amount, InterventionAssociated, ResponseAction(s));
    ApplyPaymentBalanced(s, day, amount, StandardCollectionsAssociated, ResponseAction(s));
  }

  lemma PolicyKeepsShape(s: ArmState, draws: Draws, day: int, date: int)
    requires s.Backed()
    ensures var r := Policy(s, draws, day, date);
            r.name == s.name && r.starting == s.starting && r.Invoice() == s.Invoice() && r.payments == s.payments
  {
    hide Recommend, EvaluateCase;
  }

  /** The parts of an arm no step ever changes, and the promise statuses no step ever sets. */
  ghost predicate Shaped(s: ArmState, source: RecoveryCase, name: ArmName) {
    && s.Backed() && source.invoice.Some?
    && s.name == name
    && s.starting == source.invoice.value.outstanding
    && Uncancelled(s)
  }

  lemma DayShaped(s: ArmState, source: RecoveryCase, name: ArmName, draws: Draws, start: int, day: int)
    requires Shaped(s, source, name)
    ensures Shaped(Day(s, draws, start, day), source, name)
    ensures Balanced(s) ==> Balanced(Day(s, draws, start, day))
  {
    hide ExternalEvents, Policy, SimulatedPayment, Chained;
    ExternalKeeps(s, draws, day, start + day);
    var seen := ExternalEvents(s, draws, day, start + day);
    PolicyKeepsShape(seen, draws, day, start + day);
    var acted := Policy(seen, draws, day, start + day);
    PaymentKeeps(acted, draws, day, start + day);
    if Balanced(s) {
      ExternalBalanced(s, draws, day, start + day);
      PolicyBalanced(seen, draws, day, start + day);
      PaymentBalanced(acted, draws, day, start + day);
    }
  }

  lemma {:induction false} RunShaped(source: RecoveryCase, name: ArmName, draws: Draws, start: int, days: nat)
    requires source.invoice.Some?
    ensures Shaped(Run(InitialArm(source, name, start), draws, start, days), source, name)
  {
    hide Day;
    if days > 0 {
      RunShaped(source, name, draws, start, days - 1);
      DayShaped(Run(InitialArm(source, name, start), draws, start, days - 1), source, name, draws, start, days - 1);
    }
  }

  /** After every day, recovered and outstanding add up to the starting exposure, and the
      payment rows account for every cent of the difference. */
  lemma {:induction false} BooksBalance(source: RecoveryCase, name: ArmName, draws: Draws, start: int, days: nat)
    requires source.invoice.Some? && 0 < source.invoice.value.outstanding
    ensures Balanced(Run(InitialArm(source, name, start), draws, start, days))
  {
    hide Day;
    if days > 0 {
      BooksBalance(source, name, draws, start, days - 1);
      RunShaped(source, name, draws, start, days - 1);
      DayShaped(Run(InitialArm(source, name, start), draws, start, days - 1), source, name, draws, start, days - 1);
    }
  }

  // ---------------------------------------------------------------- actions and attribution

  /** The action that opened a response window. */
  predicate Opened(a: ActionRow, w: Response) {
    a.completed && 0.0 < a.increment == w.increment && a.ref == w.action
        && w.until == a.day + 6
  }

  predicate IsAssociated(p: PaymentRow) {
    p.association.InterventionAssociated? || p.association.StandardCollectionsAssociated?
  }

  /** An action a payment may be credited to: completed, effective, and at most six days old. */
  predicate Backs(a: ActionRow, p: PaymentRow) {
    p.action == Some(a.ref) && a.completed && 0.0 < a.increment && a.day <= p.day <= a.day + 6
  }

  ghost predicate Accountable(s: ArmState, day: int) {
    && s.attempts == |s.actions|
    && (forall i :: 0 <= i < |s.actions| ==>
          s.actions[i].ref == ActionRef(s.actions[i].day, i + 1) && 0 <= s.actions[i].day < day)
    && s.lastActionDay == (if s.actions == [] then None else Some(s.actions[|s.actions| - 1].day))
    && (s.response.Some? ==> exists i :: 0 <= i < |s.actions| && Opened(s.actions[i], s.response.value))
    && (forall k :: 0 <= k < |s.payments| && IsAssociated(s.payments[k]) ==>
          exists i :: 0 <= i < |s.actions| && Backs(s.actions[i], s.payments[k]))
    && (forall k :: 0 <= k < |s.payments| && s.payments[k].association.InterventionAssociated? ==> s.name.ReconMate?)
  }

  /** Contact of the ReconMate arm: a week apart at least. */
  ghost predicate Spaced(s: ArmState) {
    forall i :: 0 < i < |s.actions| ==> s.actions[i].day - s.actions[i - 1].day >= RECONMATE_ACTION_CADENCE_DAYS
  }

  /** From `a` to `b` only payments without attribution were booked. */
  ghost predicate AddsPlainRows(a: ArmState, b: ArmState) {
    && |a.payments| <= |b.payments|
    && b.payments[..|a.payments|] == a.payments
    && (forall k :: |a.payments| <= k < |b.payments| ==> !IsAssociated(b.payments[k]))
  }

  lemma {:induction false} PromiseLoopAddsPlainRows(s: ArmState, draws: Draws, day: int, date: int, j: nat)
    requires s.Backed() && j <= |s.Invoice().promises|
    ensures AddsPlainRows(s, PromiseLoop(s, draws, day, date, j))
    decreases |s.Invoice().promises| - j
  {
    hide PromiseStep;
    if j < |s.Invoice().promises| {
      PromiseStepAddsPlainRows(s, draws, day, date, j);
      PromiseLoopAddsPlainRows(PromiseStep(s, draws, day, date, j), draws, day, date, j + 1);
    }
  }

  lemma PromiseStepAddsPlainRows(s: ArmState, draws: Draws, day: int, date: int, j: nat)
    requires s.Backed() && j < |s.Invoice().promises|
    ensures AddsPlainRows(s, PromiseStep(s, draws, day, date, j))
  {
  }

  lemma ExternalAccountable(s: ArmState, draws: Draws, day: int, date: int)
    requires s.Backed() && Uncancelled(s) && Accountable(s, day)
    ensures Accountable(ExternalEvents(s, draws, day, date), day)
  {
    hide PromiseLoop;
    var r := ExternalEvents(s, draws, day, date);
    ExternalKeeps(s, draws, day, date);
    if s.Outstanding() > 0 {
      PromiseLoopAddsPlainRows(ResolveDispute(s, draws, day), draws, day, date, 0);
      assert forall k :: 0 <= k < |s.payments| ==> r.payments[k] == r.payments[..|s.payments|][k] == s.payments[k];
    }
  }

  lemma RecordAccountable(s: ArmState, day: int, date: int, action: ArmAction, done: bool, effect: real)
    requires s.Backed() && 0 <= day && Accountable(s, day)
    ensures Accountable(RecordAction(s, day, date, action, done, effect), day + 1)
  {
    var r := RecordAction(s, day, date, action, done, effect);
    assert forall i :: 0 <= i < |s.actions| ==> r.actions[i] == s.actions[i];
    if r.response.Some? {
      if done && effect > 0.0 {
        assert Opened(r.actions[|s.actions|], r.response.value);
      } else {
        var i :| 0 <= i < |s.actions| && Opened(s.actions[i], s.response.value);
        assert Opened(r.actions[i], r.response.value);
      }
    }
    forall k | 0 <= k < |r.payments| && IsAssociated(r.payments[k])
      ensures exists i :: 0 <= i < |r.actions| && Backs(r.actions[i], r.payments[k])
    {
      var i :| 0 <= i < |s.actions| && Backs(s.actions[i], s.payments[k]);
      assert Backs(r.actions[i], r.payments[k]);
    }
  }

  lemma AccountableTransfers(s: ArmState, t: ArmState, day: int, later: int)
    requires Accountable(s, day) && day <= later
    requires t.name == s.name && t.attempts == s.attempts && t.actions == s.actions && t.lastActionDay
             == s.lastActionDay
             && t.response == s.response && t.payments == s.payments
    ensures Accountable(t, later)
  {
  }

  lemma PolicyAccountable(s: ArmState, draws: Draws, day: int, date: int)
    requires s.Backed() && 0 <= day && Accountable(s, day)
    ensures Accountable(Policy(s, draws, day, date), day + 1)
  {
    hide Recommend, EvaluateCase, RecordAction, ResponseIncrement, Accountable;
    AccountableTransfers(s, s, day, day + 1);
    if s.name.Baseline? {
      var e := EvaluateCase(s.shadow, date);
      var counted := s.(
        disputeViolations := s.disputeViolations + (if e.disputed then 1 else 0),
        promiseViolations := s.promiseViolations + (if IsActive in e.promises then 1 else 0));
      AccountableTransfers(s, counted, day, day);
      RecordAccountable(counted, day, date, StandardScheduledReminder, true, BASELINE_RESPONSE_INCREMENT);
    } else {
      var rec := Recommend(s.shadow, date);
      var noted := NoteDecision(s, rec.action);
      AccountableTransfers(s, noted, day, day);
      AccountableTransfers(s, noted, day, day + 1);
      AccountableTransfers(s, noted.(deferred := true), day, day + 1);
      var approved := !rec.approvalRequired || draws(day, MaterialApproval) < MATERIAL_APPROVAL_PROBABILITY;
      RecordAccountable(noted, day, date, Recommended(rec.action), approved, ResponseIncrement(rec.action));
    }
  }

  /** A payment is credited to the action behind the open response window, or to nothing. */
  lemma PaymentAccountable(s: ArmState, draws: Draws, day: int, date: int)
    requires s.Backed() && Uncancelled(s) && Accountable(s, day + 1)
    ensures Accountable(SimulatedPayment(s, draws, day, date), day + 1)
  {
    hide PaymentAmount, NaturalDailyProbability;
    var r := SimulatedPayment(s, draws, day, date);
    PaymentKeeps(s, draws, day, date);
    forall k | 0 <= k < |r.payments| && IsAssociated(r.payments[k])
      ensures exists i :: 0 <= i < |r.actions| && Backs(r.actions[i], r.payments[k])
    {
      if k < |s.payments| {
        var i :| 0 <= i < |s.actions| && Backs(s.actions[i], s.payments[k]);
        assert Backs(r.actions[i], r.payments[k]);
      } else {
        var i :| 0 <= i < |s.actions| && Opened(s.actions[i], s.response.value);
        assert Backs(r.actions[i], r.payments[k]);
      }
    }
  }

  lemma DayAccountable(s: ArmState, draws: Draws, start: int, day: int)
    requires s.Backed() && Uncancelled(s) && 0 <= day && Accountable(s, day)
    ensures Accountable(Day(s, draws, start, day), day + 1)
  {
    hide ExternalEvents, Policy, SimulatedPayment;
    ExternalAccountable(s, draws, day, start + day);
    ExternalKeeps(s, draws, day, start + day);
    var seen := ExternalEvents(s, draws, day, start + day);
    PolicyAccountable(seen, draws, day, start + day);
    PolicyKeepsShape(seen, draws, day, start + day);
    PaymentAccountable(Policy(seen, draws, day, start + day), draws, day, start + day);
  }

  /** Attribution. After every day each payment credited to an intervention names an action
      of the arm that was completed, has a positive effect and is at most six days old, and
      action references are unique. */
  lemma {:induction false} AttributionIsAccountable(source: RecoveryCase, name: ArmName, draws: Draws, start: int,
                                                    days: nat)
    requires source.invoice.Some?
    ensures Accountable(Run(InitialArm(source, name, start), draws, start, days), days)
  {
    hide Day;
    if days > 0 {
      AttributionIsAccountable(source, name, draws, start, days - 1);
      RunShaped(source, name, draws, start, days - 1);
      DayAccountable(Run(InitialArm(source, name, start), draws, start, days - 1), draws, start, days - 1);
    }
  }

  // ---------------------------------------------------------------- when ReconMate makes contact

  /** Nothing stands against contact: money is owed, nothing is disputed, no promise is
      evaluated active, and the recommendation carries no blocker. */
  ghost predicate Clear(s: ArmState, date: int) {
    && s.Backed()
    && 0 < s.Outstanding()
    && !s.Invoice().status.Disputed?
    && (forall i :: 0 <= i < |s.Invoice().promises| ==>
          !EvaluatePromise(s.Invoice().promises[i], s.Invoice().payments, date).IsActive?)
    && Recommend(s.shadow, date).blockers == {}
  }

  lemma UnblockedIsClear(s: ArmState, date: int)
    requires s.Backed() && 0 < s.Outstanding() && Recommend(s.shadow, date).blockers == {}
    ensures Clear(s, date)
  {
    hide Decide, DesiredState, CommunicationBlockers, EvaluatePromise;
    var e := EvaluateCase(s.shadow, date);
    assert e.blockers == {};
    assert ActiveDispute !in e.blockers;
    assert ActivePaymentPromise !in e.blockers;
    forall i | 0 <= i < |s.Invoice().promises|
      ensures !EvaluatePromise(s.Invoice().promises[i], s.Invoice().payments, date).IsActive?
    {
      assert e.promises[i] in e.promises;
    }
  }

  /** The ReconMate policy records at most one action, only on a clear case, only when the
      cadence is open, and it is the action recommended that day. */
  lemma ReconMatePolicyContacts(s: ArmState, draws: Draws, day: int, date: int)
    requires s.Backed() && s.name.ReconMate? && 0 < s.Outstanding()
    ensures var r := Policy(s, draws, day, date);
            r.actions == s.actions
            || (&& Clear(s, date)
                && CadenceOpen(s, day)
                && |r.actions| == |s.actions| + 1
                && r.actions[..|s.actions|] == s.actions
                && r.actions[|s.actions|].day == day
                && r.actions[|s.actions|].action == Recommended(Recommend(s.shadow, date).action))
  {
    hide Recommend, Clear;
    if Recommend(s.shadow, date).blockers == {} {
      UnblockedIsClear(s, date);
    }
  }

  /** An action recorded on a day on which the policy found the case clear, and which is the
      action recommended on that day. */
  ghost predicate SafeContact(s: ArmState, date: int, a: ActionRow) {
    && Clear(s, date)
    && a.action == Recommended(Recommend(s.shadow, date).action)
  }

  lemma ReconMateDay(s: ArmState, draws: Draws, start: int, day: int)
    requires s.Backed() && Uncancelled(s) && s.name.ReconMate? && Accountable(s, day) && Spaced(s)
    ensures var r := Day(s, draws, start, day);
            && Spaced(r)
            && (r.actions == s.actions
                || (&& |r.actions| == |s.actions| + 1
                    && r.actions[..|s.actions|] == s.actions
                    && r.actions[|s.actions|].day == day
                    && SafeContact(ExternalEvents(s, draws, day, start + day), start + day, r.actions[|s.actions|])))
  {
    hide ExternalEvents, Policy, SimulatedPayment, Clear, Recommend;
    var seen := ExternalEvents(s, draws, day, start + day);
    ExternalKeeps(s, draws, day, start + day);
    if s.Outstanding() > 0 && seen.Outstanding() > 0 {
      ReconMatePolicyContacts(seen, draws, day, start + day);
      PolicyKeepsShape(seen, draws, day, start + day);
      var acted := Policy(seen, draws, day, start + day);
      PaymentKeeps(acted, draws, day, start + day);
      assert forall i :: 0 <= i < |s.actions| ==> acted.actions[i] == acted.actions[..|s.actions|][i];
    }
  }

  ghost predicate ContactsSafe(init: ArmState, draws: Draws, start: int, actions: seq<ActionRow>, days: int)
    requires init.Backed()
  {
    forall i :: 0 <= i < |actions| ==>
      && 0 <= actions[i].day < days
      && SafeContact(AtPolicy(init, draws, start, actions[i].day), start + actions[i].day, actions[i])
  }

  lemma ContactsExtend(init: ArmState, draws: Draws, start: int, old_: seq<ActionRow>, more: seq<ActionRow>, day: nat)
    requires init.Backed() && ContactsSafe(init, draws, start, old_, day)
    requires more == old_
             || (&& |more| == |old_| + 1 && more[..|old_|] == old_ && more[|old_|].day == day
                 && SafeContact(AtPolicy(init, draws, start, day), start + day, more[|old_|]))
    ensures ContactsSafe(init, draws, start, more, day + 1)
  {
    hide SafeContact, AtPolicy;
    assert forall i :: 0 <= i < |old_| ==> more[i] == more[..|old_|][i];
  }

  /** Safe contact. Every action ReconMate ever records falls on a day on which, when the
      policy looked, the case was clear and this action was the recommended one; and any two
      actions are at least a week apart. */
  lemma {:induction false} ReconMateContactIsSafe(source: RecoveryCase, draws: Draws, start: int, days: nat)
    requires source.invoice.Some?
    ensures var init := InitialArm(source, ReconMate, start); var r := Run(init, draws, start, days);
            Spaced(r) && ContactsSafe(init, draws, start, r.actions, days)
  {
    hide Day, SafeContact, ExternalEvents, ContactsSafe, Spaced, Accountable;
    var init := InitialArm(source, ReconMate, start);
    if days == 0 {
      assert ContactsSafe(init, draws, start, [], 0) && Spaced(init) by { NoContacts(init, draws, start); }
    } else {
      ReconMateContactIsSafe(source, draws, start, days - 1);
      RunShaped(source, ReconMate, draws, start, days - 1);
      AttributionIsAccountable(source, ReconMate, draws, start, days - 1);
      var s := Run(init, draws, start, days - 1);
      ReconMateDay(s, draws, start, days - 1);
      ContactsExtend(init, draws, start, s.actions, Run(init, draws, start, days).actions, days - 1);
    }
  }

  lemma NoContacts(init: ArmState, draws: Draws, start: int)
    requires init.Backed() && init.actions == []
    ensures ContactsSafe(init, draws, start, [], 0) && Spaced(init)
  {
  }
}
