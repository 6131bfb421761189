/** Which of the two policies recovers more, given the same draws: exactly when ReconMate never
    falls behind the baseline, and what a case on hold or an escalation can cost. */
module PolicyComparison {
  import opened Domain
  import opened Engine
  import opened Recommendations
  import opened Experiment
  import opened ArmSteps
  import opened Dominance
  import opened PolicySchedule
  import opened ReconMateSchedule
  import opened PolicyTrap

  /** What an arm of the pair still owes after some days. */
  function Owed(source: RecoveryCase, name: ArmName, draws: Draws, start: int, days: nat): int
    requires source.invoice.Some?
  {
    Run(InitialArm(source, name, start), draws, start, days).Outstanding()
  }

  // ---------------------------------------------------------------- exactly when ReconMate never falls behind

  /** On every day on which the baseline has a window open, ReconMate's last action was outreach,
      wherever its contact days may have fallen. Everything in it can be read off the case and
      the calendar before the experiment starts. */
  ghost predicate AlwaysAnswers(source: RecoveryCase, start: int, horizon: nat)
    requires source.invoice.Some?
  {
    forall day: nat, contact: nat :: day < horizon && InWindow(day) && ContactDay(source, day, contact) ==>
      OutreachAt(source, start, start + contact)
  }

  /** The answer of a willing case on a day of the baseline's window. */
  lemma AnswerInForce(source: RecoveryCase, draws: Draws, start: int, horizon: nat, day: nat)
    requires Admitted(source, start) && AlwaysAnswers(source, start, horizon) && day < horizon
    requires Payable(AtPolicy(InitialArm(source, ReconMate, start), draws, start, day))
    ensures (if InWindow(day) then 0.025
             else 0.0) <= Effect(AtPayment(InitialArm(source, ReconMate, start), draws, start, day), day)
  {
    hide Run, ExternalEvents, Policy, OutreachAt, Willing;
    AnsweringIsWilling(source, start, horizon);
    CalendarAtPayment(source, draws, start, day);
    var acted := AtPayment(InitialArm(source, ReconMate, start), draws, start, day);
    if InWindow(day) {
      assert ContactDay(source, day, acted.lastActionDay.value);
    }
  }

  lemma AnsweringIsWilling(source: RecoveryCase, start: int, horizon: nat)
    requires Admitted(source, start) && AlwaysAnswers(source, start, horizon) && 0 < horizon
    ensures Willing(source, start)
  {
    hide Willing, Mild;
    assert ContactDay(source, 0, 0) && InWindow(0);
  }

  /** If ReconMate always answers, then after every day of the horizon and whatever the draws it
      has at most as much outstanding as its baseline twin. */
  lemma AnsweringNeverFallsBehind(source: RecoveryCase, draws: Draws, start: int, horizon: nat, days: nat)
    requires Admitted(source, start) && AlwaysAnswers(source, start, horizon) && days <= horizon
    ensures Owed(source, ReconMate, draws, start, days) <= Owed(source, Baseline, draws, start, days)
  {
    hide Run, AtPolicy, AtPayment, Effect, AlwaysAnswers;
    var ahead, behind := InitialArm(source, ReconMate, start), InitialArm(source, Baseline, start);
    PairStartsCoupled(source, Baseline, ReconMate, start);
    forall day: nat | day < days
      ensures RespondsNoWeaker(behind, ahead, draws, start, day)
    {
      if Payable(AtPolicy(ahead, draws, start, day)) {
        AnswerInForce(source, draws, start, horizon, day);
        BaselineEffect(source, draws, start, day);
      }
    }
    CoupledDominance(behind, ahead, draws, start, days);
  }

  /** If outreach cannot be expected on some contact day of some day of the baseline's window,
      then there are draws, given here, under which the baseline recovers everything on that day
      and ReconMate has recovered nothing. */
  lemma AnUnansweredWindowCanCostEverything(source: RecoveryCase, start: int, day: nat, contact: nat)
    requires Admitted(source, start) && PositivePromises(source)
    requires InWindow(day) && ContactDay(source, day, contact) && !OutreachAt(source, start, start + contact)
    ensures var draws := TrapFor(source, start, day, contact);
            && Owed(source, Baseline, draws, start, day + 1) == 0
            && Owed(source, ReconMate, draws, start, day + 1) == source.invoice.value.outstanding
  {
    hide Run, ExternalEvents, Policy, Effect, Trap, NaturalOn, OutreachAt;
    var draws := TrapFor(source, start, day, contact);
    TrapFindsNoWindow(source, start, day, contact);
    TrapSprings(source, ReconMate, day, contact, start);
    TrapSprings(source, Baseline, day, contact, start);
    BaselineEffect(source, draws, start, day);
  }

  /** ReconMate never falls behind, under any draws and on any day of the horizon, if and only if
      it always answers. */
  lemma NeverBehindExactly(source: RecoveryCase, start: int, horizon: nat)
    requires Admitted(source, start) && PositivePromises(source)
    ensures (forall draws: Draws, days: nat :: days <= horizon ==>
               Owed(source, ReconMate, draws, start, days) <= Owed(source, Baseline, draws, start, days))
       <==> AlwaysAnswers(source, start, horizon)
  {
    hide Owed, OutreachAt, InWindow, ContactDay;
    if AlwaysAnswers(source, start, horizon) {
      forall draws: Draws, days: nat | days <= horizon
        ensures Owed(source, ReconMate, draws, start, days) <= Owed(source, Baseline, draws, start, days)
      {
        AnsweringNeverFallsBehind(source, draws, start, horizon, days);
      }
    } else {
      var day: nat, contact: nat :| day < horizon && InWindow(day) && ContactDay(source, day, contact)
        && !OutreachAt(source, start, start + contact);
      AnUnansweredWindowCanCostEverything(source, start, day, contact);
      var draws := TrapFor(source, start, day, contact);
      assert Owed(source, ReconMate, draws, start, day + 1) > Owed(source, Baseline, draws, start, day + 1);
    }
  }

  /** The last contact day that matters within the thirty days of the experiment. */
  function LastContact(source: RecoveryCase): nat
    requires source.invoice.Some?
  {
    if InDisputeAtStart(source) then 29 else 28
  }

  /** Since outreach only fades, over the experiment's own horizon one look at one date decides:
      day 28 for a case undisputed at the start, day 29 for a disputed one. */
  lemma ThirtyDaysExactly(source: RecoveryCase, start: int)
    requires Admitted(source, start) && PositivePromises(source)
    ensures (forall draws: Draws, days: nat :: days <= HORIZON_DAYS ==>
               Owed(source, ReconMate, draws, start, days) <= Owed(source, Baseline, draws, start, days))
       <==> OutreachAt(source, start, start + LastContact(source))
  {
    hide Owed, OutreachAt;
    NeverBehindExactly(source, start, HORIZON_DAYS);
    LastContactDecides(source, start);
  }

  lemma LastContactDecides(source: RecoveryCase, start: int)
    requires source.invoice.Some?
    ensures AlwaysAnswers(source, start, HORIZON_DAYS) <==> OutreachAt(source, start, start + LastContact(source))
  {
    hide OutreachAt;
    var last := LastContact(source);
    assert InWindow(last) && ContactDay(source, last, last);
    if OutreachAt(source, start, start + last) {
      forall day: nat, contact: nat | day < HORIZON_DAYS && InWindow(day) && ContactDay(source, day, contact)
        ensures OutreachAt(source, start, start + contact)
      {
        OutreachFades(source, start, start + contact, start + last);
      }
    }
  }

  // ---------------------------------------------------------------- routine cases

  /** Facts an operator can read off the case before the experiment starts. A dispute is not one
      of them. */
  ghost predicate Routine(source: RecoveryCase, start: int, horizon: nat) {
    && source.invoice.Some?
    && !source.state.Closed?
    && source.priority != CriticalPriority
    && !ClaimsPayment(source.signals)
    && var inv := source.invoice.value;
    && inv.issueDate <= start
    && inv.dueDate < start
    && 0 < inv.outstanding < SEVERE_EXPOSURE
    && (forall i :: 0 <= i < |inv.promises| ==>
          EvaluatePromise(inv.promises[i], inv.payments, start) in {IsFulfilled, IsCancelled})
    && start + horizon - 1 - inv.dueDate < SEVERE_OVERDUE_DAYS
  }

  /** On a routine case, disputed or not, ReconMate never falls behind. */
  lemma ReconMateNeverFallsBehindOnRoutineCases(source: RecoveryCase, draws: Draws, start: int, horizon: nat, days: nat)
    requires Routine(source, start, horizon) && days <= horizon
    ensures Owed(source, ReconMate, draws, start, days) <= Owed(source, Baseline, draws, start, days)
  {
    hide Owed, EvaluatePromise, ClaimsPayment, RecentCommitmentOrDelay;
    AnsweringNeverFallsBehind(source, draws, start, horizon, days);
  }

  // ---------------------------------------------------------------- cases without outreach

  /** On a case that is closed, claims a payment or has an open promise, the baseline never falls
      behind ReconMate. */
  lemma UnwillingNeverGetsAhead(source: RecoveryCase, draws: Draws, start: int, days: nat)
    requires Admitted(source, start) && PositivePromises(source) && !Willing(source, start)
    ensures Owed(source, Baseline, draws, start, days) <= Owed(source, ReconMate, draws, start, days)
  {
    hide Run, AtPolicy, AtPayment, Willing;
    var behind, ahead := InitialArm(source, ReconMate, start), InitialArm(source, Baseline, start);
    PairStartsCoupled(source, ReconMate, Baseline, start);
    forall day: nat | day < days
      ensures RespondsNoWeaker(behind, ahead, draws, start, day)
    {
      UnwillingNeverResponds(source, draws, start, day);
      BaselineEffect(source, draws, start, day);
    }
    CoupledDominance(behind, ahead, draws, start, days);
  }

  // ---------------------------------------------------------------- cases on hold

  /** A recorded promise that is not due before the horizon ends. */
  ghost predicate OnHold(source: RecoveryCase, start: int, horizon: nat) {
    && source.invoice.Some?
    && var inv := source.invoice.value;
    && 0 < inv.outstanding
    && exists i :: 0 <= i < |inv.promises| && 0 < inv.promises[i].amount && start + horizon - 1 <= inv.promises[i].date
                   && EvaluatePromise(inv.promises[i], inv.payments, start).IsActive?
  }

  ghost predicate HeldArm(s: ArmState, last: int) {
    && s.Backed() && s.name.ReconMate? && Uncancelled(s)
    && s.Invoice().payments == []
    && s.response.None? && s.actions == []
    && exists i :: 0 <= i < |s.Invoice().promises| && 0 < s.Invoice().promises[i].amount
        && last <= s.Invoice().promises[i].date
  }

  lemma {:induction false} ShadowKeepsActive(promises: seq<Promise>, payments: seq<Payment>, balance: int, today: int,
                                             i: nat)
    requires i < |promises| && 0 < balance && 0 < promises[i].amount
             && EvaluatePromise(promises[i], payments, today).IsActive?
    ensures exists k :: 0 <= k < |ShadowPromises(promises, payments, balance, today)|
              && 0 < ShadowPromises(promises, payments, balance, today)[k].amount
              && ShadowPromises(promises, payments, balance, today)[k].date == promises[i].date
  {
    hide EvaluatePromise;
    var all := ShadowPromises(promises, payments, balance, today);
    var rest := ShadowPromises(promises[1..], payments, balance, today);
    if i == 0 {
      assert all[0].amount == Min(promises[0].amount, balance) && all[0].date == promises[0].date;
    } else {
      ShadowKeepsActive(promises[1..], payments, balance, today, i - 1);
      var k :| 0 <= k < |rest| && 0 < rest[k].amount && rest[k].date == promises[1..][i - 1].date;
      if all == rest {
        assert all[k].date == promises[i].date;
      } else {
        assert all[k + 1] == rest[k];
      }
    }
  }

  /** A promise dated today or later is evaluated active, since a shadow invoice has no
      payments, and the policy holds. */
  lemma HeldPolicy(s: ArmState, draws: Draws, day: int, date: int, last: int)
    requires HeldArm(s, last) && date <= last
    ensures var r := Policy(s, draws, day, date);
            HeldArm(r, last) && Effect(r, day) == 0.0
  {
    var inv := s.Invoice();
    var i :| 0 <= i < |inv.promises| && 0 < inv.promises[i].amount && last <= inv.promises[i].date;
    assert EvaluatePromises(inv.promises, inv.payments, date)[i] == IsActive;
    PromiseBlocks(s.shadow, date, i);
    hide Recommend, Policy, EvaluatePromise;
    BlockedKeeps(s, draws, day, date);
  }

  lemma PromiseBlocks(c: RecoveryCase, date: int, i: nat)
    requires c.invoice.Some? && i < |c.invoice.value.promises|
    requires EvaluatePromise(c.invoice.value.promises[i], c.invoice.value.payments, date).IsActive?
    ensures Recommend(c, date).blockers != {}
  {
    hide EvaluatePromise, Decide, DesiredState, CommunicationBlockers;
    var states := EvaluatePromises(c.invoice.value.promises, c.invoice.value.payments, date);
    assert states[i] == IsActive;
    assert ActivePaymentPromise in EvaluateCase(c, date).blockers;
  }

  lemma HeldDay(s: ArmState, draws: Draws, start: int, day: int, last: int)
    requires HeldArm(s, last) && start + day <= last
    ensures HeldArm(Day(s, draws, start, day), last)
  {
    hide ExternalEvents, Policy, SimulatedPayment, Effect;
    HeldExternal(s, draws, day, start + day, last);
    var seen := ExternalEvents(s, draws, day, start + day);
    HeldPolicy(seen, draws, day, start + day, last);
    PaymentKeeps(Policy(seen, draws, day, start + day), draws, day, start + day);
  }

  lemma {:induction false} HeldRun(source: RecoveryCase, draws: Draws, start: int, horizon: nat, day: nat)
    requires OnHold(source, start, horizon) && day <= horizon
    ensures HeldArm(Run(InitialArm(source, ReconMate, start), draws, start, day), start + horizon - 1)
  {
    hide Day, EvaluatePromise;
    var last := start + horizon - 1;
    if day == 0 {
      HeldStart(source, start, horizon);
    } else {
      HeldRun(source, draws, start, horizon, day - 1);
      HeldDay(Run(InitialArm(source, ReconMate, start), draws, start, day - 1), draws, start, day - 1, last);
    }
  }

  lemma HeldStart(source: RecoveryCase, start: int, horizon: nat)
    requires OnHold(source, start, horizon)
    ensures HeldArm(InitialArm(source, ReconMate, start), start + horizon - 1)
  {
    hide EvaluatePromise;
    var inv := source.invoice.value;
    var i :| 0 <= i < |inv.promises| && 0 < inv.promises[i].amount && start + horizon - 1 <= inv.promises[i].date
             && EvaluatePromise(inv.promises[i], inv.payments, start).IsActive?;
    ShadowKeepsActive(inv.promises, inv.payments, inv.outstanding, start, i);
    InitialUncancelled(source, ReconMate, start);
  }

  lemma HeldEffect(source: RecoveryCase, draws: Draws, start: int, horizon: nat, day: nat)
    requires OnHold(source, start, horizon) && day < horizon
    ensures Effect(AtPayment(InitialArm(source, ReconMate, start), draws, start, day), day) == 0.0
  {
    hide Run, ExternalEvents, Policy, Effect;
    HeldRun(source, draws, start, horizon, day);
    HeldExternal(Run(InitialArm(source, ReconMate, start), draws, start, day), draws, day, start + day,
                 start + horizon - 1);
    HeldPolicy(AtPolicy(InitialArm(source, ReconMate, start), draws, start, day), draws, day, start + day,
               start + horizon - 1);
  }

  lemma HeldExternal(s: ArmState, draws: Draws, day: int, date: int, last: int)
    requires HeldArm(s, last)
    ensures HeldArm(ExternalEvents(s, draws, day, date), last)
  {
    hide ExternalEvents;
    ExternalKeeps(s, draws, day, date);
    var i :| 0 <= i < |s.Invoice().promises| && 0 < s.Invoice().promises[i].amount
        && last <= s.Invoice().promises[i].date;
    var r := ExternalEvents(s, draws, day, date);
    assert r.Invoice().promises[i].amount == s.Invoice().promises[i].amount;
  }

  /** While a promise keeps a case on hold ReconMate takes no action at all, and after every
      day it has at least as much outstanding as its baseline twin. */
  lemma HeldCaseNeverGetsAhead(source: RecoveryCase, draws: Draws, start: int, horizon: nat, days: nat)
    requires OnHold(source, start, horizon) && days <= horizon
    ensures Run(InitialArm(source, ReconMate, start), draws, start, days).actions == []
    ensures Run(InitialArm(source, Baseline, start), draws, start, days).Outstanding()
         <= Run(InitialArm(source, ReconMate, start), draws, start, days).Outstanding()
  {
    hide Run, AtPolicy, AtPayment, Effect;
    var behind, ahead := InitialArm(source, ReconMate, start), InitialArm(source, Baseline, start);
    PairStartsCoupled(source, ReconMate, Baseline, start);
    HeldRun(source, draws, start, horizon, days);
    forall day: nat | day < days
      ensures RespondsNoWeaker(behind, ahead, draws, start, day)
    {
      HeldEffect(source, draws, start, horizon, day);
      BaselineEffect(source, draws, start, day);
    }
    CoupledDominance(behind, ahead, draws, start, days);
  }

  // ---------------------------------------------------------------- strictness

  /** The comparison is strict for some inputs: a held case on which the baseline clears the
      whole balance on the first day and ReconMate recovers nothing. */
  lemma HoldingCanCostTheWholeBalance()
    ensures var source := HeldExample(); var draws := TrapFor(source, 100, 0, 0);
            && OnHold(source, 100, HORIZON_DAYS)
            && Owed(source, Baseline, draws, 100, 1) == 0 && Owed(source, ReconMate, draws, 100, 1) == 60_000
  {
    var source := HeldExample();
    var inv := source.invoice.value;
    assert inv.promises[0].date == 160 && EvaluatePromise(inv.promises[0], inv.payments, 100).IsActive?;
    AnUnansweredWindowCanCostEverything(source, 100, 0, 0);
    hide Owed;
  }

  /** No hold is needed: on a large balance, without promise or dispute, ReconMate prepares an
      escalation, which moves no money. */
  lemma EscalatingCanCostTheWholeBalance()
    ensures var source := LargeExample(); var draws := TrapFor(source, 100, 0, 0);
            && Willing(source, 100)
            && Owed(source, Baseline, draws, 100, 1) == 0 && Owed(source, ReconMate, draws, 100, 1) == 30_000_000
  {
    AnUnansweredWindowCanCostEverything(LargeExample(), 100, 0, 0);
    hide Owed;
  }

  function HeldExample(): RecoveryCase {
    RecoveryCase(
      Customer(false, None, None),
      Some(Invoice(20, 50, 60_000, 60_000, OverdueInvoice, [], [Promise(1, 30_000, 160, ActivePromise, None)])),
      InProgress, NormalPriority, false, [], [])
  }

  function LargeExample(): RecoveryCase {
    RecoveryCase(
      Customer(false, None, None),
      Some(Invoice(20, 50, 30_000_000, 30_000_000, OverdueInvoice, [], [])),
      InProgress, NormalPriority, false, [], [])
  }
}
