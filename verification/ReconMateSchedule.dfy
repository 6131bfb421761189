/** The calendar of the ReconMate policy: on a willing case it acts on every seventh day from
    the first undisputed one, with outreach or with an escalation that moves no money; on any
    other case it never opens a response window. */
module ReconMateSchedule {
  import opened Domain
  import opened Money
  import opened Engine
  import opened Recommendations
  import opened Experiment
  import opened ArmSteps
  import opened PolicySchedule

  // ---------------------------------------------------------------- willing cases

  predicate InDisputeAtStart(source: RecoveryCase)
    requires source.invoice.Some?
  {
    source.invoice.value.status.Disputed?
  }

  /** What never changes in the ReconMate arm of a willing case. */
  ghost predicate WillingArm(s: ArmState, source: RecoveryCase, start: int) {
    && s.Backed() && source.invoice.Some? && s.name.ReconMate?
    && s.shadow.state == source.state && !s.shadow.closed
    && s.shadow.priority == source.priority && s.shadow.signals == source.signals
    && s.shadow.customer.consent.None? && s.shadow.customer.channel.None?
    && s.Invoice().issueDate == source.invoice.value.issueDate
    && s.Invoice().dueDate == source.invoice.value.dueDate
    && s.Invoice().promises == []
    && 0 <= s.Outstanding() <= source.invoice.value.outstanding
    && (s.Invoice().status.Disputed? ==> InDisputeAtStart(source))
    && Measured(s)
  }

  /** Every action so far happened before this date. */
  ghost predicate ActedBefore(s: ArmState, date: int) {
    forall a :: a in s.shadow.actions ==> a.executedOn.Some? && a.executedOn.value < date
  }

  /** The calendar on the morning of day `x`. There is no action while the case is disputed.
      Then the last one is at most a week old, and on a case undisputed from the start it falls
      on a multiple of seven days. If outreach was to be expected on that day, its window is the
      one in force; if it was not, and nothing has been paid, no later window is. */
  ghost predicate Calendar(s: ArmState, source: RecoveryCase, start: int, x: int)
    requires s.Backed() && source.invoice.Some?
  {
    match s.lastActionDay
    case None => s.response.None? && (x == 0 || InDisputeAtStart(source))
    case Some(last) =>
      && !s.Invoice().status.Disputed?
      && 0 <= last && x - RECONMATE_ACTION_CADENCE_DAYS <= last < x
      && (last % RECONMATE_ACTION_CADENCE_DAYS == 0 || InDisputeAtStart(source))
      && (OutreachAt(source, start, start + last) ==>
            s.response.Some? && s.response.value.until == last + ASSOCIATION_WINDOW_DAYS - 1
            && s.response.value.increment >= 0.025)
      && (s.Outstanding() == source.invoice.value.outstanding && !OutreachAt(source, start, start + last) ==>
            s.response.Some? ==> s.response.value.until < last)
  }

  ghost predicate OnCalendar(s: ArmState, source: RecoveryCase, start: int, x: int) {
    && WillingArm(s, source, start)
    && ActedBefore(s, start + x)
    && (0 < s.Outstanding() ==> Calendar(s, source, start, x))
  }

  /** While the case is disputed the recommendation is blocked. */
  lemma DisputeBlocks(c: RecoveryCase, date: int)
    requires c.invoice.Some? && c.invoice.value.status.Disputed?
    ensures Recommend(c, date).blockers != {}
  {
    hide Decide, DesiredState, CommunicationBlockers, EvaluatePromises;
    assert ActiveDispute in EvaluateCase(c, date).blockers;
  }

  lemma BlockedKeeps(s: ArmState, draws: Draws, day: int, date: int)
    requires s.Backed() && s.name.ReconMate? && Recommend(s.shadow, date).blockers != {}
    ensures var r := Policy(s, draws, day, date);
            && r.name == s.name && r.shadow == s.shadow
            && r.lastActionDay == s.lastActionDay && r.response == s.response && r.actions == s.actions
  {
    hide Recommend;
  }

  /** Undisputed, a willing case is recommended for outreach if it is mild and for an escalation
      if it is not, and nothing blocks either. */
  lemma WillingRecommendation(s: ArmState, source: RecoveryCase, start: int, date: int)
    requires Admitted(source, start) && Willing(source, start) && WillingArm(s, source, start)
    requires ActedBefore(s, date) && start <= date && 0 < s.Outstanding() && !s.Invoice().status.Disputed?
    ensures var rec := Recommend(s.shadow, date);
            && rec.blockers == {}
            && (if Mild(source, s.Outstanding(), date) then IsOutreach(rec.action) && !rec.approvalRequired
                else rec.action == PrepareEscalation)
  {
    CascadeExactly(s.shadow, date);
    NoActiveBlocker(s.shadow, date);
    hide Decide, ClaimsPayment, RecentCommitmentOrDelay;
  }

  lemma NoActiveBlocker(c: RecoveryCase, date: int)
    requires c.invoice.Some? && c.invoice.value.promises == [] && !c.invoice.value.status.Disputed?
    requires !c.state.Closed? && !c.closed && c.invoice.value.issueDate <= date && 0 < c.invoice.value.outstanding
    requires c.customer.consent.None? && c.customer.channel.None?
    requires forall a :: a in c.actions ==> a.executedOn.Some? && a.executedOn.value < date
    ensures Recommend(c, date).blockers == {}
    ensures Recommend(c, date).action in {SendPaymentReminder, RequestPaymentDate} ==>
              !Recommend(c, date).approvalRequired
  {
    ApprovalExactly(c, date);
    hide Decide, DesiredState;
    assert RecentCount(c.actions, date) == 0;
    assert EvaluatePromises(c.invoice.value.promises, c.invoice.value.payments, date) == [];
  }

  /** With nothing in its way the policy acts exactly when its cadence is open. */
  lemma UnblockedActs(s: ArmState, draws: Draws, day: int, date: int)
    requires s.Backed() && s.name.ReconMate?
    requires var rec := Recommend(s.shadow, date);
             rec.blockers == {} && (rec.action == PrepareEscalation
                                    || (IsOutreach(rec.action) && !rec.approvalRequired))
    ensures var rec := Recommend(s.shadow, date); var r := Policy(s, draws, day, date);
            && r.name == s.name
            && r.shadow.(actions := s.shadow.actions) == s.shadow
            && (forall a :: a in r.shadow.actions ==> a in s.shadow.actions || a.executedOn == Some(date))
            && r.lastActionDay == (if CadenceOpen(s, day) then Some(day) else s.lastActionDay)
            && (if CadenceOpen(s, day) && IsOutreach(rec.action) then
                  && r.response.Some? && r.response.value.until == day + ASSOCIATION_WINDOW_DAYS - 1
                  && 0.025 <= r.response.value.increment <= 0.030
                else r.response == s.response)
  {
    hide Recommend;
  }

  /** Neither a dispute nor the cadence takes the arm off its calendar. */
  lemma PolicyOnCalendar(s: ArmState, source: RecoveryCase, draws: Draws, start: int, day: nat)
    requires Admitted(source, start) && Willing(source, start)
    requires OnCalendar(s, source, start, day) && 0 < s.Outstanding()
    ensures var r := Policy(s, draws, day, start + day);
            && OnCalendar(r, source, start, day + 1)
            && (!s.Invoice().status.Disputed? ==> r.lastActionDay.Some?)
  {
    hide Recommend, Policy, Willing, Mild, RecentCommitmentOrDelay;
    var date := start + day;
    if s.Invoice().status.Disputed? {
      DisputeBlocks(s.shadow, date);
      BlockedKeeps(s, draws, day, date);
    } else {
      WillingRecommendation(s, source, start, date);
      UnblockedActs(s, draws, day, date);
      MildShrinks(source, s.Outstanding(), date);
    }
  }

  lemma MildShrinks(source: RecoveryCase, balance: int, date: int)
    requires source.invoice.Some? && balance <= source.invoice.value.outstanding
    ensures Mild(source, source.invoice.value.outstanding, date) ==> Mild(source, balance, date)
  {
  }

  /** Without promises the only external event is the end of the dispute. */
  lemma ExternalOnCalendar(s: ArmState, source: RecoveryCase, draws: Draws, start: int, day: nat)
    requires OnCalendar(s, source, start, day)
    ensures OnCalendar(ExternalEvents(s, draws, day, start + day), source, start, day)
    ensures ExternalEvents(s, draws, day, start + day).Outstanding() == s.Outstanding()
  {
    hide OutreachAt;
  }

  lemma PaymentOnCalendar(s: ArmState, source: RecoveryCase, draws: Draws, start: int, day: nat)
    requires OnCalendar(s, source, start, day + 1)
    ensures OnCalendar(SimulatedPayment(s, draws, day, start + day), source, start, day + 1)
  {
    hide SimulatedPayment, PaymentAmount, NaturalDailyProbability, Effect, OutreachAt;
    PaymentKeeps(s, draws, day, start + day);
    PaymentShrinks(s, draws, day, start + day);
    SimulatedPaymentCredits(s, draws, day, start + day);
  }

  lemma DayOnCalendar(s: ArmState, source: RecoveryCase, draws: Draws, start: int, day: nat)
    requires Admitted(source, start) && Willing(source, start) && OnCalendar(s, source, start, day)
    ensures OnCalendar(Day(s, draws, start, day), source, start, day + 1)
  {
    hide ExternalEvents, Policy, SimulatedPayment, Willing, Calendar;
    if 0 < s.Outstanding() {
      ExternalOnCalendar(s, source, draws, start, day);
      var seen := ExternalEvents(s, draws, day, start + day);
      PolicyOnCalendar(seen, source, draws, start, day);
      PaymentOnCalendar(Policy(seen, draws, day, start + day), source, draws, start, day);
    }
  }

  lemma StartsOnCalendar(source: RecoveryCase, start: int)
    requires Admitted(source, start) && Willing(source, start)
    ensures OnCalendar(InitialArm(source, ReconMate, start), source, start, 0)
  {
    var inv := source.invoice.value;
    NothingToShadow(inv.promises, inv.payments, inv.outstanding, start);
    hide EvaluatePromise;
  }

  lemma {:induction false} NothingToShadow(promises: seq<Promise>, payments: seq<Payment>, balance: int, today: int)
    requires forall i :: 0 <= i < |promises| ==>
               EvaluatePromise(promises[i], payments, today) in {IsFulfilled, IsCancelled}
    ensures ShadowPromises(promises, payments, balance, today) == []
  {
    if promises != [] {
      assert EvaluatePromise(promises[0], payments, today) in {IsFulfilled, IsCancelled};
      NothingToShadow(promises[1..], payments, balance, today);
    }
  }

  /** On a willing case every run stays on the calendar, whatever the draws. */
  lemma {:induction false} RunOnCalendar(source: RecoveryCase, draws: Draws, start: int, day: nat)
    requires Admitted(source, start) && Willing(source, start)
    ensures OnCalendar(Run(InitialArm(source, ReconMate, start), draws, start, day), source, start, day)
  {
    hide Day, OnCalendar, Willing;
    if day == 0 {
      StartsOnCalendar(source, start);
    } else {
      RunOnCalendar(source, draws, start, day - 1);
      DayOnCalendar(Run(InitialArm(source, ReconMate, start), draws, start, day - 1), source, draws, start, day - 1);
    }
  }

  /** So when a payment can be drawn, the last action is at most six days old. */
  lemma CalendarAtPayment(source: RecoveryCase, draws: Draws, start: int, day: nat)
    requires Admitted(source, start) && Willing(source, start)
    requires var seen := AtPolicy(InitialArm(source, ReconMate, start), draws, start, day);
             0 < seen.Outstanding() && !seen.Invoice().status.Disputed?
    ensures var r := AtPayment(InitialArm(source, ReconMate, start), draws, start, day);
            && OnCalendar(r, source, start, day + 1) && r.lastActionDay.Some?
            && r.Outstanding() == AtPolicy(InitialArm(source, ReconMate, start), draws, start, day).Outstanding()
  {
    hide Run, ExternalEvents, Policy, OnCalendar, Willing;
    RunOnCalendar(source, draws, start, day);
    var s := Run(InitialArm(source, ReconMate, start), draws, start, day);
    ExternalOnCalendar(s, source, draws, start, day);
    var seen := ExternalEvents(s, draws, day, start + day);
    PolicyOnCalendar(seen, source, draws, start, day);
    PolicyKeepsInvoice(seen, draws, day, start + day);
  }

  // ---------------------------------------------------------------- all other cases

  /** A reason against outreach that no event of the experiment removes: the case is closed, a
      payment is claimed, or a promise was copied. Such an arm never opens a window. */
  ghost predicate Mute(s: ArmState) {
    && s.Backed() && s.name.ReconMate? && Uncancelled(s) && s.response.None?
    && s.Invoice().payments == []
    && (s.shadow.state.Closed? || ClaimsPayment(s.shadow.signals)
        || exists i :: 0 <= i < |s.Invoice().promises| && 0 < s.Invoice().promises[i].amount)
  }

  lemma MuteNeverReachesOut(s: ArmState, date: int)
    requires Mute(s)
    ensures !IsOutreach(Recommend(s.shadow, date).action)
  {
    OutreachExactly(s.shadow, date);
    hide Recommend, ClaimsPayment;
    var inv := s.Invoice();
    assert forall i :: 0 <= i < |inv.promises| && 0 < inv.promises[i].amount ==>
        inv.promises[i] in inv.promises
        && EvaluatePromise(inv.promises[i], inv.payments, date) !in {IsFulfilled, IsCancelled};
  }

  lemma PolicyMute(s: ArmState, draws: Draws, day: int, date: int)
    requires Mute(s)
    ensures Mute(Policy(s, draws, day, date))
  {
    MuteNeverReachesOut(s, date);
    PolicyKeepsCase(s, draws, day, date);
    SilentPolicy(s, draws, day, date);
    hide Policy, ClaimsPayment, Recommend;
  }

  lemma SilentPolicy(s: ArmState, draws: Draws, day: int, date: int)
    requires s.Backed() && s.name.ReconMate? && !IsOutreach(Recommend(s.shadow, date).action)
    ensures Policy(s, draws, day, date).response == s.response
  {
    hide Recommend;
  }

  lemma DayMute(s: ArmState, draws: Draws, start: int, day: int)
    requires Mute(s)
    ensures Mute(Day(s, draws, start, day))
    ensures Mute(ExternalEvents(s, draws, day, start + day))
  {
    hide ExternalEvents, Policy, SimulatedPayment, ClaimsPayment;
    ExternalKeeps(s, draws, day, start + day);
    var seen := ExternalEvents(s, draws, day, start + day);
    KeepsMute(s, seen);
    PolicyMute(seen, draws, day, start + day);
    var acted := Policy(seen, draws, day, start + day);
    PaymentKeeps(acted, draws, day, start + day);
    KeepsMute(acted, SimulatedPayment(acted, draws, day, start + day));
  }

  lemma KeepsMute(s: ArmState, r: ArmState)
    requires Mute(s) && KeepsPolicyState(s, r)
    ensures Mute(r)
  {
    hide ClaimsPayment;
    if i :| 0 <= i < |s.Invoice().promises| && 0 < s.Invoice().promises[i].amount {
      assert 0 < r.Invoice().promises[i].amount;
    }
  }

  lemma {:induction false} ShadowKeepsOpen(promises: seq<Promise>, payments: seq<Payment>, balance: int, today: int,
                                           i: nat)
    requires i < |promises| && 0 < balance && 0 < promises[i].amount
    requires EvaluatePromise(promises[i], payments, today) !in {IsFulfilled, IsCancelled}
    ensures exists k :: 0 <= k < |ShadowPromises(promises, payments, balance, today)|
              && 0 < ShadowPromises(promises, payments, balance, today)[k].amount
  {
    hide EvaluatePromise;
    var all := ShadowPromises(promises, payments, balance, today);
    var rest := ShadowPromises(promises[1..], payments, balance, today);
    if i == 0 {
      assert 0 < all[0].amount;
    } else {
      ShadowKeepsOpen(promises[1..], payments, balance, today, i - 1);
      var k :| 0 <= k < |rest| && 0 < rest[k].amount;
      if all == rest {
        assert 0 < all[k].amount;
      } else {
        assert all[k + 1] == rest[k];
      }
    }
  }

  lemma StartsMute(source: RecoveryCase, start: int)
    requires Admitted(source, start) && PositivePromises(source) && !Willing(source, start)
    ensures Mute(InitialArm(source, ReconMate, start))
  {
    hide EvaluatePromise, ClaimsPayment;
    var inv := source.invoice.value;
    var init := InitialArm(source, ReconMate, start);
    InitialUncancelled(source, ReconMate, start);
    assert init.Invoice().promises == ShadowPromises(inv.promises, inv.payments, inv.outstanding, start);
    if !source.state.Closed? && !ClaimsPayment(source.signals) {
      var i :| 0 <= i < |inv.promises|
          && EvaluatePromise(inv.promises[i], inv.payments, start) !in {IsFulfilled, IsCancelled};
      ShadowKeepsOpen(inv.promises, inv.payments, inv.outstanding, start, i);
    }
  }

  /** On an unwilling case ReconMate never has any effect, whatever the draws. */
  lemma {:induction false} UnwillingNeverResponds(source: RecoveryCase, draws: Draws, start: int, day: nat)
    requires Admitted(source, start) && PositivePromises(source) && !Willing(source, start)
    ensures Mute(Run(InitialArm(source, ReconMate, start), draws, start, day))
    ensures Mute(AtPayment(InitialArm(source, ReconMate, start), draws, start, day))
  {
    hide Day, Mute, ExternalEvents, Policy;
    var init := InitialArm(source, ReconMate, start);
    if day == 0 {
      StartsMute(source, start);
    } else {
      UnwillingNeverResponds(source, draws, start, day - 1);
      DayMute(Run(init, draws, start, day - 1), draws, start, day - 1);
    }
    DayMute(Run(init, draws, start, day), draws, start, day);
    PolicyMute(AtPolicy(init, draws, start, day), draws, day, start + day);
  }
}
