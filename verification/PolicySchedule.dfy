/** The calendars of the two policies: when each of them has a response window open. The
    baseline follows the date alone; ReconMate follows what its recommendation was on each of
    its contact days. */
module PolicySchedule {
  import opened Domain
  import opened Engine
  import opened Recommendations
  import opened Experiment
  import opened ArmSteps

  // ---------------------------------------------------------------- what the case allows

  /** A case as the experiment admits it: issued, past due and not paid. */
  ghost predicate Admitted(source: RecoveryCase, start: int) {
    && source.invoice.Some?
    && source.invoice.value.issueDate <= start
    && source.invoice.value.dueDate < start
    && 0 < source.invoice.value.outstanding
  }

  ghost predicate PositivePromises(source: RecoveryCase)
    requires source.invoice.Some?
  {
    forall i :: 0 <= i < |source.invoice.value.promises| ==> 0 < source.invoice.value.promises[i].amount
  }

  /** Nothing but a dispute, the balance or the delay can keep ReconMate from outreach. */
  ghost predicate Willing(source: RecoveryCase, start: int)
    requires source.invoice.Some?
  {
    && !source.state.Closed?
    && !ClaimsPayment(source.signals)
    && forall i :: 0 <= i < |source.invoice.value.promises| ==>
         EvaluatePromise(source.invoice.value.promises[i], source.invoice.value.payments,
                         start) in {IsFulfilled, IsCancelled}
  }

  /** A recent commitment or delay signal, or else a case that is not severe. */
  predicate Mild(source: RecoveryCase, balance: int, date: int)
    requires source.invoice.Some?
  {
    || RecentCommitmentOrDelay(source.signals, date)
    || (source.priority != CriticalPriority && balance < SEVERE_EXPOSURE
        && date - source.invoice.value.dueDate < SEVERE_OVERDUE_DAYS)
  }

  /** Whether ReconMate would answer with outreach on a date, judged by the case at the start. */
  ghost predicate OutreachAt(source: RecoveryCase, start: int, date: int)
    requires source.invoice.Some?
  {
    Willing(source, start) && Mild(source, source.invoice.value.outstanding, date)
  }

  /** Time only takes outreach away: signals age and delays grow. */
  lemma OutreachFades(source: RecoveryCase, start: int, date: int, later: int)
    requires source.invoice.Some? && date <= later && OutreachAt(source, start, later)
    ensures OutreachAt(source, start, date)
  {
    if RecentCommitmentOrDelay(source.signals, later) {
      var i :| 0 <= i < |source.signals| && later - source.signals[i].day <= RECENT_SIGNAL_DAYS
        && (source.signals[i].commitment || source.signals[i].delay);
      assert date - source.signals[i].day <= RECENT_SIGNAL_DAYS;
    }
  }

  // ---------------------------------------------------------------- both arms

  /** A response window always carries a small positive increment. */
  ghost predicate Measured(s: ArmState) {
    s.response.Some? ==> 0.0 < s.response.value.increment <= 0.030
  }

  lemma PolicyMeasured(s: ArmState, draws: Draws, day: int, date: int)
    requires s.Backed() && Measured(s)
    ensures Measured(Policy(s, draws, day, date))
  {
    hide Recommend, EvaluateCase;
  }

  /** A policy either leaves the last action day as it is or sets it to today. */
  lemma PolicyMovesLastDay(s: ArmState, draws: Draws, day: int, date: int)
    requires s.Backed()
    ensures var r := Policy(s, draws, day, date); r.lastActionDay == s.lastActionDay || r.lastActionDay == Some(day)
  {
    hide Recommend, EvaluateCase;
  }

  lemma PolicyKeepsCase(s: ArmState, draws: Draws, day: int, date: int)
    requires s.Backed()
    ensures var r := Policy(s, draws, day, date);
            r.name == s.name && r.shadow.(actions := s.shadow.actions) == s.shadow
  {
    hide Recommend, EvaluateCase;
  }

  lemma InitialUncancelled(source: RecoveryCase, name: ArmName, today: int)
    requires source.invoice.Some?
    ensures Uncancelled(InitialArm(source, name, today))
  {
    var inv := source.invoice.value;
    assert InitialArm(source, name, today).Invoice().promises
        == ShadowPromises(inv.promises, inv.payments, inv.outstanding, today);
  }

  // ---------------------------------------------------------------- the baseline calendar

  /** The last day of the window opened by the last reminder due before day `x`. */
  function WindowEnd(x: nat): int
    requires 0 < x
  {
    BASELINE_CADENCE_DAYS * ((x - 1) / BASELINE_CADENCE_DAYS) + ASSOCIATION_WINDOW_DAYS - 1
  }

  /** The baseline's window on the morning of day `x`: open arms have the one of the calendar,
      closed arms at most that one. */
  ghost predicate BaselineOn(s: ArmState, x: nat) {
    && s.Backed() && s.name.Baseline? && Uncancelled(s) && 0 <= s.Outstanding()
    && (s.response.Some? ==>
          0 < x && s.response.value.increment == BASELINE_RESPONSE_INCREMENT && s.response.value.until <= WindowEnd(x))
    && (0 < x && 0 < s.Outstanding() ==> s.response.Some? && s.response.value.until == WindowEnd(x))
  }

  /** On days when a window of the baseline is open. */
  predicate InWindow(day: nat) { day % 14 < 7 }

  lemma BaselineActsOn(s: ArmState, draws: Draws, day: nat, date: int)
    requires BaselineOn(s, day)
    ensures var r := Policy(s, draws, day, date);
            && BaselineOn(r, day + 1)
            && 0.0 <= Effect(r, day) <= (if InWindow(day) then BASELINE_RESPONSE_INCREMENT else 0.0)
            && (0 < s.Outstanding() && InWindow(day) ==> Effect(r, day) == BASELINE_RESPONSE_INCREMENT)
  {
    hide EvaluateCase;
    PolicyKeepsInvoice(s, draws, day, date);
    assert Policy(s, draws, day, date).Invoice() == s.Invoice();
    if day % BASELINE_CADENCE_DAYS != 0 {
      assert (day - 1) / BASELINE_CADENCE_DAYS == day / BASELINE_CADENCE_DAYS;
    }
  }

  lemma BaselineDayOn(s: ArmState, draws: Draws, start: int, day: nat)
    requires BaselineOn(s, day)
    ensures BaselineOn(Day(s, draws, start, day), day + 1)
  {
    hide ExternalEvents, Policy, SimulatedPayment, Effect;
    WindowsGrow(day);
    if 0 < s.Outstanding() {
      ExternalKeeps(s, draws, day, start + day);
      ExternalShrinks(s, draws, day, start + day);
      var seen := ExternalEvents(s, draws, day, start + day);
      BaselineActsOn(seen, draws, day, start + day);
      var acted := Policy(seen, draws, day, start + day);
      PaymentKeeps(acted, draws, day, start + day);
      PaymentShrinks(acted, draws, day, start + day);
    }
  }

  lemma WindowsGrow(day: nat)
    ensures 0 < day ==> WindowEnd(day) <= WindowEnd(day + 1)
  {
  }

  lemma {:induction false} BaselineRunOn(source: RecoveryCase, draws: Draws, start: int, day: nat)
    requires source.invoice.Some? && 0 <= source.invoice.value.outstanding
    ensures BaselineOn(Run(InitialArm(source, Baseline, start), draws, start, day), day)
  {
    hide Day;
    if day == 0 {
      InitialUncancelled(source, Baseline, start);
    } else {
      BaselineRunOn(source, draws, start, day - 1);
      BaselineDayOn(Run(InitialArm(source, Baseline, start), draws, start, day - 1), draws, start, day - 1);
    }
  }

  /** The baseline responds in the first week of every fortnight, and in no other. */
  lemma BaselineEffect(source: RecoveryCase, draws: Draws, start: int, day: nat)
    requires source.invoice.Some? && 0 <= source.invoice.value.outstanding
    ensures var init := InitialArm(source, Baseline, start);
            var effect := Effect(AtPayment(init, draws, start, day), day);
            && 0.0 <= effect <= (if InWindow(day) then 0.020 else 0.0)
            && (0 < AtPolicy(init, draws, start, day).Outstanding() && InWindow(day) ==>
                  effect == 0.020)
  {
    hide Run, ExternalEvents, Policy, Effect, BaselineOn;
    BaselineRunOn(source, draws, start, day);
    var s := Run(InitialArm(source, Baseline, start), draws, start, day);
    BaselineSees(s, draws, day, start + day);
    BaselineActsOn(ExternalEvents(s, draws, day, start + day), draws, day, start + day);
  }

  lemma BaselineSees(s: ArmState, draws: Draws, day: nat, date: int)
    requires BaselineOn(s, day)
    ensures BaselineOn(ExternalEvents(s, draws, day, date), day)
  {
    hide ExternalEvents;
    ExternalKeeps(s, draws, day, date);
    ExternalShrinks(s, draws, day, date);
  }
}
