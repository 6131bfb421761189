/** The ReconMate arm day by day: on which days it acts, what each action is, and which actions
    are completed. */
module ArmContacts {
  import opened Domain
  import opened Engine
  import opened Recommendations
  import opened Experiment
  import opened ArmSteps
  import opened ArmSafety
  import opened Sums

  /** What ReconMate's policy was shown on a day. */
  ghost function Shown(init: ArmState, draws: Draws, start: int, day: nat): Recommendation
    requires init.Backed()
  {
    Recommend(AtPolicy(init, draws, start, day).shadow, start + day)
  }

  ghost predicate OpenOn(init: ArmState, draws: Draws, start: int, day: nat)
    requires init.Backed()
  {
    0 < AtPolicy(init, draws, start, day).Outstanding()
  }

  /** A row is the action recommended on its day. It is completed if and only if that needed no
      approval or the approval draw of the day fell below eight tenths; and only a completed
      reminder or request for a date carries a response increment. */
  ghost predicate Explains(row: ActionRow, rec: Recommendation, draw: real) {
    && row.action == Recommended(rec.action)
    && (row.completed <==> !rec.approvalRequired || draw < 0.80)
    && row.increment == if !row.completed then 0.0
                        else if rec.action == SendPaymentReminder then 0.025
                        else if rec.action == RequestPaymentDate then 0.030
                        else 0.0
  }

  ghost predicate RowExplained(init: ArmState, draws: Draws, start: int, row: ActionRow, days: int)
    requires init.Backed()
  {
    0 <= row.day < days && Explains(row, Shown(init, draws, start, row.day), draws(row.day, MaterialApproval))
  }

  /** Outreach and escalations are acted upon, when nothing blocks them. */
  predicate Actionable(rec: Recommendation) {
    rec.blockers == {} && rec.action in {SendPaymentReminder, RequestPaymentDate, EscalateToHuman, PrepareEscalation}
  }

  predicate ActedOn(actions: seq<ActionRow>, day: int) {
    exists i :: 0 <= i < |actions| && actions[i].day == day
  }

  predicate RestedBefore(actions: seq<ActionRow>, day: int) {
    forall i :: 0 <= i < |actions| && actions[i].day < day ==> 7 <= day - actions[i].day
  }

  /** There is an action on a day exactly when money is owed, the recommendation is actionable,
      and no earlier action is less than a week old. */
  ghost predicate DayDecided(init: ArmState, draws: Draws, start: int, actions: seq<ActionRow>, day: nat)
    requires init.Backed()
  {
    ActedOn(actions, day) <==>
      OpenOn(init, draws, start, day) && Actionable(Shown(init, draws, start, day)) && RestedBefore(actions, day)
  }

  /** A recommendation that puts the case off. */
  predicate Defers(rec: Recommendation) {
    rec.blockers != {} || rec.action in {HoldForDispute, MonitorActivePromise}
  }

  ghost predicate DefersOn(init: ArmState, draws: Draws, start: int, day: nat)
    requires init.Backed()
  {
    OpenOn(init, draws, start, day) && Defers(Shown(init, draws, start, day))
  }

  ghost predicate ShownOn(init: ArmState, draws: Draws, start: int, day: nat, a: Action)
    requires init.Backed()
  {
    OpenOn(init, draws, start, day) && Shown(init, draws, start, day).action == a
  }

  ghost predicate Recorded(r: ArmState, init: ArmState, draws: Draws, start: int, days: nat)
    requires init.Backed()
  {
    && (forall i :: 0 <= i < |r.actions| ==> RowExplained(init, draws, start, r.actions[i], days))
    && (forall day: nat :: day < days ==> DayDecided(init, draws, start, r.actions, day))
    && r.completed == CountOf(r.actions, (a: ActionRow) => a.completed)
    && (r.deferred <==> exists day: nat :: day < days && DefersOn(init, draws, start, day))
    && (forall a :: a in r.decisions <==> exists day: nat :: day < days && ShownOn(init, draws, start, day, a))
    && (forall k :: 0 < k < |r.decisions| ==> r.decisions[k - 1] != r.decisions[k])
  }

  // ---------------------------------------------------------------- one day

  /** What the policy does on a day, told by the recommendation. */
  lemma PolicyRecords(s: ArmState, draws: Draws, day: nat, date: int)
    requires s.Backed() && s.name.ReconMate?
    ensures var rec := Recommend(s.shadow, date); var r := Policy(s, draws, day, date);
            && (if Actionable(rec) && CadenceOpen(s, day) then
                  && |r.actions| == |s.actions| + 1 && r.actions[..|s.actions|] == s.actions
                  && r.actions[|s.actions|].day == day
                  && Explains(r.actions[|s.actions|], rec, draws(day, MaterialApproval))
                  && r.completed == s.completed + (if r.actions[|s.actions|].completed then 1 else 0)
                else r.actions == s.actions && r.completed == s.completed)
            && (r.deferred <==> s.deferred || Defers(rec))
            && r.decisions == (if s.decisions != [] && s.decisions[|s.decisions| - 1] == rec.action then s.decisions
                               else s.decisions + [rec.action])
  {
    hide Recommend;
  }

  ghost predicate Increasing(actions: seq<ActionRow>) {
    forall i, j :: 0 <= i < j < |actions| ==> actions[i].day < actions[j].day
  }

  lemma {:induction false} SpacedIsIncreasing(s: ArmState, j: nat)
    requires Spaced(s) && j < |s.actions|
    ensures forall i :: 0 <= i < j ==> s.actions[i].day < s.actions[j].day
  {
    if 0 < j {
      SpacedIsIncreasing(s, j - 1);
    }
  }

  /** An open cadence is a week without action. */
  lemma CadenceIsRest(s: ArmState, day: nat)
    requires Accountable(s, day) && Spaced(s)
    ensures CadenceOpen(s, day) <==> RestedBefore(s.actions, day)
  {
    if s.actions != [] {
      SpacedIsIncreasing(s, |s.actions| - 1);
    }
  }

  /** The rows of earlier days are not touched by one more. */
  lemma EarlierDaysStand(init: ArmState, draws: Draws, start: int, before: seq<ActionRow>, after: seq<ActionRow>,
                         day: nat)
    requires init.Backed()
    requires |after| == |before| + 1 && after[..|before|] == before && after[|before|].day == day
    ensures forall d: nat :: d < day ==>
              (DayDecided(init, draws, start, after, d) <==> DayDecided(init, draws, start, before, d))
  {
    hide Shown, OpenOn, Actionable;
    assert forall i :: 0 <= i < |before| ==> after[i] == after[..|before|][i];
    forall d: nat | d < day
      ensures ActedOn(after, d) <==> ActedOn(before, d)
      ensures RestedBefore(after, d) <==> RestedBefore(before, d)
    {
      if i :| 0 <= i < |before| && before[i].day == d {
        assert after[i].day == d;
      }
    }
  }

  lemma RowsGrow(s: ArmState, seen: ArmState, r: ArmState, init: ArmState, draws: Draws, start: int, day: nat)
    requires init.Backed() && s.Backed() && Recorded(s, init, draws, start, day) && Accountable(s, day) && Spaced(s)
    requires seen == AtPolicy(init, draws, start, day) && 0 < seen.Outstanding()
    requires seen.lastActionDay == s.lastActionDay
    requires var rec := Shown(init, draws, start, day);
             if Actionable(rec) && CadenceOpen(seen, day) then
               && |r.actions| == |s.actions| + 1 && r.actions[..|s.actions|] == s.actions
               && r.actions[|s.actions|].day == day
               && Explains(r.actions[|s.actions|], rec, draws(day, MaterialApproval))
               && r.completed == s.completed + (if r.actions[|s.actions|].completed then 1 else 0)
             else r.actions == s.actions && r.completed == s.completed
    ensures forall i :: 0 <= i < |r.actions| ==> RowExplained(init, draws, start, r.actions[i], day + 1)
    ensures forall d: nat :: d <= day ==> DayDecided(init, draws, start, r.actions, d)
    ensures r.completed == CountOf(r.actions, (a: ActionRow) => a.completed)
  {
    hide Shown, AtPolicy, Explains, Actionable;
    CadenceIsRest(s, day);
    if r.actions != s.actions {
      EarlierDaysStand(init, draws, start, s.actions, r.actions, day);
      assert forall i :: 0 <= i < |s.actions| ==> r.actions[i] == r.actions[..|s.actions|][i];
      CountSnoc(r.actions, |s.actions|, (a: ActionRow) => a.completed);
      assert r.actions[..|s.actions| + 1] == r.actions;
      assert ActedOn(r.actions, day);
    }
  }

  lemma NotesGrow(s: ArmState, r: ArmState, init: ArmState, draws: Draws, start: int, day: nat)
    requires init.Backed() && Recorded(s, init, draws, start, day)
    requires OpenOn(init, draws, start, day)
    requires var rec := Shown(init, draws, start, day);
             && (r.deferred <==> s.deferred || Defers(rec))
             && r.decisions == (if s.decisions != [] && s.decisions[|s.decisions| - 1] == rec.action then s.decisions
                                else s.decisions + [rec.action])
    ensures r.deferred <==> exists d: nat :: d < day + 1 && DefersOn(init, draws, start, d)
    ensures forall a :: a in r.decisions <==> exists d: nat :: d < day + 1 && ShownOn(init, draws, start, d, a)
    ensures forall k :: 0 < k < |r.decisions| ==> r.decisions[k - 1] != r.decisions[k]
  {
    hide Shown, OpenOn, Defers, RowExplained, DayDecided;
    var action := Shown(init, draws, start, day).action;
    assert ShownOn(init, draws, start, day, action);
    assert Defers(Shown(init, draws, start, day)) <==> DefersOn(init, draws, start, day);
    assert forall a :: ShownOn(init, draws, start, day, a) ==> a == action;
    assert action in r.decisions;
  }

  /** A day on which nothing is owed leaves no record. */
  lemma ClosedDayStands(s: ArmState, r: ArmState, init: ArmState, draws: Draws, start: int, day: nat)
    requires init.Backed() && Recorded(s, init, draws, start, day) && Accountable(s, day)
    requires !OpenOn(init, draws, start, day)
    requires r.actions == s.actions && r.completed == s.completed
    requires r.deferred == s.deferred && r.decisions == s.decisions
    ensures Recorded(r, init, draws, start, day + 1)
  {
    hide Shown, OpenOn;
    assert !ActedOn(r.actions, day);
  }

  lemma OpenDay(init: ArmState, draws: Draws, start: int, day: nat)
    requires init.Backed()
    requires var s := Run(init, draws, start, day);
             s.name.ReconMate? && Uncancelled(s) && Accountable(s, day) && Spaced(s)
                 && Recorded(s, init, draws, start, day)
    requires OpenOn(init, draws, start, day)
    ensures Recorded(Run(init, draws, start, day + 1), init, draws, start, day + 1)
  {
    hide ExternalEvents, Policy, SimulatedPayment, Recommend, Recorded, Accountable, Actionable, Defers, Explains,
        RowExplained;
    var s, seen := Run(init, draws, start, day), AtPolicy(init, draws, start, day);
    ExternalKeeps(s, draws, day, start + day);
    if s.Outstanding() <= 0 {
      ExternalClosed(s, draws, day, start + day);
    }
    var acted := Policy(seen, draws, day, start + day);
    PolicyRecords(seen, draws, day, start + day);
    PolicyKeepsShape(seen, draws, day, start + day);
    PaymentKeeps(acted, draws, day, start + day);
    var r := Run(init, draws, start, day + 1);
    assert r == SimulatedPayment(acted, draws, day, start + day);
    RowsGrow(s, seen, r, init, draws, start, day);
    NotesGrow(s, r, init, draws, start, day);
    RecordedIs(r, init, draws, start, day + 1);
  }

  lemma RecordedIs(r: ArmState, init: ArmState, draws: Draws, start: int, days: nat)
    requires init.Backed()
    requires forall i :: 0 <= i < |r.actions| ==> RowExplained(init, draws, start, r.actions[i], days)
    requires forall day: nat :: day < days ==> DayDecided(init, draws, start, r.actions, day)
    requires r.completed == CountOf(r.actions, (a: ActionRow) => a.completed)
    requires r.deferred <==> exists day: nat :: day < days && DefersOn(init, draws, start, day)
    requires forall a :: a in r.decisions <==> exists day: nat :: day < days && ShownOn(init, draws, start, day, a)
    requires forall k :: 0 < k < |r.decisions| ==> r.decisions[k - 1] != r.decisions[k]
    ensures Recorded(r, init, draws, start, days)
  {
    hide RowExplained, DayDecided, DefersOn, ShownOn;
  }

  /** A day on which nothing is owed when the policy would look. */
  lemma ClosedDay(init: ArmState, draws: Draws, start: int, day: nat)
    requires init.Backed()
    requires var s := Run(init, draws, start, day);
             Uncancelled(s) && Accountable(s, day) && Recorded(s, init, draws, start, day)
    requires !OpenOn(init, draws, start, day)
    ensures Recorded(Run(init, draws, start, day + 1), init, draws, start, day + 1)
  {
    hide ExternalEvents, Policy, SimulatedPayment, Recorded, Accountable;
    var s := Run(init, draws, start, day);
    ExternalKeeps(s, draws, day, start + day);
    ClosedDayStands(s, Run(init, draws, start, day + 1), init, draws, start, day);
  }

  /** Every record of a ReconMate run is explained by what its policy was shown. Each action is
      the one recommended on its day, and it is completed if and only if that needed no approval
      or the approval draw fell below eight tenths; there is an action on exactly those days on
      which money is owed, an actionable recommendation is shown and a week has passed; the arm
      is deferred if and only if some day put it off; and its decisions are those it was shown. */
  lemma {:induction false} ReconMateRecordsExactly(source: RecoveryCase, draws: Draws, start: int, days: nat)
    requires source.invoice.Some?
    ensures var init := InitialArm(source, ReconMate, start);
            Recorded(Run(init, draws, start, days), init, draws, start, days)
  {
    hide Day, Recorded, Accountable, Spaced, OpenOn;
    var init := InitialArm(source, ReconMate, start);
    if days == 0 {
      NothingRecorded(init, draws, start);
    } else {
      ReconMateRecordsExactly(source, draws, start, days - 1);
      RunShaped(source, ReconMate, draws, start, days - 1);
      AttributionIsAccountable(source, ReconMate, draws, start, days - 1);
      ReconMateContactIsSafe(source, draws, start, days - 1);
      if OpenOn(init, draws, start, days - 1) {
        OpenDay(init, draws, start, days - 1);
      } else {
        ClosedDay(init, draws, start, days - 1);
      }
    }
  }

  lemma NothingRecorded(init: ArmState, draws: Draws, start: int)
    requires init.Backed() && init.actions == [] && init.decisions == [] && init.completed == 0 && !init.deferred
    ensures Recorded(init, init, draws, start, 0)
  {
  }

  /** So material work is never completed without approval: an escalation whose approval draw
      failed is an attempt and no more. */
  lemma EscalationNeedsApproval(source: RecoveryCase, draws: Draws, start: int, days: nat, i: nat)
    requires source.invoice.Some?
    requires var r := Run(InitialArm(source, ReconMate, start), draws, start, days);
             && i < |r.actions| && r.actions[i].action in {Recommended(PrepareEscalation), Recommended(EscalateToHuman)}
    ensures var row := Run(InitialArm(source, ReconMate, start), draws, start, days).actions[i];
            row.completed <==> draws(row.day, MaterialApproval) < 0.80
  {
    hide Run, AtPolicy, Recommend;
    var init := InitialArm(source, ReconMate, start);
    var row := Run(init, draws, start, days).actions[i];
    ReconMateRecordsExactly(source, draws, start, days);
    assert RowExplained(init, draws, start, row, days);
    ApprovalExactly(AtPolicy(init, draws, start, row.day).shadow, start + row.day);
  }

  lemma ExternalClosed(s: ArmState, draws: Draws, day: int, date: int)
    requires s.Backed() && s.Outstanding() <= 0
    ensures ExternalEvents(s, draws, day, date) == s
  {
  }

  // ---------------------------------------------------------------- what the case remembers

  /** The facts the shadow case keeps of the actions taken: a follow-up executed on its date for
      each completed one. */
  function FactsOf(actions: seq<ActionRow>, start: int): seq<ActionFact> {
    if actions == [] then []
    else
      var last := actions[|actions| - 1];
      FactsOf(actions[..|actions| - 1], start)
      + (if last.completed then [ActionFact(FollowUp, Executed, Some(start + last.day))] else [])
  }

  lemma PolicyRemembers(s: ArmState, draws: Draws, start: int, day: int)
    requires s.Backed() && s.shadow.actions == FactsOf(s.actions, start)
    ensures var r := Policy(s, draws, day, start + day); r.shadow.actions == FactsOf(r.actions, start)
  {
    hide Recommend, EvaluateCase, FactsOf, RecordAction, ResponseIncrement;
    var date := start + day;
    if s.name.Baseline? {
      var e := EvaluateCase(s.shadow, date);
      var counted := s.(
        disputeViolations := s.disputeViolations + (if e.disputed then 1 else 0),
        promiseViolations := s.promiseViolations + (if IsActive in e.promises then 1 else 0));
      RecordRemembers(counted, start, day, StandardScheduledReminder, true, BASELINE_RESPONSE_INCREMENT);
    } else {
      var rec := Recommend(s.shadow, date);
      var noted := NoteDecision(s, rec.action);
      var approved := !rec.approvalRequired || draws(day, MaterialApproval) < MATERIAL_APPROVAL_PROBABILITY;
      RecordRemembers(noted, start, day, Recommended(rec.action), approved, ResponseIncrement(rec.action));
    }
  }

  lemma RecordRemembers(s: ArmState, start: int, day: int, action: ArmAction, done: bool, effect: real)
    requires s.Backed() && s.shadow.actions == FactsOf(s.actions, start)
    ensures var r := RecordAction(s, day, start + day, action, done, effect);
            r.shadow.actions == FactsOf(r.actions, start)
  {
    var r := RecordAction(s, day, start + day, action, done, effect);
    assert r.actions[..|r.actions| - 1] == s.actions;
  }

  lemma DayRemembers(s: ArmState, draws: Draws, start: int, day: int)
    requires s.Backed() && Uncancelled(s) && s.shadow.actions == FactsOf(s.actions, start)
    ensures var r := Day(s, draws, start, day); r.shadow.actions == FactsOf(r.actions, start)
  {
    hide ExternalEvents, Policy, SimulatedPayment;
    ExternalKeeps(s, draws, day, start + day);
    var seen := ExternalEvents(s, draws, day, start + day);
    PolicyRemembers(seen, draws, start, day);
    PolicyKeepsShape(seen, draws, day, start + day);
    PaymentKeeps(Policy(seen, draws, day, start + day), draws, day, start + day);
  }

  /** After every day the case of either arm remembers exactly the completed actions, each under
      its own date; an attempt that was not approved leaves nothing. */
  lemma {:induction false} CompletedActionsAreRemembered(source: RecoveryCase, name: ArmName, draws: Draws, start: int,
                                                         days: nat)
    requires source.invoice.Some?
    ensures var r := Run(InitialArm(source, name, start), draws, start, days);
            r.shadow.actions == FactsOf(r.actions, start)
  {
    hide Day;
    if days > 0 {
      CompletedActionsAreRemembered(source, name, draws, start, days - 1);
      RunShaped(source, name, draws, start, days - 1);
      DayRemembers(Run(InitialArm(source, name, start), draws, start, days - 1), draws, start, days - 1);
    }
  }
}
