/** Two questions about one confirmation: does it matter whether the registry still holds the
    plan, and does it matter whether the process was lost on the way. */
module ConfirmationRecovery {
  import opened Domain
  import opened Recommendations
  import opened Workflow
  import opened PlanRegistry
  import opened Confirmation
  import opened ConfirmationProperties

  // ---------------------------------------------------------------- the registry as a cache

  /** The one situation in which memory and log disagree: an unconfirmed, unexpired plan is
      still in the registry, but the log has seen a portfolio reset dated after it. Only the
      path through the log looks at resets. */
  predicate MissesReset(s: Server, id: nat, now: int) {
    && id !in s.durable.results
    && match FindPlan(s.memory.plans, id)
       case None => false
       case Some(plan) => !Expired(plan, now) && PredatesReset(s.durable, plan)
  }

  /** The registry is only a cache, with exactly one exception: a confirmation gives the same
      answer with and without what memory holds if and only if it does not miss a reset, and
      then it leaves the same log. */
  lemma RegistryIsACacheExactly(s: Server, id: nat, request: ConfirmRequest, facts: Facts, now: int)
    requires Good(s)
    ensures var (warm, answer) := Confirm(s, id, request, facts, now, None);
            var (cold, bare) := Confirm(s.(memory := NO_MEMORY), id, request, facts, now, None);
            && (answer == bare <==> !MissesReset(s, id, now))
            && (answer == bare ==> warm.durable == cold.durable)
  {
    hide Work, FinalResult, StepCount, Lifecycle, AllAuthorised, SaveResult, TouchResult;
    if Previous(s, id).None? {
      var found := FindPlan(s.memory.plans, id);
      if found.Some? {
        assert s.durable.plans[id] == found.value;
      }
    }
  }

  /** A plan prepared at 100 while the log already holds a reset dated 500. */
  function DatedPlan(): Plan { Plan(7, 100, Some(1900), true, [Proposal(1, 3, Some(SendPaymentReminder), true)]) }

  function DatedStart(): Server { Server(Durable(map[], map[], map[], Some(500), Desk([], [])), NO_MEMORY, 500) }

  function DatedServer(): Server { Prepare(DatedStart(), DatedPlan(), 100) }

  lemma DatedServerHolds()
    ensures var s := DatedServer();
            && s.memory == Memory([DatedPlan()], []) && s.durable
                == DatedStart().durable.(plans := map[7 := DatedPlan()])
            && s.max == 500
  {
    assert DropPlan(Unexpired([], 100), 7) == [];
  }

  lemma WarmConfirms(request: ConfirmRequest, facts: Facts)
    ensures Confirm(DatedServer(), 7, request, facts, 101, None).1.Returned?
  {
    hide Prepare, Work, FinalResult, StepCount, SaveResult;
    DatedServerHolds();
    assert FindPlan([DatedPlan()], 7) == Some(DatedPlan());
  }

  lemma ColdExpires(request: ConfirmRequest, facts: Facts)
    ensures Confirm(DatedServer().(memory := NO_MEMORY), 7, request, facts, 101, None).1.PlanExpired?
  {
    hide Prepare, Work, FinalResult, StepCount, SaveResult;
    DatedServerHolds();
  }

  /** The exception is reachable: a plan prepared before the date of the recorded reset is
      confirmed while the process lives, and expires the moment the process is restarted,
      whatever is requested and whatever the facts are. */
  lemma RestartCanExpireAPlan(request: ConfirmRequest, facts: Facts)
    ensures Good(DatedStart()) && FreshPlan(DatedStart().durable, DatedPlan())
    ensures Confirm(DatedServer(), 7, request, facts, 101, None).1.Returned?
    ensures Confirm(DatedServer().(memory := NO_MEMORY), 7, request, facts, 101, None).1.PlanExpired?
  {
    hide Good, Confirm;
    EmptyServerIsGood(500, Some(500));
    WarmConfirms(request, facts);
    ColdExpires(request, facts);
  }

  // ---------------------------------------------------------------- proposing again

  /** What is proposed depends on the action rows only, not on the audit trail. */
  lemma ProposeIgnoresAudits(a: Desk, b: Desk, plan: nat, p: Proposal, facts: Facts)
    requires a.actions == b.actions
    ensures Propose(a, plan, p, facts).0.actions == Propose(b, plan, p, facts).0.actions
    ensures Propose(a, plan, p, facts).1 == Propose(b, plan, p, facts).1
  {
    hide FactsForbid, HasWork;
  }

  lemma {:induction false} FindActionPrefix(a: seq<ActionRow>, b: seq<ActionRow>, id: ActionId, from: nat)
    requires a <= b && from <= |a|
    ensures FindAction(a, id, from).Some? ==> FindAction(b, id, from) == FindAction(a, id, from)
    decreases |a| - from
  {
    if from < |a| {
      FindActionPrefix(a, b, id, from + 1);
    }
  }

  lemma FindActionFirst(actions: seq<ActionRow>, id: ActionId, at: nat)
    requires at < |actions| && actions[at].id == id
    requires forall k :: 0 <= k < at ==> actions[k].id != id
    ensures FindAction(actions, id, 0) == Some(at)
  {
    FindActionAt(actions, id, 0, at);
  }

  lemma {:induction false} FindActionAt(actions: seq<ActionRow>, id: ActionId, from: nat, at: nat)
    requires from <= at < |actions| && actions[at].id == id
    requires forall k :: from <= k < at ==> actions[k].id != id
    ensures FindAction(actions, id, from) == Some(at)
    decreases at - from
  {
    if from < at {
      FindActionAt(actions, id, from + 1, at);
    }
  }

  /** Proposing again, after other proposals have been worked off, repeats the outcome and
      creates nothing. */
  lemma ProposeAgain(first: Desk, later: Desk, plan: nat, p: Proposal, facts: Facts)
    requires Propose(first, plan, p, facts).0.actions <= later.actions
    requires forall k :: |Propose(first, plan, p, facts).0.actions| <= k < |later.actions| ==>
               later.actions[k].id != FromCommand(plan, p.id)
    ensures Propose(later, plan, p, facts).0.actions == later.actions
    ensures Propose(later, plan, p, facts).1 == Propose(first, plan, p, facts).1
  {
    hide FactsForbid;
    var id := FromCommand(plan, p.id);
    var (after, outcome) := Propose(first, plan, p, facts);
    var rec := facts(p.caseId);
    if rec.Some? && p.workflow.Some? {
      if FindAction(first.actions, id, 0).Some? {
        FindActionPrefix(first.actions, later.actions, id, 0);
      } else if outcome.ExecutedProposal? {
        assert forall k :: 0 <= k < |first.actions| ==> later.actions[k] == after.actions[k] == first.actions[k];
        FindActionFirst(later.actions, id, |first.actions|);
      } else {
        assert after.actions == first.actions;
        assert forall k :: 0 <= k < |later.actions| ==> later.actions[k].id != id;
        if HasWork(first.actions, p.caseId, rec.value.action) {
          HasWorkPrefix(first.actions, later.actions, p.caseId, rec.value.action);
        }
      }
    }
  }

  lemma HasWorkPrefix(a: seq<ActionRow>, b: seq<ActionRow>, caseId: nat, action: Action)
    requires a <= b && HasWork(a, caseId, action)
    ensures HasWork(b, caseId, action)
  {
    var k :| 0 <= k < |a| && a[k].caseId == caseId && a[k].recommendation == action
             && (Live(a[k].status) || a[k].status.Executed?);
    assert b[k] == a[k];
  }

  // ---------------------------------------------------------------- working off a list again

  /** Between two points of a run the rows only grow, by rows of the proposals in between. */
  lemma {:induction false} RunProposalsAppends(d: Desk, plan: nat, selected: seq<Proposal>, facts: Facts, j: nat,
                                               k: nat)
    requires j <= k <= |selected|
    ensures var before, after := RunProposals(d, plan, selected, facts, j).0.actions,
            RunProposals(d, plan, selected, facts, k).0.actions;
            && before <= after
            && forall x :: |before| <= x < |after| ==>
                  exists i :: j <= i < k && after[x].id == FromCommand(plan, selected[i].id)
    decreases k - j
  {
    hide Propose;
    if j < k {
      RunProposalsAppends(d, plan, selected, facts, j, k - 1);
      var middle := RunProposals(d, plan, selected, facts, k - 1).0;
      ProposeAppends(middle, plan, selected[k - 1], facts);
    }
  }

  /** Working off a list again, from a state in which the first `k` proposals had already been
      worked off, repeats their outcomes, and then continues as the first run would have. */
  lemma {:induction false} RunProposalsAgain(d: Desk, again: Desk, plan: nat, selected: seq<Proposal>, facts: Facts,
                                             k: nat, j: nat)
    requires k <= |selected| && j <= |selected| && Unrepeated(selected)
    requires again.actions == RunProposals(d, plan, selected, facts, k).0.actions
    ensures RunProposals(again, plan, selected, facts, j).0.actions
            == RunProposals(d, plan, selected, facts, Max(j, k)).0.actions
    ensures RunProposals(again, plan, selected, facts, j).1 == RunProposals(d, plan, selected, facts, j).1
    decreases j
  {
    hide Propose;
    if j > 0 {
      RunProposalsAgain(d, again, plan, selected, facts, k, j - 1);
      var p := selected[j - 1];
      var redo := RunProposals(again, plan, selected, facts, j - 1).0;
      var first := RunProposals(d, plan, selected, facts, j - 1).0;
      if j <= k {
        RunProposalsAppends(d, plan, selected, facts, j, k);
        var after := RunProposals(d, plan, selected, facts, j).0;
        assert after == Propose(first, plan, p, facts).0;
        forall x | |after.actions| <= x < |redo.actions|
          ensures redo.actions[x].id != FromCommand(plan, p.id)
        {
          var i :| j <= i < k && redo.actions[x].id == FromCommand(plan, selected[i].id);
          assert selected[i].id != selected[j - 1].id;
        }
        ProposeAgain(first, redo, plan, p, facts);
      } else {
        assert Max(j - 1, k) == j - 1;
        ProposeIgnoresAudits(redo, first, plan, p, facts);
      }
    }
  }

  // ---------------------------------------------------------------- losing the process

  lemma {:induction false} ConfirmationActionsUnrepeated(proposals: seq<Proposal>)
    requires Unrepeated(proposals)
    ensures Unrepeated(ConfirmationActions(proposals))
  {
    if proposals != [] {
      ConfirmationActionsUnrepeated(proposals[1..]);
      var rest := ConfirmationActions(proposals[1..]);
      forall y | 0 <= y < |rest|
        ensures rest[y].id != proposals[0].id
      {
        assert rest[y] in proposals[1..];
      }
    }
  }

  lemma {:induction false} ChosenUnrepeated(proposals: seq<Proposal>, chosen: set<nat>)
    requires Unrepeated(proposals)
    ensures Unrepeated(Chosen(proposals, chosen))
  {
    if proposals != [] {
      ChosenUnrepeated(proposals[1..], chosen);
      var rest := Chosen(proposals[1..], chosen);
      forall y | 0 <= y < |rest|
        ensures rest[y].id != proposals[0].id
      {
        assert rest[y] in proposals[1..];
      }
    }
  }

  lemma SelectedUnrepeated(plan: Plan, request: ConfirmRequest)
    requires Unrepeated(plan.proposals)
    ensures Unrepeated(Selected(plan, request))
  {
    ConfirmationActionsUnrepeated(plan.proposals);
    ChosenUnrepeated(ConfirmationActions(plan.proposals), request.chosen);
  }

  /** Up to the audit trail, two durable states agree. */
  predicate SameRecords(a: Durable, b: Durable) {
    a.plans == b.plans && a.requests == b.requests && a.results == b.results && a.desk.actions == b.desk.actions
  }

  /** Finishing a confirmation that was cut short after its request was recorded gives what it
      would have given uninterrupted, whatever request comes with the second attempt. */
  lemma WorkResumes(d: Durable, plan: Plan, request: ConfirmRequest, second: ConfirmRequest, facts: Facts, steps: nat)
    requires 1 <= steps < StepCount(d, plan, request)
    requires plan.id !in d.results && Unrepeated(plan.proposals)
    ensures var cut := Work(d, plan, request, facts, steps);
            && plan.id !in cut.results && cut.plans == d.plans && cut.lastReset == d.lastReset
            && FinalResult(cut, plan, second, facts) == FinalResult(d, plan, request, facts)
            && SameRecords(Work(cut, plan, second, facts, StepCount(cut, plan, second)),
                           Work(d, plan, request, facts, StepCount(d, plan, request)))
  {
    hide RunProposals, Selected, WarningsOf, AnyExecuted;
    var force := RequestInForce(d, plan.id, request);
    var selected := Selected(plan, force);
    var cut := Work(d, plan, request, facts, steps);
    assert RequestInForce(cut, plan.id, second) == force;
    SelectedUnrepeated(plan, force);
    var done := Min(steps - 1, |selected|);
    RunProposalsAgain(d.desk, cut.desk, plan.id, selected, facts, done, |selected|);
    assert Max(|selected|, done) == |selected|;
  }

  /** Crash transparency. If the process is lost at any point after the request was recorded,
      then confirming again under the same facts, with any request and at any time at which
      the plan can still be loaded, returns the very result the uninterrupted confirmation
      would have returned, and leaves the same plans, requests, results and action rows. */
  lemma CrashThenRetryIsTransparent(s: Server, id: nat, request: ConfirmRequest, second: ConfirmRequest, facts: Facts,
                                    now: int, later: int, fuse: nat)
    requires Good(s) && 1 <= fuse && (id in s.durable.plans ==> Unrepeated(s.durable.plans[id].proposals))
    requires Confirm(s, id, request, facts, now, Some(fuse)).1.Lost?
    requires !Expired(s.durable.plans[id], later) && !PredatesReset(s.durable, s.durable.plans[id])
    ensures var (cut, _) := Confirm(s, id, request, facts, now, Some(fuse));
            var (retried, answer) := Confirm(cut, id, second, facts, later, None);
            var (whole, expected) := Confirm(s, id, request, facts, now, None);
            answer == expected && SameRecords(retried.durable, whole.durable)
  {
    hide Work, FinalResult, StepCount, Lifecycle, AllAuthorised, SaveResult, TouchResult;
    ClaimKeepsRest(s.memory, id, now);
    var plan := ObtainPlan(s, id, now).1.plan;
    assert plan == s.durable.plans[id] && plan.id == id;
    var total := StepCount(s.durable, plan, request);
    if fuse < total {
      WorkResumes(s.durable, plan, request, second, facts, fuse);
    } else {
      WorkRecordsResult(s.durable, plan, request, facts);
    }
  }

  /** A confirmation reports "executed" for exactly those selected proposals for which a row
      exists afterwards, as long as their cases can be found. */
  lemma {:induction false} ExecutedMeansRowExists(d: Desk, plan: nat, selected: seq<Proposal>, facts: Facts, k: nat,
                                                  i: nat)
    requires i < k <= |selected| && Unrepeated(selected)
    requires Bound(d, plan, selected)
    requires facts(selected[i].caseId).Some? && selected[i].workflow.Some?
    ensures var (after, outcomes) := RunProposals(d, plan, selected, facts, k);
            outcomes[i].ExecutedProposal? <==> HasId(after.actions, FromCommand(plan, selected[i].id))
    decreases k
  {
    hide Propose;
    var (before, outcomes) := RunProposals(d, plan, selected, facts, k - 1);
    var p := selected[k - 1];
    ProposeAppends(before, plan, p, facts);
    var after := Propose(before, plan, p, facts).0;
    RunProposalsBound(d, plan, selected, facts, k - 1);
    if i < k - 1 {
      ExecutedMeansRowExists(d, plan, selected, facts, k - 1, i);
      assert p.id != selected[i].id;
      HasIdAppend(before.actions, after.actions, FromCommand(plan, selected[i].id));
    } else {
      ProposeReports(before, plan, p, facts);
    }
  }

  /** Rows of the plan agree with the proposals they were created for. */
  ghost predicate Bound(d: Desk, plan: nat, selected: seq<Proposal>) {
    forall x, i ::
      0 <= x < |d.actions| && 0 <= i < |selected| && d.actions[x].id == FromCommand(plan, selected[i].id) ==>
        d.actions[x].caseId == selected[i].caseId && selected[i].workflow == Some(d.actions[x].recommendation)
  }

  lemma {:induction false} RunProposalsBound(d: Desk, plan: nat, selected: seq<Proposal>, facts: Facts, k: nat)
    requires k <= |selected| && Unrepeated(selected) && Bound(d, plan, selected)
    ensures Bound(RunProposals(d, plan, selected, facts, k).0, plan, selected)
  {
    hide Propose;
    if k > 0 {
      RunProposalsBound(d, plan, selected, facts, k - 1);
      var before := RunProposals(d, plan, selected, facts, k - 1).0;
      ProposeAppends(before, plan, selected[k - 1], facts);
      var after := Propose(before, plan, selected[k - 1], facts).0;
      forall x, i | 0 <= x < |after.actions| && 0 <= i < |selected|
          && after.actions[x].id == FromCommand(plan, selected[i].id)
        ensures after.actions[x].caseId == selected[i].caseId && selected[i].workflow
                == Some(after.actions[x].recommendation)
      {
        if x >= |before.actions| {
          assert selected[i].id == selected[k - 1].id;
        }
      }
    }
  }

  lemma HasIdAppend(a: seq<ActionRow>, b: seq<ActionRow>, id: ActionId)
    requires a <= b && forall k :: |a| <= k < |b| ==> b[k].id != id
    ensures HasId(a, id) <==> HasId(b, id)
  {
    if HasId(a, id) {
      var x :| 0 <= x < |a| && a[x].id == id;
      assert b[x].id == id;
    }
  }

  lemma ProposeReports(d: Desk, plan: nat, p: Proposal, facts: Facts)
    requires facts(p.caseId).Some? && p.workflow.Some?
    requires forall x :: 0 <= x < |d.actions| && d.actions[x].id == FromCommand(plan, p.id) ==>
               d.actions[x].caseId == p.caseId && p.workflow == Some(d.actions[x].recommendation)
    ensures var (after, outcome) := Propose(d, plan, p, facts);
            outcome.ExecutedProposal? <==> HasId(after.actions, FromCommand(plan, p.id))
  {
    hide FactsForbid, HasWork;
    var (after, outcome) := Propose(d, plan, p, facts);
    if outcome.ExecutedProposal? {
      assert after.actions[outcome.row].id == FromCommand(plan, p.id);
    }
  }

  /** In every good state the rows of a plan are bound to what its request selected. */
  lemma GoodMeansBound(s: Server, plan: Plan, request: ConfirmRequest)
    requires Good(s) && plan.id in s.durable.plans && s.durable.plans[plan.id] == plan && Unrepeated(plan.proposals)
    ensures Bound(s.durable.desk, plan.id, Selected(plan, RequestInForce(s.durable, plan.id, request)))
    ensures Unrepeated(Selected(plan, RequestInForce(s.durable, plan.id, request)))
  {
    hide Lifecycle, Faithful, Selected;
    var d := s.durable;
    var selected := Selected(plan, RequestInForce(d, plan.id, request));
    SelectedUnrepeated(plan, RequestInForce(d, plan.id, request));
    forall x, i | 0 <= x < |d.desk.actions| && 0 <= i < |selected|
        && d.desk.actions[x].id == FromCommand(plan.id, selected[i].id)
      ensures d.desk.actions[x].caseId == selected[i].caseId && selected[i].workflow
              == Some(d.desk.actions[x].recommendation)
    {
      assert Authorised(d, d.desk.actions[x]);
      var p :| p in selected && p.id == selected[i].id && p.caseId == d.desk.actions[x].caseId
               && p.workflow == Some(d.desk.actions[x].recommendation);
      var j :| 0 <= j < |selected| && selected[j] == p;
      assert i == j;
    }
  }

  /** So a returned result tells the truth about the action table: a selected proposal is
      reported executed exactly when its row exists. */
  lemma ResultTellsTheTruth(s: Server, plan: Plan, request: ConfirmRequest, facts: Facts, i: nat)
    requires Good(s) && plan.id in s.durable.plans && s.durable.plans[plan.id] == plan && plan.id !in s.durable.results
    requires Unrepeated(plan.proposals)
    requires var selected := Selected(plan, RequestInForce(s.durable, plan.id, request));
             i < |selected| && facts(selected[i].caseId).Some? && selected[i].workflow.Some?
    ensures var selected := Selected(plan, RequestInForce(s.durable, plan.id, request));
            var after := Work(s.durable, plan, request, facts, StepCount(s.durable, plan, request));
            && |FinalResult(s.durable, plan, request, facts).outcomes| == |selected|
            && (FinalResult(s.durable, plan, request, facts).outcomes[i].ExecutedProposal? <==>
                  HasId(after.desk.actions, FromCommand(plan.id, selected[i].id)))
  {
    hide Selected, RunProposals, HasId, AnyExecuted, WarningsOf, Good;
    var selected := Selected(plan, RequestInForce(s.durable, plan.id, request));
    GoodMeansBound(s, plan, request);
    ExecutedMeansRowExists(s.durable.desk, plan.id, selected, facts, |selected|, i);
  }
}
