/** Expiry of command plans, on the plans' own dates: which confirmations are answered, which
    are refused, and that nothing is ever done for a plan once it has expired. */
module ConfirmationExpiry {
  import opened Domain
  import opened Workflow
  import opened PlanRegistry
  import opened Confirmation
  import opened ConfirmationProperties

  /** The plan can still be confirmed at this moment. */
  predicate StillValid(p: Plan, now: int) {
    p.expiresAt.None? || now < p.expiresAt.value
  }

  predicate InMemory(s: Server, id: nat) {
    exists k :: 0 <= k < |s.memory.plans| && s.memory.plans[k].id == id
  }

  /** A reset recorded after the plan was made, which only a plan no longer in memory meets. */
  predicate MeetsReset(s: Server, id: nat)
    requires id in s.durable.plans
  {
    !InMemory(s, id) && s.durable.lastReset.Some? && s.durable.plans[id].createdAt < s.durable.lastReset.value
  }

  /** Purging keeps exactly the plans that are still valid, in order. */
  lemma {:induction false} PurgeExactly(plans: seq<Plan>, now: int)
    ensures forall p :: p in Unexpired(plans, now) <==> p in plans && StillValid(p, now)
    ensures (forall p :: p in plans ==> StillValid(p, now)) ==> Unexpired(plans, now) == plans
  {
    if plans != [] {
      PurgeExactly(plans[1..], now);
      assert plans == [plans[0]] + plans[1..];
    }
  }

  /** A claim answers by the plan's own date, and takes the plan out of the registry. */
  lemma ClaimExactly(m: Memory, id: nat, now: int)
    requires DistinctPlans(m.plans)
    ensures var (after, claim) := ClaimPlan(m, id, now);
            && (claim.ClaimNotFound? <==> forall p :: p in m.plans ==> p.id != id)
            && (claim.Claimed? ==> claim.plan in m.plans && claim.plan.id == id && StillValid(claim.plan, now))
            && (claim.ClaimExpired? <==> exists p :: p in m.plans && p.id == id && !StillValid(p, now))
            && (forall p :: p in after.plans <==> p in m.plans && p.id != id)
  {
    assert forall p, q :: p in m.plans && q in m.plans && p.id == q.id ==> p == q;
  }

  // ---------------------------------------------------------------- one confirmation

  /** How the plan of an unconfirmed identity is obtained. */
  lemma ObtainExactly(s: Server, id: nat, now: int)
    requires Good(s)
    ensures var claim := ObtainPlan(s, id, now).1;
            && (claim.ClaimNotFound? <==> id !in s.durable.plans)
            && (claim.ClaimExpired? <==>
                  id in s.durable.plans && (!StillValid(s.durable.plans[id], now) || MeetsReset(s, id)))
            && (claim.Claimed? ==> id in s.durable.plans && claim.plan == s.durable.plans[id])
  {
    hide Lifecycle, AllAuthorised;
    ClaimExactly(s.memory, id, now);
    if InMemory(s, id) {
      var k :| 0 <= k < |s.memory.plans| && s.memory.plans[k].id == id;
      assert s.memory.plans[k] in s.memory.plans;
    }
  }

  /** What a confirmation answers, for every state, request and loss of the process. A recorded
      result is returned again; an unknown plan is not found; a plan past its own date, or met
      by a reset, is expired; and only a plan that is still valid is confirmed. */
  lemma ConfirmAnswersExactly(s: Server, id: nat, request: ConfirmRequest, facts: Facts, now: int, fuse: Option<nat>)
    requires Good(s)
    ensures var (after, answer) := Confirm(s, id, request, facts, now, fuse);
            var known := id in s.durable.plans;
            && (id in s.durable.results ==> answer == Returned(s.durable.results[id]))
            && (answer.PlanNotFound? <==> id !in s.durable.results && !known)
            && (answer.PlanExpired? <==>
                  id !in s.durable.results && known && (!StillValid(s.durable.plans[id], now) || MeetsReset(s, id)))
            && (id in s.durable.results || answer.PlanNotFound? || answer.PlanExpired? ==> after.durable == s.durable)
  {
    hide Good, Work, FinalResult, StepCount, SaveResult, TouchResult, ObtainPlan, MeetsReset, StillValid;
    ObtainExactly(s, id, now);
    PreviousIsOnRecord(s, id);
  }

  /** If a confirmation of an unconfirmed identity returns or records anything, then its plan is
      known and still valid. */
  lemma OnlyValidPlansAreConfirmed(s: Server, id: nat, request: ConfirmRequest, facts: Facts, now: int,
                                   fuse: Option<nat>)
    requires Good(s) && id !in s.durable.results
    requires var (after, answer) := Confirm(s, id, request, facts, now, fuse);
             answer.Returned? || after.durable != s.durable
    ensures id in s.durable.plans
    ensures s.durable.plans[id].expiresAt.None? || now < s.durable.plans[id].expiresAt.value
  {
    hide Good, Confirm;
    ConfirmAnswersExactly(s, id, request, facts, now, fuse);
  }

  // ---------------------------------------------------------------- every run

  /** Every confirmation of this plan in the run comes at or after its expiry. */
  predicate AllLate(ops: seq<ConfirmationProperties.Operation>, id: nat, expiry: int) {
    forall k :: 0 <= k < |ops| && ops[k].Confirming? && ops[k].id == id ==> expiry <= ops[k].now
  }

  /** Nothing has been done for a plan: no request, no result and no action row was added. */
  ghost predicate NothingAdded(a: Durable, b: Durable, id: nat) {
    && (id in b.requests ==> id in a.requests && b.requests[id] == a.requests[id])
    && (id in b.results ==> id in a.results && b.results[id] == a.results[id])
    && |a.desk.actions| <= |b.desk.actions|
    && forall k :: |a.desk.actions| <= k < |b.desk.actions| ==>
         !(b.desk.actions[k].id.FromCommand? && b.desk.actions[k].id.plan == id)
  }

  /** A confirmation touches the requests, results and rows of its own plan only. */
  lemma ConfirmIsLocal(s: Server, id: nat, request: ConfirmRequest, facts: Facts, now: int, fuse: Option<nat>,
                       other: nat)
    requires Good(s) && other != id
    ensures NothingAdded(s.durable, Confirm(s, id, request, facts, now, fuse).0.durable, other)
  {
    hide Good, FinalResult, SaveResult, TouchResult, ObtainPlan, RunProposals, Selected;
    ObtainKeepsGood(s, id, now);
    if Previous(s, id).None? && ObtainPlan(s, id, now).1.Claimed? {
      var plan := ObtainPlan(s, id, now).1.plan;
      var total := StepCount(s.durable, plan, request);
      WorkIsLocal(s.durable, plan, request, facts, total, other);
      if fuse.Some? && fuse.value <= total {
        WorkIsLocal(s.durable, plan, request, facts, fuse.value, other);
      }
    }
  }

  lemma WorkIsLocal(d: Durable, plan: Plan, request: ConfirmRequest, facts: Facts, steps: nat, other: nat)
    requires steps <= StepCount(d, plan, request) && other != plan.id
    ensures NothingAdded(d, Work(d, plan, request, facts, steps), other)
  {
    hide RunProposals, Selected, FinalResult;
    if steps > 0 {
      var selected := Selected(plan, RequestInForce(d, plan.id, request));
      RowsAreLocal(d.desk, plan.id, selected, facts, Min(steps - 1, |selected|));
    }
  }

  lemma {:induction false} RowsAreLocal(d: Desk, plan: nat, selected: seq<Proposal>, facts: Facts, k: nat)
    requires k <= |selected|
    ensures var after := RunProposals(d, plan, selected, facts, k).0;
            && |d.actions| <= |after.actions|
            && forall x :: |d.actions| <= x < |after.actions| ==>
                 after.actions[x].id.FromCommand? && after.actions[x].id.plan == plan
  {
    hide Propose;
    if k > 0 {
      RowsAreLocal(d, plan, selected, facts, k - 1);
      var before := RunProposals(d, plan, selected, facts, k - 1).0;
      ProposeAppends(before, plan, selected[k - 1], facts);
    }
  }

  lemma StepAddsNothing(s: Server, op: ConfirmationProperties.Operation, id: nat, expiry: int)
    requires Good(s) && id in s.durable.plans && s.durable.plans[id].expiresAt == Some(expiry)
    requires op.Confirming? && op.id == id ==> expiry <= op.now
    ensures NothingAdded(s.durable, ConfirmationProperties.Step(s, op).0.durable, id)
    ensures id in ConfirmationProperties.Step(s, op).0.durable.plans
            && ConfirmationProperties.Step(s, op).0.durable.plans[id] == s.durable.plans[id]
  {
    hide Good, Confirm, Workflow.Step;
    StepKeepsGood(s, op);
    match op
    case Preparing(plan, at) =>
    case Confirming(other, request, facts, now, fuse) =>
      if other == id {
        ConfirmAnswersExactly(s, id, request, facts, now, fuse);
      } else {
        ConfirmIsLocal(s, other, request, facts, now, fuse, id);
      }
    case Restarting =>
    case Working(work) =>
      if OperatorWork(work) {
        WorkingKeepsRows(s.durable.desk, work);
      }
  }

  /** Over every run, nothing is done for an expired plan: no request, no result and no action
      row is added by any confirmation at or after its expiry, whatever else happens. */
  lemma {:induction false} ExpiredPlansAddNothing(s: Server, ops: seq<ConfirmationProperties.Operation>, id: nat,
                                                  expiry: int)
    requires Good(s) && id in s.durable.plans && s.durable.plans[id].expiresAt == Some(expiry)
    requires AllLate(ops, id, expiry)
    ensures NothingAdded(s.durable, ConfirmationProperties.Run(s, ops).0.durable, id)
    decreases |ops|
  {
    hide Good, ConfirmationProperties.Step;
    if ops != [] {
      var next := ConfirmationProperties.Step(s, ops[0]).0;
      StepKeepsGood(s, ops[0]);
      StepAddsNothing(s, ops[0], id, expiry);
      assert forall k :: 0 <= k < |ops[1..]| ==> ops[1..][k] == ops[k + 1];
      ExpiredPlansAddNothing(next, ops[1..], id, expiry);
      RunKeepsGood(next, ops[1..]);
      SameRows(s.durable, next.durable, ConfirmationProperties.Run(next, ops[1..]).0.durable, id);
    }
  }

  lemma SameRows(a: Durable, b: Durable, c: Durable, id: nat)
    requires NothingAdded(a, b, id) && NothingAdded(b, c, id) && Grows(b, c)
    ensures NothingAdded(a, c, id)
  {
  }

  // ---------------------------------------------------------------- what a confirmation works on

  /** The proposals that need confirmation, and of these the named ones if any are named. */
  function Kept(proposals: seq<Proposal>, chosen: set<nat>): seq<Proposal> {
    if proposals == [] then []
    else
      (if proposals[0].requiresConfirmation && (chosen == {} || proposals[0].id in chosen) then [proposals[0]] else [])
      + Kept(proposals[1..], chosen)
  }

  lemma {:induction false} KeptIs(proposals: seq<Proposal>, chosen: set<nat>)
    ensures Kept(proposals, chosen)
         == if chosen != {} then Chosen(ConfirmationActions(proposals), chosen) else ConfirmationActions(proposals)
  {
    if proposals != [] {
      KeptIs(proposals[1..], chosen);
      var rest := ConfirmationActions(proposals[1..]);
      if proposals[0].requiresConfirmation {
        assert ([proposals[0]] + rest)[1..] == rest;
      }
    }
  }

  /** The proposals worked off: one pass over the plan, in its order. */
  lemma SelectedExactly(plan: Plan, request: ConfirmRequest)
    ensures Selected(plan, request) == Kept(plan.proposals, request.chosen)
    ensures forall p :: p in Selected(plan, request) <==>
              p in plan.proposals && p.requiresConfirmation && (request.chosen == {} || p.id in request.chosen)
  {
    KeptIs(plan.proposals, request.chosen);
  }

  /** What a result warns of: named proposals that are not up for confirmation, actions left
      unselected, and a selection of nothing. */
  lemma WarningsExactly(plan: Plan, request: ConfirmRequest)
    ensures var w := WarningsOf(plan, request);
            var offered := set p | p in plan.proposals && p.requiresConfirmation :: p.id;
            && w.ignored == |request.chosen - offered|
            && (w.nothingSelected <==>
                  forall p :: p in plan.proposals && p.requiresConfirmation ==>
                        request.chosen != {} && p.id !in request.chosen)
            && (w.unselected <==>
                  && request.chosen != {}
                  && (exists p :: p in plan.proposals && p.requiresConfirmation && p.id !in request.chosen))
  {
    var actions := ConfirmationActions(plan.proposals);
    assert (set p | p in actions :: p.id) == set p | p in plan.proposals && p.requiresConfirmation :: p.id;
    ChosenCount(actions, request.chosen);
    SelectedExactly(plan, request);
    if Selected(plan, request) != [] {
      assert Selected(plan, request)[0] in Selected(plan, request);
    }
  }

  lemma {:induction false} ChosenCount(proposals: seq<Proposal>, chosen: set<nat>)
    ensures |Chosen(proposals, chosen)| <= |proposals|
    ensures |Chosen(proposals, chosen)| < |proposals| <==> exists p :: p in proposals && p.id !in chosen
  {
    if proposals != [] {
      ChosenCount(proposals[1..], chosen);
      assert forall p :: p in proposals <==> p == proposals[0] || p in proposals[1..];
    }
  }

  /** What each proposal comes to, and the whole of a result. */
  lemma OutcomeExactly(d: Desk, plan: nat, p: Proposal, facts: Facts)
    ensures var (after, outcome) := Propose(d, plan, p, facts);
            && (outcome.NotExecutable? <==> facts(p.caseId) == None || p.workflow == None)
            && (outcome.NotExecutable? ==> after == d && outcome.ofProposal == p.id)
            && (outcome.ExecutedProposal? ==>
                  && outcome.proposal == p.id && outcome.row < |after.actions|
                  && after.actions[outcome.row].status == outcome.status)
            && (outcome.FailedProposal? ==> outcome.failed == p.id && after.actions == d.actions)
  {
    hide FactsForbid, HasWork, FindAction;
  }

  lemma ResultExactly(plan: Plan, request: ConfirmRequest, outcomes: seq<ProposalOutcome>)
    ensures var r := ResultOf(plan, request, outcomes);
            && r.plan == plan.id && r.outcomes == outcomes && r.warnings == WarningsOf(plan, request)
            && (r.executed <==> exists o :: o in outcomes && o.ExecutedProposal?)
  {
    hide WarningsOf;
    if o :| o in outcomes && o.ExecutedProposal? {
      var k :| 0 <= k < |outcomes| && outcomes[k] == o;
      assert outcomes[k].ExecutedProposal?;
    }
  }

  // ---------------------------------------------------------------- what the registry forgets

  /** Saving a plan puts it last; when there is no room, the entries that have been there longest
      go, and the rest keep their order. */
  lemma EvictionExactly(m: Memory, plan: Plan, max: nat, now: int)
    requires plan.requiresConfirmation
    ensures var others := DropPlan(Unexpired(m.plans, now), plan.id); var kept := SavePlan(m, plan, max, now).plans;
            && |kept| == (if |others| < max then |others| + 1 else max)
            && kept == (others + [plan])[|others| + 1 - |kept|..]
  {
    hide DropPlan, Unexpired;
  }

  /** Looking a result up, or saving it, makes it the last to go. */
  lemma LookupRefreshes(m: Memory, id: nat, result: Result, max: nat)
    ensures FindResult(m.confirmations, id).Some? ==>
              TouchResult(m, id).confirmations == DropResult(m.confirmations, id)
                  + [FindResult(m.confirmations, id).value]
    ensures 0 < max ==>
              var kept := SaveResult(m, result, max).confirmations; kept != [] && kept[|kept| - 1] == result
  {
    hide DropResult;
  }

  /** What memory holds after a confirmation that was worked off: the plan is gone from the registry,
      and the result is the last to go. After a loss of the process it holds nothing. */
  lemma ConfirmRemembers(s: Server, id: nat, request: ConfirmRequest, facts: Facts, now: int, fuse: Option<nat>)
    requires Good(s) && id !in s.durable.results && 0 < s.max
    ensures var (after, answer) := Confirm(s, id, request, facts, now, fuse);
            && after.max == s.max
            && (answer.Lost? ==> after.memory == NO_MEMORY)
            && (!answer.Lost? ==> forall p :: p in after.memory.plans ==> p.id != id)
            && (answer.Returned? ==>
                  var kept := after.memory.confirmations; kept != [] && kept[|kept| - 1] == answer.result)
  {
    hide Good, Work, FinalResult, StepCount, DropResult, DropPlan, FindPlan, Lifecycle, AllAuthorised;
    PreviousIsOnRecord(s, id);
    ObtainForgets(s, id, now);
    if ObtainPlan(s, id, now).1.Claimed? {
      LookupRefreshes(ObtainPlan(s, id, now).0, id,
                      FinalResult(s.durable, ObtainPlan(s, id, now).1.plan, request, facts), s.max);
    }
  }

  lemma ObtainForgets(s: Server, id: nat, now: int)
    requires Good(s)
    ensures forall p :: p in ObtainPlan(s, id, now).0.plans ==> p.id != id
  {
    hide LogCoherent, Lifecycle, AllAuthorised;
    ClaimExactly(s.memory, id, now);
  }
}
