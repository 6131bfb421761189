/** Exactly-once confirmation: what holds over every sequence of preparations, confirmations,
    process losses and operator work. */
module ConfirmationProperties {
  import opened Domain
  import opened Workflow
  import opened PlanRegistry
  import opened Confirmation

  // ---------------------------------------------------------------- the invariant

  /** The registry holds nothing the log does not hold. */
  ghost predicate Faithful(s: Server) {
    && Bounded(s.memory, s.max)
    && (forall p :: p in s.memory.plans ==> p.id in s.durable.plans && s.durable.plans[p.id] == p)
    && (forall r :: r in s.memory.confirmations ==> r.plan in s.durable.results && s.durable.results[r.plan] == r)
  }

  ghost predicate LogCoherent(d: Durable) {
    && (forall id :: id in d.plans ==> d.plans[id].id == id)
    && (forall id :: id in d.results ==> d.results[id].plan == id && id in d.requests)
    && (forall id :: id in d.requests ==> id in d.plans)
  }

  /** The proposal a command row was created for: selected by the recorded request of its
      plan, for this case and this recommendation. */
  ghost predicate Authorised(d: Durable, a: ActionRow)
    requires a.id.FromCommand?
  {
    && a.id.plan in d.plans && a.id.plan in d.requests
    && exists p :: p in Selected(d.plans[a.id.plan], d.requests[a.id.plan])
         && p.id == a.id.proposal && p.caseId == a.caseId && p.workflow == Some(a.recommendation)
  }

  ghost predicate AllAuthorised(d: Durable) {
    forall k :: 0 <= k < |d.desk.actions| && d.desk.actions[k].id.FromCommand? ==> Authorised(d, d.desk.actions[k])
  }

  ghost predicate Good(s: Server) {
    Faithful(s) && LogCoherent(s.durable) && Lifecycle(s.durable.desk) && AllAuthorised(s.durable)
  }

  /** The log only grows: nothing recorded is ever changed, and action rows keep their place,
      identity, case and recommendation. */
  ghost predicate Grows(a: Durable, b: Durable) {
    && (forall id :: id in a.plans ==> id in b.plans && b.plans[id] == a.plans[id])
    && (forall id :: id in a.requests ==> id in b.requests && b.requests[id] == a.requests[id])
    && (forall id :: id in a.results ==> id in b.results && b.results[id] == a.results[id])
    && RowsGrow(a.desk.actions, b.desk.actions)
  }

  ghost predicate RowsGrow(a: seq<ActionRow>, b: seq<ActionRow>) {
    && |a| <= |b|
    && forall k :: 0 <= k < |a| ==>
         b[k].id == a[k].id && b[k].caseId == a[k].caseId && b[k].recommendation == a[k].recommendation
  }

  lemma GrowsTrans(a: Durable, b: Durable, c: Durable)
    requires Grows(a, b) && Grows(b, c)
    ensures Grows(a, c)
  {
  }

  // ---------------------------------------------------------------- proposals

  lemma ProposeAppends(d: Desk, plan: nat, p: Proposal, facts: Facts)
    ensures var after := Propose(d, plan, p, facts).0;
            && d.actions <= after.actions
            && |after.actions| <= |d.actions| + 1
            && (|after.actions| == |d.actions| + 1 ==>
                  var row := after.actions[|d.actions|];
                  row.id == FromCommand(plan, p.id) && row.caseId == p.caseId && p.workflow == Some(row.recommendation))
  {
    hide FactsForbid, HasWork;
  }

  lemma {:induction false} RunProposalsKeeps(d: Durable, plan: Plan, selected: seq<Proposal>, facts: Facts, k: nat)
    requires k <= |selected| && plan.id in d.plans && plan.id in d.requests && d.plans[plan.id] == plan
    requires selected == Selected(plan, d.requests[plan.id])
    requires Lifecycle(d.desk) && AllAuthorised(d)
    ensures var after := d.(desk := RunProposals(d.desk, plan.id, selected, facts, k).0);
            Lifecycle(after.desk) && AllAuthorised(after) && RowsGrow(d.desk.actions, after.desk.actions)
  {
    hide Lifecycle, Create, Selected;
    if k > 0 {
      RunProposalsKeeps(d, plan, selected, facts, k - 1);
      var before := RunProposals(d.desk, plan.id, selected, facts, k - 1).0;
      var p := selected[k - 1];
      ProposeAppends(before, plan.id, p, facts);
      ProposeKeepsLifecycle(before, plan.id, p, facts);
      var after := RunProposals(d.desk, plan.id, selected, facts, k).0;
      assert after == Propose(before, plan.id, p, facts).0;
      hide Propose;
      forall x | 0 <= x < |after.actions| && after.actions[x].id.FromCommand?
        ensures Authorised(d.(desk := after), after.actions[x])
      {
        if x < |before.actions| {
          assert Authorised(d.(desk := before), before.actions[x]);
        } else {
          assert p in selected;
        }
      }
    }
  }

  lemma ProposeKeepsLifecycle(d: Desk, plan: nat, p: Proposal, facts: Facts)
    requires Lifecycle(d)
    ensures Lifecycle(Propose(d, plan, p, facts).0)
  {
    hide Lifecycle, Create;
    var rec := facts(p.caseId);
    if rec.Some? && p.workflow.Some? {
      CreateKeepsLifecycle(d, p.caseId, rec.value, p.workflow, Some(FromCommand(plan, p.id)));
    }
  }

  /** Recording the request in force takes no authority away. */
  lemma NotedKeepsAuthorised(d: Durable, id: nat, force: ConfirmRequest)
    requires AllAuthorised(d) && (id in d.requests ==> d.requests[id] == force)
    ensures AllAuthorised(d.(requests := d.requests[id := force]))
  {
    hide Selected;
    forall k | 0 <= k < |d.desk.actions| && d.desk.actions[k].id.FromCommand?
      ensures Authorised(d.(requests := d.requests[id := force]), d.desk.actions[k])
    {
      assert Authorised(d, d.desk.actions[k]);
    }
  }

  lemma WorkKeeps(d: Durable, plan: Plan, request: ConfirmRequest, facts: Facts, steps: nat)
    requires steps <= StepCount(d, plan, request)
    requires LogCoherent(d) && Lifecycle(d.desk) && AllAuthorised(d)
    requires plan.id in d.plans && d.plans[plan.id] == plan && plan.id !in d.results
    ensures var after := Work(d, plan, request, facts, steps);
            LogCoherent(after) && Lifecycle(after.desk) && AllAuthorised(after) && Grows(d, after)
  {
    hide RunProposals, Lifecycle, Selected, FinalResult, Authorised, AllAuthorised;
    if steps > 0 {
      var force := RequestInForce(d, plan.id, request);
      var noted := d.(requests := d.requests[plan.id := force]);
      NotedKeepsAuthorised(d, plan.id, force);
      var selected := Selected(plan, force);
      var done := Min(steps - 1, |selected|);
      RunProposalsKeeps(noted, plan, selected, facts, done);
      var worked := noted.(desk := RunProposals(d.desk, plan.id, selected, facts, done).0);
      hide RowsGrow;
      ResultNamesPlan(d, plan, request, facts);
      ResultKeepsAuthorised(worked, plan.id, FinalResult(d, plan, request, facts));
    }
  }

  lemma ResultNamesPlan(d: Durable, plan: Plan, request: ConfirmRequest, facts: Facts)
    ensures FinalResult(d, plan, request, facts).plan == plan.id
  {
  }

  lemma ResultKeepsAuthorised(d: Durable, id: nat, result: Result)
    requires AllAuthorised(d)
    ensures AllAuthorised(d.(results := d.results[id := result]))
  {
    hide Selected;
    forall k | 0 <= k < |d.desk.actions| && d.desk.actions[k].id.FromCommand?
      ensures Authorised(d.(results := d.results[id := result]), d.desk.actions[k])
    {
      assert Authorised(d, d.desk.actions[k]);
    }
  }

  // ---------------------------------------------------------------- one step of a run

  datatype Operation =
    | Preparing(plan: Plan, at: int)
    | Confirming(id: nat, request: ConfirmRequest, facts: Facts, now: int, fuse: Option<nat>)
    | Restarting
    | Working(op: Workflow.Operation)

  /** Operators work on rows and create rows under fresh identities only. */
  predicate OperatorWork(op: Workflow.Operation) {
    op.Creating? ==> op.key.None?
  }

  /** The planner draws a fresh identity for every plan. */
  predicate FreshPlan(d: Durable, plan: Plan) {
    plan.id in d.plans ==> d.plans[plan.id] == plan
  }

  function Step(s: Server, op: Operation): (Server, Option<(nat, Answer)>) {
    match op
    case Preparing(plan, at) => if FreshPlan(s.durable, plan) then (Prepare(s, plan, at), None) else (s, None)
    case Confirming(id, request, facts, now, fuse) =>
      var (after, answer) := Confirm(s, id, request, facts, now, fuse);
      (after, Some((id, answer)))
    case Restarting => (s.(memory := NO_MEMORY), None)
    case Working(work) =>
      if !OperatorWork(work) then (s, None)
      else (s.(durable := s.durable.(desk := Workflow.Step(s.durable.desk, work))), None)
  }

  /** A repeated confirmation only reorders what memory holds. */
  lemma RepeatKeepsGood(s: Server, id: nat)
    requires Good(s)
    ensures Good(s.(memory := TouchResult(s.memory, id)))
  {
    hide TouchResult, Lifecycle, LogCoherent, AllAuthorised, Bounded;
    TouchResultBounded(s.memory, id, s.max);
    TouchKeepsPlans(s.memory, id);
  }

  /** A plan obtained for confirmation is the plan on record. */
  lemma ObtainKeepsGood(s: Server, id: nat, now: int)
    requires Good(s)
    ensures var (memory, claim) := ObtainPlan(s, id, now);
            && Good(s.(memory := memory)) && memory.confirmations == s.memory.confirmations
            && (claim.Claimed? ==> id in s.durable.plans && s.durable.plans[id] == claim.plan && claim.plan.id == id)
  {
    hide ClaimPlan, Lifecycle, AllAuthorised, Bounded;
    ClaimPlanBounded(s.memory, id, s.max, now);
    ClaimKeepsRest(s.memory, id, now);
  }

  /** Losing the process after some durable steps. */
  lemma CutKeepsGood(s: Server, plan: Plan, request: ConfirmRequest, facts: Facts, steps: nat)
    requires Good(s) && plan.id in s.durable.plans && s.durable.plans[plan.id] == plan && plan.id !in s.durable.results
    requires steps <= StepCount(s.durable, plan, request)
    ensures var after := Work(s.durable, plan, request, facts, steps);
            Good(Server(after, NO_MEMORY, s.max)) && Grows(s.durable, after)
  {
    hide Work, StepCount, Lifecycle, LogCoherent, AllAuthorised, Grows, Bounded;
    WorkKeeps(s.durable, plan, request, facts, steps);
    NoMemoryBounded(s.max);
  }

  /** Finishing all durable steps and remembering the result. */
  lemma FinishKeepsGood(s: Server, plan: Plan, request: ConfirmRequest, facts: Facts)
    requires Good(s) && plan.id in s.durable.plans && s.durable.plans[plan.id] == plan && plan.id !in s.durable.results
    ensures var result := FinalResult(s.durable, plan, request, facts);
            var after := Work(s.durable, plan, request, facts, StepCount(s.durable, plan, request));
            && Good(Server(after, SaveResult(s.memory, result, s.max), s.max)) && Grows(s.durable, after)
            && plan.id in after.results && after.results[plan.id] == result
  {
    hide Work, FinalResult, StepCount, Lifecycle, LogCoherent, AllAuthorised, SaveResult, Bounded;
    WorkKeeps(s.durable, plan, request, facts, StepCount(s.durable, plan, request));
    WorkRecordsResult(s.durable, plan, request, facts);
    ResultNamesPlan(s.durable, plan, request, facts);
    SaveResultBounded(s.memory, FinalResult(s.durable, plan, request, facts), s.max);
    SaveKeepsPlans(s.memory, FinalResult(s.durable, plan, request, facts), s.max);
  }

  lemma ConfirmKeepsGood(s: Server, id: nat, request: ConfirmRequest, facts: Facts, now: int, fuse: Option<nat>)
    requires Good(s)
    ensures var (after, answer) := Confirm(s, id, request, facts, now, fuse);
            && Good(after) && Grows(s.durable, after.durable)
            && (answer.Returned? ==> id in after.durable.results && after.durable.results[id] == answer.result)
  {
    hide Good, Work, FinalResult, StepCount, SaveResult, TouchResult, ObtainPlan, Grows;
    GrowsRefl(s.durable);
    RepeatKeepsGood(s, id);
    ObtainKeepsGood(s, id, now);
    PreviousIsOnRecord(s, id);
    var (memory, claim) := ObtainPlan(s, id, now);
    if Previous(s, id).None? && claim.Claimed? {
      var claimed := s.(memory := memory);
      if fuse.Some? && fuse.value <= StepCount(s.durable, claim.plan, request) {
        CutKeepsGood(claimed, claim.plan, request, facts, fuse.value);
      } else {
        FinishKeepsGood(claimed, claim.plan, request, facts);
      }
    }
  }

  lemma PreviousIsOnRecord(s: Server, id: nat)
    requires Good(s)
    ensures match Previous(s, id)
            case None => id !in s.durable.results
            case Some(result) => id in s.durable.results && s.durable.results[id] == result
  {
    hide Lifecycle, LogCoherent, AllAuthorised, Bounded;
  }

  lemma GrowsRefl(d: Durable)
    ensures Grows(d, d)
  {
  }

  lemma NoMemoryBounded(max: nat)
    ensures Bounded(NO_MEMORY, max)
  {
  }

  lemma TouchKeepsPlans(m: Memory, id: nat)
    ensures TouchResult(m, id).plans == m.plans
  {
  }

  lemma SaveKeepsPlans(m: Memory, result: Result, max: nat)
    ensures SaveResult(m, result, max).plans == m.plans
  {
  }

  lemma ClaimKeepsRest(m: Memory, id: nat, now: int)
    ensures var (after, claim) := ClaimPlan(m, id, now);
            && after.confirmations == m.confirmations
            && (forall p :: p in after.plans ==> p in m.plans)
            && (claim.Claimed? ==> claim.plan in m.plans && claim.plan.id == id && !Expired(claim.plan, now))
  {
  }

  lemma WorkRecordsResult(d: Durable, plan: Plan, request: ConfirmRequest, facts: Facts)
    requires plan.id !in d.results
    ensures var after := Work(d, plan, request, facts, StepCount(d, plan, request));
            after.results == d.results[plan.id := FinalResult(d, plan, request, facts)]
  {
    hide RunProposals, FinalResult, Selected;
  }

  lemma PrepareKeepsGood(s: Server, plan: Plan, now: int)
    requires Good(s) && FreshPlan(s.durable, plan)
    ensures Good(Prepare(s, plan, now)) && Grows(s.durable, Prepare(s, plan, now).durable)
  {
    hide SavePlan, Lifecycle, Selected, Bounded;
    SavePlanBounded(s.memory, plan, s.max, now);
    SavePlanInventsNone(s.memory, plan, s.max, now);
    SavePlanKeepsConfirmations(s.memory, plan, s.max, now);
    var after := Prepare(s, plan, now);
    forall k | 0 <= k < |s.durable.desk.actions| && s.durable.desk.actions[k].id.FromCommand?
      ensures Authorised(after.durable, s.durable.desk.actions[k])
    {
      assert Authorised(s.durable, s.durable.desk.actions[k]);
    }
  }

  lemma SavePlanKeepsConfirmations(m: Memory, plan: Plan, max: nat, now: int)
    ensures SavePlan(m, plan, max, now).confirmations == m.confirmations
  {
  }

  lemma WorkingKeepsRows(d: Desk, op: Workflow.Operation)
    requires OperatorWork(op)
    ensures var after := Workflow.Step(d, op);
            && RowsGrow(d.actions, after.actions)
            && forall k :: |d.actions| <= k < |after.actions| ==> after.actions[k].id.FreshId?
  {
    hide FactsForbid, HasWork;
  }

  lemma WorkingKeepsGood(s: Server, op: Workflow.Operation)
    requires Good(s) && OperatorWork(op)
    ensures var after := s.durable.(desk := Workflow.Step(s.durable.desk, op));
            Good(s.(durable := after)) && Grows(s.durable, after)
  {
    hide Workflow.Step, Lifecycle, Selected;
    StepKeepsLifecycle(s.durable.desk, op);
    WorkingKeepsRows(s.durable.desk, op);
    var after := s.durable.(desk := Workflow.Step(s.durable.desk, op));
    forall k | 0 <= k < |after.desk.actions| && after.desk.actions[k].id.FromCommand?
      ensures Authorised(after, after.desk.actions[k])
    {
      assert Authorised(s.durable, s.durable.desk.actions[k]);
    }
  }

  lemma StepKeepsGood(s: Server, op: Operation)
    requires Good(s)
    ensures Good(Step(s, op).0) && Grows(s.durable, Step(s, op).0.durable)
    ensures var answer := Step(s, op).1;
            answer.Some? && answer.value.1.Returned? ==>
              && answer.value.0 in Step(s, op).0.durable.results
              && Step(s, op).0.durable.results[answer.value.0] == answer.value.1.result
  {
    hide Confirm, Prepare, Workflow.Step, LogCoherent, AllAuthorised, Lifecycle, OperatorWork, Grows, Bounded;
    GrowsRefl(s.durable);
    match op
    case Preparing(plan, at) =>
      if FreshPlan(s.durable, plan) {
        PrepareKeepsGood(s, plan, at);
      }
    case Confirming(id, request, facts, now, fuse) => ConfirmKeepsGood(s, id, request, facts, now, fuse);
    case Restarting => NoMemoryBounded(s.max);
    case Working(work) =>
      if OperatorWork(work) {
        WorkingKeepsGood(s, work);
      }
  }

  // ---------------------------------------------------------------- every run

  /** The server after a run, and every answer a confirmation gave during it. */
  function Run(s: Server, ops: seq<Operation>): (Server, seq<(nat, Answer)>)
    decreases |ops|
  {
    if ops == [] then (s, [])
    else
      var (next, answer) := Step(s, ops[0]);
      var (last, answers) := Run(next, ops[1..]);
      (last, (if answer.Some? then [answer.value] else []) + answers)
  }

  ghost predicate Agrees(answers: seq<(nat, Answer)>, d: Durable) {
    forall k :: 0 <= k < |answers| && answers[k].1.Returned? ==>
      answers[k].0 in d.results && d.results[answers[k].0] == answers[k].1.result
  }

  lemma {:induction false} RunKeepsGood(s: Server, ops: seq<Operation>)
    requires Good(s)
    ensures Good(Run(s, ops).0) && Grows(s.durable, Run(s, ops).0.durable)
    ensures Agrees(Run(s, ops).1, Run(s, ops).0.durable)
    decreases |ops|
  {
    hide Step, Good, Grows;
    if ops == [] {
      GrowsRefl(s.durable);
    } else {
      StepKeepsGood(s, ops[0]);
      var (next, answer) := Step(s, ops[0]);
      RunKeepsGood(next, ops[1..]);
      var (last, answers) := Run(next, ops[1..]);
      GrowsTrans(s.durable, next.durable, last.durable);
      if answer.Some? && answer.value.1.Returned? {
        GrowsKeepsResult(next.durable, last.durable, answer.value.0);
      }
      AgreesExtend(answer, answers, last.durable);
    }
  }

  lemma GrowsKeepsResult(a: Durable, b: Durable, id: nat)
    requires Grows(a, b) && id in a.results
    ensures id in b.results && b.results[id] == a.results[id]
  {
  }

  lemma AgreesExtend(answer: Option<(nat, Answer)>, answers: seq<(nat, Answer)>, d: Durable)
    requires Agrees(answers, d)
    requires answer.Some? && answer.value.1.Returned? ==>
               answer.value.0 in d.results && d.results[answer.value.0] == answer.value.1.result
    ensures Agrees((if answer.Some? then [answer.value] else []) + answers, d)
  {
    if answer.Some? {
      var all := [answer.value] + answers;
      assert forall k :: 0 < k < |all| ==> all[k] == answers[k - 1];
    }
  }

  ghost predicate OneResultPerPlan(answers: seq<(nat, Answer)>) {
    forall x, y :: 0 <= x < |answers| && 0 <= y < |answers| ==>
      (answers[x].0 == answers[y].0 && answers[x].1.Returned? && answers[y].1.Returned? ==>
         answers[x].1 == answers[y].1)
  }

  /** Exactly-once confirmation. Over any sequence of preparations, confirmations that may
      lose the process after any durable step, restarts and operator work:
      all results returned for one plan are equal;
      there is at most one action row for a proposal of a plan;
      and every such row is for a proposal that the first recorded request of its plan
      selected, with that proposal's case and recommendation. */
  lemma ConfirmationIsExactlyOnce(s: Server, ops: seq<Operation>)
    requires Good(s)
    ensures OneResultPerPlan(Run(s, ops).1)
    ensures var last := Run(s, ops).0.durable;
            && (forall x, y :: 0 <= x < y < |last.desk.actions| ==> last.desk.actions[x].id != last.desk.actions[y].id)
            && AllAuthorised(last)
            && (forall id :: id in s.durable.requests ==>
                  id in last.requests && last.requests[id] == s.durable.requests[id])
  {
    hide Run;
    RunKeepsGood(s, ops);
  }

  /** The state a fresh installation starts from. */
  lemma EmptyServerIsGood(max: nat, lastReset: Option<int>)
    ensures Good(Server(Durable(map[], map[], map[], lastReset, Desk([], [])), NO_MEMORY, max))
  {
  }
}
