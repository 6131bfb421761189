/** Confirming a command plan (commands/service.py, commands/executor.py): a short-lived
    registry over a durable log, with a commit after every piece of work and a process that
    may be lost after any of them. */
module Confirmation {
  import opened Domain
  import opened Recommendations
  import opened Workflow
  import opened PlanRegistry

  /** `chosen` is the set of proposal identities named by the operator; naming none means all. */
  datatype ConfirmRequest = ConfirmRequest(chosen: set<nat>, operator: string)

  /** The durable side: three kinds of audit events, each under an identity derived from the
      plan, the date of the latest reset, and the action table. */
  datatype Durable = Durable(
    plans: map<nat, Plan>, requests: map<nat, ConfirmRequest>, results: map<nat, Result>, lastReset: Option<int>,
    desk: Desk)

  datatype Server = Server(durable: Durable, memory: Memory, max: nat)

  /** The cases an executor finds, and what is recommended for them at that moment. */
  type Facts = nat -> Option<Recommendation>

  datatype Answer = Returned(result: Result) | PlanNotFound | PlanExpired | Lost

  // ---------------------------------------------------------------- selection

  function ConfirmationActions(proposals: seq<Proposal>): (r: seq<Proposal>)
    ensures forall p :: p in r <==> p in proposals && p.requiresConfirmation
  {
    if proposals == [] then []
    else if proposals[0].requiresConfirmation then [proposals[0]] + ConfirmationActions(proposals[1..])
    else ConfirmationActions(proposals[1..])
  }

  function Chosen(proposals: seq<Proposal>, chosen: set<nat>): (r: seq<Proposal>)
    ensures forall p :: p in r <==> p in proposals && p.id in chosen
  {
    if proposals == [] then []
    else if proposals[0].id in chosen then [proposals[0]] + Chosen(proposals[1..], chosen)
    else Chosen(proposals[1..], chosen)
  }

  function Selected(plan: Plan, request: ConfirmRequest): seq<Proposal> {
    var actions := ConfirmationActions(plan.proposals);
    if request.chosen != {} then Chosen(actions, request.chosen) else actions
  }

  function WarningsOf(plan: Plan, request: ConfirmRequest): Warnings {
    var actions := ConfirmationActions(plan.proposals);
    var known := set p | p in actions :: p.id;
    Warnings(|request.chosen - known|,
             request.chosen != {} && |Selected(plan, request)| < |actions|,
             Selected(plan, request) == [])
  }

  // ---------------------------------------------------------------- the executor

  function Propose(d: Desk, plan: nat, p: Proposal, facts: Facts): (Desk, ProposalOutcome) {
    var rec := facts(p.caseId);
    if rec.None? || p.workflow.None? then (d, NotExecutable(p.id))
    else
      var (after, outcome) := Create(d, p.caseId, rec.value, p.workflow, Some(FromCommand(plan, p.id)));
      match outcome
      case Done(row) => (after, ExecutedProposal(p.id, row, after.actions[row].status))
      case Failed(why) => (after, FailedProposal(p.id, why))
  }

  /** Work off the first `k` selected proposals. */
  function RunProposals(d: Desk, plan: nat, selected: seq<Proposal>, facts: Facts,
                        k: nat): (r: (Desk, seq<ProposalOutcome>))
    requires k <= |selected|
    ensures |r.1| == k
  {
    if k == 0 then (d, [])
    else
      var (before, outcomes) := RunProposals(d, plan, selected, facts, k - 1);
      var (after, outcome) := Propose(before, plan, selected[k - 1], facts);
      (after, outcomes + [outcome])
  }

  predicate AnyExecuted(outcomes: seq<ProposalOutcome>) {
    exists k :: 0 <= k < |outcomes| && outcomes[k].ExecutedProposal?
  }

  function ResultOf(plan: Plan, request: ConfirmRequest, outcomes: seq<ProposalOutcome>): Result {
    Result(plan.id, AnyExecuted(outcomes), outcomes, WarningsOf(plan, request))
  }

  // ---------------------------------------------------------------- the durable steps of one confirmation

  function RequestInForce(d: Durable, plan: nat, request: ConfirmRequest): ConfirmRequest {
    if plan in d.requests then d.requests[plan] else request
  }

  /** One step for the request, one for each selected proposal, one for the result. */
  function StepCount(d: Durable, plan: Plan, request: ConfirmRequest): nat {
    |Selected(plan, RequestInForce(d, plan.id, request))| + 2
  }

  /** The outcomes of a whole confirmation. */
  function OutcomesOf(d: Durable, plan: Plan, request: ConfirmRequest, facts: Facts): seq<ProposalOutcome> {
    var selected := Selected(plan, RequestInForce(d, plan.id, request));
    RunProposals(d.desk, plan.id, selected, facts, |selected|).1
  }

  function FinalResult(d: Durable, plan: Plan, request: ConfirmRequest, facts: Facts): Result {
    ResultOf(plan, RequestInForce(d, plan.id, request), OutcomesOf(d, plan, request, facts))
  }

  /** The durable state after the first `steps` steps of a confirmation. */
  function Work(d: Durable, plan: Plan, request: ConfirmRequest, facts: Facts, steps: nat): Durable
    requires steps <= StepCount(d, plan, request)
  {
    if steps == 0 then d
    else
      var force := RequestInForce(d, plan.id, request);
      var selected := Selected(plan, force);
      var done := Min(steps - 1, |selected|);
      var worked := d.(requests := d.requests[plan.id := force],
                       desk := RunProposals(d.desk, plan.id, selected, facts, done).0);
      if steps < |selected| + 2 || plan.id in d.results then worked
      else worked.(results := d.results[plan.id := FinalResult(d, plan, request, facts)])
  }

  // ---------------------------------------------------------------- one confirmation

  /** A remembered result, in memory or else in the log. */
  function Previous(s: Server, id: nat): Option<Result> {
    match FindResult(s.memory.confirmations, id)
    case Some(r) => Some(r)
    case None => if id in s.durable.results then Some(s.durable.results[id]) else None
  }

  predicate PredatesReset(d: Durable, plan: Plan) {
    d.lastReset.Some? && d.lastReset.value > plan.createdAt
  }

  /** Claim the plan from the registry, or load it from the log. Only the log is checked
      against the latest reset. */
  function ObtainPlan(s: Server, id: nat, now: int): (Memory, Claim) {
    var (memory, claim) := ClaimPlan(s.memory, id, now);
    if !claim.ClaimNotFound? then (memory, claim)
    else if id !in s.durable.plans then (memory, ClaimNotFound)
    else
      var plan := s.durable.plans[id];
      if PredatesReset(s.durable, plan) || Expired(plan, now) then (memory, ClaimExpired) else (memory, Claimed(plan))
  }

  /** Confirm a plan. `fuse` is the number of durable steps after which the process is lost,
      if it is lost during this call. */
  function Confirm(s: Server, id: nat, request: ConfirmRequest, facts: Facts, now: int,
                   fuse: Option<nat>): (Server, Answer) {
    match Previous(s, id)
    case Some(result) => (s.(memory := TouchResult(s.memory, id)), Returned(result))
    case None =>
      var (memory, claim) := ObtainPlan(s, id, now);
      match claim
      case ClaimNotFound => (s.(memory := memory), PlanNotFound)
      case ClaimExpired => (s.(memory := memory), PlanExpired)
      case Claimed(plan) =>
        var total := StepCount(s.durable, plan, request);
        if fuse.Some? && fuse.value <= total then
          (Server(Work(s.durable, plan, request, facts, fuse.value), NO_MEMORY, s.max), Lost)
        else
          var result := FinalResult(s.durable, plan, request, facts);
          (Server(Work(s.durable, plan, request, facts, total), SaveResult(memory, result, s.max), s.max),
           Returned(result))
  }

  predicate Unrepeated(proposals: seq<Proposal>) {
    forall x, y :: 0 <= x < y < |proposals| ==> proposals[x].id != proposals[y].id
  }

  /** Prepare a plan: keep it in the registry, and in the log unless its identity is there. */
  function Prepare(s: Server, plan: Plan, now: int): Server {
    if !plan.requiresConfirmation then s
    else
      var plans := s.durable.plans;
      s.(memory := SavePlan(s.memory, plan, s.max, now),
         durable := s.durable.(plans := if plan.id in plans then plans else plans[plan.id := plan]))
  }

  // ---------------------------------------------------------------- in place

  class CommandService {
    const registry: Registry
    const desk: ActionDesk
    var plans: map<nat, Plan>
    var requests: map<nat, ConfirmRequest>
    var results: map<nat, Result>
    var lastReset: Option<int>

    ghost function State(): Server
      reads this, registry, desk
    {
      Server(Stored(), registry.State(), registry.maxPlans)
    }

    ghost function Stored(): Durable
      reads this, desk
    {
      Durable(plans, requests, results, lastReset, desk.State())
    }

    constructor (d: Durable, max: nat)
      ensures State() == Server(d, NO_MEMORY, max)
      ensures fresh(registry) && fresh(desk)
    {
      registry := new Registry(max);
      desk := new ActionDesk(d.desk);
      plans, requests, results, lastReset := d.plans, d.requests, d.results, d.lastReset;
    }

    method PreparePlan(plan: Plan, now: int)
      modifies this, registry
      ensures State() == Prepare(old(State()), plan, now)
    {
      registry.Save(plan, now);
      if plan.requiresConfirmation && plan.id !in plans {
        plans := plans[plan.id := plan];
      }
    }

    method LoadOrSaveRequest(id: nat, request: ConfirmRequest) returns (force: ConfirmRequest)
      modifies `requests
      ensures force == RequestInForce(old(Stored()), id, request)
      ensures requests == old(requests)[id := force]
    {
      if id in requests {
        force := requests[id];
        assert requests == requests[id := force];
      } else {
        requests := requests[id := request];
        force := request;
      }
    }

    method ProposeOne(plan: nat, p: Proposal, facts: Facts) returns (outcome: ProposalOutcome)
      modifies desk
      ensures (desk.State(), outcome) == Propose(old(desk.State()), plan, p, facts)
    {
      hide Create;
      var rec := facts(p.caseId);
      if rec.None? || p.workflow.None? {
        return NotExecutable(p.id);
      }
      var created := desk.CreateAction(p.caseId, rec.value, p.workflow, Some(FromCommand(plan, p.id)));
      match created {
        case Done(row) => outcome := ExecutedProposal(p.id, row, desk.actions[row].status);
        case Failed(why) => outcome := FailedProposal(p.id, why);
      }
    }

    /** Work off the selected proposals, or as many of them as the process lives to do. */
    method ExecuteSelected(plan: nat, selected: seq<Proposal>, facts: Facts, limit: nat)
        returns (outcomes: seq<ProposalOutcome>)
      requires limit <= |selected|
      modifies desk
      ensures (desk.State(), outcomes) == RunProposals(old(desk.State()), plan, selected, facts, limit)
    {
      hide Propose;
      outcomes := [];
      for k := 0 to limit
        invariant (desk.State(), outcomes) == RunProposals(old(desk.State()), plan, selected, facts, k)
      {
        var outcome := ProposeOne(plan, selected[k], facts);
        outcomes := outcomes + [outcome];
      }
    }

    method ObtainById(id: nat, now: int) returns (claim: Claim)
      modifies registry
      ensures (registry.State(), claim) == ObtainPlan(old(State()), id, now)
    {
      hide ClaimPlan;
      claim := registry.ClaimById(id, now);
      if claim.ClaimNotFound? && id in plans {
        var plan := plans[id];
        if (lastReset.Some? && lastReset.value > plan.createdAt) || Expired(plan, now) {
          return ClaimExpired;
        }
        claim := Claimed(plan);
      }
    }

    method ConfirmPlan(id: nat, request: ConfirmRequest, facts: Facts, now: int, fuse: Option<nat>)
        returns (answer: Answer)
      requires forall p :: p in plans ==> plans[p].id == p
      modifies this, registry, desk
      ensures (State(), answer) == Confirm(old(State()), id, request, facts, now, fuse)
    {
      hide RunProposals, Selected, WarningsOf, ObtainPlan, TouchResult, SaveResult;
      ghost var before := State();
      var remembered := registry.Confirmed(id);
      if remembered.Some? {
        return Returned(remembered.value);
      }
      NothingToTouch(before.memory, id);
      if id in results {
        return Returned(results[id]);
      }
      var claim := ObtainById(id, now);
      match claim {
        case ClaimNotFound => return PlanNotFound;
        case ClaimExpired => return PlanExpired;
        case Claimed(plan) =>
          ClaimedHasId(before, id, now);
          if fuse == Some(0) {
            registry.Clear();
            return Lost;
          }
          var force := LoadOrSaveRequest(id, request);
          var selected := Selected(plan, force);
          var limit := if fuse.Some? then Min(fuse.value - 1, |selected|) else |selected|;
          var outcomes := ExecuteSelected(id, selected, facts, limit);
          if fuse.Some? && fuse.value < |selected| + 2 {
            registry.Clear();
            return Lost;
          }
          var result := Result(id, AnyExecuted(outcomes), outcomes, WarningsOf(plan, force));
          results := results[id := result];
          if fuse == Some(|selected| + 2) {
            registry.Clear();
            return Lost;
          }
          registry.SaveConfirmation(result);
          answer := Returned(result);
      }
    }
  }

  lemma NothingToTouch(m: Memory, id: nat)
    requires FindResult(m.confirmations, id).None?
    ensures TouchResult(m, id) == m
  {
  }

  lemma ClaimedHasId(s: Server, id: nat, now: int)
    requires forall p :: p in s.durable.plans ==> s.durable.plans[p].id == p
    ensures var claim := ObtainPlan(s, id, now).1; claim.Claimed? ==> claim.plan.id == id
  {
  }
}
