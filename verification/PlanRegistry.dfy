/** The bounded in-memory registry of command plans and confirmation results
    (commands/service.py). An ordered dictionary is the sequence of its values, oldest first;
    the keys are the plan identities. */
module PlanRegistry {
  import opened Domain
  import opened Recommendations
  import opened Workflow

  datatype Proposal = Proposal(id: nat, caseId: nat, workflow: Option<Action>, requiresConfirmation: bool)

  datatype Plan = Plan(id: nat, createdAt: int, expiresAt: Option<int>, requiresConfirmation: bool,
                       proposals: seq<Proposal>)

  datatype ProposalOutcome =
    | ExecutedProposal(proposal: nat, row: nat, status: ActionStatus)
    | NotExecutable(ofProposal: nat)
    | FailedProposal(failed: nat, why: Failure)

  datatype Warnings = Warnings(ignored: nat, unselected: bool, nothingSelected: bool)

  datatype Result = Result(plan: nat, executed: bool, outcomes: seq<ProposalOutcome>, warnings: Warnings)

  predicate Expired(p: Plan, now: int) {
    p.expiresAt.Some? && p.expiresAt.value <= now
  }

  // ---------------------------------------------------------------- ordered dictionaries

  function FindPlan(plans: seq<Plan>, id: nat): (found: Option<Plan>)
    ensures found.Some? ==> found.value in plans && found.value.id == id
    ensures found.None? ==> forall k :: 0 <= k < |plans| ==> plans[k].id != id
  {
    if plans == [] then None else if plans[0].id == id then Some(plans[0]) else FindPlan(plans[1..], id)
  }

  function DropPlan(plans: seq<Plan>, id: nat): (rest: seq<Plan>)
    ensures |rest| <= |plans|
    ensures forall p :: p in rest <==> p in plans && p.id != id
  {
    if plans == [] then [] else if plans[0].id == id then DropPlan(plans[1..], id)
        else [plans[0]] + DropPlan(plans[1..], id)
  }

  function Unexpired(plans: seq<Plan>, now: int): (rest: seq<Plan>)
    ensures |rest| <= |plans|
    ensures forall p :: p in rest <==> p in plans && !Expired(p, now)
  {
    if plans == [] then []
    else if Expired(plans[0], now) then Unexpired(plans[1..], now)
    else [plans[0]] + Unexpired(plans[1..], now)
  }

  lemma UnexpiredNone(now: int)
    ensures Unexpired([], now) == []
  {
  }

  lemma {:induction false} UnexpiredSnoc(plans: seq<Plan>, p: Plan, now: int)
    ensures Unexpired(plans + [p], now) == Unexpired(plans, now) + (if Expired(p, now) then [] else [p])
  {
    hide Expired;
    if plans == [] {
      assert [p][1..] == [];
    } else {
      assert (plans + [p])[1..] == plans[1..] + [p];
      UnexpiredSnoc(plans[1..], p, now);
    }
  }

  function FindResult(results: seq<Result>, id: nat): (found: Option<Result>)
    ensures found.Some? ==> found.value in results && found.value.plan == id
    ensures found.None? ==> forall k :: 0 <= k < |results| ==> results[k].plan != id
  {
    if results == [] then None else if results[0].plan == id then Some(results[0]) else FindResult(results[1..], id)
  }

  function DropResult(results: seq<Result>, id: nat): (rest: seq<Result>)
    ensures |rest| <= |results|
    ensures forall r :: r in rest <==> r in results && r.plan != id
  {
    if results == [] then []
    else if results[0].plan == id then DropResult(results[1..], id)
    else [results[0]] + DropResult(results[1..], id)
  }

  /** The newest `max` entries. */
  function Newest<T>(items: seq<T>, max: nat): (kept: seq<T>)
    ensures |kept| <= max
  {
    if |items| <= max then items else items[|items| - max..]
  }

  datatype Memory = Memory(plans: seq<Plan>, confirmations: seq<Result>)

  const NO_MEMORY := Memory([], [])

  function SavePlan(m: Memory, plan: Plan, max: nat, now: int): Memory {
    if !plan.requiresConfirmation then m
    else m.(plans := Newest(DropPlan(Unexpired(m.plans, now), plan.id) + [plan], max))
  }

  function SaveResult(m: Memory, result: Result, max: nat): Memory {
    m.(confirmations := Newest(DropResult(m.confirmations, result.plan) + [result], max))
  }

  /** Looking a confirmation up makes it the most recently used. */
  function TouchResult(m: Memory, id: nat): Memory {
    match FindResult(m.confirmations, id)
    case None => m
    case Some(result) => m.(confirmations := DropResult(m.confirmations, id) + [result])
  }

  datatype Claim = Claimed(plan: Plan) | ClaimNotFound | ClaimExpired

  /** A claim removes the plan whether or not it turns out to have expired. */
  function ClaimPlan(m: Memory, id: nat, now: int): (Memory, Claim) {
    match FindPlan(m.plans, id)
    case None => (m, ClaimNotFound)
    case Some(plan) => (m.(plans := DropPlan(m.plans, id)), if Expired(plan, now) then ClaimExpired else Claimed(plan))
  }

  predicate DistinctPlans(plans: seq<Plan>) {
    forall x, y :: 0 <= x < y < |plans| ==> plans[x].id != plans[y].id
  }

  predicate DistinctResults(results: seq<Result>) {
    forall x, y :: 0 <= x < y < |results| ==> results[x].plan != results[y].plan
  }

  /** Both dictionaries have one entry per key and at most `max` entries. */
  predicate Bounded(m: Memory, max: nat) {
    && DistinctPlans(m.plans) && DistinctResults(m.confirmations)
    && |m.plans| <= max && |m.confirmations| <= max
  }

  lemma {:induction false} DropPlanDistinct(plans: seq<Plan>, id: nat)
    requires DistinctPlans(plans)
    ensures DistinctPlans(DropPlan(plans, id))
  {
    if plans != [] {
      DropPlanDistinct(plans[1..], id);
      PrependPlan(plans[0], DropPlan(plans[1..], id), plans[1..]);
    }
  }

  lemma PrependPlan(p: Plan, rest: seq<Plan>, source: seq<Plan>)
    requires DistinctPlans([p] + source) && DistinctPlans(rest)
    requires forall q :: q in rest ==> q in source
    ensures DistinctPlans([p] + rest)
  {
    forall y | 0 <= y < |rest|
      ensures rest[y].id != p.id
    {
      assert rest[y] in source;
      var k :| 0 <= k < |source| && source[k] == rest[y];
      assert ([p] + source)[0].id != ([p] + source)[k + 1].id;
    }
  }

  lemma {:induction false} UnexpiredDistinct(plans: seq<Plan>, now: int)
    requires DistinctPlans(plans)
    ensures DistinctPlans(Unexpired(plans, now))
  {
    if plans != [] {
      UnexpiredDistinct(plans[1..], now);
      assert plans == [plans[0]] + plans[1..];
      PrependPlan(plans[0], Unexpired(plans[1..], now), plans[1..]);
    }
  }

  lemma {:induction false} DropResultDistinct(results: seq<Result>, id: nat)
    requires DistinctResults(results)
    ensures DistinctResults(DropResult(results, id))
  {
    if results != [] {
      DropResultDistinct(results[1..], id);
      var rest := DropResult(results[1..], id);
      forall y | 0 <= y < |rest|
        ensures rest[y].plan != results[0].plan
      {
        assert rest[y] in results[1..];
      }
    }
  }

  /** What saving leaves once expired plans and the plan's own old entry are gone. */
  lemma LiveOthers(m: Memory, id: nat, now: int)
    ensures var others := DropPlan(Unexpired(m.plans, now), id);
            && (DistinctPlans(m.plans) ==> DistinctPlans(others))
            && forall p :: p in others ==> p in m.plans && p.id != id
  {
    if DistinctPlans(m.plans) {
      UnexpiredDistinct(m.plans, now);
      DropPlanDistinct(Unexpired(m.plans, now), id);
    }
  }

  lemma AppendDistinct(others: seq<Plan>, plan: Plan)
    requires DistinctPlans(others) && forall p :: p in others ==> p.id != plan.id
    ensures DistinctPlans(others + [plan])
  {
    assert forall k :: 0 <= k < |others| ==> others[k] in others;
  }

  lemma NewestDistinct(plans: seq<Plan>, max: nat)
    requires DistinctPlans(plans)
    ensures DistinctPlans(Newest(plans, max))
  {
  }

  lemma SavePlanBounded(m: Memory, plan: Plan, max: nat, now: int)
    requires Bounded(m, max)
    ensures Bounded(SavePlan(m, plan, max, now), max)
  {
    hide Unexpired, DropPlan, DistinctPlans, DistinctResults;
    var others := DropPlan(Unexpired(m.plans, now), plan.id);
    LiveOthers(m, plan.id, now);
    AppendDistinct(others, plan);
    NewestDistinct(others + [plan], max);
  }

  lemma SavePlanKeepsIt(m: Memory, plan: Plan, max: nat, now: int)
    requires plan.requiresConfirmation && 0 < max
    ensures plan in SavePlan(m, plan, max, now).plans
  {
    hide Unexpired, DropPlan;
    var kept := SavePlan(m, plan, max, now).plans;
    assert kept[|kept| - 1] == plan;
  }

  lemma SavePlanInventsNone(m: Memory, plan: Plan, max: nat, now: int)
    ensures forall p :: p in SavePlan(m, plan, max, now).plans ==> p == plan || p in m.plans
  {
    hide Unexpired, DropPlan;
    var others := DropPlan(Unexpired(m.plans, now), plan.id);
    LiveOthers(m, plan.id, now);
    assert forall p :: p in Newest(others + [plan], max) ==> p in others + [plan];
  }

  lemma SaveResultBounded(m: Memory, result: Result, max: nat)
    requires Bounded(m, max)
    ensures Bounded(SaveResult(m, result, max), max)
    ensures forall r :: r in SaveResult(m, result, max).confirmations ==> r == result || r in m.confirmations
  {
    DropResultDistinct(m.confirmations, result.plan);
    var others := DropResult(m.confirmations, result.plan);
    assert forall k :: 0 <= k < |others| ==> others[k] in others;
    assert DistinctResults(others + [result]);
  }

  lemma DropResultShrinks(results: seq<Result>, id: nat)
    requires FindResult(results, id).Some?
    ensures |DropResult(results, id)| < |results|
  {
  }

  lemma TouchResultBounded(m: Memory, id: nat, max: nat)
    requires Bounded(m, max)
    ensures Bounded(TouchResult(m, id), max)
    ensures forall r :: r in TouchResult(m, id).confirmations <==> r in m.confirmations
  {
    match FindResult(m.confirmations, id) {
      case None =>
      case Some(result) =>
        DropResultDistinct(m.confirmations, id);
        DropResultShrinks(m.confirmations, id);
        var others := DropResult(m.confirmations, id);
        assert forall k :: 0 <= k < |others| ==> others[k] in others;
        forall r | r in m.confirmations && r.plan == id
          ensures r == result
        {
        }
    }
  }

  lemma ClaimPlanBounded(m: Memory, id: nat, max: nat, now: int)
    requires Bounded(m, max)
    ensures Bounded(ClaimPlan(m, id, now).0, max)
  {
    DropPlanDistinct(m.plans, id);
  }

  // ---------------------------------------------------------------- in place

  /** Drop the oldest entry while there are too many. */
  method PopOldest<T>(items: seq<T>, max: nat) returns (kept: seq<T>)
    ensures kept == Newest(items, max)
  {
    kept := items;
    while |kept| > max
      invariant |kept| <= |items| && kept == items[|items| - |kept|..]
      invariant |kept| >= max || kept == items
      decreases |kept|
    {
      kept := kept[1..];
    }
  }

  class Registry {
    const maxPlans: nat
    var plans: seq<Plan>
    var confirmations: seq<Result>

    ghost function State(): Memory
      reads this
    {
      Memory(plans, confirmations)
    }

    constructor (max: nat)
      ensures State() == NO_MEMORY && maxPlans == max
    {
      maxPlans, plans, confirmations := max, [], [];
    }

    method PurgeExpired(now: int)
      modifies `plans
      ensures plans == Unexpired(old(plans), now)
    {
      hide Unexpired, Expired;
      var kept := [];
      assert Unexpired(plans[..0], now) == [] by { UnexpiredNone(now); }
      for i := 0 to |plans|
        invariant plans == old(plans)
        invariant kept == Unexpired(plans[..i], now)
      {
        assert plans[..i + 1] == plans[..i] + [plans[i]];
        UnexpiredSnoc(plans[..i], plans[i], now);
        if !Expired(plans[i], now) {
          kept := kept + [plans[i]];
        }
      }
      assert plans[..|plans|] == plans;
      plans := kept;
    }

    method Save(plan: Plan, now: int)
      modifies `plans
      ensures State() == SavePlan(old(State()), plan, maxPlans, now)
    {
      if !plan.requiresConfirmation {
        return;
      }
      hide DropPlan, Unexpired;
      PurgeExpired(now);
      plans := PopOldest(DropPlan(plans, plan.id) + [plan], maxPlans);
    }

    method ClaimById(id: nat, now: int) returns (claim: Claim)
      modifies `plans
      ensures (State(), claim) == ClaimPlan(old(State()), id, now)
    {
      var found := FindPlan(plans, id);
      if found.None? {
        return ClaimNotFound;
      }
      plans := DropPlan(plans, id);
      claim := if Expired(found.value, now) then ClaimExpired else Claimed(found.value);
    }

    method Confirmed(id: nat) returns (result: Option<Result>)
      modifies `confirmations
      ensures result == FindResult(old(confirmations), id)
      ensures State() == TouchResult(old(State()), id)
    {
      result := FindResult(confirmations, id);
      if result.Some? {
        confirmations := DropResult(confirmations, id) + [result.value];
      }
    }

    method SaveConfirmation(result: Result)
      modifies `confirmations
      ensures State() == SaveResult(old(State()), result, maxPlans)
    {
      confirmations := PopOldest(DropResult(confirmations, result.plan) + [result], maxPlans);
    }

    method Clear()
      modifies this
      ensures State() == NO_MEMORY
    {
      plans, confirmations := [], [];
    }
  }
}
