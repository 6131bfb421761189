/** The approval-controlled action lifecycle (workflow/service.py). The current recommendation
    of a case is an input of every operation that consults it, so the theorems hold whatever
    the facts do between two operations. */
module Workflow {
  import opened Domain
  import opened Engine
  import opened Recommendations

  /** Row identities: the name-based identity of a confirmed proposal, or a fresh one. */
  datatype ActionId = FromCommand(plan: nat, proposal: nat) | FreshId(n: nat)

  datatype ActionRow = ActionRow(
    id: ActionId, caseId: nat, recommendation: Action, kind: ActionType, status: ActionStatus, approvalRequired: bool)

  datatype AuditKind = WasRecommended | WasApproved | WasRejected | WasHeld | WasCancelled | WasExecuted | WasBlocked

  datatype WorkflowAudit = OfAction(id: ActionId, kind: AuditKind) | ReadinessBlocked(ofCase: nat)

  datatype Desk = Desk(actions: seq<ActionRow>, audits: seq<WorkflowAudit>)

  datatype Failure =
    | BoundElsewhere | StaleRecommendation | NothingToExecute | CaseFinished | DisputeBlocks | OutreachForbidden
    | AdvisoryOnly | DuplicateWork | NotAllowedInState

  datatype Outcome = Done(row: nat) | Failed(why: Failure)

  function ActionTypeOf(a: Action): Option<ActionType> {
    match a
    case SendPaymentReminder => Some(Outreach)
    case RequestPaymentDate => Some(FollowUp)
    case MonitorActivePromise => Some(Note)
    case ReviewPaymentClaim => Some(Note)
    case HoldForDispute => Some(Note)
    case PrepareEscalation => Some(EscalateAction)
    case EscalateToHuman => Some(EscalateAction)
    case NoActionRequired => None
  }

  /** Why the current facts do not allow work on a recommendation, if they do not. */
  function FactsForbid(rec: Recommendation): Option<Failure> {
    if rec.action.NoActionRequired? then Some(NothingToExecute)
    else if rec.recoveryState.Closed? || rec.recoveryState.Resolved? then Some(CaseFinished)
    else if ActiveDispute in rec.blockers && IsOutreach(rec.action) then Some(DisputeBlocks)
    else if IsOutreach(rec.action) && rec.communicationBlockers != {} then Some(OutreachForbidden)
    else None
  }

  predicate Live(s: ActionStatus) {
    s.RecommendedStatus? || s.PendingApproval? || s.Approved? || s.Held?
  }

  predicate HasWork(actions: seq<ActionRow>, caseId: nat, a: Action) {
    exists k :: 0 <= k < |actions| && actions[k].caseId == caseId && actions[k].recommendation == a
                && (Live(actions[k].status) || actions[k].status.Executed?)
  }

  function FindAction(actions: seq<ActionRow>, id: ActionId, from: nat): (found: Option<nat>)
    requires from <= |actions|
    ensures found.Some? ==> from <= found.value < |actions| && actions[found.value].id == id
    ensures found.None? ==> forall k :: from <= k < |actions| ==> actions[k].id != id
    decreases |actions| - from
  {
    if from == |actions| then None
    else if actions[from].id == id then Some(from)
    else FindAction(actions, id, from + 1)
  }

  // ---------------------------------------------------------------- operations

  function Create(d: Desk, caseId: nat, rec: Recommendation, expected: Option<Action>,
                  key: Option<ActionId>): (r: (Desk, Outcome))
    ensures r.1.Done? ==> r.1.row < |r.0.actions|
  {
    var existing := if key.Some? then FindAction(d.actions, key.value, 0) else None;
    if existing.Some? then
      var row := d.actions[existing.value];
      if row.caseId != caseId || (expected.Some? && row.recommendation != expected.value)
          then (d, Failed(BoundElsewhere))
      else (d, Done(existing.value))
    else if expected.Some? && rec.action != expected.value then (d, Failed(StaleRecommendation))
    else
      match FactsForbid(rec)
      case Some(why) => (d.(audits := d.audits + [ReadinessBlocked(caseId)]), Failed(why))
      case None =>
        match ActionTypeOf(rec.action)
        case None => (d, Failed(AdvisoryOnly))
        case Some(kind) =>
          if HasWork(d.actions, caseId, rec.action) then (d, Failed(DuplicateWork))
          else
            var id := if key.Some? then key.value else FreshId(|d.actions|);
            var status := if rec.approvalRequired then PendingApproval else RecommendedStatus;
            (Desk(d.actions + [ActionRow(id, caseId, rec.action, kind, status, rec.approvalRequired)],
                  d.audits + [OfAction(id, WasRecommended)]),
             Done(|d.actions|))
  }

  /** Set the status of a row and audit it. */
  function SetStatus(d: Desk, row: nat, status: ActionStatus, kind: AuditKind): Desk
    requires row < |d.actions|
  {
    Desk(d.actions[row := d.actions[row].(status := status)], d.audits + [OfAction(d.actions[row].id, kind)])
  }

  function Approve(d: Desk, row: nat): (Desk, Outcome)
    requires row < |d.actions|
  {
    if !d.actions[row].status.PendingApproval? then (d, Failed(NotAllowedInState))
    else (SetStatus(d, row, Approved, WasApproved), Done(row))
  }

  predicate Open(s: ActionStatus) {
    s.RecommendedStatus? || s.PendingApproval? || s.Approved?
  }

  function Reject(d: Desk, row: nat): (Desk, Outcome)
    requires row < |d.actions|
  {
    if !Open(d.actions[row].status) then (d, Failed(NotAllowedInState))
    else (SetStatus(d, row, Rejected, WasRejected), Done(row))
  }

  function Hold(d: Desk, row: nat): (Desk, Outcome)
    requires row < |d.actions|
  {
    if !Open(d.actions[row].status) then (d, Failed(NotAllowedInState))
    else (SetStatus(d, row, Held, WasHeld), Done(row))
  }

  function Cancel(d: Desk, row: nat): (Desk, Outcome)
    requires row < |d.actions|
  {
    if d.actions[row].status.Executed? || d.actions[row].status.CancelledAction? then (d, Failed(NotAllowedInState))
    else (SetStatus(d, row, CancelledAction, WasCancelled), Done(row))
  }

  /** Why a row cannot be executed under the current recommendation, if it cannot. */
  function ExecutionForbidden(row: ActionRow, rec: Recommendation): Option<Failure> {
    if row.status.Executed? || row.status.Rejected? || row.status.Held? || row.status.CancelledAction?
        then Some(NotAllowedInState)
    else if row.approvalRequired && !row.status.Approved? then Some(NotAllowedInState)
    else if !row.status.RecommendedStatus? && !row.status.Approved? then Some(NotAllowedInState)
    else if FactsForbid(rec).Some? then FactsForbid(rec)
    else if ActiveDispute in rec.blockers && IsOutreach(row.recommendation) then Some(DisputeBlocks)
    else if row.recommendation != rec.action then Some(StaleRecommendation)
    else None
  }

  function Execute(d: Desk, row: nat, rec: Recommendation): (Desk, Outcome)
    requires row < |d.actions|
  {
    match ExecutionForbidden(d.actions[row], rec)
    case Some(why) => (d.(audits := d.audits + [OfAction(d.actions[row].id, WasBlocked)]), Failed(why))
    case None => (SetStatus(d, row, Executed, WasExecuted), Done(row))
  }

  // ---------------------------------------------------------------- in place

  class ActionDesk {
    var actions: seq<ActionRow>
    var audits: seq<WorkflowAudit>

    ghost function State(): Desk
      reads this
    {
      Desk(actions, audits)
    }

    constructor (d: Desk)
      ensures State() == d
    {
      actions, audits := d.actions, d.audits;
    }

    method CreateAction(caseId: nat, rec: Recommendation, expected: Option<Action>, key: Option<ActionId>)
        returns (outcome: Outcome)
      modifies this
      ensures (State(), outcome) == Create(old(State()), caseId, rec, expected, key)
    {
      if key.Some? {
        var existing := FindAction(actions, key.value, 0);
        if existing.Some? {
          var row := actions[existing.value];
          if row.caseId != caseId || (expected.Some? && row.recommendation != expected.value) {
            return Failed(BoundElsewhere);
          }
          return Done(existing.value);
        }
      }
      if expected.Some? && rec.action != expected.value {
        return Failed(StaleRecommendation);
      }
      var forbidden := FactsForbid(rec);
      if forbidden.Some? {
        audits := audits + [ReadinessBlocked(caseId)];
        return Failed(forbidden.value);
      }
      var kind := ActionTypeOf(rec.action);
      if kind.None? {
        return Failed(AdvisoryOnly);
      }
      if HasWork(actions, caseId, rec.action) {
        return Failed(DuplicateWork);
      }
      var id := if key.Some? then key.value else FreshId(|actions|);
      var status := if rec.approvalRequired then PendingApproval else RecommendedStatus;
      outcome := Done(|actions|);
      actions := actions + [ActionRow(id, caseId, rec.action, kind.value, status, rec.approvalRequired)];
      audits := audits + [OfAction(id, WasRecommended)];
    }

    method ApproveAction(row: nat) returns (outcome: Outcome)
      requires row < |actions|
      modifies this
      ensures (State(), outcome) == Approve(old(State()), row)
    {
      var a := actions[row];
      if a.status != PendingApproval {
        return Failed(NotAllowedInState);
      }
      actions := actions[row := a.(status := Approved)];
      audits := audits + [OfAction(a.id, WasApproved)];
      outcome := Done(row);
    }

    method RejectAction(row: nat) returns (outcome: Outcome)
      requires row < |actions|
      modifies this
      ensures (State(), outcome) == Reject(old(State()), row)
    {
      var a := actions[row];
      if a.status !in {RecommendedStatus, PendingApproval, Approved} {
        return Failed(NotAllowedInState);
      }
      actions := actions[row := a.(status := Rejected)];
      audits := audits + [OfAction(a.id, WasRejected)];
      outcome := Done(row);
    }

    method HoldAction(row: nat) returns (outcome: Outcome)
      requires row < |actions|
      modifies this
      ensures (State(), outcome) == Hold(old(State()), row)
    {
      var a := actions[row];
      if a.status !in {RecommendedStatus, PendingApproval, Approved} {
        return Failed(NotAllowedInState);
      }
      actions := actions[row := a.(status := Held)];
      audits := audits + [OfAction(a.id, WasHeld)];
      outcome := Done(row);
    }

    method CancelAction(row: nat) returns (outcome: Outcome)
      requires row < |actions|
      modifies this
      ensures (State(), outcome) == Cancel(old(State()), row)
    {
      var a := actions[row];
      if a.status in {Executed, CancelledAction} {
        return Failed(NotAllowedInState);
      }
      actions := actions[row := a.(status := CancelledAction)];
      audits := audits + [OfAction(a.id, WasCancelled)];
      outcome := Done(row);
    }

    method ExecutionBlocked(row: nat, why: Failure) returns (outcome: Outcome)
      requires row < |actions|
      modifies `audits
      ensures outcome == Failed(why) && audits == old(audits) + [OfAction(actions[row].id, WasBlocked)]
    {
      audits := audits + [OfAction(actions[row].id, WasBlocked)];
      outcome := Failed(why);
    }

    method ExecuteAction(row: nat, rec: Recommendation) returns (outcome: Outcome)
      requires row < |actions|
      modifies this
      ensures (State(), outcome) == Execute(old(State()), row, rec)
    {
      var a := actions[row];
      if a.status in {Executed, Rejected, Held, CancelledAction} {
        outcome := ExecutionBlocked(row, NotAllowedInState);
        return;
      }
      if a.approvalRequired && a.status != Approved {
        outcome := ExecutionBlocked(row, NotAllowedInState);
        return;
      }
      if a.status !in {RecommendedStatus, Approved} {
        outcome := ExecutionBlocked(row, NotAllowedInState);
        return;
      }
      var forbidden := FactsForbid(rec);
      if forbidden.Some? {
        outcome := ExecutionBlocked(row, forbidden.value);
        return;
      }
      if ActiveDispute in rec.blockers && IsOutreach(a.recommendation) {
        outcome := ExecutionBlocked(row, DisputeBlocks);
        return;
      }
      if a.recommendation != rec.action {
        outcome := ExecutionBlocked(row, StaleRecommendation);
        return;
      }
      actions := actions[row := a.(status := Executed)];
      audits := audits + [OfAction(a.id, WasExecuted)];
      outcome := Done(row);
    }
  }

  // ---------------------------------------------------------------- one step of a run

  datatype Operation =
    | Creating(caseId: nat, rec: Recommendation, expected: Option<Action>, key: Option<ActionId>)
    | Approving(row: nat)
    | Rejecting(row: nat)
    | Holding(row: nat)
    | Cancelling(row: nat)
    | Executing(row: nat, current: Recommendation)

  /** An operation on a row that does not exist does nothing. Callers do not choose fresh
      identities. */
  function Step(d: Desk, op: Operation): Desk {
    match op
    case Creating(caseId, rec, expected, key) =>
      if key.Some? && key.value.FreshId? then d else Create(d, caseId, rec, expected, key).0
    case Approving(row) => if |d.actions| <= row then d else Approve(d, row).0
    case Rejecting(row) => if |d.actions| <= row then d else Reject(d, row).0
    case Holding(row) => if |d.actions| <= row then d else Hold(d, row).0
    case Cancelling(row) => if |d.actions| <= row then d else Cancel(d, row).0
    case Executing(row, rec) => if |d.actions| <= row then d else Execute(d, row, rec).0
  }

  function Run(d: Desk, ops: seq<Operation>): Desk
    decreases |ops|
  {
    if ops == [] then d else Run(Step(d, ops[0]), ops[1..])
  }

  /** Work for this case and recommendation that is still open, on hold or done. */
  predicate WorkExists(actions: seq<ActionRow>, caseId: nat, a: Action) {
    exists k :: 0 <= k < |actions| && actions[k].caseId == caseId && actions[k].recommendation == a
      && actions[k].status in {RecommendedStatus, PendingApproval, Approved, Held, Executed}
  }

  /** A recommendation on which work may start: an action of an unfinished case, and for outreach
      no dispute and permission to contact. */
  predicate Workable(rec: Recommendation) {
    && rec.action != NoActionRequired && rec.recoveryState !in {Closed, Resolved}
    && (rec.action in {SendPaymentReminder, RequestPaymentDate} ==>
          ActiveDispute !in rec.blockers && rec.communicationBlockers == {})
  }

  /** When a row is created, and which one. It is created if and only if the identity is new, the
      expected action is the current one, work may start on it, and there is no such work for
      the case; it then waits for approval if and only if that is required, at the end of the
      table, under the given identity, and nothing else in the table changes. */
  lemma CreateExactly(d: Desk, caseId: nat, rec: Recommendation, expected: Option<Action>, key: Option<ActionId>)
    ensures var (after, outcome) := Create(d, caseId, rec, expected, key);
            var known := key.Some? && HasId(d.actions, key.value);
            var creates := && !known && (expected == None || expected == Some(rec.action))
                           && Workable(rec) && !WorkExists(d.actions, caseId, rec.action);
            && after.actions == (if !creates then d.actions
                                 else d.actions + [ActionRow(
                                   if key.Some? then key.value else FreshId(|d.actions|), caseId, rec.action,
                                   KindFor(rec.action),
                                   if rec.approvalRequired then PendingApproval else RecommendedStatus,
                                   rec.approvalRequired)])
            && (outcome.Done? ==> known || creates)
            && (creates ==> outcome == Done(|d.actions|))
  {
    hide FindAction;
    assert HasWork(d.actions, caseId, rec.action) <==> WorkExists(d.actions, caseId, rec.action);
  }

  /** A known identity answers with its row exactly when the row is for the same case and, if an
      action is expected, the same action. */
  lemma ReplayExactly(d: Desk, caseId: nat, rec: Recommendation, expected: Option<Action>, id: ActionId)
    requires HasId(d.actions, id) && IdsDistinct(d)
    ensures var (after, outcome) := Create(d, caseId, rec, expected, Some(id));
            && after == d
            && (outcome.Done? <==>
                  exists row :: && row in d.actions && row.id == id && row.caseId == caseId
                                && (expected == None || expected == Some(row.recommendation)))
            && (outcome.Done? ==> outcome.row < |d.actions| && d.actions[outcome.row].id == id)
  {
    hide FindAction;
    var at := FindAction(d.actions, id, 0);
    var x :| 0 <= x < |d.actions| && d.actions[x].id == id;
    assert forall y :: 0 <= y < |d.actions| && d.actions[y].id == id ==> y == x;
  }

  /** The kind of work a recommendation calls for. */
  function KindFor(a: Action): ActionType {
    if a == SendPaymentReminder then Outreach
    else if a == RequestPaymentDate then FollowUp
    else if a in {PrepareEscalation, EscalateToHuman} then EscalateAction
    else Note
  }

  /** A row is executed by a step exactly when it may be: recommended without need of approval
      or approved, the facts allow it, and the stored recommendation is the current one. */
  lemma ExecutesExactlyWhenCurrent(d: Desk, row: nat, rec: Recommendation)
    requires row < |d.actions| && !d.actions[row].status.Executed?
    ensures var a := d.actions[row];
            Execute(d, row, rec).0.actions[row].status.Executed? <==>
              && (a.status.Approved? || (a.status.RecommendedStatus? && !a.approvalRequired))
              && a.recommendation == rec.action
              && !rec.action.NoActionRequired?
              && !rec.recoveryState.Closed? && !rec.recoveryState.Resolved?
              && (IsOutreach(rec.action) ==> ActiveDispute !in rec.blockers && rec.communicationBlockers == {})
  {
  }

  /** Which status may follow which; only an execution asks whether approval was required. */
  predicate MayBecome(from: ActionStatus, to: ActionStatus, approvalRequired: bool) {
    match to
    case Approved => from.PendingApproval?
    case Rejected => Open(from)
    case Held => Open(from)
    case CancelledAction => !from.Executed? && !from.CancelledAction?
    case Executed => from.Approved? || (from.RecommendedStatus? && !approvalRequired)
    case _ => false
  }

  /** The row an operator's decision is about, and the status it asks for. */
  function Asks(op: Operation): Option<(nat, ActionStatus)> {
    match op
    case Creating(_, _, _, _) => None
    case Approving(row) => Some((row, Approved))
    case Rejecting(row) => Some((row, Rejected))
    case Holding(row) => Some((row, Held))
    case Cancelling(row) => Some((row, CancelledAction))
    case Executing(row, _) => Some((row, Executed))
  }

  /** One step changes at most the status of the one row it is about, to the status it asks
      for, and only along the status graph; a decision that the graph allows takes effect,
      except that an execution also depends on the facts. */
  lemma StepFollowsTheGraph(d: Desk, op: Operation, x: nat)
    requires x < |d.actions|
    ensures var a := d.actions[x];
            && |d.actions| <= |Step(d, op).actions| <= |d.actions| + 1
            && var after := Step(d, op).actions[x];
               && after == a.(status := after.status)
               && (after != a ==>
                     Asks(op) == Some((x, after.status)) && MayBecome(a.status, after.status, a.approvalRequired))
               && (!op.Executing? && Asks(op).Some? && Asks(op).value.0 == x ==>
                     MayBecome(a.status, Asks(op).value.1, a.approvalRequired) ==> after.status == Asks(op).value.1)
  {
    hide HasWork, FactsForbid, ActionTypeOf;
  }

  // ---------------------------------------------------------------- invariants

  ghost predicate IdsDistinct(d: Desk) {
    && (forall x, y :: 0 <= x < y < |d.actions| ==> d.actions[x].id != d.actions[y].id)
    && (forall x :: 0 <= x < |d.actions| ==> d.actions[x].id.FreshId? ==> d.actions[x].id.n == x)
  }

  predicate Occupies(a: ActionRow) {
    Live(a.status) || a.status.Executed?
  }

  /** At most one row per case and recommendation is live or executed. */
  ghost predicate WorkUnique(d: Desk) {
    forall x, y :: 0 <= x < y < |d.actions| && Occupies(d.actions[x]) && Occupies(d.actions[y]) ==>
      d.actions[x].caseId != d.actions[y].caseId || d.actions[x].recommendation != d.actions[y].recommendation
  }

  predicate ChangesStatus(k: AuditKind) {
    k.WasApproved? || k.WasRejected? || k.WasHeld? || k.WasCancelled? || k.WasExecuted?
  }

  function ChangeCount(audits: seq<WorkflowAudit>, id: ActionId): nat {
    if audits == [] then 0
    else
      var last := audits[|audits| - 1];
      ChangeCount(audits[..|audits| - 1], id)
          + (if last.OfAction? && last.id == id && ChangesStatus(last.kind) then 1 else 0)
  }

  function ExecutionCount(audits: seq<WorkflowAudit>, id: ActionId): nat {
    if audits == [] then 0
    else
      var last := audits[|audits| - 1];
      ExecutionCount(audits[..|audits| - 1], id) + (if last == OfAction(id, WasExecuted) then 1 else 0)
  }

  /** How many status changes a row can still go through. */
  function ChangesLeft(s: ActionStatus): int {
    match s
    case PendingApproval => 3
    case RecommendedStatus => 2
    case Approved => 2
    case Rejected => 1
    case Held => 1
    case _ => 0
  }

  ghost predicate ApprovedEarlier(audits: seq<WorkflowAudit>, id: ActionId, before: nat) {
    exists x :: 0 <= x < |audits| && x < before && audits[x] == OfAction(id, WasApproved)
  }

  /** What the audit trail says of one row. */
  ghost predicate RowAudited(a: ActionRow, audits: seq<WorkflowAudit>) {
    && !a.status.Planned? && !a.status.FailedAction?
    && ChangeCount(audits, a.id) + ChangesLeft(a.status) <= 3
    && ExecutionCount(audits, a.id) == (if a.status.Executed? then 1 else 0)
    && (a.status.Approved? ==> ApprovedEarlier(audits, a.id, |audits|))
    && !(a.approvalRequired && a.status.RecommendedStatus?)
    && (forall y :: 0 <= y < |audits| && a.approvalRequired && audits[y] == OfAction(a.id, WasExecuted) ==>
          ApprovedEarlier(audits, a.id, y))
  }

  ghost predicate Audited(d: Desk) {
    && (forall x :: 0 <= x < |d.actions| ==> RowAudited(d.actions[x], d.audits))
    && (forall y :: 0 <= y < |d.audits| && d.audits[y].OfAction? ==> HasId(d.actions, d.audits[y].id))
  }

  predicate HasId(actions: seq<ActionRow>, id: ActionId) {
    exists x :: 0 <= x < |actions| && actions[x].id == id
  }

  ghost predicate Lifecycle(d: Desk) {
    IdsDistinct(d) && WorkUnique(d) && Audited(d)
  }

  // ---------------------------------------------------------------- counting lemmas

  lemma CountsAppend(audits: seq<WorkflowAudit>, e: WorkflowAudit, id: ActionId)
    ensures ChangeCount(audits + [e], id)
         == ChangeCount(audits, id) + (if e.OfAction? && e.id == id && ChangesStatus(e.kind) then 1 else 0)
    ensures ExecutionCount(audits + [e], id)
            == ExecutionCount(audits, id) + (if e == OfAction(id, WasExecuted) then 1 else 0)
  {
    assert (audits + [e])[..|audits|] == audits;
  }

  lemma {:induction false} UnseenIdCountsZero(audits: seq<WorkflowAudit>, id: ActionId)
    requires forall y :: 0 <= y < |audits| && audits[y].OfAction? ==> audits[y].id != id
    ensures ChangeCount(audits, id) == 0 && ExecutionCount(audits, id) == 0
  {
    if audits != [] {
      var n := |audits| - 1;
      assert forall y :: 0 <= y < n ==> audits[..n][y] == audits[y];
      UnseenIdCountsZero(audits[..n], id);
    }
  }

  lemma ApprovedEarlierAppend(audits: seq<WorkflowAudit>, e: WorkflowAudit, id: ActionId, before: nat)
    requires ApprovedEarlier(audits, id, before)
    ensures ApprovedEarlier(audits + [e], id, before)
  {
    var x :| 0 <= x < |audits| && x < before && audits[x] == OfAction(id, WasApproved);
    assert (audits + [e])[x] == audits[x];
  }

  /** An audit entry that is not about a row leaves what is known of it. */
  lemma OtherAuditKeeps(a: ActionRow, audits: seq<WorkflowAudit>, e: WorkflowAudit)
    requires RowAudited(a, audits)
    requires e.OfAction? ==> e.id != a.id || !ChangesStatus(e.kind)
    ensures RowAudited(a, audits + [e])
  {
    hide ApprovedEarlier;
    CountsAppend(audits, e, a.id);
    if a.status.Approved? {
      ApprovedEarlierAppend(audits, e, a.id, |audits|);
      ApprovedEarlierMonotone(audits + [e], a.id, |audits|, |audits| + 1);
    }
    forall y | 0 <= y < |audits| + 1 && a.approvalRequired && (audits + [e])[y] == OfAction(a.id, WasExecuted)
      ensures ApprovedEarlier(audits + [e], a.id, y)
    {
      ApprovedEarlierAppend(audits, e, a.id, y);
    }
  }

  lemma ApprovedEarlierMonotone(audits: seq<WorkflowAudit>, id: ActionId, before: nat, later: nat)
    requires ApprovedEarlier(audits, id, before) && before <= later
    ensures ApprovedEarlier(audits, id, later)
  {
  }

  /** The status change a step may make to a row, with its audit entry. */
  predicate Transition(a: ActionRow, status: ActionStatus, kind: AuditKind) {
    match kind
    case WasApproved => a.status.PendingApproval? && status.Approved?
    case WasRejected => Open(a.status) && status.Rejected?
    case WasHeld => Open(a.status) && status.Held?
    case WasCancelled => !a.status.Executed? && !a.status.CancelledAction? && status.CancelledAction?
    case WasExecuted => (a.status.Approved? || (a.status.RecommendedStatus? && !a.approvalRequired)) && status.Executed?
    case _ => false
  }

  lemma TransitionAudited(a: ActionRow, audits: seq<WorkflowAudit>, status: ActionStatus, kind: AuditKind)
    requires RowAudited(a, audits) && Transition(a, status, kind)
    ensures RowAudited(a.(status := status), audits + [OfAction(a.id, kind)])
  {
    hide ApprovedEarlier;
    var e := OfAction(a.id, kind);
    CountsAppend(audits, e, a.id);
    if kind.WasApproved? {
      assert ApprovedEarlier(audits + [e], a.id, |audits| + 1) by { JustApproved(audits, a.id); }
    }
    forall y | 0 <= y < |audits| + 1 && a.approvalRequired && (audits + [e])[y] == OfAction(a.id, WasExecuted)
      ensures ApprovedEarlier(audits + [e], a.id, y)
    {
      ApprovedEarlierAppend(audits, e, a.id, y);
    }
  }

  lemma JustApproved(audits: seq<WorkflowAudit>, id: ActionId)
    ensures ApprovedEarlier(audits + [OfAction(id, WasApproved)], id, |audits| + 1)
  {
    assert (audits + [OfAction(id, WasApproved)])[|audits|] == OfAction(id, WasApproved);
  }

  lemma SetStatusKeeps(d: Desk, row: nat, status: ActionStatus, kind: AuditKind)
    requires Lifecycle(d) && row < |d.actions| && Transition(d.actions[row], status, kind)
    ensures Lifecycle(SetStatus(d, row, status, kind))
  {
    hide RowAudited;
    var r := SetStatus(d, row, status, kind);
    forall x | 0 <= x < |d.actions|
      ensures RowAudited(r.actions[x], r.audits)
    {
      if x == row {
        TransitionAudited(d.actions[x], d.audits, status, kind);
      } else {
        assert r.actions[x].id != d.actions[row].id;
        OtherAuditKeeps(d.actions[x], d.audits, OfAction(d.actions[row].id, kind));
      }
    }
    HasIdKept(d.actions, r.actions, d.audits);
    assert r.actions[row].id == d.actions[row].id;
  }

  lemma HasIdKept(a: seq<ActionRow>, b: seq<ActionRow>, audits: seq<WorkflowAudit>)
    requires |a| <= |b| && forall x :: 0 <= x < |a| ==> b[x].id == a[x].id
    requires forall y :: 0 <= y < |audits| && audits[y].OfAction? ==> HasId(a, audits[y].id)
    ensures forall y :: 0 <= y < |audits| && audits[y].OfAction? ==> HasId(b, audits[y].id)
  {
    forall y | 0 <= y < |audits| && audits[y].OfAction?
      ensures HasId(b, audits[y].id)
    {
      var x :| 0 <= x < |a| && a[x].id == audits[y].id;
      assert b[x].id == audits[y].id;
    }
  }

  lemma PlainAuditKeeps(d: Desk, e: WorkflowAudit)
    requires Lifecycle(d)
    requires e.OfAction? ==> !ChangesStatus(e.kind) && HasId(d.actions, e.id)
    ensures Lifecycle(d.(audits := d.audits + [e]))
  {
    hide RowAudited, HasId;
    forall x | 0 <= x < |d.actions|
      ensures RowAudited(d.actions[x], d.audits + [e])
    {
      OtherAuditKeeps(d.actions[x], d.audits, e);
    }
  }

  lemma NewRowKeeps(d: Desk, row: ActionRow)
    requires Lifecycle(d)
    requires !HasId(d.actions, row.id) && (row.id.FreshId? ==> row.id.n == |d.actions|)
    requires row.status == (if row.approvalRequired then PendingApproval else RecommendedStatus)
    requires !HasWork(d.actions, row.caseId, row.recommendation)
    ensures Lifecycle(Desk(d.actions + [row], d.audits + [OfAction(row.id, WasRecommended)]))
  {
    var e := OfAction(row.id, WasRecommended);
    var r := Desk(d.actions + [row], d.audits + [e]);
    assert forall x :: 0 <= x < |d.actions| ==> d.actions[x].id != row.id;
    forall x | 0 <= x < |r.actions|
      ensures RowAudited(r.actions[x], r.audits)
    {
      if x < |d.actions| {
        OtherAuditKeeps(d.actions[x], d.audits, e);
      } else {
        UnseenIdCountsZero(d.audits, row.id);
        CountsAppend(d.audits, e, row.id);
        assert forall y :: 0 <= y < |d.audits| && d.audits[y].OfAction? ==> d.audits[y].id != row.id;
      }
    }
    HasIdKept(d.actions, r.actions, d.audits);
    assert r.actions[|d.actions|].id == row.id;
  }

  lemma CreateKeepsLifecycle(d: Desk, caseId: nat, rec: Recommendation, expected: Option<Action>, key: Option<ActionId>)
    requires Lifecycle(d) && (key.Some? ==> !key.value.FreshId?)
    ensures Lifecycle(Create(d, caseId, rec, expected, key).0)
  {
    hide Lifecycle, HasWork, FactsForbid;
    var existing := if key.Some? then FindAction(d.actions, key.value, 0) else None;
    if existing.None? {
      PlainAuditKeeps(d, ReadinessBlocked(caseId));
      if !HasWork(d.actions, caseId, rec.action) && ActionTypeOf(rec.action).Some? {
        var id := if key.Some? then key.value else FreshId(|d.actions|);
        var status := if rec.approvalRequired then PendingApproval else RecommendedStatus;
        FreshIdUnused(d);
        NewRowKeeps(d, ActionRow(id, caseId, rec.action, ActionTypeOf(rec.action).value, status, rec.approvalRequired));
      }
    }
  }

  lemma FreshIdUnused(d: Desk)
    requires Lifecycle(d)
    ensures !HasId(d.actions, FreshId(|d.actions|))
  {
    hide Audited, WorkUnique;
  }

  lemma StepKeepsLifecycle(d: Desk, op: Operation)
    requires Lifecycle(d)
    ensures Lifecycle(Step(d, op))
  {
    hide Lifecycle, Create, SetStatus, FactsForbid;
    match op
    case Creating(caseId, rec, expected, key) =>
      if !(key.Some? && key.value.FreshId?) {
        CreateKeepsLifecycle(d, caseId, rec, expected, key);
      }
    case Approving(row) =>
      if row < |d.actions| && d.actions[row].status.PendingApproval? {
        SetStatusKeeps(d, row, Approved, WasApproved);
      }
    case Rejecting(row) =>
      if row < |d.actions| && Open(d.actions[row].status) {
        SetStatusKeeps(d, row, Rejected, WasRejected);
      }
    case Holding(row) =>
      if row < |d.actions| && Open(d.actions[row].status) {
        SetStatusKeeps(d, row, Held, WasHeld);
      }
    case Cancelling(row) =>
      if row < |d.actions| && Cancel(d, row).1.Done? {
        SetStatusKeeps(d, row, CancelledAction, WasCancelled);
      }
    case Executing(row, rec) =>
      if row < |d.actions| {
        assert HasId(d.actions, d.actions[row].id);
        PlainAuditKeeps(d, OfAction(d.actions[row].id, WasBlocked));
        if ExecutionForbidden(d.actions[row], rec).None? {
          SetStatusKeeps(d, row, Executed, WasExecuted);
        }
      }
  }

  /** The lifecycle over every run: identities stay distinct, at most one row per case and
      recommendation is live or executed, no row sees more than three status changes or more
      than one execution, and an execution that needed approval comes after the approval. */
  lemma {:induction false} LifecycleIsKept(d: Desk, ops: seq<Operation>)
    requires Lifecycle(d)
    ensures Lifecycle(Run(d, ops))
    decreases |ops|
  {
    hide Step, Lifecycle;
    if ops != [] {
      StepKeepsLifecycle(d, ops[0]);
      LifecycleIsKept(Step(d, ops[0]), ops[1..]);
    }
  }

  /** What the invariant means for an executed action: it was approved before it was executed
      if it had to be, it was executed once, and no other row for the same case and
      recommendation has been or can be executed. */
  lemma ExecutedMeansApprovedOnce(d: Desk, row: nat)
    requires Lifecycle(d) && row < |d.actions| && d.actions[row].status.Executed?
    ensures ExecutionCount(d.audits, d.actions[row].id) == 1
    ensures d.actions[row].approvalRequired ==>
              exists x, y :: 0 <= x < y < |d.audits|
                && d.audits[x] == OfAction(d.actions[row].id, WasApproved) && d.audits[y]
                    == OfAction(d.actions[row].id, WasExecuted)
    ensures forall other :: 0 <= other < |d.actions| && other != row
              && d.actions[other].caseId == d.actions[row].caseId && d.actions[other].recommendation
                  == d.actions[row].recommendation
              ==> !Live(d.actions[other].status) && !d.actions[other].status.Executed?
  {
    var a := d.actions[row];
    assert RowAudited(a, d.audits);
    var y := ExecutionFound(d.audits, a.id);
    if a.approvalRequired {
      assert ApprovedEarlier(d.audits, a.id, y);
    }
    forall other | 0 <= other < |d.actions| && other != row
                   && d.actions[other].caseId == a.caseId && d.actions[other].recommendation == a.recommendation
      ensures !Occupies(d.actions[other])
    {
      assert Occupies(a);
    }
  }

  lemma {:induction false} ExecutionFound(audits: seq<WorkflowAudit>, id: ActionId) returns (y: nat)
    requires ExecutionCount(audits, id) > 0
    ensures y < |audits| && audits[y] == OfAction(id, WasExecuted)
  {
    var n := |audits| - 1;
    if audits[n] == OfAction(id, WasExecuted) {
      y := n;
    } else {
      y := ExecutionFound(audits[..n], id);
    }
  }

  /** Executed and cancelled rows never change again. */
  lemma {:induction false} FinalRowsStay(d: Desk, ops: seq<Operation>, row: nat)
    requires row < |d.actions| && (d.actions[row].status.Executed? || d.actions[row].status.CancelledAction?)
    ensures row < |Run(d, ops).actions| && Run(d, ops).actions[row] == d.actions[row]
    decreases |ops|
  {
    hide FactsForbid, HasWork;
    if ops != [] {
      var next := Step(d, ops[0]);
      assert row < |next.actions| && next.actions[row] == d.actions[row];
      FinalRowsStay(next, ops[1..], row);
    }
  }

  /** What an operation adds to the audit trail: a decision that takes effect one entry of its kind
      for its row, a refused execution one entry that says so, a new row its recommendation, and
      otherwise at most one entry that changes no row. */
  lemma AuditExactly(d: Desk, row: nat, op: Operation)
    requires row < |d.actions| && Asks(op).Some? && Asks(op).value.0 == row
    ensures var after := Step(d, op); var id := d.actions[row].id;
            var took := after.actions[row].status != d.actions[row].status;
            after.audits == d.audits + (
              if took then [OfAction(id, match Asks(op).value.1
                                         case Approved => WasApproved
                                         case Rejected => WasRejected
                                         case Held => WasHeld
                                         case CancelledAction => WasCancelled
                                         case _ => WasExecuted)]
              else if op.Executing? then [OfAction(id, WasBlocked)] else [])
  {
    hide FactsForbid;
  }

  /** What creating leaves in the audit trail: the recommendation for a new row, an entry for the
      case when the facts forbid work on a current recommendation, and otherwise nothing. */
  lemma CreationAudits(d: Desk, caseId: nat, rec: Recommendation, expected: Option<Action>, key: Option<ActionId>)
    ensures var (after, outcome) := Create(d, caseId, rec, expected, key);
            var known := key.Some? && HasId(d.actions, key.value);
            var current := !known && (expected == None || expected == Some(rec.action));
            after.audits == d.audits + (
              if current && !Workable(rec) then [ReadinessBlocked(caseId)]
              else if current && !WorkExists(d.actions, caseId, rec.action) then
                [OfAction(if key.Some? then key.value else FreshId(|d.actions|), WasRecommended)]
              else [])
  {
    hide FindAction;
    assert HasWork(d.actions, caseId, rec.action) <==> WorkExists(d.actions, caseId, rec.action);
  }
}
