/** Concurrent delivery of one provider event. Each session loads its rows, looks for the
    event, validates and flushes, and then tries to commit against the unique constraints on
    provider events; a conflict rolls the whole session back. The steps of any number of
    sessions interleave freely. */
module PaymentRace {
  import opened Ledger
  import opened Payments

  datatype Phase =
    | NotLoaded
    | Loaded(rows: Store)        // rows as read from the committed store
    | Flushed(pending: Store)    // validated against those rows, nothing committed yet
    | Answered(outcome: IngestOutcome)

  datatype Session = Session(request: nat, case_: CaseRef, today: int, delivery: Delivery, phase: Phase)

  /** `store` is what has been committed. */
  datatype Race = Race(store: Store, sessions: seq<Session>)

  function NoteDuplicate(store: Store, d: Delivery, existing: ProviderEvent): Store {
    store.(audits := store.audits + [DuplicateIgnored(d.eventId, existing.eventId)])
  }

  /** The rows a session writes hold the values it computed from the rows it had loaded, even
      if the committed rows have changed since. */
  function CommitRows(store: Store, rows: Store, request: nat, d: Delivery): Store
    requires request < |rows.requests| && rows.requests[request].invoiceId < |rows.invoices|
    requires |rows.requests| <= |store.requests| && |rows.invoices| <= |store.invoices|
  {
    var written := Book(rows, request, d);
    var i := rows.requests[request].invoiceId;
    store.(
      invoices := store.invoices[i := written.invoices[i]],
      requests := store.requests[request := written.requests[request]],
      events := store.events + [written.events[|rows.events|]],
      audits := store.audits + [EventApplied(d.eventId)])
  }

  /** Sessions name existing rows, and the tables of the committed store do not shrink. */
  predicate Fits(race: Race, s: Session) {
    && s.request < |race.store.requests|
    && (match s.phase
        case Loaded(rows) => |rows.requests| == |race.store.requests| && |rows.invoices| == |race.store.invoices|
        case Flushed(rows) =>
          && |rows.requests| == |race.store.requests| && |rows.invoices| == |race.store.invoices|
          && rows.requests[s.request].invoiceId < |rows.invoices|
        case _ => true)
  }

  predicate AllFit(race: Race) {
    forall k :: 0 <= k < |race.sessions| ==> Fits(race, race.sessions[k])
  }

  /** One step of session `k`. */
  function Step(race: Race, k: nat): Race
    requires AllFit(race) && k < |race.sessions|
  {
    var s := race.sessions[k];
    match s.phase
    case NotLoaded => race.(sessions := race.sessions[k := s.(phase := Loaded(race.store))])
    case Loaded(rows) =>
      var req := rows.requests[s.request];
      if !req.mode.DemoMode? || !req.provider.ProviderDemo? then Answer(race, k, Declined(NotDemo))
      else
        (match FindEvent(race.store.events, req.provider, s.delivery)
         case Some(existing) =>
           Answer(race.(store := NoteDuplicate(race.store, s.delivery, existing)), k, Duplicate(existing.eventId))
         case None =>
           match RejectionOf(rows, s.request, s.case_, s.today, s.delivery)
           case Some(reason) => Answer(race, k, Declined(reason))
           case None => race.(sessions := race.sessions[k := s.(phase := Flushed(rows))]))
    case Flushed(rows) =>
      (match FindEvent(race.store.events, rows.requests[s.request].provider, s.delivery)
       case Some(existing) =>
         Answer(race.(store := NoteDuplicate(race.store, s.delivery, existing)), k, Duplicate(existing.eventId))
       case None =>
         Answer(race.(store := CommitRows(race.store, rows, s.request, s.delivery)), k, Applied(s.delivery.eventId)))
    case Answered(_) => race
  }

  function Answer(race: Race, k: nat, outcome: IngestOutcome): Race
    requires k < |race.sessions|
  {
    race.(sessions := race.sessions[k := race.sessions[k].(phase := Answered(outcome))])
  }

  predicate Conflicts(a: Delivery, b: Delivery) {
    a.eventId == b.eventId || a.paymentReference == b.paymentReference
  }

  predicate SameMoney(a: Store, b: Store) {
    a.invoices == b.invoices && a.requests == b.requests && a.events == b.events
  }

  // ---------------------------------------------------------------- the invariant

  ghost predicate Undecided(start: Store, race: Race) {
    && SameMoney(race.store, start)
    && forall k :: 0 <= k < |race.sessions| ==> UndecidedSession(start, race.sessions[k])
  }

  ghost predicate UndecidedSession(start: Store, s: Session) {
    && s.request < |start.requests|
    && match s.phase
       case NotLoaded => true
       case Loaded(rows) => SameMoney(rows, start)
       case Flushed(rows) => SameMoney(rows, start) && Acceptable(start, s)
       case Answered(outcome) => outcome.Declined? && !Acceptable(start, s)
  }

  /** The delivery of this session would be applied to the starting store. */
  ghost predicate Acceptable(start: Store, s: Session)
    requires s.request < |start.requests|
  {
    Ingest(start, s.request, s.case_, s.today, s.delivery).1.Applied?
  }

  ghost predicate Decided(start: Store, race: Race, winner: nat) {
    && winner < |race.sessions|
    && race.sessions[winner].request < |start.requests|
    && Acceptable(start, race.sessions[winner])
    && race.sessions[winner].phase == Answered(Applied(race.sessions[winner].delivery.eventId))
    && SameMoney(race.store, Ingest(start, race.sessions[winner].request, race.sessions[winner].case_,
                                    race.sessions[winner].today, race.sessions[winner].delivery).0)
    && forall k :: 0 <= k < |race.sessions| && k != winner && race.sessions[k].phase.Answered? ==>
         LoserAnswered(start, race.sessions[k])
  }

  /** A loser answers "duplicate", unless its delivery was unacceptable from the start. */
  ghost predicate LoserAnswered(start: Store, s: Session)
    requires s.phase.Answered?
  {
    && s.request < |start.requests|
    && !s.phase.outcome.Applied?
    && (s.phase.outcome.Declined? ==> !Acceptable(start, s))
  }

  ghost predicate OneWinnerAtMost(start: Store, race: Race) {
    Undecided(start, race) || exists w :: Decided(start, race, w)
  }

  /** All sessions carry the same event identity, pairwise, and it is new. */
  ghost predicate SameEvent(start: Store, sessions: seq<Session>) {
    && (forall j, k :: 0 <= j < |sessions| && 0 <= k < |sessions| ==>
          Conflicts(sessions[j].delivery, sessions[k].delivery))
    && (forall k :: 0 <= k < |sessions| ==> FindEvent(start.events, ProviderDemo, sessions[k].delivery).None?)
  }

  /** No payment ever changes which provider a request belongs to. */
  ghost predicate SameProviders(start: Store, rows: Store) {
    && |rows.requests| == |start.requests|
    && forall r :: 0 <= r < |start.requests| ==>
         rows.requests[r].provider == start.requests[r].provider && rows.requests[r].mode == start.requests[r].mode
  }

  /** A session that reaches the commit works on a request of the demo provider, and one that
      was not declined at once on a table with the original providers. */
  ghost predicate ProvidersKept(start: Store, race: Race) {
    && SameProviders(start, race.store)
    && forall k :: 0 <= k < |race.sessions| ==>
          race.sessions[k].request < |start.requests| && SessionProviders(start, race.sessions[k])
  }

  ghost predicate SessionProviders(start: Store, s: Session)
    requires s.request < |start.requests|
  {
    match s.phase
    case Loaded(rows) => SameProviders(start, rows)
    case Flushed(rows) => SameProviders(start, rows) && rows.requests[s.request].provider.ProviderDemo?
    case _ => true
  }

  ghost predicate Invariant(start: Store, race: Race) {
    && AllFit(race)
    && |race.store.requests| == |start.requests| && |race.store.invoices| == |start.invoices|
    && SameEvent(start, race.sessions)
    && ProvidersKept(start, race)
    && OneWinnerAtMost(start, race)
  }

  lemma LockedOut(start: Store, race: Race, winner: nat, d: Delivery)
    requires Decided(start, race, winner) && Conflicts(race.sessions[winner].delivery, d)
    ensures FindEvent(race.store.events, ProviderDemo, d).Some?
  {
    hide Settle;
    var s := race.sessions[winner];
    var after := Ingest(start, s.request, s.case_, s.today, s.delivery).0;
    assert SameIdentity(after.events[|start.events|], ProviderDemo, d);
  }

  lemma StepKeepsShape(start: Store, race: Race, k: nat)
    requires AllFit(race) && ProvidersKept(start, race) && k < |race.sessions|
    requires |race.store.invoices| == |start.invoices|
    ensures ProvidersKept(start, Step(race, k)) && AllFit(Step(race, k))
    ensures |Step(race, k).store.requests| == |start.requests| && |Step(race, k).store.invoices| == |start.invoices|
  {
    hide FindEvent, Settle;
    assert Fits(race, race.sessions[k]) && SessionProviders(start, race.sessions[k]);
  }

  lemma StepUndecided(start: Store, race: Race, k: nat)
    requires Invariant(start, race) && Undecided(start, race) && k < |race.sessions|
    ensures OneWinnerAtMost(start, Step(race, k))
  {
    hide Settle;
    var s := race.sessions[k];
    var next := Step(race, k);
    assert UndecidedSession(start, s);
    if s.phase.Flushed? {
      assert FindEvent(race.store.events, ProviderDemo, s.delivery).None?;
      assert Decided(start, next, k);
    } else {
      assert Undecided(start, next);
    }
  }

  lemma StepDecided(start: Store, race: Race, winner: nat, k: nat)
    requires Invariant(start, race) && Decided(start, race, winner) && k < |race.sessions|
    ensures Decided(start, Step(race, k), winner)
  {
    hide Ingest, CommitRows, RejectionOf, Acceptable;
    LockedOut(start, race, winner, race.sessions[k].delivery);
    var s := race.sessions[k];
    assert SessionProviders(start, s);
    AcceptableNeedsDemo(start, s);
    var next := Step(race, k);
    if k != winner && next.sessions[k].phase.Answered? {
      AcceptableIgnoresPhase(start, s, next.sessions[k]);
    }
    AcceptableIgnoresPhase(start, race.sessions[winner], next.sessions[winner]);
  }

  lemma AcceptableNeedsDemo(start: Store, s: Session)
    requires s.request < |start.requests|
    ensures Acceptable(start, s) ==>
              start.requests[s.request].mode.DemoMode? && start.requests[s.request].provider.ProviderDemo?
  {
  }

  lemma AcceptableIgnoresPhase(start: Store, s: Session, t: Session)
    requires s.request < |start.requests| && t == s.(phase := t.phase)
    ensures Acceptable(start, s) <==> Acceptable(start, t)
  {
    hide Ingest;
  }

  lemma StepKeepsInvariant(start: Store, race: Race, k: nat)
    requires Invariant(start, race) && k < |race.sessions|
    ensures Invariant(start, Step(race, k))
    ensures |Step(race, k).sessions| == |race.sessions|
  {
    StepKeepsDeliveries(race, k);
    StepKeepsShape(start, race, k);
    if Undecided(start, race) {
      StepUndecided(start, race, k);
    } else {
      var w :| Decided(start, race, w);
      StepDecided(start, race, w, k);
    }
    hide Step, AllFit, ProvidersKept, Undecided, Decided;
  }

  lemma StepKeepsDeliveries(race: Race, k: nat)
    requires AllFit(race) && k < |race.sessions|
    ensures |Step(race, k).sessions| == |race.sessions|
    ensures forall j :: 0 <= j < |race.sessions| ==> Step(race, k).sessions[j].delivery == race.sessions[j].delivery
  {
    hide CommitRows, RejectionOf, FindEvent;
  }

  // ---------------------------------------------------------------- every schedule

  /** The race after a schedule, which names the session to move at each step. */
  ghost function Play(start: Store, race: Race, schedule: seq<nat>): (r: Race)
    requires Invariant(start, race)
    requires forall i :: 0 <= i < |schedule| ==> schedule[i] < |race.sessions|
    ensures Invariant(start, r) && |r.sessions| == |race.sessions|
    decreases |schedule|
  {
    if schedule == [] then race
    else
      StepKeepsInvariant(start, race, schedule[0]);
      Play(start, Step(race, schedule[0]), schedule[1..])
  }

  ghost function Start(store: Store, sessions: seq<Session>): Race { Race(store, sessions) }

  ghost predicate AllAnswered(race: Race) {
    forall k :: 0 <= k < |race.sessions| ==> race.sessions[k].phase.Answered?
  }

  /** Race safety. Whatever the interleaving of any number of sessions that deliver the same
      event, at every moment the committed money is either untouched or exactly what applying
      one of the deliveries to the starting store gives. When all sessions have answered,
      either every delivery was declined, or exactly one was applied and every other session
      whose delivery was acceptable answers "duplicate". */
  lemma ExactlyOneApplies(store: Store, sessions: seq<Session>, schedule: seq<nat>)
    requires forall k :: 0 <= k < |sessions| ==> sessions[k].phase.NotLoaded? && sessions[k].request < |store.requests|
    requires SameEvent(store, sessions)
    requires forall i :: 0 <= i < |schedule| ==> schedule[i] < |sessions|
    ensures Invariant(store, Start(store, sessions))
    ensures var r := Play(store, Start(store, sessions), schedule);
            || (SameMoney(r.store, store) && forall k :: 0 <= k < |sessions| ==> !WasApplied(r, k))
            || exists w :: OnlyWinner(store, r, w)
    ensures var r := Play(store, Start(store, sessions), schedule);
            AllAnswered(r) && SameMoney(r.store, store) ==> forall k :: 0 <= k < |sessions| ==>
                  r.sessions[k].phase.outcome.Declined?
  {
    var race := Start(store, sessions);
    assert Undecided(store, race);
    var r := Play(store, race, schedule);
    hide Play;
    if Undecided(store, r) {
      forall k | 0 <= k < |sessions|
        ensures !WasApplied(r, k)
        ensures r.sessions[k].phase.Answered? ==> r.sessions[k].phase.outcome.Declined?
      {
        assert UndecidedSession(store, r.sessions[k]);
      }
    } else {
      var w :| Decided(store, r, w);
      assert OnlyWinner(store, r, w);
      WinnerChanges(store, r, w);
    }
  }

  predicate WasApplied(r: Race, k: nat) {
    k < |r.sessions| && r.sessions[k].phase.Answered? && r.sessions[k].phase.outcome.Applied?
  }

  /** Session `w` alone was applied, and the committed money is the result of its delivery. */
  ghost predicate OnlyWinner(store: Store, r: Race, w: nat) {
    && WasApplied(r, w)
    && r.sessions[w].request < |store.requests|
    && SameMoney(r.store, Ingest(store, r.sessions[w].request, r.sessions[w].case_, r.sessions[w].today,
                                 r.sessions[w].delivery).0)
    && |r.store.events| == |store.events| + 1
    && forall k :: 0 <= k < |r.sessions| && k != w && r.sessions[k].phase.Answered? ==>
          LoserAnswered(store, r.sessions[k])
  }

  lemma WinnerChanges(store: Store, r: Race, w: nat)
    requires Decided(store, r, w)
    ensures !SameMoney(r.store, store)
  {
    hide Settle;
  }

  /** What a step leaves in the audit trail: an entry when the session answers that its event was
      applied or is a duplicate, and otherwise nothing. */
  lemma StepAudits(race: Race, k: nat)
    requires AllFit(race) && k < |race.sessions|
    ensures var next := Step(race, k); var d := race.sessions[k].delivery; var phase := next.sessions[k].phase;
            next.store.audits == race.store.audits + (
              if race.sessions[k].phase.Answered? || !phase.Answered? then []
              else match phase.outcome
                   case Applied(_) => [EventApplied(d.eventId)]
                   case Duplicate(original) => [DuplicateIgnored(d.eventId, original)]
                   case Declined(_) => [])
  {
    hide FindEvent, RejectionOf, Settle;
  }
}
