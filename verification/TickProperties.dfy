/** What holds of every tick, whatever the random picks: events never clash, a tick must stop,
    and the ledger only moves as it may. */
module TickProperties {
  import opened Domain
  import opened Money
  import opened Engine
  import opened Ledger
  import opened Simulation

  // ---------------------------------------------------------------- no clash

  /** What an event makes unavailable for the rest of its tick: its own target, and the event
      that would undo it. */
  function Burns(e: Event): set<UsedKey> {
    {e.key}
    + (match e.kind
       case PromiseCreated => if e.promise.Some? then {OnPromise(e.promise.value)} else {}
       case PromiseBroken => {OnInvoice(PromiseBroken, e.invoice)}
       case DisputeOpened => {OnInvoice(DisputeResolved, e.invoice)}
       case DisputeResolved => {OnInvoice(DisputeOpened, e.invoice)}
       case _ => {})
  }

  /** The target an event of this kind goes by. */
  predicate KeyFits(e: Event) {
    match e.kind
    case PromiseBroken => e.promise.Some? && e.key == OnPromise(e.promise.value)
    case PromiseCreated => e.promise.Some? && e.key == OnInvoice(e.kind, e.invoice)
    case _ => e.key == OnInvoice(e.kind, e.invoice)
  }

  lemma ApplyBurns(t: TickState, today: int, kind: EventKind, roll: Roll)
    requires Available(t, kind)
    ensures var (r, e) := Apply(t, today, kind, roll);
            && e.kind == kind && KeyFits(e)
            && e.key !in t.used
            && r.used == t.used + Burns(e)
            && |r.invoices| == |t.invoices|
  {
    hide Paid, EventAmount, FractionalAmount, BreakPromise;
    AvailableHasCandidate(t, kind);
    if kind.PromiseBroken? {
      var found := BreakCandidates(t, t.active);
      assert found[roll.candidate % |found|] in t.active;
    } else {
      var found := Candidates(t, kind, 0);
      assert IsCandidate(t, kind, found[roll.candidate % |found|]);
    }
  }

  /** Within a tick no event has the target of an earlier one, none breaks a promise made
      earlier in the tick, resolves a dispute opened in it or reopens one resolved in it. */
  lemma {:induction false} EventsNeverClash(t: TickState, today: int, rolls: nat -> Roll, ordinal: nat, count: nat)
    ensures NoClash(t.used, Generate(t, today, rolls, ordinal, count).1)
    decreases count
  {
    hide Apply, AvailableKinds, NoClash;
    if count > 0 && AvailableKinds(t) != [] {
      var kind := Chosen(t, rolls(ordinal));
      assert kind in AvailableKinds(t);
      ApplyBurns(t, today, kind, rolls(ordinal));
      var (next, event) := Apply(t, today, kind, rolls(ordinal));
      EventsNeverClash(next, today, rolls, ordinal + 1, count - 1);
      NoClashExtend(t.used, event, Generate(next, today, rolls, ordinal + 1, count - 1).1);
    } else {
      assert NoClash(t.used, []) by { NoClashEmpty(t.used); }
    }
  }

  ghost predicate NoClash(used: set<UsedKey>, events: seq<Event>) {
    && (forall i :: 0 <= i < |events| ==> KeyFits(events[i]))
    && (forall i :: 0 <= i < |events| ==> events[i].key !in used)
    && (forall i, j :: 0 <= i < j < |events| ==> events[j].key !in Burns(events[i]))
  }

  lemma NoClashEmpty(used: set<UsedKey>)
    ensures NoClash(used, [])
  {
  }

  lemma NoClashExtend(used: set<UsedKey>, event: Event, rest: seq<Event>)
    requires KeyFits(event) && event.key !in used
    requires NoClash(used + Burns(event), rest)
    ensures NoClash(used, [event] + rest)
  {
    hide Burns, KeyFits;
    var events := [event] + rest;
    forall i, j | 0 <= i < j < |events|
      ensures events[j].key !in Burns(events[i])
    {
      assert events[j] == rest[j - 1];
      if i > 0 {
        assert events[i] == rest[i - 1];
      }
    }
  }

  // ---------------------------------------------------------------- a tick must stop

  const TARGET_KINDS := {PartialPayment, FullPayment, PromiseCreated, DisputeOpened, DisputeResolved, DelayResponse}

  /** Every target a tick can ever use: six kinds on each invoice, and a break of each promise
      that was active when the tick began. */
  ghost function Targets(invoices: nat, active: seq<PromiseRef>): (targets: set<UsedKey>)
    ensures |targets| <= 6 * invoices + |active|
    decreases invoices, |active|
  {
    if invoices > 0 then
      var rest := Targets(invoices - 1, active);
      var i := invoices - 1;
      var six := {OnInvoice(PartialPayment, i), OnInvoice(FullPayment, i), OnInvoice(PromiseCreated, i),
                  OnInvoice(DisputeOpened, i), OnInvoice(DisputeResolved, i), OnInvoice(DelayResponse, i)};
      assert |rest + six| <= |rest| + |six| by { UnionSize(rest, six); }
      rest + six
    else if active == [] then {}
    else
      var rest := Targets(0, active[1..]);
      assert |rest + {OnPromise(active[0])}| <= |rest| + 1 by { UnionSize(rest, {OnPromise(active[0])}); }
      rest + {OnPromise(active[0])}
  }

  lemma UnionSize<T>(a: set<T>, b: set<T>)
    ensures |a + b| <= |a| + |b|
  {
    assert |a + b| + |a * b| == |a| + |b|;
  }

  lemma {:induction false} TargetsContain(invoices: nat, active: seq<PromiseRef>, key: UsedKey)
    requires match key
             case OnInvoice(kind, i) => i < invoices && kind in TARGET_KINDS
             case OnPromise(ref) => ref in active
    ensures key in Targets(invoices, active)
    decreases invoices, |active|
  {
    if invoices > 0 {
      if !(key.OnInvoice? && key.invoice == invoices - 1) {
        TargetsContain(invoices - 1, active, key);
      }
    } else if key.ref != active[0] {
      TargetsContain(0, active[1..], key);
    }
  }

  /** Promises made within the tick can no longer be broken in it. */
  ghost predicate NewPromisesBurned(t: TickState, original: seq<PromiseRef>) {
    forall k :: 0 <= k < |t.active| ==> t.active[k] in original || OnPromise(t.active[k]) in t.used
  }

  lemma ApplyStaysInside(t: TickState, today: int, kind: EventKind, roll: Roll, original: seq<PromiseRef>)
    requires Available(t, kind) && NewPromisesBurned(t, original)
    ensures var (r, e) := Apply(t, today, kind, roll);
            && e.key in Targets(|t.invoices|, original)
            && NewPromisesBurned(r, original)
  {
    hide Paid, EventAmount, FractionalAmount, BreakPromise;
    AvailableHasCandidate(t, kind);
    ApplyBurns(t, today, kind, roll);
    var (r, e) := Apply(t, today, kind, roll);
    if kind.PromiseBroken? {
      var found := BreakCandidates(t, t.active);
      var ref := found[roll.candidate % |found|];
      assert ref in t.active && OnPromise(ref) !in t.used;
      TargetsContain(|t.invoices|, original, e.key);
    } else {
      TargetsContain(|t.invoices|, original, e.key);
      assert kind.PromiseCreated? ==> OnPromise(e.promise.value) in r.used;
    }
  }

  lemma {:induction false} GenerateUsesTargets(t: TickState, today: int, rolls: nat -> Roll, ordinal: nat, count: nat,
                                               original: seq<PromiseRef>)
    requires NewPromisesBurned(t, original)
    ensures var (r, events) := Generate(t, today, rolls, ordinal, count);
            |events| <= |Targets(|t.invoices|, original) - t.used|
    decreases count
  {
    hide Apply, AvailableKinds, Burns, Targets, NewPromisesBurned;
    if count > 0 && AvailableKinds(t) != [] {
      var kind := Chosen(t, rolls(ordinal));
      assert kind in AvailableKinds(t);
      ApplyBurns(t, today, kind, rolls(ordinal));
      ApplyStaysInside(t, today, kind, rolls(ordinal), original);
      var (next, event) := Apply(t, today, kind, rolls(ordinal));
      GenerateUsesTargets(next, today, rolls, ordinal + 1, count - 1, original);
      var free, freeNext := Targets(|t.invoices|, original) - t.used, Targets(|t.invoices|, original) - next.used;
      assert event.key in Burns(event) by { assert event.key in {event.key}; BurnsOwn(event); }
      assert freeNext <= free - {event.key};
      SubsetSize(freeNext, free - {event.key});
    }
  }

  lemma BurnsOwn(e: Event)
    ensures e.key in Burns(e)
  {
  }

  lemma {:induction false} SubsetSize<T>(a: set<T>, b: set<T>)
    requires a <= b
    ensures |a| <= |b|
  {
    assert b == a + (b - a);
  }

  /** However many events are asked for, a tick produces at most six per invoice and one per
      promise that was active when it began. */
  lemma TickIsBounded(invoices: seq<Invoice>, today: int, rolls: nat -> Roll, secondary: nat)
    ensures match Tick(invoices, today, rolls, secondary)
            case None => true
            case Some((_, events)) => 0 < |events| <= 6 * |invoices| + |AllActive(invoices, 0)|
  {
    hide Apply, AvailableKinds, MarkAllOverdue, AllActive;
    var morning := Morning(invoices, today);
    if AvailableKinds(morning) != [] {
      GenerateUsesTargets(morning, today, rolls, 0, 1 + secondary, morning.active);
      assert Targets(|invoices|, morning.active) - {} == Targets(|invoices|, morning.active);
    }
  }

  // ---------------------------------------------------------------- the ledger over a tick

  /** Every invoice of the list has moved as it may, and stayed sound and honest if it was. */
  ghost predicate AllEvolve(a: seq<Invoice>, b: seq<Invoice>, today: int) {
    && |b| == |a|
    && forall i :: 0 <= i < |a| ==>
         && Evolves(a[i], b[i], today)
         && (Sound(a[i]) ==> Sound(b[i]))
         && (Sound(a[i]) && PromisesHonest(a[i], today) ==> PromisesHonest(b[i], today))
  }

  ghost predicate Solvent(invoices: seq<Invoice>) {
    forall i :: 0 <= i < |invoices| ==> 0 <= invoices[i].outstanding
  }

  lemma EventAmountBounds(kind: EventKind, balance: int, draw: Draw)
    requires 0 < balance
    ensures 1 <= EventAmount(kind, balance, draw) <= balance
    ensures !kind.FullPayment? && 1 < balance ==> EventAmount(kind, balance, draw) < balance
  {
  }

  lemma PaidEvolves(inv: Invoice, amount: int, today: int)
    requires 0 < amount <= inv.outstanding
    ensures Evolves(inv, Paid(inv, amount, today), today)
    ensures Sound(inv) ==> Sound(Paid(inv, amount, today))
    ensures Sound(inv) && PromisesHonest(inv, today) ==> PromisesHonest(Paid(inv, amount, today), today)
  {
    SettleEvolves(inv, amount, today, today);
    if Sound(inv) && PromisesHonest(inv, today) {
      var p := Payment(amount, today);
      HonestyPersists(inv, [p], today, today);
      forall j | 0 <= j < |inv.promises| && Paid(inv, amount, today).promises[j].status.FulfilledPromise?
        ensures EvaluatePromise(Paid(inv, amount, today).promises[j], inv.payments + [p], today).IsFulfilled?
      {
        CountedTotalIncludes(inv.payments, p, inv.promises[j].source, today);
        assert inv.(payments := inv.payments + [p]).promises[j] == inv.promises[j];
      }
    }
  }

  lemma OneEvolves(t: TickState, i: nat, inv: Invoice, today: int)
    requires i < |t.invoices| && Solvent(t.invoices)
    requires Evolves(t.invoices[i], inv, today)
    requires Sound(t.invoices[i]) ==> Sound(inv)
    requires Sound(t.invoices[i]) && PromisesHonest(t.invoices[i], today) ==> PromisesHonest(inv, today)
    ensures AllEvolve(t.invoices, t.invoices[i := inv], today) && Solvent(t.invoices[i := inv])
  {
    hide Sound, PromisesHonest;
    forall k | 0 <= k < |t.invoices| && k != i
      ensures Evolves(t.invoices[k], t.invoices[k], today)
    {
      EvolvesRefl(t.invoices[k], today);
    }
    hide Evolves;
  }

  lemma ApplyEvolves(t: TickState, today: int, kind: EventKind, roll: Roll)
    requires Available(t, kind) && Solvent(t.invoices)
    ensures AllEvolve(t.invoices, Apply(t, today, kind, roll).0.invoices, today)
    ensures Solvent(Apply(t, today, kind, roll).0.invoices)
  {
    hide Paid, EventAmount, FractionalAmount, AllEvolve;
    AvailableHasCandidate(t, kind);
    if kind.PromiseBroken? {
      var found := BreakCandidates(t, t.active);
      var ref := found[roll.candidate % |found|];
      BreakEvolves(t.invoices[ref.invoice], ref.promise, today);
      OneEvolves(t, ref.invoice, Apply(t, today, kind, roll).0.invoices[ref.invoice], today);
    } else {
      var found := Candidates(t, kind, 0);
      var i := found[roll.candidate % |found|];
      var inv := t.invoices[i];
      if kind.PartialPayment? || kind.FullPayment? {
        EventAmountBounds(kind, inv.outstanding, roll.share);
        PaidEvolves(inv, EventAmount(kind, inv.outstanding, roll.share), today);
      } else if kind.PromiseCreated? {
        var made := Apply(t, today, kind, roll).0.invoices[i].promises[|inv.promises|];
        PromiseEvolves(inv, made, today);
      } else {
        StatusEvolves(inv, Apply(t, today, kind, roll).0.invoices[i].status, today);
      }
      OneEvolves(t, i, Apply(t, today, kind, roll).0.invoices[i], today);
      assert kind.DelayResponse? ==> t.invoices[i := inv] == t.invoices;
    }
  }

  lemma BreakEvolves(inv: Invoice, j: nat, today: int)
    requires j < |inv.promises| && inv.promises[j].status.ActivePromise? && 0 <= inv.outstanding
    ensures var b := inv.(promises := inv.promises[j := BreakPromise(inv.promises[j], today)]);
            && Evolves(inv, b, today)
            && (Sound(inv) ==> Sound(b))
            && (PromisesHonest(inv, today) ==> PromisesHonest(b, today))
  {
  }

  lemma PromiseEvolves(inv: Invoice, p: Promise, today: int)
    requires 0 <= inv.outstanding && p.status.ActivePromise? && p.source == Some(today)
    ensures var b := inv.(promises := inv.promises + [p]);
            && Evolves(inv, b, today)
            && (Sound(inv) ==> Sound(b))
            && (PromisesHonest(inv, today) ==> PromisesHonest(b, today))
  {
  }

  /** A change of status between unpaid ones, on an open balance. */
  lemma StatusEvolves(inv: Invoice, status: InvoiceStatus, today: int)
    requires 0 < inv.outstanding
    requires !status.PaidInvoice? || status == inv.status
    ensures var b := inv.(status := status);
            && Evolves(inv, b, today)
            && (Sound(inv) ==> Sound(b))
            && (PromisesHonest(inv, today) ==> PromisesHonest(b, today))
  {
  }

  lemma AllEvolveTrans(a: seq<Invoice>, b: seq<Invoice>, c: seq<Invoice>, today: int)
    requires AllEvolve(a, b, today) && AllEvolve(b, c, today)
    ensures AllEvolve(a, c, today)
  {
    hide Sound, PromisesHonest, Evolves;
    forall i | 0 <= i < |a|
      ensures Evolves(a[i], c[i], today)
    {
      EvolvesTrans(a[i], b[i], c[i], today, today);
    }
  }

  lemma {:induction false} GenerateEvolves(t: TickState, today: int, rolls: nat -> Roll, ordinal: nat, count: nat)
    requires Solvent(t.invoices)
    ensures AllEvolve(t.invoices, Generate(t, today, rolls, ordinal, count).0.invoices, today)
    ensures Solvent(Generate(t, today, rolls, ordinal, count).0.invoices)
    decreases count
  {
    hide Apply, AvailableKinds, AllEvolve;
    if count > 0 && AvailableKinds(t) != [] {
      var kind := Chosen(t, rolls(ordinal));
      assert kind in AvailableKinds(t);
      ApplyEvolves(t, today, kind, rolls(ordinal));
      var next := Apply(t, today, kind, rolls(ordinal)).0;
      GenerateEvolves(next, today, rolls, ordinal + 1, count - 1);
      AllEvolveTrans(t.invoices, next.invoices, Generate(next, today, rolls, ordinal + 1, count - 1).0.invoices, today);
    } else {
      AllEvolveRefl(t.invoices, today);
    }
  }

  lemma AllEvolveRefl(a: seq<Invoice>, today: int)
    requires Solvent(a)
    ensures AllEvolve(a, a, today)
  {
  }

  lemma MorningEvolves(invoices: seq<Invoice>, today: int)
    requires Solvent(invoices)
    ensures AllEvolve(invoices, MarkAllOverdue(invoices, today), today)
    ensures Solvent(MarkAllOverdue(invoices, today))
  {
    hide Sound, PromisesHonest, Evolves;
    forall i | 0 <= i < |invoices|
      ensures Evolves(invoices[i], MarkAllOverdue(invoices, today)[i], today)
      ensures Sound(invoices[i]) ==> Sound(MarkAllOverdue(invoices, today)[i])
      ensures PromisesHonest(invoices[i], today) ==> PromisesHonest(MarkAllOverdue(invoices, today)[i], today)
    {
      if 0 < invoices[i].outstanding {
        StatusEvolves(invoices[i], MarkOverdue(invoices[i], today).status, today);
      } else {
        EvolvesRefl(invoices[i], today);
      }
    }
  }

  /** A tick moves every invoice as the ledger may move, keeps it sound, and stores no promise
      as fulfilled that the evaluator would not call so. */
  lemma TickEvolves(invoices: seq<Invoice>, today: int, rolls: nat -> Roll, secondary: nat)
    requires Solvent(invoices)
    ensures match Tick(invoices, today, rolls, secondary)
            case None => true
            case Some((after, _)) => AllEvolve(invoices, after, today) && Solvent(after)
  {
    hide Generate, AvailableKinds, MarkAllOverdue, AllActive, AllEvolve;
    var morning := Morning(invoices, today);
    MorningEvolves(invoices, today);
    if AvailableKinds(morning) != [] {
      GenerateEvolves(morning, today, rolls, 0, 1 + secondary);
      AllEvolveTrans(invoices, morning.invoices, Generate(morning, today, rolls, 0, 1 + secondary).0.invoices, today);
    }
  }
}
