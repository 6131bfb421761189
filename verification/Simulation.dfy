/** Simulation ticks (simulation/service.py): a day passes, overdue invoices are marked, and a
    number of generated events change invoices and promises. Every random pick is an input. */
module Simulation {
  import opened Domain
  import opened Money
  import opened Ledger

  datatype EventKind =
    | PartialPayment | FullPayment | PromiseCreated | PromiseBroken | DisputeOpened | DisputeResolved | DelayResponse

  datatype PromiseRef = PromiseRef(invoice: nat, promise: nat)

  /** The targets already used within a tick. */
  datatype UsedKey = OnInvoice(kind: EventKind, invoice: nat) | OnPromise(ref: PromiseRef)

  /** One generated event: its target, the invoice and the promise it recorded. */
  datatype Event = Event(kind: EventKind, key: UsedKey, invoice: nat, promise: Option<PromiseRef>, amount: int)

  /** The random picks behind one event: which kind, which candidate, which share of a
      balance, how many days, and the identity of a row it creates. */
  datatype Roll = Roll(kind: nat, candidate: nat, share: Draw, days: nat, newId: nat)

  /** The working state of a tick. */
  datatype TickState = TickState(invoices: seq<Invoice>, active: seq<PromiseRef>, used: set<UsedKey>)

  const PROMISE_FRACTION_MIN := 0.20
  const PROMISE_FRACTION_MAX := 0.75
  const PROMISE_DAYS_MIN := 3
  const PROMISE_DAYS_MAX := 14

  // ---------------------------------------------------------------- candidates

  predicate Payable(inv: Invoice) {
    0 < inv.outstanding && !inv.status.Disputed?
  }

  predicate UnderDispute(inv: Invoice) {
    0 < inv.outstanding && inv.status.Disputed?
  }

  predicate HasActivePromise(inv: Invoice) {
    exists j :: 0 <= j < |inv.promises| && inv.promises[j].status.ActivePromise?
  }

  predicate ValidRef(invoices: seq<Invoice>, r: PromiseRef) {
    r.invoice < |invoices| && r.promise < |invoices[r.invoice].promises|
  }

  predicate StillActive(invoices: seq<Invoice>, r: PromiseRef) {
    ValidRef(invoices, r) && invoices[r.invoice].promises[r.promise].status.ActivePromise?
        && 0 < invoices[r.invoice].outstanding
  }

  /** Whether an invoice is a candidate for a kind of event when that event is applied. */
  predicate IsCandidate(t: TickState, kind: EventKind, i: nat)
    requires i < |t.invoices|
  {
    && OnInvoice(kind, i) !in t.used
    && (match kind
        case PromiseCreated => Payable(t.invoices[i]) && !HasActivePromise(t.invoices[i])
        case DisputeResolved => UnderDispute(t.invoices[i])
        case _ => Payable(t.invoices[i]))
  }

  function Candidates(t: TickState, kind: EventKind, from: nat): (found: seq<nat>)
    requires from <= |t.invoices|
    ensures forall k :: 0 <= k < |found| ==> from <= found[k] < |t.invoices| && IsCandidate(t, kind, found[k])
    ensures forall i :: from <= i < |t.invoices| && IsCandidate(t, kind, i) ==> i in found
    decreases |t.invoices| - from
  {
    if from == |t.invoices| then []
    else if IsCandidate(t, kind, from) then [from] + Candidates(t, kind, from + 1)
    else Candidates(t, kind, from + 1)
  }

  function BreakCandidates(t: TickState, active: seq<PromiseRef>): (found: seq<PromiseRef>)
    ensures forall k :: 0 <= k < |found| ==>
              found[k] in active && StillActive(t.invoices, found[k]) && OnPromise(found[k]) !in t.used
    ensures forall k :: 0 <= k < |active| && StillActive(t.invoices, active[k]) && OnPromise(active[k]) !in t.used ==>
              active[k] in found
  {
    if active == [] then []
    else
      var rest := BreakCandidates(t, active[1..]);
      if StillActive(t.invoices, active[0]) && OnPromise(active[0]) !in t.used then [active[0]] + rest else rest
  }

  /** The availability test made before a kind is chosen. A partial payment additionally
      wants a balance above one cent here, although its candidates do not. */
  predicate Available(t: TickState, kind: EventKind) {
    match kind
    case PartialPayment =>
      exists i :: 0 <= i < |t.invoices| && Payable(t.invoices[i]) && OnInvoice(kind, i) !in t.used
          && 1 < t.invoices[i].outstanding
    case PromiseCreated =>
      exists i :: 0 <= i < |t.invoices| && Payable(t.invoices[i]) && !HasActivePromise(t.invoices[i])
          && OnInvoice(kind, i) !in t.used
    case PromiseBroken =>
      exists k :: 0 <= k < |t.active| && StillActive(t.invoices, t.active[k]) && OnPromise(t.active[k]) !in t.used
    case DisputeResolved =>
      exists i :: 0 <= i < |t.invoices| && UnderDispute(t.invoices[i]) && OnInvoice(kind, i) !in t.used
    case _ =>
      exists i :: 0 <= i < |t.invoices| && Payable(t.invoices[i]) && OnInvoice(kind, i) !in t.used
  }

  const ALL_KINDS := [PartialPayment, FullPayment, PromiseCreated, PromiseBroken, DisputeOpened, DisputeResolved,
                      DelayResponse]

  function AvailableAmong(t: TickState, kinds: seq<EventKind>): (found: seq<EventKind>)
    ensures forall k :: k in found <==> k in kinds && Available(t, k)
  {
    if kinds == [] then []
    else
      var rest := AvailableAmong(t, kinds[1..]);
      if Available(t, kinds[0]) then [kinds[0]] + rest else rest
  }

  function AvailableKinds(t: TickState): (found: seq<EventKind>)
    ensures forall k :: k in found <==> Available(t, k)
  {
    AvailableAmong(t, ALL_KINDS)
  }

  /** Event generation never gets stuck: a kind that is available has a candidate. */
  lemma AvailableHasCandidate(t: TickState, kind: EventKind)
    requires Available(t, kind)
    ensures if kind.PromiseBroken? then BreakCandidates(t, t.active) != [] else Candidates(t, kind, 0) != []
  {
    if kind.PromiseBroken? {
      var k :| 0 <= k < |t.active| && StillActive(t.invoices, t.active[k]) && OnPromise(t.active[k]) !in t.used;
      assert t.active[k] in BreakCandidates(t, t.active);
    } else {
      var i :| 0 <= i < |t.invoices| && OnInvoice(kind, i) !in t.used && IsCandidate(t, kind, i);
      assert i in Candidates(t, kind, 0);
    }
  }

  // ---------------------------------------------------------------- one event

  function FractionalAmount(balance: int, draw: Draw, minimum: real, maximum: real): int {
    Min(Max(1, RoundHalfEven(Part(balance, minimum + (maximum - minimum) * draw))), balance)
  }

  /** The amount of a payment event; a partial payment leaves at least a cent, unless one cent
      is all there is. */
  function EventAmount(kind: EventKind, balance: int, draw: Draw): int {
    if kind.FullPayment? then balance
    else
      var amount := FractionalAmount(balance, draw, FRACTION_MIN, FRACTION_MAX);
      if amount >= balance then Max(1, balance - 1) else amount
  }

  /** A payment fulfils an active promise it covers on its own. */
  function Fulfil(p: Promise, amount: int): Promise {
    if p.status.ActivePromise? && amount >= p.amount then p.(status := FulfilledPromise) else p
  }

  function FulfilCovered(promises: seq<Promise>, amount: int): (r: seq<Promise>)
    ensures |r| == |promises|
    ensures forall j :: 0 <= j < |promises| ==> r[j] == Fulfil(promises[j], amount)
  {
    if promises == [] then [] else [Fulfil(promises[0], amount)] + FulfilCovered(promises[1..], amount)
  }

  function Paid(inv: Invoice, amount: int, today: int): Invoice {
    Settle(inv, amount, today).(promises := FulfilCovered(inv.promises, amount))
  }

  function BreakPromise(p: Promise, today: int): Promise {
    p.(date := today - 1, status := BrokenPromise)
  }

  function WithInvoice(t: TickState, i: nat, inv: Invoice): TickState
    requires i < |t.invoices|
  {
    t.(invoices := t.invoices[i := inv])
  }

  /** Apply one event of an available kind. */
  function Apply(t: TickState, today: int, kind: EventKind, roll: Roll): (r: (TickState, Event))
    requires Available(t, kind)
    ensures |r.0.invoices| == |t.invoices|
  {
    AvailableHasCandidate(t, kind);
    if kind.PromiseBroken? then
      var found := BreakCandidates(t, t.active);
      var ref := found[roll.candidate % |found|];
      var inv := t.invoices[ref.invoice];
      var promise := BreakPromise(inv.promises[ref.promise], today);
      var broken := WithInvoice(t, ref.invoice, inv.(promises := inv.promises[ref.promise := promise]));
      (broken.(used := t.used + {OnPromise(ref), OnInvoice(kind, ref.invoice)}),
       Event(kind, OnPromise(ref), ref.invoice, Some(ref), 0))
    else
      var found := Candidates(t, kind, 0);
      var i := found[roll.candidate % |found|];
      var inv := t.invoices[i];
      var key := OnInvoice(kind, i);
      match kind
      case PromiseCreated =>
        var amount := FractionalAmount(inv.outstanding, roll.share, PROMISE_FRACTION_MIN, PROMISE_FRACTION_MAX);
        var due := today + PROMISE_DAYS_MIN + roll.days % (PROMISE_DAYS_MAX - PROMISE_DAYS_MIN + 1);
        var ref := PromiseRef(i, |inv.promises|);
        var made := inv.(promises := inv.promises + [Promise(roll.newId, amount, due, ActivePromise, Some(today))]);
        (TickState(t.invoices[i := made], t.active + [ref], t.used + {OnPromise(ref), key}),
         Event(kind, key, i, Some(ref), amount))
      case DisputeOpened =>
        (WithInvoice(t, i, inv.(status := Disputed)).(used := t.used + {OnInvoice(DisputeResolved, i), key}),
         Event(kind, key, i, None, 0))
      case DisputeResolved =>
        var status := if inv.dueDate < today then OverdueInvoice else OpenInvoice;
        (WithInvoice(t, i, inv.(status := status)).(used := t.used + {OnInvoice(DisputeOpened, i), key}),
         Event(kind, key, i, None, 0))
      case DelayResponse =>
        (t.(used := t.used + {key}), Event(kind, key, i, None, 0))
      case PartialPayment | FullPayment =>
        var amount := EventAmount(kind, inv.outstanding, roll.share);
        (WithInvoice(t, i, Paid(inv, amount, today)).(used := t.used + {key}), Event(kind, key, i, None, amount))
  }

  // ---------------------------------------------------------------- a tick

  function Chosen(t: TickState, roll: Roll): EventKind
    requires AvailableKinds(t) != []
  {
    AvailableKinds(t)[roll.kind % |AvailableKinds(t)|]
  }

  /** Generate up to `count` events, stopping early when no kind is available. */
  function Generate(t: TickState, today: int, rolls: nat -> Roll, ordinal: nat,
                    count: nat): (r: (TickState, seq<Event>))
    ensures |r.0.invoices| == |t.invoices| && |r.1| <= count
    decreases count
  {
    if count == 0 || AvailableKinds(t) == [] then (t, [])
    else
      var kind := Chosen(t, rolls(ordinal));
      assert kind in AvailableKinds(t);
      var (next, event) := Apply(t, today, kind, rolls(ordinal));
      var (last, events) := Generate(next, today, rolls, ordinal + 1, count - 1);
      (last, [event] + events)
  }

  /** The daily overdue rule: disputed, settled and closed-out invoices keep their status. */
  function MarkOverdue(inv: Invoice, today: int): Invoice {
    if 0 < inv.outstanding && inv.dueDate < today && (inv.status.OpenInvoice? || inv.status.PartiallyPaid?)
    then inv.(status := OverdueInvoice) else inv
  }

  function MarkAllOverdue(invoices: seq<Invoice>, today: int): (r: seq<Invoice>)
    ensures |r| == |invoices|
    ensures forall i :: 0 <= i < |invoices| ==> r[i] == MarkOverdue(invoices[i], today)
  {
    if invoices == [] then [] else [MarkOverdue(invoices[0], today)] + MarkAllOverdue(invoices[1..], today)
  }

  function ActivePromises(inv: Invoice, i: nat, from: nat): (refs: seq<PromiseRef>)
    requires from <= |inv.promises|
    ensures forall k :: 0 <= k < |refs| ==> refs[k].invoice == i && from <= refs[k].promise < |inv.promises|
    decreases |inv.promises| - from
  {
    if from == |inv.promises| then []
    else if inv.promises[from].status.ActivePromise? then [PromiseRef(i, from)] + ActivePromises(inv, i, from + 1)
    else ActivePromises(inv, i, from + 1)
  }

  function AllActive(invoices: seq<Invoice>, from: nat): (refs: seq<PromiseRef>)
    requires from <= |invoices|
    ensures forall k :: 0 <= k < |refs| ==> ValidRef(invoices, refs[k])
    decreases |invoices| - from
  {
    if from == |invoices| then [] else ActivePromises(invoices[from], from, 0) + AllActive(invoices, from + 1)
  }

  /** The morning of a tick: the active promises are those active before the overdue rule. */
  function Morning(invoices: seq<Invoice>, today: int): TickState {
    TickState(MarkAllOverdue(invoices, today), AllActive(invoices, 0), {})
  }

  /** A whole tick: one primary event and up to `secondary` more. No available kind at all
      is an error, and nothing is changed. */
  function Tick(invoices: seq<Invoice>, today: int, rolls: nat -> Roll,
                secondary: nat): (r: Option<(seq<Invoice>, seq<Event>)>)
    ensures r.Some? ==> |r.value.0| == |invoices|
  {
    var morning := Morning(invoices, today);
    if AvailableKinds(morning) == [] then None
    else
      var (last, events) := Generate(morning, today, rolls, 0, 1 + secondary);
      Some((last.invoices, events))
  }

  // ---------------------------------------------------------------- the simulator in place

  method FulfilPromises(promises: seq<Promise>, amount: int) returns (r: seq<Promise>)
    ensures r == FulfilCovered(promises, amount)
  {
    r := promises;
    for j := 0 to |promises|
      invariant |r| == |promises|
      invariant forall k :: 0 <= k < j ==> r[k] == Fulfil(promises[k], amount)
      invariant forall k :: j <= k < |promises| ==> r[k] == promises[k]
    {
      if r[j].status.ActivePromise? && amount >= r[j].amount {
        r := r[j := r[j].(status := FulfilledPromise)];
      }
    }
  }

  class Simulator {
    var today: int
    var cycle: nat
    var invoices: seq<Invoice>
    var active: seq<PromiseRef>
    var used: set<UsedKey>

    ghost function State(): TickState
      reads this
    {
      TickState(invoices, active, used)
    }

    constructor (invoices: seq<Invoice>, today: int)
      ensures this.invoices == invoices && this.today == today && cycle == 0
    {
      this.invoices, this.today, cycle, active, used := invoices, today, 0, [], {};
    }

    method ReceivePayment(kind: EventKind, i: nat, share: Draw) returns (amount: int)
      requires i < |invoices|
      modifies `invoices
      ensures amount == EventAmount(kind, old(invoices)[i].outstanding, share)
      ensures invoices == old(invoices)[i := Paid(old(invoices)[i], amount, today)]
    {
      hide EventAmount, FulfilCovered;
      var inv := invoices[i];
      amount := EventAmount(kind, inv.outstanding, share);
      var promises := FulfilPromises(inv.promises, amount);
      invoices := invoices[i := Settle(inv, amount, today).(promises := promises)];
    }

    method ApplyGeneratedEvent(kind: EventKind, roll: Roll) returns (event: Event)
      requires Available(State(), kind)
      modifies `invoices, `active, `used
      ensures (State(), event) == Apply(old(State()), today, kind, roll)
    {
      hide Paid, EventAmount, FractionalAmount;
      AvailableHasCandidate(State(), kind);
      if kind.PromiseBroken? {
        var found := BreakCandidates(TickState(invoices, active, used), active);
        var ref := found[roll.candidate % |found|];
        var inv := invoices[ref.invoice];
        var broken := BreakPromise(inv.promises[ref.promise], today);
        invoices := invoices[ref.invoice := inv.(promises := inv.promises[ref.promise := broken])];
        used := used + {OnPromise(ref), OnInvoice(kind, ref.invoice)};
        return Event(kind, OnPromise(ref), ref.invoice, Some(ref), 0);
      }
      var found := Candidates(TickState(invoices, active, used), kind, 0);
      var i := found[roll.candidate % |found|];
      var inv := invoices[i];
      var key := OnInvoice(kind, i);
      event := Event(kind, key, i, None, 0);
      match kind {
        case PromiseCreated =>
          var amount := FractionalAmount(inv.outstanding, roll.share, PROMISE_FRACTION_MIN, PROMISE_FRACTION_MAX);
          var due := today + PROMISE_DAYS_MIN + roll.days % (PROMISE_DAYS_MAX - PROMISE_DAYS_MIN + 1);
          var ref := PromiseRef(i, |inv.promises|);
          invoices := invoices[i := inv.(promises := inv.promises
                                         + [Promise(roll.newId, amount, due, ActivePromise, Some(today))])];
          active := active + [ref];
          used := used + {OnPromise(ref), key};
          event := Event(kind, key, i, Some(ref), amount);
        case DisputeOpened =>
          invoices := invoices[i := inv.(status := Disputed)];
          used := used + {OnInvoice(DisputeResolved, i), key};
        case DisputeResolved =>
          invoices := invoices[i := inv.(status := if inv.dueDate < today then OverdueInvoice else OpenInvoice)];
          used := used + {OnInvoice(DisputeOpened, i), key};
        case DelayResponse =>
          used := used + {key};
        case PartialPayment | FullPayment =>
          var amount := ReceivePayment(kind, i, roll.share);
          used := used + {key};
          event := Event(kind, key, i, None, amount);
      }
    }

    method ApplyOverdueRules()
      modifies `invoices
      ensures invoices == MarkAllOverdue(old(invoices), today)
    {
      hide MarkOverdue;
      ghost var before := invoices;
      for i := 0 to |invoices|
        invariant |invoices| == |before|
        invariant forall k :: 0 <= k < i ==> invoices[k] == MarkOverdue(before[k], today)
        invariant forall k :: i <= k < |before| ==> invoices[k] == before[k]
      {
        var marked := MarkOverdue(invoices[i], today);
        if marked != invoices[i] {
          invoices := invoices[i := marked];
        }
      }
    }

    /** The event loop after the primary event. */
    method GenerateEvents(rolls: nat -> Roll, first: nat, count: nat) returns (events: seq<Event>)
      modifies `invoices, `active, `used
      ensures (State(), events) == Generate(old(State()), today, rolls, first, count)
    {
      hide Apply, AvailableKinds;
      events := [];
      var ordinal := first;
      ghost var total := Generate(State(), today, rolls, first, count);
      assert [] + total.1 == total.1;
      while ordinal < first + count
        invariant first <= ordinal <= first + count
        invariant var rest := Generate(State(), today, rolls, ordinal, first + count - ordinal);
                  rest.0 == total.0 && events + rest.1 == total.1
      {
        var valid := AvailableKinds(TickState(invoices, active, used));
        if valid == [] {
          break;
        }
        var kind := valid[rolls(ordinal).kind % |valid|];
        assert kind in valid;
        var event := ApplyGeneratedEvent(kind, rolls(ordinal));
        ordinal := ordinal + 1;
        ghost var rest := Generate(State(), today, rolls, ordinal, first + count - ordinal);
        assert events + ([event] + rest.1) == (events + [event]) + rest.1;
        events := events + [event];
      }
      assert events + [] == events;
    }

    /** One tick. The day and the cycle advance, unless there is nothing to generate. */
    method RunTick(rolls: nat -> Roll, secondary: nat) returns (events: Option<seq<Event>>)
      modifies this
      ensures match Tick(old(invoices), old(today) + 1, rolls, secondary)
              case None => events.None? && invoices == old(invoices) && today == old(today) && cycle == old(cycle)
              case Some((after, log)) =>
                events == Some(log) && invoices == after && today == old(today) + 1 && cycle == old(cycle) + 1
    {
      hide Generate, AvailableKinds, MarkAllOverdue, AllActive;
      var before := invoices;
      cycle, today := cycle + 1, today + 1;
      active, used := AllActive(invoices, 0), {};
      ApplyOverdueRules();
      if AvailableKinds(TickState(invoices, active, used)) == [] {
        cycle, today, invoices := cycle - 1, today - 1, before;
        return None;
      }
      var log := GenerateEvents(rolls, 0, 1 + secondary);
      events := Some(log);
    }
  }
}
