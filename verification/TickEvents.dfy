/** What each event of a tick does to the invoice it names, on the fields, and what a whole tick
    leaves of the invoices that no event names. */
module TickEvents {
  import opened Domain
  import opened Money
  import opened Ledger
  import opened Simulation
  import opened TickProperties

  /** The status a late open balance takes in the morning; every other status is kept. */
  function MorningStatus(inv: Invoice, today: int): InvoiceStatus {
    if 0 < inv.outstanding && inv.dueDate < today && inv.status in {OpenInvoice, PartiallyPaid} then OverdueInvoice
    else inv.status
  }

  /** The promises of an invoice after a payment: an active promise is fulfilled if and only if
      this one payment covers it. */
  ghost predicate FulfilledBy(before: seq<Promise>, after: seq<Promise>, amount: int) {
    && |after| == |before|
    && forall j :: 0 <= j < |before| ==>
         after[j] == before[j].(status := if before[j].status == ActivePromise && before[j].amount <= amount
                                          then FulfilledPromise else before[j].status)
  }

  /** An amount that is a cent, or else a share of the balance between two bounds, up to the
      rounding of half a cent. */
  predicate ShareBetween(amount: int, balance: int, low: real, high: real) {
    amount == 1 || Part(balance, low) - 0.5 <= amount as real <= Part(balance, high) + 0.5
  }

  /** A payment event: the amount leaves the balance, is booked with today's date, and the invoice
      is paid if and only if nothing is left. */
  ghost predicate PaymentBooked(x: Invoice, y: Invoice, amount: int, today: int) {
    && y.outstanding == x.outstanding - amount
    && y.status == (if y.outstanding == 0 then PaidInvoice else PartiallyPaid)
    && y.payments == x.payments + [Payment(amount, today)]
    && FulfilledBy(x.promises, y.promises, amount)
    && y == x.(outstanding := y.outstanding, status := y.status, payments := y.payments, promises := y.promises)
  }

  /** A new promise: active, of at least a cent and at most the balance, due in three to fourteen
      days, and dated by today's message. */
  ghost predicate PromiseMade(x: Invoice, y: Invoice, amount: int, today: int) {
    && |y.promises| == |x.promises| + 1 && y.promises[..|x.promises|] == x.promises
    && y == x.(promises := y.promises)
    && var p := y.promises[|x.promises|];
       && p.amount == amount && 1 <= amount <= x.outstanding && ShareBetween(amount, x.outstanding, 0.20, 0.75)
       && today + 3 <= p.date <= today + 14
       && p.status == ActivePromise && p.source == Some(today)
  }

  /** A broken promise: one that was active, now dated yesterday; nothing else changes. */
  ghost predicate PromiseBrokenAt(x: Invoice, y: Invoice, j: nat, today: int) {
    && j < |x.promises| && x.promises[j].status == ActivePromise
    && y == x.(promises := x.promises[j := x.promises[j].(status := BrokenPromise, date := today - 1)])
  }

  /** What an event of each kind does to its invoice, and what it needs of it. */
  ghost predicate EventEffect(e: Event, x: Invoice, y: Invoice, today: int) {
    && 0 < x.outstanding
    && match e.kind
       case FullPayment => x.status != Disputed && e.amount == x.outstanding && PaymentBooked(x, y, e.amount, today)
       case PartialPayment =>
         && x.status != Disputed && 1 <= e.amount <= x.outstanding
         && (e.amount == x.outstanding <==> x.outstanding == 1)
         && ShareBetween(e.amount, x.outstanding, 0.08, 0.65)
         && PaymentBooked(x, y, e.amount, today)
       case PromiseCreated =>
         && x.status != Disputed
         && (forall j :: 0 <= j < |x.promises| ==> x.promises[j].status != ActivePromise)
         && PromiseMade(x, y, e.amount, today)
       case PromiseBroken =>
         e.promise.Some? && e.promise.value.invoice == e.invoice
             && PromiseBrokenAt(x, y, e.promise.value.promise, today)
       case DisputeOpened => x.status != Disputed && y == x.(status := Disputed)
       case DisputeResolved =>
         x.status == Disputed && y == x.(status := if x.dueDate < today then OverdueInvoice else OpenInvoice)
       case DelayResponse => x.status != Disputed && y == x
  }

  lemma FractionalBounds(balance: int, draw: Draw, minimum: real, maximum: real)
    requires 0 < balance && 0.0 <= minimum <= maximum < 1.0
    ensures 1 <= FractionalAmount(balance, draw, minimum, maximum) <= balance
    ensures ShareBetween(FractionalAmount(balance, draw, minimum, maximum), balance, minimum, maximum)
  {
    ShareInRange(minimum, maximum, draw);
    ClampedShare(balance, minimum + (maximum - minimum) * draw, minimum, maximum);
  }

  lemma ClampedShare(balance: int, share: real, low: real, high: real)
    requires 0 < balance && low <= share <= high < 1.0
    ensures var amount := Min(Max(1, RoundHalfEven(Part(balance, share))), balance);
            1 <= amount <= balance && ShareBetween(amount, balance, low, high)
  {
    hide RoundHalfEven, Part;
    PartsOrdered(balance, low, share);
    PartsOrdered(balance, share, high);
    PartBelowWhole(balance, low);
    RoundNearest(Part(balance, share));
  }

  lemma ShareInRange(minimum: real, maximum: real, draw: Draw)
    requires minimum <= maximum
    ensures minimum <= minimum + (maximum - minimum) * draw <= maximum
  {
    var width := maximum - minimum;
    ProductNotNegative(width, draw);
    ProductNotNegative(width, 1.0 - draw);
    assert width * (1.0 - draw) == width - width * draw;
  }

  lemma ProductNotNegative(a: real, b: real)
    requires 0.0 <= a && 0.0 <= b
    ensures 0.0 <= a * b
  {
  }

  lemma PaidIsBooked(inv: Invoice, amount: int, today: int)
    ensures PaymentBooked(inv, Paid(inv, amount, today), amount, today)
  {
  }

  /** An event does to the invoice it names exactly what its kind says, and nothing to any other. */
  lemma EventExactly(t: TickState, today: int, kind: EventKind, roll: Roll)
    requires Available(t, kind)
    ensures var (r, e) := Apply(t, today, kind, roll);
            && e.kind == kind && e.invoice < |t.invoices| == |r.invoices|
            && EventEffect(e, t.invoices[e.invoice], r.invoices[e.invoice], today)
            && forall i :: 0 <= i < |t.invoices| && i != e.invoice ==> r.invoices[i] == t.invoices[i]
  {
    hide PaymentBooked, PromiseMade, FractionalAmount, EventAmount, FulfilCovered, Settle, Paid;
    AvailableHasCandidate(t, kind);
    if kind.PromiseBroken? {
      BreakExactly(t, today, roll);
    } else {
      var found := Candidates(t, kind, 0);
      var i := found[roll.candidate % |found|];
      var inv := t.invoices[i];
      assert IsCandidate(t, kind, i);
      match kind
      case PromiseCreated => PromiseExactly(t, today, roll, i);
      case DisputeOpened =>
      case DisputeResolved =>
      case DelayResponse =>
      case PartialPayment | FullPayment =>
        EventAmountBounds(kind, inv.outstanding, roll.share);
        PartialOfOne(kind, inv.outstanding, roll.share);
        PaidIsBooked(inv, EventAmount(kind, inv.outstanding, roll.share), today);
    }
  }

  lemma PartialOfOne(kind: EventKind, balance: int, draw: Draw)
    requires 0 < balance
    ensures kind.FullPayment? ==> EventAmount(kind, balance, draw) == balance
    ensures balance == 1 ==> EventAmount(kind, balance, draw) == 1
    ensures !kind.FullPayment? ==> ShareBetween(EventAmount(kind, balance, draw), balance, 0.08, 0.65)
  {
    EventAmountBounds(kind, balance, draw);
    FractionalBounds(balance, draw, 0.08, 0.65);
    hide FractionalAmount, Part;
    PartBelowWhole(balance, 0.65);
    PartBelowWhole(balance, 0.08);
  }

  lemma BreakExactly(t: TickState, today: int, roll: Roll)
    requires Available(t, PromiseBroken)
    ensures var (r, e) := Apply(t, today, PromiseBroken, roll);
            && e.kind == PromiseBroken && e.invoice < |t.invoices| == |r.invoices|
            && EventEffect(e, t.invoices[e.invoice], r.invoices[e.invoice], today)
            && forall i :: 0 <= i < |t.invoices| && i != e.invoice ==> r.invoices[i] == t.invoices[i]
  {
    AvailableHasCandidate(t, PromiseBroken);
    var found := BreakCandidates(t, t.active);
    assert StillActive(t.invoices, found[roll.candidate % |found|]);
  }

  lemma PromiseExactly(t: TickState, today: int, roll: Roll, i: nat)
    requires Available(t, PromiseCreated) && i < |t.invoices| && IsCandidate(t, PromiseCreated, i)
    requires var found := Candidates(t, PromiseCreated, 0); found != [] && i == found[roll.candidate % |found|]
    ensures var (r, e) := Apply(t, today, PromiseCreated, roll);
            && e.kind == PromiseCreated && e.invoice == i
            && PromiseMade(t.invoices[i], r.invoices[i], e.amount, today)
            && forall k :: 0 <= k < |t.invoices| && k != i ==> r.invoices[k] == t.invoices[k]
  {
    hide FractionalAmount, Candidates;
    var inv := t.invoices[i];
    FractionalBounds(inv.outstanding, roll.share, PROMISE_FRACTION_MIN, PROMISE_FRACTION_MAX);
  }

  // ---------------------------------------------------------------- a whole tick

  /** The invoices after each of a list of events, from the morning on. */
  ghost predicate Follows(before: seq<Invoice>, events: seq<Event>, after: seq<Invoice>, today: int)
    decreases |events|
  {
    if events == [] then after == before
    else
      exists next: seq<Invoice> ::
        StepFollows(before, events[0], next, today) && Follows(next, events[1..], after, today)
  }

  ghost predicate StepFollows(before: seq<Invoice>, e: Event, next: seq<Invoice>, today: int) {
    && |next| == |before| && e.invoice < |before|
    && EventEffect(e, before[e.invoice], next[e.invoice], today)
    && forall i :: 0 <= i < |before| && i != e.invoice ==> next[i] == before[i]
  }

  lemma {:induction false} GenerateFollows(t: TickState, today: int, rolls: nat -> Roll, ordinal: nat, count: nat)
    ensures var (r, events) := Generate(t, today, rolls, ordinal, count);
            Follows(t.invoices, events, r.invoices, today)
    decreases count
  {
    hide Apply, EventEffect;
    if count != 0 && AvailableKinds(t) != [] {
      var kind := Chosen(t, rolls(ordinal));
      assert kind in AvailableKinds(t);
      EventExactly(t, today, kind, rolls(ordinal));
      var (next, event) := Apply(t, today, kind, rolls(ordinal));
      GenerateFollows(next, today, rolls, ordinal + 1, count - 1);
      var (last, events) := Generate(next, today, rolls, ordinal + 1, count - 1);
      FollowsFirst(t.invoices, event, next.invoices, events, last.invoices, today);
    }
  }

  lemma FollowsFirst(before: seq<Invoice>, e: Event, next: seq<Invoice>, events: seq<Event>, after: seq<Invoice>,
                     today: int)
    requires StepFollows(before, e, next, today) && Follows(next, events, after, today)
    ensures Follows(before, [e] + events, after, today)
  {
    hide StepFollows;
    var all := [e] + events;
    assert all[0] == e && all[1..] == events;
  }

  predicate Named(events: seq<Event>, i: nat) {
    exists k :: 0 <= k < |events| && events[k].invoice == i
  }

  /** An invoice no event names is left as the morning made it. */
  lemma {:induction false} UnnamedStands(before: seq<Invoice>, events: seq<Event>, after: seq<Invoice>, today: int,
                                         i: nat)
    requires Follows(before, events, after, today) && i < |before| && !Named(events, i)
    ensures |after| == |before| && after[i] == before[i]
    decreases |events|
  {
    hide EventEffect;
    if events != [] {
      var next: seq<Invoice> :| StepFollows(before, events[0], next, today) && Follows(next, events[1..], after, today);
      assert events[0].invoice != i;
      assert forall k :: 0 <= k < |events| - 1 ==> events[1..][k] == events[k + 1];
      UnnamedStands(next, events[1..], after, today, i);
    }
  }

  /** A tick exactly. In the morning every open or partially paid invoice with a balance past its
      due date becomes overdue and all other statuses are kept; then the logged events follow
      one another, each with the effect of its kind; and an invoice that none of them names is
      left as the morning made it. There is no tick only if no kind of event is available. */
  lemma TickExactly(invoices: seq<Invoice>, today: int, rolls: nat -> Roll, secondary: nat)
    ensures match Tick(invoices, today, rolls, secondary)
            case None => forall kind :: !Available(Morning(invoices, today), kind)
            case Some((after, events)) =>
              && |after| == |invoices|
              && (exists morning: seq<Invoice> ::
                    && |morning| == |invoices|
                    && (forall i :: 0 <= i < |invoices| ==>
                          morning[i] == invoices[i].(status := MorningStatus(invoices[i], today)))
                    && Follows(morning, events, after, today))
              && (forall i: nat :: i < |invoices| && !Named(events, i) ==>
                    after[i] == invoices[i].(status := MorningStatus(invoices[i], today)))
  {
    hide Generate, AllActive, EventEffect, Follows, Named;
    var morning := Morning(invoices, today);
    forall i | 0 <= i < |invoices|
      ensures morning.invoices[i] == invoices[i].(status := MorningStatus(invoices[i], today))
    {
      assert morning.invoices[i] == MarkOverdue(invoices[i], today);
    }
    if AvailableKinds(morning) == [] {
      assert forall kind :: Available(morning, kind) ==> kind in AvailableKinds(morning);
    } else {
      GenerateFollows(morning, today, rolls, 0, 1 + secondary);
      var (last, events) := Generate(morning, today, rolls, 0, 1 + secondary);
      forall i: nat | i < |invoices| && !Named(events, i)
        ensures last.invoices[i] == invoices[i].(status := MorningStatus(invoices[i], today))
      {
        UnnamedStands(morning.invoices, events, last.invoices, today, i);
      }
    }
  }

  // ---------------------------------------------------------------- when there is something to do

  lemma {:induction false} ActivePromisesAre(inv: Invoice, i: nat, from: nat, r: PromiseRef)
    requires from <= |inv.promises|
    ensures r in ActivePromises(inv, i, from) <==>
              r.invoice == i && from <= r.promise < |inv.promises| && inv.promises[r.promise].status == ActivePromise
    decreases |inv.promises| - from
  {
    if from < |inv.promises| {
      ActivePromisesAre(inv, i, from + 1, r);
    }
  }

  lemma {:induction false} AllActiveAre(invoices: seq<Invoice>, from: nat, r: PromiseRef)
    requires from <= |invoices|
    ensures r in AllActive(invoices, from) <==>
              && from <= r.invoice < |invoices| && r.promise < |invoices[r.invoice].promises|
              && invoices[r.invoice].promises[r.promise].status == ActivePromise
    decreases |invoices| - from
  {
    if from < |invoices| {
      AllActiveAre(invoices, from + 1, r);
      ActivePromisesAre(invoices[from], from, 0, r);
    }
  }

  /** What an invoice must be like for a kind of event to be possible on it in the morning. */
  predicate MorningTarget(inv: Invoice, kind: EventKind) {
    && 0 < inv.outstanding
    && match kind
       case DisputeResolved => inv.status == Disputed
       case PromiseBroken => exists j :: 0 <= j < |inv.promises| && inv.promises[j].status == ActivePromise
       case PartialPayment => inv.status != Disputed && 1 < inv.outstanding
       case PromiseCreated =>
         inv.status != Disputed && forall j :: 0 <= j < |inv.promises| ==> inv.promises[j].status != ActivePromise
       case _ => inv.status != Disputed
  }

  lemma MorningKeepsFacts(inv: Invoice, today: int)
    ensures var m := MarkOverdue(inv, today);
            && m.outstanding == inv.outstanding && m.promises == inv.promises
            && (Payable(m) <==> 0 < inv.outstanding && inv.status != Disputed)
            && (UnderDispute(m) <==> 0 < inv.outstanding && inv.status == Disputed)
            && (HasActivePromise(m) <==> exists j :: 0 <= j < |inv.promises| && inv.promises[j].status == ActivePromise)
  {
  }

  lemma UnusedKinds(invoices: seq<Invoice>, today: int, kind: EventKind)
    requires !kind.PromiseBroken?
    ensures Available(Morning(invoices, today), kind)
            <==> exists i :: 0 <= i < |invoices| && MorningTarget(invoices[i], kind)
  {
    hide AllActive, Payable, UnderDispute, HasActivePromise, MarkOverdue;
    var morning := Morning(invoices, today);
    forall i | 0 <= i < |invoices|
      ensures morning.invoices[i] == MarkOverdue(invoices[i], today)
      ensures Payable(morning.invoices[i]) <==> 0 < invoices[i].outstanding && invoices[i].status != Disputed
      ensures UnderDispute(morning.invoices[i]) <==> 0 < invoices[i].outstanding && invoices[i].status == Disputed
      ensures morning.invoices[i].outstanding == invoices[i].outstanding
      ensures HasActivePromise(morning.invoices[i]) <==>
                exists j :: 0 <= j < |invoices[i].promises| && invoices[i].promises[j].status == ActivePromise
    {
      MorningKeepsFacts(invoices[i], today);
    }
    if i :| 0 <= i < |invoices| && MorningTarget(invoices[i], kind) {
      assert 0 <= i < |morning.invoices| && OnInvoice(kind, i) !in morning.used;
    }
  }

  /** Which kinds of event are possible at the start of a tick: a promise can be broken when one
      was active that morning and something is still owed on its invoice; every other kind needs
      an undisputed balance, of more than a cent for a partial payment and without an active
      promise for a new one, except the end of a dispute, which needs a disputed one. */
  lemma MorningKindsExactly(invoices: seq<Invoice>, today: int, kind: EventKind)
    ensures kind in AvailableKinds(Morning(invoices, today)) <==>
              exists i :: 0 <= i < |invoices| && MorningTarget(invoices[i], kind)
  {
    hide Available, Morning, MorningTarget;
    if kind.PromiseBroken? {
      BreakableExactly(invoices, today);
    } else {
      UnusedKinds(invoices, today, kind);
    }
  }

  lemma BreakableExactly(invoices: seq<Invoice>, today: int)
    ensures Available(Morning(invoices, today), PromiseBroken) <==>
              exists i :: 0 <= i < |invoices| && MorningTarget(invoices[i], PromiseBroken)
  {
    hide AllActive, MarkOverdue;
    var morning := Morning(invoices, today);
    forall i | 0 <= i < |invoices|
      ensures morning.invoices[i].promises == invoices[i].promises
      ensures morning.invoices[i].outstanding == invoices[i].outstanding
    {
      MorningKeepsFacts(invoices[i], today);
    }
    if Available(morning, PromiseBroken) {
      var k :| 0 <= k < |morning.active| && StillActive(morning.invoices, morning.active[k]);
      assert MorningTarget(invoices[morning.active[k].invoice], PromiseBroken);
    }
    if i :| 0 <= i < |invoices| && MorningTarget(invoices[i], PromiseBroken) {
      var j :| 0 <= j < |invoices[i].promises| && invoices[i].promises[j].status == ActivePromise;
      AllActiveAre(invoices, 0, PromiseRef(i, j));
      var k :| 0 <= k < |morning.active| && morning.active[k] == PromiseRef(i, j);
      assert StillActive(morning.invoices, morning.active[k]);
    }
  }

  /** A tick is refused if and only if nothing is owed on any invoice. */
  lemma RefusedExactly(invoices: seq<Invoice>, today: int, rolls: nat -> Roll, secondary: nat)
    ensures Tick(invoices, today, rolls, secondary) == None
            <==> forall i :: 0 <= i < |invoices| ==> invoices[i].outstanding <= 0
  {
    hide Generate, AllActive, Available;
    var kinds := AvailableKinds(Morning(invoices, today));
    forall kind
      ensures kind in kinds <==> exists i :: 0 <= i < |invoices| && MorningTarget(invoices[i], kind)
    {
      MorningKindsExactly(invoices, today, kind);
    }
    hide AvailableKinds, Morning;
    assert kinds == [] || kinds[0] in kinds;
    if i :| 0 <= i < |invoices| && 0 < invoices[i].outstanding {
      assert MorningTarget(invoices[i], FullPayment) || MorningTarget(invoices[i], DisputeResolved);
      assert FullPayment in kinds || DisputeResolved in kinds;
    }
  }
}
