/** Where the payments of an arm come from: what a shadow copy starts with, which promise or which
    draw stands behind every payment row, and that no payment due is left out. */
module ArmPayments {
  import opened Domain
  import opened Money
  import opened Engine
  import opened Recommendations
  import opened Experiment
  import opened ArmSteps
  import opened ArmSafety

  // ---------------------------------------------------------------- the shadow copy

  /** A promise of the copy and the promise it stands for. */
  predicate Copies(copy: Promise, p: Promise, balance: int, state: PromiseState) {
    && copy.id == p.id && copy.date == p.date && copy.source == None
    && copy.amount == (if p.amount <= balance then p.amount else balance)
    && (state == IsActive || state == IsBroken)
    && copy.status == (if state == IsActive then ActivePromise else BrokenPromise)
  }

  lemma {:induction false} ShadowPromisesExactly(promises: seq<Promise>, payments: seq<Payment>, balance: int,
                                                 today: int)
    ensures var shadows := ShadowPromises(promises, payments, balance, today);
            && (forall copy :: copy in shadows ==>
                  exists p :: p in promises && Copies(copy, p, balance, EvaluatePromise(p, payments, today)))
            && (forall p :: p in promises && EvaluatePromise(p, payments, today) in {IsActive, IsBroken} ==>
                  exists copy :: copy in shadows && Copies(copy, p, balance, EvaluatePromise(p, payments, today)))
  {
    hide EvaluatePromise;
    if promises != [] {
      ShadowPromisesExactly(promises[1..], payments, balance, today);
      var rest := ShadowPromises(promises[1..], payments, balance, today);
      var all := ShadowPromises(promises, payments, balance, today);
      assert forall copy :: copy in rest ==> copy in all;
      assert forall p :: p in promises <==> p == promises[0] || p in promises[1..];
      if EvaluatePromise(promises[0], payments, today) in {IsActive, IsBroken} {
        assert all[0] in all && Copies(all[0], promises[0], balance, EvaluatePromise(promises[0], payments, today));
      }
    }
  }

  /** The copy an arm starts from: the case as it is, with the balance as its original amount and
      without payments, actions, consent columns or closing date; and no record of its own. */
  lemma ShadowExactly(source: RecoveryCase, name: ArmName, today: int)
    requires source.invoice.Some?
    ensures var s := InitialArm(source, name, today); var inv := source.invoice.value;
            && s.Backed() && s.name == name && s.starting == inv.outstanding
            && s.shadow == source.(invoice := s.shadow.invoice, closed := false, actions := [],
                                   customer := Customer(source.customer.strategic, None, None))
            && s.Invoice() == inv.(original := inv.outstanding, payments := [], promises := s.Invoice().promises)
            && s.Invoice().promises == ShadowPromises(inv.promises, inv.payments, inv.outstanding, today)
            && s.recovered == 0 && s.attempts == s.completed == s.disputeViolations == s.promiseViolations == 0
            && !s.deferred && s.lastActionDay == None && s.response == None && s.fullyRecoveredDay == None
            && s.payments == [] && s.actions == [] && s.decisions == []
  {
  }

  // ---------------------------------------------------------------- one promise, one draw

  /** What a day does to one promise: an active one whose date has come is kept when the draw
      falls below 0.55, and paid as far as the balance goes; one past its date and not kept is
      broken; and any other is left alone. */
  lemma PromiseStepExactly(s: ArmState, draws: Draws, day: int, date: int, j: nat)
    requires s.Backed() && 0 <= s.Outstanding() && j < |s.Invoice().promises|
    ensures var r := PromiseStep(s, draws, day, date, j); var p := s.Invoice().promises[j];
            var due := p.status == ActivePromise && p.date <= date;
            var kept := due && draws(day, PromiseKept(p.id)) < 0.55;
            var paid := if kept then (if p.amount <= s.Outstanding() then p.amount else s.Outstanding()) else 0;
            && r.Invoice().promises == s.Invoice().promises[j := p.(
                 status := if kept then FulfilledPromise
                           else if due && p.date < date then BrokenPromise else p.status)]
            && (if 0 < paid then
                  && r.Outstanding() == s.Outstanding() - paid
                  && r.Invoice().status == (if r.Outstanding() == 0 then PaidInvoice else PartiallyPaid)
                  && r.payments == s.payments + [PaymentRow(day, |s.payments| + 1, paid, s.Outstanding(),
                                                            r.Outstanding(),
                                                            PromiseFulfilment, None)]
                else r.Outstanding() == s.Outstanding() && r.Invoice().status == s.Invoice().status
                     && r.payments == s.payments)
  {
  }

  /** When a dispute ends: when the draw falls below 0.04; the invoice is then overdue. */
  lemma DisputeEndsExactly(s: ArmState, draws: Draws, day: int)
    requires s.Backed()
    ensures var r := ResolveDispute(s, draws, day);
            r == if s.Invoice().status == Disputed && draws(day, DisputeResolution) < 0.04
                 then s.WithInvoice(s.Invoice().(status := OverdueInvoice)) else s
  {
  }

  /** When a payment is drawn, how much it is and what it is put down to: while money is owed and
      nothing is disputed, the occurrence draw must fall below the natural probability plus the
      increment in force; below the former alone the payment is natural. */
  lemma DrawExactly(s: ArmState, draws: Draws, day: int, date: int)
    requires s.Backed()
    ensures var r := SimulatedPayment(s, draws, day, date);
            var inv := s.Invoice(); var occurrence := draws(day, PaymentOccurrence);
            var natural := NaturalDailyProbability(date - inv.dueDate);
            var inForce := s.response.Some? && day <= s.response.value.until;
            var increment := if inForce then s.response.value.increment else 0.0;
            if 0 < inv.outstanding && inv.status != Disputed && occurrence < natural + increment then
              var amount := PaymentAmount(inv.outstanding, draws(day, PaymentShare));
              && r.Outstanding() == inv.outstanding - amount
              && r.Invoice().status == (if r.Outstanding() == 0 then PaidInvoice else PartiallyPaid)
              && r.payments == s.payments + [PaymentRow(
                   day, |s.payments| + 1, amount, inv.outstanding, r.Outstanding(),
                   if occurrence < natural then NaturalRecovery
                   else if s.name == ReconMate then InterventionAssociated else StandardCollectionsAssociated,
                   if occurrence < natural || s.response == None then None else Some(s.response.value.action))]
            else r == s
  {
    hide PaymentAmount;
    if 0 < s.Outstanding() {
      PaymentAmountBounds(s.Outstanding(), draws(day, PaymentShare));
    }
    SameNatural(date - s.Invoice().dueDate);
    hide NaturalDailyProbability;
  }

  lemma SameNatural(days: int)
    ensures NaturalDailyProbability(Max(0, days)) == NaturalDailyProbability(days)
  {
  }

  // ---------------------------------------------------------------- every row of a run

  /** A payment of a promise that had come due and was kept that day. */
  ghost predicate KeptRow(row: PaymentRow, plans: seq<Promise>, draws: Draws, start: int) {
    && row.action == None
    && exists j :: 0 <= j < |plans| && KeepsPlan(row, plans[j], draws, start)
  }

  predicate KeepsPlan(row: PaymentRow, p: Promise, draws: Draws, start: int) {
    && p.date <= start + row.day && draws(row.day, PromiseKept(p.id)) < 0.55
    && row.amount == (if p.amount <= row.before then p.amount else row.before)
  }

  /** A payment drawn that day, for its amount: a natural one, or one that only the increment of
      the action it names brought about. */
  ghost predicate DrawnRow(row: PaymentRow, dueDate: int, actions: seq<ActionRow>, draws: Draws, start: int) {
    var occurrence := draws(row.day, PaymentOccurrence);
    var natural := NaturalDailyProbability(start + row.day - dueDate);
    && row.amount == PaymentAmount(row.before, draws(row.day, PaymentShare))
    && (if row.association == NaturalRecovery then row.action == None && occurrence < natural
        else natural <= occurrence && exists i :: 0 <= i < |actions| && Lifts(actions[i], row, occurrence, natural))
  }

  predicate Lifts(a: ActionRow, row: PaymentRow, occurrence: real, natural: real) {
    row.action == Some(a.ref) && a.completed && row.day <= a.day + 6 && occurrence < natural + a.increment
  }

  ghost predicate RowFounded(row: PaymentRow, init: ArmState, actions: seq<ActionRow>, draws: Draws, start: int,
                             days: int)
    requires init.Backed()
  {
    && 0 <= row.day < days
    && (if row.association == PromiseFulfilment then KeptRow(row, init.Invoice().promises, draws, start)
        else DrawnRow(row, init.Invoice().dueDate, actions, draws, start))
    && (row.association == InterventionAssociated ==> init.name == ReconMate)
    && (row.association == StandardCollectionsAssociated ==> init.name == Baseline)
  }

  ghost predicate AllFounded(r: ArmState, init: ArmState, draws: Draws, start: int, days: int)
    requires init.Backed()
  {
    forall k :: 0 <= k < |r.payments| ==> RowFounded(r.payments[k], init, r.actions, draws, start, days)
  }

  /** What stays of the start: name, due date, and the terms of every promise. */
  ghost predicate SameTerms(s: ArmState, init: ArmState) {
    && s.Backed() && init.Backed() && s.name == init.name && s.Invoice().dueDate == init.Invoice().dueDate
    && SamePlans(init.Invoice().promises, s.Invoice().promises)
  }

  lemma {:induction false} LoopFounded(s: ArmState, init: ArmState, draws: Draws, start: int, day: nat, j: nat)
    requires SameTerms(s, init) && 0 <= s.Outstanding() && Uncancelled(s) && j <= |s.Invoice().promises|
    requires AllFounded(s, init, draws, start, day + 1)
    ensures AllFounded(PromiseLoop(s, draws, day, start + day, j), init, draws, start, day + 1)
    decreases |s.Invoice().promises| - j
  {
    hide PromiseStep, DrawnRow;
    if j < |s.Invoice().promises| {
      var r := PromiseStep(s, draws, day, start + day, j);
      PromiseStepExactly(s, draws, day, start + day, j);
      PromiseStepKeeps(s, draws, day, start + day, j);
      var p := s.Invoice().promises[j];
      if r.payments != s.payments {
        assert KeepsPlan(r.payments[|s.payments|], init.Invoice().promises[j], draws, start);
      }
      LoopFounded(r, init, draws, start, day, j + 1);
    }
  }

  lemma EventsFounded(s: ArmState, init: ArmState, draws: Draws, start: int, day: nat)
    requires SameTerms(s, init) && 0 <= s.Outstanding() && Uncancelled(s) && AllFounded(s, init, draws, start, day)
    ensures AllFounded(ExternalEvents(s, draws, day, start + day), init, draws, start, day + 1)
  {
    hide PromiseLoop, DrawnRow, KeptRow;
    if 0 < s.Outstanding() {
      LoopFounded(ResolveDispute(s, draws, day), init, draws, start, day, 0);
    }
  }

  /** More actions leave every row founded. */
  lemma ActionsKeepFounded(s: ArmState, t: ArmState, init: ArmState, draws: Draws, start: int, days: int)
    requires init.Backed() && AllFounded(s, init, draws, start, days)
    requires t.payments == s.payments && |s.actions| <= |t.actions| && t.actions[..|s.actions|] == s.actions
    ensures AllFounded(t, init, draws, start, days)
  {
    hide KeptRow, NaturalDailyProbability, PaymentAmount;
    assert forall i :: 0 <= i < |s.actions| ==> t.actions[i] == t.actions[..|s.actions|][i];
    forall k | 0 <= k < |t.payments|
      ensures RowFounded(t.payments[k], init, t.actions, draws, start, days)
    {
      assert RowFounded(s.payments[k], init, s.actions, draws, start, days);
    }
  }

  lemma PolicyAppends(s: ArmState, draws: Draws, day: int, date: int)
    requires s.Backed()
    ensures var r := Policy(s, draws, day, date);
            r.payments == s.payments && |s.actions| <= |r.actions| && r.actions[..|s.actions|] == s.actions
  {
    hide Recommend, EvaluateCase;
  }

  lemma DrawFounded(s: ArmState, init: ArmState, draws: Draws, start: int, day: nat)
    requires SameTerms(s, init) && AllFounded(s, init, draws, start, day + 1) && Accountable(s, day + 1)
    ensures AllFounded(SimulatedPayment(s, draws, day, start + day), init, draws, start, day + 1)
  {
    hide SimulatedPayment, NaturalDailyProbability, PaymentAmount, KeptRow;
    DrawExactly(s, draws, day, start + day);
    var r := SimulatedPayment(s, draws, day, start + day);
    DrawKeepsActions(s, draws, day, start + day);
    if r.payments != s.payments {
      var row := r.payments[|s.payments|];
      if row.association != NaturalRecovery {
        var i :| 0 <= i < |s.actions| && Opened(s.actions[i], s.response.value);
        assert Lifts(r.actions[i], row, draws(day, PaymentOccurrence),
                     NaturalDailyProbability(start + day - s.Invoice().dueDate));
      }
      assert RowFounded(row, init, r.actions, draws, start, day + 1);
    }
  }

  lemma DrawKeepsActions(s: ArmState, draws: Draws, day: int, date: int)
    requires s.Backed()
    ensures SimulatedPayment(s, draws, day, date).actions == s.actions
  {
    hide NaturalDailyProbability, PaymentAmount;
  }

  lemma DayFounded(s: ArmState, init: ArmState, draws: Draws, start: int, day: nat)
    requires SameTerms(s, init) && 0 <= s.Outstanding() && Uncancelled(s)
    requires AllFounded(s, init, draws, start, day) && Accountable(s, day)
    ensures var r := Day(s, draws, start, day); AllFounded(r, init, draws, start, day + 1) && SameTerms(r, init)
  {
    hide ExternalEvents, Policy, SimulatedPayment, RowFounded, Accountable;
    var seen := ExternalEvents(s, draws, day, start + day);
    EventsFounded(s, init, draws, start, day);
    ExternalKeeps(s, draws, day, start + day);
    ExternalAccountable(s, draws, day, start + day);
    PolicyAppends(seen, draws, day, start + day);
    PolicyKeepsShape(seen, draws, day, start + day);
    PolicyAccountable(seen, draws, day, start + day);
    var acted := Policy(seen, draws, day, start + day);
    ActionsKeepFounded(seen, acted, init, draws, start, day + 1);
    DrawFounded(acted, init, draws, start, day);
    PaymentKeeps(acted, draws, day, start + day);
    if s.Outstanding() <= 0 {
      OneMoreDay(s, init, draws, start, day);
    }
  }

  lemma OneMoreDay(s: ArmState, init: ArmState, draws: Draws, start: int, day: nat)
    requires init.Backed() && AllFounded(s, init, draws, start, day)
    ensures AllFounded(s, init, draws, start, day + 1)
  {
    hide KeptRow, DrawnRow;
  }

  /** Every payment of a run is founded: it is the payment of a promise that had come due and was
      kept that day; or it was drawn that day, for the amount drawn, naturally, or because of
      the increment of a completed action of the arm at most six days old. */
  lemma {:induction false} PaymentsAreFounded(source: RecoveryCase, name: ArmName, draws: Draws, start: int, days: nat)
    requires source.invoice.Some? && 0 < source.invoice.value.outstanding
    ensures var init := InitialArm(source, name, start); var r := Run(init, draws, start, days);
            AllFounded(r, init, draws, start, days) && SameTerms(r, init)
  {
    hide Day, AllFounded, Accountable;
    var init := InitialArm(source, name, start);
    RunShaped(source, name, draws, start, days);
    if days == 0 {
      assert AllFounded(init, init, draws, start, 0) by { NothingFounded(init, draws, start); }
    } else {
      PaymentsAreFounded(source, name, draws, start, days - 1);
      RunShaped(source, name, draws, start, days - 1);
      BooksBalance(source, name, draws, start, days - 1);
      AttributionIsAccountable(source, name, draws, start, days - 1);
      DayFounded(Run(init, draws, start, days - 1), init, draws, start, days - 1);
    }
  }

  lemma NothingFounded(init: ArmState, draws: Draws, start: int)
    requires init.Backed() && init.payments == []
    ensures AllFounded(init, init, draws, start, 0)
  {
  }
}
