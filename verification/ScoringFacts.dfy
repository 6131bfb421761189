/** What each scored signal stands for, on the facts in scope (intelligence/operational_service.py):
    how many points it earns, and for which invoices, promises and cases. */
module ScoringFacts {
  import opened Domain
  import opened Engine
  import opened Recommendations
  import opened Sums
  import opened Scoring
  import opened RiskOverTime

  /** An invoice with a balance past its due date. */
  predicate LateInvoice(i: Invoice, today: int) {
    i.issueDate <= today && i.outstanding != 0 && i.dueDate < today
  }

  lemma LateIsOverdue(i: Invoice, today: int)
    ensures IsOverdue(i, today) <==> LateInvoice(i, today)
    ensures EvaluateInvoice(i, today).daysOverdue == if LateInvoice(i, today) then today - i.dueDate else 0
  {
  }

  lemma {:induction false} SumSame<T>(xs: seq<T>, f: T -> int, g: T -> int)
    requires forall x :: x in xs ==> f(x) == g(x)
    ensures SumOf(xs, f) == SumOf(xs, g)
  {
    if xs != [] {
      SumSame(xs[1..], f, g);
    }
  }

  lemma {:induction false} CountSame<T>(xs: seq<T>, f: T -> bool, g: T -> bool)
    requires forall x :: x in xs ==> f(x) == g(x)
    ensures CountOf(xs, f) == CountOf(xs, g)
  {
    if xs != [] {
      CountSame(xs[1..], f, g);
    }
  }

  lemma {:induction false} MaxDaysReach(invoices: seq<Invoice>, today: int, bound: int)
    requires 0 < bound
    ensures bound <= MaxDaysOverdue(invoices, today) <==>
              exists i :: i in invoices && LateInvoice(i, today) && bound <= today - i.dueDate
  {
    if invoices != [] {
      MaxDaysReach(invoices[1..], today, bound);
      LateIsOverdue(invoices[0], today);
      assert forall i :: i in invoices <==> i == invoices[0] || i in invoices[1..];
      hide EvaluateInvoice;
    }
  }

  /** The balances: what is outstanding on issued invoices, and on late ones. */
  lemma BalanceSignals(s: Scope, today: int)
    ensures var m := MetricsOf(s, today);
            var total := SumOf(s.invoices, (i: Invoice) => if i.issueDate <= today then i.outstanding else 0);
            var late := SumOf(s.invoices, (i: Invoice) => if LateInvoice(i, today) then i.outstanding else 0);
            && m.total == total && m.exposure == late
            && Points(m, HighExposure) == (if 40_000_000 <= total then 22 else 0)
            && Points(m, HighValueOverdue) == (if 25_000_000 <= late then 16 else 0)
  {
    hide EvaluateInvoice;
    forall i | i in s.invoices
      ensures IsOverdue(i, today) <==> LateInvoice(i, today)
    {
      LateIsOverdue(i, today);
    }
    SumSame(s.invoices, (i: Invoice) => if IsOverdue(i, today) then i.outstanding else 0,
            (i: Invoice) => if LateInvoice(i, today) then i.outstanding else 0);
    SumSame(s.invoices, (i: Invoice) => if Issued(i, today) then i.outstanding else 0,
            (i: Invoice) => if i.issueDate <= today then i.outstanding else 0);
  }

  ghost predicate LateFor(s: Scope, today: int, days: int) {
    exists i :: i in s.invoices && LateInvoice(i, today) && days <= today - i.dueDate
  }

  /** The age of the oldest debt, and the number of late invoices. */
  lemma LateSignals(s: Scope, today: int)
    ensures var m := MetricsOf(s, today); var count := CountOf(s.invoices, (i: Invoice) => LateInvoice(i, today));
            && Points(m, LongOverdue) == (if LateFor(s, today, 120) then 22
                                          else if LateFor(s, today, 90) then 18
                                          else if LateFor(s, today, 30) then 8 else 0)
            && Points(m, MultipleOverdue) == (if 5 <= count then 14
                                              else if 3 <= count then 10
                                              else if 2 <= count then 6 else 0)
  {
    hide EvaluateInvoice, MaxDaysOverdue;
    MaxDaysReach(s.invoices, today, 120);
    MaxDaysReach(s.invoices, today, 90);
    MaxDaysReach(s.invoices, today, 30);
    forall i | i in s.invoices
      ensures IsOverdue(i, today) <==> LateInvoice(i, today)
    {
      LateIsOverdue(i, today);
    }
    CountSame(s.invoices, (i: Invoice) => IsOverdue(i, today), (i: Invoice) => LateInvoice(i, today));
  }

  /** A promise past its date that is neither cancelled nor covered. */
  predicate BrokenPromise(p: ScopedPromise, today: int) {
    && p.promise.status != CancelledPromise && p.promise.date < today
    && SumOf(p.payments, (q: Payment) =>
         if q.date <= today && (p.promise.source == None || p.promise.source.value <= q.date) then q.amount else 0)
       < p.promise.amount
  }

  lemma PromiseSignals(s: Scope, today: int)
    ensures var broken := CountOf(s.promises, (p: ScopedPromise) => BrokenPromise(p, today));
            Points(MetricsOf(s, today), BrokenPromises) == if 2 <= broken then 30 else if broken == 1 then 20 else 0
  {
    hide EvaluatePromise, SumOf;
    forall p | p in s.promises
      ensures State(p, today).IsBroken? <==> BrokenPromise(p, today)
    {
      PromiseStateExactly(p.promise, p.payments, today);
    }
    CountSame(s.promises, (p: ScopedPromise) => State(p, today).IsBroken?,
              (p: ScopedPromise) => BrokenPromise(p, today));
  }

  /** A payment that has arrived on an issued invoice within the last days. */
  ghost predicate PaidWithin(s: Scope, today: int, days: int) {
    exists i, k ::
      i in s.invoices && 0 <= k < |i.payments| && i.issueDate <= today && today - days < i.payments[k].date <= today
  }

  lemma RecencyReach(s: Scope, today: int, days: int)
    ensures PaidWithin(s, today, days) <==>
              SincePayment(s.invoices, today).Some? && SincePayment(s.invoices, today).value < days
  {
    hide PaymentDates;
    var dates := PaymentDates(s.invoices, today);
    if dates != [] {
      DatesAre(s.invoices, today, Latest(dates).value);
    }
    if i, k :| && i in s.invoices && 0 <= k < |i.payments| && i.issueDate <= today
               && today - days < i.payments[k].date <= today {
      DatesAre(s.invoices, today, i.payments[k].date);
    }
  }

  /** Payment activity has stalled when something late is owed and nothing was paid for a month. */
  lemma StalledPaymentSignal(s: Scope, today: int)
    ensures var late := SumOf(s.invoices, (i: Invoice) => if LateInvoice(i, today) then i.outstanding else 0);
            Points(MetricsOf(s, today), PaymentStalled) ==
              if late <= 0 || PaidWithin(s, today, 30) then 0 else if PaidWithin(s, today, 60) then 10 else 14
  {
    BalanceSignals(s, today);
    RecencyReach(s, today, 30);
    RecencyReach(s, today, 60);
    hide SincePayment, SumOf, CountOf, MaxDaysOverdue, PaidWithin;
  }

  /** An unfinished case without any activity for three weeks. */
  predicate StalledCase(c: ScopedCase, today: int) {
    && c.state !in {Resolved, Closed} && !c.closed && (c.issued == None || c.issued.value <= today)
    && forall d :: d in c.stamps ==> 21 <= today - d
  }

  predicate DisputedBalance(i: Invoice, today: int) {
    i.issueDate <= today && i.status == Disputed && 0 < i.outstanding
  }

  lemma StalledIs(c: ScopedCase, today: int)
    ensures IsStalled(c, today) <==> StalledCase(c, today)
  {
  }

  /** One disputed balance, and one stalled case, are enough. */
  lemma WorkSignals(s: Scope, today: int)
    ensures var m := MetricsOf(s, today);
            && Points(m, DisputeActive) ==
                 (if exists i :: i in s.invoices && DisputedBalance(i, today) then 20 else 0)
            && Points(m, RecoveryStalled) == (if exists c :: c in s.cases && StalledCase(c, today) then 10 else 0)
  {
    CountPositive(s.invoices, (i: Invoice) => IsDisputed(i, today));
    CountPositive(s.cases, (c: ScopedCase) => IsStalled(c, today));
    forall c | c in s.cases
      ensures IsStalled(c, today) <==> StalledCase(c, today)
    {
      StalledIs(c, today);
    }
    hide IsStalled, StalledCase;
  }
}
