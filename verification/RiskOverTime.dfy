/** Risk and time (intelligence/operational_service.py): what happens to metrics and score when
    days pass and no fact changes. */
module RiskOverTime {
  import opened Domain
  import opened Engine
  import opened Sums
  import opened Scoring

  ghost predicate Arrived(payments: seq<Payment>, today: int) {
    forall k :: 0 <= k < |payments| ==> payments[k].date <= today
  }

  /** The facts are known as of `today`: balances are not negative, and no payment lies in the
      future. */
  ghost predicate FactsKnown(s: Scope, today: int) {
    && (forall i :: i in s.invoices ==> i.outstanding >= 0 && Arrived(i.payments, today))
    && (forall p :: p in s.promises ==> Arrived(p.payments, today))
  }

  /** One set of metrics is no less alarming than another. */
  ghost predicate AtLeastAsRisky(a: Metrics, b: Metrics) {
    && a.total <= b.total && a.exposure <= b.exposure && 0 <= a.overdueCount <= b.overdueCount && a.maxDays <= b.maxDays
    && 0 <= a.broken <= b.broken && 0 <= a.disputes <= b.disputes && 0 <= a.stalledCases <= b.stalledCases
    && (b.sincePayment.Some? ==> a.sincePayment.Some? && a.sincePayment.value <= b.sincePayment.value)
  }

  lemma PointsMonotone(a: Metrics, b: Metrics, signal: Scoring.Signal)
    requires AtLeastAsRisky(a, b)
    ensures Points(a, signal) <= Points(b, signal)
  {
  }

  lemma {:induction false} DaysGrow(invoices: seq<Invoice>, today: int, later: int)
    requires today <= later
    ensures MaxDaysOverdue(invoices, today) <= MaxDaysOverdue(invoices, later)
  {
    if invoices != [] {
      DaysGrow(invoices[1..], today, later);
    }
  }

  /** The days counted are those of payments that have arrived on issued invoices. */
  lemma {:induction false} DatesAre(invoices: seq<Invoice>, today: int, date: int)
    ensures date in PaymentDates(invoices, today)
       <==> exists i, k ::
              i in invoices && 0 <= k < |i.payments| && Issued(i, today) && i.payments[k].date == date <= today
  {
    if invoices != [] {
      DatesAre(invoices[1..], today, date);
      DatesUpToAre(invoices[0].payments, today, date);
      assert forall i :: i in invoices <==> i == invoices[0] || i in invoices[1..];
    }
  }

  lemma {:induction false} DatesUpToAre(payments: seq<Payment>, today: int, date: int)
    ensures date in DatesUpTo(payments, today) <==> exists k :: 0 <= k < |payments| && payments[k].date == date <= today
  {
    if payments != [] {
      DatesUpToAre(payments[1..], today, date);
      assert forall k :: 0 < k < |payments| ==> payments[k] == payments[1..][k - 1];
      assert forall k :: 0 <= k < |payments| - 1 ==> payments[1..][k] == payments[k + 1];
    }
  }

  // ---------------------------------------------------------------- payment recency

  /** A payment on an invoice issued after `today` and by `later`. */
  predicate Prepayment(i: Invoice, k: int, today: int, later: int) {
    0 <= k < |i.payments| && today < i.issueDate <= later
  }

  /** Seen on `day`, a payment of this date is no more recent than the last payment was today. */
  predicate NotFresher(invoices: seq<Invoice>, today: int, day: int, date: int) {
    var since := SincePayment(invoices, today);
    since.Some? && since.value <= day - date
  }

  /** Seen on `later`, no payment that only became visible since `today` is more recent than
      the last payment was today. */
  ghost predicate NoFresherPayment(invoices: seq<Invoice>, today: int, later: int) {
    forall i, k :: i in invoices && Prepayment(i, k, today, later) ==>
      NotFresher(invoices, today, later, i.payments[k].date)
  }

  /** Payment recency does not improve from one day to another exactly when the invoices issued
      in between bring no fresher payment with them. */
  lemma RecencyExactly(invoices: seq<Invoice>, today: int, later: int)
    requires today <= later && forall i :: i in invoices ==> Arrived(i.payments, today)
    ensures NoFresherPayment(invoices, today, later)
       <==> var a, b := SincePayment(invoices, today), SincePayment(invoices, later);
            b.Some? ==> a.Some? && a.value <= b.value
  {
    hide PaymentDates;
    var before, after := PaymentDates(invoices, today), PaymentDates(invoices, later);
    if NoFresherPayment(invoices, today, later) && after != [] {
      var last := Latest(after).value;
      DatesAre(invoices, later, last);
      DatesAre(invoices, today, last);
      var i, k :| i in invoices && 0 <= k < |i.payments| && Issued(i, later) && i.payments[k].date == last <= later;
      assert Issued(i, today) || Prepayment(i, k, today, later);
    } else if !NoFresherPayment(invoices, today, later) {
      var i, k :| i in invoices && Prepayment(i, k, today, later)
        && !NotFresher(invoices, today, later, i.payments[k].date);
      DatesAre(invoices, later, i.payments[k].date);
    }
  }

  lemma {:induction false} SameCount(payments: seq<Payment>, source: Option<int>, today: int, later: int)
    requires today <= later && Arrived(payments, today)
    ensures CountedTotal(payments, source, today) == CountedTotal(payments, source, later)
  {
    if payments != [] {
      assert Arrived(payments[1..], today);
      SameCount(payments[1..], source, today, later);
    }
  }

  lemma BrokenStaysBroken(p: ScopedPromise, today: int, later: int)
    requires today <= later && Arrived(p.payments, today)
    ensures State(p, today).IsBroken? ==> State(p, later).IsBroken?
  {
    SameCount(p.payments, p.promise.source, today, later);
  }

  lemma InvoiceMetricsGrow(invoices: seq<Invoice>, today: int, later: int)
    requires today <= later && forall i :: i in invoices ==> i.outstanding >= 0
    ensures SumOf(invoices, (i: Invoice) => if Issued(i, today) then i.outstanding else 0)
         <= SumOf(invoices, (i: Invoice) => if Issued(i, later) then i.outstanding else 0)
    ensures SumOf(invoices, (i: Invoice) => if IsOverdue(i, today) then i.outstanding else 0)
         <= SumOf(invoices, (i: Invoice) => if IsOverdue(i, later) then i.outstanding else 0)
  {
    SumMonotone(invoices, (i: Invoice) => if Issued(i, today) then i.outstanding else 0,
                (i: Invoice) => if Issued(i, later) then i.outstanding else 0);
    SumMonotone(invoices, (i: Invoice) => if IsOverdue(i, today) then i.outstanding else 0,
                (i: Invoice) => if IsOverdue(i, later) then i.outstanding else 0);
  }

  /** From one day to a later one, with the facts unchanged, no metric becomes less alarming if
      and only if no fresher payment becomes visible: time lowers nothing else. */
  lemma MetricsGrow(s: Scope, today: int, later: int)
    requires today <= later && FactsKnown(s, today)
    ensures AtLeastAsRisky(MetricsOf(s, today), MetricsOf(s, later)) <==> NoFresherPayment(s.invoices, today, later)
  {
    hide EvaluateInvoice, EvaluatePromise, PaymentDates, MaxDaysOverdue, SumOf, CountOf, DatesUpTo, CountedTotal,
        NoFresherPayment;
    InvoiceMetricsGrow(s.invoices, today, later);
    DaysGrow(s.invoices, today, later);
    RecencyExactly(s.invoices, today, later);
    OverdueStays(s.invoices, today, later);
    CountMonotone(s.invoices, (i: Invoice) => IsOverdue(i, today), (i: Invoice) => IsOverdue(i, later));
    CountMonotone(s.invoices, (i: Invoice) => IsDisputed(i, today), (i: Invoice) => IsDisputed(i, later));
    forall p | p in s.promises && State(p, today).IsBroken?
      ensures State(p, later).IsBroken?
    {
      BrokenStaysBroken(p, today, later);
    }
    CountMonotone(s.promises, (p: ScopedPromise) => State(p, today).IsBroken?,
                  (p: ScopedPromise) => State(p, later).IsBroken?);
    CountMonotone(s.cases, (c: ScopedCase) => IsStalled(c, today), (c: ScopedCase) => IsStalled(c, later));
  }

  lemma OverdueStays(invoices: seq<Invoice>, today: int, later: int)
    requires today <= later
    ensures forall i :: i in invoices && IsOverdue(i, today) ==> IsOverdue(i, later)
  {
  }

  // ---------------------------------------------------------------- no later day at all

  /** Every payment on an invoice not issued yet will be at least as old, on the day the invoice
      is issued, as the last visible payment is today. It can be checked today. */
  ghost predicate PrepaymentsAreOld(s: Scope, today: int) {
    forall i, k :: i in s.invoices && Prepayment(i, k, today, i.issueDate) ==>
      NotFresher(s.invoices, today, i.issueDate, i.payments[k].date)
  }

  lemma OldIsNotFresher(s: Scope, today: int, later: int)
    ensures PrepaymentsAreOld(s, today) ==> NoFresherPayment(s.invoices, today, later)
  {
    hide SincePayment;
    if PrepaymentsAreOld(s, today) {
      forall i, k | i in s.invoices && Prepayment(i, k, today, later)
        ensures NotFresher(s.invoices, today, later, i.payments[k].date)
      {
        assert Prepayment(i, k, today, i.issueDate);
      }
    }
  }

  /** Time alone never makes any metric less alarming if and only if prepayments are old. */
  lemma MetricsNeverFallExactly(s: Scope, today: int)
    requires FactsKnown(s, today)
    ensures (forall later :: today <= later ==> AtLeastAsRisky(MetricsOf(s, today), MetricsOf(s, later)))
       <==> PrepaymentsAreOld(s, today)
  {
    hide AtLeastAsRisky, MetricsOf;
    forall later | today <= later
      ensures AtLeastAsRisky(MetricsOf(s, today), MetricsOf(s, later)) <==> NoFresherPayment(s.invoices, today, later)
    {
      MetricsGrow(s, today, later);
      OldIsNotFresher(s, today, later);
    }
    if !PrepaymentsAreOld(s, today) {
      var i, k :| i in s.invoices && Prepayment(i, k, today, i.issueDate)
        && !NotFresher(s.invoices, today, i.issueDate, i.payments[k].date);
      assert !NoFresherPayment(s.invoices, today, i.issueDate);
      assert !AtLeastAsRisky(MetricsOf(s, today), MetricsOf(s, i.issueDate));
    }
  }

  lemma RiskierScoresHigher(a: Metrics, b: Metrics)
    requires AtLeastAsRisky(a, b)
    ensures RawScore(a) <= RawScore(b) && Score(a) <= Score(b)
    ensures LevelRank(LevelOf(Score(a))) <= LevelRank(LevelOf(Score(b)))
  {
    hide Points, Gather, AtLeastAsRisky, SumOf;
    FactorsExplainTheScore(a);
    FactorsExplainTheScore(b);
    forall signal: Scoring.Signal
      ensures Points(a, signal) <= Points(b, signal)
    {
      PointsMonotone(a, b, signal);
    }
    SumMonotone(SIGNALS, s => Points(a, s), s => Points(b, s));
  }

  /** Risk never falls by time alone: with known facts and no fresh prepayment, a later day
      gives no lower raw score, no lower score and no lower level. */
  lemma RiskNeverFalls(s: Scope, today: int, later: int)
    requires today <= later && FactsKnown(s, today) && PrepaymentsAreOld(s, today)
    ensures RawScore(MetricsOf(s, today)) <= RawScore(MetricsOf(s, later))
    ensures 0 <= Score(MetricsOf(s, today)) <= Score(MetricsOf(s, later)) <= 100
    ensures LevelRank(LevelOf(Score(MetricsOf(s, today)))) <= LevelRank(LevelOf(Score(MetricsOf(s, later))))
  {
    hide AtLeastAsRisky, MetricsOf, RawScore, LevelOf;
    MetricsNeverFallExactly(s, today);
    RiskierScoresHigher(MetricsOf(s, today), MetricsOf(s, later));
  }

  // ---------------------------------------------------------------- the score itself

  /** A day on which the score may fall: one on which an invoice paid in advance is issued. */
  ghost predicate CriticalDay(s: Scope, today: int, day: int) {
    exists i :: i in s.invoices && i.issueDate == day && today < day && i.payments != []
  }

  /** The last critical day up to `later`, or today when there is none. */
  lemma {:induction false} LastCritical(invoices: seq<Invoice>, today: int, later: int) returns (day: int)
    requires today <= later
    ensures today <= day <= later
    ensures day == today || exists i :: i in invoices && i.issueDate == day && today < day && i.payments != []
    ensures forall i :: i in invoices && today < i.issueDate <= later && i.payments != [] ==> i.issueDate <= day
  {
    if invoices == [] {
      day := today;
    } else {
      var i := invoices[0];
      day := LastCritical(invoices[1..], today, later);
      if day < i.issueDate <= later && i.payments != [] {
        day := i.issueDate;
      }
    }
  }

  function RawOn(s: Scope, day: int): int { RawScore(MetricsOf(s, day)) }

  function ScoreOn(s: Scope, day: int): int { Score(MetricsOf(s, day)) }

  function LevelOn(s: Scope, day: int): int { LevelRank(LevelOf(ScoreOn(s, day))) }

  /** From `day` to `later` neither raw score, score nor level falls. */
  ghost predicate NoFall(s: Scope, day: int, later: int) {
    RawOn(s, day) <= RawOn(s, later) && ScoreOn(s, day) <= ScoreOn(s, later) && LevelOn(s, day) <= LevelOn(s, later)
  }

  /** Since the last critical day the score has only risen. */
  lemma ScoreSinceCritical(s: Scope, today: int, later: int) returns (day: int)
    requires today <= later && FactsKnown(s, today)
    ensures today <= day <= later && (day == today || CriticalDay(s, today, day)) && NoFall(s, day, later)
  {
    hide AtLeastAsRisky, MetricsOf, RawScore, LevelOf, Score;
    day := LastCritical(s.invoices, today, later);
    assert FactsKnown(s, day);
    assert forall i, k :: i in s.invoices && Prepayment(i, k, day, later) ==> i.payments != [] && i.issueDate <= day;
    assert NoFresherPayment(s.invoices, day, later);
    MetricsGrow(s, day, later);
    RiskierScoresHigher(MetricsOf(s, day), MetricsOf(s, later));
  }

  /** The raw score, the score and the level each never fall by time alone if and only if they
      are not lower on any of the finitely many critical days. */
  lemma ScoreNeverFallsExactly(s: Scope, today: int)
    requires FactsKnown(s, today)
    ensures (forall later :: today <= later ==> RawOn(s, today) <= RawOn(s, later))
       <==> (forall day :: CriticalDay(s, today, day) ==> RawOn(s, today) <= RawOn(s, day))
    ensures (forall later :: today <= later ==> ScoreOn(s, today) <= ScoreOn(s, later))
       <==> (forall day :: CriticalDay(s, today, day) ==> ScoreOn(s, today) <= ScoreOn(s, day))
    ensures (forall later :: today <= later ==> LevelOn(s, today) <= LevelOn(s, later))
       <==> (forall day :: CriticalDay(s, today, day) ==> LevelOn(s, today) <= LevelOn(s, day))
  {
    hide MetricsOf, RawScore, LevelOf, Score, CriticalDay;
    forall later | today <= later
      ensures (forall day :: CriticalDay(s, today, day) ==> RawOn(s, today) <= RawOn(s, day)) ==>
                RawOn(s, today) <= RawOn(s, later)
      ensures (forall day :: CriticalDay(s, today, day) ==> ScoreOn(s, today) <= ScoreOn(s, day)) ==>
                ScoreOn(s, today) <= ScoreOn(s, later)
      ensures (forall day :: CriticalDay(s, today, day) ==> LevelOn(s, today) <= LevelOn(s, day)) ==>
                LevelOn(s, today) <= LevelOn(s, later)
    {
      var day := ScoreSinceCritical(s, today, later);
      assert RawOn(s, day) <= RawOn(s, later) && ScoreOn(s, day) <= ScoreOn(s, later)
             && LevelOn(s, day) <= LevelOn(s, later);
    }
    forall day | CriticalDay(s, today, day)
      ensures today <= day
    {
      CriticalIsLater(s, today, day);
    }
  }

  lemma CriticalIsLater(s: Scope, today: int, day: int)
    requires CriticalDay(s, today, day)
    ensures today < day
  {
  }

  lemma TwoInvoices(x: Invoice, y: Invoice, today: int)
    ensures var m := MetricsOf(Scope([x, y], [], []), today);
      && m.total == (if Issued(x, today) then x.outstanding else 0) + (if Issued(y, today) then y.outstanding else 0)
      && m.exposure == (if IsOverdue(x, today) then x.outstanding else 0)
          + (if IsOverdue(y, today) then y.outstanding else 0)
      && m.overdueCount == (if IsOverdue(x, today) then 1 else 0) + (if IsOverdue(y, today) then 1 else 0)
      && m.disputes == (if IsDisputed(x, today) then 1 else 0) + (if IsDisputed(y, today) then 1 else 0)
      && m.broken == m.active == m.activeCases == m.stalledCases == 0
      && m.maxDays == Max(EvaluateInvoice(x, today).daysOverdue, Max(EvaluateInvoice(y, today).daysOverdue, 0))
    ensures MetricsOf(Scope([x, y], [], []), today).sincePayment == SincePayment([x, y], today)
    ensures PaymentDates([x, y], today)
         == (if Issued(x, today) then DatesUpTo(x.payments, today) else [])
             + (if Issued(y, today) then DatesUpTo(y.payments, today) else [])
  {
    hide EvaluateInvoice, DatesUpTo, Latest, Issued, IsOverdue, IsDisputed;
    assert [x, y][1..] == [y] && [y][1..] == [];
    PairTotals(x, y, (i: Invoice) => if Issued(i, today) then i.outstanding else 0,
               (i: Invoice) => IsOverdue(i, today));
    PairTotals(x, y, (i: Invoice) => if IsOverdue(i, today) then i.outstanding else 0,
               (i: Invoice) => IsDisputed(i, today));
    assert MaxDaysOverdue([y], today) == Max(EvaluateInvoice(y, today).daysOverdue, 0);
    assert PaymentDates([y], today) == (if Issued(y, today) then DatesUpTo(y.payments, today) else []);
  }

  function PrepaidScope(): Scope {
    Scope([Invoice(0, 1, 100, 100, OverdueInvoice, [], []),
           Invoice(50, 60, 100, 99, PartiallyPaid, [Payment(1, 40)], [])], [], [])
  }

  lemma PrepaidRecency()
    ensures SincePayment(PrepaidScope().invoices, 45) == None && SincePayment(PrepaidScope().invoices, 50) == Some(10)
  {
    var x, y := PrepaidScope().invoices[0], PrepaidScope().invoices[1];
    hide MetricsOf;
    TwoInvoices(x, y, 45);
    TwoInvoices(x, y, 50);
    assert DatesUpTo(x.payments, 50) == [] && DatesUpTo(y.payments, 50) == [40];
  }

  lemma PrepaidIsFresh()
    ensures FactsKnown(PrepaidScope(), 45) && !PrepaymentsAreOld(PrepaidScope(), 45)
  {
    PrepaidRecency();
    var s := PrepaidScope();
    assert s.invoices[1] in s.invoices && Prepayment(s.invoices[1], 0, 45, 50);
  }

  /** One late balance of a few cents and nothing else earns points for its age and for missing
      payments only. */
  lemma SmallDebtScores(m: Metrics)
    requires 0 < m.exposure <= m.total < HIGH_VALUE_OVERDUE && 30 <= m.maxDays < 90 && m.overdueCount == 1
    requires m.broken == m.disputes == m.stalledCases == 0
    ensures Score(m) == 8 + Points(m, PaymentStalled)
  {
    ScoreIsTotal(m);
    hide RawScore;
  }

  lemma PrepaidMetrics(today: int)
    requires today in {45, 50}
    ensures var m := MetricsOf(PrepaidScope(), today);
            && 0 < m.exposure <= m.total < HIGH_VALUE_OVERDUE && 30 <= m.maxDays < 90 && m.overdueCount == 1
            && m.broken == m.disputes == m.stalledCases == 0
            && m.sincePayment == SincePayment(PrepaidScope().invoices, today)
  {
    hide MetricsOf, SincePayment;
    TwoInvoices(PrepaidScope().invoices[0], PrepaidScope().invoices[1], today);
  }

  /** The failing instance: a payment dated before its invoice was issued becomes visible with
      the invoice, prepayments are not old, and the score falls. */
  lemma EarlyPaymentLowersTheScore()
    ensures FactsKnown(PrepaidScope(), 45) && !PrepaymentsAreOld(PrepaidScope(), 45)
    ensures ScoreOn(PrepaidScope(), 45) == 22 && ScoreOn(PrepaidScope(), 50) == 8
  {
    hide MetricsOf, Score, SincePayment, FactsKnown, PrepaymentsAreOld;
    PrepaidIsFresh();
    PrepaidRecency();
    PrepaidMetrics(45);
    PrepaidMetrics(50);
    SmallDebtScores(MetricsOf(PrepaidScope(), 45));
    SmallDebtScores(MetricsOf(PrepaidScope(), 50));
  }
}
