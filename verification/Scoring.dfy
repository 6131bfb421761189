/** Operational risk scoring (intelligence/operational_service.py): metrics over the facts in
    scope on a given day, the points they earn, and the bounded score and its level. */
module Scoring {
  import opened Domain
  import opened Engine
  import opened Sums

  const HIGH_VALUE_OVERDUE := 25_000_000
  const HIGH_EXPOSURE := 40_000_000
  const STALLED_CASE_DAYS := 21

  datatype Level = Low | Medium | High | Critical

  /** A promise with the payments of its invoice; there are none when it has no invoice. */
  datatype ScopedPromise = ScopedPromise(promise: Promise, payments: seq<Payment>)

  /** `issued` is the issue day of the case's invoice, if it has one; `stamps` are the days of
      its own and its actions' timestamps. */
  datatype ScopedCase = ScopedCase(state: RecoveryState, closed: bool, issued: Option<int>, stamps: seq<int>)

  datatype Scope = Scope(invoices: seq<Invoice>, promises: seq<ScopedPromise>, cases: seq<ScopedCase>)

  datatype Metrics = Metrics(
    total: int, exposure: int, overdueCount: int, maxDays: int, broken: int, active: int, disputes: int,
    sincePayment: Option<int>, activeCases: int, stalledCases: int)

  datatype Signal =
    | HighValueOverdue | LongOverdue | MultipleOverdue | BrokenPromises | PaymentStalled | DisputeActive
        | RecoveryStalled
    | HighExposure

  datatype Factor = Factor(signal: Signal, points: nat)

  // ---------------------------------------------------------------- metrics

  predicate Issued(inv: Invoice, today: int) { inv.issueDate <= today }

  predicate IsOverdue(inv: Invoice, today: int) { EvaluateInvoice(inv, today).state == Overdue }

  predicate IsDisputed(inv: Invoice, today: int) { Issued(inv, today) && inv.status.Disputed? && inv.outstanding > 0 }

  function MaxDaysOverdue(invoices: seq<Invoice>, today: int): int {
    if invoices == [] then 0
    else Max(EvaluateInvoice(invoices[0], today).daysOverdue, MaxDaysOverdue(invoices[1..], today))
  }

  function DatesUpTo(payments: seq<Payment>, today: int): seq<int> {
    if payments == [] then []
    else (if payments[0].date <= today then [payments[0].date] else []) + DatesUpTo(payments[1..], today)
  }

  /** The days of the payments that have arrived on invoices that have been issued. */
  function PaymentDates(invoices: seq<Invoice>, today: int): seq<int> {
    if invoices == [] then []
    else
      (if Issued(invoices[0], today) then DatesUpTo(invoices[0].payments, today) else [])
      + PaymentDates(invoices[1..], today)
  }

  function Latest(days: seq<int>): (latest: Option<int>)
    ensures latest.None? <==> days == []
    ensures latest.Some? ==> latest.value in days && forall d :: d in days ==> d <= latest.value
  {
    if days == [] then None
    else
      assert days == [days[0]] + days[1..];
      match Latest(days[1..])
      case None => Some(days[0])
      case Some(rest) => Some(Max(days[0], rest))
  }

  function State(p: ScopedPromise, today: int): PromiseState { EvaluatePromise(p.promise, p.payments, today) }

  predicate IsActiveCase(c: ScopedCase, today: int) {
    !c.state.Resolved? && !c.state.Closed? && !c.closed && (c.issued.None? || c.issued.value <= today)
  }

  predicate IsStalled(c: ScopedCase, today: int) {
    var activity := Latest(c.stamps);
    IsActiveCase(c, today) && (activity.None? || today - activity.value >= STALLED_CASE_DAYS)
  }

  function SincePayment(invoices: seq<Invoice>, today: int): Option<int> {
    match Latest(PaymentDates(invoices, today))
    case None => None
    case Some(last) => Some(today - last)
  }

  function MetricsOf(s: Scope, today: int): Metrics {
    Metrics(
      SumOf(s.invoices, (i: Invoice) => if Issued(i, today) then i.outstanding else 0),
      SumOf(s.invoices, (i: Invoice) => if IsOverdue(i, today) then i.outstanding else 0),
      CountOf(s.invoices, (i: Invoice) => IsOverdue(i, today)),
      MaxDaysOverdue(s.invoices, today),
      CountOf(s.promises, (p: ScopedPromise) => State(p, today).IsBroken?),
      CountOf(s.promises, (p: ScopedPromise) => State(p, today).IsActive?),
      CountOf(s.invoices, (i: Invoice) => IsDisputed(i, today)),
      SincePayment(s.invoices, today),
      CountOf(s.cases, (c: ScopedCase) => IsActiveCase(c, today)),
      CountOf(s.cases, (c: ScopedCase) => IsStalled(c, today)))
  }

  // ---------------------------------------------------------------- points and score

  /** The points one kind of signal earns; none when it is not raised. */
  function Points(m: Metrics, signal: Signal): (points: nat) {
    match signal
    case HighValueOverdue => if m.exposure >= HIGH_VALUE_OVERDUE then 16 else 0
    case LongOverdue =>
      if m.maxDays >= 120 then 22 else if m.maxDays >= 90 then 18 else if m.maxDays >= 30 then 8 else 0
    case MultipleOverdue =>
      if m.overdueCount >= 5 then 14 else if m.overdueCount >= 3 then 10 else if m.overdueCount >= 2 then 6 else 0
    case BrokenPromises => if m.broken >= 2 then 30 else if m.broken != 0 then 20 else 0
    case PaymentStalled =>
      if m.exposure <= 0 then 0
      else if m.sincePayment.None? || m.sincePayment.value >= 60 then 14
      else if m.sincePayment.value >= 30 then 10
      else 0
    case DisputeActive => if m.disputes != 0 then 20 else 0
    case RecoveryStalled => if m.stalledCases != 0 then 10 else 0
    case HighExposure => if m.total >= HIGH_EXPOSURE then 22 else 0
  }

  const SIGNALS := [HighValueOverdue, LongOverdue, MultipleOverdue, BrokenPromises, PaymentStalled, DisputeActive,
                    RecoveryStalled, HighExposure]

  function FactorOf(m: Metrics, signal: Signal): seq<Factor> {
    if Points(m, signal) == 0 then [] else [Factor(signal, Points(m, signal))]
  }

  /** The factors of the signals that are raised, in order. */
  function Gather(m: Metrics, signals: seq<Signal>): seq<Factor> {
    if signals == [] then [] else FactorOf(m, signals[0]) + Gather(m, signals[1..])
  }

  function RawScore(m: Metrics): int { Max(0, SumOf(Gather(m, SIGNALS), (f: Factor) => f.points)) }

  function Score(m: Metrics): (score: int)
    ensures 0 <= score <= 100
  {
    Min(100, RawScore(m))
  }

  function LevelOf(score: int): Level {
    if score >= 80 then Critical else if score >= 45 then High else if score >= 20 then Medium else Low
  }

  function LevelRank(level: Level): nat {
    match level
    case Low => 0
    case Medium => 1
    case High => 2
    case Critical => 3
  }

  // ---------------------------------------------------------------- step by step

  /** The active cases without recent activity, collected one by one. */
  method StalledCases(cases: seq<ScopedCase>, today: int) returns (stalled: seq<ScopedCase>)
    ensures |stalled| == CountOf(cases, (c: ScopedCase) => IsStalled(c, today))
    ensures forall c :: c in stalled <==> c in cases && IsStalled(c, today)
  {
    hide IsStalled;
    stalled := [];
    for i := 0 to |cases|
      invariant |stalled| == CountOf(cases[..i], (c: ScopedCase) => IsStalled(c, today))
      invariant forall c :: c in stalled <==> c in cases[..i] && IsStalled(c, today)
    {
      CountSnoc(cases, i, (c: ScopedCase) => IsStalled(c, today));
      if IsStalled(cases[i], today) {
        stalled := stalled + [cases[i]];
      }
    }
    assert cases[..|cases|] == cases;
  }

  /** The signals of overdue balances. */
  method OverdueFactors(m: Metrics) returns (factors: seq<Factor>)
    ensures factors == [] + FactorOf(m, HighValueOverdue) + FactorOf(m, LongOverdue) + FactorOf(m, MultipleOverdue)
  {
    hide FactorOf;
    factors := [];
    if m.exposure >= HIGH_VALUE_OVERDUE {
      factors := factors + [Factor(HighValueOverdue, 16)];
    }
    assert factors == [] + FactorOf(m, HighValueOverdue) by { Appended([], m, HighValueOverdue); }
    ghost var first := factors;
    if m.maxDays >= 30 {
      var points := if m.maxDays >= 120 then 22 else if m.maxDays >= 90 then 18 else 8;
      factors := factors + [Factor(LongOverdue, points)];
    }
    assert factors == first + FactorOf(m, LongOverdue) by { Appended(first, m, LongOverdue); }
    ghost var second := factors;
    if m.overdueCount >= 2 {
      var points := if m.overdueCount >= 5 then 14 else if m.overdueCount >= 3 then 10 else 6;
      factors := factors + [Factor(MultipleOverdue, points)];
    }
    assert factors == second + FactorOf(m, MultipleOverdue) by { Appended(second, m, MultipleOverdue); }
  }

  /** Each signal is considered in turn under its own nest of conditions. */
  method SignalsAndFactors(m: Metrics) returns (factors: seq<Factor>)
    ensures factors == Gather(m, SIGNALS)
  {
    hide Gather, FactorOf;
    factors := OverdueFactors(m);
    ghost var third := factors;
    if m.broken != 0 {
      factors := factors + [Factor(BrokenPromises, if m.broken >= 2 then 30 else 20)];
    }
    assert factors == third + FactorOf(m, BrokenPromises) by { Appended(third, m, BrokenPromises); }
    ghost var fourth := factors;
    if m.exposure > 0 && (m.sincePayment.None? || m.sincePayment.value >= 30) {
      var severe := m.sincePayment.None? || m.sincePayment.value >= 60;
      factors := factors + [Factor(PaymentStalled, if severe then 14 else 10)];
    }
    assert factors == fourth + FactorOf(m, PaymentStalled) by { Appended(fourth, m, PaymentStalled); }
    ghost var fifth := factors;
    if m.disputes != 0 {
      factors := factors + [Factor(DisputeActive, 20)];
    }
    assert factors == fifth + FactorOf(m, DisputeActive) by { Appended(fifth, m, DisputeActive); }
    ghost var sixth := factors;
    if m.stalledCases != 0 {
      factors := factors + [Factor(RecoveryStalled, 10)];
    }
    assert factors == sixth + FactorOf(m, RecoveryStalled) by { Appended(sixth, m, RecoveryStalled); }
    ghost var seventh := factors;
    if m.total >= HIGH_EXPOSURE {
      factors := factors + [Factor(HighExposure, 22)];
    }
    assert factors == seventh + FactorOf(m, HighExposure) by { Appended(seventh, m, HighExposure); }
    GatherAll(m);
  }

  lemma Appended(factors: seq<Factor>, m: Metrics, signal: Signal)
    ensures factors + FactorOf(m, signal)
         == if Points(m, signal) == 0 then factors else factors + [Factor(signal, Points(m, signal))]
  {
    hide Points;
  }

  lemma GatherAll(m: Metrics)
    ensures Gather(m, SIGNALS)
         == [] + FactorOf(m, HighValueOverdue) + FactorOf(m, LongOverdue) + FactorOf(m, MultipleOverdue)
             + FactorOf(m, BrokenPromises)
            + FactorOf(m, PaymentStalled) + FactorOf(m, DisputeActive) + FactorOf(m, RecoveryStalled)
                + FactorOf(m, HighExposure)
  {
    hide FactorOf, Gather;
    var s := SIGNALS;
    GatherStep(m, s, 0);
    GatherStep(m, s, 1);
    GatherStep(m, s, 2);
    GatherStep(m, s, 3);
    GatherStep(m, s, 4);
    GatherStep(m, s, 5);
    GatherStep(m, s, 6);
    GatherStep(m, s, 7);
    GatherNone(m, s[8..]);
    assert s[0..] == s;
  }

  lemma GatherNone(m: Metrics, signals: seq<Signal>)
    requires signals == []
    ensures Gather(m, signals) == []
  {
  }

  lemma GatherStep(m: Metrics, signals: seq<Signal>, k: nat)
    requires k < |signals|
    ensures Gather(m, signals[k..]) == FactorOf(m, signals[k]) + Gather(m, signals[k + 1..])
  {
    hide FactorOf;
    assert signals[k..][1..] == signals[k + 1..];
  }

  // ---------------------------------------------------------------- what the score means

  lemma {:induction false} GatherTotals(m: Metrics, signals: seq<Signal>)
    ensures SumOf(Gather(m, signals), (f: Factor) => f.points) == SumOf(signals, s => Points(m, s))
  {
    hide Points;
    if signals != [] {
      var rest := Gather(m, signals[1..]);
      GatherTotals(m, signals[1..]);
      if Points(m, signals[0]) != 0 {
        assert ([Factor(signals[0], Points(m, signals[0]))] + rest)[1..] == rest;
      } else {
        assert Gather(m, signals) == rest;
      }
    }
  }

  lemma {:induction false} Gathered(m: Metrics, signals: seq<Signal>, f: Factor)
    ensures f in Gather(m, signals) <==> f.signal in signals && f.points == Points(m, f.signal) && f.points > 0
  {
    hide Points;
    if signals != [] {
      Gathered(m, signals[1..], f);
      assert f in Gather(m, signals) <==> f in FactorOf(m, signals[0]) || f in Gather(m, signals[1..]);
      assert f.signal in signals <==> f.signal == signals[0] || f.signal in signals[1..];
    }
  }

  /** The raw score is the total of the points of all signals, and the factors explain it:
      each raised signal is there once with its points, and no other. */
  lemma FactorsExplainTheScore(m: Metrics)
    ensures RawScore(m) == SumOf(SIGNALS, s => Points(m, s))
    ensures forall f :: f in Gather(m, SIGNALS) <==> f.points == Points(m, f.signal) && f.points > 0
    ensures forall i, j :: 0 <= i < j < |Gather(m, SIGNALS)| ==>
              Gather(m, SIGNALS)[i].signal != Gather(m, SIGNALS)[j].signal
  {
    hide Points, Gather, SumOf;
    GatherTotals(m, SIGNALS);
    EverySignal();
    forall f: Factor
      ensures f in Gather(m, SIGNALS) <==> f.points == Points(m, f.signal) && f.points > 0
    {
      Gathered(m, SIGNALS, f);
    }
    SumMonotone(SIGNALS, (s: Signal) => 0, s => Points(m, s));
    ZeroSum(SIGNALS);
    GatherDistinct(m, SIGNALS);
  }

  lemma EverySignal()
    ensures forall s: Signal :: s in SIGNALS
    ensures forall i, j :: 0 <= i < j < |SIGNALS| ==> SIGNALS[i] != SIGNALS[j]
  {
    forall s: Signal
      ensures s in SIGNALS
    {
      match s
      case HighValueOverdue => assert SIGNALS[0] == s;
      case LongOverdue => assert SIGNALS[1] == s;
      case MultipleOverdue => assert SIGNALS[2] == s;
      case BrokenPromises => assert SIGNALS[3] == s;
      case PaymentStalled => assert SIGNALS[4] == s;
      case DisputeActive => assert SIGNALS[5] == s;
      case RecoveryStalled => assert SIGNALS[6] == s;
      case HighExposure => assert SIGNALS[7] == s;
    }
  }

  lemma {:induction false} ZeroSum(signals: seq<Signal>)
    ensures SumOf(signals, (s: Signal) => 0) == 0
  {
    if signals != [] {
      ZeroSum(signals[1..]);
    }
  }

  lemma GatherHead(m: Metrics, signals: seq<Signal>)
    requires signals != []
    ensures Gather(m, signals) == Gather(m, signals[1..])
         || exists f: Factor :: f.signal == signals[0] && Gather(m, signals) == [f] + Gather(m, signals[1..])
  {
    hide Points;
  }

  lemma {:induction false} GatherDistinct(m: Metrics, signals: seq<Signal>)
    requires forall i, j :: 0 <= i < j < |signals| ==> signals[i] != signals[j]
    ensures var g := Gather(m, signals); forall i, j :: 0 <= i < j < |g| ==> g[i].signal != g[j].signal
  {
    hide Points, Gather, FactorOf;
    if signals == [] {
      GatherNone(m, signals);
    } else {
      GatherHead(m, signals);
      GatherDistinct(m, signals[1..]);
      var rest := Gather(m, signals[1..]);
      forall j | 0 <= j < |rest|
        ensures rest[j].signal != signals[0]
      {
        Gathered(m, signals[1..], rest[j]);
        assert rest[j] in rest;
        var k :| 0 <= k < |signals[1..]| && signals[1..][k] == rest[j].signal;
        assert signals[0] != signals[k + 1];
      }
    }
  }

  lemma ScoreIsTotal(m: Metrics)
    ensures RawScore(m) == Points(m, HighValueOverdue) + Points(m, LongOverdue) + Points(m, MultipleOverdue)
      + Points(m, BrokenPromises) + Points(m, PaymentStalled) + Points(m, DisputeActive) + Points(m, RecoveryStalled)
      + Points(m, HighExposure)
  {
    hide Points, Gather;
    FactorsExplainTheScore(m);
    var s := SIGNALS;
    SumFrom(m, s, 0);
    SumFrom(m, s, 1);
    SumFrom(m, s, 2);
    SumFrom(m, s, 3);
    SumFrom(m, s, 4);
    SumFrom(m, s, 5);
    SumFrom(m, s, 6);
    SumFrom(m, s, 7);
    assert s[0..] == s;
    assert s[8..] == [];
  }

  lemma SumFrom(m: Metrics, signals: seq<Signal>, k: nat)
    requires k < |signals|
    ensures SumOf(signals[k..], s => Points(m, s)) == Points(m, signals[k]) + SumOf(signals[k + 1..], s => Points(m, s))
  {
    hide Points;
    assert signals[k..][1..] == signals[k + 1..];
  }

  /** The score bands. */
  lemma LevelExactly(score: int)
    ensures LevelOf(score) == Critical <==> 80 <= score
    ensures LevelOf(score) == High <==> 45 <= score < 80
    ensures LevelOf(score) == Medium <==> 20 <= score < 45
    ensures LevelOf(score) == Low <==> score < 20
  {
  }
}
