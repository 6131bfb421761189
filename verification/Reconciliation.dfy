/** The batch recovery proof (reporting/batch_recovery.py): which invoices are in scope, how the
    starting exposure is rebuilt from balances and payments, and how the recovered money is
    grouped by customer and by provenance. */
module Reconciliation {
  import opened Domain
  import opened Sums

  datatype EvidencedPayment = EvidencedPayment(id: nat, amount: int, date: int)

  datatype BatchInvoice = BatchInvoice(
    customer: nat, imported: bool, issueDate: int, dueDate: int, original: int, outstanding: int, status: InvoiceStatus,
    payments: seq<EvidencedPayment>)

  datatype Evidence = Evidence(customer: nat, amount: int, provenance: string)

  datatype BatchProof = BatchProof(
    starting: int, recovered: int, remaining: int, fullyRecovered: nat, partlyRecovered: nat,
    recoveredBy: map<nat, int>, remainingBy: map<nat, int>, evidence: seq<Evidence>,
    counts: map<string, int>, amounts: map<string, int>)

  // ---------------------------------------------------------------- scope

  predicate Qualifies(inv: BatchInvoice, p: EvidencedPayment, today: int) { inv.dueDate < p.date <= today }

  predicate PastDue(inv: BatchInvoice, today: int) {
    inv.issueDate <= today && inv.dueDate < today && !inv.status.CancelledInvoice? && !inv.status.WrittenOff?
  }

  predicate InScope(inv: BatchInvoice, today: int) {
    && PastDue(inv, today)
    && (inv.outstanding > 0 || exists k :: 0 <= k < |inv.payments| && Qualifies(inv, inv.payments[k], today))
  }

  function Scoped(invoices: seq<BatchInvoice>, today: int): seq<BatchInvoice> {
    if invoices == [] then []
    else (if InScope(invoices[0], today) then [invoices[0]] else []) + Scoped(invoices[1..], today)
  }

  function Qualifying(inv: BatchInvoice, payments: seq<EvidencedPayment>, today: int): seq<EvidencedPayment> {
    if payments == [] then []
    else (if Qualifies(inv, payments[0], today) then [payments[0]] else []) + Qualifying(inv, payments[1..], today)
  }

  function AmountOf(payments: seq<EvidencedPayment>): int { SumOf(payments, (p: EvidencedPayment) => p.amount) }

  /** What was paid on an invoice after it fell due. */
  function RecoveredOn(inv: BatchInvoice, today: int): int { AmountOf(Qualifying(inv, inv.payments, today)) }

  /** Where a payment came from: the source its provider event recorded, or that of the invoice. */
  function Provenance(inv: BatchInvoice, p: EvidencedPayment, sources: map<nat, string>): string {
    if p.id in sources && sources[p.id] != "" then sources[p.id]
    else if inv.imported then "CSV Import" else "Synthetic Demo Sandbox"
  }

  // ---------------------------------------------------------------- the ledger, looked back at

  /** The balance an invoice had at the end of a day, read off its payment history. */
  function BalanceAt(inv: BatchInvoice, day: int): int {
    inv.original - SumOf(inv.payments, (p: EvidencedPayment) => if p.date <= day then p.amount else 0)
  }

  /** Balance and payments account for the original amount, and every payment has arrived. */
  ghost predicate Reconciles(inv: BatchInvoice, today: int) {
    && inv.outstanding >= 0
    && inv.outstanding + AmountOf(inv.payments) == inv.original
    && forall k :: 0 <= k < |inv.payments| ==> 0 < inv.payments[k].amount && inv.payments[k].date <= today
  }

  lemma {:induction false} SplitByDueDate(inv: BatchInvoice, payments: seq<EvidencedPayment>, today: int)
    requires forall k :: 0 <= k < |payments| ==> payments[k].date <= today
    ensures AmountOf(payments)
         == SumOf(payments, (p: EvidencedPayment) => if p.date <= inv.dueDate then p.amount else 0)
            + AmountOf(Qualifying(inv, payments, today))
  {
    if payments != [] {
      var rest := Qualifying(inv, payments[1..], today);
      SplitByDueDate(inv, payments[1..], today);
      if Qualifies(inv, payments[0], today) {
        assert ([payments[0]] + rest)[1..] == rest;
      } else {
        assert Qualifying(inv, payments, today) == rest;
      }
    }
  }

  lemma {:induction false} QualifyingAre(inv: BatchInvoice, payments: seq<EvidencedPayment>, today: int)
    ensures Qualifying(inv, payments, today) == []
            <==> forall k :: 0 <= k < |payments| ==> !Qualifies(inv, payments[k], today)
    ensures (forall k :: 0 <= k < |payments| ==> 0 < payments[k].amount) ==>
              0 <= AmountOf(Qualifying(inv, payments, today))
              && (AmountOf(Qualifying(inv, payments, today)) == 0 <==> Qualifying(inv, payments, today) == [])
  {
    hide Qualifies;
    if payments != [] {
      var rest := Qualifying(inv, payments[1..], today);
      QualifyingAre(inv, payments[1..], today);
      assert forall k :: 0 < k < |payments| ==> payments[k] == payments[1..][k - 1];
      assert forall k :: 0 <= k < |payments| - 1 ==> payments[1..][k] == payments[k + 1];
      if Qualifies(inv, payments[0], today) {
        assert ([payments[0]] + rest)[1..] == rest;
      } else {
        assert Qualifying(inv, payments, today) == rest;
      }
    }
  }

  /** The balance at the end of the due date is today's balance with the payments since added
      back. A past-due invoice outside the scope had none. */
  lemma BalanceAtDueDate(inv: BatchInvoice, today: int)
    requires Reconciles(inv, today)
    ensures BalanceAt(inv, inv.dueDate) == inv.outstanding + RecoveredOn(inv, today)
    ensures 0 <= RecoveredOn(inv, today)
    ensures PastDue(inv, today) ==> (InScope(inv, today) <==> BalanceAt(inv, inv.dueDate) != 0)
  {
    hide AmountOf, SumOf, Qualifying;
    SplitByDueDate(inv, inv.payments, today);
    QualifyingAre(inv, inv.payments, today);
  }

  // ---------------------------------------------------------------- the loops

  /** A row of evidence: a payment after the due date, with its amount and customer, and the source
      its provider event recorded, or else that of its invoice. */
  predicate Evidences(e: Evidence, inv: BatchInvoice, p: EvidencedPayment, today: int, sources: map<nat, string>) {
    && p in inv.payments && inv.dueDate < p.date <= today
    && e.customer == inv.customer && e.amount == p.amount
    && (p.id in sources && sources[p.id] != "" ==> e.provenance == sources[p.id])
    && (p.id !in sources || sources[p.id] == "" ==>
          e.provenance == if inv.imported then "CSV Import" else "Synthetic Demo Sandbox")
  }

  lemma {:induction false} QualifyingElements(inv: BatchInvoice, payments: seq<EvidencedPayment>, today: int)
    ensures forall p :: p in Qualifying(inv, payments, today) <==> p in payments && inv.dueDate < p.date <= today
  {
    if payments != [] {
      QualifyingElements(inv, payments[1..], today);
      assert forall p :: p in payments <==> p == payments[0] || p in payments[1..];
    }
  }

  /** The evidence rows of one invoice. */
  method EvidenceFor(inv: BatchInvoice, qualifying: seq<EvidencedPayment>, sources: map<nat, string>)
      returns (rows: seq<Evidence>)
    ensures |rows| == |qualifying|
    ensures forall k :: 0 <= k < |rows| ==>
              rows[k] == Evidence(inv.customer, qualifying[k].amount, Provenance(inv, qualifying[k], sources))
    ensures forall e :: e in rows ==>
              exists p :: p in qualifying && e == Evidence(inv.customer, p.amount, Provenance(inv, p, sources))
    ensures forall p :: p in qualifying ==> Evidence(inv.customer, p.amount, Provenance(inv, p, sources)) in rows
    ensures SumOf(rows, (e: Evidence) => e.amount) == AmountOf(qualifying)
  {
    rows := [];
    for k := 0 to |qualifying|
      invariant |rows| == k
      invariant forall j :: 0 <= j < k ==>
                  rows[j] == Evidence(inv.customer, qualifying[j].amount, Provenance(inv, qualifying[j], sources))
      invariant SumOf(rows, (e: Evidence) => e.amount) == AmountOf(qualifying[..k])
    {
      var row := Evidence(inv.customer, qualifying[k].amount, Provenance(inv, qualifying[k], sources));
      var more := rows + [row];
      SumSnoc(more, k, (e: Evidence) => e.amount);
      SumSnoc(qualifying, k, (p: EvidencedPayment) => p.amount);
      assert more[..k] == rows && more[..k + 1] == more;
      rows := more;
    }
    assert qualifying[..|qualifying|] == qualifying;
    forall p | p in qualifying
      ensures Evidence(inv.customer, p.amount, Provenance(inv, p, sources)) in rows
    {
      var k :| 0 <= k < |qualifying| && qualifying[k] == p;
      assert rows[k] == Evidence(inv.customer, p.amount, Provenance(inv, p, sources));
    }
  }

  /** The evidence is complete and sound: a row for every payment after the due date of an invoice
      of the list, with its proper source, and no other row. */
  ghost predicate EvidenceOf(evidence: seq<Evidence>, invoices: seq<BatchInvoice>, today: int,
                             sources: map<nat, string>) {
    && (forall e :: e in evidence ==> exists x, p :: x in invoices && Evidences(e, x, p, today, sources))
    && (forall x, p :: x in invoices && Pays(x, p, today) ==>
          exists e :: e in evidence && Evidences(e, x, p, today, sources))
  }

  predicate Pays(inv: BatchInvoice, p: EvidencedPayment, today: int) {
    p in inv.payments && inv.dueDate < p.date <= today
  }

  /** The evidence rows of one invoice are complete and sound for it. */
  lemma EvidenceOfOne(rows: seq<Evidence>, inv: BatchInvoice, today: int, sources: map<nat, string>)
    requires var qualifying := Qualifying(inv, inv.payments, today);
             && (forall e :: e in rows ==>
                   exists p :: p in qualifying && e == Evidence(inv.customer, p.amount, Provenance(inv, p, sources)))
             && (forall p :: p in qualifying ==> Evidence(inv.customer, p.amount, Provenance(inv, p, sources)) in rows)
    ensures EvidenceOf(rows, [inv], today, sources)
  {
    QualifyingElements(inv, inv.payments, today);
    hide Qualifying;
    forall e | e in rows
      ensures exists x, p :: x in [inv] && Evidences(e, x, p, today, sources)
    {
      var p :| p in Qualifying(inv, inv.payments, today)
          && e == Evidence(inv.customer, p.amount, Provenance(inv, p, sources));
      assert inv in [inv] && Evidences(e, inv, p, today, sources);
    }
    forall x, p | x in [inv] && Pays(x, p, today)
      ensures exists e :: e in rows && Evidences(e, x, p, today, sources)
    {
      assert Evidences(Evidence(inv.customer, p.amount, Provenance(inv, p, sources)), inv, p, today, sources);
    }
  }

  lemma EvidenceConcat(a: seq<Evidence>, b: seq<Evidence>, x: seq<BatchInvoice>, y: seq<BatchInvoice>, today: int,
                       sources: map<nat, string>)
    requires EvidenceOf(a, x, today, sources) && EvidenceOf(b, y, today, sources)
    ensures EvidenceOf(a + b, x + y, today, sources)
  {
    hide Evidences, Pays;
    forall e | e in a + b
      ensures exists i, p :: i in x + y && Evidences(e, i, p, today, sources)
    {
      if e in a {
        var i, p :| i in x && Evidences(e, i, p, today, sources);
        assert i in x + y;
      } else {
        var i, p :| i in y && Evidences(e, i, p, today, sources);
        assert i in x + y;
      }
    }
    forall i, p | i in x + y && Pays(i, p, today)
      ensures exists e :: e in a + b && Evidences(e, i, p, today, sources)
    {
      if i in x {
        var e :| e in a && Evidences(e, i, p, today, sources);
        assert e in a + b;
      } else {
        var e :| e in b && Evidences(e, i, p, today, sources);
        assert e in a + b;
      }
    }
  }

  /** Which invoices the recovery proof is about: issued and past due, neither cancelled nor
      written off, and either still owed or paid on after the due date. */
  lemma ScopeExactly(invoices: seq<BatchInvoice>, today: int, x: BatchInvoice)
    ensures x in Scoped(invoices, today) <==>
              && x in invoices && x.issueDate <= today && x.dueDate < today
                  && x.status !in {CancelledInvoice, WrittenOff}
              && (0 < x.outstanding || exists p :: p in x.payments && x.dueDate < p.date <= today)
  {
    ScopedAre(invoices, today);
    if p :| p in x.payments && x.dueDate < p.date <= today {
      var k :| 0 <= k < |x.payments| && x.payments[k] == p;
      assert Qualifies(x, x.payments[k], today);
    }
  }

  /** A dictionary of totals by customer over the invoices seen so far: it has exactly their
      customers, and under each the total of that customer's invoices. */
  ghost predicate GroupsByCustomer(totals: map<nat, int>, done: seq<BatchInvoice>, amount: BatchInvoice -> int) {
    && (forall c :: c in totals <==> exists k :: 0 <= k < |done| && done[k].customer == c)
    && (forall c :: c in totals ==>
          totals[c] == SumOf(done, (x: BatchInvoice) => if x.customer == c then amount(x) else 0))
    && ValueSum(totals) == SumOf(done, amount)
  }

  lemma GroupNext(totals: map<nat, int>, scope: seq<BatchInvoice>, i: nat, amount: BatchInvoice -> int)
    requires i < |scope| && GroupsByCustomer(totals, scope[..i], amount)
    ensures GroupsByCustomer(Bump(totals, scope[i].customer, amount(scope[i])), scope[..i + 1], amount)
  {
    hide SumOf, ValueSum;
    var done, next, key := scope[..i], scope[..i + 1], scope[i].customer;
    var after := Bump(totals, key, amount(scope[i]));
    ValueSumBump(totals, key, amount(scope[i]));
    SumSnoc(scope, i, amount);
    assert next == done + [scope[i]];
    forall c
      ensures c in after <==> exists k :: 0 <= k < |next| && next[k].customer == c
    {
      if c in totals {
        var k :| 0 <= k < |done| && done[k].customer == c;
        assert next[k].customer == c;
      }
      assert next[i].customer == key;
    }
    forall c | c in after
      ensures after[c] == SumOf(next, (x: BatchInvoice) => if x.customer == c then amount(x) else 0)
    {
      SumSnoc(scope, i, (x: BatchInvoice) => if x.customer == c then amount(x) else 0);
      if c !in totals {
        SumZero(done, (x: BatchInvoice) => if x.customer == c then amount(x) else 0);
      }
    }
  }

  /** The running totals, one scoped invoice after the other. */
  method BuildProof(invoices: seq<BatchInvoice>, today: int, sources: map<nat, string>) returns (proof: BatchProof)
    ensures var scope := Scoped(invoices, today);
            && proof.starting == SumOf(scope, (x: BatchInvoice) => x.outstanding + RecoveredOn(x, today))
            && proof.recovered == SumOf(scope, (x: BatchInvoice) => RecoveredOn(x, today))
            && proof.remaining == SumOf(scope, (x: BatchInvoice) => x.outstanding)
            && proof.fullyRecovered == CountOf(scope, (x: BatchInvoice) => RecoveredOn(x, today) > 0
                                               && x.outstanding == 0)
            && proof.partlyRecovered == CountOf(scope, (x: BatchInvoice) => RecoveredOn(x, today) > 0
                                                && x.outstanding > 0)
            && GroupsByCustomer(proof.recoveredBy, scope, (x: BatchInvoice) => RecoveredOn(x, today))
            && GroupsByCustomer(proof.remainingBy, scope, (x: BatchInvoice) => x.outstanding)
            && SumOf(proof.evidence, (e: Evidence) => e.amount) == proof.recovered
            && |proof.evidence| == SumOf(scope, (x: BatchInvoice) => |Qualifying(x, x.payments, today)|)
    ensures EvidenceOf(proof.evidence, Scoped(invoices, today), today, sources)
    ensures proof.starting == proof.recovered + proof.remaining
    ensures GroupsByProvenance(proof.counts, proof.amounts, proof.evidence)
  {
    hide SumOf, CountOf, GroupsByCustomer, Bump, RecoveredOn, Qualifying, Scoped, EvidenceOf;
    var scope := Scoped(invoices, today);
    var starting, recovered, remaining, full, part := 0, 0, 0, 0, 0;
    var recoveredBy: map<nat, int>, remainingBy: map<nat, int>, evidence: seq<Evidence> := map[], map[], [];
    NothingYet(scope, today);
    for i := 0 to |scope|
      invariant starting == recovered + remaining
      invariant starting == SumOf(scope[..i], (x: BatchInvoice) => x.outstanding + RecoveredOn(x, today))
      invariant recovered == SumOf(scope[..i], (x: BatchInvoice) => RecoveredOn(x, today))
      invariant remaining == SumOf(scope[..i], (x: BatchInvoice) => x.outstanding)
      invariant full == CountOf(scope[..i], (x: BatchInvoice) => RecoveredOn(x, today) > 0 && x.outstanding == 0)
      invariant part == CountOf(scope[..i], (x: BatchInvoice) => RecoveredOn(x, today) > 0 && x.outstanding > 0)
      invariant GroupsByCustomer(recoveredBy, scope[..i], (x: BatchInvoice) => RecoveredOn(x, today))
      invariant GroupsByCustomer(remainingBy, scope[..i], (x: BatchInvoice) => x.outstanding)
      invariant EvidenceOf(evidence, scope[..i], today, sources)
      invariant SumOf(evidence, (e: Evidence) => e.amount) == recovered
      invariant |evidence| == SumOf(scope[..i], (x: BatchInvoice) => |Qualifying(x, x.payments, today)|)
    {
      var inv := scope[i];
      var qualifying := Qualifying(inv, inv.payments, today);
      var amount := AmountOf(qualifying);
      RecoveredIs(inv, today);
      SumSnoc(scope, i, (x: BatchInvoice) => x.outstanding + RecoveredOn(x, today));
      SumSnoc(scope, i, (x: BatchInvoice) => RecoveredOn(x, today));
      SumSnoc(scope, i, (x: BatchInvoice) => x.outstanding);
      SumSnoc(scope, i, (x: BatchInvoice) => |Qualifying(x, x.payments, today)|);
      CountSnoc(scope, i, (x: BatchInvoice) => RecoveredOn(x, today) > 0 && x.outstanding == 0);
      CountSnoc(scope, i, (x: BatchInvoice) => RecoveredOn(x, today) > 0 && x.outstanding > 0);
      GroupNext(recoveredBy, scope, i, (x: BatchInvoice) => RecoveredOn(x, today));
      GroupNext(remainingBy, scope, i, (x: BatchInvoice) => x.outstanding);
      starting := starting + inv.outstanding + amount;
      recovered := recovered + amount;
      remaining := remaining + inv.outstanding;
      recoveredBy := Bump(recoveredBy, inv.customer, amount);
      remainingBy := Bump(remainingBy, inv.customer, inv.outstanding);
      if amount > 0 && inv.outstanding == 0 {
        full := full + 1;
      } else if amount > 0 && inv.outstanding > 0 {
        part := part + 1;
      }
      var rows := EvidenceFor(inv, qualifying, sources);
      SumConcat(evidence, rows, (e: Evidence) => e.amount);
      EvidenceOfOne(rows, inv, today, sources);
      EvidenceConcat(evidence, rows, scope[..i], [inv], today, sources);
      assert scope[..i + 1] == scope[..i] + [inv];
      evidence := evidence + rows;
    }
    assert scope[..|scope|] == scope;
    var counts, amounts := GroupByProvenance(evidence);
    proof := BatchProof(starting, recovered, remaining, full, part, recoveredBy, remainingBy, evidence, counts,
                        amounts);
  }

  lemma RecoveredIs(inv: BatchInvoice, today: int)
    ensures RecoveredOn(inv, today) == AmountOf(Qualifying(inv, inv.payments, today))
  {
  }

  lemma NothingYet(scope: seq<BatchInvoice>, today: int)
    ensures GroupsByCustomer(map[], scope[..0], (x: BatchInvoice) => RecoveredOn(x, today))
    ensures GroupsByCustomer(map[], scope[..0], (x: BatchInvoice) => x.outstanding)
    ensures forall f: BatchInvoice -> int :: SumOf(scope[..0], f) == 0
    ensures forall f: BatchInvoice -> bool :: CountOf(scope[..0], f) == 0
    ensures SumOf([], (e: Evidence) => e.amount) == 0
    ensures forall sources :: EvidenceOf([], scope[..0], today, sources)
  {
  }

  /** The evidence grouped by where the payments came from. */
  method GroupByProvenance(evidence: seq<Evidence>) returns (counts: map<string, int>, amounts: map<string, int>)
    ensures GroupsByProvenance(counts, amounts, evidence)
  {
    hide GroupsByProvenance, Bump;
    counts, amounts := map[], map[];
    NoEvidence(evidence[..0]);
    for i := 0 to |evidence|
      invariant GroupsByProvenance(counts, amounts, evidence[..i])
    {
      var row := evidence[i];
      ProvenanceNext(evidence, i, counts, amounts);
      counts := Bump(counts, row.provenance, 1);
      amounts := Bump(amounts, row.provenance, row.amount);
    }
    assert evidence[..|evidence|] == evidence;
  }

  /** Counts and amounts under each source: exactly the sources in evidence, the totals of the
      rows of each, and together all of the evidence. */
  ghost predicate GroupsByProvenance(counts: map<string, int>, amounts: map<string, int>, evidence: seq<Evidence>) {
    && (forall p :: p in counts <==> p in amounts)
    && (forall p :: p in amounts <==> exists k :: 0 <= k < |evidence| && evidence[k].provenance == p)
    && (forall p :: p in amounts ==>
          && amounts[p] == SumOf(evidence, (e: Evidence) => if e.provenance == p then e.amount else 0)
          && counts[p] == CountOf(evidence, (e: Evidence) => e.provenance == p))
    && ValueSum(counts) == |evidence|
    && ValueSum(amounts) == SumOf(evidence, (e: Evidence) => e.amount)
  }

  lemma NoEvidence(evidence: seq<Evidence>)
    requires evidence == []
    ensures GroupsByProvenance(map[], map[], evidence)
  {
  }

  lemma ProvenanceNext(evidence: seq<Evidence>, i: nat, counts: map<string, int>, amounts: map<string, int>)
    requires i < |evidence| && GroupsByProvenance(counts, amounts, evidence[..i])
    ensures var row := evidence[i];
            GroupsByProvenance(Bump(counts, row.provenance, 1), Bump(amounts, row.provenance, row.amount),
                               evidence[..i + 1])
  {
    hide SumOf, CountOf, ValueSum;
    var done, next, key, amount := evidence[..i], evidence[..i + 1], evidence[i].provenance, evidence[i].amount;
    var counts', amounts' := Bump(counts, key, 1), Bump(amounts, key, amount);
    ValueSumBump(counts, key, 1);
    ValueSumBump(amounts, key, amount);
    SumSnoc(evidence, i, (e: Evidence) => e.amount);
    assert next == done + [evidence[i]];
    forall p
      ensures p in amounts' <==> exists k :: 0 <= k < |next| && next[k].provenance == p
    {
      if p in amounts {
        var k :| 0 <= k < |done| && done[k].provenance == p;
        assert next[k].provenance == p;
      }
      assert next[i].provenance == key;
    }
    forall p | p in amounts'
      ensures amounts'[p] == SumOf(next, (e: Evidence) => if e.provenance == p then e.amount else 0)
      ensures counts'[p] == CountOf(next, (e: Evidence) => e.provenance == p)
    {
      SumSnoc(evidence, i, (e: Evidence) => if e.provenance == p then e.amount else 0);
      CountSnoc(evidence, i, (e: Evidence) => e.provenance == p);
      if p !in amounts {
        SumZero(done, (e: Evidence) => if e.provenance == p then e.amount else 0);
        CountZero(done, (e: Evidence) => e.provenance == p);
      }
    }
  }

  // ---------------------------------------------------------------- the reconstruction

  lemma {:induction false} ScopeLosesNothing(invoices: seq<BatchInvoice>, today: int)
    requires forall x :: x in invoices ==> Reconciles(x, today)
    ensures SumOf(Scoped(invoices, today), (x: BatchInvoice) => x.outstanding + RecoveredOn(x, today))
         == SumOf(invoices, (x: BatchInvoice) => if PastDue(x, today) then BalanceAt(x, x.dueDate) else 0)
  {
    hide RecoveredOn, BalanceAt, PastDue, Reconciles;
    if invoices != [] {
      var x := invoices[0];
      var rest := Scoped(invoices[1..], today);
      ScopeLosesNothing(invoices[1..], today);
      BalanceAtDueDate(x, today);
      if InScope(x, today) {
        assert ([x] + rest)[1..] == rest;
      } else {
        assert Scoped(invoices, today) == rest;
      }
    }
  }

  /** Reconciliation reconstructs history. When balances and payments account for the original
      amounts, the starting exposure over the scope is the total balance that the past-due
      invoices had at the end of their due dates, in scope or not, and nothing in it is
      negative. */
  lemma ReconciliationReconstructs(invoices: seq<BatchInvoice>, today: int)
    requires forall x :: x in invoices ==> Reconciles(x, today)
    ensures var scope := Scoped(invoices, today);
            && SumOf(scope, (x: BatchInvoice) => x.outstanding + RecoveredOn(x, today))
               == SumOf(invoices, (x: BatchInvoice) => if PastDue(x, today) then BalanceAt(x, x.dueDate) else 0)
            && 0 <= SumOf(scope, (x: BatchInvoice) => x.outstanding)
            && 0 <= SumOf(scope, (x: BatchInvoice) => RecoveredOn(x, today))
            && (forall x :: x in invoices && PastDue(x, today) && !(x in scope) ==> BalanceAt(x, x.dueDate) == 0)
  {
    hide SumOf, RecoveredOn, BalanceAt, PastDue, Reconciles, Scoped, InScope;
    var scope := Scoped(invoices, today);
    ScopeLosesNothing(invoices, today);
    ScopedAre(invoices, today);
    forall x | x in invoices
      ensures 0 <= RecoveredOn(x, today) && 0 <= x.outstanding
      ensures PastDue(x, today) && !InScope(x, today) ==> BalanceAt(x, x.dueDate) == 0
    {
      ReconciledAmounts(x, today);
      BalanceAtDueDate(x, today);
    }
    SumNonNegative(scope, (x: BatchInvoice) => x.outstanding);
    SumNonNegative(scope, (x: BatchInvoice) => RecoveredOn(x, today));
  }

  lemma ReconciledAmounts(x: BatchInvoice, today: int)
    requires Reconciles(x, today)
    ensures 0 <= RecoveredOn(x, today) && 0 <= x.outstanding
  {
    BalanceAtDueDate(x, today);
  }

  lemma {:induction false} ScopedAre(invoices: seq<BatchInvoice>, today: int)
    ensures forall x :: x in Scoped(invoices, today) <==> x in invoices && InScope(x, today)
  {
    hide InScope;
    if invoices != [] {
      ScopedAre(invoices[1..], today);
    }
  }
}
