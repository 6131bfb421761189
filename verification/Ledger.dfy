/** The invoice ledger shared by the simulator and the payment provider: booking a payment,
    and the relation that every step of any run keeps between an invoice and its successor. */
module Ledger {
  import opened Domain
  import opened Engine

  /** Book a payment on an invoice. */
  function Settle(inv: Invoice, amount: int, date: int): Invoice {
    inv.(
      outstanding := inv.outstanding - amount,
      status := if inv.outstanding == amount then PaidInvoice else PartiallyPaid,
      payments := inv.payments + [Payment(amount, date)])
  }

  /** An invoice whose paid flag agrees with its balance and whose payments are positive. */
  ghost predicate Sound(inv: Invoice) {
    && 0 <= inv.outstanding <= inv.original
    && (inv.status.PaidInvoice? <==> inv.outstanding == 0)
    && AllPositive(inv.payments)
  }

  ghost predicate AllPositive(payments: seq<Payment>) {
    forall i :: 0 <= i < |payments| ==> 0 < payments[i].amount
  }

  /** A promise stored as fulfilled is one the evaluator calls fulfilled on this day, and no
      promise was made, and no payment booked, after it. */
  ghost predicate PromisesHonest(inv: Invoice, today: int) {
    forall j :: 0 <= j < |inv.promises| ==>
      && (inv.promises[j].source.Some? ==> inv.promises[j].source.value <= today)
      && (inv.promises[j].status.FulfilledPromise? ==>
            EvaluatePromise(inv.promises[j], inv.payments, today).IsFulfilled?)
  }

  /** What may happen to an invoice between an earlier day and `today`: terms are fixed,
      payments are only appended and account exactly for the fall of the balance, and every
      promise of before is still there and has only moved as promises may. */
  ghost predicate Evolves(a: Invoice, b: Invoice, today: int) {
    && b.issueDate == a.issueDate && b.dueDate == a.dueDate && b.original == a.original
    && a.payments <= b.payments
    && AllPositive(b.payments[|a.payments|..])
    && b.outstanding + PaymentSum(b.payments) == a.outstanding + PaymentSum(a.payments)
    && 0 <= b.outstanding <= a.outstanding
    && |a.promises| <= |b.promises|
    && forall j :: 0 <= j < |a.promises| ==> PromiseMoves(a.promises[j], b.promises[j], today)
  }

  lemma EvolvesRefl(a: Invoice, today: int)
    requires 0 <= a.outstanding
    ensures Evolves(a, a, today)
  {
  }

  lemma EvolvesTrans(a: Invoice, b: Invoice, c: Invoice, today: int, later: int)
    requires Evolves(a, b, today) && Evolves(b, c, later) && today <= later
    ensures Evolves(a, c, later)
  {
    hide PaymentSum;
    assert c.payments[|a.payments|..] == b.payments[|a.payments|..] + c.payments[|b.payments|..];
    forall j | 0 <= j < |a.promises|
      ensures PromiseMoves(a.promises[j], c.promises[j], later)
    {
      assert PromiseMoves(a.promises[j], b.promises[j], today) && PromiseMoves(b.promises[j], c.promises[j], later);
    }
  }

  /** Booking a positive payment within the balance moves the ledger as it may move. */
  lemma SettleEvolves(inv: Invoice, amount: int, date: int, today: int)
    requires 0 < amount <= inv.outstanding
    ensures Evolves(inv, Settle(inv, amount, date), today)
    ensures Sound(inv) ==> Sound(Settle(inv, amount, date))
  {
    var b := Settle(inv, amount, date);
    PaymentSumAppend(inv.payments, [Payment(amount, date)]);
    assert PaymentSum([Payment(amount, date)]) == amount by {
      assert [Payment(amount, date)][1..] == [];
    }
    assert b.payments[|inv.payments|..] == [Payment(amount, date)];
  }

  /** Payments only ever help a fulfilled promise. */
  lemma HonestyPersists(inv: Invoice, more: seq<Payment>, today: int, later: int)
    requires PromisesHonest(inv, today) && today <= later && AllPositive(inv.payments) && AllPositive(more)
    ensures PromisesHonest(inv.(payments := inv.payments + more), later)
  {
    forall j | 0 <= j < |inv.promises|
      ensures inv.promises[j].status.FulfilledPromise? ==>
                EvaluatePromise(inv.promises[j], inv.payments + more, later).IsFulfilled?
    {
      CountedTotalGrows(inv.payments, more, inv.promises[j].source, today, later);
    }
  }
}
