/** The relational model of the receivables backend, as plain values.

    Money is an integer number of cents, a date is an integer day number, and every
    table is a sequence of rows. Code that updates a row in place is modelled by a class
    whose fields are such sequences (see the service modules). */
module Domain {

  datatype Option<+T> = None | Some(value: T)

  datatype InvoiceStatus = OpenInvoice | PartiallyPaid | PaidInvoice | OverdueInvoice | Disputed | WrittenOff
      | CancelledInvoice

  datatype PromiseStatus = ActivePromise | FulfilledPromise | BrokenPromise | CancelledPromise

  datatype RecoveryState =
    | NewCase | InProgress | AwaitingCustomer | PromiseMonitoring | Escalated | Resolved | Closed

  datatype Priority = LowPriority | NormalPriority | HighPriority | CriticalPriority

  datatype Consent = ConsentUnknown | OptedIn | OptedOut

  datatype Channel = Email | Phone | Sms | Whatsapp | Portal | Letter | OtherChannel

  datatype ActionType = Outreach | FollowUp | RecordPromise | EscalateAction | CloseCaseAction | Note

  datatype ActionStatus =
    | RecommendedStatus | Planned | PendingApproval | Approved | Rejected | Held | Executed | CancelledAction
        | FailedAction

  datatype Payment = Payment(amount: int, date: int)

  /** `source` is the day of the communication the promise came from, when there is one. */
  datatype Promise = Promise(id: nat, amount: int, date: int, status: PromiseStatus, source: Option<int>)

  datatype Invoice = Invoice(
    issueDate: int,
    dueDate: int,
    original: int,
    outstanding: int,
    status: InvoiceStatus,
    payments: seq<Payment>,
    promises: seq<Promise>)

  /** What the recovery rules read of an action row. */
  datatype ActionFact = ActionFact(kind: ActionType, status: ActionStatus, executedOn: Option<int>)

  /** `consent` and `channel` are both absent on records that predate the consent columns. */
  datatype Customer = Customer(strategic: bool, consent: Option<Consent>, channel: Option<Channel>)

  /** An operator-accepted interpretation of one inbound communication. */
  datatype Signal = Signal(day: int, paymentClaim: bool, commitment: bool, delay: bool)

  datatype RecoveryCase = RecoveryCase(
    customer: Customer,
    invoice: Option<Invoice>,
    state: RecoveryState,
    priority: Priority,
    closed: bool,
    actions: seq<ActionFact>,
    signals: seq<Signal>)

  function Min(a: int, b: int): int { if a <= b then a else b }

  function Max(a: int, b: int): int { if a >= b then a else b }

  /** The total of a list of payments. */
  function PaymentSum(payments: seq<Payment>): int {
    if payments == [] then 0 else payments[0].amount + PaymentSum(payments[1..])
  }

  lemma {:induction false} PaymentSumAppend(a: seq<Payment>, b: seq<Payment>)
    ensures PaymentSum(a + b) == PaymentSum(a) + PaymentSum(b)
  {
    if a == [] {
      assert a + b == b;
    } else {
      PaymentSumAppend(a[1..], b);
      assert (a + b)[1..] == a[1..] + b;
    }
  }
}
