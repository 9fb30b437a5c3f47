/** The entities of the control plane, as values. */
module Domain {

  /** Primary keys, idempotency keys and gateway references: only their identity matters. */
  type Id = nat

  /** Amounts, ceilings and limits are validated as positive at the API boundary. */
  type Amount = a: int | 0 < a witness 1

  datatype Option<+T> = None | Some(value: T)

  datatype AgentStatus = Active | Suspended | Revoked

  datatype MandateStatus = PendingApproval | Active | Suspended | Expired | Exhausted | Revoked

  datatype OpType = CreateOrder | CapturePayment | CreateRefund | CreatePaymentLink | CancelPaymentLink
  {
    function Name(): string {
      match this
      case CreateOrder => "CREATE_ORDER"
      case CapturePayment => "CAPTURE_PAYMENT"
      case CreateRefund => "CREATE_REFUND"
      case CreatePaymentLink => "CREATE_PAYMENT_LINK"
      case CancelPaymentLink => "CANCEL_PAYMENT_LINK"
    }
  }

  datatype OpStatus =
    | Initiated
    | PolicyCheckPending
    | PolicyApproved
    | PolicyRejected
    | RequiresApproval
    | Reserved
    | Executing
    | Succeeded
    | Failed
    | Cancelled

  datatype Decision = Allow | Deny | RequireHumanReview

  /** The whitelist test; an empty whitelist permits every operation type. */
  predicate Whitelisted(allowed: seq<string>, kind: OpType) {
    allowed == [] || kind.Name() in allowed
  }

  datatype Mandate = Mandate(
    agent: Id,
    parent: Option<Id>,
    depth: nat,
    maxDepth: nat,
    status: MandateStatus,
    currency: string,
    maxPerOp: Amount,
    limit: Amount,
    committed: int,
    reserved: int,
    delegated: int,
    review: Option<int>,
    allowed: seq<string>,
    validFrom: int,
    validUntil: int,
    version: nat)
  {
    /** The condition of the conditional reservation. */
    predicate Fits(amount: int) {
      committed + reserved + amount <= limit
    }
  }

  /**
   * What happened to one operation so far: how often its amount was reserved, sent to the
   * gateway, committed and released, how much of it was refunded, and every status it took.
   * The program keeps no such record; the model advances it at exactly the statements that
   * move the amount, call the gateway or assign the status.
   */
  datatype Book = Book(
    reserves: nat,
    dispatches: nat,
    commits: nat,
    releases: nat,
    refunded: int,
    trail: seq<OpStatus>)

  /** The history of an operation whose status goes from one to the next. */
  function Onward(trail: seq<OpStatus>, status: OpStatus, next: OpStatus): seq<OpStatus> {
    if next == status then trail else trail + [next]
  }

  datatype Operation = Operation(
    agent: Id,
    mandate: Id,
    kind: OpType,
    status: OpStatus,
    amount: Amount,
    currency: string,
    createdAt: int,
    refundOf: Option<Id>,
    approvedBy: Option<Id>,
    book: Book)
  {
    /** The operation holds a reservation that is neither committed nor released. */
    predicate InFlight() {
      status.Reserved? || status.Executing?
    }

    /** Assigns the status; assigning the status that the operation has already is no change. */
    function Become(next: OpStatus): Operation {
      this.(status := next, book := book.(trail := Onward(book.trail, status, next)))
    }
  }

  datatype TxStatus = Created | Authorized | Captured | Refunded | Failed

  datatype Tx = Tx(
    order: Option<Id>,
    payment: Option<Id>,
    refund: Option<Id>,
    link: Option<Id>,
    status: TxStatus)

  datatype EventStatus = Processing | Processed | Failed | DeadLetter

  datatype EventRecord = EventRecord(status: EventStatus, attempts: nat, maxRetries: nat)

  function UpperChar(c: char): char {
    if 'a' <= c <= 'z' then (c as int - 32) as char else c
  }

  /** Upper case of the letters a to z; currency codes use no others. */
  function Upper(s: string): (u: string) {
    seq(|s|, i requires 0 <= i < |s| => UpperChar(s[i]))
  }

  lemma UpperTwice(s: string)
    ensures Upper(Upper(s)) == Upper(s)
  {
  }
}
