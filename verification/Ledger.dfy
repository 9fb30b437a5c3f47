/** The state of the control plane and the effect of each database transaction on it. */
module Ledger {
  import opened Domain
  import opened Forest
  import opened Policy

  /**
   * Operations are keyed by their idempotency key, which is unique; a transaction row is keyed
   * by the operation it belongs to.
   */
  datatype State = State(
    agents: map<Id, AgentStatus>,
    mandates: Mandates,
    ops: map<Id, Operation>,
    txs: map<Id, Tx>,
    events: map<Id, EventRecord>)

  function Empty(): State {
    State(map[], map[], map[], map[], map[])
  }

  // --- Budget movements --------------------------------------------------------------------

  /** An in-place UPDATE of the two counters of the row with key m; no row, no effect. */
  function Adjust(ms: Mandates, m: Id, reserved: int, committed: int, bump: nat): Mandates {
    if m in ms then
      ms[m := ms[m].(reserved := ms[m].reserved + reserved,
                     committed := ms[m].committed + committed,
                     version := ms[m].version + bump)]
    else ms
  }

  function Reserve(s: State, o: Id): State
    requires o in s.ops
  {
    var op := s.ops[o];
    s.(ops := s.ops[o := op.(book := op.book.(reserves := op.book.reserves + 1)).Become(Reserved)],
       mandates := Adjust(s.mandates, op.mandate, op.amount, 0, 1))
  }

  function CommitOp(op: Operation): Operation {
    op.(book := op.book.(commits := op.book.commits + 1)).Become(Succeeded)
  }

  function ReleaseOp(op: Operation): Operation {
    op.(book := op.book.(releases := op.book.releases + 1)).Become(OpStatus.Failed)
  }

  /** Moves the operation's amount from reserved to committed. */
  function Commit(s: State, o: Id, bump: nat): State
    requires o in s.ops
  {
    var op := s.ops[o];
    s.(ops := s.ops[o := CommitOp(op)],
       mandates := Adjust(s.mandates, op.mandate, -(op.amount as int), op.amount, bump))
  }

  /** Gives the operation's amount back. */
  function Release(s: State, o: Id): State
    requires o in s.ops
  {
    var op := s.ops[o];
    s.(ops := s.ops[o := ReleaseOp(op)],
       mandates := Adjust(s.mandates, op.mandate, -(op.amount as int), 0, 1))
  }

  // --- Mandates ----------------------------------------------------------------------------

  function Create(s: State, id: Id, req: MandateRequest, now: int): State {
    if req.agent in s.agents && id !in s.mandates
    then s.(mandates := s.mandates[id := RootMandate(req, now)])
    else s
  }

  /** The delegation endpoint: its checks in order, then the child's verdict. */
  function DelegationVerdict(s: State, parent: Id, req: DelegateRequest): Ruling {
    if parent !in s.mandates then Refused(UnknownMandate)
    else if !s.mandates[parent].status.Active? then Refused(ParentNotActive)
    else if req.agent !in s.agents then Refused(UnknownAgent)
    else ValidateDelegation(s.mandates[parent], req)
  }

  function Delegate(s: State, parent: Id, id: Id, req: DelegateRequest, now: int): State {
    var verdict := DelegationVerdict(s, parent, req);
    if verdict.Accepted? && id !in s.mandates
    then s.(mandates := Delegated(s.mandates, parent, id, req, verdict.currency, now))
    else s
  }

  ghost function Cascade(s: State, root: Id, target: MandateStatus): State {
    if root in s.mandates then s.(mandates := Cascaded(s.mandates, root, target)) else s
  }

  function Activate(s: State, m: Id): State {
    if m in s.mandates && MayActivate(s.mandates, m) then s.(mandates := Activated(s.mandates, m)) else s
  }

  // --- Requests and approvals --------------------------------------------------------------

  datatype OpRequest = OpRequest(
    agent: Id,
    mandate: Id,
    kind: OpType,
    amount: Amount,
    currency: string,
    refundOf: Option<Id>)

  /** What the gateway answers to a dispatch: a reference, or a failure. */
  datatype GatewayAnswer = Confirmed(ref: Id, processed: bool) | Rejected

  function NewOperation(req: OpRequest, now: int): Operation {
    Operation(req.agent, req.mandate, req.kind, Initiated, req.amount, Upper(req.currency), now, req.refundOf, None,
              Book(0, 0, 0, 0, 0, [Initiated]))
  }

  function Insert(s: State, o: Id, req: OpRequest, now: int): State {
    s.(ops := s.ops[o := NewOperation(req, now)])
  }

  /** A pure status change, without any budget movement. */
  function Park(s: State, o: Id, status: OpStatus): State
    requires o in s.ops
  {
    s.(ops := s.ops[o := s.ops[o].Become(status)])
  }

  function Dispatched(s: State, o: Id): State
    requires o in s.ops
  {
    s.(ops := s.ops[o := s.ops[o].(book := s.ops[o].book.(dispatches := s.ops[o].book.dispatches + 1))])
  }

  /** Gateway execution of a reserved operation, by type. */
  function Execute(s: State, o: Id, answer: GatewayAnswer): State
    requires o in s.ops
  {
    var op := s.ops[o];
    match op.kind
    case CreateOrder =>
      if answer.Rejected? then Release(Dispatched(s, o), o)
      else Park(Dispatched(s, o), o, Executing).(txs := s.txs[o := Tx(Some(answer.ref), None, None, None, Created)])
    case CreatePaymentLink =>
      if answer.Rejected? then Release(Dispatched(s, o), o)
      else Park(Dispatched(s, o), o, Executing).(txs := s.txs[o := Tx(None, None, None, Some(answer.ref), Created)])
    case CreateRefund =>
      if op.refundOf.None? then Release(s, o)
      else if answer.Rejected? then Release(Dispatched(s, o), o)
      else Commit(Dispatched(s, o), o, 0).(txs := s.txs[o :=
             Tx(None, op.refundOf, Some(answer.ref), None, if answer.processed then Refunded else Created)])
    case CapturePayment => s
    case CancelPaymentLink => s
  }

  /** Reserves and executes, or rejects when the conditional reservation finds no room. */
  function ReserveAndExecute(s: State, o: Id, answer: GatewayAnswer): State
    requires o in s.ops
  {
    var op := s.ops[o];
    if op.mandate in s.mandates && s.mandates[op.mandate].Fits(op.amount)
    then Execute(Reserve(s, o), o, answer)
    else Park(s, o, PolicyRejected)
  }

  function LiveQuery(s: State, req: OpRequest, now: int, rateOk: bool): Query
    requires req.agent in s.agents && req.mandate in s.mandates
  {
    Query(s.agents[req.agent], s.mandates[req.mandate], req.kind, req.amount, Upper(req.currency), None, now, rateOk, None)
  }

  /** What a request does once the policy has decided. */
  function Conclude(s: State, o: Id, decision: Decision, answer: GatewayAnswer): State
    requires o in s.ops
  {
    match decision
    case Deny => Park(s, o, PolicyRejected)
    case RequireHumanReview => Park(s, o, RequiresApproval)
    case Allow => ReserveAndExecute(s, o, answer)
  }

  ghost function Request(s: State, o: Id, req: OpRequest, now: int, rateOk: bool, answer: GatewayAnswer): State {
    if o in s.ops || req.mandate !in s.mandates || req.agent !in s.agents then s
    else Conclude(Insert(s, o, req, now), o, Decide(DEFAULT_RULES, LiveQuery(s, req, now, rateOk)), answer)
  }

  function Signed(s: State, o: Id, approver: Id): State
    requires o in s.ops
  {
    s.(ops := s.ops[o := s.ops[o].(approvedBy := Some(approver))])
  }

  /** What an approver does once the operation was found to await approval. */
  function Sign(s: State, o: Id, approver: Id, approved: bool, answer: GatewayAnswer): State
    requires o in s.ops
  {
    if approved && s.ops[o].mandate in s.mandates && s.mandates[s.ops[o].mandate].Fits(s.ops[o].amount)
    then Execute(Reserve(Signed(s, o, approver), o), o, answer)
    else Park(s, o, PolicyRejected)
  }

  function Approve(s: State, o: Id, approver: Id, approved: bool, answer: GatewayAnswer): State {
    if o !in s.ops || !s.ops[o].status.RequiresApproval? || s.ops[o].mandate !in s.mandates then s
    else Sign(s, o, approver, approved, answer)
  }

  // --- Settlement --------------------------------------------------------------------------

  function WithPayment(txs: map<Id, Tx>, o: Id, payment: Option<Id>): map<Id, Tx> {
    if o in txs
    then txs[o := txs[o].(payment := if payment.Some? then payment else txs[o].payment, status := Captured)]
    else txs
  }

  /** Payment verification: commits whatever the operation's status is. */
  function Verify(s: State, o: Id, payment: Id, valid: bool): State {
    if o !in s.ops || !valid then s
    else Commit(s, o, 1).(txs := WithPayment(s.txs, o, Some(payment)))
  }

  /** The settlement of an in-flight operation by a captured payment. */
  function Capture(s: State, o: Id, payment: Option<Id>): State
    requires o in s.ops
  {
    Commit(s, o, 1).(txs := WithPayment(s.txs, o, payment))
  }

  /** The settlement of an in-flight operation by a failed payment. */
  function FailPayment(s: State, o: Id): State
    requires o in s.ops
  {
    Release(s, o).(txs := if o in s.txs then s.txs[o := s.txs[o].(status := TxStatus.Failed)] else s.txs)
  }

  function CreditRefund(s: State, o: Id, amount: int): State
    requires o in s.ops
  {
    var op := s.ops[o];
    s.(ops := s.ops[o := op.(book := op.book.(refunded := op.book.refunded + amount))],
       mandates := Adjust(s.mandates, op.mandate, 0, -amount, 1))
  }

  // --- Webhooks ----------------------------------------------------------------------------

  /** The result of a query that expects at most one row. */
  datatype Rows = NoRow | OneRow(row: Id) | ManyRows

  ghost predicate IsLeast(s: set<Id>, x: Id) {
    x in s && forall y | y in s :: x <= y
  }

  lemma {:induction false} LeastExists(s: set<Id>)
    requires s != {}
    ensures exists x :: IsLeast(s, x)
    decreases s
  {
    var x :| x in s;
    if s == {x} {
      assert IsLeast(s, x);
    } else {
      LeastExists(s - {x});
      var z :| IsLeast(s - {x}, z);
      assert forall y | y in s :: y == x || y in s - {x};
      assert IsLeast(s, if x < z then x else z);
    }
  }

  function OnlyRow(s: set<Id>): (r: Rows)
    ensures r.NoRow? <==> s == {}
    ensures forall x: Id :: r == OneRow(x) <==> s == {x}
  {
    if s == {} then NoRow
    else
      LeastExists(s);
      assert exists x :: x in s && forall y | y in s :: x <= y by {
        var least :| IsLeast(s, least);
      }
      var x :| x in s && forall y | y in s :: x <= y;
      if s == {x} then OneRow(x) else ManyRows
  }

  function OrderRows(txs: map<Id, Tx>, order: Id): set<Id> {
    set o | o in txs && txs[o].order == Some(order)
  }

  function PaymentRows(txs: map<Id, Tx>, payment: Id): set<Id> {
    set o | o in txs && txs[o].payment == Some(payment)
  }

  function ByOrder(txs: map<Id, Tx>, order: Id): Rows {
    OnlyRow(OrderRows(txs, order))
  }

  function ByPayment(txs: map<Id, Tx>, payment: Id): Rows {
    OnlyRow(PaymentRows(txs, payment))
  }

  datatype Body =
    | PaymentCaptured(order: Option<Id>, payment: Option<Id>)
    | PaymentFailed(order: Option<Id>)
    | RefundProcessed(refunded: Option<Id>, amount: int)
    | OtherEvent

  /** A handler either finishes, possibly without effect, or raises. */
  datatype Outcome = Done(state: State) | Raised

  function OnCaptured(s: State, order: Option<Id>, payment: Option<Id>): Outcome {
    if order.None? then Done(s)
    else
      match ByOrder(s.txs, order.value)
      case NoRow => Done(s)
      case ManyRows => Raised
      case OneRow(o) =>
        if o !in s.ops || s.ops[o].status.Succeeded? then Done(s)
        else if s.ops[o].InFlight() then Done(Capture(s, o, payment))
        else Raised
  }

  function OnFailed(s: State, order: Option<Id>): Outcome {
    if order.None? then Done(s)
    else
      match ByOrder(s.txs, order.value)
      case NoRow => Done(s)
      case ManyRows => Raised
      case OneRow(o) =>
        if o in s.ops && s.ops[o].InFlight() then Done(FailPayment(s, o)) else Done(s)
  }

  function OnRefund(s: State, payment: Option<Id>, amount: int): Outcome {
    if payment.None? then Done(s)
    else
      match ByPayment(s.txs, payment.value)
      case NoRow => Done(s)
      case ManyRows => Raised
      case OneRow(o) => if o in s.ops then Done(CreditRefund(s, o, amount)) else Done(s)
  }

  function Process(s: State, body: Body): Outcome {
    match body
    case PaymentCaptured(order, payment) => OnCaptured(s, order, payment)
    case PaymentFailed(order) => OnFailed(s, order)
    case RefundProcessed(payment, amount) => OnRefund(s, payment, amount)
    case OtherEvent => Done(s)
  }

  /** No handler touches the event records. */
  lemma ProcessKeepsRecords(s: State, body: Body)
    ensures Process(s, body).Done? ==> Process(s, body).state.events == s.events
  {
  }

  const DEFAULT_MAX_RETRIES: nat := 3

  function AlreadyProcessed(s: State, event: Id): bool {
    event in s.events && s.events[event].status.Processed?
  }

  /** The record of an event at the start of a processing attempt. */
  function Attempt(s: State, event: Id): EventRecord {
    if event in s.events
    then s.events[event].(status := Processing, attempts := s.events[event].attempts + 1)
    else EventRecord(Processing, 1, DEFAULT_MAX_RETRIES)
  }

  function AfterFailure(r: EventRecord): EventRecord {
    r.(status := if r.attempts >= r.maxRetries then DeadLetter else EventStatus.Failed)
  }

  /** One delivery of a webhook event. */
  function Deliver(s: State, event: Id, body: Body): State {
    if AlreadyProcessed(s, event) then s
    else
      var record := Attempt(s, event);
      match Process(s, body)
      case Done(t) => t.(events := s.events[event := record.(status := Processed)])
      case Raised => s.(events := s.events[event := AfterFailure(record)])
  }

  // --- The reconciliation sweep ------------------------------------------------------------

  /** What the gateway says about an order. */
  datatype OrderAnswer = Paid | Attempted | OrderCreated | OtherStatus | FetchFailed

  datatype Settlement = Leave | Free | Settle

  const UNPAID_AFTER_SECONDS: int := 300

  /** The operations a sweep selects. */
  function Stuck(s: State, now: int, timeout: int): set<Id> {
    set o | o in s.ops && s.ops[o].InFlight() && s.ops[o].createdAt <= now - timeout
  }

  function AnswerTo(answers: map<Id, OrderAnswer>, order: Id): OrderAnswer {
    if order in answers then answers[order] else FetchFailed
  }

  /** What the sweep does with one selected operation. */
  function SweepVerdict(s: State, o: Id, now: int, answers: map<Id, OrderAnswer>): Settlement
    requires o in s.ops
  {
    if s.ops[o].mandate !in s.mandates then Leave
    else if o !in s.txs || (s.txs[o].order.None? && s.txs[o].payment.None? && s.txs[o].link.None?) then Free
    else if s.txs[o].order.None? then Leave
    else
      match AnswerTo(answers, s.txs[o].order.value)
      case Paid => Settle
      case Attempted => if now - s.ops[o].createdAt > UNPAID_AFTER_SECONDS then Free else Leave
      case OrderCreated => if now - s.ops[o].createdAt > UNPAID_AFTER_SECONDS then Free else Leave
      case OtherStatus => Leave
      case FetchFailed => Leave
  }

  function SweepOne(s: State, o: Id, now: int, answers: map<Id, OrderAnswer>): State {
    if o !in s.ops then s
    else
      match SweepVerdict(s, o, now, answers)
      case Leave => s
      case Free => Release(s, o)
      case Settle => Capture(s, o, None)
  }

  function SweepRows(s: State, rows: seq<Id>, now: int, answers: map<Id, OrderAnswer>): State {
    if rows == [] then s
    else SweepOne(SweepRows(s, rows[..|rows| - 1], now, answers), rows[|rows| - 1], now, answers)
  }

  function RowSet(rows: seq<Id>): set<Id> {
    set o | o in rows
  }

  /** rows lists the selected operations, each once, in some order. */
  predicate Selection(s: State, rows: seq<Id>, now: int, timeout: int) {
    Distinct(rows) && RowSet(rows) == Stuck(s, now, timeout)
  }
}
