/**
 * The control plane as an object: each method changes the tables statement by statement, as the
 * endpoints, the webhook handlers and the worker do, and is proved against the effect that the
 * ledger module gives that transaction.
 */
module Store {
  import opened Domain
  import opened Lifecycle
  import opened Forest
  import opened Policy
  import opened Admission
  import opened Ledger
  import opened Books
  import opened Settlement
  import opened Sweep
  import opened Machine
  import opened Reconciliation

  class ControlPlane {
    var agents: map<Id, AgentStatus>
    var mandates: Mandates
    var ops: map<Id, Operation>
    var txs: map<Id, Tx>
    var events: map<Id, EventRecord>

    ghost function View(): State
      reads this
    {
      State(agents, mandates, ops, txs, events)
    }

    ghost predicate Valid()
      reads this
    {
      Inv(View())
    }

    constructor ()
      ensures View() == Empty() && Valid()
    {
      agents, mandates, ops, txs, events := map[], map[], map[], map[], map[];
    }

    method SetAgentStatus(agent: Id, status: AgentStatus)
      requires Valid()
      modifies this`agents
      ensures View() == Next(old(View()), SetAgent(agent, status)) && Valid()
    {
      NextKeepsInv(View(), SetAgent(agent, status));
      agents := agents[agent := status];
    }

    // --- Single statements -------------------------------------------------------------------

    /** The conditional UPDATE; it reports whether a row matched. */
    method ReserveBudget(m: Id, amount: Amount) returns (reserved: bool)
      modifies this`mandates
      ensures reserved <==> m in old(mandates) && old(mandates)[m].Fits(amount)
      ensures mandates == if reserved then Adjust(old(mandates), m, amount, 0, 1) else old(mandates)
      ensures m in old(mandates) ==> mandates == old(mandates)[m := Admit(old(mandates)[m], amount)]
    {
      reserved := m in mandates && mandates[m].committed + mandates[m].reserved + amount <= mandates[m].limit;
      if reserved {
        mandates := mandates[m := mandates[m].(reserved := mandates[m].reserved + amount, version := mandates[m].version + 1)];
      }
    }

    /** The guarded update of the captured handler, with its branch for a reserve that is too small. */
    method CommitReserved(m: Id, amount: Amount)
      modifies this`mandates
      ensures m in old(mandates) && old(mandates)[m].reserved >= amount ==>
                mandates == Adjust(old(mandates), m, -(amount as int), amount, 1)
      ensures m in old(mandates) && old(mandates)[m].reserved < amount ==>
                mandates == Adjust(old(mandates), m, 0, amount, 1)
      ensures m !in old(mandates) ==> mandates == old(mandates)
    {
      if m in mandates {
        var row := mandates[m];
        if row.reserved >= amount {
          mandates := mandates[m := row.(reserved := row.reserved - amount, committed := row.committed + amount, version := row.version + 1)];
        } else {
          mandates := mandates[m := row.(committed := row.committed + amount, version := row.version + 1)];
        }
      }
    }

    /** The guarded update of the failed handler: it releases only if the reserve is large enough. */
    method ReleaseReserved(m: Id, amount: Amount)
      modifies this`mandates
      ensures mandates == if m in old(mandates) && old(mandates)[m].reserved >= amount
                          then Adjust(old(mandates), m, -(amount as int), 0, 1)
                          else old(mandates)
    {
      if m in mandates && mandates[m].reserved >= amount {
        var row := mandates[m];
        mandates := mandates[m := row.(reserved := row.reserved - amount, version := row.version + 1)];
      }
    }

    // --- Webhook handlers --------------------------------------------------------------------

    /** The captured handler; in a valid store the shortfall branch is never taken. */
    method HandleCaptured(order: Option<Id>, payment: Option<Id>) returns (raised: bool)
      requires Valid()
      modifies this
      ensures raised <==> OnCaptured(old(View()), order, payment).Raised?
      ensures View() == if raised then old(View()) else OnCaptured(old(View()), order, payment).state
    {
      if order.None? {
        return false;
      }
      var found := ByOrder(txs, order.value);
      if found.ManyRows? {
        return true;
      }
      if found.NoRow? {
        return false;
      }
      var o := found.row;
      if o !in ops || ops[o].status == Succeeded {
        return false;
      }
      if !CanTransition(ops[o].status, Succeeded) {
        return true;
      }
      ghost var before := View();
      ReserveCoversOne(before, o);
      var op := ops[o];
      ops := ops[o := CommitOp(op)];
      if o in txs {
        txs := txs[o := txs[o].(status := Captured)];
        if payment.Some? {
          txs := txs[o := txs[o].(payment := payment)];
        }
      }
      CommitReserved(op.mandate, op.amount);
      assert txs == WithPayment(before.txs, o, payment);
      return false;
    }

    /** The failed handler; in a valid store it always releases what it finds in flight. */
    method HandleFailed(order: Option<Id>) returns (raised: bool)
      requires Valid()
      modifies this
      ensures raised <==> OnFailed(old(View()), order).Raised?
      ensures View() == if raised then old(View()) else OnFailed(old(View()), order).state
    {
      if order.None? {
        return false;
      }
      var found := ByOrder(txs, order.value);
      if found.ManyRows? {
        return true;
      }
      if found.NoRow? {
        return false;
      }
      var o := found.row;
      if o !in ops || (ops[o].status != Executing && ops[o].status != Reserved) {
        return false;
      }
      ghost var before := View();
      ReserveCoversOne(before, o);
      var op := ops[o];
      ops := ops[o := ReleaseOp(op)];
      if o in txs {
        txs := txs[o := txs[o].(status := TxStatus.Failed)];
      }
      ReleaseReserved(op.mandate, op.amount);
      return false;
    }

    method HandleRefund(payment: Option<Id>, amount: int) returns (raised: bool)
      modifies this
      ensures raised <==> OnRefund(old(View()), payment, amount).Raised?
      ensures View() == if raised then old(View()) else OnRefund(old(View()), payment, amount).state
    {
      if payment.None? {
        return false;
      }
      var found := ByPayment(txs, payment.value);
      if found.ManyRows? {
        return true;
      }
      if found.NoRow? || found.row !in ops {
        return false;
      }
      var o := found.row;
      var op := ops[o];
      ops := ops[o := op.(book := op.book.(refunded := op.book.refunded + amount))];
      if op.mandate in mandates {
        var row := mandates[op.mandate];
        mandates := mandates[op.mandate := row.(committed := row.committed - amount, version := row.version + 1)];
      }
      return false;
    }

    method ProcessEvent(body: Body) returns (raised: bool)
      requires Valid()
      modifies this
      ensures raised <==> Process(old(View()), body).Raised?
      ensures View() == if raised then old(View()) else Process(old(View()), body).state
    {
      match body
      case PaymentCaptured(order, payment) => raised := HandleCaptured(order, payment);
      case PaymentFailed(order) => raised := HandleFailed(order);
      case RefundProcessed(payment, amount) => raised := HandleRefund(payment, amount);
      case OtherEvent => raised := false;
    }

    /** The webhook endpoint: deduplication, attempt counting, processing, and the dead-letter queue. */
    method HandleWebhook(event: Id, body: Body)
      requires Valid()
      modifies this
      ensures View() == Deliver(old(View()), event, body)
      ensures old(AlreadyProcessed(View(), event) || FairRefund(View(), body)) ==> Valid()
    {
      ghost var start := View();
      if event in events && events[event].status == Processed {
        return;
      }
      var record := EventRecord(Processing, 1, DEFAULT_MAX_RETRIES);
      if event in events {
        record := events[event].(status := Processing, attempts := events[event].attempts + 1);
      }
      ProcessKeepsRecords(start, body);
      var raised := ProcessEvent(body);
      if !raised {
        record := record.(status := Processed);
      } else if record.attempts >= record.maxRetries {
        record := record.(status := DeadLetter);
      } else {
        record := record.(status := EventStatus.Failed);
      }
      events := events[event := record];
      assert View() == Deliver(start, event, body);
      if AlreadyProcessed(start, event) || FairRefund(start, body) {
        DeliverKeepsInv(start, event, body);
      }
    }

    // --- Operations ------------------------------------------------------------------------

    /** In-place update of both counters, unconditional, as payment verification and the worker issue it. */
    method MoveBudget(m: Id, reserved: int, committed: int, bump: nat)
      modifies this`mandates
      ensures mandates == Adjust(old(mandates), m, reserved, committed, bump)
    {
      if m in mandates {
        var row := mandates[m];
        mandates := mandates[m := row.(reserved := row.reserved + reserved, committed := row.committed + committed,
                                       version := row.version + bump)];
      }
    }

    /** Calls the gateway by operation type; any failure releases the reservation. */
    method ExecuteGateway(o: Id, answer: GatewayAnswer)
      requires o in ops
      modifies this
      ensures View() == Execute(old(View()), o, answer)
    {
      var op := ops[o];
      var failed := false;
      var sent := op.book.(dispatches := op.book.dispatches + 1);
      match op.kind {
        case CreateOrder =>
          op := op.(book := sent);
          if answer.Confirmed? {
            txs := txs[o := Tx(Some(answer.ref), None, None, None, Created)];
            op := op.Become(Executing);
          } else {
            failed := true;
          }
        case CreatePaymentLink =>
          op := op.(book := sent);
          if answer.Confirmed? {
            txs := txs[o := Tx(None, None, None, Some(answer.ref), Created)];
            op := op.Become(Executing);
          } else {
            failed := true;
          }
        case CreateRefund =>
          if op.refundOf.None? {
            failed := true;
          } else {
            op := op.(book := sent);
            if answer.Confirmed? {
              txs := txs[o := Tx(None, op.refundOf, Some(answer.ref), None, if answer.processed then Refunded else Created)];
              op := CommitOp(op);
              MoveBudget(op.mandate, -(op.amount as int), op.amount, 0);
            } else {
              failed := true;
            }
          }
        case _ =>
      }
      if failed {
        MoveBudget(op.mandate, -(op.amount as int), 0, 1);
        op := ReleaseOp(op);
      }
      ops := ops[o := op];
      assert ops == Execute(old(View()), o, answer).ops;
    }

    /** The end of the request pipeline: reservation and execution, or rejection when nothing fits. */
    method ReserveThenExecute(o: Id, answer: GatewayAnswer)
      requires o in ops
      modifies this
      ensures View() == ReserveAndExecute(old(View()), o, answer)
    {
      ghost var start := View();
      var op := ops[o];
      var reserved := ReserveBudget(op.mandate, op.amount);
      if !reserved {
        ops := ops[o := op.Become(PolicyRejected)];
        return;
      }
      ops := ops[o := op.(book := op.book.(reserves := op.book.reserves + 1)).Become(Reserved)];
      assert View() == Reserve(start, o);
      ExecuteGateway(o, answer);
    }

    /** The request pipeline; replayed keys and unknown agents or mandates leave the store alone. */
    method RequestOp(o: Id, req: OpRequest, now: int, rateOk: bool, answer: GatewayAnswer)
      requires Valid()
      modifies this
      ensures View() == Request(old(View()), o, req, now, rateOk, answer)
      ensures Valid()
    {
      ghost var start := View();
      if o !in ops && req.mandate in mandates && req.agent in agents {
        ops := ops[o := NewOperation(req, now)];
        var query := Query(agents[req.agent], mandates[req.mandate], req.kind, req.amount, Upper(req.currency), None, now, rateOk, None);
        var decision, rejections, reviews := Evaluate(DEFAULT_RULES, query);
        if decision == Deny {
          ops := ops[o := ops[o].Become(PolicyRejected)];
        } else if decision == RequireHumanReview {
          ops := ops[o := ops[o].Become(RequiresApproval)];
        } else {
          ReserveThenExecute(o, answer);
        }
      }
      assert View() == Request(start, o, req, now, rateOk, answer);
      RequestKeepsValid(start, o, req, now, rateOk, answer);
    }

    /**
     * The dry run of the policy, which passes the database session and so walks up the parents.
     * It predicts the decision that the request pipeline takes without the walk.
     */
    method DryRun(req: OpRequest, now: int, rateOk: bool)
      returns (found: bool, decision: Decision, rejections: seq<Rule>, reviews: seq<Rule>)
      requires Valid()
      ensures found <==> req.agent in agents && req.mandate in mandates
      ensures found ==> decision == Decide(DEFAULT_RULES, LiveQuery(View(), req, now, rateOk))
      ensures found ==> rejections == Rejections(DEFAULT_RULES, LiveQuery(View(), req, now, rateOk).(session := Some(mandates)))
      ensures found ==> reviews == Reviews(DEFAULT_RULES, LiveQuery(View(), req, now, rateOk).(session := Some(mandates)))
    {
      if req.agent !in agents || req.mandate !in mandates {
        return false, Deny, [], [];
      }
      ForestDepths(mandates);
      var query := Query(agents[req.agent], mandates[req.mandate], req.kind, req.amount, Upper(req.currency), None, now, rateOk,
                         Some(mandates));
      WalkChangesNothing(mandates, req.mandate, query);
      found := true;
      decision, rejections, reviews := Evaluate(DEFAULT_RULES, query);
    }

    /** Human sign-off; the policy is not consulted again, only the budget. */
    method ApproveOp(o: Id, approver: Id, approved: bool, answer: GatewayAnswer)
      requires Valid()
      modifies this
      ensures View() == Approve(old(View()), o, approver, approved, answer)
      ensures Valid()
    {
      ghost var start := View();
      if o in ops && ops[o].status == RequiresApproval && ops[o].mandate in mandates {
        if !approved {
          ops := ops[o := ops[o].Become(PolicyRejected)];
        } else {
          var reserved := ReserveBudget(ops[o].mandate, ops[o].amount);
          if !reserved {
            ops := ops[o := ops[o].Become(PolicyRejected)];
          } else {
            var op := ops[o].(approvedBy := Some(approver));
            ops := ops[o := op.(book := op.book.(reserves := op.book.reserves + 1)).Become(Reserved)];
            assert View() == Reserve(Signed(start, o, approver), o);
            ExecuteGateway(o, answer);
          }
        }
      }
      assert View() == Approve(start, o, approver, approved, answer);
      ApproveKeepsValid(start, o, approver, approved, answer);
    }

    /** Payment verification; it does not look at the operation's status. */
    method VerifyPayment(o: Id, payment: Id, valid: bool)
      modifies this
      ensures View() == Verify(old(View()), o, payment, valid)
      ensures old(Valid()) && (o in old(ops) && valid ==> old(ops)[o].InFlight()) ==> Valid()
    {
      ghost var start := View();
      if o !in ops || !valid {
        return;
      }
      var op := ops[o];
      MoveBudget(op.mandate, -(op.amount as int), op.amount, 1);
      if o in txs {
        txs := txs[o := txs[o].(payment := Some(payment), status := Captured)];
      }
      ops := ops[o := CommitOp(op)];
      if Inv(start) && op.InFlight() {
        VerifyKeepsInv(start, o, payment);
      }
    }

    // --- Mandates --------------------------------------------------------------------------

    /** Issues a root mandate under a fresh key. */
    method IssueMandate(id: Id, terms: MandateRequest, now: int)
      requires Valid() && id !in mandates
      modifies this
      ensures View() == Create(old(View()), id, terms, now) && Valid()
    {
      CreateKeepsInv(View(), id, terms, now);
      if terms.agent !in agents {
        return;
      }
      mandates := mandates[id := RootMandate(terms, now)];
    }

    /** Delegates under a fresh key; the reason says which check refused. */
    method DelegateChild(parent: Id, id: Id, share: DelegateRequest, now: int) returns (verdict: Ruling)
      requires Valid() && id !in mandates
      modifies this
      ensures verdict == DelegationVerdict(old(View()), parent, share)
      ensures View() == Delegate(old(View()), parent, id, share, now) && Valid()
    {
      DelegateKeepsInv(View(), parent, id, share, now);
      if parent !in mandates {
        return Refused(UnknownMandate);
      }
      if mandates[parent].status != MandateStatus.Active {
        return Refused(ParentNotActive);
      }
      if share.agent !in agents {
        return Refused(UnknownAgent);
      }
      verdict := ValidateDelegation(mandates[parent], share);
      if verdict.Refused? {
        return;
      }
      var child := ChildMandate(parent, mandates[parent], share, verdict.currency, now);
      var row := mandates[parent];
      mandates := mandates[parent := row.(delegated := row.delegated + share.limit, version := row.version + 1)];
      mandates := mandates[id := child];
    }

    /** Suspends or revokes a mandate with its whole subtree, one audit event for each of them. */
    method CascadeTo(root: Id, target: MandateStatus) returns (audit: seq<Id>)
      requires Valid() && !target.Active?
      modifies this
      ensures View() == Cascade(old(View()), root, target) && Valid()
      ensures Distinct(audit)
      ensures forall m :: m in audit <==> root in old(mandates) && m in old(mandates) && Below(old(mandates), root, m)
    {
      CascadeKeepsInv(View(), root, target);
      if root !in mandates {
        return [];
      }
      mandates, audit := CascadeStatus(mandates, root, target);
    }

    method ActivateMandate(m: Id) returns (done: bool)
      requires Valid()
      modifies this
      ensures done <==> m in old(mandates) && MayActivate(old(mandates), m)
      ensures View() == Activate(old(View()), m) && Valid()
    {
      ActivateKeepsInv(View(), m);
      if m !in mandates {
        return false;
      }
      if mandates[m].parent.Some? {
        var parent := mandates[m].parent.value;
        if parent in mandates && mandates[parent].status != MandateStatus.Active {
          return false;
        }
      }
      mandates := mandates[m := mandates[m].(status := MandateStatus.Active, version := mandates[m].version + 1)];
      return true;
    }

    // --- The worker ------------------------------------------------------------------------

    /** The loop body of the sweep; it reports whether the operation was settled. */
    method ReconcileOne(o: Id, now: int, answers: map<Id, OrderAnswer>) returns (settled: bool)
      requires o in ops
      modifies this
      ensures View() == SweepOne(old(View()), o, now, answers)
      ensures settled <==> !SweepVerdict(old(View()), o, now, answers).Leave?
      ensures settled <==> OrderPaid(old(View()), o, answers) || Abandoned(old(View()), o, now, answers)
    {
      VerdictMeans(View(), o, now, answers);
      var op := ops[o];
      if op.mandate !in mandates {
        return false;
      }
      if o !in txs || (txs[o].order.None? && txs[o].payment.None? && txs[o].link.None?) {
        ops := ops[o := ReleaseOp(op)];
        MoveBudget(op.mandate, -(op.amount as int), 0, 1);
        return true;
      }
      if txs[o].order.None? {
        return false;
      }
      var answer := AnswerTo(answers, txs[o].order.value);
      if answer == Paid {
        ops := ops[o := CommitOp(op)];
        txs := txs[o := txs[o].(status := Captured)];
        MoveBudget(op.mandate, -(op.amount as int), op.amount, 1);
        assert txs == WithPayment(old(txs), o, None);
        return true;
      }
      if (answer == Attempted || answer == OrderCreated) && now - op.createdAt > UNPAID_AFTER_SECONDS {
        ops := ops[o := ReleaseOp(op)];
        MoveBudget(op.mandate, -(op.amount as int), 0, 1);
        return true;
      }
      return false;
    }

    /**
     * The reconciliation sweep. Every selected operation ends as its verdict on the state before
     * the sweep says, and the result counts the settled ones.
     */
    method ReconcileStuck(now: int, timeout: int, answers: map<Id, OrderAnswer>) returns (reconciled: nat)
      requires Valid()
      modifies this
      ensures Swept(old(View()), View(), Stuck(old(View()), now, timeout), now, answers)
      ensures reconciled == |SettledBySweep(old(View()), now, timeout, answers)|
      ensures Valid()
    {
      ghost var start := View();
      var rows := ListRows(set o | o in ops && ops[o].InFlight() && ops[o].createdAt <= now - timeout);
      reconciled := 0;
      var i := 0;
      LoopStarts(start, rows, now, answers);
      while i < |rows|
        invariant 0 <= i <= |rows|
        invariant SweptSoFar(start, View(), rows, i, reconciled, now, answers)
      {
        LoopTurn(start, View(), rows, i, reconciled, now, timeout, answers);
        var settled := ReconcileOne(rows[i], now, answers);
        if settled {
          reconciled := reconciled + 1;
        }
        i := i + 1;
      }
      LoopEnds(start, View(), rows, reconciled, now, timeout, answers);
      ReconciledMeans(start, now, timeout, answers);
    }
  }

  lemma RequestKeepsValid(s: State, o: Id, req: OpRequest, now: int, rateOk: bool, answer: GatewayAnswer)
    requires Inv(s)
    ensures Inv(Request(s, o, req, now, rateOk, answer))
  {
    RequestKeepsInv(s, o, req, now, rateOk, answer);
  }

  lemma ApproveKeepsValid(s: State, o: Id, approver: Id, approved: bool, answer: GatewayAnswer)
    requires Inv(s)
    ensures Inv(Approve(s, o, approver, approved, answer))
  {
    ApproveKeepsInv(s, o, approver, approved, answer);
  }

  /** The operations that a sweep over done settles. */
  function Reconciled(s: State, done: set<Id>, now: int, answers: map<Id, OrderAnswer>): set<Id> {
    set o | o in done && o in s.ops && !SweepVerdict(s, o, now, answers).Leave?
  }

  lemma ReconciledMeans(s: State, now: int, timeout: int, answers: map<Id, OrderAnswer>)
    ensures Reconciled(s, Stuck(s, now, timeout), now, answers) == SettledBySweep(s, now, timeout, answers)
  {
    forall o ensures o in Reconciled(s, Stuck(s, now, timeout), now, answers) <==> o in SettledBySweep(s, now, timeout, answers) {
      StuckMeans(s, now, timeout, o);
      if o in s.ops {
        VerdictMeans(s, o, now, answers);
      }
    }
  }

  lemma ReconciledStep(s: State, done: set<Id>, o: Id, now: int, answers: map<Id, OrderAnswer>)
    requires o in s.ops && o !in done
    ensures |Reconciled(s, done + {o}, now, answers)|
         == |Reconciled(s, done, now, answers)| + if SweepVerdict(s, o, now, answers).Leave? then 0 else 1
  {
    var before, after := Reconciled(s, done, now, answers), Reconciled(s, done + {o}, now, answers);
    if SweepVerdict(s, o, now, answers).Leave? {
      assert after == before;
    } else {
      assert after == before + {o};
    }
  }

  /** The sweep has handled the first i rows and settled count of them. */
  ghost predicate SweptSoFar(s: State, t: State, rows: seq<Id>, i: nat, count: nat, now: int, answers: map<Id, OrderAnswer>) {
    && i <= |rows|
    && Swept(s, t, RowSet(rows[..i]), now, answers)
    && count == |Reconciled(s, RowSet(rows[..i]), now, answers)|
  }

  lemma LoopStarts(s: State, rows: seq<Id>, now: int, answers: map<Id, OrderAnswer>)
    requires BooksOk(s)
    ensures SweptSoFar(s, s, rows, 0, 0, now, answers)
  {
    SettledSelf(s);
    assert SweptOps(s, {}, now, answers) == s.ops && SweptTxs(s, {}, now, answers) == s.txs;
    assert RowSet(rows[..0]) == {} && Reconciled(s, {}, now, answers) == {};
  }

  lemma LoopTurn(s: State, t: State, rows: seq<Id>, i: nat, count: nat, now: int, timeout: int, answers: map<Id, OrderAnswer>)
    requires BooksOk(s) && Distinct(rows) && (forall o :: o in rows <==> o in Stuck(s, now, timeout))
    requires i < |rows| && SweptSoFar(s, t, rows, i, count, now, answers)
    ensures rows[i] in t.ops
    ensures SweptSoFar(s, SweepOne(t, rows[i], now, answers), rows, i + 1,
                       count + if SweepVerdict(t, rows[i], now, answers).Leave? then 0 else 1, now, answers)
  {
    var o, done := rows[i], RowSet(rows[..i]);
    assert o in rows;
    assert RowSet(rows[..i + 1]) == done + {o};
    SameVerdict(s, t, done, o, now, answers);
    SweepStep(s, t, done, o, now, answers);
    ReconciledStep(s, done, o, now, answers);
  }

  lemma LoopEnds(s: State, t: State, rows: seq<Id>, count: nat, now: int, timeout: int, answers: map<Id, OrderAnswer>)
    requires Inv(s) && (forall o :: o in rows <==> o in Stuck(s, now, timeout))
    requires SweptSoFar(s, t, rows, |rows|, count, now, answers)
    ensures Swept(s, t, Stuck(s, now, timeout), now, answers)
    ensures count == |Reconciled(s, Stuck(s, now, timeout), now, answers)|
    ensures Inv(t)
  {
    assert rows[..|rows|] == rows;
    assert RowSet(rows) == Stuck(s, now, timeout);
    ForestFrame(s.mandates, t.mandates);
  }
}
