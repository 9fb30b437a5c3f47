/**
 * What requests, approvals and payment verification do, stated on the rows before and after the
 * transaction.
 */
module Requests {
  import opened Domain
  import opened Policy
  import opened Ledger
  import opened Machine
  import opened Decisions

  // --- Execution of a reserved amount ------------------------------------------------------

  /** How the execution of a reserved operation ends. */
  datatype Fate = Runs | Pays | Stays | Fails(asked: bool)

  /** By type and gateway answer; a refund without a payment fails before the gateway is asked. */
  function FateOf(kind: OpType, refundOf: Option<Id>, answer: GatewayAnswer): Fate {
    if kind.CapturePayment? || kind.CancelPaymentLink? then Stays
    else if kind.CreateRefund? && refundOf.None? then Fails(false)
    else if answer.Rejected? then Fails(true)
    else if kind.CreateRefund? then Pays
    else Runs
  }

  /** The transaction row that a confirmed dispatch leaves. */
  predicate RowFor(row: Tx, kind: OpType, refundOf: Option<Id>, answer: GatewayAnswer) {
    && answer.Confirmed?
    && row.order == (if kind.CreateOrder? then Some(answer.ref) else None)
    && row.link == (if kind.CreatePaymentLink? then Some(answer.ref) else None)
    && row.refund == (if kind.CreateRefund? then Some(answer.ref) else None)
    && row.payment == (if kind.CreateRefund? then refundOf else None)
    && row.status == (if kind.CreateRefund? && answer.processed then Refunded else Created)
  }

  /** What became of the operation. */
  predicate OpTook(a: Operation, b: Operation, fate: Fate) {
    && b.status == (match fate case Runs => Executing case Pays => Succeeded case Stays => Reserved case Fails(_) => OpStatus.Failed)
    && b.book.reserves == a.book.reserves + 1
    && b.book.dispatches == a.book.dispatches + (if fate.Stays? || fate == Fails(false) then 0 else 1)
    && b.book.commits == a.book.commits + (if fate.Pays? then 1 else 0)
    && b.book.releases == a.book.releases + (if fate.Fails? then 1 else 0)
    && b.book.refunded == a.book.refunded
    && b.agent == a.agent && b.mandate == a.mandate && b.kind == a.kind && b.amount == a.amount && b.currency == a.currency
    && b.createdAt == a.createdAt && b.refundOf == a.refundOf && b.approvedBy == a.approvedBy
  }

  /** What became of the mandate. */
  predicate RowTook(a: Mandate, b: Mandate, amount: Amount, fate: Fate) {
    && b.reserved == a.reserved + (if fate.Runs? || fate.Stays? then amount else 0)
    && b.committed == a.committed + (if fate.Pays? then amount else 0)
    && b.version == a.version + (if fate.Fails? then 2 else 1)
    && b == a.(reserved := b.reserved, committed := b.committed, version := b.version)
  }

  /** The amount of operation o was reserved on its mandate and executed; nothing else happened. */
  ghost predicate Took(s: State, t: State, o: Id, answer: GatewayAnswer)
    requires o in s.ops
  {
    var op := s.ops[o];
    var fate := FateOf(op.kind, op.refundOf, answer);
    && t.agents == s.agents && t.events == s.events
    && o in t.ops && t.ops == s.ops[o := t.ops[o]] && OpTook(op, t.ops[o], fate)
    && op.mandate in s.mandates && op.mandate in t.mandates
    && t.mandates == s.mandates[op.mandate := t.mandates[op.mandate]]
    && RowTook(s.mandates[op.mandate], t.mandates[op.mandate], op.amount, fate)
    && (if fate.Runs? || fate.Pays?
        then o in t.txs && t.txs == s.txs[o := t.txs[o]] && RowFor(t.txs[o], op.kind, op.refundOf, answer)
        else t.txs == s.txs)
  }

  lemma ConfirmedTakes(s: State, o: Id, answer: GatewayAnswer)
    requires o in s.ops && s.ops[o].mandate in s.mandates && FateOf(s.ops[o].kind, s.ops[o].refundOf, answer) in {Runs, Pays}
    ensures Took(s, Execute(Reserve(s, o), o, answer), o, answer)
  {
  }

  lemma RejectedTakes(s: State, o: Id, answer: GatewayAnswer)
    requires o in s.ops && s.ops[o].mandate in s.mandates && FateOf(s.ops[o].kind, s.ops[o].refundOf, answer) == Fails(true)
    ensures Took(s, Execute(Reserve(s, o), o, answer), o, answer)
  {
    assert Execute(Reserve(s, o), o, answer) == Release(Dispatched(Reserve(s, o), o), o);
  }

  lemma UnpaidRefundTakes(s: State, o: Id, answer: GatewayAnswer)
    requires o in s.ops && s.ops[o].mandate in s.mandates && FateOf(s.ops[o].kind, s.ops[o].refundOf, answer) == Fails(false)
    ensures Took(s, Execute(Reserve(s, o), o, answer), o, answer)
  {
    assert Execute(Reserve(s, o), o, answer) == Release(Reserve(s, o), o);
  }

  lemma UnaskedTakes(s: State, o: Id, answer: GatewayAnswer)
    requires o in s.ops && s.ops[o].mandate in s.mandates && FateOf(s.ops[o].kind, s.ops[o].refundOf, answer).Stays?
    ensures Took(s, Execute(Reserve(s, o), o, answer), o, answer)
  {
  }

  lemma ExecutionTakes(s: State, o: Id, answer: GatewayAnswer)
    requires o in s.ops && s.ops[o].mandate in s.mandates
    ensures Took(s, Execute(Reserve(s, o), o, answer), o, answer)
  {
    match FateOf(s.ops[o].kind, s.ops[o].refundOf, answer)
    case Fails(asked) =>
      if asked {
        RejectedTakes(s, o, answer);
      } else {
        UnpaidRefundTakes(s, o, answer);
      }
    case Stays => UnaskedTakes(s, o, answer);
    case _ => ConfirmedTakes(s, o, answer);
  }

  /** Only the status of operation o changed. */
  ghost predicate Marked(s: State, t: State, o: Id, status: OpStatus)
    requires o in s.ops
  {
    && o in t.ops && t == s.(ops := s.ops[o := t.ops[o]])
    && t.ops[o].status == status
    && t.ops[o] == s.ops[o].(status := status, book := s.ops[o].book.(trail := t.ops[o].book.trail))
  }

  // --- Requests ----------------------------------------------------------------------------

  /** The operation as it is first recorded. */
  predicate Recorded(op: Operation, req: OpRequest, now: int) {
    && op.agent == req.agent && op.mandate == req.mandate && op.kind == req.kind && op.amount == req.amount
    && SameLetters(op.currency, req.currency) && Capital(op.currency) && op.createdAt == now && op.refundOf == req.refundOf
    && op.status.Initiated? && op.approvedBy.None?
    && op.book == Book(0, 0, 0, 0, 0, [Initiated])
  }

  ghost predicate Inserted(s: State, t: State, o: Id, req: OpRequest, now: int) {
    o in t.ops && t == s.(ops := s.ops[o := t.ops[o]]) && Recorded(t.ops[o], req, now)
  }

  /** A replayed key, an unknown agent or an unknown mandate changes nothing. */
  lemma RequestRefused(s: State, o: Id, req: OpRequest, now: int, rateOk: bool, answer: GatewayAnswer)
    requires o in s.ops || req.agent !in s.agents || req.mandate !in s.mandates
    ensures Next(s, RequestOperation(o, req, now, rateOk, answer)) == s
  {
  }

  lemma InsertRecords(s: State, o: Id, req: OpRequest, now: int)
    ensures Inserted(s, Insert(s, o, req, now), o, req, now)
  {
    UpperMeans(req.currency);
  }

  lemma LiveDecision(s: State, req: OpRequest, now: int, rateOk: bool)
    requires req.agent in s.agents && req.mandate in s.mandates
    ensures var row := s.mandates[req.mandate];
            var permits := Permits(s.agents[req.agent], row, req.kind, req.amount, req.currency, now, rateOk);
            Decide(DEFAULT_RULES, LiveQuery(s, req, now, rateOk)) ==
              if !permits then Deny else if Awaits(row, req.amount) then RequireHumanReview else Allow
  {
    DecisionMeans(LiveQuery(s, req, now, rateOk));
    UpperTwice(req.currency);
    UpperAgrees(Upper(req.currency), s.mandates[req.mandate].currency);
    UpperAgrees(req.currency, s.mandates[req.mandate].currency);
  }

  /**
   * A fresh request of a known agent on a known mandate. The amount is reserved and executed if
   * everything permits it and no review threshold is reached; it is parked for approval if only
   * the threshold stands against it; otherwise it is rejected.
   */
  lemma RequestDecides(s: State, o: Id, req: OpRequest, now: int, rateOk: bool, answer: GatewayAnswer)
    requires o !in s.ops && req.agent in s.agents && req.mandate in s.mandates
    ensures var t, row := Next(s, RequestOperation(o, req, now, rateOk, answer)), s.mandates[req.mandate];
            var permits := Permits(s.agents[req.agent], row, req.kind, req.amount, req.currency, now, rateOk);
            exists first ::
              && Inserted(s, first, o, req, now)
              && (if permits && !Awaits(row, req.amount) then Took(first, t, o, answer)
                  else Marked(first, t, o, if permits then RequiresApproval else PolicyRejected))
  {
    var first := Insert(s, o, req, now);
    InsertRecords(s, o, req, now);
    LiveDecision(s, req, now, rateOk);
    ExecutionTakes(first, o, answer);
  }

  /** In short: when a reservation is recorded, and what happens when it is not. */
  lemma ReservedExactly(s: State, o: Id, req: OpRequest, now: int, rateOk: bool, answer: GatewayAnswer)
    requires o !in s.ops && req.agent in s.agents && req.mandate in s.mandates
    ensures var t, row := Next(s, RequestOperation(o, req, now, rateOk, answer)), s.mandates[req.mandate];
            var permits := Permits(s.agents[req.agent], row, req.kind, req.amount, req.currency, now, rateOk);
            && o in t.ops
            && (t.ops[o].book.reserves == 1 <==> permits && !Awaits(row, req.amount))
            && (t.ops[o].book.reserves != 1 ==>
                  && t.ops[o].status == (if permits then RequiresApproval else PolicyRejected)
                  && t.ops[o].book.reserves == t.ops[o].book.dispatches == 0
                  && t.mandates == s.mandates && t.txs == s.txs)
  {
    RequestDecides(s, o, req, now, rateOk, answer);
  }

  // --- Approvals ---------------------------------------------------------------------------

  /** Sign-off changes an operation that awaits approval, and no other. */
  lemma ApprovalRefused(s: State, o: Id, approver: Id, approved: bool, answer: GatewayAnswer)
    requires o in s.ops ==> s.ops[o].status != RequiresApproval || s.ops[o].mandate !in s.mandates
    ensures Next(s, ApproveOperation(o, approver, approved, answer)) == s
  {
  }

  /**
   * A granted approval reserves and executes the amount if it still fits, whatever the policy
   * would say now; otherwise the operation is rejected and nothing moves.
   */
  lemma ApprovalDecides(s: State, o: Id, approver: Id, approved: bool, answer: GatewayAnswer)
    requires o in s.ops && s.ops[o].status == RequiresApproval && s.ops[o].mandate in s.mandates
    ensures var t, row := Next(s, ApproveOperation(o, approver, approved, answer)), s.mandates[s.ops[o].mandate];
            if approved && row.committed + row.reserved + s.ops[o].amount <= row.limit
            then Took(s.(ops := s.ops[o := s.ops[o].(approvedBy := Some(approver))]), t, o, answer)
            else Marked(s, t, o, PolicyRejected)
  {
    var signed := Signed(s, o, approver);
    if approved && s.mandates[s.ops[o].mandate].Fits(s.ops[o].amount) {
      ExecutionTakes(signed, o, answer);
    }
  }

  // --- Payment verification ----------------------------------------------------------------

  /** An invalid signature or an unknown operation changes nothing. */
  lemma VerificationRefused(s: State, o: Id, payment: Id, valid: bool)
    requires !valid || o !in s.ops
    ensures Next(s, VerifyPayment(o, payment, valid)) == s
  {
  }

  /**
   * A valid verification moves the amount from reserved to committed, marks the operation as
   * succeeded and records the payment, whatever the status was.
   */
  lemma VerificationCommits(s: State, o: Id, payment: Id)
    requires o in s.ops && s.ops[o].mandate in s.mandates
    ensures var t, a, m := Next(s, VerifyPayment(o, payment, true)), s.ops[o], s.ops[o].mandate;
            && t.agents == s.agents && t.events == s.events
            && m in t.mandates && t.mandates == s.mandates[m := t.mandates[m]]
            && t.mandates[m] == s.mandates[m].(reserved := s.mandates[m].reserved - a.amount,
                                               committed := s.mandates[m].committed + a.amount,
                                               version := s.mandates[m].version + 1)
            && o in t.ops && t.ops == s.ops[o := t.ops[o]] && t.ops[o].status == Succeeded
            && t.ops[o].book.commits == a.book.commits + 1 && t.ops[o].book.refunded == a.book.refunded
            && t.txs == (if o in s.txs then s.txs[o := s.txs[o].(payment := Some(payment), status := Captured)] else s.txs)
  {
  }
}
