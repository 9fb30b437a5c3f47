/**
 * What a webhook delivery does, stated on the transaction rows, the operations, the mandates and
 * the event record before and after; and what refund events add up to over whole runs.
 */
module Deliveries {
  import opened Domain
  import opened Sums
  import opened Ledger
  import opened Books
  import opened Machine
  import opened Safety
  import opened Decisions
  import opened Requests

  // --- Rows and records --------------------------------------------------------------------

  predicate HasOrder(txs: map<Id, Tx>, o: Id, order: Id) {
    o in txs && txs[o].order == Some(order)
  }

  predicate HasPayment(txs: map<Id, Tx>, o: Id, payment: Id) {
    o in txs && txs[o].payment == Some(payment)
  }

  /** Exactly the row of o carries the order. */
  ghost predicate OnlyOrder(txs: map<Id, Tx>, o: Id, order: Id) {
    forall x :: HasOrder(txs, x, order) <==> x == o
  }

  ghost predicate OnlyPayment(txs: map<Id, Tx>, o: Id, payment: Id) {
    forall x :: HasPayment(txs, x, payment) <==> x == o
  }

  lemma OrderIsFound(txs: map<Id, Tx>, o: Id, order: Id)
    ensures ByOrder(txs, order) == OneRow(o) <==> OnlyOrder(txs, o, order)
    ensures ByOrder(txs, order).NoRow? <==> forall x :: !HasOrder(txs, x, order)
  {
    forall x ensures x in OrderRows(txs, order) <==> HasOrder(txs, x, order) {}
    if ByOrder(txs, order) == OneRow(o) {
      assert OrderRows(txs, order) == {o};
    }
    if OnlyOrder(txs, o, order) {
      assert OrderRows(txs, order) == {o};
    }
    if !ByOrder(txs, order).NoRow? {
      var x :| x in OrderRows(txs, order);
      assert HasOrder(txs, x, order);
    }
  }

  lemma PaymentIsFound(txs: map<Id, Tx>, o: Id, payment: Id)
    ensures ByPayment(txs, payment) == OneRow(o) <==> OnlyPayment(txs, o, payment)
    ensures ByPayment(txs, payment).NoRow? <==> forall x :: !HasPayment(txs, x, payment)
  {
    forall x ensures x in PaymentRows(txs, payment) <==> HasPayment(txs, x, payment) {}
    if ByPayment(txs, payment) == OneRow(o) {
      assert PaymentRows(txs, payment) == {o};
    }
    if OnlyPayment(txs, o, payment) {
      assert PaymentRows(txs, payment) == {o};
    }
    if !ByPayment(txs, payment).NoRow? {
      var x :| x in PaymentRows(txs, payment);
      assert HasPayment(txs, x, payment);
    }
  }

  /** The event was not processed before. */
  predicate Pending(s: State, e: Id) {
    e in s.events ==> s.events[e].status != Processed
  }

  /** The delivery counted as one more attempt, and its record ended with the given status; new records allow three. */
  predicate Attempted(s: State, t: State, e: Id, status: EventStatus) {
    && e in t.events && t.events == s.events[e := t.events[e]]
    && t.events[e] == EventRecord(status, (if e in s.events then s.events[e].attempts else 0) + 1,
                                  if e in s.events then s.events[e].maxRetries else 3)
  }

  /** The handler finished. */
  predicate Finished(s: State, t: State, e: Id) {
    Attempted(s, t, e, Processed)
  }

  /** The handler raised: only the record changed, and it is dead-lettered once the attempts are used up. */
  predicate GaveUp(s: State, t: State, e: Id) {
    && t == s.(events := t.events) && e in t.events
    && Attempted(s, t, e, if t.events[e].attempts >= t.events[e].maxRetries then DeadLetter else EventStatus.Failed)
  }

  /** Only the record changed. */
  predicate OnlyRecorded(s: State, t: State, e: Id) {
    t == s.(events := t.events) && Finished(s, t, e)
  }

  /** The counters of mandate m moved by the given amounts, one version later; no other row changed. */
  ghost predicate Moves(s: State, t: State, m: Id, reserved: int, committed: int) {
    && m in s.mandates && m in t.mandates && t.mandates == s.mandates[m := t.mandates[m]]
    && t.mandates[m] == s.mandates[m].(reserved := s.mandates[m].reserved + reserved,
                                       committed := s.mandates[m].committed + committed,
                                       version := s.mandates[m].version + 1)
  }

  /** Operation o ended with the given status and counts, and no other operation changed. */
  ghost predicate Ends(s: State, t: State, o: Id, status: OpStatus, commits: nat, releases: nat, refunded: int)
    requires o in s.ops
  {
    && o in t.ops && t.ops == s.ops[o := t.ops[o]]
    && t.ops[o] == s.ops[o].(status := status, book := t.ops[o].book)
    && t.ops[o].book == s.ops[o].book.(commits := s.ops[o].book.commits + commits, releases := s.ops[o].book.releases + releases,
                                       refunded := s.ops[o].book.refunded + refunded, trail := t.ops[o].book.trail)
  }

  // --- Payment events ----------------------------------------------------------------------

  /** A processed event is ignored. */
  lemma DuplicateIsIgnored(s: State, e: Id, body: Body)
    requires !Pending(s, e)
    ensures Next(s, Webhook(e, body)) == s
  {
  }

  lemma CaptureMoves(s: State, o: Id, payment: Option<Id>)
    requires o in s.ops && s.ops[o].mandate in s.mandates
    ensures var t, a := Capture(s, o, payment), s.ops[o];
            Ends(s, t, o, Succeeded, 1, 0, 0) && Moves(s, t, a.mandate, -(a.amount as int), a.amount)
  {
  }

  /** A captured payment settles the operation in flight that its order belongs to. */
  lemma CapturedSettles(s: State, e: Id, order: Id, payment: Option<Id>, o: Id)
    requires BooksOk(s) && Pending(s, e) && OnlyOrder(s.txs, o, order)
    requires o in s.ops && s.ops[o].status in {Reserved, Executing}
    ensures var t, a := Next(s, Webhook(e, PaymentCaptured(Some(order), payment))), s.ops[o];
            && Finished(s, t, e) && t.agents == s.agents
            && Ends(s, t, o, Succeeded, 1, 0, 0) && Moves(s, t, a.mandate, -(a.amount as int), a.amount)
            && o in s.txs
            && t.txs == s.txs[o := s.txs[o].(status := Captured, payment := if payment.Some? then payment else s.txs[o].payment)]
  {
    OrderIsFound(s.txs, o, order);
    assert HasOrder(s.txs, o, order);
    assert OpOk(s, o);
    CaptureMoves(s, o, payment);
    assert Process(s, PaymentCaptured(Some(order), payment)) == Done(Capture(s, o, payment));
  }

  /** For an operation that has succeeded or is missing it changes nothing; any other one not in flight makes it raise. */
  lemma CapturedTooLate(s: State, e: Id, order: Id, payment: Option<Id>, o: Id)
    requires Pending(s, e) && OnlyOrder(s.txs, o, order) && (o in s.ops ==> s.ops[o].status !in {Reserved, Executing})
    ensures var t := Next(s, Webhook(e, PaymentCaptured(Some(order), payment)));
            if o in s.ops ==> s.ops[o].status == Succeeded then OnlyRecorded(s, t, e) else GaveUp(s, t, e)
  {
    OrderIsFound(s.txs, o, order);
  }

  /** A failed payment releases the operation in flight that its order belongs to. */
  lemma FailedReleases(s: State, e: Id, order: Id, o: Id)
    requires BooksOk(s) && Pending(s, e) && OnlyOrder(s.txs, o, order)
    requires o in s.ops && s.ops[o].status in {Reserved, Executing}
    ensures var t, a := Next(s, Webhook(e, PaymentFailed(Some(order)))), s.ops[o];
            && Finished(s, t, e) && t.agents == s.agents
            && Ends(s, t, o, OpStatus.Failed, 0, 1, 0) && Moves(s, t, a.mandate, -(a.amount as int), 0)
            && o in s.txs && t.txs == s.txs[o := s.txs[o].(status := TxStatus.Failed)]
  {
    OrderIsFound(s.txs, o, order);
    assert HasOrder(s.txs, o, order);
    assert OpOk(s, o);
  }

  /** For any other operation it changes nothing. */
  lemma FailedTooLate(s: State, e: Id, order: Id, o: Id)
    requires Pending(s, e) && OnlyOrder(s.txs, o, order) && (o in s.ops ==> s.ops[o].status !in {Reserved, Executing})
    ensures OnlyRecorded(s, Next(s, Webhook(e, PaymentFailed(Some(order)))), e)
  {
    OrderIsFound(s.txs, o, order);
  }

  /** An event without an order or for an unknown order changes nothing. */
  lemma UnknownOrders(s: State, e: Id, order: Option<Id>, payment: Option<Id>)
    requires Pending(s, e) && (order.Some? ==> forall x :: !HasOrder(s.txs, x, order.value))
    ensures OnlyRecorded(s, Next(s, Webhook(e, PaymentCaptured(order, payment))), e)
    ensures OnlyRecorded(s, Next(s, Webhook(e, PaymentFailed(order))), e)
  {
    if order.Some? {
      OrderIsFound(s.txs, 0, order.value);
    }
  }

  /** An order that two rows carry makes both handlers raise. */
  lemma AmbiguousOrders(s: State, e: Id, order: Id, payment: Option<Id>, x: Id, y: Id)
    requires Pending(s, e) && x != y && HasOrder(s.txs, x, order) && HasOrder(s.txs, y, order)
    ensures GaveUp(s, Next(s, Webhook(e, PaymentCaptured(Some(order), payment))), e)
    ensures GaveUp(s, Next(s, Webhook(e, PaymentFailed(Some(order)))), e)
  {
    OrderIsFound(s.txs, x, order);
    if ByOrder(s.txs, order).OneRow? {
      OrderIsFound(s.txs, ByOrder(s.txs, order).row, order);
      assert false;
    }
  }

  /** Events of other types change nothing. */
  lemma OtherEventsPass(s: State, e: Id)
    requires Pending(s, e)
    ensures OnlyRecorded(s, Next(s, Webhook(e, OtherEvent)), e)
  {
  }

  // --- Refund events -----------------------------------------------------------------------

  /** A refund lowers the committed spend of its payment's mandate by exactly its amount, and changes no status and no reserve. */
  lemma RefundCredits(s: State, e: Id, payment: Id, amount: int, o: Id)
    requires Pending(s, e) && OnlyPayment(s.txs, o, payment) && o in s.ops && s.ops[o].mandate in s.mandates
    ensures var t := Next(s, Webhook(e, RefundProcessed(Some(payment), amount)));
            && Finished(s, t, e) && t.agents == s.agents && t.txs == s.txs
            && Ends(s, t, o, s.ops[o].status, 0, 0, amount) && Moves(s, t, s.ops[o].mandate, 0, -amount)
  {
    PaymentIsFound(s.txs, o, payment);
  }

  /** A refund for no payment or an unknown one changes nothing; an ambiguous payment makes it raise. */
  lemma UnknownRefunds(s: State, e: Id, payment: Option<Id>, amount: int)
    requires Pending(s, e)
    ensures payment.None? || (forall x :: !HasPayment(s.txs, x, payment.value)) ==>
              OnlyRecorded(s, Next(s, Webhook(e, RefundProcessed(payment, amount))), e)
    ensures payment.Some? && (exists x, y :: x != y && HasPayment(s.txs, x, payment.value) && HasPayment(s.txs, y, payment.value)) ==>
              GaveUp(s, Next(s, Webhook(e, RefundProcessed(payment, amount))), e)
  {
    if payment.Some? {
      PaymentIsFound(s.txs, 0, payment.value);
      var found := ByPayment(s.txs, payment.value);
      if found.OneRow? {
        PaymentIsFound(s.txs, found.row, payment.value);
      }
    }
  }

  // --- References are found again ----------------------------------------------------------

  /** After a verification, a refund event for that payment credits the operation that was verified. */
  lemma VerifiedPaymentIsRefunded(s: State, o: Id, payment: Id, e: Id, amount: int)
    requires Pending(s, e) && o in s.ops && o in s.txs && s.ops[o].mandate in s.mandates
    requires forall x | x != o :: !HasPayment(s.txs, x, payment)
    ensures var t := Next(Next(s, VerifyPayment(o, payment, true)), Webhook(e, RefundProcessed(Some(payment), amount)));
            var m := s.ops[o].mandate;
            && o in t.ops && t.ops[o].status == Succeeded && t.ops[o].book.refunded == s.ops[o].book.refunded + amount
            && m in t.mandates && t.mandates[m].committed == s.mandates[m].committed + s.ops[o].amount - amount
            && t.mandates[m].reserved == s.mandates[m].reserved - s.ops[o].amount
  {
    var v := Next(s, VerifyPayment(o, payment, true));
    VerificationCommits(s, o, payment);
    forall x ensures HasPayment(v.txs, x, payment) <==> x == o {
      assert x != o ==> !HasPayment(s.txs, x, payment);
    }
    RefundCredits(v, e, payment, amount, o);
  }

  /** After a confirmed order, a captured event for the gateway's reference settles the operation. */
  lemma ConfirmedOrderIsCaptured(s: State, o: Id, req: OpRequest, now: int, ref: Id, processed: bool, e: Id, payment: Option<Id>)
    requires BooksOk(s) && Pending(s, e) && o !in s.ops && req.agent in s.agents && req.mandate in s.mandates && req.kind.CreateOrder?
    requires Permits(s.agents[req.agent], s.mandates[req.mandate], req.kind, req.amount, req.currency, now, true)
    requires !Awaits(s.mandates[req.mandate], req.amount)
    requires forall x :: !HasOrder(s.txs, x, ref)
    ensures var r := Next(s, RequestOperation(o, req, now, true, Confirmed(ref, processed)));
            var t, m := Next(r, Webhook(e, PaymentCaptured(Some(ref), payment))), req.mandate;
            && o in t.ops && t.ops[o].status == Succeeded && t.ops[o].book.commits == 1
            && m in t.mandates && t.mandates[m].reserved == s.mandates[m].reserved
            && t.mandates[m].committed == s.mandates[m].committed + req.amount
  {
    var step := RequestOperation(o, req, now, true, Confirmed(ref, processed));
    var r := Next(s, step);
    NextKeepsInv(s, step);
    RequestDecides(s, o, req, now, true, Confirmed(ref, processed));
    forall x ensures HasOrder(r.txs, x, ref) <==> x == o {
      assert !HasOrder(s.txs, x, ref);
    }
    CapturedSettles(r, e, ref, payment, o);
  }

  // --- Refunds over whole runs -------------------------------------------------------------

  /** The amount that the step refunds to mandate m: that of a refund event which finds one operation of m. */
  ghost function Refunds(s: State, step: Step, m: Id): int {
    if step.Webhook? && step.body.RefundProcessed? && step.body.refunded.Some? && Pending(s, step.event)
       && exists o :: OnlyPayment(s.txs, o, step.body.refunded.value) && o in s.ops && s.ops[o].mandate == m
    then step.body.amount
    else 0
  }

  ghost function TotalRefunds(s: State, steps: seq<Step>, m: Id): int
    decreases |steps|
  {
    if steps == [] then 0 else Refunds(s, steps[0], m) + TotalRefunds(Next(s, steps[0]), steps[1..], m)
  }

  /** No operation comes or goes, changes its mandate, or is refunded. */
  predicate NoRefund(ops: map<Id, Operation>, after: map<Id, Operation>) {
    && after.Keys == ops.Keys
    && forall o | o in ops :: after[o].mandate == ops[o].mandate && after[o].book.refunded == ops[o].book.refunded
  }

  lemma SameRefunds(ops: map<Id, Operation>, after: map<Id, Operation>, m: Id)
    requires NoRefund(ops, after)
    ensures Tally(after, m, RefundedOf) == Tally(ops, m, RefundedOf)
  {
    assert Weights(after, m, RefundedOf) == Weights(ops, m, RefundedOf);
  }

  lemma {:induction false} SweepRefundsNothing(s: State, rows: seq<Id>, now: int, answers: map<Id, OrderAnswer>)
    ensures NoRefund(s.ops, SweepRows(s, rows, now, answers).ops)
    decreases |rows|
  {
    if rows != [] {
      SweepRefundsNothing(s, rows[..|rows| - 1], now, answers);
    }
  }

  lemma ApprovalRefundsNothing(s: State, o: Id, approver: Id, approved: bool, answer: GatewayAnswer)
    ensures NoRefund(s.ops, Next(s, ApproveOperation(o, approver, approved, answer)).ops)
  {
    if o in s.ops && s.ops[o].status == RequiresApproval && s.ops[o].mandate in s.mandates {
      ApprovalDecides(s, o, approver, approved, answer);
    } else {
      ApprovalRefused(s, o, approver, approved, answer);
    }
  }

  lemma PaymentEventsRefundNothing(s: State, e: Id, body: Body)
    requires !body.RefundProcessed?
    ensures NoRefund(s.ops, Deliver(s, e, body).ops)
  {
    if Process(s, body).Done? {
      HandlersRefundNothing(s, body);
    }
  }

  lemma HandlersRefundNothing(s: State, body: Body)
    requires !body.RefundProcessed? && Process(s, body).Done?
    ensures NoRefund(s.ops, Process(s, body).state.ops)
  {
    match body
    case PaymentCaptured(order, payment) => assert OnCaptured(s, order, payment).Done?;
    case PaymentFailed(order) => assert OnFailed(s, order).Done?;
    case OtherEvent =>
  }

  lemma RequestRefundsNothing(s: State, o: Id, req: OpRequest, now: int, rateOk: bool, answer: GatewayAnswer, m: Id)
    ensures Tally(Next(s, RequestOperation(o, req, now, rateOk, answer)).ops, m, RefundedOf) == Tally(s.ops, m, RefundedOf)
  {
    if o in s.ops || req.agent !in s.agents || req.mandate !in s.mandates {
      RequestRefused(s, o, req, now, rateOk, answer);
    } else {
      var t := Next(s, RequestOperation(o, req, now, rateOk, answer));
      RequestDecides(s, o, req, now, rateOk, answer);
      assert t.ops == s.ops[o := t.ops[o]] && t.ops[o].book.refunded == 0;
      TallyUpdate(s.ops, o, t.ops[o], m, RefundedOf);
    }
  }

  lemma RefundEventAdds(s: State, e: Id, payment: Option<Id>, amount: int, m: Id)
    ensures Tally(Next(s, Webhook(e, RefundProcessed(payment, amount))).ops, m, RefundedOf)
         == Tally(s.ops, m, RefundedOf) + Refunds(s, Webhook(e, RefundProcessed(payment, amount)), m)
  {
    var t := Next(s, Webhook(e, RefundProcessed(payment, amount)));
    if Pending(s, e) && payment.Some? && ByPayment(s.txs, payment.value).OneRow? && ByPayment(s.txs, payment.value).row in s.ops {
      var o := ByPayment(s.txs, payment.value).row;
      PaymentIsFound(s.txs, o, payment.value);
      assert HasPayment(s.txs, o, payment.value);
      TallyUpdate(s.ops, o, t.ops[o], m, RefundedOf);
    } else {
      if payment.Some? {
        forall o | OnlyPayment(s.txs, o, payment.value) ensures ByPayment(s.txs, payment.value) == OneRow(o) {
          PaymentIsFound(s.txs, o, payment.value);
        }
      }
      assert t.ops == s.ops;
    }
  }

  lemma DeliveryRefunds(s: State, e: Id, body: Body, m: Id)
    ensures Tally(Next(s, Webhook(e, body)).ops, m, RefundedOf) == Tally(s.ops, m, RefundedOf) + Refunds(s, Webhook(e, body), m)
  {
    if body.RefundProcessed? {
      RefundEventAdds(s, e, body.refunded, body.amount, m);
    } else {
      PaymentEventsRefundNothing(s, e, body);
      SameRefunds(s.ops, Deliver(s, e, body).ops, m);
    }
  }

  lemma StepRefunds(s: State, step: Step, m: Id)
    ensures Tally(Next(s, step).ops, m, RefundedOf) == Tally(s.ops, m, RefundedOf) + Refunds(s, step, m)
  {
    match step
    case RequestOperation(o, req, now, rateOk, answer) => RequestRefundsNothing(s, o, req, now, rateOk, answer, m);
    case ApproveOperation(o, approver, approved, answer) =>
      ApprovalRefundsNothing(s, o, approver, approved, answer);
      SameRefunds(s.ops, Next(s, step).ops, m);
    case Webhook(e, body) => DeliveryRefunds(s, e, body, m);
    case RunSweep(rows, now, timeout, answers) =>
      SweepRefundsNothing(s, rows, now, answers);
      SameRefunds(s.ops, Next(s, step).ops, m);
    case _ => SameRefunds(s.ops, Next(s, step).ops, m);
  }

  /** Over any run, what the operations of a mandate record as refunded grows by the amounts of the refund events that found them. */
  lemma {:induction false} RefundsAddUp(s: State, steps: seq<Step>, m: Id)
    ensures Tally(Run(s, steps).ops, m, RefundedOf) == Tally(s.ops, m, RefundedOf) + TotalRefunds(s, steps, m)
    decreases |steps|
  {
    if steps != [] {
      StepRefunds(s, steps[0], m);
      RefundsAddUp(Next(s, steps[0]), steps[1..], m);
    }
  }

  /**
   * Committed spend is what the succeeded operations amount to, less the refund events that took
   * effect, in every state of every run with fair verification.
   */
  lemma CommittedIsCapturedLessRefunds(steps: seq<Step>, m: Id)
    requires VerifiedRun(Empty(), steps) && m in Run(Empty(), steps).mandates
    ensures var s := Run(Empty(), steps);
            s.mandates[m].committed == Tally(s.ops, m, CapturedOf) - TotalRefunds(Empty(), steps, m)
  {
    ConservationUnderAnyRefunds(steps, m);
    RefundsAddUp(Empty(), steps, m);
    SumZero(Weights(Empty().ops, m, RefundedOf));
  }
}
