/** The control plane as a transition system, and what holds in every state of every run. */
module Machine {
  import opened Domain
  import opened Sums
  import opened Forest
  import opened Policy
  import opened Ledger
  import opened Books
  import opened Sweep

  /** One database transaction of one endpoint, webhook delivery or sweep. */
  datatype Step =
    | SetAgent(agent: Id, agentStatus: AgentStatus)
    | CreateMandate(id: Id, terms: MandateRequest, now: int)
    | DelegateMandate(parent: Id, id: Id, share: DelegateRequest, now: int)
    | Suspend(id: Id)
    | Revoke(id: Id)
    | Reactivate(id: Id)
    | RequestOperation(op: Id, req: OpRequest, now: int, rateOk: bool, answer: GatewayAnswer)
    | ApproveOperation(op: Id, approver: Id, approved: bool, answer: GatewayAnswer)
    | VerifyPayment(op: Id, payment: Id, valid: bool)
    | Webhook(event: Id, body: Body)
    | RunSweep(rows: seq<Id>, now: int, timeout: int, answers: map<Id, OrderAnswer>)

  ghost function Next(s: State, step: Step): State {
    match step
    case SetAgent(a, status) => s.(agents := s.agents[a := status])
    case CreateMandate(id, terms, now) => Create(s, id, terms, now)
    case DelegateMandate(p, id, share, now) => Delegate(s, p, id, share, now)
    case Suspend(m) => Cascade(s, m, MandateStatus.Suspended)
    case Revoke(m) => Cascade(s, m, MandateStatus.Revoked)
    case Reactivate(m) => Activate(s, m)
    case RequestOperation(o, req, now, rateOk, answer) => Request(s, o, req, now, rateOk, answer)
    case ApproveOperation(o, approver, approved, answer) => Approve(s, o, approver, approved, answer)
    case VerifyPayment(o, payment, valid) => Verify(s, o, payment, valid)
    case Webhook(e, body) => Deliver(s, e, body)
    case RunSweep(rows, now, timeout, answers) =>
      if Selection(s, rows, now, timeout) then SweepRows(s, rows, now, answers) else s
  }

  /**
   * Payment verification, which does not look at the operation's status, is called for
   * operations in flight only.
   */
  predicate FairVerification(s: State, step: Step) {
    step.VerifyPayment? && step.valid && step.op in s.ops ==> s.ops[step.op].InFlight()
  }

  /** A refund event is for no more than is left of the amount of the operation it is credited to. */
  predicate FairRefund(s: State, body: Body) {
    body.RefundProcessed? && body.refunded.Some? ==>
      match ByPayment(s.txs, body.refunded.value)
      case OneRow(o) => o in s.ops ==> FairCredit(s.ops[o], body.amount)
      case _ => true
  }

  predicate FairDelivery(s: State, step: Step) {
    step.Webhook? ==> AlreadyProcessed(s, step.event) || FairRefund(s, step.body)
  }

  /** What the environment owes. */
  predicate Fair(s: State, step: Step) {
    FairVerification(s, step) && FairDelivery(s, step)
  }

  ghost predicate EventOk(r: EventRecord) {
    && r.attempts >= 1
    && r.maxRetries == DEFAULT_MAX_RETRIES
    && !r.status.Processing?
    && (r.status.DeadLetter? ==> r.attempts >= r.maxRetries)
    && (r.status.Failed? ==> r.attempts < r.maxRetries)
  }

  ghost predicate Inv(s: State) {
    && BooksOk(s)
    && Bounded(s)
    && ForestOk(s.mandates)
    && forall e | e in s.events :: EventOk(s.events[e])
  }

  // --- Every step keeps the invariant ------------------------------------------------------

  /** The books look at no mandate field but the counters and the limit. */
  lemma BooksFrame(s: State, ns: Mandates)
    requires BooksOk(s) && s.mandates.Keys <= ns.Keys
    requires forall m | m in s.mandates ::
      ns[m].committed == s.mandates[m].committed && ns[m].reserved == s.mandates[m].reserved && ns[m].limit == s.mandates[m].limit
    requires forall m | m in ns && m !in s.mandates :: ns[m].committed == ns[m].reserved == 0
    ensures BooksOk(s.(mandates := ns))
    ensures Bounded(s) ==> Bounded(s.(mandates := ns))
  {
    var t := s.(mandates := ns);
    assert Bounded(s) ==> forall m | m in s.mandates :: WithinLimit(s.mandates[m]);
    forall o | o in t.ops ensures OpOk(t, o) {
      assert OpOk(s, o);
    }
    forall m | m in t.mandates ensures Balanced(t, m) {
      if m in s.mandates {
        assert Balanced(s, m);
      } else {
        forall o | o in s.ops ensures s.ops[o].mandate != m {
          assert OpOk(s, o);
        }
        SumZero(Weights(s.ops, m, HeldOf));
        SumZero(Weights(s.ops, m, SpentOf));
      }
    }
  }

  /** The books do not look at agents or event records. */
  lemma BooksFrameRest(s: State, t: State)
    requires BooksOk(s) && t.mandates == s.mandates && t.ops == s.ops && t.txs == s.txs
    ensures BooksOk(t)
  {
    forall o | o in t.ops ensures OpOk(t, o) {
      assert OpOk(s, o);
    }
    forall m | m in t.mandates ensures Balanced(t, m) {
      assert Balanced(s, m);
    }
  }

  lemma CreateKeepsInv(s: State, id: Id, terms: MandateRequest, now: int)
    requires BooksOk(s)
    ensures BooksOk(Create(s, id, terms, now))
    ensures Inv(s) ==> Inv(Create(s, id, terms, now))
  {
    if terms.agent in s.agents && id !in s.mandates {
      BooksFrame(s, s.mandates[id := RootMandate(terms, now)]);
      if Inv(s) {
        CreateKeepsForest(s.mandates, id, terms, now);
      }
    }
  }

  lemma DelegateKeepsInv(s: State, p: Id, id: Id, share: DelegateRequest, now: int)
    requires BooksOk(s)
    ensures BooksOk(Delegate(s, p, id, share, now))
    ensures Inv(s) ==> Inv(Delegate(s, p, id, share, now))
  {
    if DelegationVerdict(s, p, share).Accepted? && id !in s.mandates {
      BooksFrame(s, Delegated(s.mandates, p, id, share, DelegationVerdict(s, p, share).currency, now));
      if Inv(s) {
        CountersCover(s, p);
        DelegateKeepsForest(s.mandates, p, id, share, now);
      }
    }
  }

  lemma CascadeKeepsInv(s: State, root: Id, target: MandateStatus)
    requires BooksOk(s) && !target.Active?
    ensures BooksOk(Cascade(s, root, target))
    ensures Inv(s) ==> Inv(Cascade(s, root, target))
  {
    BooksFrame(s, Cascaded(s.mandates, root, target));
    if Inv(s) {
      CascadeKeepsForest(s.mandates, root, target);
    }
  }

  lemma ActivateKeepsInv(s: State, m: Id)
    requires BooksOk(s)
    ensures BooksOk(Activate(s, m))
    ensures Inv(s) ==> Inv(Activate(s, m))
  {
    if m in s.mandates && MayActivate(s.mandates, m) {
      BooksFrame(s, Activated(s.mandates, m));
      if Inv(s) {
        ActivateKeepsForest(s.mandates, m);
      }
    }
  }

  lemma KeptSelf(s: State)
    requires BooksOk(s)
    ensures Kept(s, s)
  {
  }

  lemma KeptTwice(s: State, t: State, u: State)
    requires Kept(s, t) && Kept(t, u)
    ensures Kept(s, u)
  {
    SameForestTwice(s.mandates, t.mandates, u.mandates);
  }

  lemma SameForestTwice(ms: Mandates, ns: Mandates, os: Mandates)
    requires SameForest(ms, ns) && SameForest(ns, os)
    ensures SameForest(ms, os)
  {
    forall m | m in ms ensures SameTerms(ms[m], os[m]) {
      assert SameTerms(ms[m], ns[m]) && SameTerms(ns[m], os[m]);
    }
  }

  /** A state whose mandates differ in counters only, with sound books within bounds, is sound. */
  lemma InvFrame(s: State, t: State)
    requires Inv(s) && Kept(s, t) && t.events == s.events
    ensures Inv(t)
  {
    ForestFrame(s.mandates, t.mandates);
  }

  lemma ExecuteKeepsRecords(s: State, o: Id, answer: GatewayAnswer)
    requires o in s.ops
    ensures Execute(s, o, answer).events == s.events
  {
  }

  /** A reservation that fits, and its execution. */
  lemma TakeKeeps(s: State, o: Id, answer: GatewayAnswer)
    requires BooksOk(s) && o in s.ops && s.ops[o].status in {Initiated, RequiresApproval}
    requires s.ops[o].mandate in s.mandates && s.mandates[s.ops[o].mandate].Fits(s.ops[o].amount)
    ensures Kept(s, Execute(Reserve(s, o), o, answer))
    ensures Execute(Reserve(s, o), o, answer).events == s.events
  {
    ReserveKeeps(s, o);
    ExecuteKeeps(Reserve(s, o), o, answer);
    KeptTwice(s, Reserve(s, o), Execute(Reserve(s, o), o, answer));
    ExecuteKeepsRecords(Reserve(s, o), o, answer);
  }

  /** The request after its policy decision. */
  lemma ConcludeKeeps(s: State, o: Id, decision: Decision, answer: GatewayAnswer)
    requires BooksOk(s) && o in s.ops && s.ops[o].status.Initiated?
    ensures Kept(s, Conclude(s, o, decision, answer)) && Conclude(s, o, decision, answer).events == s.events
  {
    ParkKeeps(s, o, PolicyRejected);
    ParkKeeps(s, o, RequiresApproval);
    if s.ops[o].mandate in s.mandates && s.mandates[s.ops[o].mandate].Fits(s.ops[o].amount) {
      TakeKeeps(s, o, answer);
    }
  }

  lemma RequestKeepsInv(s: State, o: Id, req: OpRequest, now: int, rateOk: bool, answer: GatewayAnswer)
    requires BooksOk(s)
    ensures Kept(s, Request(s, o, req, now, rateOk, answer))
    ensures Inv(s) ==> Inv(Request(s, o, req, now, rateOk, answer))
  {
    KeptSelf(s);
    if o !in s.ops && req.mandate in s.mandates && req.agent in s.agents {
      var t := Insert(s, o, req, now);
      var decision := Decide(DEFAULT_RULES, LiveQuery(s, req, now, rateOk));
      InsertKeeps(s, o, req, now);
      ConcludeKeeps(t, o, decision, answer);
      KeptTwice(s, t, Conclude(t, o, decision, answer));
      if Inv(s) {
        InvFrame(s, Conclude(t, o, decision, answer));
      }
    }
  }

  lemma SignedKeeps(s: State, o: Id, approver: Id)
    requires BooksOk(s) && o in s.ops && s.ops[o].book.refunded == 0
    ensures Kept(s, Signed(s, o, approver))
  {
    var t := Signed(s, o, approver);
    assert OpOk(s, o);
    assert t.mandates == Adjust(s.mandates, s.ops[o].mandate, 0, 0, 0);
    OneMove(s, t, o, 0);
  }

  lemma SignKeeps(s: State, o: Id, approver: Id, approved: bool, answer: GatewayAnswer)
    requires BooksOk(s) && o in s.ops && s.ops[o].status.RequiresApproval?
    ensures Kept(s, Sign(s, o, approver, approved, answer)) && Sign(s, o, approver, approved, answer).events == s.events
  {
    assert OpOk(s, o);
    ParkKeeps(s, o, PolicyRejected);
    if s.mandates[s.ops[o].mandate].Fits(s.ops[o].amount) {
      var t := Signed(s, o, approver);
      SignedKeeps(s, o, approver);
      TakeKeeps(t, o, answer);
      KeptTwice(s, t, Execute(Reserve(t, o), o, answer));
    }
  }

  lemma ApproveKeepsInv(s: State, o: Id, approver: Id, approved: bool, answer: GatewayAnswer)
    requires BooksOk(s)
    ensures Kept(s, Approve(s, o, approver, approved, answer))
    ensures Inv(s) ==> Inv(Approve(s, o, approver, approved, answer))
  {
    KeptSelf(s);
    if o in s.ops && s.ops[o].status.RequiresApproval? && s.ops[o].mandate in s.mandates {
      SignKeeps(s, o, approver, approved, answer);
      if Inv(s) {
        InvFrame(s, Sign(s, o, approver, approved, answer));
      }
    }
  }

  lemma VerifyKeepsInv(s: State, o: Id, payment: Id)
    requires BooksOk(s) && o in s.ops && s.ops[o].InFlight()
    ensures Kept(s, Verify(s, o, payment, true))
    ensures Inv(s) ==> Inv(Verify(s, o, payment, true))
  {
    assert Verify(s, o, payment, true) == Capture(s, o, Some(payment));
    CaptureKeeps(s, o, Some(payment));
    if Inv(s) {
      InvFrame(s, Capture(s, o, Some(payment)));
    }
  }

  /** A handler that finishes keeps the books; within bounds it needs a fair refund to stay there. */
  lemma ProcessKeeps(s: State, body: Body)
    requires BooksOk(s) && Process(s, body).Done?
    ensures BooksOk(Process(s, body).state) && SameForest(s.mandates, Process(s, body).state.mandates)
    ensures FairRefund(s, body) ==> Kept(s, Process(s, body).state)
  {
    var t := Process(s, body).state;
    KeptSelf(s);
    match body
    case PaymentCaptured(order, payment) =>
      if t != s {
        CaptureKeeps(s, ByOrder(s.txs, order.value).row, payment);
      }
    case PaymentFailed(order) =>
      if t != s {
        FailPaymentKeeps(s, ByOrder(s.txs, order.value).row);
      }
    case RefundProcessed(payment, amount) =>
      if t != s {
        var o := ByPayment(s.txs, payment.value).row;
        assert o in PaymentRows(s.txs, payment.value);
        assert OpOk(s, o);
        CreditRefundKeeps(s, o, amount);
      }
    case OtherEvent =>
  }

  lemma DeliverKeepsInv(s: State, e: Id, body: Body)
    requires BooksOk(s)
    ensures BooksOk(Deliver(s, e, body)) && SameForest(s.mandates, Deliver(s, e, body).mandates)
    ensures Inv(s) && (AlreadyProcessed(s, e) || FairRefund(s, body)) ==> Inv(Deliver(s, e, body))
  {
    KeptSelf(s);
    if !AlreadyProcessed(s, e) {
      var t := Deliver(s, e, body);
      match Process(s, body)
      case Done(u) =>
        ProcessKeeps(s, body);
        BooksFrameRest(u, t);
        ProcessKeepsRecords(s, body);
        if Inv(s) && FairRefund(s, body) {
          ForestFrame(s.mandates, u.mandates);
        }
      case Raised =>
        BooksFrameRest(s, t);
    }
  }

  lemma SweepKeepsInv(s: State, rows: seq<Id>, now: int, timeout: int, answers: map<Id, OrderAnswer>)
    requires BooksOk(s) && Selection(s, rows, now, timeout)
    ensures Kept(s, SweepRows(s, rows, now, answers))
    ensures Inv(s) ==> Inv(SweepRows(s, rows, now, answers))
  {
    SelectionEffect(s, rows, now, timeout, answers);
    if Inv(s) {
      InvFrame(s, SweepRows(s, rows, now, answers));
    }
  }

  /**
   * Every step keeps the equations of the books if verification is fair, and the whole invariant
   * if refunds are fair as well.
   */
  lemma NextKeepsInv(s: State, step: Step)
    requires BooksOk(s) && FairVerification(s, step)
    ensures BooksOk(Next(s, step))
    ensures Inv(s) && FairDelivery(s, step) ==> Inv(Next(s, step))
  {
    match step
    case SetAgent(a, status) => BooksFrameRest(s, Next(s, step));
    case CreateMandate(id, terms, now) => CreateKeepsInv(s, id, terms, now);
    case DelegateMandate(p, id, share, now) => DelegateKeepsInv(s, p, id, share, now);
    case Suspend(m) => CascadeKeepsInv(s, m, MandateStatus.Suspended);
    case Revoke(m) => CascadeKeepsInv(s, m, MandateStatus.Revoked);
    case Reactivate(m) => ActivateKeepsInv(s, m);
    case RequestOperation(o, req, now, rateOk, answer) => RequestKeepsInv(s, o, req, now, rateOk, answer);
    case ApproveOperation(o, approver, approved, answer) => ApproveKeepsInv(s, o, approver, approved, answer);
    case VerifyPayment(o, payment, valid) =>
      if valid && o in s.ops {
        VerifyKeepsInv(s, o, payment);
      }
    case Webhook(e, body) => DeliverKeepsInv(s, e, body);
    case RunSweep(rows, now, timeout, answers) =>
      if Selection(s, rows, now, timeout) {
        SweepKeepsInv(s, rows, now, timeout, answers);
      }
  }

  // --- Runs --------------------------------------------------------------------------------

  ghost function Run(s: State, steps: seq<Step>): State
    decreases |steps|
  {
    if steps == [] then s else Run(Next(s, steps[0]), steps[1..])
  }

  /** Every step of the run meets a fair environment. */
  ghost predicate FairRun(s: State, steps: seq<Step>)
    decreases |steps|
  {
    steps == [] || (Fair(s, steps[0]) && FairRun(Next(s, steps[0]), steps[1..]))
  }

  lemma {:induction false} RunKeepsInv(s: State, steps: seq<Step>)
    requires Inv(s) && FairRun(s, steps)
    ensures Inv(Run(s, steps))
    decreases |steps|
  {
    if steps != [] {
      NextKeepsInv(s, steps[0]);
      RunKeepsInv(Next(s, steps[0]), steps[1..]);
    }
  }

  /** Every verification of the run is for an operation in flight; refund events are arbitrary. */
  ghost predicate VerifiedRun(s: State, steps: seq<Step>)
    decreases |steps|
  {
    steps == [] || (FairVerification(s, steps[0]) && VerifiedRun(Next(s, steps[0]), steps[1..]))
  }

  lemma {:induction false} RunKeepsBooks(s: State, steps: seq<Step>)
    requires BooksOk(s) && VerifiedRun(s, steps)
    ensures BooksOk(Run(s, steps))
    decreases |steps|
  {
    if steps != [] {
      NextKeepsInv(s, steps[0]);
      RunKeepsBooks(Next(s, steps[0]), steps[1..]);
    }
  }

  /** s is the state after some fair run from the empty database. */
  ghost predicate Reachable(s: State) {
    exists steps :: FairRun(Empty(), steps) && s == Run(Empty(), steps)
  }

  lemma ReachableInv(s: State)
    requires Reachable(s)
    ensures Inv(s)
  {
    var steps :| FairRun(Empty(), steps) && s == Run(Empty(), steps);
    RunKeepsInv(Empty(), steps);
  }
}
