/** The safety theorems of the ledger, over every reachable state and every run. */
module Safety {
  import opened Domain
  import opened Lifecycle
  import opened Forest
  import opened Policy
  import opened Ledger
  import opened Books
  import opened Sweep
  import opened Machine

  // --- Conservation ------------------------------------------------------------------------

  /**
   * In every reachable state each mandate's reserve is the sum of its operations in flight, and
   * its committed spend plus its refunds is the sum of its succeeded operations; both are
   * non-negative and together within the limit.
   */
  lemma Conservation(s: State, m: Id)
    requires Reachable(s) && m in s.mandates
    ensures s.mandates[m].reserved == Tally(s.ops, m, HeldOf)
    ensures s.mandates[m].committed + Tally(s.ops, m, RefundedOf) == Tally(s.ops, m, CapturedOf)
    ensures 0 <= s.mandates[m].reserved && 0 <= s.mandates[m].committed
    ensures s.mandates[m].committed + s.mandates[m].reserved <= s.mandates[m].limit
  {
    ReachableInv(s);
    assert Balanced(s, m) && WithinLimit(s.mandates[m]);
    TallySplit(s.ops, m);
    CountersCover(s, m);
  }

  /**
   * The two equations need no assumption on refunds, whose events may carry any amount; only
   * the sign of committed spend and the limit do.
   */
  lemma ConservationUnderAnyRefunds(steps: seq<Step>, m: Id)
    requires VerifiedRun(Empty(), steps) && m in Run(Empty(), steps).mandates
    ensures var s := Run(Empty(), steps);
            && s.mandates[m].reserved == Tally(s.ops, m, HeldOf)
            && s.mandates[m].committed + Tally(s.ops, m, RefundedOf) == Tally(s.ops, m, CapturedOf)
            && 0 <= s.mandates[m].reserved
            && forall o | o in s.ops && s.ops[o].mandate == m && s.ops[o].InFlight() :: s.ops[o].amount <= s.mandates[m].reserved
  {
    var s := Run(Empty(), steps);
    RunKeepsBooks(Empty(), steps);
    assert Balanced(s, m);
    TallySplit(s.ops, m);
    CountersCover(s, m);
  }

  /** The counters are also the sums of all recorded movements. */
  lemma MovementsAddUp(s: State, m: Id)
    requires Reachable(s) && m in s.mandates
    ensures s.mandates[m].reserved == Tally(s.ops, m, NetReserved)
    ensures s.mandates[m].committed == Tally(s.ops, m, NetCommitted)
  {
    ReachableInv(s);
    assert Balanced(s, m);
    forall o | o in s.ops ensures NetReserved(s.ops[o]) == HeldOf(s.ops[o]) && NetCommitted(s.ops[o]) == SpentOf(s.ops[o]) {
      assert OpOk(s, o);
      MovementsOf(s.ops[o]);
    }
    SameTally(s.ops, m, NetReserved, HeldOf);
    SameTally(s.ops, m, NetCommitted, SpentOf);
  }

  /**
   * The shortfall branches of the webhook handlers are dead: whenever a handler finds an
   * operation in flight, its mandate exists and reserves at least its amount.
   */
  lemma ShortfallIsUnreachable(s: State, o: Id)
    requires Reachable(s) && o in s.ops && s.ops[o].InFlight()
    ensures s.ops[o].mandate in s.mandates
    ensures s.mandates[s.ops[o].mandate].reserved >= s.ops[o].amount
  {
    ReachableInv(s);
    assert OpOk(s, o);
    CountersCover(s, s.ops[o].mandate);
  }

  // --- Exactly once ------------------------------------------------------------------------

  predicate Terminal(op: Operation) {
    op.status in {PolicyRejected, Succeeded, OpStatus.Failed}
  }

  /**
   * A reserved amount is committed once or released once, never both; before that it is held.
   * The gateway is called at most once, only for a reserved operation, and never for one that
   * is rejected or awaits approval.
   */
  lemma SettledOnce(s: State, o: Id)
    requires Reachable(s) && o in s.ops
    ensures var op := s.ops[o];
            && op.book.commits + op.book.releases <= op.book.reserves <= 1
            && (op.InFlight() <==> op.book.reserves == 1 && op.book.commits == op.book.releases == 0)
            && (op.status.Succeeded? <==> op.book.commits == 1)
            && (op.status.Failed? <==> op.book.releases == 1)
            && (op.book.reserves == 0 <==> op.status in {Initiated, RequiresApproval, PolicyRejected})
    ensures var op := s.ops[o];
            && op.book.dispatches <= op.book.reserves
            && (op.status in {Initiated, RequiresApproval, PolicyRejected} ==> op.book.dispatches == 0)
  {
    ReachableInv(s);
    assert OpOk(s, o);
  }

  /** b is a later version of the same operation. */
  predicate Continues(a: Operation, b: Operation) {
    && b.mandate == a.mandate && b.amount == a.amount && b.kind == a.kind && b.createdAt == a.createdAt
    && a.book.trail <= b.book.trail
    && a.book.reserves <= b.book.reserves && a.book.dispatches <= b.book.dispatches
    && a.book.commits <= b.book.commits && a.book.releases <= b.book.releases
    && a.book.refunded <= b.book.refunded
    && (Terminal(a) ==> b == a.(book := a.book.(refunded := b.book.refunded)))
  }

  lemma ContinuesTwice(a: Operation, b: Operation, c: Operation)
    requires Continues(a, b) && Continues(b, c)
    ensures Continues(a, c)
  {
  }

  /** s and t differ in operation o only, and there by a move forward. */
  predicate OnlyMoves(s: State, t: State, o: Id)
    requires o in s.ops
  {
    o in t.ops && t.ops == s.ops[o := t.ops[o]] && Continues(s.ops[o], t.ops[o])
  }

  lemma OnlyMovesTwice(s: State, t: State, u: State, o: Id)
    requires o in s.ops && OnlyMoves(s, t, o) && OnlyMoves(t, u, o)
    ensures OnlyMoves(s, u, o)
  {
    ContinuesTwice(s.ops[o], t.ops[o], u.ops[o]);
  }

  lemma MovesForward(s: State, o: Id, status: OpStatus, bump: nat)
    requires o in s.ops && !Terminal(s.ops[o])
    ensures OnlyMoves(s, Park(s, o, status), o) && OnlyMoves(s, Release(s, o), o) && OnlyMoves(s, Commit(s, o, bump), o)
    ensures OnlyMoves(s, Reserve(s, o), o) && OnlyMoves(s, Dispatched(s, o), o)
  {
  }

  lemma ExecuteMoves(s: State, o: Id, answer: GatewayAnswer)
    requires o in s.ops && !Terminal(s.ops[o])
    ensures OnlyMoves(s, Execute(s, o, answer), o)
  {
    var t := Dispatched(s, o);
    MovesForward(s, o, Executing, 0);
    MovesForward(t, o, Executing, 0);
    OnlyMovesTwice(s, t, Park(t, o, Executing), o);
    OnlyMovesTwice(s, t, Release(t, o), o);
    OnlyMovesTwice(s, t, Commit(t, o, 0), o);
  }

  lemma RequestContinues(s: State, x: Id, req: OpRequest, now: int, rateOk: bool, answer: GatewayAnswer)
    ensures forall o | o in s.ops :: o in Request(s, x, req, now, rateOk, answer).ops
                                     && Request(s, x, req, now, rateOk, answer).ops[o] == s.ops[o]
  {
    if x !in s.ops && req.mandate in s.mandates && req.agent in s.agents {
      ExecuteMoves(Reserve(Insert(s, x, req, now), x), x, answer);
    }
  }

  lemma TakeMovesForward(s: State, o: Id, answer: GatewayAnswer)
    requires o in s.ops && !Terminal(s.ops[o])
    ensures OnlyMoves(s, Execute(Reserve(s, o), o, answer), o)
  {
    MovesForward(s, o, Reserved, 0);
    ExecuteMoves(Reserve(s, o), o, answer);
    OnlyMovesTwice(s, Reserve(s, o), Execute(Reserve(s, o), o, answer), o);
  }

  lemma SignMoves(s: State, o: Id, approver: Id, approved: bool, answer: GatewayAnswer)
    requires o in s.ops && s.ops[o].status.RequiresApproval?
    ensures OnlyMoves(s, Sign(s, o, approver, approved, answer), o)
  {
    MovesForward(s, o, PolicyRejected, 0);
    TakeMovesForward(Signed(s, o, approver), o, answer);
  }

  /** An approval changes its own operation only, and forward. */
  lemma ApproveContinues(s: State, x: Id, approver: Id, approved: bool, answer: GatewayAnswer)
    ensures Approve(s, x, approver, approved, answer).ops.Keys == s.ops.Keys
    ensures forall o | o in s.ops && o != x :: Approve(s, x, approver, approved, answer).ops[o] == s.ops[o]
    ensures x in s.ops ==> Continues(s.ops[x], Approve(s, x, approver, approved, answer).ops[x])
  {
    if x in s.ops && s.ops[x].status.RequiresApproval? {
      SignMoves(s, x, approver, approved, answer);
    }
  }

  lemma SweepContinues(s: State, rows: seq<Id>, now: int, timeout: int, answers: map<Id, OrderAnswer>, o: Id)
    requires BooksOk(s) && Selection(s, rows, now, timeout) && o in s.ops
    ensures o in SweepRows(s, rows, now, answers).ops
    ensures Continues(s.ops[o], SweepRows(s, rows, now, answers).ops[o])
  {
    SelectionEffect(s, rows, now, timeout, answers);
  }

  lemma VerifyContinues(s: State, x: Id, payment: Id, valid: bool, o: Id)
    requires o in s.ops && (valid && x in s.ops ==> s.ops[x].InFlight())
    ensures o in Verify(s, x, payment, valid).ops && Continues(s.ops[o], Verify(s, x, payment, valid).ops[o])
  {
    if valid && x in s.ops {
      MovesForward(s, x, Succeeded, 1);
    }
  }

  lemma RefundContinues(s: State, o: Id, amount: int)
    requires o in s.ops && 0 <= amount
    ensures OnlyMoves(s, CreditRefund(s, o, amount), o)
  {
  }

  lemma CapturedContinues(s: State, order: Option<Id>, payment: Option<Id>, o: Id)
    requires o in s.ops && OnCaptured(s, order, payment).Done?
    ensures o in OnCaptured(s, order, payment).state.ops && Continues(s.ops[o], OnCaptured(s, order, payment).state.ops[o])
  {
    if order.Some? && ByOrder(s.txs, order.value) == OneRow(o) && s.ops[o].InFlight() {
      MovesForward(s, o, Succeeded, 1);
    }
  }

  lemma FailedContinues(s: State, order: Option<Id>, o: Id)
    requires o in s.ops && OnFailed(s, order).Done?
    ensures o in OnFailed(s, order).state.ops && Continues(s.ops[o], OnFailed(s, order).state.ops[o])
  {
    if order.Some? && ByOrder(s.txs, order.value) == OneRow(o) && s.ops[o].InFlight() {
      MovesForward(s, o, OpStatus.Failed, 1);
    }
  }

  lemma ProcessContinues(s: State, body: Body, o: Id)
    requires BooksOk(s) && FairRefund(s, body) && o in s.ops && Process(s, body).Done?
    ensures o in Process(s, body).state.ops && Continues(s.ops[o], Process(s, body).state.ops[o])
  {
    match body
    case PaymentCaptured(order, payment) =>
      CapturedContinues(s, order, payment, o);
    case PaymentFailed(order) =>
      FailedContinues(s, order, o);
    case RefundProcessed(payment, amount) =>
      if payment.Some? && ByPayment(s.txs, payment.value) == OneRow(o) {
        RefundContinues(s, o, amount);
      }
    case OtherEvent =>
  }

  lemma DeliverContinues(s: State, e: Id, body: Body, o: Id)
    requires BooksOk(s) && (AlreadyProcessed(s, e) || FairRefund(s, body)) && o in s.ops
    ensures o in Deliver(s, e, body).ops && Continues(s.ops[o], Deliver(s, e, body).ops[o])
  {
    if !AlreadyProcessed(s, e) && Process(s, body).Done? {
      ProcessContinues(s, body, o);
    }
  }

  /** One step keeps every operation, and rewrites it only forward. */
  lemma NextContinues(s: State, step: Step, o: Id)
    requires BooksOk(s) && Fair(s, step) && o in s.ops
    ensures o in Next(s, step).ops && Continues(s.ops[o], Next(s, step).ops[o])
  {
    match step
    case RequestOperation(x, req, now, rateOk, answer) => RequestContinues(s, x, req, now, rateOk, answer);
    case ApproveOperation(x, approver, approved, answer) => ApproveContinues(s, x, approver, approved, answer);
    case VerifyPayment(x, payment, valid) => VerifyContinues(s, x, payment, valid, o);
    case Webhook(e, body) => DeliverContinues(s, e, body, o);
    case RunSweep(rows, now, timeout, answers) =>
      if Selection(s, rows, now, timeout) {
        SweepContinues(s, rows, now, timeout, answers, o);
      }
    case _ =>
  }

  /** Over any fair run: an operation never disappears, and a settled or rejected one is never touched again except by refunds. */
  lemma {:induction false} RunContinues(s: State, steps: seq<Step>, o: Id)
    requires Inv(s) && FairRun(s, steps) && o in s.ops
    ensures o in Run(s, steps).ops && Continues(s.ops[o], Run(s, steps).ops[o])
    decreases |steps|
  {
    if steps != [] {
      NextKeepsInv(s, steps[0]);
      NextContinues(s, steps[0], o);
      RunContinues(Next(s, steps[0]), steps[1..], o);
      ContinuesTwice(s.ops[o], Next(s, steps[0]).ops[o], Run(s, steps).ops[o]);
    }
  }

  /** No status history repeats a status, each follows the transitive closure of the matrix and has at most four changes. */
  lemma LifecycleRefinesMatrix(s: State, o: Id)
    requires Reachable(s) && o in s.ops
    ensures var t := s.ops[o].book.trail;
            && 1 <= |t| <= 5
            && t[0] == Initiated && t[|t| - 1] == s.ops[o].status
            && forall i, j | 0 <= i < j < |t| :: t[i] != t[j] && Reaches(t[i], t[j])
  {
    ReachableInv(s);
    assert OpOk(s, o);
    ChainIsShort(s.ops[o].book.trail);
  }

  /**
   * A replayed idempotency key changes nothing, now or in any later state, whatever the replayed
   * request says.
   */
  lemma ReplayIsIdle(s: State, steps: seq<Step>, o: Id, req: OpRequest, now: int, rateOk: bool, answer: GatewayAnswer)
    requires Inv(s) && FairRun(s, steps) && o in s.ops
    ensures Next(Run(s, steps), RequestOperation(o, req, now, rateOk, answer)) == Run(s, steps)
  {
    RunContinues(s, steps, o);
  }

  /** The run without its replays of key o. */
  function WithoutRequests(steps: seq<Step>, o: Id): seq<Step> {
    if steps == [] then []
    else if steps[0].RequestOperation? && steps[0].op == o then WithoutRequests(steps[1..], o)
    else [steps[0]] + WithoutRequests(steps[1..], o)
  }

  /** Once a key is taken, all further requests for it can be dropped from any fair run without a trace. */
  lemma {:induction false} ReplaysLeaveNoTrace(s: State, steps: seq<Step>, o: Id)
    requires Inv(s) && FairRun(s, steps) && o in s.ops
    ensures Run(s, WithoutRequests(steps, o)) == Run(s, steps)
    decreases |steps|
  {
    if steps != [] {
      NextKeepsInv(s, steps[0]);
      NextContinues(s, steps[0], o);
      ReplaysLeaveNoTrace(Next(s, steps[0]), steps[1..], o);
      if !(steps[0].RequestOperation? && steps[0].op == o) {
        var rest := WithoutRequests(steps[1..], o);
        assert ([steps[0]] + rest)[1..] == rest;
      }
    }
  }

  // --- Payment verification ----------------------------------------------------------------

  /** Committed plus reserved never changes under verification, whatever the operation's status. */
  lemma VerifyKeepsTotal(s: State, o: Id, payment: Id, valid: bool, m: Id)
    requires m in s.mandates
    ensures m in Verify(s, o, payment, valid).mandates
    ensures var t := Verify(s, o, payment, valid);
            t.mandates[m].committed + t.mandates[m].reserved == s.mandates[m].committed + s.mandates[m].reserved
  {
  }

  /** Verification keeps the reserve equal to the operations in flight exactly when the operation is in flight. */
  lemma VerifyExact(s: State, o: Id, payment: Id)
    requires BooksOk(s) && o in s.ops
    ensures var t := Verify(s, o, payment, true);
            var m := s.ops[o].mandate;
            m in t.mandates && (t.mandates[m].reserved == Tally(t.ops, m, HeldOf) <==> s.ops[o].InFlight())
  {
    assert OpOk(s, o);
    var m := s.ops[o].mandate;
    assert Balanced(s, m);
    TallyUpdate(s.ops, o, CommitOp(s.ops[o]), m, HeldOf);
  }

  // --- Authority ---------------------------------------------------------------------------

  /**
   * In every reachable state an active mandate has only active ancestors, so the live pipeline,
   * which skips the walk up the parents, decides as the walk would.
   */
  lemma AuthorityIsUpwardClosed(s: State, m: Id, q: Query)
    requires Reachable(s) && m in s.mandates && q.mandate == s.mandates[m]
    ensures s.mandates[m].status.Active? ==>
            forall k: nat :: StepActive(s.mandates, AncestorAt(s.mandates, m, k))
    ensures Decide(DEFAULT_RULES, q.(session := None)) == Decide(DEFAULT_RULES, q.(session := Some(s.mandates)))
  {
    ReachableInv(s);
    if s.mandates[m].status.Active? {
      forall k: nat ensures StepActive(s.mandates, AncestorAt(s.mandates, m, k)) {
        if AncestorAt(s.mandates, m, k).Some? {
          AncestorBounds(s.mandates, m, k, AncestorAt(s.mandates, m, k).value);
        }
      }
    }
    WalkChangesNothing(s.mandates, m, q);
  }

  /** No escalation: what the policy does not deny on a mandate, every ancestor's terms permit. */
  lemma NoEscalation(s: State, m: Id, q: Query, k: nat, a: Id)
    requires Reachable(s) && m in s.mandates && q.mandate == s.mandates[m]
    requires AncestorAt(s.mandates, m, k) == Some(a)
    requires Decide(DEFAULT_RULES, q) != Deny
    ensures a in s.mandates && s.mandates[a].status.Active?
    ensures q.amount <= s.mandates[a].maxPerOp && q.now <= s.mandates[a].validUntil
    ensures Upper(q.currency) == s.mandates[a].currency && Whitelisted(s.mandates[a].allowed, q.kind)
  {
    ReachableInv(s);
    AllowBindsAncestors(s.mandates, m, q, k, a);
  }
}
