/** The conservation laws of the budget ledger and why every transaction keeps them. */
module Books {
  import opened Domain
  import opened Sums
  import opened Lifecycle
  import opened Forest
  import opened Ledger

  // --- Sums over the operations of a mandate -----------------------------------------------

  ghost function Weights(ops: map<Id, Operation>, m: Id, f: Operation -> int): map<Id, int> {
    map o | o in ops :: if ops[o].mandate == m then f(ops[o]) else 0
  }

  /** The sum of f over the operations of mandate m. */
  ghost function Tally(ops: map<Id, Operation>, m: Id, f: Operation -> int): int {
    Sum(Weights(ops, m, f))
  }

  ghost function Share(ops: map<Id, Operation>, o: Id, m: Id, f: Operation -> int): int {
    if o in ops && ops[o].mandate == m then f(ops[o]) else 0
  }

  lemma TallyUpdate(ops: map<Id, Operation>, o: Id, op: Operation, m: Id, f: Operation -> int)
    ensures Tally(ops[o := op], m, f) == Tally(ops, m, f) + Share(ops[o := op], o, m, f) - Share(ops, o, m, f)
  {
    var w := if op.mandate == m then f(op) else 0;
    assert Weights(ops[o := op], m, f) == Weights(ops, m, f)[o := w];
    SumUpdate(Weights(ops, m, f), o, w);
  }

  /** The part of an operation's amount that its mandate holds in reserve. */
  function HeldOf(op: Operation): int {
    if op.InFlight() then op.amount else 0
  }

  function CapturedOf(op: Operation): int {
    if op.status.Succeeded? then op.amount else 0
  }

  function RefundedOf(op: Operation): int {
    op.book.refunded
  }

  /** The part of an operation's amount that its mandate has spent. */
  function SpentOf(op: Operation): int {
    CapturedOf(op) - RefundedOf(op)
  }

  // --- The invariant -----------------------------------------------------------------------

  predicate TrailOk(op: Operation)
  {
    && op.book.trail != []
    && op.book.trail[|op.book.trail| - 1] == op.status
  }

  /** What became of the operation's amount. */
  datatype Stage = Untouched | Held | Spent | Freed | Inconsistent

  /** Reads the stage off the status and the book; the two must agree. */
  function StageOf(op: Operation): Stage {
    var b := op.book;
    if op.status in {Initiated, RequiresApproval, PolicyRejected}
       && b.reserves == b.dispatches == b.commits == b.releases == b.refunded == 0 then Untouched
    else if op.InFlight()
       && b.reserves == 1 && b.dispatches == (if op.status.Executing? then 1 else 0)
       && b.commits == b.releases == b.refunded == 0 then Held
    else if op.status.Succeeded?
       && b.reserves == b.commits == 1 && b.dispatches <= 1 && b.releases == 0 then Spent
    else if op.status.Failed?
       && b.reserves == b.releases == 1 && b.dispatches <= 1 && b.commits == b.refunded == 0 then Freed
    else Inconsistent
  }

  ghost predicate StageOk(op: Operation) {
    StageOf(op) != Inconsistent && TrailOk(op) && Chain(op.book.trail)
  }

  /** How an operation and its transaction row fit together. */
  predicate TxOk(row: Option<Tx>, op: Operation) {
    match row
    case None => !op.status.Executing?
    case Some(tx) =>
      && op.status in {Executing, Succeeded, OpStatus.Failed}
      && (tx.order.Some? ==> op.kind.CreateOrder?)
      && (tx.link.Some? ==> op.kind.CreatePaymentLink?)
      && (tx.payment.Some? ==> op.status.Succeeded?)
      && (op.status.Executing? ==> tx.order.Some? || tx.link.Some?)
  }

  function RowOf(txs: map<Id, Tx>, o: Id): Option<Tx> {
    if o in txs then Some(txs[o]) else None
  }

  ghost predicate OpOk(s: State, o: Id)
    requires o in s.ops
  {
    s.ops[o].mandate in s.mandates && StageOk(s.ops[o]) && TxOk(RowOf(s.txs, o), s.ops[o])
  }

  /** The counters of a mandate are the sums over its operations. */
  ghost predicate Balanced(s: State, m: Id)
    requires m in s.mandates
  {
    && s.mandates[m].reserved == Tally(s.ops, m, HeldOf)
    && s.mandates[m].committed == Tally(s.ops, m, SpentOf)
  }

  ghost predicate BooksOk(s: State) {
    && s.txs.Keys <= s.ops.Keys
    && (forall o {:trigger OpOk(s, o)} | o in s.ops :: OpOk(s, o))
    && (forall m {:trigger Balanced(s, m)} | m in s.mandates :: Balanced(s, m))
  }

  predicate RefundOk(op: Operation) {
    0 <= op.book.refunded <= CapturedOf(op)
  }

  /** What a mandate has spent or holds in reserve. */
  function SpendOf(m: Mandate): int {
    m.committed + m.reserved
  }

  predicate WithinLimit(m: Mandate) {
    SpendOf(m) <= m.limit
  }

  /** No operation is refunded beyond what it captured, and no mandate is spent beyond its limit. */
  ghost predicate Bounded(s: State) {
    && (forall o {:trigger RefundOk(s.ops[o])} | o in s.ops :: RefundOk(s.ops[o]))
    && (forall m {:trigger WithinLimit(s.mandates[m])} | m in s.mandates :: WithinLimit(s.mandates[m]))
  }

  /** From s to t the books stay sound, the bounds survive, and only counters and versions of mandates change. */
  ghost predicate Kept(s: State, t: State) {
    BooksOk(t) && SameForest(s.mandates, t.mandates) && (Bounded(s) ==> Bounded(t))
  }

  // --- Consequences ------------------------------------------------------------------------

  lemma TallyNonNegative(ops: map<Id, Operation>, m: Id, f: Operation -> int)
    requires forall o | o in ops :: 0 <= f(ops[o])
    ensures 0 <= Tally(ops, m, f)
    ensures forall o | o in ops && ops[o].mandate == m :: f(ops[o]) <= Tally(ops, m, f)
  {
    var w := Weights(ops, m, f);
    if w == map[] {
      assert forall o | o in ops :: o in w;
    } else {
      var k :| k in w;
      SumMember(w, k);
    }
    forall o | o in ops && ops[o].mandate == m ensures f(ops[o]) <= Tally(ops, m, f) {
      assert o in w;
      SumMember(w, o);
    }
  }

  /** The reserve is never negative and covers each operation in flight; within bounds committed spend is not negative either. */
  lemma CountersCover(s: State, m: Id)
    requires BooksOk(s) && m in s.mandates
    ensures 0 <= s.mandates[m].reserved
    ensures Bounded(s) ==> 0 <= s.mandates[m].committed
    ensures forall o | o in s.ops && s.ops[o].mandate == m && s.ops[o].InFlight() :: s.ops[o].amount <= s.mandates[m].reserved
  {
    assert Balanced(s, m);
    TallyNonNegative(s.ops, m, HeldOf);
    if Bounded(s) {
      forall o | o in s.ops ensures 0 <= SpentOf(s.ops[o]) {
        assert RefundOk(s.ops[o]);
      }
      TallyNonNegative(s.ops, m, SpentOf);
    }
    forall o | o in s.ops && s.ops[o].mandate == m && s.ops[o].InFlight() ensures s.ops[o].amount <= s.mandates[m].reserved {
      assert HeldOf(s.ops[o]) == s.ops[o].amount;
    }
  }

  /** What the recorded movements of an operation amount to. */
  function NetReserved(op: Operation): int {
    op.amount * (op.book.reserves - op.book.commits - op.book.releases)
  }

  function NetCommitted(op: Operation): int {
    op.amount * op.book.commits - op.book.refunded
  }

  lemma MovementsOf(op: Operation)
    requires StageOk(op)
    ensures NetReserved(op) == HeldOf(op) && NetCommitted(op) == SpentOf(op)
  {
  }

  lemma SameTally(ops: map<Id, Operation>, m: Id, f: Operation -> int, g: Operation -> int)
    requires forall o | o in ops :: f(ops[o]) == g(ops[o])
    ensures Tally(ops, m, f) == Tally(ops, m, g)
  {
    assert Weights(ops, m, f) == Weights(ops, m, g);
  }

  /** The mandate of an operation in flight exists and reserves at least its amount. */
  lemma ReserveCoversOne(s: State, o: Id)
    requires BooksOk(s) && o in s.ops && s.ops[o].InFlight()
    ensures s.ops[o].mandate in s.mandates && s.ops[o].amount <= s.mandates[s.ops[o].mandate].reserved
  {
    assert OpOk(s, o);
    CountersCover(s, s.ops[o].mandate);
  }

  lemma TallySplit(ops: map<Id, Operation>, m: Id)
    ensures Tally(ops, m, CapturedOf) == Tally(ops, m, SpentOf) + Tally(ops, m, RefundedOf)
  {
    SumPlus(Weights(ops, m, SpentOf), Weights(ops, m, RefundedOf), Weights(ops, m, CapturedOf));
  }

  // --- Preservation ------------------------------------------------------------------------

  /** How the share of operation o in a sum over its mandate changes from s to t. */
  ghost function Change(s: State, t: State, o: Id, f: Operation -> int): int
    requires o in t.ops
  {
    f(t.ops[o]) - if o in s.ops then f(s.ops[o]) else 0
  }

  /** t rewrites operation o of s and moves its mandate's counters by the change in its shares. */
  ghost predicate Rewrites(s: State, t: State, o: Id, bump: nat) {
    && o in t.ops && t.ops == s.ops[o := t.ops[o]]
    && t.ops[o].mandate in s.mandates
    && (o in s.ops ==> s.ops[o].mandate == t.ops[o].mandate)
    && t.mandates == Adjust(s.mandates, t.ops[o].mandate, Change(s, t, o, HeldOf), Change(s, t, o, SpentOf), bump)
  }

  /** The rewrite frees budget, or takes no more than there is room for. */
  ghost predicate Affordable(s: State, t: State, o: Id)
    requires o in t.ops && t.ops[o].mandate in s.mandates
  {
    var taken := Change(s, t, o, HeldOf) + Change(s, t, o, SpentOf);
    taken <= 0 || s.mandates[t.ops[o].mandate].Fits(taken)
  }

  lemma OneMoveOps(s: State, t: State, o: Id)
    requires forall x {:trigger OpOk(s, x)} | x in s.ops :: OpOk(s, x)
    requires o in t.ops && t.ops == s.ops[o := t.ops[o]] && OpOk(t, o)
    requires t.mandates.Keys == s.mandates.Keys
    requires forall x | x != o :: RowOf(t.txs, x) == RowOf(s.txs, x)
    ensures forall x | x in t.ops :: OpOk(t, x)
  {
    forall x | x in t.ops ensures OpOk(t, x) {
      if x != o {
        assert OpOk(s, x);
        assert RowOf(t.txs, x) == RowOf(s.txs, x);
      }
    }
  }

  lemma OneMoveBalances(s: State, t: State, o: Id, m: Id, bump: nat)
    requires m in s.mandates && Balanced(s, m)
    requires Rewrites(s, t, o, bump)
    ensures m in t.mandates && Balanced(t, m)
  {
    TallyUpdate(s.ops, o, t.ops[o], m, HeldOf);
    TallyUpdate(s.ops, o, t.ops[o], m, SpentOf);
  }

  lemma AdjustFrame(ms: Mandates, m: Id, reserved: int, committed: int, bump: nat)
    ensures SameForest(ms, Adjust(ms, m, reserved, committed, bump))
  {
  }

  /** At most the transaction row of o changes. */
  predicate OtherRows(s: State, t: State, o: Id) {
    t.txs == s.txs || (o in t.txs && t.txs == s.txs[o := t.txs[o]])
  }

  lemma OneMoveBounded(s: State, t: State, o: Id, bump: nat)
    requires Bounded(s) && Rewrites(s, t, o, bump)
    requires RefundOk(t.ops[o]) && Affordable(s, t, o)
    ensures Bounded(t)
  {
    forall m | m in t.mandates ensures WithinLimit(t.mandates[m]) {
      assert WithinLimit(s.mandates[m]);
    }
    forall x | x in t.ops ensures RefundOk(t.ops[x]) {
      assert x != o ==> RefundOk(s.ops[x]);
    }
  }

  /**
   * The one argument behind every transaction: if it rewrites a single operation and moves the
   * counters of that operation's mandate by exactly the change in what the operation holds and
   * has spent, the laws survive.
   */
  lemma OneMove(s: State, t: State, o: Id, bump: nat)
    requires BooksOk(s) && Rewrites(s, t, o, bump) && OtherRows(s, t, o)
    requires OpOk(t, o)
    ensures BooksOk(t) && SameForest(s.mandates, t.mandates)
    ensures RefundOk(t.ops[o]) && Affordable(s, t, o) ==> Kept(s, t)
  {
    AdjustFrame(s.mandates, t.ops[o].mandate, Change(s, t, o, HeldOf), Change(s, t, o, SpentOf), bump);
    OneMoveOps(s, t, o);
    forall m | m in t.mandates ensures Balanced(t, m) {
      assert Balanced(s, m);
      OneMoveBalances(s, t, o, m, bump);
    }
    if Bounded(s) && RefundOk(t.ops[o]) && Affordable(s, t, o) {
      OneMoveBounded(s, t, o, bump);
    }
  }

  lemma BecomeChain(op: Operation, next: OpStatus)
    requires TrailOk(op) && Chain(op.book.trail)
    requires op.status != next && Later(op.status, next)
    ensures TrailOk(op.Become(next)) && Chain(op.Become(next).book.trail)
  {
    ClosureExact(op.status, next);
    ChainExtends(op.book.trail, next);
  }

  lemma InsertKeeps(s: State, o: Id, req: OpRequest, now: int)
    requires BooksOk(s) && o !in s.ops && req.mandate in s.mandates
    ensures Kept(s, Insert(s, o, req, now))
  {
    var t := Insert(s, o, req, now);
    assert t.mandates == Adjust(s.mandates, req.mandate, 0, 0, 0);
    OneMove(s, t, o, 0);
  }

  /** Rejection and parking for approval move nothing. */
  lemma ParkKeeps(s: State, o: Id, status: OpStatus)
    requires BooksOk(s) && o in s.ops
    requires s.ops[o].status in {Initiated, RequiresApproval}
    requires status in {PolicyRejected, RequiresApproval} && status != s.ops[o].status
    ensures Kept(s, Park(s, o, status))
  {
    var t := Park(s, o, status);
    assert OpOk(s, o);
    BecomeChain(s.ops[o], status);
    assert t.mandates == Adjust(s.mandates, s.ops[o].mandate, 0, 0, 0);
    OneMove(s, t, o, 0);
  }

  lemma ReserveKeeps(s: State, o: Id)
    requires BooksOk(s) && o in s.ops
    requires s.ops[o].status in {Initiated, RequiresApproval}
    requires s.ops[o].mandate in s.mandates && s.mandates[s.ops[o].mandate].Fits(s.ops[o].amount)
    ensures Kept(s, Reserve(s, o))
  {
    var t := Reserve(s, o);
    assert OpOk(s, o);
    BecomeChain(s.ops[o], Reserved);
    OneMove(s, t, o, 1);
  }

  /** A captured payment keeps the laws of an operation in flight. */
  lemma CaptureKeeps(s: State, o: Id, payment: Option<Id>)
    requires BooksOk(s) && o in s.ops && s.ops[o].InFlight()
    ensures Kept(s, Capture(s, o, payment))
  {
    var t := Capture(s, o, payment);
    assert OpOk(s, o);
    BecomeChain(s.ops[o], Succeeded);
    OneMove(s, t, o, 1);
  }

  lemma ReleaseKeeps(s: State, o: Id)
    requires BooksOk(s) && o in s.ops && s.ops[o].InFlight()
    ensures Kept(s, Release(s, o))
  {
    var t := Release(s, o);
    assert OpOk(s, o);
    BecomeChain(s.ops[o], OpStatus.Failed);
    OneMove(s, t, o, 1);
  }

  lemma FailPaymentKeeps(s: State, o: Id)
    requires BooksOk(s) && o in s.ops && s.ops[o].InFlight()
    ensures Kept(s, FailPayment(s, o))
  {
    var t := FailPayment(s, o);
    assert OpOk(s, o);
    BecomeChain(s.ops[o], OpStatus.Failed);
    OneMove(s, t, o, 1);
  }

  /** The refund is no more than what was captured and not yet refunded. */
  predicate FairCredit(op: Operation, amount: int) {
    0 <= amount <= op.amount - op.book.refunded
  }

  /** A refund of any amount keeps the equations; the bounds need a fair amount. */
  lemma CreditRefundKeeps(s: State, o: Id, amount: int)
    requires BooksOk(s) && o in s.ops && s.ops[o].status.Succeeded?
    ensures BooksOk(CreditRefund(s, o, amount)) && SameForest(s.mandates, CreditRefund(s, o, amount).mandates)
    ensures FairCredit(s.ops[o], amount) ==> Kept(s, CreditRefund(s, o, amount))
  {
    assert OpOk(s, o);
    assert Bounded(s) ==> RefundOk(s.ops[o]);
    OneMove(s, CreditRefund(s, o, amount), o, 1);
  }

  /** The gateway confirmed an order or a payment link. */
  lemma DispatchKeeps(s: State, o: Id, answer: GatewayAnswer)
    requires BooksOk(s) && o in s.ops && s.ops[o].status.Reserved?
    requires s.ops[o].kind in {CreateOrder, CreatePaymentLink} && answer.Confirmed?
    ensures Kept(s, Execute(s, o, answer))
  {
    var t := Execute(s, o, answer);
    assert OpOk(s, o);
    BecomeChain(Dispatched(s, o).ops[o], Executing);
    assert t.mandates == Adjust(s.mandates, s.ops[o].mandate, 0, 0, 0);
    OneMove(s, t, o, 0);
  }

  /** The gateway confirmed a refund: spent at once, without a version bump. */
  lemma RefundDispatchKeeps(s: State, o: Id, answer: GatewayAnswer)
    requires BooksOk(s) && o in s.ops && s.ops[o].status.Reserved?
    requires s.ops[o].kind.CreateRefund? && s.ops[o].refundOf.Some? && answer.Confirmed?
    ensures Kept(s, Execute(s, o, answer))
  {
    assert OpOk(s, o);
    BecomeChain(Dispatched(s, o).ops[o], Succeeded);
    OneMove(s, Execute(s, o, answer), o, 0);
  }

  /** The gateway refused: the reservation is released. */
  lemma RejectedDispatchKeeps(s: State, o: Id)
    requires BooksOk(s) && o in s.ops && s.ops[o].status.Reserved?
    ensures Kept(s, Release(Dispatched(s, o), o))
  {
    assert OpOk(s, o);
    BecomeChain(Dispatched(s, o).ops[o], OpStatus.Failed);
    OneMove(s, Release(Dispatched(s, o), o), o, 1);
  }

  /** Gateway execution of a freshly reserved operation. */
  lemma ExecuteKeeps(s: State, o: Id, answer: GatewayAnswer)
    requires BooksOk(s) && o in s.ops && s.ops[o].status.Reserved?
    ensures Kept(s, Execute(s, o, answer))
  {
    match s.ops[o].kind
    case CapturePayment =>
    case CancelPaymentLink =>
    case CreateRefund =>
      if s.ops[o].refundOf.None? {
        ReleaseKeeps(s, o);
      } else if answer.Rejected? {
        RejectedDispatchKeeps(s, o);
      } else {
        RefundDispatchKeeps(s, o, answer);
      }
    case _ =>
      if answer.Rejected? {
        RejectedDispatchKeeps(s, o);
      } else {
        DispatchKeeps(s, o, answer);
      }
  }
}
