/** How a delegation tree is kept within the limit of its root. */
module Headroom {
  import opened Domain
  import opened Sums
  import opened Forest
  import opened Policy
  import opened Ledger
  import opened Books
  import opened Sweep
  import opened Machine
  import opened Safety
  import opened TreeBudget
  import opened Interleaving

  // --- One state ---------------------------------------------------------------------------

  /** No mandate has spent, reserved and delegated more than its limit. */
  ghost predicate Covered(ms: Mandates) {
    forall m {:trigger HeadroomOf(ms[m])} | m in ms :: 0 <= HeadroomOf(ms[m])
  }

  lemma OverSign(ms: Mandates, S: set<Id>, f: Mandate -> int)
    ensures (forall m | m in ms && m in S :: 0 <= f(ms[m])) ==> 0 <= Over(ms, S, f)
    ensures (forall m | m in ms && m in S :: f(ms[m]) <= 0) ==> Over(ms, S, f) <= 0
  {
    var zeros := map m | m in ms :: 0;
    SumZero(zeros);
    if forall m | m in ms && m in S :: 0 <= f(ms[m]) {
      SumMonotone(zeros, OverWeights(ms, S, f));
    }
    if forall m | m in ms && m in S :: f(ms[m]) <= 0 {
      SumMonotone(OverWeights(ms, S, f), zeros);
    }
  }

  /** Where every mandate has headroom, every tree stays within the limit of its root. */
  lemma CoveredTrees(ms: Mandates, root: Id)
    requires ForestOk(ms) && root in ms
    requires forall m | m in Tree(ms, root) :: 0 <= HeadroomOf(ms[m])
    ensures Over(ms, Tree(ms, root), SpendOf) <= ms[root].limit
  {
    TreeIdentity(ms, root);
    OverSign(ms, Tree(ms, root), HeadroomOf);
  }

  // --- Why headroom is needed --------------------------------------------------------------

  /** Every mandate strictly below root reserves all it has left. */
  ghost function Exhausted(ms: Mandates, root: Id): Mandates {
    map m | m in ms ::
      if Below(ms, root, m) && m != root && HeadroomOf(ms[m]) > 0
      then ms[m].(reserved := ms[m].reserved + HeadroomOf(ms[m]))
      else ms[m]
  }

  lemma {:induction false} SameAncestors(ms: Mandates, ns: Mandates, m: Id, k: nat)
    requires SameForest(ms, ns)
    ensures AncestorAt(ns, m, k) == AncestorAt(ms, m, k)
    decreases k
  {
    if k > 0 && m in ms && ms[m].parent.Some? {
      assert SameTerms(ms[m], ns[m]);
      SameAncestors(ms, ns, ms[m].parent.value, k - 1);
    }
  }

  lemma SameTree(ms: Mandates, ns: Mandates, root: Id)
    requires SameForest(ms, ns)
    ensures Tree(ns, root) == Tree(ms, root)
  {
    forall m, k: nat ensures AncestorAt(ns, m, k) == AncestorAt(ms, m, k) {
      SameAncestors(ms, ns, m, k);
    }
    forall m ensures Below(ns, root, m) <==> Below(ms, root, m) {
      if Below(ns, root, m) {
        var k: nat :| AncestorAt(ns, m, k) == Some(root);
        assert AncestorAt(ms, m, k) == Some(root);
      }
      if Below(ms, root, m) {
        var k: nat :| AncestorAt(ms, m, k) == Some(root);
        assert AncestorAt(ns, m, k) == Some(root);
      }
    }
  }

  /** The conditional reservation accepts each of these reservations. */
  lemma ExhaustionFits(ms: Mandates, m: Id)
    requires ForestOk(ms) && m in ms && HeadroomOf(ms[m]) > 0
    ensures ms[m].Fits(HeadroomOf(ms[m]))
  {
    assert Rooted(ms, m);
    var zeros := map c | c in ms :: 0;
    SumZero(zeros);
    SumMonotone(zeros, ChildWeights(ms, m));
  }

  /** After the exhaustion the tree spends its root's limit, less what the root has left, plus what others lack. */
  lemma ExhaustedTree(ms: Mandates, root: Id)
    requires ForestOk(ms) && root in ms
    ensures var ns := Exhausted(ms, root);
            (forall m | m in Tree(ms, root) :: 0 <= HeadroomOf(ms[m])) ==> Over(ns, Tree(ns, root), SpendOf) <= ms[root].limit
    ensures var ns := Exhausted(ms, root);
            HeadroomOf(ms[root]) < 0 ==> Over(ns, Tree(ns, root), SpendOf) > ms[root].limit
  {
    var ns := Exhausted(ms, root);
    assert SameForest(ms, ns);
    ForestFrame(ms, ns);
    SameTree(ms, ns, root);
    TreeIdentity(ns, root);
    assert ns[root] == ms[root];
    assert AncestorAt(ms, root, 0) == Some(root);
    var rest := Tree(ns, root) - {root};
    assert Tree(ns, root) == {root} + rest;
    OverUnion(ns, {root}, rest, HeadroomOf);
    OverOne(ns, root, HeadroomOf);
    OverSign(ns, rest, HeadroomOf);
    forall m | m in rest ensures HeadroomOf(ns[m]) == if HeadroomOf(ms[m]) > 0 then 0 else HeadroomOf(ms[m]) {
      assert Below(ms, root, m);
    }
  }

  /**
   * Headroom everywhere in a tree is exactly what it takes for each of its subtrees to stay within
   * the limit of its own root when the mandates below that root reserve all they have left, which
   * the conditional reservation lets them do.
   */
  lemma HeadroomIsExact(ms: Mandates, root: Id)
    requires ForestOk(ms) && root in ms
    ensures (forall m | m in Tree(ms, root) :: 0 <= HeadroomOf(ms[m]))
            <==> forall r | r in Tree(ms, root) :: Over(Exhausted(ms, r), Tree(Exhausted(ms, r), r), SpendOf) <= ms[r].limit
    ensures forall m | m in ms && HeadroomOf(ms[m]) > 0 :: ms[m].Fits(HeadroomOf(ms[m]))
  {
    forall m | m in ms && HeadroomOf(ms[m]) > 0 ensures ms[m].Fits(HeadroomOf(ms[m])) {
      ExhaustionFits(ms, m);
    }
    forall r | r in Tree(ms, root)
      ensures HeadroomOf(ms[r]) < 0 ==> Over(Exhausted(ms, r), Tree(Exhausted(ms, r), r), SpendOf) > ms[r].limit
      ensures (forall m | m in Tree(ms, root) :: 0 <= HeadroomOf(ms[m])) ==>
                Over(Exhausted(ms, r), Tree(Exhausted(ms, r), r), SpendOf) <= ms[r].limit
    {
      ExhaustedTree(ms, r);
      forall m | m in Tree(ms, r) ensures m in Tree(ms, root) {
        BelowTwice(ms, root, r, m);
      }
    }
  }

  lemma {:induction false} AncestorsCompose(ms: Mandates, m: Id, j: nat, r: Id, k: nat)
    requires AncestorAt(ms, m, j) == Some(r)
    ensures AncestorAt(ms, m, j + k) == AncestorAt(ms, r, k)
    decreases j
  {
    if j > 0 {
      AncestorsCompose(ms, ms[m].parent.value, j - 1, r, k);
    }
  }

  lemma BelowTwice(ms: Mandates, root: Id, r: Id, m: Id)
    requires Below(ms, root, r) && Below(ms, r, m)
    ensures Below(ms, root, m)
  {
    var j: nat :| AncestorAt(ms, m, j) == Some(r);
    var k: nat :| AncestorAt(ms, r, k) == Some(root);
    AncestorsCompose(ms, m, j, r, k);
    assert AncestorAt(ms, m, j + k) == Some(root);
  }

  // --- One reservation ---------------------------------------------------------------------

  /** A reservation keeps headroom everywhere exactly when its mandate has room beyond what it delegated. */
  lemma ReservationKeepsHeadroom(s: State, o: Id)
    requires Covered(s.mandates) && o in s.ops && s.ops[o].mandate in s.mandates
    ensures Covered(Reserve(s, o).mandates)
            <==> s.ops[o].amount <= s.mandates[s.ops[o].mandate].limit - s.mandates[s.ops[o].mandate].committed
                                    - s.mandates[s.ops[o].mandate].reserved - s.mandates[s.ops[o].mandate].delegated
  {
    var m, t := s.ops[o].mandate, Reserve(s, o);
    assert HeadroomOf(t.mandates[m]) == HeadroomOf(s.mandates[m]) - s.ops[o].amount;
    forall x | x in t.mandates && x != m ensures 0 <= HeadroomOf(t.mandates[x]) {
      assert 0 <= HeadroomOf(s.mandates[x]);
    }
  }

  /** A reservation keeps the tree above it within its root's limit exactly when the tree as a whole has the headroom. */
  lemma ReservationKeepsTree(s: State, o: Id, root: Id)
    requires ForestOk(s.mandates) && root in s.mandates && o in s.ops && s.ops[o].mandate in Tree(s.mandates, root)
    ensures var t := Reserve(s, o);
            Over(t.mandates, Tree(t.mandates, root), SpendOf) <= s.mandates[root].limit
            <==> s.ops[o].amount <= Over(s.mandates, Tree(s.mandates, root), HeadroomOf)
  {
    var t, m, S := Reserve(s, o), s.ops[o].mandate, Tree(s.mandates, root);
    AdjustFrame(s.mandates, m, s.ops[o].amount, 0, 1);
    SameTree(s.mandates, t.mandates, root);
    TreeIdentity(s.mandates, root);
    assert OverWeights(t.mandates, S, SpendOf) == OverWeights(s.mandates, S, SpendOf)[m := SpendOf(t.mandates[m])];
    SumUpdate(OverWeights(s.mandates, S, SpendOf), m, SpendOf(t.mandates[m]));
  }

  // --- Whole runs --------------------------------------------------------------------------

  /** What the operation holds or has spent. */
  function WeightOf(op: Operation): int {
    HeldOf(op) + SpentOf(op)
  }

  lemma SpendIsTally(s: State, m: Id)
    requires BooksOk(s) && m in s.mandates
    ensures SpendOf(s.mandates[m]) == Tally(s.ops, m, WeightOf)
  {
    assert Balanced(s, m);
    SumPlus(Weights(s.ops, m, HeldOf), Weights(s.ops, m, SpentOf), Weights(s.ops, m, WeightOf));
  }

  /** The operation of a request or an approval. */
  function Asked(step: Step): Option<Id> {
    match step
    case RequestOperation(o, _, _, _, _) => Some(o)
    case ApproveOperation(o, _, _, _) => Some(o)
    case _ => None
  }

  lemma DeliveryLeavesUntouched(s: State, e: Id, body: Body, o: Id)
    requires BooksOk(s) && o in s.ops && StageOf(s.ops[o]).Untouched?
    ensures o in Deliver(s, e, body).ops && Deliver(s, e, body).ops[o] == s.ops[o]
  {
    assert OpOk(s, o);
    if body.RefundProcessed? && body.refunded.Some? && ByPayment(s.txs, body.refunded.value) == OneRow(o) {
      assert false;
    }
  }

  lemma DeliveryAddsNothing(s: State, e: Id, body: Body)
    ensures Deliver(s, e, body).ops.Keys == s.ops.Keys
  {
  }

  lemma SweepLeavesUntouched(s: State, rows: seq<Id>, now: int, timeout: int, answers: map<Id, OrderAnswer>)
    requires BooksOk(s) && Selection(s, rows, now, timeout)
    ensures SweepRows(s, rows, now, answers).ops.Keys == s.ops.Keys
    ensures forall o | o in s.ops && !s.ops[o].InFlight() :: SweepRows(s, rows, now, answers).ops[o] == s.ops[o]
  {
    SelectionEffect(s, rows, now, timeout, answers);
  }

  /** Steps other than requests and approvals leave operations alone that hold nothing yet. */
  lemma OthersLeaveUntouched(s: State, step: Step, o: Id)
    requires Inv(s) && Fair(s, step) && Asked(step).None?
    requires o in s.ops && StageOf(s.ops[o]).Untouched?
    ensures o in Next(s, step).ops && Next(s, step).ops[o] == s.ops[o]
  {
    match step
    case Webhook(e, body) => DeliveryLeavesUntouched(s, e, body, o);
    case RunSweep(rows, now, timeout, answers) =>
      if Selection(s, rows, now, timeout) {
        SweepLeavesUntouched(s, rows, now, timeout, answers);
      }
    case _ =>
  }

  lemma OthersAddNothing(s: State, step: Step)
    requires Inv(s) && Fair(s, step) && Asked(step).None?
    ensures Next(s, step).ops.Keys == s.ops.Keys
  {
    match step
    case Webhook(e, body) => DeliveryAddsNothing(s, e, body);
    case RunSweep(rows, now, timeout, answers) =>
      if Selection(s, rows, now, timeout) {
        SweepLeavesUntouched(s, rows, now, timeout, answers);
      }
    case _ =>
  }

  /** A request or an approval changes no other operation. */
  lemma AskedMoves(s: State, step: Step, x: Id)
    requires Asked(step).Some? && x in s.ops && Asked(step) != Some(x)
    ensures x in Next(s, step).ops && Next(s, step).ops[x] == s.ops[x]
  {
    match step
    case RequestOperation(o, req, now, rateOk, answer) => RequestContinues(s, o, req, now, rateOk, answer);
    case ApproveOperation(o, approver, approved, answer) => ApproveContinues(s, o, approver, approved, answer);
  }

  /** No weight grows except by a request or an approval, and there only that of its own operation. */
  lemma WeightsFall(s: State, step: Step, o: Id)
    requires Inv(s) && Fair(s, step) && o in s.ops && Asked(step) != Some(o)
    ensures o in Next(s, step).ops && Next(s, step).ops[o].mandate == s.ops[o].mandate
    ensures WeightOf(Next(s, step).ops[o]) <= WeightOf(s.ops[o])
  {
    var t := Next(s, step);
    NextKeepsInv(s, step);
    NextContinues(s, step, o);
    assert OpOk(s, o) && OpOk(t, o) && RefundOk(t.ops[o]);
    if StageOf(s.ops[o]).Untouched? {
      if Asked(step).None? {
        OthersLeaveUntouched(s, step, o);
      } else {
        AskedMoves(s, step, o);
      }
    }
  }

  /** What the step takes from the mandate of its operation. */
  ghost function TakenBy(s: State, step: Step): int {
    if Asked(step).None? || Asked(step).value !in Next(s, step).ops then 0
    else
      var o := Asked(step).value;
      WeightOf(Next(s, step).ops[o]) - if o in s.ops then WeightOf(s.ops[o]) else 0
  }

  predicate SameShares(ms: Mandates, ns: Mandates) {
    && ns.Keys == ms.Keys
    && forall m | m in ms :: ns[m].limit == ms[m].limit && ns[m].delegated == ms[m].delegated
  }

  lemma ForestShares(ms: Mandates, ns: Mandates)
    requires SameForest(ms, ns)
    ensures SameShares(ms, ns)
  {
    forall m | m in ms ensures ns[m].limit == ms[m].limit && ns[m].delegated == ms[m].delegated {
      assert SameTerms(ms[m], ns[m]);
    }
  }

  /** What requests, approvals, deliveries and sweeps do to mandates. */
  lemma ForestStays(s: State, step: Step)
    requires BooksOk(s) && FairVerification(s, step)
    requires step.RequestOperation? || step.ApproveOperation? || step.VerifyPayment? || step.Webhook? || step.RunSweep?
    ensures SameForest(s.mandates, Next(s, step).mandates)
  {
    match step
    case RequestOperation(o, req, now, rateOk, answer) => RequestKeepsInv(s, o, req, now, rateOk, answer);
    case ApproveOperation(o, approver, approved, answer) => ApproveKeepsInv(s, o, approver, approved, answer);
    case VerifyPayment(o, payment, valid) =>
      if valid && o in s.ops {
        VerifyKeepsInv(s, o, payment);
      }
    case Webhook(e, body) => DeliverKeepsInv(s, e, body);
    case RunSweep(rows, now, timeout, answers) =>
      if Selection(s, rows, now, timeout) {
        SweepKeepsInv(s, rows, now, timeout, answers);
      }
  }

  /** Limits and delegated shares change only when mandates are issued or delegated. */
  lemma TermsStay(s: State, step: Step)
    requires BooksOk(s) && FairVerification(s, step) && !step.CreateMandate? && !step.DelegateMandate?
    ensures SameShares(s.mandates, Next(s, step).mandates)
  {
    if step.RequestOperation? || step.ApproveOperation? || step.VerifyPayment? || step.Webhook? || step.RunSweep? {
      ForestStays(s, step);
      ForestShares(s.mandates, Next(s, step).mandates);
    }
  }

  lemma TallyFalls(ops: map<Id, Operation>, after: map<Id, Operation>, m: Id)
    requires ops.Keys == after.Keys
    requires forall o | o in ops :: after[o].mandate == ops[o].mandate && WeightOf(after[o]) <= WeightOf(ops[o])
    ensures Tally(after, m, WeightOf) <= Tally(ops, m, WeightOf)
  {
    SumMonotone(Weights(after, m, WeightOf), Weights(ops, m, WeightOf));
  }

  /** Steps other than requests and approvals lower what each mandate spends and holds. */
  lemma OthersFree(s: State, step: Step, m: Id)
    requires Inv(s) && Fair(s, step) && Asked(step).None? && m in s.mandates && m in Next(s, step).mandates
    ensures SpendOf(Next(s, step).mandates[m]) <= SpendOf(s.mandates[m])
  {
    var t := Next(s, step);
    NextKeepsInv(s, step);
    SpendIsTally(s, m);
    SpendIsTally(t, m);
    OthersAddNothing(s, step);
    forall o | o in s.ops ensures t.ops[o].mandate == s.ops[o].mandate && WeightOf(t.ops[o]) <= WeightOf(s.ops[o]) {
      WeightsFall(s, step, o);
    }
    TallyFalls(s.ops, t.ops, m);
  }

  lemma AskedOps(s: State, step: Step)
    requires Asked(step).Some?
    ensures var o, t := Asked(step).value, Next(s, step);
            t.ops == s.ops || (o in t.ops && t.ops == s.ops[o := t.ops[o]] && (o in s.ops ==> t.ops[o].mandate == s.ops[o].mandate))
  {
    match step
    case RequestOperation(o, req, now, rateOk, answer) => RequestAddsOne(s, o, req, now, rateOk, answer);
    case ApproveOperation(o, approver, approved, answer) => ApproveContinues(s, o, approver, approved, answer);
  }

  lemma RequestAddsOne(s: State, o: Id, req: OpRequest, now: int, rateOk: bool, answer: GatewayAnswer)
    ensures var t := Request(s, o, req, now, rateOk, answer);
            t.ops == s.ops || (o !in s.ops && o in t.ops && t.ops == s.ops[o := t.ops[o]])
  {
    if o !in s.ops && req.mandate in s.mandates && req.agent in s.agents {
      ConcludeAddsOne(Insert(s, o, req, now), o, Decide(DEFAULT_RULES, LiveQuery(s, req, now, rateOk)), answer);
    }
  }

  /** After the decision, the request changes its own operation only, and neither its mandate nor its amount. */
  lemma ConcludeAddsOne(s: State, o: Id, decision: Decision, answer: GatewayAnswer)
    requires o in s.ops
    ensures OnlyOne(s, Conclude(s, o, decision, answer), o)
  {
    if decision.Allow? {
      ExecuteOnlyOne(Reserve(s, o), o, answer);
    }
  }

  predicate OnlyOne(s: State, t: State, o: Id)
    requires o in s.ops
  {
    && o in t.ops && t.ops == s.ops[o := t.ops[o]]
    && t.ops[o].mandate == s.ops[o].mandate && t.ops[o].amount == s.ops[o].amount
  }

  lemma ExecuteOnlyOne(s: State, o: Id, answer: GatewayAnswer)
    requires o in s.ops
    ensures OnlyOne(s, Execute(s, o, answer), o)
  {
    ExecutedOps(s, o, answer);
  }

  /** A request or an approval takes exactly its operation's weight from that operation's mandate. */
  lemma AskedTakes(s: State, step: Step, m: Id)
    requires Inv(s) && Fair(s, step) && Asked(step).Some? && m in s.mandates && m in Next(s, step).mandates
    ensures var o, t := Asked(step).value, Next(s, step);
            SpendOf(t.mandates[m]) == SpendOf(s.mandates[m])
                                      + if o in t.ops && t.ops[o].mandate == m then TakenBy(s, step) else 0
  {
    var o, t := Asked(step).value, Next(s, step);
    NextKeepsInv(s, step);
    SpendIsTally(s, m);
    SpendIsTally(t, m);
    AskedOps(s, step);
    if t.ops != s.ops {
      TallyUpdate(s.ops, o, t.ops[o], m, WeightOf);
    }
  }

  /** The step took more than its mandate had left beyond what it delegated. */
  ghost predicate TookTooMuch(s: State, step: Step) {
    && Asked(step).Some? && Asked(step).value in Next(s, step).ops
    && Next(s, step).ops[Asked(step).value].mandate in s.mandates
    && TakenBy(s, step) > HeadroomOf(s.mandates[Next(s, step).ops[Asked(step).value].mandate])
  }

  lemma AskedExact(s: State, step: Step)
    requires Inv(s) && Fair(s, step) && Asked(step).Some? && Covered(s.mandates)
    ensures Covered(Next(s, step).mandates) <==> !TookTooMuch(s, step)
  {
    var o, t := Asked(step).value, Next(s, step);
    NextKeepsInv(s, step);
    TermsStay(s, step);
    forall m | m in s.mandates
      ensures HeadroomOf(t.mandates[m]) == HeadroomOf(s.mandates[m]) - if o in t.ops && t.ops[o].mandate == m then TakenBy(s, step) else 0
    {
      AskedTakes(s, step, m);
    }
    forall m | m in t.mandates && !(o in t.ops && t.ops[o].mandate == m) ensures 0 <= HeadroomOf(t.mandates[m]) {
      assert 0 <= HeadroomOf(s.mandates[m]);
    }
    if o in t.ops {
      assert OpOk(t, o);
      assert HeadroomOf(t.mandates[t.ops[o].mandate]) == HeadroomOf(s.mandates[t.ops[o].mandate]) - TakenBy(s, step);
    }
  }

  /** A delegation leaves the parent the headroom it did not give away, and a new mandate has all of its own. */
  lemma IssueCovers(s: State, step: Step)
    requires Inv(s) && (step.DelegateMandate? || step.CreateMandate?) && Covered(s.mandates)
    ensures Covered(Next(s, step).mandates)
  {
    var t := Next(s, step);
    forall m | m in t.mandates ensures 0 <= HeadroomOf(t.mandates[m]) {
      if m in s.mandates {
        assert 0 <= HeadroomOf(s.mandates[m]);
      }
    }
  }

  lemma OthersCover(s: State, step: Step)
    requires Inv(s) && Fair(s, step) && Asked(step).None? && Covered(s.mandates)
    ensures Covered(Next(s, step).mandates)
  {
    var t := Next(s, step);
    if step.DelegateMandate? || step.CreateMandate? {
      IssueCovers(s, step);
    } else {
      TermsStay(s, step);
      forall m | m in t.mandates ensures 0 <= HeadroomOf(t.mandates[m]) {
        assert 0 <= HeadroomOf(s.mandates[m]);
        OthersFree(s, step, m);
      }
    }
  }

  // --- The same, before the step -----------------------------------------------------------

  /** Execution leaves the amount held or spent: the gateway confirms, or is not asked. */
  predicate KeepsAmount(kind: OpType, refundOf: Option<Id>, answer: GatewayAnswer) {
    match kind
    case CreateOrder => answer.Confirmed?
    case CreatePaymentLink => answer.Confirmed?
    case CreateRefund => refundOf.Some? && answer.Confirmed?
    case CapturePayment => true
    case CancelPaymentLink => true
  }

  lemma TakenWeight(op: Operation, answer: GatewayAnswer)
    requires op.book.refunded == 0
    ensures var b := ExecutedOp(ReservedOp(op), answer);
            && WeightOf(b) == (if KeepsAmount(op.kind, op.refundOf, answer) then op.amount else 0)
            && b.mandate == op.mandate
  {
  }

  /** The request or approval goes through and its amount stays taken. */
  ghost predicate Draws(s: State, step: Step) {
    match step
    case RequestOperation(o, req, now, rateOk, answer) =>
      && o !in s.ops && req.mandate in s.mandates && req.agent in s.agents
      && Decide(DEFAULT_RULES, LiveQuery(s, req, now, rateOk)) == Allow
      && s.mandates[req.mandate].Fits(req.amount) && KeepsAmount(req.kind, req.refundOf, answer)
    case ApproveOperation(o, _, approved, answer) =>
      && o in s.ops && s.ops[o].status.RequiresApproval? && s.ops[o].mandate in s.mandates && approved
      && s.mandates[s.ops[o].mandate].Fits(s.ops[o].amount) && KeepsAmount(s.ops[o].kind, s.ops[o].refundOf, answer)
    case _ => false
  }

  /** The step draws more than its mandate has left beyond what it delegated. */
  ghost predicate Overdraws(s: State, step: Step) {
    && Draws(s, step)
    && match step
       case RequestOperation(_, req, _, _, _) => req.amount > HeadroomOf(s.mandates[req.mandate])
       case ApproveOperation(o, _, _, _) => s.ops[o].amount > HeadroomOf(s.mandates[s.ops[o].mandate])
       case _ => false
  }

  lemma RequestDraws(s: State, o: Id, req: OpRequest, now: int, rateOk: bool, answer: GatewayAnswer)
    requires o !in s.ops && req.mandate in s.mandates && req.agent in s.agents
    ensures var step, t := RequestOperation(o, req, now, rateOk, answer), Request(s, o, req, now, rateOk, answer);
            && o in t.ops && t.ops[o].mandate == req.mandate
            && WeightOf(t.ops[o]) == if Draws(s, step) then req.amount else 0
  {
    var t, decision := Insert(s, o, req, now), Decide(DEFAULT_RULES, LiveQuery(s, req, now, rateOk));
    if decision.Allow? && s.mandates[req.mandate].Fits(req.amount) {
      TakenOps(t, o, answer);
      TakenWeight(t.ops[o], answer);
    }
  }

  lemma ApprovalDraws(s: State, o: Id, approver: Id, approved: bool, answer: GatewayAnswer)
    requires o in s.ops && WeightOf(s.ops[o]) == s.ops[o].book.refunded == 0
    ensures var step, t := ApproveOperation(o, approver, approved, answer), Approve(s, o, approver, approved, answer);
            && o in t.ops && t.ops[o].mandate == s.ops[o].mandate
            && WeightOf(t.ops[o]) == if Draws(s, step) then s.ops[o].amount else 0
  {
    var t := Signed(s, o, approver);
    TakenOps(t, o, answer);
    TakenWeight(t.ops[o], answer);
  }

  lemma AlreadySettled(s: State, o: Id, approver: Id, approved: bool, answer: GatewayAnswer)
    requires o !in s.ops || !s.ops[o].status.RequiresApproval?
    ensures Approve(s, o, approver, approved, answer) == s
  {
  }

  /** What is known before the step agrees with what it takes. */
  lemma OverdrawsBefore(s: State, step: Step)
    requires Inv(s) && Covered(s.mandates) && Asked(step).Some?
    ensures TookTooMuch(s, step) <==> Overdraws(s, step)
  {
    var o := Asked(step).value;
    assert o in s.ops ==> OpOk(s, o);
    assert o in s.ops ==> 0 <= HeadroomOf(s.mandates[s.ops[o].mandate]);
    match step
    case RequestOperation(_, req, now, rateOk, answer) =>
      assert req.mandate in s.mandates ==> 0 <= HeadroomOf(s.mandates[req.mandate]);
      if o !in s.ops && req.mandate in s.mandates && req.agent in s.agents {
        RequestDraws(s, o, req, now, rateOk, answer);
      }
    case ApproveOperation(_, approver, approved, answer) =>
      if o in s.ops && s.ops[o].status.RequiresApproval? {
        ApprovalDraws(s, o, approver, approved, answer);
      } else {
        AlreadySettled(s, o, approver, approved, answer);
      }
  }

  /**
   * From a state with headroom everywhere, a step leaves headroom everywhere exactly when it does
   * not overdraw; only requests and approvals can. The condition is one on the state before it.
   */
  lemma StepCoversExactly(s: State, step: Step)
    requires Inv(s) && Fair(s, step) && Covered(s.mandates)
    ensures Covered(Next(s, step).mandates) <==> !Overdraws(s, step)
  {
    if Asked(step).Some? {
      AskedExact(s, step);
      OverdrawsBefore(s, step);
    } else {
      OthersCover(s, step);
    }
  }

  /** The check that the reservation lacks: the amount fits beyond what the mandate delegated. */
  predicate Guarded(s: State, step: Step) {
    match step
    case RequestOperation(o, req, _, _, _) =>
      o in s.ops || req.mandate !in s.mandates || req.amount <= HeadroomOf(s.mandates[req.mandate])
    case ApproveOperation(o, _, _, _) =>
      o !in s.ops || s.ops[o].mandate !in s.mandates || s.ops[o].amount <= HeadroomOf(s.mandates[s.ops[o].mandate])
    case _ => true
  }

  ghost predicate GuardedRun(s: State, steps: seq<Step>)
    decreases |steps|
  {
    steps == [] || (Guarded(s, steps[0]) && GuardedRun(Next(s, steps[0]), steps[1..]))
  }

  lemma {:induction false} GuardedRunCovers(s: State, steps: seq<Step>)
    requires Inv(s) && FairRun(s, steps) && GuardedRun(s, steps) && Covered(s.mandates)
    ensures Inv(Run(s, steps)) && Covered(Run(s, steps).mandates)
    decreases |steps|
  {
    if steps != [] {
      NextKeepsInv(s, steps[0]);
      StepCoversExactly(s, steps[0]);
      GuardedRunCovers(Next(s, steps[0]), steps[1..]);
    }
  }

  /**
   * With the check that the reservation lacks, every tree would stay within the limit of its root
   * in every state of every fair run.
   */
  lemma GuardedTreesStayWithinLimits(steps: seq<Step>, root: Id)
    requires FairRun(Empty(), steps) && GuardedRun(Empty(), steps) && root in Run(Empty(), steps).mandates
    ensures var ms := Run(Empty(), steps).mandates;
            Over(ms, Tree(ms, root), SpendOf) <= ms[root].limit
  {
    GuardedRunCovers(Empty(), steps);
    var ms := Run(Empty(), steps).mandates;
    forall m | m in Tree(ms, root) ensures 0 <= HeadroomOf(ms[m]) {}
    CoveredTrees(ms, root);
  }
}
