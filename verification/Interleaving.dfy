/**
 * Requesters, approvers and settlers whose reads and writes are separate steps. The policy reads
 * a snapshot of the mandate, an approver and a settler read the operation's status, and only
 * later do they write. Any number of other workers, payment verifications and refunds come in
 * between. Nothing here looks at transaction rows.
 */
module Interleaving {
  import opened Domain
  import opened Forest
  import opened Policy
  import opened Ledger
  import opened Books

  /**
   * What a worker carries from its read to its write. A settler found the operation in flight; it
   * is guarded like the webhook handlers, which look at the reserve when they write, or unguarded
   * like the sweep.
   */
  datatype Phase =
    | Decided(request: Id, decision: Decision)
    | Signing(approval: Id, approver: Id, approved: bool)
    | Settling(settled: Id, commit: bool, guarded: bool)
  {
    function Op(): Id {
      match this
      case Decided(o, _) => o
      case Signing(o, _, _) => o
      case Settling(o, _, _) => o
    }
  }

  datatype Shared = Shared(db: State, workers: map<Id, Phase>)

  datatype Action =
    | ReadForRequest(worker: Id, op: Id, req: OpRequest, now: int, rateOk: bool)
    | ReadForApproval(worker: Id, op: Id, approver: Id, approved: bool)
    | ReadForSettlement(worker: Id, op: Id, commit: bool, guarded: bool)
    | Write(worker: Id, answer: GatewayAnswer)
    | VerifyOp(op: Id, payment: Id)
    | Credit(op: Id, amount: int)

  /** The settler finds the reserve smaller than the operation's amount. */
  predicate Short(s: State, o: Id, guarded: bool)
    requires o in s.ops
  {
    guarded && s.ops[o].mandate in s.mandates && s.mandates[s.ops[o].mandate].reserved < s.ops[o].amount
  }

  /** The write of a settler, with the branches that the webhook handlers take when the reserve is too small. */
  function CloseOp(s: State, o: Id, commit: bool, guarded: bool): State
    requires o in s.ops
  {
    var op := s.ops[o];
    if commit then
      if Short(s, o, guarded) then s.(ops := s.ops[o := CommitOp(op)], mandates := Adjust(s.mandates, op.mandate, 0, op.amount, 1))
      else Commit(s, o, 1)
    else
      if Short(s, o, guarded) then Park(s, o, OpStatus.Failed) else Release(s, o)
  }

  /** The write of a worker; it does not look at the operation's status again. */
  function WritePhase(s: State, p: Phase, answer: GatewayAnswer): State
    requires p.Op() in s.ops
  {
    match p
    case Decided(o, decision) => Conclude(s, o, decision, answer)
    case Signing(o, approver, approved) => Sign(s, o, approver, approved, answer)
    case Settling(o, commit, guarded) => CloseOp(s, o, commit, guarded)
  }

  /** The row is committed: until its request writes, no other transaction finds the operation. */
  predicate Visible(s: State, o: Id) {
    o in s.ops && !s.ops[o].status.Initiated?
  }

  /** A refund event reaches an operation only by a payment reference, which settlement recorded. */
  ghost function Act(s: Shared, a: Action): Shared {
    match a
    case ReadForRequest(w, o, req, now, rateOk) =>
      if w in s.workers || o in s.db.ops || req.mandate !in s.db.mandates || req.agent !in s.db.agents then s
      else s.(db := Insert(s.db, o, req, now),
              workers := s.workers[w := Decided(o, Decide(DEFAULT_RULES, LiveQuery(s.db, req, now, rateOk)))])
    case ReadForApproval(w, o, approver, approved) =>
      if w in s.workers || o !in s.db.ops || !s.db.ops[o].status.RequiresApproval? || s.db.ops[o].mandate !in s.db.mandates
      then s
      else s.(workers := s.workers[w := Signing(o, approver, approved)])
    case ReadForSettlement(w, o, commit, guarded) =>
      if w in s.workers || o !in s.db.ops || !s.db.ops[o].InFlight() then s
      else s.(workers := s.workers[w := Settling(o, commit, guarded)])
    case Write(w, answer) =>
      if w !in s.workers || s.workers[w].Op() !in s.db.ops then s
      else s.(db := WritePhase(s.db, s.workers[w], answer), workers := s.workers - {w})
    case VerifyOp(o, payment) =>
      if Visible(s.db, o) then s.(db := Verify(s.db, o, payment, true)) else s
    case Credit(o, amount) =>
      if o in s.db.ops && s.db.ops[o].book.commits > 0 then s.(db := CreditRefund(s.db, o, amount)) else s
  }

  ghost function ActAll(s: Shared, actions: seq<Action>): Shared
    decreases |actions|
  {
    if actions == [] then s else ActAll(Act(s, actions[0]), actions[1..])
  }

  /** A request whose write follows its read at once is the atomic request of the ledger. */
  lemma UninterruptedRequest(s: Shared, w: Id, o: Id, req: OpRequest, now: int, rateOk: bool, answer: GatewayAnswer)
    requires w !in s.workers
    ensures Act(Act(s, ReadForRequest(w, o, req, now, rateOk)), Write(w, answer))
         == s.(db := Request(s.db, o, req, now, rateOk, answer))
  {
  }

  /** An approval whose write follows its read at once is the atomic approval of the ledger. */
  lemma UninterruptedApproval(s: Shared, w: Id, o: Id, approver: Id, approved: bool, answer: GatewayAnswer)
    requires w !in s.workers
    ensures Act(Act(s, ReadForApproval(w, o, approver, approved)), Write(w, answer))
         == s.(db := Approve(s.db, o, approver, approved, answer))
  {
  }

  /** A settlement whose write follows its read at once settles an operation in flight, and no other. */
  lemma UninterruptedSettlement(s: Shared, w: Id, o: Id, commit: bool, guarded: bool, answer: GatewayAnswer)
    requires w !in s.workers
    ensures Act(Act(s, ReadForSettlement(w, o, commit, guarded)), Write(w, answer))
         == if o in s.db.ops && s.db.ops[o].InFlight() then s.(db := CloseOp(s.db, o, commit, guarded)) else s
  {
  }

  // --- What holds in every interleaving ----------------------------------------------------

  predicate Known(op: Operation) {
    && TrailOk(op)
    && op.status in {Initiated, RequiresApproval, PolicyRejected, Reserved, Executing, Succeeded, OpStatus.Failed}
    && (op.status in {Initiated, RequiresApproval} ==>
          op.book.reserves == op.book.dispatches == op.book.commits == op.book.releases == op.book.refunded == 0)
  }

  ghost predicate OpShape(s: Shared, o: Id)
    requires o in s.db.ops
  {
    s.db.ops[o].mandate in s.db.mandates && Known(s.db.ops[o])
  }

  /** A requester's operation has not left its initial status while the request is pending. */
  ghost predicate Pending(s: Shared, w: Id)
    requires w in s.workers
  {
    s.workers[w].Op() in s.db.ops && (s.workers[w].Decided? <==> s.db.ops[s.workers[w].Op()].status.Initiated?)
  }

  /** Two pending requesters never share an operation. */
  ghost predicate Exclusive(s: Shared) {
    forall v, w | v in s.workers && w in s.workers && s.workers[v].Decided? && s.workers[w].Decided?
      && s.workers[v].request == s.workers[w].request :: v == w
  }

  ghost predicate ShapeOk(s: Shared) {
    && (forall o {:trigger OpShape(s, o)} | o in s.db.ops :: OpShape(s, o))
    && (forall w {:trigger Pending(s, w)} | w in s.workers :: Pending(s, w))
    && Exclusive(s)
  }

  predicate SameTask(a: Operation, b: Operation) {
    b.mandate == a.mandate && b.amount == a.amount && b.kind == a.kind
  }

  /** The write reserves the operation's amount. */
  predicate Takes(s: State, p: Phase)
    requires p.Op() in s.ops
  {
    && ((p.Decided? && p.decision.Allow?) || (p.Signing? && p.approved))
    && s.ops[p.Op()].mandate in s.mandates && s.mandates[s.ops[p.Op()].mandate].Fits(s.ops[p.Op()].amount)
  }

  /** The history goes on with the given status, which is no change if the operation has it already. */
  predicate GoesOn(a: Operation, b: Operation, next: OpStatus) {
    && a.book.trail <= b.book.trail
    && (a.status != next ==> |a.book.trail| < |b.book.trail| && b.book.trail[|a.book.trail|] == next)
    && (TrailOk(a) ==> TrailOk(b))
  }

  /** How the write of a requester or approver changes its operation, depending on whether it reserves. */
  predicate Wrote(a: Operation, b: Operation, took: bool) {
    && SameTask(a, b) && b.book.refunded == a.book.refunded
    && (if took then
          && GoesOn(a, b, Reserved)
          && b.status in {Reserved, Executing, Succeeded, OpStatus.Failed}
          && (|b.book.trail| == |a.book.trail| ==> b.status == a.status)
          && b.book.reserves == a.book.reserves + 1
          && b.book.commits == a.book.commits + (if b.status.Succeeded? then 1 else 0)
          && b.book.releases == a.book.releases + (if b.status.Failed? then 1 else 0)
        else
          && GoesOn(a, b, b.status) && b.status in {PolicyRejected, RequiresApproval}
          && b.book == a.book.(trail := b.book.trail)
          && (b.status == a.status ==> b.book.trail == a.book.trail))
  }

  /** The counters of one mandate move by the given amounts. */
  ghost predicate Shifts(ms: Mandates, ns: Mandates, m: Id, reserved: int, committed: int) {
    && m in ms && m in ns
    && ns == ms[m := ms[m].(reserved := ms[m].reserved + reserved, committed := ms[m].committed + committed,
                            version := ns[m].version)]
  }

  /** Operation o is rewritten, and its mandate's counters move by the change in its recorded movements. */
  ghost predicate Moved(s: State, t: State, o: Id)
    requires o in s.ops
  {
    && o in t.ops && t.ops == s.ops[o := t.ops[o]] && t.agents == s.agents
    && SameTask(s.ops[o], t.ops[o])
    && Shifts(s.mandates, t.mandates, s.ops[o].mandate,
              NetReserved(t.ops[o]) - NetReserved(s.ops[o]), NetCommitted(t.ops[o]) - NetCommitted(s.ops[o]))
  }

  lemma TimesStep(a: int, k: int)
    ensures a * (k + 1) == a * k + a && a * (k - 1) == a * k - a
  {
  }

  /** Each single statement moves the counters as it is recorded. */
  lemma StatementsMove(s: State, o: Id, status: OpStatus, bump: nat)
    requires o in s.ops && s.ops[o].mandate in s.mandates
    ensures Moved(s, Park(s, o, status), o) && Moved(s, Commit(s, o, bump), o) && Moved(s, Release(s, o), o)
  {
    var b := s.ops[o].book;
    TimesStep(s.ops[o].amount, b.reserves - b.commits - b.releases);
    TimesStep(s.ops[o].amount, b.commits);
  }

  /** The operation after its execution. */
  function ExecutedOp(op: Operation, answer: GatewayAnswer): Operation {
    var sent := op.(book := op.book.(dispatches := op.book.dispatches + 1));
    match op.kind
    case CapturePayment => op
    case CancelPaymentLink => op
    case CreateRefund =>
      if op.refundOf.None? then ReleaseOp(op) else if answer.Rejected? then ReleaseOp(sent) else CommitOp(sent)
    case _ => if answer.Rejected? then ReleaseOp(sent) else sent.Become(Executing)
  }

  lemma SentOps(s: State, o: Id)
    requires o in s.ops
    ensures var sent := s.ops[o].(book := s.ops[o].book.(dispatches := s.ops[o].book.dispatches + 1));
            && Release(Dispatched(s, o), o).ops == s.ops[o := ReleaseOp(sent)]
            && Commit(Dispatched(s, o), o, 0).ops == s.ops[o := CommitOp(sent)]
            && Park(Dispatched(s, o), o, Executing).ops == s.ops[o := sent.Become(Executing)]
  {
  }

  lemma ExecutedOps(s: State, o: Id, answer: GatewayAnswer)
    requires o in s.ops
    ensures Execute(s, o, answer).ops == s.ops[o := ExecutedOp(s.ops[o], answer)]
    ensures Execute(s, o, answer).agents == s.agents
  {
    SentOps(s, o);
    assert s.ops == s.ops[o := s.ops[o]];
  }

  /** Execution moves the reserved amount only by its end. */
  lemma ExecutedMandates(s: State, o: Id, answer: GatewayAnswer)
    requires o in s.ops && s.ops[o].mandate in s.mandates && s.ops[o].status.Reserved?
    ensures var a, end := s.ops[o].amount as int, ExecutedOp(s.ops[o], answer).status;
            Shifts(s.mandates, Execute(s, o, answer).mandates, s.ops[o].mandate,
                   if end.Succeeded? || end.Failed? then -a else 0, if end.Succeeded? then a else 0)
  {
    var ms, m := s.mandates, s.ops[o].mandate;
    assert ms == ms[m := ms[m].(reserved := ms[m].reserved + 0, committed := ms[m].committed + 0, version := ms[m].version)];
  }

  function ReservedOp(op: Operation): Operation {
    op.(book := op.book.(reserves := op.book.reserves + 1)).Become(Reserved)
  }

  lemma TakenOp(op: Operation, answer: GatewayAnswer)
    ensures Wrote(op, ExecutedOp(ReservedOp(op), answer), true)
  {
  }

  lemma TakenAmounts(a: Operation, b: Operation)
    requires Wrote(a, b, true)
    ensures NetReserved(b) - NetReserved(a) == if b.InFlight() then a.amount else 0
    ensures NetCommitted(b) - NetCommitted(a) == if b.status.Succeeded? then a.amount else 0
  {
    TimesStep(a.amount, a.book.reserves - a.book.commits - a.book.releases);
    TimesStep(a.amount, a.book.commits);
  }

  /** Reservation and execution rewrite the operation alone. */
  lemma TakenOps(s: State, o: Id, answer: GatewayAnswer)
    requires o in s.ops
    ensures Reserve(s, o).ops[o] == ReservedOp(s.ops[o])
    ensures Execute(Reserve(s, o), o, answer).ops == s.ops[o := ExecutedOp(ReservedOp(s.ops[o]), answer)]
    ensures Execute(Reserve(s, o), o, answer).agents == s.agents
  {
    ExecutedOps(Reserve(s, o), o, answer);
  }

  lemma TakeEffect(s: State, o: Id, answer: GatewayAnswer)
    requires o in s.ops && s.ops[o].mandate in s.mandates
    ensures Moved(s, Execute(Reserve(s, o), o, answer), o)
    ensures Wrote(s.ops[o], Execute(Reserve(s, o), o, answer).ops[o], true)
  {
    var r := Reserve(s, o);
    TakenOps(s, o, answer);
    ExecutedMandates(r, o, answer);
    TakenOp(s.ops[o], answer);
    TakenAmounts(s.ops[o], ExecutedOp(ReservedOp(s.ops[o]), answer));
  }

  /** The approver's name changes nothing that counts. */
  lemma SignedTake(s: State, o: Id, approver: Id, answer: GatewayAnswer)
    requires o in s.ops && s.ops[o].mandate in s.mandates
    ensures var u := Execute(Reserve(Signed(s, o, approver), o), o, answer);
            Moved(s, u, o) && Wrote(s.ops[o], u.ops[o], true)
  {
    TakeEffect(Signed(s, o, approver), o, answer);
  }

  lemma ParkEffect(s: State, o: Id, status: OpStatus)
    requires o in s.ops && s.ops[o].mandate in s.mandates && status in {PolicyRejected, RequiresApproval}
    ensures Moved(s, Park(s, o, status), o) && Wrote(s.ops[o], Park(s, o, status).ops[o], false)
  {
    StatementsMove(s, o, status, 0);
  }

  /** The database as a write that reserves finds it. */
  function Taker(s: State, p: Phase): State
    requires p.Op() in s.ops
  {
    if p.Signing? then Signed(s, p.Op(), p.approver) else s
  }

  lemma WriteTakesBy(s: State, p: Phase, answer: GatewayAnswer)
    requires p.Op() in s.ops && Takes(s, p)
    ensures WritePhase(s, p, answer) == Execute(Reserve(Taker(s, p), p.Op()), p.Op(), answer)
  {
  }

  lemma WriteParks(s: State, p: Phase, answer: GatewayAnswer)
    requires p.Op() in s.ops && !Takes(s, p) && !p.Settling?
    ensures WritePhase(s, p, answer)
         == Park(s, p.Op(), if p.Decided? && p.decision.RequireHumanReview? then RequiresApproval else PolicyRejected)
  {
  }

  /** What the write of a requester or approver does. */
  lemma WriteEffect(s: State, p: Phase, answer: GatewayAnswer)
    requires p.Op() in s.ops && s.ops[p.Op()].mandate in s.mandates && !p.Settling?
    ensures Moved(s, WritePhase(s, p, answer), p.Op())
    ensures Wrote(s.ops[p.Op()], WritePhase(s, p, answer).ops[p.Op()], Takes(s, p))
    ensures p.Signing? ==> !WritePhase(s, p, answer).ops[p.Op()].status.RequiresApproval?
  {
    var o := p.Op();
    if Takes(s, p) {
      WriteTakesBy(s, p, answer);
      if p.Signing? {
        SignedTake(s, o, p.approver, answer);
      } else {
        TakeEffect(s, o, answer);
      }
    } else {
      WriteParks(s, p, answer);
      ParkEffect(s, o, if p.Decided? && p.decision.RequireHumanReview? then RequiresApproval else PolicyRejected);
    }
  }

  /**
   * A later version of an operation: its history is no shorter and no count falls. Unless it is
   * reserved, it is reserved again only by a longer history.
   */
  predicate Evolves(a: Operation, b: Operation) {
    && SameTask(a, b) && a.book.trail <= b.book.trail
    && a.book.reserves <= b.book.reserves && a.book.commits <= b.book.commits && a.book.releases <= b.book.releases
    && (|a.book.trail| == |b.book.trail| ==> b.status == a.status && (a.status.Reserved? || b.book.reserves == a.book.reserves))
  }

  /** The operation of the action, if it is about one that exists. */
  function Subject(s: Shared, a: Action): Option<Id> {
    match a
    case ReadForRequest(_, _, _, _, _) => None
    case ReadForApproval(_, _, _, _) => None
    case ReadForSettlement(_, _, _, _) => None
    case Write(w, _) => if w in s.workers then Some(s.workers[w].Op()) else None
    case VerifyOp(o, _) => Some(o)
    case Credit(o, _) => Some(o)
  }

  /** t is s after operation o evolved; no other operation changed. */
  ghost predicate OneEvolves(s: State, t: State, o: Id) {
    && o in s.ops && o in t.ops && t.ops == s.ops[o := t.ops[o]] && t.mandates.Keys == s.mandates.Keys
    && Evolves(s.ops[o], t.ops[o]) && Known(t.ops[o])
  }

  lemma WriteEvolves(s: Shared, w: Id, answer: GatewayAnswer)
    requires ShapeOk(s) && w in s.workers
    ensures var o, t := s.workers[w].Op(), Act(s, Write(w, answer)).db;
            OneEvolves(s.db, t, o) && !t.ops[o].status.Initiated?
  {
    assert Pending(s, w);
    assert OpShape(s, s.workers[w].Op());
    match s.workers[w]
    case Settling(o, commit, guarded) => CloseEvolves(s.db, o, commit, guarded);
    case _ => WriteEffect(s.db, s.workers[w], answer);
  }

  lemma CloseEvolves(s: State, o: Id, commit: bool, guarded: bool)
    requires o in s.ops && Known(s.ops[o])
    ensures OneEvolves(s, CloseOp(s, o, commit, guarded), o)
    ensures CloseOp(s, o, commit, guarded).ops[o].status == if commit then Succeeded else OpStatus.Failed
  {
  }

  lemma VerifyEvolves(s: State, o: Id, payment: Id)
    requires o in s.ops && Known(s.ops[o])
    ensures OneEvolves(s, Verify(s, o, payment, true), o)
    ensures Verify(s, o, payment, true).ops[o] == CommitOp(s.ops[o])
  {
  }

  lemma CreditEvolves(s: State, o: Id, amount: int)
    requires o in s.ops && Known(s.ops[o]) && s.ops[o].book.commits > 0
    ensures OneEvolves(s, CreditRefund(s, o, amount), o)
    ensures CreditRefund(s, o, amount).ops[o].status == s.ops[o].status
  {
  }

  /** How an action treats the operation it is about. */
  lemma SubjectStep(s: Shared, a: Action, o: Id)
    requires ShapeOk(s) && o in s.db.ops && Subject(s, a) == Some(o)
    ensures OneEvolves(s.db, Act(s, a).db, o)
    ensures if a.Write? then !Act(s, a).db.ops[o].status.Initiated?
            else s.db.ops[o].status.Initiated? <==> Act(s, a).db.ops[o].status.Initiated?
  {
    assert OpShape(s, o);
    assert s.db.ops == s.db.ops[o := s.db.ops[o]];
    match a
    case Write(w, answer) => WriteEvolves(s, w, answer);
    case VerifyOp(_, payment) => VerifyEvolves(s.db, o, payment);
    case Credit(_, amount) =>
      if s.db.ops[o].book.commits > 0 {
        CreditEvolves(s.db, o, amount);
      }
  }

  /** Actions without a subject at most add an operation. */
  lemma ReadStep(s: Shared, a: Action)
    requires Subject(s, a).None? || Subject(s, a).value !in s.db.ops
    ensures var t := Act(s, a).db;
            && t.mandates == s.db.mandates
            && (t == s.db || (a.ReadForRequest? && a.op !in s.db.ops && a.req.mandate in s.db.mandates && t == Insert(s.db, a.op, a.req, a.now)))
  {
  }

  lemma ActKeepsShape(s: Shared, a: Action)
    requires ShapeOk(s)
    ensures ShapeOk(Act(s, a))
  {
    var t := Act(s, a);
    if Subject(s, a).Some? && Subject(s, a).value in s.db.ops {
      SubjectStep(s, a, Subject(s, a).value);
    } else {
      ReadStep(s, a);
    }
    forall o | o in t.db.ops ensures OpShape(t, o) {
      if o in s.db.ops {
        assert OpShape(s, o);
      }
    }
    forall w | w in t.workers ensures Pending(t, w) {
      if w in s.workers {
        assert Pending(s, w);
        if a.Write? && a.worker in s.workers {
          assert Pending(s, a.worker);
        }
      }
    }
    ExclusiveStep(s, a);
  }

  lemma ExclusiveStep(s: Shared, a: Action)
    requires ShapeOk(s)
    ensures Exclusive(Act(s, a))
  {
    forall w | w in s.workers ensures s.workers[w].Op() in s.db.ops {
      assert Pending(s, w);
    }
  }
}
