/**
 * What the counters amount to in every interleaving: the sums of the recorded movements, within
 * the limit as long as only operations in flight are settled and refunds are fair.
 */
module Accounts {
  import opened Domain
  import opened Sums
  import opened Ledger
  import opened Books
  import opened Interleaving

  /** Reservations of the operation that were neither committed nor released. */
  function Outstanding(op: Operation): int {
    op.book.reserves - op.book.commits - op.book.releases
  }

  /** An operation in flight has an outstanding reservation, and one that succeeded was committed. */
  predicate OpenOk(op: Operation) {
    && (if op.InFlight() then 1 else 0) <= Outstanding(op)
    && (if op.status.Succeeded? then 1 else 0) <= op.book.commits
  }

  /** The counters of a mandate are the sums of all recorded movements. */
  ghost predicate Accounted(s: State, m: Id)
    requires m in s.mandates
  {
    s.mandates[m].reserved == Tally(s.ops, m, NetReserved) && s.mandates[m].committed == Tally(s.ops, m, NetCommitted)
  }

  ghost predicate AccountsOk(s: State) {
    && (forall o {:trigger OpenOk(s.ops[o])} | o in s.ops :: OpenOk(s.ops[o]))
    && (forall m {:trigger Accounted(s, m)} | m in s.mandates :: Accounted(s, m))
  }

  /** The handler would release an operation that has failed already, but finds the reserve too small: nothing happens. */
  predicate Idle(s: State, p: Phase)
    requires p.Op() in s.ops
  {
    p.Settling? && !p.commit && s.ops[p.settled].status.Failed? && Short(s, p.settled, p.guarded)
  }

  /** A payment is verified for an operation that is not in flight. */
  predicate StrayVerification(s: Shared, a: Action) {
    a.VerifyOp? && Visible(s.db, a.op) && !s.db.ops[a.op].InFlight()
  }

  /** A settler writes on an operation that is no longer in flight. */
  predicate StaleSettlement(s: Shared, a: Action) {
    && a.Write? && a.worker in s.workers && s.workers[a.worker].Settling?
    && s.workers[a.worker].settled in s.db.ops && !s.db.ops[s.workers[a.worker].settled].InFlight()
    && !Idle(s.db, s.workers[a.worker])
  }

  /** The action settles an operation that is not in flight. */
  predicate Stray(s: Shared, a: Action) {
    StrayVerification(s, a) || StaleSettlement(s, a)
  }

  lemma IdleWrite(s: State, p: Phase, answer: GatewayAnswer)
    requires p.Op() in s.ops && Idle(s, p)
    ensures WritePhase(s, p, answer) == s
  {
    assert s.ops == s.ops[p.settled := s.ops[p.settled]];
  }

  lemma MovedAccounts(s: State, t: State, o: Id)
    requires AccountsOk(s) && o in s.ops && Moved(s, t, o) && OpenOk(t.ops[o])
    ensures AccountsOk(t)
  {
    forall m | m in t.mandates ensures Accounted(t, m) {
      assert Accounted(s, m);
      TallyUpdate(s.ops, o, t.ops[o], m, NetReserved);
      TallyUpdate(s.ops, o, t.ops[o], m, NetCommitted);
    }
    forall x | x in t.ops ensures OpenOk(t.ops[x]) {
      assert x != o ==> OpenOk(s.ops[x]);
    }
  }

  lemma TimesMonotone(a: nat, k: int, j: int)
    requires j <= k
    ensures a * j <= a * k
  {
  }

  /** The recorded movements of an operation are at least what its status shows. */
  lemma NetCovers(op: Operation)
    requires OpenOk(op)
    ensures HeldOf(op) <= NetReserved(op) && SpentOf(op) <= NetCommitted(op)
    ensures Outstanding(op) > (if op.InFlight() then 1 else 0) ==> HeldOf(op) < NetReserved(op)
    ensures op.book.commits > (if op.status.Succeeded? then 1 else 0) ==> SpentOf(op) < NetCommitted(op)
  {
    var held, spent := if op.InFlight() then 1 else 0, if op.status.Succeeded? then 1 else 0;
    TimesMonotone(op.amount, Outstanding(op), held);
    TimesMonotone(op.amount, op.book.commits, spent);
    if Outstanding(op) > held {
      TimesMonotone(op.amount, Outstanding(op), held + 1);
    }
    if op.book.commits > spent {
      TimesMonotone(op.amount, op.book.commits, spent + 1);
    }
  }

  /** The reserve covers every operation in flight, so the handlers never find it too small. */
  lemma ReserveCovers(s: State, o: Id)
    requires AccountsOk(s) && o in s.ops && s.ops[o].InFlight() && s.ops[o].mandate in s.mandates
    ensures s.ops[o].amount <= s.mandates[s.ops[o].mandate].reserved
  {
    var m := s.ops[o].mandate;
    assert Accounted(s, m);
    forall x | x in s.ops ensures 0 <= NetReserved(s.ops[x]) {
      assert OpenOk(s.ops[x]);
      NetCovers(s.ops[x]);
    }
    TallyNonNegative(s.ops, m, NetReserved);
    assert OpenOk(s.ops[o]);
    NetCovers(s.ops[o]);
  }

  lemma InsertAccounts(s: State, o: Id, req: OpRequest, now: int)
    requires AccountsOk(s) && o !in s.ops
    ensures AccountsOk(Insert(s, o, req, now))
  {
    var t := Insert(s, o, req, now);
    forall m | m in t.mandates ensures Accounted(t, m) {
      assert Accounted(s, m);
      TallyUpdate(s.ops, o, t.ops[o], m, NetReserved);
      TallyUpdate(s.ops, o, t.ops[o], m, NetCommitted);
    }
    forall x | x in t.ops ensures OpenOk(t.ops[x]) {
      assert x != o ==> OpenOk(s.ops[x]);
    }
  }

  lemma CloseMoves(s: State, o: Id, commit: bool, guarded: bool)
    requires AccountsOk(s) && o in s.ops && s.ops[o].InFlight() && s.ops[o].mandate in s.mandates
    ensures CloseOp(s, o, commit, guarded) == if commit then Commit(s, o, 1) else Release(s, o)
    ensures Moved(s, CloseOp(s, o, commit, guarded), o) && OpenOk(CloseOp(s, o, commit, guarded).ops[o])
  {
    ReserveCovers(s, o);
    StatementsMove(s, o, Succeeded, 1);
    assert OpenOk(s.ops[o]);
  }

  lemma VerifyMoves(s: State, o: Id, payment: Id)
    requires AccountsOk(s) && o in s.ops && s.ops[o].InFlight() && s.ops[o].mandate in s.mandates
    ensures Moved(s, Verify(s, o, payment, true), o) && OpenOk(Verify(s, o, payment, true).ops[o])
  {
    StatementsMove(s, o, Succeeded, 1);
    assert OpenOk(s.ops[o]);
  }

  lemma CreditMoves(s: State, o: Id, amount: int)
    requires o in s.ops && s.ops[o].mandate in s.mandates
    ensures Moved(s, CreditRefund(s, o, amount), o) && Outstanding(CreditRefund(s, o, amount).ops[o]) == Outstanding(s.ops[o])
  {
  }

  lemma WriteMoves(s: Shared, w: Id, answer: GatewayAnswer)
    requires ShapeOk(s) && AccountsOk(s.db) && w in s.workers && !Stray(s, Write(w, answer))
    requires s.workers[w].Op() in s.db.ops
    ensures var o, t := s.workers[w].Op(), WritePhase(s.db, s.workers[w], answer);
            t == s.db || (Moved(s.db, t, o) && OpenOk(t.ops[o]))
  {
    var p := s.workers[w];
    assert OpShape(s, p.Op()) && OpenOk(s.db.ops[p.Op()]);
    if !p.Settling? {
      WriteEffect(s.db, p, answer);
    } else if s.db.ops[p.settled].InFlight() {
      CloseMoves(s.db, p.settled, p.commit, p.guarded);
    } else {
      IdleWrite(s.db, p, answer);
    }
  }

  /** Every action but a settlement of an operation not in flight moves the counters as it is recorded. */
  lemma SubjectMoves(s: Shared, a: Action, o: Id)
    requires ShapeOk(s) && AccountsOk(s.db) && !Stray(s, a)
    requires o in s.db.ops && Subject(s, a) == Some(o)
    ensures Act(s, a).db == s.db || (Moved(s.db, Act(s, a).db, o) && OpenOk(Act(s, a).db.ops[o]))
  {
    assert OpShape(s, o) && OpenOk(s.db.ops[o]);
    match a
    case Write(w, answer) => WriteMoves(s, w, answer);
    case VerifyOp(_, payment) =>
      if Visible(s.db, o) {
        VerifyMoves(s.db, o, payment);
      }
    case Credit(_, amount) => CreditMoves(s.db, o, amount);
  }

  lemma ActKeepsAccounts(s: Shared, a: Action)
    requires ShapeOk(s) && AccountsOk(s.db) && !Stray(s, a)
    ensures AccountsOk(Act(s, a).db)
  {
    if Subject(s, a).Some? && Subject(s, a).value in s.db.ops {
      var o := Subject(s, a).value;
      SubjectMoves(s, a, o);
      if Act(s, a).db != s.db {
        MovedAccounts(s.db, Act(s, a).db, o);
      }
    } else {
      ReadStep(s, a);
      if Act(s, a).db != s.db {
        InsertAccounts(s.db, a.op, a.req, a.now);
      }
    }
  }

  // --- No overspend ------------------------------------------------------------------------

  predicate RefundsOk(op: Operation) {
    0 <= op.book.refunded <= op.amount * op.book.commits
  }

  ghost predicate LimitsOk(s: State) {
    && (forall o {:trigger RefundsOk(s.ops[o])} | o in s.ops :: RefundsOk(s.ops[o]))
    && (forall m {:trigger WithinLimit(s.mandates[m])} | m in s.mandates :: WithinLimit(s.mandates[m]))
  }

  /** A refund event credits more than is left of what the operation committed. */
  predicate Overcredits(s: Shared, a: Action) {
    && a.Credit? && a.op in s.db.ops && s.db.ops[a.op].book.commits > 0
    && !(0 <= a.amount <= s.db.ops[a.op].amount * s.db.ops[a.op].book.commits - s.db.ops[a.op].book.refunded)
  }

  /** The run settles operations in flight only, and no refund is excessive. */
  ghost predicate Tame(s: Shared, actions: seq<Action>)
    decreases |actions|
  {
    actions == [] || (!Stray(s, actions[0]) && !Overcredits(s, actions[0]) && Tame(Act(s, actions[0]), actions[1..]))
  }

  /** The change in committed plus reserved. */
  ghost function Taken(a: Operation, b: Operation): int {
    NetReserved(b) - NetReserved(a) + NetCommitted(b) - NetCommitted(a)
  }

  /** The rewritten operation is not refunded too far, and takes budget only where there is room. */
  ghost predicate TakesRoom(s: State, t: State, o: Id)
    requires o in s.ops && s.ops[o].mandate in s.mandates
  {
    && o in t.ops && RefundsOk(t.ops[o])
    && (Taken(s.ops[o], t.ops[o]) <= 0 || s.mandates[s.ops[o].mandate].Fits(Taken(s.ops[o], t.ops[o])))
  }

  lemma WriteTakes(s: Shared, w: Id, answer: GatewayAnswer)
    requires ShapeOk(s) && w in s.workers && !s.workers[w].Settling? && LimitsOk(s.db)
    requires s.workers[w].Op() in s.db.ops && s.db.ops[s.workers[w].Op()].mandate in s.db.mandates
    ensures TakesRoom(s.db, Act(s, Write(w, answer)).db, s.workers[w].Op())
  {
    var o := s.workers[w].Op();
    assert Pending(s, w);
    assert OpShape(s, o) && RefundsOk(s.db.ops[o]);
    WriteEffect(s.db, s.workers[w], answer);
    var b := WritePhase(s.db, s.workers[w], answer).ops[o];
    TimesMonotone(b.amount, b.book.commits, s.db.ops[o].book.commits);
    if Takes(s.db, s.workers[w]) {
      TakenAmounts(s.db.ops[o], b);
    }
  }

  lemma CommitTakes(op: Operation)
    requires RefundsOk(op)
    ensures Taken(op, CommitOp(op)) == 0 && RefundsOk(CommitOp(op))
    ensures Taken(op, ReleaseOp(op)) <= 0 && RefundsOk(ReleaseOp(op))
  {
    TimesStep(op.amount, op.book.reserves - op.book.commits - op.book.releases);
    TimesStep(op.amount, op.book.commits);
  }

  lemma CreditTakes(s: State, o: Id, amount: int)
    requires o in s.ops && s.ops[o].mandate in s.mandates && RefundsOk(s.ops[o])
    requires 0 <= amount <= s.ops[o].amount * s.ops[o].book.commits - s.ops[o].book.refunded
    ensures TakesRoom(s, CreditRefund(s, o, amount), o)
  {
  }

  lemma SubjectTakes(s: Shared, a: Action, o: Id)
    requires ShapeOk(s) && AccountsOk(s.db) && LimitsOk(s.db) && !Stray(s, a) && !Overcredits(s, a)
    requires o in s.db.ops && Subject(s, a) == Some(o) && s.db.ops[o].mandate in s.db.mandates
    ensures Act(s, a).db == s.db || TakesRoom(s.db, Act(s, a).db, o)
  {
    assert RefundsOk(s.db.ops[o]);
    CommitTakes(s.db.ops[o]);
    match a
    case Write(w, answer) =>
      var p := s.workers[w];
      if !p.Settling? {
        WriteTakes(s, w, answer);
      } else if s.db.ops[o].InFlight() {
        CloseMoves(s.db, o, p.commit, p.guarded);
      } else {
        IdleWrite(s.db, p, answer);
      }
    case VerifyOp(_, payment) =>
    case Credit(_, amount) =>
      if s.db.ops[o].book.commits > 0 {
        CreditTakes(s.db, o, amount);
      }
  }

  lemma ActKeepsLimits(s: Shared, a: Action)
    requires ShapeOk(s) && AccountsOk(s.db) && LimitsOk(s.db) && !Stray(s, a) && !Overcredits(s, a)
    ensures LimitsOk(Act(s, a).db)
  {
    var t := Act(s, a).db;
    if t != s.db {
      if Subject(s, a).Some? && Subject(s, a).value in s.db.ops {
        var o := Subject(s, a).value;
        assert OpShape(s, o);
        SubjectMoves(s, a, o);
        SubjectTakes(s, a, o);
      } else {
        ReadStep(s, a);
      }
      forall o | o in t.ops ensures RefundsOk(t.ops[o]) {
        assert o in s.db.ops ==> RefundsOk(s.db.ops[o]);
      }
      forall m | m in t.mandates ensures WithinLimit(t.mandates[m]) {
        assert WithinLimit(s.db.mandates[m]);
      }
    }
  }

  /** What a mandate holds in reserve beyond its operations in flight. */
  ghost function Slack(s: State, m: Id): int
    requires m in s.mandates
  {
    s.mandates[m].reserved - Tally(s.ops, m, HeldOf)
  }

  /** What an approver's write on an operation already in flight adds to the slack of mandate m. */
  function RaceCost(s: Shared, a: Action, m: Id): int {
    if a.Write? && a.worker in s.workers && !s.workers[a.worker].Settling? && s.workers[a.worker].Op() in s.db.ops
       && s.db.ops[s.workers[a.worker].Op()].InFlight() && s.db.ops[s.workers[a.worker].Op()].mandate == m
    then s.db.ops[s.workers[a.worker].Op()].amount
    else 0
  }

  ghost function TotalRaceCost(s: Shared, actions: seq<Action>, m: Id): int
    decreases |actions|
  {
    if actions == [] then 0
    else RaceCost(s, actions[0], m) + TotalRaceCost(Act(s, actions[0]), actions[1..], m)
  }

  /** How far the recorded reserve of an operation exceeds what it holds. */
  function Excess(op: Operation): int {
    NetReserved(op) - HeldOf(op)
  }

  lemma WriteExcess(a: Operation, b: Operation, took: bool)
    requires Wrote(a, b, took)
    ensures Excess(b) == Excess(a) + if a.InFlight() then a.amount else 0
  {
    if took {
      TakenAmounts(a, b);
    }
  }

  lemma ClosedExcess(op: Operation)
    ensures op.InFlight() ==> Excess(CommitOp(op)) == Excess(op) && Excess(ReleaseOp(op)) == Excess(op)
  {
    TimesStep(op.amount, Outstanding(op));
  }

  lemma WriterExcess(s: Shared, w: Id, answer: GatewayAnswer)
    requires ShapeOk(s) && AccountsOk(s.db) && w in s.workers && !Stray(s, Write(w, answer))
    requires s.workers[w].Op() in s.db.ops
    ensures var o, t := s.workers[w].Op(), WritePhase(s.db, s.workers[w], answer);
            o in t.ops && Excess(t.ops[o]) == Excess(s.db.ops[o]) + RaceCost(s, Write(w, answer), s.db.ops[o].mandate)
  {
    var p := s.workers[w];
    assert OpShape(s, p.Op());
    if !p.Settling? {
      WriteEffect(s.db, p, answer);
      WriteExcess(s.db.ops[p.Op()], WritePhase(s.db, p, answer).ops[p.Op()], Takes(s.db, p));
    } else if s.db.ops[p.settled].InFlight() {
      CloseMoves(s.db, p.settled, p.commit, p.guarded);
      ClosedExcess(s.db.ops[p.settled]);
    } else {
      IdleWrite(s.db, p, answer);
    }
  }

  lemma SubjectExcess(s: Shared, a: Action, o: Id)
    requires ShapeOk(s) && AccountsOk(s.db) && !Stray(s, a)
    requires o in s.db.ops && Subject(s, a) == Some(o)
    ensures o in Act(s, a).db.ops
    ensures Excess(Act(s, a).db.ops[o]) == Excess(s.db.ops[o]) + RaceCost(s, a, s.db.ops[o].mandate)
  {
    assert OpShape(s, o);
    var op := s.db.ops[o];
    ClosedExcess(op);
    match a
    case Write(w, answer) => WriterExcess(s, w, answer);
    case VerifyOp(_, payment) =>
    case Credit(_, amount) =>
  }

  lemma SlackStep(s: Shared, a: Action, m: Id)
    requires ShapeOk(s) && AccountsOk(s.db) && !Stray(s, a) && m in s.db.mandates
    ensures m in Act(s, a).db.mandates
    ensures Slack(Act(s, a).db, m) == Slack(s.db, m) + RaceCost(s, a, m)
  {
    var t := Act(s, a).db;
    ActKeepsAccounts(s, a);
    assert Accounted(s.db, m);
    if Subject(s, a).Some? && Subject(s, a).value in s.db.ops {
      var o := Subject(s, a).value;
      SubjectStep(s, a, o);
      SubjectExcess(s, a, o);
      TallyUpdate(s.db.ops, o, t.ops[o], m, NetReserved);
      TallyUpdate(s.db.ops, o, t.ops[o], m, HeldOf);
      assert Accounted(t, m);
    } else {
      ReadStep(s, a);
      if t != s.db {
        TallyUpdate(s.db.ops, a.op, t.ops[a.op], m, HeldOf);
      }
    }
  }

  /** What the accounts of one mandate amount to. */
  lemma AccountsMean(s: State, m: Id)
    requires AccountsOk(s) && LimitsOk(s) && m in s.mandates
    ensures 0 <= s.mandates[m].committed && s.mandates[m].committed + s.mandates[m].reserved <= s.mandates[m].limit
    ensures 0 <= Tally(s.ops, m, HeldOf) <= s.mandates[m].reserved
    ensures forall o | o in s.ops && s.ops[o].mandate == m && s.ops[o].InFlight() :: s.ops[o].amount <= s.mandates[m].reserved
  {
    assert Accounted(s, m) && WithinLimit(s.mandates[m]);
    forall o | o in s.ops ensures HeldOf(s.ops[o]) <= NetReserved(s.ops[o]) && 0 <= NetCommitted(s.ops[o]) {
      assert OpenOk(s.ops[o]) && RefundsOk(s.ops[o]);
      NetCovers(s.ops[o]);
    }
    TallyNonNegative(s.ops, m, NetCommitted);
    TallyNonNegative(s.ops, m, HeldOf);
    SumMonotone(Weights(s.ops, m, HeldOf), Weights(s.ops, m, NetReserved));
    forall o | o in s.ops && s.ops[o].mandate == m && s.ops[o].InFlight() ensures s.ops[o].amount <= s.mandates[m].reserved {
      ReserveCovers(s, o);
    }
  }

  /**
   * No overspend under any interleaving of reads, writes, settlements and verifications of
   * operations in flight and refunds within what was committed, races among approvers included:
   * committed plus reserved stays within the limit, the counters are the sums of the recorded
   * movements, and the reserve covers every operation in flight, so that the handlers' branches
   * for a reserve that is too small stay dead. Beyond the operations in flight the reserve grows
   * by exactly the raced amounts.
   */
  lemma {:induction false} NoOverspend(s: Shared, actions: seq<Action>, m: Id)
    requires ShapeOk(s) && AccountsOk(s.db) && LimitsOk(s.db) && Tame(s, actions) && m in s.db.mandates
    ensures var t := ActAll(s, actions).db;
            && AccountsOk(t) && m in t.mandates
            && 0 <= t.mandates[m].committed && t.mandates[m].committed + t.mandates[m].reserved <= t.mandates[m].limit
            && 0 <= Tally(t.ops, m, HeldOf) <= t.mandates[m].reserved
            && (forall o | o in t.ops && t.ops[o].mandate == m && t.ops[o].InFlight() :: t.ops[o].amount <= t.mandates[m].reserved)
            && Slack(t, m) == Slack(s.db, m) + TotalRaceCost(s, actions, m)
    decreases |actions|
  {
    if actions == [] {
      AccountsMean(s.db, m);
    } else {
      ActKeepsShape(s, actions[0]);
      ActKeepsAccounts(s, actions[0]);
      ActKeepsLimits(s, actions[0]);
      SlackStep(s, actions[0], m);
      NoOverspend(Act(s, actions[0]), actions[1..], m);
    }
  }
}
