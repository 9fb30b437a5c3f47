/**
 * When is an operation committed exactly once or released exactly once? Over every interleaving
 * of reads, writes, settlements, payment verifications and refunds, this module gives the exact
 * conditions.
 */
module ExactlyOnce {
  import opened Domain
  import opened Sums
  import opened Lifecycle
  import opened Ledger
  import opened Books
  import opened Machine
  import opened Interleaving
  import opened Accounts

  // --- The whole promise -------------------------------------------------------------------

  /**
   * Every operation is at a consistent stage (reserved and dispatched at most once, then either
   * held, committed once or released once, by a history that follows the matrix), and every
   * counter equals the sum over the operations.
   */
  ghost predicate AllRegular(s: State) {
    && (forall o {:trigger StageOk(s.ops[o])} | o in s.ops :: StageOk(s.ops[o]))
    && (forall m {:trigger Balanced(s, m)} | m in s.mandates :: Balanced(s, m))
  }

  /**
   * An approver writes on an operation that no longer awaits approval, except that it may reject
   * one that is rejected already.
   */
  predicate Stale(s: Shared, a: Action) {
    && a.Write? && a.worker in s.workers && s.workers[a.worker].Signing?
    && s.workers[a.worker].approval in s.db.ops && !s.db.ops[s.workers[a.worker].approval].status.RequiresApproval?
    && (s.db.ops[s.workers[a.worker].approval].status.PolicyRejected? ==> Takes(s.db, s.workers[a.worker]))
  }

  /** What the guards that the code does not have would stop: a second look at the operation's status before the write. */
  predicate Irregular(s: Shared, a: Action) {
    Stale(s, a) || Stray(s, a)
  }

  ghost predicate SomeIrregular(s: Shared, actions: seq<Action>)
    decreases |actions|
  {
    actions != [] && (Irregular(s, actions[0]) || SomeIrregular(Act(s, actions[0]), actions[1..]))
  }

  // --- Regular actions ---------------------------------------------------------------------

  lemma ReservedStage(op: Operation)
    requires StageOk(op) && op.status in {Initiated, RequiresApproval}
    ensures StageOk(ReservedOp(op))
  {
    BecomeChain(op, Reserved);
  }

  lemma ExecutedStage(op: Operation, answer: GatewayAnswer)
    requires StageOk(op) && op.status.Reserved?
    ensures StageOk(ExecutedOp(op, answer))
  {
    var sent := op.(book := op.book.(dispatches := op.book.dispatches + 1));
    BecomeChain(op, OpStatus.Failed);
    BecomeChain(sent, OpStatus.Failed);
    BecomeChain(sent, Succeeded);
    BecomeChain(sent, Executing);
  }

  lemma TakenStage(s: State, o: Id, answer: GatewayAnswer)
    requires o in s.ops && StageOk(s.ops[o]) && s.ops[o].status in {Initiated, RequiresApproval}
    ensures StageOk(Execute(Reserve(s, o), o, answer).ops[o])
  {
    TakenOps(s, o, answer);
    ReservedStage(s.ops[o]);
    ExecutedStage(ReservedOp(s.ops[o]), answer);
  }

  lemma ParkedStage(op: Operation, status: OpStatus)
    requires StageOk(op) && op.status in {Initiated, RequiresApproval}
    requires status in {PolicyRejected, RequiresApproval} && status != op.status
    ensures StageOk(op.Become(status))
  {
    BecomeChain(op, status);
  }

  lemma TakingStage(s: State, p: Phase, answer: GatewayAnswer)
    requires p.Op() in s.ops && StageOk(s.ops[p.Op()]) && s.ops[p.Op()].status in {Initiated, RequiresApproval}
    requires Takes(s, p)
    ensures p.Op() in WritePhase(s, p, answer).ops && StageOk(WritePhase(s, p, answer).ops[p.Op()])
  {
    WriteTakesBy(s, p, answer);
    TakenStage(Taker(s, p), p.Op(), answer);
  }

  lemma ParkingStage(s: State, p: Phase, answer: GatewayAnswer)
    requires p.Op() in s.ops && StageOk(s.ops[p.Op()]) && !p.Settling?
    requires if p.Decided? then s.ops[p.Op()].status.Initiated? else s.ops[p.Op()].status in {RequiresApproval, PolicyRejected}
    requires !Takes(s, p)
    ensures p.Op() in WritePhase(s, p, answer).ops && StageOk(WritePhase(s, p, answer).ops[p.Op()])
  {
    var status := if p.Decided? && p.decision.RequireHumanReview? then RequiresApproval else PolicyRejected;
    WriteParks(s, p, answer);
    if status != s.ops[p.Op()].status {
      ParkedStage(s.ops[p.Op()], status);
    }
  }

  lemma SettlingStage(s: State, p: Phase, answer: GatewayAnswer)
    requires AccountsOk(s) && p.Settling? && p.settled in s.ops && s.ops[p.settled].mandate in s.mandates
    requires StageOk(s.ops[p.settled]) && (s.ops[p.settled].InFlight() || Idle(s, p))
    ensures p.settled in WritePhase(s, p, answer).ops && StageOk(WritePhase(s, p, answer).ops[p.settled])
  {
    if s.ops[p.settled].InFlight() {
      CloseMoves(s, p.settled, p.commit, p.guarded);
      ClosedStage(s.ops[p.settled]);
    } else {
      IdleWrite(s, p, answer);
    }
  }

  lemma WriteStage(s: Shared, w: Id, answer: GatewayAnswer)
    requires ShapeOk(s) && AccountsOk(s.db) && w in s.workers && !Irregular(s, Write(w, answer))
    requires s.workers[w].Op() in s.db.ops && StageOk(s.db.ops[s.workers[w].Op()])
    ensures s.workers[w].Op() in WritePhase(s.db, s.workers[w], answer).ops
    ensures StageOk(WritePhase(s.db, s.workers[w], answer).ops[s.workers[w].Op()])
  {
    assert Pending(s, w);
    assert OpShape(s, s.workers[w].Op());
    if s.workers[w].Settling? {
      SettlingStage(s.db, s.workers[w], answer);
    } else if Takes(s.db, s.workers[w]) {
      TakingStage(s.db, s.workers[w], answer);
    } else {
      ParkingStage(s.db, s.workers[w], answer);
    }
  }

  lemma ClosedStage(op: Operation)
    requires StageOk(op) && op.InFlight()
    ensures StageOk(CommitOp(op)) && StageOk(ReleaseOp(op))
  {
    BecomeChain(op, Succeeded);
    BecomeChain(op, OpStatus.Failed);
  }

  lemma SubjectStage(s: Shared, a: Action, o: Id)
    requires ShapeOk(s) && AccountsOk(s.db) && !Irregular(s, a)
    requires o in s.db.ops && Subject(s, a) == Some(o) && StageOk(s.db.ops[o])
    ensures o in Act(s, a).db.ops && StageOk(Act(s, a).db.ops[o])
  {
    assert OpShape(s, o);
    match a
    case Write(w, answer) => WriteStage(s, w, answer);
    case VerifyOp(_, payment) =>
      if Visible(s.db, o) {
        ClosedStage(s.db.ops[o]);
      }
    case Credit(_, amount) =>
  }

  ghost predicate StagesOk(s: State) {
    forall o {:trigger StageOk(s.ops[o])} | o in s.ops :: StageOk(s.ops[o])
  }

  lemma RegularStep(s: Shared, a: Action)
    requires ShapeOk(s) && AccountsOk(s.db) && StagesOk(s.db) && !Irregular(s, a)
    ensures StagesOk(Act(s, a).db)
  {
    var t := Act(s, a).db;
    if Subject(s, a).Some? && Subject(s, a).value in s.db.ops {
      SubjectStep(s, a, Subject(s, a).value);
      SubjectStage(s, a, Subject(s, a).value);
    } else {
      ReadStep(s, a);
    }
    forall o | o in t.ops ensures StageOk(t.ops[o]) {
      assert o in s.db.ops ==> StageOk(s.db.ops[o]);
    }
  }

  /** At consistent stages the recorded movements are what the statuses show. */
  lemma StagesBalance(s: State, m: Id)
    requires StagesOk(s) && m in s.mandates
    ensures Accounted(s, m) <==> Balanced(s, m)
  {
    forall o | o in s.ops ensures NetReserved(s.ops[o]) == HeldOf(s.ops[o]) && NetCommitted(s.ops[o]) == SpentOf(s.ops[o]) {
      assert StageOk(s.ops[o]);
      MovementsOf(s.ops[o]);
    }
    SameTally(s.ops, m, NetReserved, HeldOf);
    SameTally(s.ops, m, NetCommitted, SpentOf);
  }

  lemma RegularAccounts(s: State)
    requires AllRegular(s)
    ensures AccountsOk(s) && StagesOk(s)
  {
    forall m | m in s.mandates ensures Accounted(s, m) {
      assert Balanced(s, m);
      StagesBalance(s, m);
    }
    forall o | o in s.ops ensures OpenOk(s.ops[o]) {
      assert StageOk(s.ops[o]);
    }
  }

  lemma {:induction false} RegularRun(s: Shared, actions: seq<Action>)
    requires ShapeOk(s) && AccountsOk(s.db) && StagesOk(s.db) && !SomeIrregular(s, actions)
    ensures AllRegular(ActAll(s, actions).db)
    decreases |actions|
  {
    if actions == [] {
      forall m | m in s.db.mandates ensures Balanced(s.db, m) {
        assert Accounted(s.db, m);
        StagesBalance(s.db, m);
      }
    } else {
      ActKeepsShape(s, actions[0]);
      ActKeepsAccounts(s, actions[0]);
      RegularStep(s, actions[0]);
      RegularRun(Act(s, actions[0]), actions[1..]);
    }
  }

  // --- Irregular actions -------------------------------------------------------------------

  /** The operation left the lifecycle: by a move outside the matrix, settled without a reservation, or counted twice. */
  ghost predicate Broken(op: Operation) {
    || !Chain(op.book.trail)
    || (op.status in {Succeeded, OpStatus.Failed} && op.book.reserves == 0)
    || op.book.reserves > 1 || op.book.commits > 1 || op.book.releases > 1
  }

  lemma ChainPrefix(p: seq<OpStatus>, q: seq<OpStatus>)
    requires p != [] && p <= q && Chain(q)
    ensures Chain(p)
    ensures |p| < |q| ==> Later(p[|p| - 1], q[|p|])
  {
    forall i | 1 <= i < |p| ensures Later(p[i - 1], p[i]) {
      assert q[i] == p[i] && q[i - 1] == p[i - 1];
    }
    if |p| < |q| {
      assert Later(q[|p| - 1], q[|p|]);
    }
  }

  /** Nothing repairs a broken operation. */
  lemma BrokenStays(a: Operation, b: Operation)
    requires Known(a) && Broken(a) && Evolves(a, b)
    ensures Broken(b)
  {
    if Chain(b.book.trail) {
      ChainPrefix(a.book.trail, b.book.trail);
    }
  }

  /** A history that goes on outside the matrix is no chain. */
  lemma NoChain(a: Operation, b: Operation, next: OpStatus)
    requires TrailOk(a) && GoesOn(a, b, next) && a.status != next && !Later(a.status, next)
    ensures Broken(b)
  {
    if Chain(b.book.trail) {
      ChainPrefix(a.book.trail, b.book.trail);
    }
  }

  lemma StaleBreaks(s: Shared, w: Id, answer: GatewayAnswer)
    requires ShapeOk(s) && Stale(s, Write(w, answer)) && StageOk(s.db.ops[s.workers[w].Op()])
    ensures var o := s.workers[w].Op(); o in Act(s, Write(w, answer)).db.ops && Broken(Act(s, Write(w, answer)).db.ops[o])
  {
    var o := s.workers[w].Op();
    assert Pending(s, w);
    assert OpShape(s, o);
    WriteEffect(s.db, s.workers[w], answer);
    var a, b := s.db.ops[o], WritePhase(s.db, s.workers[w], answer).ops[o];
    var next := if Takes(s.db, s.workers[w]) then Reserved else b.status;
    if a.status != next {
      NoChain(a, b, next);
    }
  }

  /** Settling an operation that is not in flight. */
  lemma SettledAgain(a: Operation)
    requires Known(a) && StageOk(a) && !a.InFlight() && !a.status.Initiated?
    ensures Broken(CommitOp(a)) && Broken(ReleaseOp(a))
    ensures !a.status.Failed? ==> Broken(a.Become(OpStatus.Failed))
  {
    if a.status in {PolicyRejected, OpStatus.Failed} {
      NoChain(a, CommitOp(a), Succeeded);
    }
    if a.status in {PolicyRejected, Succeeded} {
      NoChain(a, ReleaseOp(a), OpStatus.Failed);
      NoChain(a, a.Become(OpStatus.Failed), OpStatus.Failed);
    }
  }

  lemma StrayBreaks(s: Shared, a: Action)
    requires ShapeOk(s) && Stray(s, a) && StagesOk(s.db)
    ensures Subject(s, a).Some? && Subject(s, a).value in Act(s, a).db.ops && Broken(Act(s, a).db.ops[Subject(s, a).value])
  {
    var o := Subject(s, a).value;
    assert OpShape(s, o) && StageOk(s.db.ops[o]);
    if a.Write? {
      assert Pending(s, a.worker);
    }
    SettledAgain(s.db.ops[o]);
  }

  lemma OpsEvolve(s: Shared, a: Action, o: Id)
    requires ShapeOk(s) && o in s.db.ops
    ensures o in Act(s, a).db.ops && Evolves(s.db.ops[o], Act(s, a).db.ops[o])
  {
    if Subject(s, a).Some? && Subject(s, a).value in s.db.ops {
      SubjectStep(s, a, Subject(s, a).value);
    } else {
      ReadStep(s, a);
    }
  }

  lemma {:induction false} BrokenRun(s: Shared, actions: seq<Action>, o: Id)
    requires ShapeOk(s) && o in s.db.ops && Broken(s.db.ops[o])
    ensures !AllRegular(ActAll(s, actions).db)
    decreases |actions|
  {
    if actions == [] {
      assert !StageOk(s.db.ops[o]);
    } else {
      assert OpShape(s, o);
      ActKeepsShape(s, actions[0]);
      OpsEvolve(s, actions[0], o);
      BrokenStays(s.db.ops[o], Act(s, actions[0]).db.ops[o]);
      BrokenRun(Act(s, actions[0]), actions[1..], o);
    }
  }

  lemma {:induction false} IrregularRun(s: Shared, actions: seq<Action>)
    requires ShapeOk(s) && AccountsOk(s.db) && StagesOk(s.db) && SomeIrregular(s, actions)
    ensures !AllRegular(ActAll(s, actions).db)
    decreases |actions|
  {
    var a := actions[0];
    ActKeepsShape(s, a);
    if Stale(s, a) {
      assert StageOk(s.db.ops[s.workers[a.worker].Op()]);
      StaleBreaks(s, a.worker, a.answer);
      BrokenRun(Act(s, a), actions[1..], s.workers[a.worker].Op());
    } else if Stray(s, a) {
      StrayBreaks(s, a);
      BrokenRun(Act(s, a), actions[1..], Subject(s, a).value);
    } else {
      ActKeepsAccounts(s, a);
      RegularStep(s, a);
      IrregularRun(Act(s, a), actions[1..]);
    }
  }

  /**
   * The promise holds after an interleaving exactly when every write met the status that its read
   * found: no approver wrote on an operation that no longer awaited approval (rejecting a rejected
   * one aside), and none was settled, by payment verification or by a settler, while not in flight.
   */
  lemma ExactlyOnce(s: Shared, actions: seq<Action>)
    requires ShapeOk(s) && AllRegular(s.db)
    ensures AllRegular(ActAll(s, actions).db) <==> !SomeIrregular(s, actions)
  {
    RegularAccounts(s.db);
    if SomeIrregular(s, actions) {
      IrregularRun(s, actions);
    } else {
      RegularRun(s, actions);
    }
  }

  lemma SoundOp(s: State, o: Id)
    requires BooksOk(s) && Bounded(s) && o in s.ops
    ensures Known(s.ops[o]) && StageOk(s.ops[o]) && RefundsOk(s.ops[o])
  {
    assert OpOk(s, o) && RefundOk(s.ops[o]);
  }

  /** Every reachable state of the atomic machine is a start for the theorems on interleavings. */
  lemma ReachableStarts(s: State)
    requires Reachable(s)
    ensures ShapeOk(Shared(s, map[])) && AllRegular(s) && AccountsOk(s) && LimitsOk(s)
  {
    ReachableInv(s);
    var start := Shared(s, map[]);
    forall o | o in s.ops ensures OpShape(start, o) && StageOk(s.ops[o]) && RefundsOk(s.ops[o]) {
      SoundOp(s, o);
      assert OpOk(s, o);
    }
    forall m | m in s.mandates ensures WithinLimit(s.mandates[m]) {}
    RegularAccounts(s);
  }

  // --- The counts alone --------------------------------------------------------------------

  predicate CountedOnce(op: Operation) {
    op.book.reserves <= 1 && op.book.commits + op.book.releases <= op.book.reserves
  }

  /** Each amount is reserved at most once and settled at most once, and the counters equal the sums. */
  ghost predicate CountsOk(s: State) {
    && (forall o {:trigger CountedOnce(s.ops[o])} | o in s.ops :: CountedOnce(s.ops[o]))
    && (forall m {:trigger Balanced(s, m)} | m in s.mandates :: Balanced(s, m))
  }

  /**
   * An approver writes on an operation that is in flight or has succeeded, or reserves again one
   * that was released.
   */
  predicate Doubles(s: Shared, a: Action) {
    && a.Write? && a.worker in s.workers && s.workers[a.worker].Signing? && s.workers[a.worker].approval in s.db.ops
    && var op := s.db.ops[s.workers[a.worker].approval];
       op.InFlight() || op.status.Succeeded? || (op.book.reserves > 0 && Takes(s.db, s.workers[a.worker]))
  }

  ghost predicate SomeDouble(s: Shared, actions: seq<Action>)
    decreases |actions|
  {
    actions != [] && (Doubles(s, actions[0]) || SomeDouble(Act(s, actions[0]), actions[1..]))
  }

  ghost predicate SomeStray(s: Shared, actions: seq<Action>)
    decreases |actions|
  {
    actions != [] && (Stray(s, actions[0]) || SomeStray(Act(s, actions[0]), actions[1..]))
  }

  /** The counts of the operation are exactly what its status shows. */
  predicate Exact(op: Operation) {
    && op.book.reserves <= 1
    && Outstanding(op) == (if op.InFlight() then 1 else 0)
    && op.book.commits == (if op.status.Succeeded? then 1 else 0)
  }

  ghost predicate AllExact(s: State) {
    forall o {:trigger Exact(s.ops[o])} | o in s.ops :: Exact(s.ops[o])
  }

  lemma WriteExact(s: Shared, w: Id, answer: GatewayAnswer)
    requires ShapeOk(s) && AccountsOk(s.db) && w in s.workers && !Doubles(s, Write(w, answer)) && !Stray(s, Write(w, answer))
    requires s.workers[w].Op() in s.db.ops && Exact(s.db.ops[s.workers[w].Op()])
    ensures s.workers[w].Op() in WritePhase(s.db, s.workers[w], answer).ops
    ensures Exact(WritePhase(s.db, s.workers[w], answer).ops[s.workers[w].Op()])
  {
    var p := s.workers[w];
    assert Pending(s, w);
    assert OpShape(s, p.Op());
    if !p.Settling? {
      WriteEffect(s.db, p, answer);
    } else if s.db.ops[p.settled].InFlight() {
      CloseMoves(s.db, p.settled, p.commit, p.guarded);
    } else {
      IdleWrite(s.db, p, answer);
    }
  }

  lemma SubjectExact(s: Shared, a: Action, o: Id)
    requires ShapeOk(s) && AccountsOk(s.db) && !Stray(s, a) && !Doubles(s, a)
    requires o in s.db.ops && Subject(s, a) == Some(o) && Exact(s.db.ops[o])
    ensures o in Act(s, a).db.ops && Exact(Act(s, a).db.ops[o])
  {
    assert OpShape(s, o);
    match a
    case Write(w, answer) => WriteExact(s, w, answer);
    case VerifyOp(_, payment) =>
    case Credit(_, amount) =>
  }

  lemma ExactStep(s: Shared, a: Action)
    requires ShapeOk(s) && AccountsOk(s.db) && AllExact(s.db) && !Stray(s, a) && !Doubles(s, a)
    ensures AllExact(Act(s, a).db)
  {
    var t := Act(s, a).db;
    if Subject(s, a).Some? && Subject(s, a).value in s.db.ops {
      SubjectStep(s, a, Subject(s, a).value);
      assert Exact(s.db.ops[Subject(s, a).value]);
      SubjectExact(s, a, Subject(s, a).value);
    } else {
      ReadStep(s, a);
    }
    forall o | o in t.ops ensures Exact(t.ops[o]) {
      assert o in s.db.ops ==> Exact(s.db.ops[o]);
    }
  }

  lemma {:induction false} ExactRun(s: Shared, actions: seq<Action>)
    requires ShapeOk(s) && AccountsOk(s.db) && AllExact(s.db) && !SomeStray(s, actions) && !SomeDouble(s, actions)
    ensures CountsOk(ActAll(s, actions).db)
    decreases |actions|
  {
    if actions == [] {
      forall o | o in s.db.ops
        ensures CountedOnce(s.db.ops[o]) && NetReserved(s.db.ops[o]) == HeldOf(s.db.ops[o]) && NetCommitted(s.db.ops[o]) == SpentOf(s.db.ops[o])
      {
        assert Exact(s.db.ops[o]);
      }
      forall m | m in s.db.mandates ensures Balanced(s.db, m) {
        assert Accounted(s.db, m);
        SameTally(s.db.ops, m, NetReserved, HeldOf);
        SameTally(s.db.ops, m, NetCommitted, SpentOf);
      }
    } else {
      ActKeepsShape(s, actions[0]);
      ActKeepsAccounts(s, actions[0]);
      ExactStep(s, actions[0]);
      ExactRun(Act(s, actions[0]), actions[1..]);
    }
  }

  /** Reserved twice, or more outstanding or committed than the status shows. */
  predicate Doubled(op: Operation) {
    || op.book.reserves > 1
    || Outstanding(op) > (if op.InFlight() then 1 else 0)
    || op.book.commits > (if op.status.Succeeded? then 1 else 0)
  }

  lemma SubjectDoubled(s: Shared, a: Action, o: Id)
    requires ShapeOk(s) && AccountsOk(s.db) && !Stray(s, a)
    requires o in s.db.ops && Subject(s, a) == Some(o) && (Doubled(s.db.ops[o]) || Doubles(s, a))
    ensures o in Act(s, a).db.ops && Doubled(Act(s, a).db.ops[o])
  {
    assert OpShape(s, o) && OpenOk(s.db.ops[o]);
    match a
    case Write(w, answer) =>
      var p := s.workers[w];
      if !p.Settling? {
        WriteEffect(s.db, p, answer);
      } else if s.db.ops[o].InFlight() {
        CloseMoves(s.db, o, p.commit, p.guarded);
      } else {
        IdleWrite(s.db, p, answer);
      }
    case VerifyOp(_, payment) =>
    case Credit(_, amount) =>
  }

  lemma DoubledStep(s: Shared, a: Action, o: Id)
    requires ShapeOk(s) && AccountsOk(s.db) && !Stray(s, a)
    requires o in s.db.ops && (Doubled(s.db.ops[o]) || (Doubles(s, a) && s.workers[a.worker].approval == o))
    ensures o in Act(s, a).db.ops && Doubled(Act(s, a).db.ops[o])
  {
    if Subject(s, a) == Some(o) {
      SubjectDoubled(s, a, o);
    } else if Subject(s, a).Some? && Subject(s, a).value in s.db.ops {
      SubjectStep(s, a, Subject(s, a).value);
    } else {
      ReadStep(s, a);
    }
  }

  lemma StrictTally(ops: map<Id, Operation>, m: Id, f: Operation -> int, g: Operation -> int, o: Id)
    requires forall x | x in ops :: f(ops[x]) <= g(ops[x])
    requires o in ops && ops[o].mandate == m && f(ops[o]) < g(ops[o])
    ensures Tally(ops, m, f) < Tally(ops, m, g)
  {
    var a, b := Weights(ops, m, f), Weights(ops, m, g);
    SumRemove(a, o);
    SumRemove(b, o);
    SumMonotone(a - {o}, b - {o});
  }

  lemma DoubledShows(s: State, o: Id)
    requires AccountsOk(s) && o in s.ops && Doubled(s.ops[o]) && s.ops[o].mandate in s.mandates
    ensures !CountsOk(s)
  {
    var m := s.ops[o].mandate;
    assert Accounted(s, m);
    forall x | x in s.ops ensures HeldOf(s.ops[x]) <= NetReserved(s.ops[x]) && SpentOf(s.ops[x]) <= NetCommitted(s.ops[x]) {
      assert OpenOk(s.ops[x]);
      NetCovers(s.ops[x]);
    }
    NetCovers(s.ops[o]);
    if s.ops[o].book.reserves > 1 {
      assert !CountedOnce(s.ops[o]);
    } else if Outstanding(s.ops[o]) > (if s.ops[o].InFlight() then 1 else 0) {
      StrictTally(s.ops, m, HeldOf, NetReserved, o);
      assert !Balanced(s, m);
    } else {
      StrictTally(s.ops, m, SpentOf, NetCommitted, o);
      assert !Balanced(s, m);
    }
  }

  lemma {:induction false} DoubledRun(s: Shared, actions: seq<Action>, o: Id)
    requires ShapeOk(s) && AccountsOk(s.db) && !SomeStray(s, actions) && o in s.db.ops && Doubled(s.db.ops[o])
    ensures !CountsOk(ActAll(s, actions).db)
    decreases |actions|
  {
    if actions == [] {
      assert OpShape(s, o);
      DoubledShows(s.db, o);
    } else {
      ActKeepsShape(s, actions[0]);
      ActKeepsAccounts(s, actions[0]);
      DoubledStep(s, actions[0], o);
      DoubledRun(Act(s, actions[0]), actions[1..], o);
    }
  }

  lemma {:induction false} SomeDoubleShows(s: Shared, actions: seq<Action>)
    requires ShapeOk(s) && AccountsOk(s.db) && !SomeStray(s, actions) && SomeDouble(s, actions)
    ensures !CountsOk(ActAll(s, actions).db)
    decreases |actions|
  {
    var a := actions[0];
    ActKeepsShape(s, a);
    ActKeepsAccounts(s, a);
    if Doubles(s, a) {
      DoubledStep(s, a, s.workers[a.worker].approval);
      DoubledRun(Act(s, a), actions[1..], s.workers[a.worker].approval);
    } else {
      SomeDoubleShows(Act(s, a), actions[1..]);
    }
  }

  /**
   * The counts alone, which a history outside the matrix does not disturb: if only operations in
   * flight are settled and verified, no amount is reserved or settled twice and every
   * counter equals its sum exactly when no approver doubles.
   */
  lemma CountsExact(s: Shared, actions: seq<Action>)
    requires ShapeOk(s) && AllRegular(s.db) && !SomeStray(s, actions)
    ensures CountsOk(ActAll(s, actions).db) <==> !SomeDouble(s, actions)
  {
    RegularAccounts(s.db);
    if SomeDouble(s, actions) {
      SomeDoubleShows(s, actions);
    } else {
      forall o | o in s.db.ops ensures Exact(s.db.ops[o]) {
        assert StageOk(s.db.ops[o]);
      }
      ExactRun(s, actions);
    }
  }

  // --- What goes wrong ---------------------------------------------------------------------

  lemma TwoActions(s: Shared, a: Action, b: Action)
    ensures ActAll(s, [a, b]) == Act(Act(s, a), b)
  {
    assert [a, b][1..] == [b] && [b][1..] == [];
    assert ActAll(Act(Act(s, a), b), []) == Act(Act(s, a), b);
    assert ActAll(Act(s, a), [b]) == Act(Act(s, a), b);
  }

  lemma FourActions(s: Shared, a: Action, b: Action, c: Action, d: Action)
    ensures ActAll(s, [a, b, c, d]) == Act(Act(Act(Act(s, a), b), c), d)
  {
    assert [a, b, c, d][1..] == [b, c, d] && [b, c, d][1..] == [c, d];
    TwoActions(Act(Act(s, a), b), c, d);
    assert ActAll(Act(s, a), [b, c, d]) == ActAll(Act(Act(s, a), b), [c, d]);
  }

  /** The gateway can be asked for the operation, and confirms. */
  predicate Confirms(op: Operation, answer: GatewayAnswer) {
    answer.Confirmed? && (op.kind in {CreateOrder, CreatePaymentLink} || (op.kind.CreateRefund? && op.refundOf.Some?))
  }

  /** An approving write that fits: one reservation and one dispatch more. */
  lemma ApprovingWrite(s: Shared, w: Id, o: Id, approver: Id, answer: GatewayAnswer)
    requires w in s.workers && s.workers[w] == Signing(o, approver, true) && o in s.db.ops
    requires s.db.ops[o].mandate in s.db.mandates && s.db.mandates[s.db.ops[o].mandate].Fits(s.db.ops[o].amount)
    requires Confirms(s.db.ops[o], answer)
    ensures var a, t := s.db.ops[o], Act(s, Write(w, answer));
            && o in t.db.ops && Wrote(a, t.db.ops[o], true) && t.db.ops[o].refundOf == a.refundOf
            && t.db.ops[o].status == (if a.kind.CreateRefund? then Succeeded else Executing)
            && t.db.ops[o].book.dispatches == a.book.dispatches + 1
            && t.workers == s.workers - {w}
            && Shifts(s.db.mandates, t.db.mandates, a.mandate,
                      if a.kind.CreateRefund? then 0 else a.amount, if a.kind.CreateRefund? then a.amount else 0)
  {
    WriteEffect(s.db, s.workers[w], answer);
    TakenAmounts(s.db.ops[o], Act(s, Write(w, answer)).db.ops[o]);
    ExecutedOps(Reserve(Signed(s.db, o, approver), o), o, answer);
  }

  lemma TwoReads(s: Shared, v: Id, w: Id, o: Id, approver: Id, other: Id, yes: bool, no: bool)
    requires v != w && v !in s.workers && w !in s.workers
    requires o in s.db.ops && s.db.ops[o].status.RequiresApproval? && s.db.ops[o].mandate in s.db.mandates
    ensures Act(Act(s, ReadForApproval(v, o, approver, yes)), ReadForApproval(w, o, other, no))
         == s.(workers := s.workers[v := Signing(o, approver, yes)][w := Signing(o, other, no)])
  {
  }

  /**
   * Two approvers that both read before either writes take the amount twice and dispatch twice;
   * for a refund operation, which is committed in the transaction that reserves it, they commit
   * it twice.
   */
  lemma TwoApproversTakeTwice(s: Shared, v: Id, w: Id, o: Id, approver: Id, other: Id, x: GatewayAnswer, y: GatewayAnswer)
    requires v != w && v !in s.workers && w !in s.workers
    requires o in s.db.ops && s.db.ops[o].status.RequiresApproval?
    requires var m := s.db.ops[o].mandate; m in s.db.mandates && s.db.mandates[m].Fits(2 * s.db.ops[o].amount)
    requires Confirms(s.db.ops[o], x) && Confirms(s.db.ops[o], y)
    ensures var t := ActAll(s, [ReadForApproval(v, o, approver, true), ReadForApproval(w, o, other, true), Write(v, x), Write(w, y)]).db;
            var a, m := s.db.ops[o], s.db.ops[o].mandate;
            && o in t.ops && m in t.mandates
            && t.ops[o].book.reserves == a.book.reserves + 2 && t.ops[o].book.dispatches == a.book.dispatches + 2
            && SpendOf(t.mandates[m]) == SpendOf(s.db.mandates[m]) + 2 * a.amount
            && (a.kind.CreateRefund? ==> t.ops[o].book.commits == a.book.commits + 2
                                         && t.mandates[m].committed == s.db.mandates[m].committed + 2 * a.amount)
  {
    FourActions(s, ReadForApproval(v, o, approver, true), ReadForApproval(w, o, other, true), Write(v, x), Write(w, y));
    TwoReads(s, v, w, o, approver, other, true, true);
    var both := s.(workers := s.workers[v := Signing(o, approver, true)][w := Signing(o, other, true)]);
    ApprovingWrite(both, v, o, approver, x);
    ApprovingWrite(Act(both, Write(v, x)), w, o, other, y);
  }

  /**
   * Not every stale write doubles: an approver that read before another rejected the operation
   * still reserves and dispatches it. The counts stay right; the history leaves the matrix.
   */
  lemma RejectionIsOverwritten(s: Shared, v: Id, w: Id, o: Id, approver: Id, other: Id, x: GatewayAnswer, y: GatewayAnswer)
    requires ShapeOk(s) && v != w && v !in s.workers && w !in s.workers
    requires o in s.db.ops && s.db.ops[o].status.RequiresApproval? && Confirms(s.db.ops[o], y)
    requires var m := s.db.ops[o].mandate; m in s.db.mandates && s.db.mandates[m].Fits(s.db.ops[o].amount)
    ensures var t := ActAll(s, [ReadForApproval(v, o, approver, true), ReadForApproval(w, o, other, false), Write(w, x), Write(v, y)]).db;
            && o in t.ops && PolicyRejected in t.ops[o].book.trail
            && t.ops[o].book.reserves == t.ops[o].book.dispatches == 1
            && t.ops[o].status in {Executing, Succeeded} && CountedOnce(t.ops[o])
  {
    assert OpShape(s, o);
    FourActions(s, ReadForApproval(v, o, approver, true), ReadForApproval(w, o, other, false), Write(w, x), Write(v, y));
    TwoReads(s, v, w, o, approver, other, true, false);
    var both := s.(workers := s.workers[v := Signing(o, approver, true)][w := Signing(o, other, false)]);
    var rejected := Act(both, Write(w, x));
    var a := rejected.db.ops[o];
    assert rejected.db == Park(s.db, o, PolicyRejected);
    assert a.book.trail[|a.book.trail| - 1] == PolicyRejected;
    ApprovingWrite(rejected, v, o, approver, y);
    var b := Act(rejected, Write(v, y)).db.ops[o];
    assert b.book.trail[|a.book.trail| - 1] == PolicyRejected;
  }
}
