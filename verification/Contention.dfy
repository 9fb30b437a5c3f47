/** Equal requests that compete for one mandate, with their reads and writes in any order. */
module Contention {
  import opened Domain
  import opened Admission
  import opened Ledger
  import opened Interleaving
  import opened Burst

  /** A read for the request, which only the budget can refuse, or a write that the gateway confirms. */
  ghost predicate Contends(start: State, a: Action, req: OpRequest) {
    match a
    case ReadForRequest(_, _, r, now, rateOk) => r == req && rateOk && OnlyBudgetDecides(start, req, now)
    case Write(_, answer) => answer.Confirmed?
    case _ => false
  }

  /** The operations added since the start. */
  function Added(start: State, s: State): set<Id> {
    set o | o in s.ops && o !in start.ops
  }

  function Executed(start: State, s: State): set<Id> {
    set o | o in Added(start, s) && s.ops[o].status.Executing?
  }

  predicate AddedOk(s: State, o: Id, req: OpRequest)
    requires o in s.ops && req.mandate in s.mandates
  {
    && s.ops[o].mandate == req.mandate && s.ops[o].amount == req.amount && s.ops[o].kind == req.kind
    && s.ops[o].status in {Initiated, Executing, PolicyRejected}
    && (s.ops[o].status.PolicyRejected? ==> !s.mandates[req.mandate].Fits(req.amount))
  }

  /** A pending request was allowed, or refused because it did not fit and never will. */
  predicate WorkerOk(start: State, s: Shared, w: Id, req: OpRequest)
    requires w in s.workers && req.mandate in s.db.mandates
  {
    && s.workers[w].Decided? && s.workers[w].request in Added(start, s.db) && s.db.ops[s.workers[w].request].status.Initiated?
    && !s.workers[w].decision.RequireHumanReview?
    && (s.workers[w].decision.Deny? ==> !s.db.mandates[req.mandate].Fits(req.amount))
  }

  predicate Served(s: Shared, o: Id) {
    exists w :: w in s.workers && s.workers[w].Decided? && s.workers[w].request == o
  }

  /** The reserve has grown by what executed, and nothing else has moved. */
  ghost predicate RowOk(start: State, s: State, req: OpRequest) {
    && req.mandate in start.mandates && req.mandate in s.mandates && s.agents == start.agents
    && s.mandates[req.mandate] == start.mandates[req.mandate].(
         reserved := start.mandates[req.mandate].reserved + |Executed(start, s)| * req.amount,
         version := s.mandates[req.mandate].version)
    && 0 <= Room(s.mandates[req.mandate])
  }

  ghost predicate Contending(start: State, s: Shared, req: OpRequest) {
    && RowOk(start, s.db, req)
    && start.ops.Keys <= s.db.ops.Keys
    && (forall o {:trigger AddedOk(s.db, o, req)} | o in Added(start, s.db) :: AddedOk(s.db, o, req))
    && (forall w {:trigger WorkerOk(start, s, w, req)} | w in s.workers :: WorkerOk(start, s, w, req))
    && (forall o {:trigger Served(s, o)} | o in Added(start, s.db) && s.db.ops[o].status.Initiated? :: Served(s, o))
    && Exclusive(s)
  }

  lemma ReadContends(start: State, s: Shared, a: Action, req: OpRequest)
    requires Contending(start, s, req) && a.ReadForRequest? && Contends(start, a, req)
    ensures Contending(start, Act(s, a), req)
  {
    var t := Act(s, a);
    if t != s {
      StillOnlyBudget(start, s.db, req, a.now);
      BudgetDecides(s.db, req, a.now);
      assert Executed(start, t.db) == Executed(start, s.db);
      forall o | o in Added(start, t.db) ensures AddedOk(t.db, o, req) {
        assert o != a.op ==> AddedOk(s.db, o, req);
      }
      forall w | w in t.workers ensures WorkerOk(start, t, w, req) {
        assert w != a.worker ==> WorkerOk(start, s, w, req);
      }
      forall o | o in Added(start, t.db) && t.db.ops[o].status.Initiated? ensures Served(t, o) {
        if o == a.op {
          assert t.workers[a.worker].request == o;
        } else {
          assert Served(s, o);
          var w :| w in s.workers && s.workers[w].Decided? && s.workers[w].request == o;
          assert t.workers[w].request == o;
        }
      }
      forall w | w in s.workers ensures s.workers[w].Decided? ==> s.workers[w].request in s.db.ops {
        assert WorkerOk(start, s, w, req);
      }
    }
  }

  /** The write of one request: executing if it was allowed and still fits, rejected otherwise. */
  lemma WriteDecides(start: State, s: Shared, w: Id, answer: GatewayAnswer, req: OpRequest)
    requires Contending(start, s, req) && w in s.workers && answer.Confirmed? && req.kind.CreateOrder?
    ensures var o, t := s.workers[w].Op(), Act(s, Write(w, answer));
            var took := s.workers[w].Decided? && s.workers[w].decision.Allow? && s.db.mandates[req.mandate].Fits(req.amount);
            && o in Added(start, s.db) && o in t.db.ops && t.db.ops == s.db.ops[o := t.db.ops[o]]
            && t.workers == s.workers - {w} && t.db.agents == s.db.agents
            && SameTask(s.db.ops[o], t.db.ops[o])
            && t.db.ops[o].status == (if took then Executing else PolicyRejected)
            && Shifts(s.db.mandates, t.db.mandates, req.mandate, if took then req.amount else 0, 0)
            && (!took ==> !s.db.mandates[req.mandate].Fits(req.amount))
  {
    var o := s.workers[w].Op();
    assert WorkerOk(start, s, w, req) && AddedOk(s.db, o, req);
    WriteEffect(s.db, s.workers[w], answer);
    if Takes(s.db, s.workers[w]) {
      TakenAmounts(s.db.ops[o], Act(s, Write(w, answer)).db.ops[o]);
      ExecutedOps(Reserve(s.db, o), o, answer);
    }
  }

  lemma WriteRow(start: State, s: Shared, w: Id, answer: GatewayAnswer, req: OpRequest)
    requires Contending(start, s, req) && w in s.workers && answer.Confirmed? && req.kind.CreateOrder?
    ensures RowOk(start, Act(s, Write(w, answer)).db, req)
  {
    var o, t := s.workers[w].Op(), Act(s, Write(w, answer));
    WriteDecides(start, s, w, answer, req);
    assert WorkerOk(start, s, w, req);
    ExecutedStep(start, s.db, t.db, o);
    OneMoreAdmitted(|Executed(start, s.db)|, req.amount);
  }

  lemma ExecutedStep(start: State, s: State, t: State, o: Id)
    requires o in Added(start, s) && s.ops[o].status.Initiated? && o in t.ops && t.ops == s.ops[o := t.ops[o]]
    ensures Added(start, t) == Added(start, s)
    ensures |Executed(start, t)| == |Executed(start, s)| + if t.ops[o].status.Executing? then 1 else 0
  {
    assert Added(start, t) == Added(start, s);
    if t.ops[o].status.Executing? {
      assert Executed(start, t) == Executed(start, s) + {o};
    } else {
      assert Executed(start, t) == Executed(start, s);
    }
  }

  lemma WriteContends(start: State, s: Shared, w: Id, answer: GatewayAnswer, req: OpRequest)
    requires Contending(start, s, req) && w in s.workers && answer.Confirmed? && req.kind.CreateOrder?
    ensures Contending(start, Act(s, Write(w, answer)), req)
  {
    var o, t := s.workers[w].Op(), Act(s, Write(w, answer));
    WriteDecides(start, s, w, answer, req);
    WriteRow(start, s, w, answer, req);
    forall x | x in Added(start, t.db) ensures AddedOk(t.db, x, req) {
      assert AddedOk(s.db, x, req);
    }
    forall v | v in t.workers ensures WorkerOk(start, t, v, req) {
      assert WorkerOk(start, s, v, req) && WorkerOk(start, s, w, req);
    }
    forall x | x in Added(start, t.db) && t.db.ops[x].status.Initiated? ensures Served(t, x) {
      assert Served(s, x);
      var v :| v in s.workers && s.workers[v].Decided? && s.workers[v].request == x;
      assert t.workers[v].request == x;
    }
  }

  lemma {:induction false} ContentionRun(start: State, s: Shared, actions: seq<Action>, req: OpRequest)
    requires Contending(start, s, req) && req.kind.CreateOrder?
    requires forall a | a in actions :: Contends(start, a, req)
    ensures Contending(start, ActAll(s, actions), req)
    decreases |actions|
  {
    if actions != [] {
      var a := actions[0];
      assert a in actions;
      assert forall x | x in actions[1..] :: x in actions;
      if a.ReadForRequest? {
        ReadContends(start, s, a, req);
      } else if a.worker in s.workers {
        WriteContends(start, s, a.worker, a.answer, req);
      }
      ContentionRun(start, Act(s, a), actions[1..], req);
    }
  }

  lemma QuotientAtLeast(x: int, a: Amount, n: nat)
    requires n * a <= x
    ensures n <= x / a
  {
    var d := n - x / a;
    assert n * a == (x / a) * a + d * a;
    Multiples(d, a);
  }

  /**
   * Any number of equal requests, with their policy reads and their writes interleaved in any
   * order: once all have written, exactly min(n, room / a) of the n execute, the others are
   * rejected, and the reserve has grown by exactly what executes.
   */
  lemma ContentionIsExact(s: Shared, actions: seq<Action>, req: OpRequest)
    requires s.workers == map[] && req.kind.CreateOrder?
    requires req.mandate in s.db.mandates && 0 <= Room(s.db.mandates[req.mandate])
    requires forall a | a in actions :: Contends(s.db, a, req)
    requires ActAll(s, actions).workers == map[]
    ensures var t := ActAll(s, actions).db;
            && (forall o | o in Added(s.db, t) :: t.ops[o].status in {Executing, PolicyRejected})
            && |Executed(s.db, t)| == Least(|Added(s.db, t)|, Room(s.db.mandates[req.mandate]) / req.amount)
            && req.mandate in t.mandates
            && t.mandates[req.mandate].reserved == s.db.mandates[req.mandate].reserved + |Executed(s.db, t)| * req.amount
  {
    var t, row := ActAll(s, actions), s.db.mandates[req.mandate];
    assert Executed(s.db, s.db) == {};
    ContentionRun(s.db, s, actions, req);
    var added, executed := Added(s.db, t.db), Executed(s.db, t.db);
    forall o | o in added ensures t.db.ops[o].status in {Executing, PolicyRejected} {
      assert AddedOk(t.db, o, req);
      assert t.db.ops[o].status.Initiated? ==> Served(t, o);
      if t.db.ops[o].status.Initiated? {
        assert false;
      }
    }
    QuotientAtLeast(Room(row), req.amount, |executed|);
    if executed != added {
      var o :| o in added && o !in executed;
      assert AddedOk(t.db, o, req);
      QuotientIs(Room(row), req.amount, |executed|, Room(row) - |executed| * req.amount);
      Smaller(executed, added);
    }
  }

  lemma Smaller(a: set<Id>, b: set<Id>)
    requires a <= b
    ensures |a| <= |b|
  {
    assert b == a + (b - a);
  }
}
