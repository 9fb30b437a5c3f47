/**
 * When does committed plus reserved exceed a mandate's limit? Over every interleaving, with
 * verification and settlement of any operation and refunds of any amount.
 */
module Overspend {
  import opened Domain
  import opened Admission
  import opened Ledger
  import opened Books
  import opened Interleaving
  import opened Accounts
  import opened ExactlyOnce

  /**
   * A captured handler finds a reserve smaller than the amount, so that it commits without
   * reducing the reserve, and there is no room for the amount; or a refund event takes back more
   * than there is room for.
   */
  predicate Breaches(s: Shared, a: Action, m: Id)
    requires m in s.db.mandates
  {
    match a
    case Write(w, _) =>
      && w in s.workers && s.workers[w].Settling? && s.workers[w].commit
      && var o := s.workers[w].settled;
         && o in s.db.ops && s.db.ops[o].mandate == m
         && Short(s.db, o, s.workers[w].guarded) && s.db.ops[o].amount > Room(s.db.mandates[m])
    case Credit(o, amount) =>
      && o in s.db.ops && s.db.ops[o].mandate == m && s.db.ops[o].book.commits > 0
      && -amount > Room(s.db.mandates[m])
    case _ => false
  }

  lemma WriterRoom(s: State, p: Phase, answer: GatewayAnswer, m: Id)
    requires p.Op() in s.ops && s.ops[p.Op()].mandate in s.mandates && !p.Settling?
    requires m in s.mandates && WithinLimit(s.mandates[m])
    ensures m in WritePhase(s, p, answer).mandates && WithinLimit(WritePhase(s, p, answer).mandates[m])
    ensures WritePhase(s, p, answer).mandates[m].limit == s.mandates[m].limit
  {
    WriteEffect(s, p, answer);
    if Takes(s, p) {
      TakenAmounts(s.ops[p.Op()], WritePhase(s, p, answer).ops[p.Op()]);
    }
  }

  lemma SettlerRoom(s: State, o: Id, commit: bool, guarded: bool, m: Id)
    requires o in s.ops && m in s.mandates && WithinLimit(s.mandates[m])
    ensures m in CloseOp(s, o, commit, guarded).mandates
    ensures WithinLimit(CloseOp(s, o, commit, guarded).mandates[m])
            <==> !(commit && s.ops[o].mandate == m && Short(s, o, guarded) && s.ops[o].amount > Room(s.mandates[m]))
  {
  }

  /** One action breaks the limit of a mandate exactly when it breaches. */
  lemma LimitStep(s: Shared, a: Action, m: Id)
    requires ShapeOk(s) && m in s.db.mandates && WithinLimit(s.db.mandates[m])
    ensures m in Act(s, a).db.mandates
    ensures WithinLimit(Act(s, a).db.mandates[m]) <==> !Breaches(s, a, m)
  {
    match a
    case Write(w, answer) =>
      if w in s.workers {
        var p := s.workers[w];
        assert Pending(s, w);
        assert OpShape(s, p.Op());
        if p.Settling? {
          SettlerRoom(s.db, p.settled, p.commit, p.guarded, m);
        } else {
          WriterRoom(s.db, p, answer, m);
        }
      }
    case _ =>
  }

  /** Every state along the run keeps the mandate within its limit. */
  ghost predicate AlwaysWithin(s: Shared, actions: seq<Action>, m: Id)
    decreases |actions|
  {
    && m in s.db.mandates && WithinLimit(s.db.mandates[m])
    && (actions == [] || AlwaysWithin(Act(s, actions[0]), actions[1..], m))
  }

  ghost predicate SomeBreach(s: Shared, actions: seq<Action>, m: Id)
    decreases |actions|
  {
    actions != [] && m in s.db.mandates
    && (Breaches(s, actions[0], m) || SomeBreach(Act(s, actions[0]), actions[1..], m))
  }

  /** The limit holds in every state of an interleaving exactly when no action of it breaches. */
  lemma {:induction false} LimitExact(s: Shared, actions: seq<Action>, m: Id)
    requires ShapeOk(s) && m in s.db.mandates && WithinLimit(s.db.mandates[m])
    ensures AlwaysWithin(s, actions, m) <==> !SomeBreach(s, actions, m)
    decreases |actions|
  {
    if actions != [] {
      LimitStep(s, actions[0], m);
      ActKeepsShape(s, actions[0]);
      if !Breaches(s, actions[0], m) {
        LimitExact(Act(s, actions[0]), actions[1..], m);
      } else {
        assert !AlwaysWithin(Act(s, actions[0]), actions[1..], m);
      }
    }
  }

  // --- How it comes to that ----------------------------------------------------------------

  lemma ThreeActions(s: Shared, a: Action, b: Action, c: Action)
    ensures ActAll(s, [a, b, c]) == Act(Act(Act(s, a), b), c)
  {
    assert [a, b, c][1..] == [b, c];
    TwoActions(Act(s, a), b, c);
  }

  /**
   * A verification out of flight lowers the reserve below what another operation holds, so the
   * captured handler commits that operation without reducing the reserve.
   */
  lemma StrayVerificationOverspends(s: Shared, o: Id, p: Id, payment: Id, w: Id, answer: GatewayAnswer)
    requires o in s.db.ops && p in s.db.ops && o != p && StrayVerification(s, VerifyOp(o, payment)) && s.db.ops[p].InFlight()
    requires w !in s.workers
    requires var m := s.db.ops[p].mandate;
             && s.db.ops[o].mandate == m && m in s.db.mandates
             && s.db.mandates[m].reserved == s.db.ops[p].amount && SpendOf(s.db.mandates[m]) == s.db.mandates[m].limit
    ensures var t := ActAll(s, [VerifyOp(o, payment), ReadForSettlement(w, p, true, true), Write(w, answer)]).db;
            var m := s.db.ops[p].mandate;
            && m in t.mandates && t.mandates[m].limit == s.db.mandates[m].limit
            && SpendOf(t.mandates[m]) == t.mandates[m].limit + s.db.ops[p].amount > t.mandates[m].limit
  {
    ThreeActions(s, VerifyOp(o, payment), ReadForSettlement(w, p, true, true), Write(w, answer));
    var after := Act(s, VerifyOp(o, payment));
    assert after.db.ops[p] == s.db.ops[p];
    UninterruptedSettlement(after, w, p, true, true, answer);
    assert Short(after.db, p, true);
  }

  /**
   * Two deliveries for one order, under different event identifiers, that both read the operation
   * before either writes commit its amount twice; if the reserve covers it once only, the second
   * commits without reducing the reserve.
   */
  lemma TwoDeliveriesCommitTwice(s: Shared, o: Id, v: Id, w: Id, x: GatewayAnswer, y: GatewayAnswer)
    requires o in s.db.ops && s.db.ops[o].InFlight() && v != w && v !in s.workers && w !in s.workers
    requires var m := s.db.ops[o].mandate; m in s.db.mandates && s.db.mandates[m].reserved >= s.db.ops[o].amount
    ensures var t := ActAll(s, [ReadForSettlement(v, o, true, true), ReadForSettlement(w, o, true, true), Write(v, x), Write(w, y)]).db;
            var a, row := s.db.ops[o], s.db.mandates[s.db.ops[o].mandate];
            && o in t.ops && t.ops[o].book.commits == a.book.commits + 2
            && a.mandate in t.mandates && t.mandates[a.mandate].limit == row.limit
            && t.mandates[a.mandate].committed == row.committed + 2 * a.amount
            && t.mandates[a.mandate].reserved == row.reserved - if row.reserved >= 2 * a.amount then 2 * a.amount else a.amount as int
  {
    var m := s.db.ops[o].mandate;
    FourActions(s, ReadForSettlement(v, o, true, true), ReadForSettlement(w, o, true, true), Write(v, x), Write(w, y));
    var both := s.(workers := s.workers[v := Settling(o, true, true)][w := Settling(o, true, true)]);
    assert Act(Act(s, ReadForSettlement(v, o, true, true)), ReadForSettlement(w, o, true, true)) == both;
    var once := Act(both, Write(v, x));
    assert once.db == Commit(s.db, o, 1) && once.workers[w] == Settling(o, true, true);
    assert Act(once, Write(w, y)).db == CloseOp(once.db, o, true, true);
  }
}
