/** What a sweep settles and what it leaves alone, stated on the rows, the gateway's answers and the clock. */
module Reconciliation {
  import opened Domain
  import opened Forest
  import opened Ledger
  import opened Books
  import opened Sweep
  import opened Machine

  /** In flight and no younger than the timeout. */
  predicate Selected(s: State, o: Id, now: int, timeout: int) {
    && o in s.ops && s.ops[o].status in {Reserved, Executing}
    && s.ops[o].createdAt + timeout <= now
  }

  /** The gateway reports the operation's order as paid. */
  predicate OrderPaid(s: State, o: Id, answers: map<Id, OrderAnswer>)
    requires o in s.ops
  {
    && s.ops[o].mandate in s.mandates
    && o in s.txs && s.txs[o].order.Some? && s.txs[o].order.value in answers && answers[s.txs[o].order.value] == Paid
  }

  /** The gateway was never asked, or reports the order as attempted or created after more than 300 seconds. */
  predicate Abandoned(s: State, o: Id, now: int, answers: map<Id, OrderAnswer>)
    requires o in s.ops
  {
    && s.ops[o].mandate in s.mandates
    && (|| o !in s.txs
        || (s.txs[o].order.None? && s.txs[o].payment.None? && s.txs[o].link.None?)
        || (s.txs[o].order.Some? && s.txs[o].order.value in answers
            && answers[s.txs[o].order.value] in {Attempted, OrderCreated} && now - s.ops[o].createdAt > 300))
  }

  /** Operation and row are as before, but for the status, the counts and the row's status. */
  predicate Ended(s: State, t: State, o: Id, status: OpStatus, commits: nat, releases: nat)
    requires o in s.ops
  {
    && o in t.ops
    && t.ops[o] == s.ops[o].(status := status, book := t.ops[o].book)
    && t.ops[o].book.commits == s.ops[o].book.commits + commits
    && t.ops[o].book.releases == s.ops[o].book.releases + releases
    && t.ops[o].book.refunded == s.ops[o].book.refunded
  }

  /** What the sweep does to one operation and its row. */
  ghost predicate SweptAs(s: State, t: State, o: Id, selected: bool, now: int, answers: map<Id, OrderAnswer>)
    requires o in s.ops
  {
    if selected && OrderPaid(s, o, answers) then
      Ended(s, t, o, Succeeded, 1, 0) && o in t.txs && t.txs[o] == s.txs[o].(status := Captured)
    else if selected && Abandoned(s, o, now, answers) then
      Ended(s, t, o, OpStatus.Failed, 0, 1) && RowOf(t.txs, o) == RowOf(s.txs, o)
    else
      o in t.ops && t.ops[o] == s.ops[o] && RowOf(t.txs, o) == RowOf(s.txs, o)
  }

  lemma StuckMeans(s: State, now: int, timeout: int, o: Id)
    ensures o in Stuck(s, now, timeout) <==> Selected(s, o, now, timeout)
  {
  }

  lemma VerdictMeans(s: State, o: Id, now: int, answers: map<Id, OrderAnswer>)
    requires o in s.ops
    ensures SweepVerdict(s, o, now, answers).Settle? <==> OrderPaid(s, o, answers)
    ensures SweepVerdict(s, o, now, answers).Free? <==> Abandoned(s, o, now, answers)
  {
  }

  lemma SweptMeans(s: State, t: State, now: int, timeout: int, answers: map<Id, OrderAnswer>, o: Id)
    requires BooksOk(s) && Swept(s, t, Stuck(s, now, timeout), now, answers) && o in s.ops
    ensures SweptAs(s, t, o, Selected(s, o, now, timeout), now, answers)
  {
    StuckMeans(s, now, timeout, o);
    VerdictMeans(s, o, now, answers);
    assert OpOk(s, o);
  }

  lemma SelectionMeans(s: State, rows: seq<Id>, now: int, timeout: int)
    requires Distinct(rows) && forall x :: x in rows <==> Selected(s, x, now, timeout)
    ensures Selection(s, rows, now, timeout)
  {
    forall x ensures x in Stuck(s, now, timeout) <==> x in RowSet(rows) {
      StuckMeans(s, now, timeout, x);
    }
  }

  /** Nothing is added or removed, and the counters remain the sums over the operations. */
  ghost predicate KeepsRest(s: State, t: State) {
    && t.ops.Keys == s.ops.Keys && t.txs.Keys == s.txs.Keys && t.agents == s.agents && t.events == s.events
    && SameForest(s.mandates, t.mandates)
    && forall m | m in t.mandates ::
         t.mandates[m].reserved == Tally(t.ops, m, HeldOf) && t.mandates[m].committed == Tally(t.ops, m, SpentOf)
  }

  lemma SweptKeeps(s: State, t: State, done: set<Id>, now: int, answers: map<Id, OrderAnswer>)
    requires Swept(s, t, done, now, answers)
    ensures KeepsRest(s, t)
  {
    forall m | m in t.mandates
      ensures t.mandates[m].reserved == Tally(t.ops, m, HeldOf) && t.mandates[m].committed == Tally(t.ops, m, SpentOf)
    {
      assert Balanced(t, m);
    }
  }

  /**
   * A sweep commits the selected operations whose order is paid, releases the selected operations
   * that are abandoned, and leaves every other operation and its row alone, in particular those
   * whose order could not be fetched. It adds and removes nothing, and each mandate's counters
   * remain the sums over its operations.
   */
  lemma SweepDecides(s: State, rows: seq<Id>, now: int, timeout: int, answers: map<Id, OrderAnswer>, o: Id)
    requires BooksOk(s) && o in s.ops
    requires Distinct(rows) && forall x :: x in rows <==> Selected(s, x, now, timeout)
    ensures var t := Next(s, RunSweep(rows, now, timeout, answers));
            && SweptAs(s, t, o, Selected(s, o, now, timeout), now, answers)
            && KeepsRest(s, t)
  {
    var t := Next(s, RunSweep(rows, now, timeout, answers));
    SelectionMeans(s, rows, now, timeout);
    SelectionEffect(s, rows, now, timeout, answers);
    SweptMeans(s, t, now, timeout, answers, o);
    SweptKeeps(s, t, Stuck(s, now, timeout), now, answers);
  }

  /** An order that could not be fetched keeps its operation, its row and its reservation. */
  lemma UnfetchedIsLeft(s: State, rows: seq<Id>, now: int, timeout: int, answers: map<Id, OrderAnswer>, o: Id)
    requires BooksOk(s) && o in s.ops && o in s.txs && s.txs[o].order.Some?
    requires Distinct(rows) && forall x :: x in rows <==> Selected(s, x, now, timeout)
    requires s.txs[o].order.value in answers ==> answers[s.txs[o].order.value] in {FetchFailed, OtherStatus}
    ensures var t := Next(s, RunSweep(rows, now, timeout, answers));
            o in t.ops && t.ops[o] == s.ops[o] && o in t.txs && t.txs[o] == s.txs[o]
  {
    SweepDecides(s, rows, now, timeout, answers, o);
  }

  /** The operations that a sweep settles. */
  function SettledBySweep(s: State, now: int, timeout: int, answers: map<Id, OrderAnswer>): set<Id> {
    set o | o in s.ops && Selected(s, o, now, timeout) && (OrderPaid(s, o, answers) || Abandoned(s, o, now, answers))
  }
}
