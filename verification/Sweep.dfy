/** The reconciliation sweep: its effect, its independence of order, and its agreement with webhooks. */
module Sweep {
  import opened Domain
  import opened Forest
  import opened Ledger
  import opened Books
  import opened Settlement

  // --- One row after the other -------------------------------------------------------------

  /** The operation after the sweep, computed from the state before it. */
  function SweptOp(s: State, o: Id, now: int, answers: map<Id, OrderAnswer>): Operation
    requires o in s.ops
  {
    match SweepVerdict(s, o, now, answers)
    case Leave => s.ops[o]
    case Free => ReleaseOp(s.ops[o])
    case Settle => CommitOp(s.ops[o])
  }

  /** The transaction row after the sweep; only a paid order's row changes. */
  function SweptTx(s: State, o: Id, now: int, answers: map<Id, OrderAnswer>): Tx
    requires o in s.txs
  {
    if o in s.ops && SweepVerdict(s, o, now, answers).Settle? then s.txs[o].(status := Captured) else s.txs[o]
  }

  function SweptOps(s: State, done: set<Id>, now: int, answers: map<Id, OrderAnswer>): map<Id, Operation> {
    map o | o in s.ops :: if o in done then SweptOp(s, o, now, answers) else s.ops[o]
  }

  function SweptTxs(s: State, done: set<Id>, now: int, answers: map<Id, OrderAnswer>): map<Id, Tx> {
    map o | o in s.txs :: if o in done then SweptTx(s, o, now, answers) else s.txs[o]
  }

  lemma SweptOpsAdd(s: State, done: set<Id>, o: Id, now: int, answers: map<Id, OrderAnswer>)
    requires o in s.ops && o !in done
    ensures SweptOps(s, done + {o}, now, answers) == SweptOps(s, done, now, answers)[o := SweptOp(s, o, now, answers)]
  {
  }

  lemma SweptTxsAdd(s: State, done: set<Id>, o: Id, now: int, answers: map<Id, OrderAnswer>)
    requires o !in done
    ensures SweptTxs(s, done + {o}, now, answers) ==
            if o in s.txs then SweptTxs(s, done, now, answers)[o := SweptTx(s, o, now, answers)]
            else SweptTxs(s, done, now, answers)
  {
  }

  /** t is s after the sweep of the operations in done. */
  ghost predicate Swept(s: State, t: State, done: set<Id>, now: int, answers: map<Id, OrderAnswer>) {
    && Settled(s, t)
    && t.events == s.events
    && t.ops == SweptOps(s, done, now, answers)
    && t.txs == SweptTxs(s, done, now, answers)
  }

  lemma SameVerdict(s: State, t: State, done: set<Id>, o: Id, now: int, answers: map<Id, OrderAnswer>)
    requires Swept(s, t, done, now, answers) && o in s.ops && o !in done
    ensures o in t.ops && t.ops[o] == s.ops[o]
    ensures o in t.txs <==> o in s.txs
    ensures o in s.txs ==> t.txs[o] == s.txs[o]
    ensures SweepVerdict(t, o, now, answers) == SweepVerdict(s, o, now, answers)
  {
  }

  /** One turn of the sweep's loop. */
  lemma SweepStep(s: State, t: State, done: set<Id>, o: Id, now: int, answers: map<Id, OrderAnswer>)
    requires Swept(s, t, done, now, answers)
    requires o in s.ops && s.ops[o].InFlight() && o !in done
    ensures Swept(s, SweepOne(t, o, now, answers), done + {o}, now, answers)
  {
    SameVerdict(s, t, done, o, now, answers);
    SweptOpsAdd(s, done, o, now, answers);
    SweptTxsAdd(s, done, o, now, answers);
    var u := SweepOne(t, o, now, answers);
    match SweepVerdict(s, o, now, answers)
    case Leave =>
      assert u.ops == SweptOps(s, done + {o}, now, answers);
      assert u.txs == SweptTxs(s, done + {o}, now, answers);
    case Free =>
      ReleaseSettles(s, t, o);
      assert u.txs == SweptTxs(s, done + {o}, now, answers);
    case Settle =>
      CaptureSettles(s, t, o, None);
  }

  /** The sweep's loop has the effect that is computed row by row from the state before it. */
  lemma {:induction false} SweepEffect(s: State, rows: seq<Id>, now: int, answers: map<Id, OrderAnswer>)
    requires BooksOk(s) && Distinct(rows)
    requires forall o | o in rows :: o in s.ops && s.ops[o].InFlight()
    ensures Swept(s, SweepRows(s, rows, now, answers), RowSet(rows), now, answers)
    decreases |rows|
  {
    if rows == [] {
      SettledSelf(s);
      assert SweptOps(s, {}, now, answers) == s.ops && SweptTxs(s, {}, now, answers) == s.txs;
    } else {
      var last := |rows| - 1;
      var init := rows[..last];
      SweepEffect(s, init, now, answers);
      assert RowSet(rows) == RowSet(init) + {rows[last]};
      SweepStep(s, SweepRows(s, init, now, answers), RowSet(init), rows[last], now, answers);
    }
  }

  lemma SelectionEffect(s: State, rows: seq<Id>, now: int, timeout: int, answers: map<Id, OrderAnswer>)
    requires BooksOk(s) && Selection(s, rows, now, timeout)
    ensures Swept(s, SweepRows(s, rows, now, answers), Stuck(s, now, timeout), now, answers)
  {
    forall o | o in rows ensures o in s.ops && s.ops[o].InFlight() {
      assert o in RowSet(rows);
    }
    SweepEffect(s, rows, now, answers);
  }

  /** The order in which the database returns the stuck operations does not matter. */
  lemma SweepIgnoresOrder(s: State, rows: seq<Id>, others: seq<Id>, now: int, timeout: int, answers: map<Id, OrderAnswer>)
    requires BooksOk(s) && Selection(s, rows, now, timeout) && Selection(s, others, now, timeout)
    ensures SweepRows(s, rows, now, answers) == SweepRows(s, others, now, answers)
  {
    SelectionEffect(s, rows, now, timeout, answers);
    SelectionEffect(s, others, now, timeout, answers);
    Determined(s, SweepRows(s, rows, now, answers), SweepRows(s, others, now, answers));
  }

  // --- What is left, and what a second sweep does ------------------------------------------

  /** Every order that the sweep asks about is reported as paid, attempted or created. */
  predicate Answered(s: State, rows: seq<Id>, answers: map<Id, OrderAnswer>) {
    forall o | o in rows && o in s.txs && s.txs[o].order.Some? ::
      AnswerTo(answers, s.txs[o].order.value) in {Paid, Attempted, OrderCreated}
  }

  /**
   * With an answer for every order, and every selected operation more than 300 seconds old,
   * exactly the payment-link operations stay in flight.
   */
  lemma OnlyPaymentLinksRemain(s: State, rows: seq<Id>, now: int, timeout: int, answers: map<Id, OrderAnswer>, o: Id)
    requires BooksOk(s) && Selection(s, rows, now, timeout)
    requires Answered(s, rows, answers)
    requires forall r | r in rows :: r in s.ops && now - s.ops[r].createdAt > UNPAID_AFTER_SECONDS
    requires o in rows
    ensures o in SweepRows(s, rows, now, answers).ops
    ensures SweepRows(s, rows, now, answers).ops[o].InFlight() <==>
            s.ops[o].status.Executing? && s.ops[o].kind.CreatePaymentLink?
  {
    assert o in RowSet(rows);
    SelectionEffect(s, rows, now, timeout, answers);
    assert OpOk(s, o);
  }

  /** An operation that the first sweep leaves is left by the second, which selects no other. */
  lemma NothingNewIsStuck(s: State, t: State, now: int, timeout: int, answers: map<Id, OrderAnswer>, o: Id)
    requires BooksOk(s) && Swept(s, t, Stuck(s, now, timeout), now, answers)
    requires o in Stuck(t, now, timeout)
    ensures o in t.ops && SweepVerdict(t, o, now, answers).Leave?
  {
    assert o in s.ops;
    assert OpOk(s, o);
  }

  lemma {:induction false} AllLeft(s: State, rows: seq<Id>, now: int, answers: map<Id, OrderAnswer>)
    requires forall o | o in rows :: o in s.ops && SweepVerdict(s, o, now, answers).Leave?
    ensures SweepRows(s, rows, now, answers) == s
    decreases |rows|
  {
    if rows != [] {
      AllLeft(s, rows[..|rows| - 1], now, answers);
    }
  }

  /** A second sweep with the same clock and the same answers changes nothing. */
  lemma SweepIsQuiescent(s: State, rows: seq<Id>, again: seq<Id>, now: int, timeout: int, answers: map<Id, OrderAnswer>)
    requires BooksOk(s) && Selection(s, rows, now, timeout)
    requires Selection(SweepRows(s, rows, now, answers), again, now, timeout)
    ensures SweepRows(SweepRows(s, rows, now, answers), again, now, answers) == SweepRows(s, rows, now, answers)
  {
    var t := SweepRows(s, rows, now, answers);
    SelectionEffect(s, rows, now, timeout, answers);
    forall o | o in again ensures o in t.ops && SweepVerdict(t, o, now, answers).Leave? {
      assert o in RowSet(again);
      NothingNewIsStuck(s, t, now, timeout, answers, o);
    }
    AllLeft(t, again, now, answers);
  }

  // --- The sweep and the lost webhook ------------------------------------------------------

  /** Replaces the payment reference that only the webhook knows. */
  function ForgetPayment(s: State, o: Id): State {
    if o in s.txs then s.(txs := s.txs[o := s.txs[o].(payment := None)]) else s
  }

  lemma SettledTwice(s: State, t: State, u: State)
    requires Settled(s, t) && Settled(t, u)
    ensures Settled(s, u)
  {
    forall m | m in s.mandates ensures Versioned(s, u, m) && SameTerms(s.mandates[m], u.mandates[m]) {
      assert Versioned(s, t, m) && Versioned(t, u, m);
      assert SameTerms(s.mandates[m], t.mandates[m]) && SameTerms(t.mandates[m], u.mandates[m]);
    }
  }

  /** Order `order` belongs to the stuck operation o alone, and the gateway reports it as paid. */
  ghost predicate PaidOrder(s: State, o: Id, order: Id, now: int, timeout: int, answers: map<Id, OrderAnswer>) {
    && o in Stuck(s, now, timeout)
    && o in s.txs && s.txs[o].order == Some(order)
    && ByOrder(s.txs, order) == OneRow(o)
    && AnswerTo(answers, order).Paid?
  }

  lemma SameOrderRow(txs: map<Id, Tx>, others: map<Id, Tx>, order: Id)
    requires txs.Keys == others.Keys && forall o | o in txs :: others[o].order == txs[o].order
    ensures ByOrder(txs, order) == ByOrder(others, order)
  {
    assert OrderRows(txs, order) == OrderRows(others, order);
  }

  /** The sweep first, then the webhook: the webhook finds nothing left to do. */
  lemma WebhookAfterSweep(s: State, o: Id, order: Id, payment: Option<Id>, rows: seq<Id>,
                          now: int, timeout: int, answers: map<Id, OrderAnswer>)
    requires BooksOk(s) && Selection(s, rows, now, timeout) && PaidOrder(s, o, order, now, timeout, answers)
    ensures OnCaptured(SweepRows(s, rows, now, answers), Some(order), payment) == Done(SweepRows(s, rows, now, answers))
    ensures o in SweepRows(s, rows, now, answers).ops
    ensures SweepRows(s, rows, now, answers).ops[o] == CommitOp(s.ops[o])
  {
    var t := SweepRows(s, rows, now, answers);
    SelectionEffect(s, rows, now, timeout, answers);
    assert OpOk(s, o);
    SameOrderRow(s.txs, t.txs, order);
  }

  lemma StuckAfterCapture(s: State, o: Id, payment: Option<Id>, now: int, timeout: int)
    requires o in s.ops && s.ops[o].InFlight()
    ensures Stuck(Capture(s, o, payment), now, timeout) == Stuck(s, now, timeout) - {o}
  {
  }

  lemma CapturedThenSweptOp(s: State, o: Id, order: Id, payment: Option<Id>, x: Id,
                            now: int, timeout: int, answers: map<Id, OrderAnswer>)
    requires BooksOk(s) && PaidOrder(s, o, order, now, timeout, answers) && x in s.ops
    ensures var c := Capture(s, o, payment);
            && SweptOps(c, Stuck(s, now, timeout) - {o}, now, answers)[x] == SweptOps(s, Stuck(s, now, timeout), now, answers)[x]
            && (x in s.txs ==>
                  var row := SweptTxs(c, Stuck(s, now, timeout) - {o}, now, answers)[x];
                  SweptTxs(s, Stuck(s, now, timeout), now, answers)[x] == if x == o then row.(payment := None) else row)
  {
    assert OpOk(s, o);
    var c := Capture(s, o, payment);
    if x != o {
      assert SweepVerdict(c, x, now, answers) == SweepVerdict(s, x, now, answers);
    }
  }

  /** What the captured webhook and then the sweep of the rest do to the operations. */
  lemma CapturedThenSweptOps(s: State, o: Id, order: Id, payment: Option<Id>,
                             now: int, timeout: int, answers: map<Id, OrderAnswer>)
    requires BooksOk(s) && PaidOrder(s, o, order, now, timeout, answers)
    ensures SweptOps(Capture(s, o, payment), Stuck(s, now, timeout) - {o}, now, answers)
         == SweptOps(s, Stuck(s, now, timeout), now, answers)
  {
    var after := SweptOps(Capture(s, o, payment), Stuck(s, now, timeout) - {o}, now, answers);
    var alone := SweptOps(s, Stuck(s, now, timeout), now, answers);
    forall x | x in alone ensures x in after && after[x] == alone[x] {
      CapturedThenSweptOp(s, o, order, payment, x, now, timeout, answers);
    }
  }

  /** The same for the transaction rows, up to the payment reference of o. */
  lemma CapturedThenSweptTxs(s: State, o: Id, order: Id, payment: Option<Id>,
                             now: int, timeout: int, answers: map<Id, OrderAnswer>)
    requires BooksOk(s) && PaidOrder(s, o, order, now, timeout, answers)
    ensures var after := SweptTxs(Capture(s, o, payment), Stuck(s, now, timeout) - {o}, now, answers);
            o in after && SweptTxs(s, Stuck(s, now, timeout), now, answers) == after[o := after[o].(payment := None)]
  {
    var after := SweptTxs(Capture(s, o, payment), Stuck(s, now, timeout) - {o}, now, answers);
    var alone := SweptTxs(s, Stuck(s, now, timeout), now, answers);
    forall x | x in alone ensures x in after && alone[x] == if x == o then after[x].(payment := None) else after[x] {
      CapturedThenSweptOp(s, o, order, payment, x, now, timeout, answers);
    }
  }

  lemma ForgetBooks(u: State, o: Id)
    requires BooksOk(u)
    ensures BooksOk(ForgetPayment(u, o))
  {
    var v := ForgetPayment(u, o);
    forall x | x in v.ops ensures OpOk(v, x) {
      assert OpOk(u, x);
    }
    forall m | m in v.mandates ensures Balanced(v, m) {
      assert Balanced(u, m);
    }
  }

  /** Neither the counters nor the other rows depend on the payment reference. */
  lemma ForgetKeeps(s: State, u: State, o: Id)
    requires Settled(s, u)
    ensures Settled(s, ForgetPayment(u, o))
  {
    ForgetBooks(u, o);
    assert Bounded(u) ==> Bounded(ForgetPayment(u, o));
    forall m | m in s.mandates ensures Versioned(s, ForgetPayment(u, o), m) {
      assert Versioned(s, u, m);
    }
  }

  /**
   * The webhook first, then the sweep of everything else: apart from the payment reference,
   * the same state as the sweep alone.
   */
  lemma SweepAfterWebhook(s: State, o: Id, order: Id, payment: Option<Id>, rows: seq<Id>, rest: seq<Id>,
                          now: int, timeout: int, answers: map<Id, OrderAnswer>)
    requires BooksOk(s) && Selection(s, rows, now, timeout) && PaidOrder(s, o, order, now, timeout, answers)
    requires Selection(Capture(s, o, payment), rest, now, timeout)
    ensures OnCaptured(s, Some(order), payment) == Done(Capture(s, o, payment))
    ensures ForgetPayment(SweepRows(Capture(s, o, payment), rest, now, answers), o) == SweepRows(s, rows, now, answers)
  {
    var c := Capture(s, o, payment);
    var u := SweepRows(c, rest, now, answers);
    SelectionEffect(s, rows, now, timeout, answers);
    SettledSelf(s);
    CaptureSettles(s, s, o, payment);
    SelectionEffect(c, rest, now, timeout, answers);
    SettledTwice(s, c, u);
    StuckAfterCapture(s, o, payment, now, timeout);
    CapturedThenSweptOps(s, o, order, payment, now, timeout, answers);
    CapturedThenSweptTxs(s, o, order, payment, now, timeout, answers);
    ForgetKeeps(s, u, o);
    Determined(s, ForgetPayment(u, o), SweepRows(s, rows, now, answers));
  }

  /**
   * The agreement stops at refunds. A refund event finds its operation by the payment reference;
   * after the webhook it credits the mandate, after the sweep it is accepted without effect.
   */
  lemma SweptPaymentsMissRefunds(s: State, o: Id, order: Id, payment: Id, amount: int, rows: seq<Id>,
                                 now: int, timeout: int, answers: map<Id, OrderAnswer>)
    requires BooksOk(s) && Selection(s, rows, now, timeout) && PaidOrder(s, o, order, now, timeout, answers)
    requires ByPayment(s.txs, payment).NoRow?
    ensures OnRefund(SweepRows(s, rows, now, answers), Some(payment), amount) == Done(SweepRows(s, rows, now, answers))
    ensures OnRefund(Capture(s, o, Some(payment)), Some(payment), amount)
         == Done(CreditRefund(Capture(s, o, Some(payment)), o, amount))
  {
    var t := SweepRows(s, rows, now, answers);
    var c := Capture(s, o, Some(payment));
    SelectionEffect(s, rows, now, timeout, answers);
    assert PaymentRows(t.txs, payment) == PaymentRows(s.txs, payment) == {};
    forall x | x in c.txs && x != o ensures c.txs[x].payment != Some(payment) {
      assert x !in PaymentRows(s.txs, payment);
    }
    assert PaymentRows(c.txs, payment) == {o};
  }
}
