/**
 * Settlement in general: a state that is reached by settling operations is determined by its
 * operations and transaction rows alone, because the counters follow by conservation and each
 * settlement bumps its mandate's version once.
 */
module Settlement {
  import opened Domain
  import opened Forest
  import opened Ledger
  import opened Books

  /** How many times the operation's reservation was closed. */
  function ClosedOf(op: Operation): int {
    op.book.commits + op.book.releases
  }

  /** The version of mandate m advanced by the number of its operations closed since s. */
  ghost predicate Versioned(s: State, t: State, m: Id)
    requires m in s.mandates && m in t.mandates
  {
    t.mandates[m].version == s.mandates[m].version + Tally(t.ops, m, ClosedOf) - Tally(s.ops, m, ClosedOf)
  }

  /** t can be reached from s by settlements. */
  ghost predicate Settled(s: State, t: State) {
    && Kept(s, t)
    && t.agents == s.agents
    && forall m {:trigger Versioned(s, t, m)} | m in s.mandates :: Versioned(s, t, m)
  }

  lemma SettledSelf(s: State)
    requires BooksOk(s)
    ensures Settled(s, s)
  {
  }

  /** Same operations, rows and events: same state. */
  lemma Determined(s: State, t: State, u: State)
    requires Settled(s, t) && Settled(s, u)
    requires t.ops == u.ops && t.txs == u.txs && t.events == u.events
    ensures t == u
  {
    forall m | m in s.mandates ensures t.mandates[m] == u.mandates[m] {
      assert Versioned(s, t, m) && Versioned(s, u, m);
      assert Balanced(t, m) && Balanced(u, m);
      assert SameTerms(s.mandates[m], t.mandates[m]) && SameTerms(s.mandates[m], u.mandates[m]);
    }
    assert t.mandates == u.mandates;
  }

  /** One more settlement of operation o, whatever it writes to the transaction row. */
  lemma OneMore(s: State, t: State, u: State, o: Id)
    requires Settled(s, t) && o in t.ops && u.agents == t.agents
    requires Kept(t, u)
    requires o in u.ops && u.ops == t.ops[o := u.ops[o]]
    requires u.ops[o].mandate == t.ops[o].mandate && ClosedOf(u.ops[o]) == ClosedOf(t.ops[o]) + 1
    requires forall m | m in t.mandates ::
      u.mandates[m].version == t.mandates[m].version + if m == t.ops[o].mandate then 1 else 0
    ensures Settled(s, u)
  {
    forall m | m in s.mandates ensures Versioned(s, u, m) && SameTerms(s.mandates[m], u.mandates[m]) {
      assert Versioned(s, t, m);
      assert SameTerms(s.mandates[m], t.mandates[m]) && SameTerms(t.mandates[m], u.mandates[m]);
      TallyUpdate(t.ops, o, u.ops[o], m, ClosedOf);
    }
  }

  lemma CaptureSettles(s: State, t: State, o: Id, payment: Option<Id>)
    requires Settled(s, t) && o in t.ops && t.ops[o].InFlight()
    ensures Settled(s, Capture(t, o, payment))
  {
    CaptureKeeps(t, o, payment);
    assert OpOk(t, o);
    OneMore(s, t, Capture(t, o, payment), o);
  }

  lemma ReleaseSettles(s: State, t: State, o: Id)
    requires Settled(s, t) && o in t.ops && t.ops[o].InFlight()
    ensures Settled(s, Release(t, o))
  {
    ReleaseKeeps(t, o);
    assert OpOk(t, o);
    OneMore(s, t, Release(t, o), o);
  }

  lemma FailPaymentSettles(s: State, t: State, o: Id)
    requires Settled(s, t) && o in t.ops && t.ops[o].InFlight()
    ensures Settled(s, FailPayment(t, o))
  {
    FailPaymentKeeps(t, o);
    assert OpOk(t, o);
    OneMore(s, t, FailPayment(t, o), o);
  }
}
