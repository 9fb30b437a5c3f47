/** Delivery of payment events: what any sequence of them amounts to. */
module Webhooks {
  import opened Domain
  import opened Ledger
  import opened Books
  import opened Settlement

  predicate Settling(b: Body) {
    b.PaymentCaptured? || b.PaymentFailed?
  }

  /** The effect of one event on the ledger; an event whose handler raises has none. */
  function Absorb(s: State, b: Body): State {
    match Process(s, b)
    case Done(t) => t
    case Raised => s
  }

  function AbsorbAll(s: State, bs: seq<Body>): State {
    if bs == [] then s else Absorb(AbsorbAll(s, bs[..|bs| - 1]), bs[|bs| - 1])
  }

  /** The operation that a settling event is about, if its order is known and unambiguous. */
  function Target(txs: map<Id, Tx>, b: Body): Option<Id>
    requires Settling(b)
  {
    if b.order.None? then None
    else
      match ByOrder(txs, b.order.value)
      case OneRow(o) => Some(o)
      case _ => None
  }

  /** The first event of the sequence that is about operation o. */
  function First(txs: map<Id, Tx>, bs: seq<Body>, o: Id): Option<Body>
    requires forall b | b in bs :: Settling(b)
  {
    if bs == [] then None
    else
      var last := bs[|bs| - 1];
      var earlier := First(txs, bs[..|bs| - 1], o);
      if earlier.Some? then earlier
      else if Target(txs, last) == Some(o) then Some(last)
      else None
  }

  function PaidOp(op: Operation, b: Body): Operation {
    if b.PaymentCaptured? then CommitOp(op) else ReleaseOp(op)
  }

  function PaidTx(tx: Tx, b: Body): Tx {
    match b
    case PaymentCaptured(_, payment) => tx.(payment := if payment.Some? then payment else tx.payment, status := Captured)
    case _ => tx.(status := TxStatus.Failed)
  }

  /** The first event for each operation in flight. */
  function Firsts(s: State, bs: seq<Body>): map<Id, Body>
    requires forall b | b in bs :: Settling(b)
  {
    map o | o in s.ops && s.ops[o].InFlight() && First(s.txs, bs, o).Some? :: First(s.txs, bs, o).value
  }

  function SettledOps(s: State, firsts: map<Id, Body>): map<Id, Operation> {
    map o | o in s.ops :: if o in firsts then PaidOp(s.ops[o], firsts[o]) else s.ops[o]
  }

  function SettledTxs(s: State, firsts: map<Id, Body>): map<Id, Tx> {
    map o | o in s.txs :: if o in firsts then PaidTx(s.txs[o], firsts[o]) else s.txs[o]
  }

  /** t is s after each operation in firsts was settled by its event. */
  ghost predicate SettledBy(s: State, t: State, firsts: map<Id, Body>) {
    && Settled(s, t)
    && t.events == s.events
    && t.ops == SettledOps(s, firsts)
    && t.txs == SettledTxs(s, firsts)
  }

  lemma SameTarget(s: State, t: State, firsts: map<Id, Body>, b: Body)
    requires t.txs == SettledTxs(s, firsts) && Settling(b)
    ensures Target(t.txs, b) == Target(s.txs, b)
    ensures b.order.Some? ==> ByOrder(t.txs, b.order.value) == ByOrder(s.txs, b.order.value)
  {
    if b.order.Some? {
      assert OrderRows(t.txs, b.order.value) == OrderRows(s.txs, b.order.value);
    }
  }

  /** An event without a target, or whose operation is no longer in flight, changes nothing. */
  lemma NoEffect(t: State, b: Body)
    requires BooksOk(t) && Settling(b)
    requires Target(t.txs, b).Some? ==> Target(t.txs, b).value in t.ops && !t.ops[Target(t.txs, b).value].InFlight()
    ensures Absorb(t, b) == t
  {
  }

  lemma SettledOpsAdd(s: State, firsts: map<Id, Body>, o: Id, b: Body)
    requires o in s.ops && o !in firsts
    ensures SettledOps(s, firsts[o := b]) == SettledOps(s, firsts)[o := PaidOp(s.ops[o], b)]
  {
  }

  lemma SettledTxsAdd(s: State, firsts: map<Id, Body>, o: Id, b: Body)
    requires o in s.txs && o !in firsts
    ensures SettledTxs(s, firsts[o := b]) == SettledTxs(s, firsts)[o := PaidTx(s.txs[o], b)]
  {
  }

  /** The event of an operation in flight settles it. */
  lemma Effect(s: State, t: State, firsts: map<Id, Body>, o: Id, b: Body)
    requires SettledBy(s, t, firsts) && Settling(b)
    requires o in s.ops && s.ops[o].InFlight() && o !in firsts
    requires Target(t.txs, b) == Some(o) && o in s.txs
    ensures SettledBy(s, Absorb(t, b), firsts[o := b])
  {
    SettledOpsAdd(s, firsts, o, b);
    SettledTxsAdd(s, firsts, o, b);
    assert t.ops[o] == s.ops[o] && t.txs[o] == s.txs[o];
    if b.PaymentCaptured? {
      assert Absorb(t, b) == Capture(t, o, b.payment);
      CaptureSettles(s, t, o, b.payment);
    } else {
      assert Absorb(t, b) == FailPayment(t, o);
      FailPaymentSettles(s, t, o);
    }
  }

  lemma TargetRow(s: State, b: Body)
    requires BooksOk(s) && Settling(b) && Target(s.txs, b).Some?
    ensures Target(s.txs, b).value in s.txs && Target(s.txs, b).value in s.ops
  {
    var o := Target(s.txs, b).value;
    assert OrderRows(s.txs, b.order.value) == {o};
    assert o in OrderRows(s.txs, b.order.value);
  }

  /** The event is about an operation in flight that no earlier event was about. */
  predicate IsFirst(s: State, firsts: map<Id, Body>, b: Body)
    requires Settling(b)
  {
    var target := Target(s.txs, b);
    target.Some? && target.value in s.ops && s.ops[target.value].InFlight() && target.value !in firsts
  }

  lemma FirstsStep(s: State, bs: seq<Body>)
    requires bs != [] && forall b | b in bs :: Settling(b)
    ensures var init, b := bs[..|bs| - 1], bs[|bs| - 1];
            Firsts(s, bs) == if IsFirst(s, Firsts(s, init), b) then Firsts(s, init)[Target(s.txs, b).value := b] else Firsts(s, init)
  {
  }

  /** One more event. */
  lemma DeliveredStep(s: State, t: State, firsts: map<Id, Body>, b: Body)
    requires BooksOk(s) && SettledBy(s, t, firsts) && Settling(b)
    requires forall o | o in firsts :: o in s.ops && s.ops[o].InFlight()
    ensures SettledBy(s, Absorb(t, b), if IsFirst(s, firsts, b) then firsts[Target(s.txs, b).value := b] else firsts)
  {
    SameTarget(s, t, firsts, b);
    if Target(s.txs, b).Some? {
      TargetRow(s, b);
    }
    if IsFirst(s, firsts, b) {
      Effect(s, t, firsts, Target(s.txs, b).value, b);
    } else {
      NoEffect(t, b);
    }
  }

  /** Any sequence of settling events amounts to the first event of each operation in flight. */
  lemma {:induction false} Delivered(s: State, bs: seq<Body>)
    requires BooksOk(s)
    requires forall b | b in bs :: Settling(b)
    ensures SettledBy(s, AbsorbAll(s, bs), Firsts(s, bs))
    decreases |bs|
  {
    if bs == [] {
      SettledSelf(s);
      assert SettledOps(s, Firsts(s, bs)) == s.ops && SettledTxs(s, Firsts(s, bs)) == s.txs;
    } else {
      var init := bs[..|bs| - 1];
      Delivered(s, init);
      FirstsStep(s, bs);
      DeliveredStep(s, AbsorbAll(s, init), Firsts(s, init), bs[|bs| - 1]);
    }
  }

  /**
   * Delivery equivalence: duplicates, late contradictions and the interleaving of different
   * orders do not matter. Two sequences that agree on the first event of each operation in
   * flight leave the same state.
   */
  lemma DeliveryEquivalence(s: State, bs: seq<Body>, others: seq<Body>)
    requires BooksOk(s)
    requires forall b | b in bs + others :: Settling(b)
    requires forall o | o in s.ops && s.ops[o].InFlight() :: First(s.txs, bs, o) == First(s.txs, others, o)
    ensures AbsorbAll(s, bs) == AbsorbAll(s, others)
  {
    assert forall b | b in bs :: b in bs + others;
    assert forall b | b in others :: b in bs + others;
    Delivered(s, bs);
    Delivered(s, others);
    assert Firsts(s, bs) == Firsts(s, others);
    Determined(s, AbsorbAll(s, bs), AbsorbAll(s, others));
  }

  function FirstOfTwo(txs: map<Id, Tx>, a: Body, b: Body, o: Id): Option<Body>
    requires Settling(a) && Settling(b)
  {
    if Target(txs, a) == Some(o) then Some(a)
    else if Target(txs, b) == Some(o) then Some(b)
    else None
  }

  lemma TwoEvents(s: State, a: Body, b: Body)
    requires Settling(a) && Settling(b)
    ensures AbsorbAll(s, [a, b]) == Absorb(Absorb(s, a), b)
    ensures forall o: Id :: First(s.txs, [a, b], o) == FirstOfTwo(s.txs, a, b, o)
  {
    assert [a, b][..1] == [a] && [a][..0] == [];
    assert AbsorbAll(s, []) == s;
    assert AbsorbAll(s, [a]) == Absorb(s, a);
    forall o: Id ensures First(s.txs, [a], o) == if Target(s.txs, a) == Some(o) then Some(a) else None {
      assert First(s.txs, [], o) == None;
    }
  }

  /** Events about different operations commute, even on the same mandate. */
  lemma EventsCommute(s: State, a: Body, b: Body)
    requires BooksOk(s) && Settling(a) && Settling(b)
    requires Target(s.txs, a).None? || Target(s.txs, a) != Target(s.txs, b)
    ensures Absorb(Absorb(s, a), b) == Absorb(Absorb(s, b), a)
  {
    TwoEvents(s, a, b);
    TwoEvents(s, b, a);
    DeliveryEquivalence(s, [a, b], [b, a]);
  }

  /** The events that count: the first one for each operation in flight, in their order. */
  function Effective(s: State, bs: seq<Body>): seq<Body>
    requires forall b | b in bs :: Settling(b)
  {
    if bs == [] then []
    else
      var init, b := bs[..|bs| - 1], bs[|bs| - 1];
      if IsFirst(s, Firsts(s, init), b) then Effective(s, init) + [b] else Effective(s, init)
  }

  lemma {:induction false} EffectiveFirsts(s: State, bs: seq<Body>)
    requires forall b | b in bs :: Settling(b)
    ensures forall b | b in Effective(s, bs) :: b in bs
    ensures Firsts(s, Effective(s, bs)) == Firsts(s, bs)
    ensures |Effective(s, bs)| == |Firsts(s, bs)|
    decreases |bs|
  {
    if bs != [] {
      var init, b := bs[..|bs| - 1], bs[|bs| - 1];
      EffectiveFirsts(s, init);
      FirstsStep(s, bs);
      if IsFirst(s, Firsts(s, init), b) {
        var kept := Effective(s, bs);
        assert kept[..|kept| - 1] == Effective(s, init);
        FirstsStep(s, kept);
      }
    }
  }

  /** All deliveries together equal the effective ones, each applied once. */
  lemma OnlyFirstsCount(s: State, bs: seq<Body>)
    requires BooksOk(s) && forall b | b in bs :: Settling(b)
    ensures forall b | b in Effective(s, bs) :: Settling(b)
    ensures AbsorbAll(s, bs) == AbsorbAll(s, Effective(s, bs))
    ensures |Effective(s, bs)| == |Firsts(s, bs)|
  {
    EffectiveFirsts(s, bs);
    Delivered(s, bs);
    Delivered(s, Effective(s, bs));
    Determined(s, AbsorbAll(s, bs), AbsorbAll(s, Effective(s, bs)));
  }

  // --- Deliveries with event identifiers ---------------------------------------------------

  datatype Delivery = Delivery(event: Id, body: Body)

  function DeliverAll(s: State, ds: seq<Delivery>): State {
    if ds == [] then s
    else
      var d := ds[|ds| - 1];
      Deliver(DeliverAll(s, ds[..|ds| - 1]), d.event, d.body)
  }

  /** The deliveries that are not ignored as duplicates. */
  function Attempted(s: State, ds: seq<Delivery>): seq<Delivery> {
    if ds == [] then []
    else
      var init, d := ds[..|ds| - 1], ds[|ds| - 1];
      if AlreadyProcessed(DeliverAll(s, init), d.event) then Attempted(s, init) else Attempted(s, init) + [d]
  }

  function Bodies(ds: seq<Delivery>): seq<Body> {
    seq(|ds|, i requires 0 <= i < |ds| => ds[i].body)
  }

  /** Every event identifier carries one body, and none was processed before. */
  ghost predicate FreshEvents(s: State, ds: seq<Delivery>) {
    && (forall d | d in ds :: Settling(d.body) && !AlreadyProcessed(s, d.event))
    && (forall d, e | d in ds && e in ds && d.event == e.event :: d.body == e.body)
  }

  lemma ProcessIgnoresEvents(s: State, events: map<Id, EventRecord>, b: Body)
    requires Settling(b)
    ensures Process(s.(events := events), b) ==
            match Process(s, b)
            case Done(t) => Done(t.(events := events))
            case Raised => Raised
  {
  }

  /** Whatever bodies come under an event identifier, the ledger is the one after the bodies of the attempted deliveries. */
  lemma {:induction false} AttemptsCount(s: State, ds: seq<Delivery>)
    requires forall d | d in ds :: Settling(d.body)
    ensures DeliverAll(s, ds).(events := s.events) == AbsorbAll(s, Bodies(Attempted(s, ds)))
    decreases |ds|
  {
    if ds != [] {
      var init, d := ds[..|ds| - 1], ds[|ds| - 1];
      assert forall x | x in init :: x in ds;
      AttemptsCount(s, init);
      if !AlreadyProcessed(DeliverAll(s, init), d.event) {
        var u := AbsorbAll(s, Bodies(Attempted(s, init)));
        var all := Bodies(Attempted(s, ds));
        assert all[..|all| - 1] == Bodies(Attempted(s, init)) && all[|all| - 1] == d.body;
        ProcessIgnoresEvents(u, DeliverAll(s, init).events, d.body);
        ProcessKeepsRecords(u, d.body);
      }
    }
  }

  /** If each identifier carries one body, the ledger after the deliveries is the one after all the bare events. */
  lemma {:induction false} DeliveriesAreEvents(s: State, ds: seq<Delivery>)
    requires BooksOk(s) && FreshEvents(s, ds)
    ensures DeliverAll(s, ds).(events := s.events) == AbsorbAll(s, Bodies(ds))
    ensures forall e | AlreadyProcessed(DeliverAll(s, ds), e) && !AlreadyProcessed(s, e) :: exists d :: d in ds && d.event == e
    decreases |ds|
  {
    if ds != [] {
      var init, d := ds[..|ds| - 1], ds[|ds| - 1];
      assert forall x | x in init :: x in ds;
      DeliveriesAreEvents(s, init);
      var t := DeliverAll(s, init);
      var u := AbsorbAll(s, Bodies(init));
      assert Bodies(ds)[..|ds| - 1] == Bodies(init);
      if AlreadyProcessed(t, d.event) {
        var e :| e in init && e.event == d.event;
        assert e.body == d.body;
        var i :| 0 <= i < |init| && init[i] == e;
        assert Bodies(init)[i] == d.body;
        RepeatChangesNothing(s, Bodies(init), d.body);
      } else {
        ProcessIgnoresEvents(u, t.events, d.body);
        ProcessKeepsRecords(u, d.body);
      }
    }
  }

  lemma {:induction false} FirstOfMember(txs: map<Id, Tx>, bs: seq<Body>, b: Body)
    requires forall x | x in bs :: Settling(x)
    requires b in bs && Target(txs, b).Some?
    ensures First(txs, bs, Target(txs, b).value).Some?
    decreases |bs|
  {
    var last := |bs| - 1;
    if b != bs[last] {
      assert b in bs[..last];
      FirstOfMember(txs, bs[..last], b);
    }
  }

  /** Repeating an event of the sequence has no further effect. */
  lemma RepeatChangesNothing(s: State, bs: seq<Body>, b: Body)
    requires BooksOk(s) && b in bs && forall x | x in bs :: Settling(x)
    ensures Absorb(AbsorbAll(s, bs), b) == AbsorbAll(s, bs)
  {
    Delivered(s, bs);
    var firsts := Firsts(s, bs);
    SameTarget(s, AbsorbAll(s, bs), firsts, b);
    if Target(s.txs, b).Some? {
      TargetRow(s, b);
      FirstOfMember(s.txs, bs, b);
    }
    NoEffect(AbsorbAll(s, bs), b);
  }

  // --- Refunds dispatched by the control plane itself --------------------------------------

  /**
   * A refund operation records the refunded payment on its own transaction row. If another row
   * already carries that payment, every later refund event for it raises; if none does, the
   * event is credited to the refund operation's own mandate.
   */
  lemma DispatchedRefundsShadowPayments(s: State, o: Id, payment: Id, answer: GatewayAnswer, amount: int)
    requires BooksOk(s) && o in s.ops && s.ops[o].status.Reserved?
    requires s.ops[o].kind.CreateRefund? && s.ops[o].refundOf == Some(payment) && answer.Confirmed?
    ensures var t := Execute(s, o, answer);
            var event := OnRefund(t, Some(payment), amount);
            if ByPayment(s.txs, payment).NoRow? then event == Done(CreditRefund(t, o, amount)) else event.Raised?
  {
    var t := Execute(s, o, answer);
    assert OpOk(s, o);
    assert o !in s.txs;
    assert PaymentRows(t.txs, payment) == PaymentRows(s.txs, payment) + {o};
    assert o !in PaymentRows(s.txs, payment);
    if PaymentRows(s.txs, payment) != {} {
      var x :| x in PaymentRows(s.txs, payment);
      assert {x, o} <= PaymentRows(t.txs, payment);
    }
  }
}
