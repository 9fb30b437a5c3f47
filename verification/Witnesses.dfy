/** Concrete runs that show where the general theorems stop. */
module Witnesses {
  import opened Domain
  import opened Sums
  import opened Forest
  import opened Policy
  import opened Ledger
  import opened Books
  import opened Machine
  import opened TreeBudget
  import opened Interleaving
  import opened Overspend

  function Terms(limit: Amount): MandateRequest {
    MandateRequest(0, "INR", 100, limit, None, [], 1000)
  }

  function Share(): DelegateRequest {
    DelegateRequest(0, None, 100, 100, None, [], 1000)
  }

  /** An order over 100 on mandate m. */
  function OrderOn(m: Id): OpRequest {
    OpRequest(0, m, CreateOrder, 100, "INR", None)
  }

  function OrderStep(o: Id, m: Id): Step {
    RequestOperation(o, OrderOn(m), 0, true, Confirmed(o, false))
  }

  /** The policy allows a query that passes every rule. */
  lemma AllRulesPass(q: Query)
    requires forall r :: Verdict(r, q) == Allow
    ensures Decide(DEFAULT_RULES, q) == Allow
  {
  }

  /** The mandate permits orders over 100. */
  predicate Open(row: Mandate) {
    && row.status.Active? && row.maxPerOp == 100 && row.allowed == [] && row.review.None?
    && row.validFrom == 0 && row.validUntil == 1000 && row.currency == "INR"
  }

  predicate Ready(s: State, m: Id) {
    m in s.mandates && 0 in s.agents && s.agents[0].Active? && Open(s.mandates[m]) && s.mandates[m].Fits(100)
  }

  predicate Unspent(s: State, m: Id) {
    Ready(s, m) && s.mandates[m].committed == s.mandates[m].reserved == 0 && s.mandates[m].limit == 100
  }

  lemma OrderReserves(s: State, o: Id, m: Id)
    requires Ready(s, m) && o !in s.ops
    ensures var t := Next(s, OrderStep(o, m));
            && t.mandates == Adjust(s.mandates, m, 100, 0, 1)
            && t.agents == s.agents
            && t.ops.Keys == s.ops.Keys + {o}
            && t.ops[o].InFlight() && t.ops[o].amount == 100 && t.ops[o].mandate == m
            && forall x | x in s.ops :: t.ops[x] == s.ops[x]
  {
    var q := LiveQuery(s, OrderOn(m), 0, true);
    assert Upper("INR") == "INR";
    assert Upper(Upper("INR")) == "INR";
    forall r ensures Verdict(r, q) == Allow {}
    AllRulesPass(q);
  }

  lemma Unroll(s: State, step: Step, rest: seq<Step>)
    ensures Run(s, [step] + rest) == Run(Next(s, step), rest)
    ensures FairRun(s, [step] + rest) <==> Fair(s, step) && FairRun(Next(s, step), rest)
  {
    assert ([step] + rest)[1..] == rest;
  }

  // --- A full tree -------------------------------------------------------------------------

  /** Agent 0 is registered and holds mandate 0. */
  function Issued(limit: Amount): State {
    Empty().(agents := map[0 := AgentStatus.Active], mandates := map[0 := RootMandate(Terms(limit), 0)])
  }

  function Setup(limit: Amount): seq<Step> {
    [SetAgent(0, AgentStatus.Active)] + [CreateMandate(0, Terms(limit), 0)]
  }

  lemma SetupRun(limit: Amount, rest: seq<Step>)
    requires 100 <= limit
    ensures Run(Empty(), Setup(limit) + rest) == Run(Issued(limit), rest)
    ensures FairRun(Empty(), Setup(limit) + rest) <==> FairRun(Issued(limit), rest)
    ensures Ready(Issued(limit), 0) && Issued(limit).mandates[0].limit == limit
  {
    var a, b := SetAgent(0, AgentStatus.Active), CreateMandate(0, Terms(limit), 0);
    assert Setup(limit) + rest == [a] + ([b] + rest);
    Unroll(Empty(), a, [b] + rest);
    Unroll(Next(Empty(), a), b, rest);
    assert Upper("INR") == "INR";
    assert Next(Next(Empty(), a), b) == Issued(limit);
  }

  /** The whole limit of p is delegated to a new child c. */
  lemma DelegateAll(s: State, p: Id, c: Id)
    requires Unspent(s, p) && c !in s.mandates
    requires s.mandates[p].delegated == 0 && s.mandates[p].depth < s.mandates[p].maxDepth
    ensures var t := Next(s, DelegateMandate(p, c, Share(), 0));
            && t.agents == s.agents && t.ops == s.ops
            && t.mandates.Keys == s.mandates.Keys + {c}
            && Unspent(t, p) && Unspent(t, c)
            && t.mandates[p].parent == s.mandates[p].parent
            && t.mandates[c].parent == Some(p) && t.mandates[c].delegated == 0
            && t.mandates[c].depth == s.mandates[p].depth + 1 && t.mandates[c].maxDepth == s.mandates[p].maxDepth
            && forall x | x in s.mandates && x != p :: t.mandates[x] == s.mandates[x]
  {
    assert Upper("INR") == "INR";
  }

  function Delegations(): seq<Step> {
    [DelegateMandate(0, 1, Share(), 0)] + [DelegateMandate(1, 2, Share(), 0)]
  }

  function Orders(): seq<Step> {
    [OrderStep(0, 0)] + ([OrderStep(1, 1)] + [OrderStep(2, 2)])
  }

  ghost predicate ThreeLevels(s: State) {
    && s.mandates.Keys == {0, 1, 2} && s.ops == map[]
    && Unspent(s, 0) && Unspent(s, 1) && Unspent(s, 2)
    && s.mandates[0].parent == None && s.mandates[1].parent == Some(0) && s.mandates[2].parent == Some(1)
    && s.mandates[0].depth == 0 && s.mandates[0].maxDepth == 2
  }

  lemma DelegationsRun(rest: seq<Step>)
    ensures var t := Next(Next(Issued(100), DelegateMandate(0, 1, Share(), 0)), DelegateMandate(1, 2, Share(), 0));
            && ThreeLevels(t)
            && Run(Issued(100), Delegations() + rest) == Run(t, rest)
            && (FairRun(Issued(100), Delegations() + rest) <==> FairRun(t, rest))
  {
    var a, b := DelegateMandate(0, 1, Share(), 0), DelegateMandate(1, 2, Share(), 0);
    SetupRun(100, []);
    DelegateAll(Issued(100), 0, 1);
    var s1 := Next(Issued(100), a);
    DelegateAll(s1, 1, 2);
    var s2 := Next(s1, b);
    assert s2.mandates.Keys == {0, 1, 2};
    assert Delegations() + rest == [a] + ([b] + rest);
    Unroll(Issued(100), a, [b] + rest);
    Unroll(s1, b, rest);
  }

  /** An order on m leaves the terms of all mandates and the other mandates' counters alone. */
  lemma OrderLeavesOthers(s: State, m: Id)
    requires Unspent(s, m) && m !in s.ops
    ensures var t := Next(s, OrderStep(m, m));
            && t.agents == s.agents && SameForest(s.mandates, t.mandates)
            && SpendOf(t.mandates[m]) == 100
            && t.ops.Keys == s.ops.Keys + {m}
            && forall x | x in s.mandates && x != m :: t.mandates[x] == s.mandates[x]
  {
    OrderReserves(s, m, m);
  }

  /** Every mandate of the three levels spends its whole limit. */
  lemma OrdersRun(s: State)
    requires ThreeLevels(s)
    ensures var t := Run(s, Orders());
            && FairRun(s, Orders())
            && SameForest(s.mandates, t.mandates)
            && forall m | m in {0, 1, 2} :: SpendOf(t.mandates[m]) == 100
  {
    var a, b, c := OrderStep(0, 0), OrderStep(1, 1), OrderStep(2, 2);
    var s1 := Next(s, a);
    OrderLeavesOthers(s, 0);
    var s2 := Next(s1, b);
    OrderLeavesOthers(s1, 1);
    var s3 := Next(s2, c);
    OrderLeavesOthers(s2, 2);
    SameForestTwice(s.mandates, s1.mandates, s2.mandates);
    SameForestTwice(s.mandates, s2.mandates, s3.mandates);
    Unroll(s, a, [b] + [c]);
    Unroll(s1, b, [c]);
    Unroll(s2, c, []);
    assert [c] + [] == [c];
  }

  lemma ThreeSum(ms: Mandates)
    requires ms.Keys == {0, 1, 2} && forall m | m in ms :: SpendOf(ms[m]) == 100
    ensures Over(ms, {0, 1, 2}, SpendOf) == 300
  {
    assert {0, 1, 2} == {0} + ({1} + {2});
    OverUnion(ms, {0}, {1} + {2}, SpendOf);
    OverUnion(ms, {1}, {2}, SpendOf);
    OverOne(ms, 0, SpendOf);
    OverOne(ms, 1, SpendOf);
    OverOne(ms, 2, SpendOf);
  }

  lemma FullTree(ms: Mandates, ns: Mandates)
    requires SameForest(ms, ns) && ms.Keys == {0, 1, 2}
    requires ms[0].parent == None && ms[1].parent == Some(0) && ms[2].parent == Some(1)
    ensures Tree(ns, 0) == {0, 1, 2}
    ensures ns[0].limit == ms[0].limit && ns[0].depth == ms[0].depth && ns[0].maxDepth == ms[0].maxDepth
  {
    assert SameTerms(ms[0], ns[0]) && SameTerms(ms[1], ns[1]) && SameTerms(ms[2], ns[2]);
    BelowRoot(ns, 0, 0);
    BelowChild(ns, 0, 1);
    BelowChild(ns, 0, 2);
  }

  ghost function Delegatees(): State {
    Next(Next(Issued(100), DelegateMandate(0, 1, Share(), 0)), DelegateMandate(1, 2, Share(), 0))
  }

  ghost function FullySpent(): State {
    Run(Empty(), Setup(100) + (Delegations() + Orders()))
  }

  lemma FullySpentRun()
    ensures FairRun(Empty(), Setup(100) + (Delegations() + Orders()))
    ensures ThreeLevels(Delegatees()) && FullySpent() == Run(Delegatees(), Orders())
  {
    SetupRun(100, Delegations() + Orders());
    DelegationsRun(Orders());
    OrdersRun(Delegatees());
  }

  lemma FullySpentIsReachable()
    ensures Reachable(FullySpent())
  {
    FullySpentRun();
  }

  /**
   * The tree bound is attained, and it exceeds the root's limit: delegated shares are not
   * counted by the reservation, so a tree of three levels can spend three times the root's limit.
   */
  lemma TreeBoundIsTight()
    ensures var s := FullySpent();
            && Reachable(s) && 0 in s.mandates && s.mandates[0].limit == 100
            && Over(s.mandates, Tree(s.mandates, 0), SpendOf) == 300
            && (s.mandates[0].maxDepth - s.mandates[0].depth + 1) * s.mandates[0].limit == 300
  {
    FullySpentIsReachable();
    var ms, ns := Delegatees().mandates, FullySpent().mandates;
    assert ThreeLevels(Delegatees()) && SameForest(ms, ns) && (forall m | m in {0, 1, 2} :: SpendOf(ns[m]) == 100) by {
      FullySpentRun();
      OrdersRun(Delegatees());
    }
    FullTree(ms, ns);
    ThreeSum(ns);
  }

  // --- A payment verified twice ------------------------------------------------------------

  /** Mandate 0 after an order over 100 was paid. */
  ghost function OrderPaid(limit: Amount): State {
    Next(Next(Issued(limit), OrderStep(0, 0)), VerifyPayment(0, 9, true))
  }

  lemma OrderPaidRun(limit: Amount, rest: seq<Step>)
    requires 100 <= limit
    ensures Run(Empty(), Setup(limit) + ([OrderStep(0, 0)] + ([VerifyPayment(0, 9, true)] + rest))) == Run(OrderPaid(limit), rest)
    ensures FairRun(Empty(), Setup(limit) + ([OrderStep(0, 0)] + ([VerifyPayment(0, 9, true)] + rest)))
            <==> FairRun(OrderPaid(limit), rest)
    ensures var s := OrderPaid(limit);
            && s.agents == Issued(limit).agents
            && s.mandates.Keys == {0} && s.mandates[0].reserved == 0 && s.mandates[0].committed == 100
            && s.mandates[0].limit == limit && Open(s.mandates[0])
            && s.ops.Keys == {0} && s.ops[0].status.Succeeded? && s.ops[0].amount == 100 && s.ops[0].mandate == 0
  {
    var order, pay := OrderStep(0, 0), VerifyPayment(0, 9, true);
    SetupRun(limit, [order] + ([pay] + rest));
    OrderReserves(Issued(limit), 0, 0);
    Unroll(Issued(limit), order, [pay] + rest);
    Unroll(Next(Issued(limit), order), pay, rest);
  }

  lemma OrderPaidIsReachable(limit: Amount)
    requires 100 <= limit
    ensures Reachable(OrderPaid(limit))
  {
    OrderPaidRun(limit, []);
  }

  /**
   * Verifying a settled operation again breaks conservation: after a fair run that succeeded, a
   * second verification drives the reserve below zero with nothing in flight.
   */
  lemma SecondVerificationBreaks()
    ensures exists s :: Reachable(s) && 0 in s.mandates && 0 in s.ops && s.ops[0].status.Succeeded?
                        && Verify(s, 0, 9, true).mandates[0].reserved == -100
                        && Tally(Verify(s, 0, 9, true).ops, 0, HeldOf) == 0
  {
    var s := OrderPaid(100);
    OrderPaidRun(100, []);
    OrderPaidIsReachable(100);
    var again := Verify(s, 0, 9, true);
    assert again.ops.Keys == {0};
    SumZero(Weights(again.ops, 0, HeldOf));
  }

  // --- Limits exceeded ---------------------------------------------------------------------

  /** One order paid, a second one in flight, and the limit of 200 used up. */
  ghost function UsedUp(): State {
    Next(OrderPaid(200), OrderStep(1, 0))
  }

  lemma UsedUpIsReachable()
    ensures Reachable(UsedUp())
    ensures var s := UsedUp();
            && s.mandates.Keys == {0} && s.ops.Keys == {0, 1}
            && s.mandates[0].reserved == 100 && SpendOf(s.mandates[0]) == s.mandates[0].limit == 200
            && s.ops[0].status.Succeeded? && s.ops[0].mandate == 0
            && s.ops[1].InFlight() && s.ops[1].amount == 100 && s.ops[1].mandate == 0
  {
    var last := OrderStep(1, 0);
    OrderPaidRun(200, [last]);
    OrderReserves(OrderPaid(200), 1, 0);
    Unroll(OrderPaid(200), last, []);
    assert [last] + [] == [last];
    assert FairRun(OrderPaid(200), [last]) && Run(OrderPaid(200), [last]) == UsedUp();
  }

  /** A verification out of flight breaks the limit from a reachable state. */
  lemma StrayVerificationIsReal()
    ensures var s, w := UsedUp(), 7;
            && Reachable(s)
            && var t := ActAll(Shared(s, map[]), [VerifyOp(0, 9), ReadForSettlement(w, 1, true, true), Write(w, Rejected)]).db;
               0 in t.mandates && SpendOf(t.mandates[0]) == 300 && t.mandates[0].limit == 200
  {
    UsedUpIsReachable();
    StrayVerificationOverspends(Shared(UsedUp(), map[]), 0, 1, 9, 7, Rejected);
  }

  /** Two deliveries for one order that overlap break the limit from a reachable state. */
  lemma OverlappingDeliveriesAreReal()
    ensures var s := Next(Issued(100), OrderStep(0, 0));
            && Reachable(s)
            && var t := ActAll(Shared(s, map[]), [ReadForSettlement(7, 0, true, true), ReadForSettlement(8, 0, true, true),
                                                  Write(7, Rejected), Write(8, Rejected)]).db;
               0 in t.mandates && SpendOf(t.mandates[0]) == 200 && t.mandates[0].limit == 100
  {
    var order := OrderStep(0, 0);
    var s := Next(Issued(100), order);
    SetupRun(100, [order]);
    OrderReserves(Issued(100), 0, 0);
    Unroll(Issued(100), order, []);
    assert [order] + [] == [order];
    assert FairRun(Issued(100), [order]) && Run(Issued(100), [order]) == s;
    TwoDeliveriesCommitTwice(Shared(s, map[]), 0, 7, 8, Rejected, Rejected);
  }
}
