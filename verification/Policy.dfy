/** The deterministic policy engine: nine rules folded into one decision. */
module Policy {
  import opened Domain
  import opened Forest

  datatype Rule =
    | AgentStatusRule
    | MandateLifecycleRule
    | HierarchicalDelegationRule
    | CurrencyMatchRule
    | AllowedOperationTypeRule
    | PerTransactionLimitRule
    | AggregateSpendLimitRule
    | HumanReviewThresholdRule
    | RateLimitRule

  const DEFAULT_RULES: seq<Rule> := [
    AgentStatusRule,
    MandateLifecycleRule,
    HierarchicalDelegationRule,
    CurrencyMatchRule,
    AllowedOperationTypeRule,
    PerTransactionLimitRule,
    AggregateSpendLimitRule,
    HumanReviewThresholdRule,
    RateLimitRule
  ]

  /**
   * What the rules see. The clock and the rate limiter's answer are inputs; session holds the
   * mandate table when the caller passes a database session, and is None in the live pipeline.
   */
  datatype Query = Query(
    agent: AgentStatus,
    mandate: Mandate,
    kind: OpType,
    amount: Amount,
    currency: string,
    approvedBy: Option<Id>,
    now: int,
    rateOk: bool,
    session: Option<Mandates>)

  /** Every mandate on the way up from p, p included, exists and is active. */
  ghost predicate LineActive(ms: Mandates, p: Option<Id>) {
    p.Some? ==> forall k: nat :: StepActive(ms, AncestorAt(ms, p.value, k))
  }

  predicate StepActive(ms: Mandates, a: Option<Id>) {
    a.Some? ==> a.value in ms && ms[a.value].status.Active?
  }

  /** The verdict of one rule. */
  ghost function Verdict(rule: Rule, q: Query): Decision {
    match rule
    case AgentStatusRule => if q.agent.Active? then Allow else Deny
    case MandateLifecycleRule =>
      if q.mandate.status.Active? && q.mandate.validFrom <= q.now <= q.mandate.validUntil then Allow else Deny
    case HierarchicalDelegationRule =>
      if q.session.Some? && !LineActive(q.session.value, q.mandate.parent) then Deny else Allow
    case CurrencyMatchRule => if Upper(q.currency) == Upper(q.mandate.currency) then Allow else Deny
    case AllowedOperationTypeRule => if Whitelisted(q.mandate.allowed, q.kind) then Allow else Deny
    case PerTransactionLimitRule => if q.amount <= q.mandate.maxPerOp then Allow else Deny
    case AggregateSpendLimitRule => if q.mandate.Fits(q.amount) then Allow else Deny
    case HumanReviewThresholdRule =>
      if q.approvedBy.None? && q.mandate.review.Some? && q.mandate.review.value != 0 && q.amount >= q.mandate.review.value
      then RequireHumanReview else Allow
    case RateLimitRule => if q.rateOk then Allow else Deny
  }

  /** Some rule of the list answers d. */
  ghost predicate Says(rules: seq<Rule>, q: Query, d: Decision) {
    exists i :: 0 <= i < |rules| && Verdict(rules[i], q) == d
  }

  /** The decision: any denial wins, then any request for review. */
  ghost function Decide(rules: seq<Rule>, q: Query): Decision {
    if Says(rules, q, Deny) then Deny
    else if Says(rules, q, RequireHumanReview) then RequireHumanReview
    else Allow
  }

  /** The rules that deny, in order. */
  ghost function Rejections(rules: seq<Rule>, q: Query): seq<Rule> {
    if rules == [] then []
    else
      var last := |rules| - 1;
      Rejections(rules[..last], q) + if Verdict(rules[last], q).Deny? then [rules[last]] else []
  }

  /** The rules that ask for review before the first denial, in order. */
  ghost function Reviews(rules: seq<Rule>, q: Query): seq<Rule> {
    if rules == [] then []
    else
      var last := |rules| - 1;
      Reviews(rules[..last], q)
      + if Verdict(rules[last], q).RequireHumanReview? && !Says(rules[..last], q, Deny) then [rules[last]] else []
  }

  // --- The engine --------------------------------------------------------------------------

  ghost predicate DepthsDescend(ms: Mandates) {
    forall m | m in ms && ms[m].parent.Some? && ms[m].parent.value in ms :: ms[ms[m].parent.value].depth < ms[m].depth
  }

  lemma {:induction false} LineEnds(ms: Mandates, p: Id, k: nat, j: nat)
    requires AncestorAt(ms, p, k).None? && k <= j
    ensures AncestorAt(ms, p, j).None?
    decreases k
  {
    if p in ms && ms[p].parent.Some? {
      LineEnds(ms, ms[p].parent.value, k - 1, j - 1);
    }
  }

  /** The walk up the parent chain; it ends because the depth falls. */
  method WalkParents(ms: Mandates, start: Id) returns (d: Decision)
    requires DepthsDescend(ms)
    ensures d == if LineActive(ms, Some(start)) then Allow else Deny
  {
    var curr := Some(start);
    ghost var k: nat := 0;
    while curr.Some?
      invariant AncestorAt(ms, start, k) == curr
      invariant forall j: nat | j < k :: StepActive(ms, AncestorAt(ms, start, j))
      decreases if curr.None? then 0 else if curr.value !in ms then 1 else ms[curr.value].depth + 2
    {
      if curr.value !in ms || !ms[curr.value].status.Active? {
        assert !StepActive(ms, AncestorAt(ms, start, k));
        return Deny;
      }
      AncestorStep(ms, start, k);
      curr := ms[curr.value].parent;
      k := k + 1;
    }
    forall j: nat ensures StepActive(ms, AncestorAt(ms, start, j)) {
      if k <= j {
        LineEnds(ms, start, k, j);
      }
    }
    return Allow;
  }

  method EvaluateRule(rule: Rule, q: Query) returns (d: Decision)
    requires q.session.Some? ==> DepthsDescend(q.session.value)
    ensures d == Verdict(rule, q)
  {
    match rule
    case AgentStatusRule =>
      return if q.agent != AgentStatus.Active then Deny else Allow;
    case MandateLifecycleRule =>
      if q.mandate.status != MandateStatus.Active {
        return Deny;
      }
      if q.now < q.mandate.validFrom {
        return Deny;
      }
      if q.now > q.mandate.validUntil {
        return Deny;
      }
      return Allow;
    case HierarchicalDelegationRule =>
      if q.mandate.parent.None? || q.session.None? {
        return Allow;
      }
      d := WalkParents(q.session.value, q.mandate.parent.value);
    case CurrencyMatchRule =>
      return if Upper(q.currency) != Upper(q.mandate.currency) then Deny else Allow;
    case AllowedOperationTypeRule =>
      return if q.mandate.allowed != [] && q.kind.Name() !in q.mandate.allowed then Deny else Allow;
    case PerTransactionLimitRule =>
      return if q.amount > q.mandate.maxPerOp then Deny else Allow;
    case AggregateSpendLimitRule =>
      var projected := q.mandate.committed + q.mandate.reserved + q.amount;
      return if projected > q.mandate.limit then Deny else Allow;
    case HumanReviewThresholdRule =>
      if q.approvedBy.Some? {
        return Allow;
      }
      var truthy := q.mandate.review.Some? && q.mandate.review.value != 0;
      return if truthy && q.amount >= q.mandate.review.value then RequireHumanReview else Allow;
    case RateLimitRule =>
      return if q.rateOk then Allow else Deny;
  }

  lemma SaysLast(rules: seq<Rule>, n: nat, q: Query, d: Decision)
    requires n < |rules|
    ensures Says(rules[..n + 1], q, d) <==> Says(rules[..n], q, d) || Verdict(rules[n], q) == d
  {
    if Says(rules[..n], q, d) {
      var i :| 0 <= i < n && Verdict(rules[..n][i], q) == d;
      assert rules[..n + 1][i] == rules[..n][i];
    }
    if Verdict(rules[n], q) == d {
      assert rules[..n + 1][n] == rules[n];
    }
    if Says(rules[..n + 1], q, d) && Verdict(rules[n], q) != d {
      var i :| 0 <= i < n + 1 && Verdict(rules[..n + 1][i], q) == d;
      assert rules[..n][i] == rules[..n + 1][i];
    }
  }

  /** The loop over the rules computes the order-free decision and the two ordered reason lists. */
  method Evaluate(rules: seq<Rule>, q: Query) returns (decision: Decision, rejections: seq<Rule>, reviews: seq<Rule>)
    requires q.session.Some? ==> DepthsDescend(q.session.value)
    ensures decision == Decide(rules, q)
    ensures rejections == Rejections(rules, q)
    ensures reviews == Reviews(rules, q)
  {
    decision, rejections, reviews := Allow, [], [];
    var i := 0;
    while i < |rules|
      invariant 0 <= i <= |rules|
      invariant decision == Decide(rules[..i], q)
      invariant rejections == Rejections(rules[..i], q)
      invariant reviews == Reviews(rules[..i], q)
    {
      var verdict := EvaluateRule(rules[i], q);
      SaysLast(rules, i, q, Deny);
      SaysLast(rules, i, q, RequireHumanReview);
      assert rules[..i + 1][..i] == rules[..i];
      if verdict.Deny? {
        rejections := rejections + [rules[i]];
        decision := Deny;
      } else if verdict.RequireHumanReview? && decision != Deny {
        reviews := reviews + [rules[i]];
        decision := RequireHumanReview;
      }
      i := i + 1;
    }
    assert rules[..|rules|] == rules;
  }

  // --- What a decision means ---------------------------------------------------------------

  /** The decision depends on which rules run, not on their order or repetition. */
  lemma DecisionIgnoresOrder(rules: seq<Rule>, others: seq<Rule>, q: Query)
    requires forall r :: r in rules <==> r in others
    ensures Decide(rules, q) == Decide(others, q)
  {
    forall d: Decision ensures Says(rules, q, d) <==> Says(others, q, d) {
      if Says(rules, q, d) {
        var i :| 0 <= i < |rules| && Verdict(rules[i], q) == d;
        assert rules[i] in others;
      }
      if Says(others, q, d) {
        var i :| 0 <= i < |others| && Verdict(others[i], q) == d;
        assert others[i] in rules;
      }
    }
  }

  lemma NotDenied(rules: seq<Rule>, q: Query, r: Rule)
    requires Decide(rules, q) != Deny && r in rules
    ensures Verdict(r, q) != Deny
  {
    var i :| 0 <= i < |rules| && rules[i] == r;
  }

  /** A walk that starts above an active mandate of the forest finds only active mandates. */
  lemma ActiveLine(ms: Mandates, m: Id)
    requires ForestOk(ms) && m in ms && ms[m].status.Active?
    ensures LineActive(ms, ms[m].parent)
  {
    if ms[m].parent.Some? {
      var p := ms[m].parent.value;
      assert Rooted(ms, m);
      forall k: nat ensures StepActive(ms, AncestorAt(ms, p, k)) {
        if AncestorAt(ms, p, k).Some? {
          AncestorBounds(ms, p, k, AncestorAt(ms, p, k).value);
        }
      }
    }
  }

  lemma ForestDepths(ms: Mandates)
    requires ForestOk(ms)
    ensures DepthsDescend(ms)
  {
    forall m | m in ms && ms[m].parent.Some? ensures ms[m].parent.value in ms && ms[ms[m].parent.value].depth < ms[m].depth {
      assert Rooted(ms, m);
    }
  }

  /** In a sound forest the decision without the parent walk equals the decision with it. */
  lemma WalkChangesNothing(ms: Mandates, m: Id, q: Query)
    requires ForestOk(ms) && m in ms && q.mandate == ms[m]
    ensures Decide(DEFAULT_RULES, q.(session := None)) == Decide(DEFAULT_RULES, q.(session := Some(ms)))
  {
    var live, dry := q.(session := None), q.(session := Some(ms));
    forall r | r != HierarchicalDelegationRule ensures Verdict(r, live) == Verdict(r, dry) {}
    if q.mandate.status.Active? {
      ActiveLine(ms, m);
      forall r ensures Verdict(r, live) == Verdict(r, dry) {}
    } else {
      assert Verdict(DEFAULT_RULES[1], live) == Deny && Verdict(DEFAULT_RULES[1], dry) == Deny;
    }
  }

  /** An operation that is not denied respects every ancestor of its mandate. */
  lemma AllowBindsAncestors(ms: Mandates, m: Id, q: Query, k: nat, a: Id)
    requires ForestOk(ms) && m in ms && q.mandate == ms[m]
    requires AncestorAt(ms, m, k) == Some(a)
    requires Decide(DEFAULT_RULES, q) != Deny
    ensures a in ms && ms[a].status.Active?
    ensures q.amount <= ms[a].maxPerOp
    ensures q.now <= ms[a].validUntil
    ensures Upper(q.currency) == ms[a].currency
    ensures Whitelisted(ms[a].allowed, q.kind)
    ensures ms[m].committed + ms[m].reserved + q.amount <= ms[m].limit
  {
    AncestorBounds(ms, m, k, a);
    assert Rooted(ms, m);
    NotDenied(DEFAULT_RULES, q, MandateLifecycleRule);
    NotDenied(DEFAULT_RULES, q, CurrencyMatchRule);
    NotDenied(DEFAULT_RULES, q, AllowedOperationTypeRule);
    NotDenied(DEFAULT_RULES, q, PerTransactionLimitRule);
    NotDenied(DEFAULT_RULES, q, AggregateSpendLimitRule);
  }
}
