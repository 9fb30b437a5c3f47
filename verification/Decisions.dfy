/**
 * What the policy decides, stated on the agent, the mandate and the operation themselves: who may
 * spend, and when a human must review.
 */
module Decisions {
  import opened Domain
  import opened Forest
  import opened Policy

  // --- Letters -----------------------------------------------------------------------------

  /** The same letter, or one the capital of the other. */
  predicate SameLetter(c: char, d: char) {
    || c == d
    || ('a' <= c <= 'z' && d as int == c as int - 'a' as int + 'A' as int)
    || ('a' <= d <= 'z' && c as int == d as int - 'a' as int + 'A' as int)
  }

  /** The strings agree up to case. */
  predicate SameLetters(a: string, b: string) {
    |a| == |b| && forall i | 0 <= i < |a| :: SameLetter(a[i], b[i])
  }

  /** The string has no small letters. */
  predicate Capital(s: string) {
    forall i | 0 <= i < |s| :: !('a' <= s[i] <= 'z')
  }

  /** Upper-casing keeps the letters and leaves none small. */
  lemma UpperMeans(s: string)
    ensures Capital(Upper(s)) && SameLetters(Upper(s), s)
  {
    UpperTwice(s);
    UpperAgrees(Upper(s), s);
  }

  lemma UpperAgrees(a: string, b: string)
    ensures Upper(a) == Upper(b) <==> SameLetters(a, b)
  {
    if Upper(a) == Upper(b) {
      assert |Upper(a)| == |a| && |Upper(b)| == |b|;
      forall i | 0 <= i < |a| ensures SameLetter(a[i], b[i]) {
        assert Upper(a)[i] == Upper(b)[i];
      }
    }
  }

  // --- Conditions on the raw fields --------------------------------------------------------

  /** The whitelist names the type. */
  predicate Named(allowed: seq<string>, kind: OpType) {
    || (kind.CreateOrder? && "CREATE_ORDER" in allowed)
    || (kind.CapturePayment? && "CAPTURE_PAYMENT" in allowed)
    || (kind.CreateRefund? && "CREATE_REFUND" in allowed)
    || (kind.CreatePaymentLink? && "CREATE_PAYMENT_LINK" in allowed)
    || (kind.CancelPaymentLink? && "CANCEL_PAYMENT_LINK" in allowed)
  }

  /** Everything but human review permits the operation. */
  predicate Permits(agent: AgentStatus, row: Mandate, kind: OpType, amount: Amount, currency: string, now: int, rateOk: bool) {
    && agent.Active?
    && row.status.Active?
    && row.validFrom <= now <= row.validUntil
    && SameLetters(currency, row.currency)
    && (row.allowed == [] || Named(row.allowed, kind))
    && amount <= row.maxPerOp
    && row.committed + row.reserved + amount <= row.limit
    && rateOk
  }

  /** A nonzero review threshold is at or below the amount. */
  predicate Awaits(row: Mandate, amount: Amount) {
    row.review.Some? && row.review.value != 0 && row.review.value <= amount
  }

  /** Each ancestor that the walk meets exists and is active. */
  ghost predicate LineHolds(session: Option<Mandates>, row: Mandate) {
    session.Some? && row.parent.Some? ==>
      forall k: nat, a: Id :: AncestorAt(session.value, row.parent.value, k) == Some(a) ==>
        a in session.value && session.value[a].status.Active?
  }

  lemma LineMeans(session: Option<Mandates>, row: Mandate)
    ensures LineHolds(session, row) <==> (session.Some? ==> LineActive(session.value, row.parent))
  {
    if session.Some? && row.parent.Some? {
      var ms, p := session.value, row.parent.value;
      if LineActive(ms, row.parent) {
        forall k: nat, a: Id | AncestorAt(ms, p, k) == Some(a) ensures a in ms && ms[a].status.Active? {
          assert StepActive(ms, AncestorAt(ms, p, k));
        }
      }
      if LineHolds(session, row) {
        forall k: nat ensures StepActive(ms, AncestorAt(ms, p, k)) {
          if AncestorAt(ms, p, k).Some? {
            var a := AncestorAt(ms, p, k).value;
            assert AncestorAt(ms, p, k) == Some(a);
          }
        }
      }
    }
  }

  lemma NoDenial(rules: seq<Rule>, q: Query)
    ensures Says(rules, q, Deny) <==> exists r :: r in rules && Verdict(r, q) == Deny
    ensures Says(rules, q, RequireHumanReview) <==> exists r :: r in rules && Verdict(r, q) == RequireHumanReview
  {
    forall d: Decision ensures Says(rules, q, d) <==> exists r :: r in rules && Verdict(r, q) == d {
      if Says(rules, q, d) {
        var i :| 0 <= i < |rules| && Verdict(rules[i], q) == d;
        assert rules[i] in rules;
      }
      if exists r :: r in rules && Verdict(r, q) == d {
        var r :| r in rules && Verdict(r, q) == d;
        var i :| 0 <= i < |rules| && rules[i] == r;
      }
    }
  }

  /** The default rules are all nine. */
  lemma AllRules(r: Rule)
    ensures r in DEFAULT_RULES
  {
    assert DEFAULT_RULES[0] == AgentStatusRule && DEFAULT_RULES[1] == MandateLifecycleRule
        && DEFAULT_RULES[2] == HierarchicalDelegationRule && DEFAULT_RULES[3] == CurrencyMatchRule
        && DEFAULT_RULES[4] == AllowedOperationTypeRule && DEFAULT_RULES[5] == PerTransactionLimitRule
        && DEFAULT_RULES[6] == AggregateSpendLimitRule && DEFAULT_RULES[7] == HumanReviewThresholdRule
        && DEFAULT_RULES[8] == RateLimitRule;
  }

  lemma DenialMeans(q: Query)
    ensures (exists r :: r in DEFAULT_RULES && Verdict(r, q) == Deny)
            <==> !(Permits(q.agent, q.mandate, q.kind, q.amount, q.currency, q.now, q.rateOk) && LineHolds(q.session, q.mandate))
  {
    UpperAgrees(q.currency, q.mandate.currency);
    LineMeans(q.session, q.mandate);
    forall r ensures r in DEFAULT_RULES {
      AllRules(r);
    }
    if !q.agent.Active? { assert Verdict(AgentStatusRule, q) == Deny; }
    if !(q.mandate.status.Active? && q.mandate.validFrom <= q.now <= q.mandate.validUntil) {
      assert Verdict(MandateLifecycleRule, q) == Deny;
    }
    if !LineHolds(q.session, q.mandate) { assert Verdict(HierarchicalDelegationRule, q) == Deny; }
    if !SameLetters(q.currency, q.mandate.currency) { assert Verdict(CurrencyMatchRule, q) == Deny; }
    if !(q.mandate.allowed == [] || Named(q.mandate.allowed, q.kind)) { assert Verdict(AllowedOperationTypeRule, q) == Deny; }
    if q.amount > q.mandate.maxPerOp { assert Verdict(PerTransactionLimitRule, q) == Deny; }
    if q.mandate.committed + q.mandate.reserved + q.amount > q.mandate.limit { assert Verdict(AggregateSpendLimitRule, q) == Deny; }
    if !q.rateOk { assert Verdict(RateLimitRule, q) == Deny; }
  }

  /**
   * The decision on the raw fields: denied unless everything permits the operation, ancestors
   * included where the walk runs; otherwise reviewed when the threshold is reached and nobody has
   * signed; otherwise allowed.
   */
  lemma DecisionMeans(q: Query)
    ensures var permitted := Permits(q.agent, q.mandate, q.kind, q.amount, q.currency, q.now, q.rateOk) && LineHolds(q.session, q.mandate);
            Decide(DEFAULT_RULES, q) ==
              if !permitted then Deny
              else if q.approvedBy.None? && Awaits(q.mandate, q.amount) then RequireHumanReview
              else Allow
  {
    NoDenial(DEFAULT_RULES, q);
    DenialMeans(q);
    AllRules(HumanReviewThresholdRule);
    if q.approvedBy.None? && Awaits(q.mandate, q.amount) {
      assert Verdict(HumanReviewThresholdRule, q) == RequireHumanReview;
    }
  }

  // --- The reason lists --------------------------------------------------------------------

  /** Rule r stands at position i, asks for review, and no rule before it denies. */
  ghost predicate AsksAt(rules: seq<Rule>, q: Query, r: Rule, i: int) {
    && 0 <= i < |rules| && rules[i] == r && Verdict(r, q) == RequireHumanReview
    && forall j | 0 <= j < i :: Verdict(rules[j], q) != Deny
  }

  lemma AsksEarlier(rules: seq<Rule>, q: Query, r: Rule, i: int)
    requires rules != []
    ensures i < |rules| - 1 ==> (AsksAt(rules, q, r, i) <==> AsksAt(rules[..|rules| - 1], q, r, i))
    ensures AsksAt(rules, q, r, |rules| - 1) <==>
            rules[|rules| - 1] == r && Verdict(r, q) == RequireHumanReview && !Says(rules[..|rules| - 1], q, Deny)
  {
    var init := rules[..|rules| - 1];
    assert forall j | 0 <= j < |init| :: init[j] == rules[j];
  }

  /** A rule is among the reviews exactly when it asks for review before any denial. */
  lemma {:induction false} ReviewsMean(rules: seq<Rule>, q: Query, r: Rule)
    ensures r in Reviews(rules, q) <==> exists i :: AsksAt(rules, q, r, i)
    decreases |rules|
  {
    if rules != [] {
      var last := |rules| - 1;
      ReviewsMean(rules[..last], q, r);
      AsksEarlier(rules, q, r, last);
      if exists i :: AsksAt(rules[..last], q, r, i) {
        var i :| AsksAt(rules[..last], q, r, i);
        AsksEarlier(rules, q, r, i);
      }
      if exists i :: AsksAt(rules, q, r, i) {
        var i :| AsksAt(rules, q, r, i);
        AsksEarlier(rules, q, r, i);
      }
    }
  }

  /** A rule is among the rejections exactly when it denies. */
  lemma {:induction false} RejectionsMean(rules: seq<Rule>, q: Query, r: Rule)
    ensures r in Rejections(rules, q) <==> r in rules && Verdict(r, q) == Deny
    decreases |rules|
  {
    if rules != [] {
      var last := |rules| - 1;
      RejectionsMean(rules[..last], q, r);
      assert rules == rules[..last] + [rules[last]];
    }
  }
}
