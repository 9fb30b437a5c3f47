/** What issuing, delegating, suspending, revoking and reactivating do, stated on the rows before and after. */
module Grants {
  import opened Domain
  import opened Forest
  import opened Ledger
  import opened Machine
  import opened Decisions
  import opened Requests

  /** An agent takes the given status, and nothing else changes. */
  lemma AgentIsSet(s: State, agent: Id, status: AgentStatus)
    ensures var t := Next(s, SetAgent(agent, status));
            t.agents == s.agents[agent := status] && t == s.(agents := t.agents)
  {
  }

  // --- Issuing -----------------------------------------------------------------------------

  /** A known agent gets a root mandate on exactly the requested terms; otherwise nothing happens. */
  lemma IssueGrants(s: State, id: Id, terms: MandateRequest, now: int)
    requires id !in s.mandates
    ensures var t := Next(s, CreateMandate(id, terms, now));
            if terms.agent !in s.agents then t == s
            else
              && id in t.mandates && t == s.(mandates := s.mandates[id := t.mandates[id]])
              && var row := t.mandates[id];
                 && row.status.Active? && row.parent.None? && row.depth == 0 && row.maxDepth == 2
                 && row.agent == terms.agent && SameLetters(row.currency, terms.currency) && Capital(row.currency)
                 && row.maxPerOp == terms.maxPerOp && row.limit == terms.limit
                 && row.review == terms.review && row.allowed == terms.allowed
                 && row.validFrom == now && row.validUntil == terms.validUntil
                 && row.committed == row.reserved == row.delegated == 0 && row.version == 1
  {
    UpperMeans(terms.currency);
  }

  // --- Delegating --------------------------------------------------------------------------

  /** The three lookups and the six checks of a delegation. */
  predicate MayDelegate(s: State, parent: Id, share: DelegateRequest) {
    && parent in s.mandates && s.mandates[parent].status.Active? && share.agent in s.agents
    && var row := s.mandates[parent];
       && row.depth < row.maxDepth
       && (share.currency.Some? && share.currency.value != "" ==> SameLetters(share.currency.value, row.currency))
       && share.maxPerOp <= row.maxPerOp
       && (row.allowed == [] || forall op | op in share.allowed :: op in row.allowed)
       && share.validUntil <= row.validUntil
       && row.committed + row.reserved + row.delegated + share.limit <= row.limit
  }

  /** The child has what was asked for. */
  predicate Granted(child: Mandate, parent: Id, row: Mandate, share: DelegateRequest, now: int) {
    && child.agent == share.agent && child.maxPerOp == share.maxPerOp && child.limit == share.limit
    && child.validFrom == now && child.validUntil == share.validUntil
    && SameLetters(child.currency, row.currency) && Capital(child.currency)
    && child.parent == Some(parent) && child.depth == row.depth + 1 && child.maxDepth == row.maxDepth
    && child.status.Active? && child.committed == child.reserved == child.delegated == 0 && child.version == 1
    && child.review == (if share.review.Some? && share.review.value != 0 then share.review else row.review)
  }

  /** The child permits exactly the types that the request names, or the parent's types if it names none. */
  predicate GrantsTypes(child: Mandate, row: Mandate, share: DelegateRequest) {
    forall kind: OpType ::
      (child.allowed == [] || Named(child.allowed, kind))
      <==> Named(share.allowed, kind) || (share.allowed == [] && (row.allowed == [] || Named(row.allowed, kind)))
  }

  lemma AcceptedExactly(s: State, parent: Id, share: DelegateRequest)
    ensures DelegationVerdict(s, parent, share).Accepted? <==> MayDelegate(s, parent, share)
  {
    if parent in s.mandates {
      var row := s.mandates[parent];
      if share.currency.Some? {
        UpperAgrees(share.currency.value, row.currency);
      }
    }
  }

  /**
   * A delegation under a fresh key creates the child exactly when all lookups and checks pass, on
   * exactly the terms asked for, and takes its limit from the parent's unallocated budget;
   * otherwise nothing happens.
   */
  lemma DelegationGrants(s: State, parent: Id, id: Id, share: DelegateRequest, now: int)
    requires id !in s.mandates
    ensures var t := Next(s, DelegateMandate(parent, id, share, now));
            && (id in t.mandates <==> MayDelegate(s, parent, share))
            && (id !in t.mandates ==> t == s)
            && (id in t.mandates ==>
                  && Granted(t.mandates[id], parent, s.mandates[parent], share, now)
                  && GrantsTypes(t.mandates[id], s.mandates[parent], share)
                  && parent in t.mandates
                  && t == s.(mandates := s.mandates[parent := t.mandates[parent]][id := t.mandates[id]])
                  && t.mandates[parent] == s.mandates[parent].(delegated := s.mandates[parent].delegated + share.limit,
                                                               version := s.mandates[parent].version + 1))
  {
    AcceptedExactly(s, parent, share);
    if MayDelegate(s, parent, share) {
      DelegatedCurrency(s.mandates[parent], share);
    }
  }

  lemma DelegatedCurrency(row: Mandate, share: DelegateRequest)
    requires ValidateDelegation(row, share).Accepted?
    ensures SameLetters(ValidateDelegation(row, share).currency, row.currency) && Capital(ValidateDelegation(row, share).currency)
  {
    var asked := if share.currency.None? || share.currency.value == "" then row.currency else share.currency.value;
    UpperMeans(asked);
    UpperTwice(asked);
    UpperAgrees(Upper(asked), row.currency);
  }

  /** The six checks, in the order in which they are made. */
  function Checks(row: Mandate, share: DelegateRequest): (r: seq<bool>)
    ensures |r| == 6
  {
    [row.depth < row.maxDepth,
     share.currency.Some? && share.currency.value != "" ==> SameLetters(share.currency.value, row.currency),
     share.maxPerOp <= row.maxPerOp,
     row.allowed == [] || forall op | op in share.allowed :: op in row.allowed,
     share.validUntil <= row.validUntil,
     row.committed + row.reserved + row.delegated + share.limit <= row.limit]
  }

  const REFUSALS: seq<Refusal> :=
    [DepthReached, CurrencyMismatch, CeilingExceeded, OperationNotWhitelisted, OutlivesParent, BudgetExceeded]

  /** The reason given is that of the first lookup or check that fails. */
  lemma FirstFailureIsNamed(s: State, parent: Id, share: DelegateRequest)
    ensures var verdict := DelegationVerdict(s, parent, share);
            if parent !in s.mandates then verdict == Refused(UnknownMandate)
            else if !s.mandates[parent].status.Active? then verdict == Refused(ParentNotActive)
            else if share.agent !in s.agents then verdict == Refused(UnknownAgent)
            else forall i | 0 <= i < 6 ::
              verdict == Refused(REFUSALS[i])
              <==> !Checks(s.mandates[parent], share)[i] && forall j | 0 <= j < i :: Checks(s.mandates[parent], share)[j]
  {
    if parent in s.mandates {
      ChecksDecide(s.mandates[parent], share);
    }
  }

  lemma ChecksDecide(row: Mandate, share: DelegateRequest)
    ensures forall i | 0 <= i < 6 ::
      ValidateDelegation(row, share) == Refused(REFUSALS[i]) <==> !Checks(row, share)[i] && forall j | 0 <= j < i :: Checks(row, share)[j]
  {
    var c := Checks(row, share);
    if share.currency.Some? {
      UpperAgrees(share.currency.value, row.currency);
    }
    assert ValidateDelegation(row, share).Refused? ==>
      ValidateDelegation(row, share).reason ==
        if !c[0] then DepthReached else if !c[1] then CurrencyMismatch else if !c[2] then CeilingExceeded
        else if !c[3] then OperationNotWhitelisted else if !c[4] then OutlivesParent else BudgetExceeded;
    assert ValidateDelegation(row, share).Accepted? <==> c[0] && c[1] && c[2] && c[3] && c[4] && c[5];
    forall i | 0 <= i < 6
      ensures ValidateDelegation(row, share) == Refused(REFUSALS[i]) <==> !c[i] && forall j | 0 <= j < i :: c[j]
    {
      assert i == 0 || i == 1 || i == 2 || i == 3 || i == 4 || i == 5;
      assert (forall j | 0 <= j < i :: c[j]) <==>
             (i > 0 ==> c[0]) && (i > 1 ==> c[1]) && (i > 2 ==> c[2]) && (i > 3 ==> c[3]) && (i > 4 ==> c[4]);
    }
  }

  // --- Suspending and revoking -------------------------------------------------------------

  /** Exactly the mandates at and below root took the status, one version later each. */
  ghost predicate Fell(s: State, t: State, root: Id, status: MandateStatus) {
    && t.mandates.Keys == s.mandates.Keys && t == s.(mandates := t.mandates)
    && forall m | m in s.mandates ::
         t.mandates[m] == if exists k: nat :: AncestorAt(s.mandates, m, k) == Some(root)
                          then s.mandates[m].(status := status, version := s.mandates[m].version + 1)
                          else s.mandates[m]
  }

  /** Suspension and revocation reach the whole subtree and nothing else; an unknown mandate is left alone. */
  lemma CascadesFall(s: State, root: Id)
    ensures if root in s.mandates
            then Fell(s, Next(s, Suspend(root)), root, MandateStatus.Suspended) && Fell(s, Next(s, Revoke(root)), root, MandateStatus.Revoked)
            else Next(s, Suspend(root)) == s && Next(s, Revoke(root)) == s
  {
  }

  // --- Reactivating ------------------------------------------------------------------------

  /** Nothing speaks against reactivation: there is no parent, its row is missing, or it is active. */
  predicate ParentPermits(s: State, m: Id)
    requires m in s.mandates
  {
    match s.mandates[m].parent
    case None => true
    case Some(p) => p !in s.mandates || s.mandates[p].status.Active?
  }

  /** Reactivation activates the mandate, and it alone, unless its parent is inactive; its own status does not matter. */
  lemma ReactivationActivates(s: State, m: Id)
    ensures var t := Next(s, Reactivate(m));
            if m !in s.mandates || !ParentPermits(s, m) then t == s
            else
              && m in t.mandates && t == s.(mandates := s.mandates[m := t.mandates[m]])
              && t.mandates[m].status.Active?
              && t.mandates[m] == s.mandates[m].(status := t.mandates[m].status, version := s.mandates[m].version + 1)
  {
  }

  /** A reservation is recorded for the request. */
  ghost predicate Reserves(s: State, o: Id, req: OpRequest, now: int, rateOk: bool, answer: GatewayAnswer) {
    var t := Next(s, RequestOperation(o, req, now, rateOk, answer));
    o in t.ops && t.ops[o].book.reserves == 1
  }

  /**
   * Suspending an active root takes its authority to request, and reactivating it gives exactly
   * that authority back.
   */
  lemma SuspensionIsUndone(s: State, m: Id, o: Id, req: OpRequest, now: int, rateOk: bool, answer: GatewayAnswer)
    requires m in s.mandates && s.mandates[m].parent.None? && s.mandates[m].status.Active?
    requires o !in s.ops && req.mandate == m && req.agent in s.agents
    ensures var down := Next(s, Suspend(m));
            && !Reserves(down, o, req, now, rateOk, answer)
            && (Reserves(Next(down, Reactivate(m)), o, req, now, rateOk, answer) <==> Reserves(s, o, req, now, rateOk, answer))
  {
    var down := Next(s, Suspend(m));
    var up := Next(down, Reactivate(m));
    assert AncestorAt(s.mandates, m, 0) == Some(m);
    CascadesFall(s, m);
    assert down.mandates[m].status == MandateStatus.Suspended;
    ReactivationActivates(down, m);
    ReservedExactly(s, o, req, now, rateOk, answer);
    ReservedExactly(down, o, req, now, rateOk, answer);
    ReservedExactly(up, o, req, now, rateOk, answer);
  }
}
