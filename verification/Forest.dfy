/** The delegation forest: ancestry, delegation, status cascade and reactivation. */
module Forest {
  import opened Domain
  import opened Sums

  type Mandates = map<Id, Mandate>

  /** The k-th ancestor of m; the mandate itself for k = 0. */
  function AncestorAt(ms: Mandates, m: Id, k: nat): Option<Id>
    decreases k
  {
    if k == 0 then Some(m)
    else if m in ms && ms[m].parent.Some? then AncestorAt(ms, ms[m].parent.value, k - 1)
    else None
  }

  /** m is root or one of its descendants. */
  ghost predicate Below(ms: Mandates, root: Id, m: Id) {
    exists k: nat :: AncestorAt(ms, m, k) == Some(root)
  }

  /** The sum of the limits of the direct children of p. */
  ghost function ChildLimits(ms: Mandates, p: Id): int {
    Sum(ChildWeights(ms, p))
  }

  ghost function ChildWeights(ms: Mandates, p: Id): map<Id, int> {
    map c | c in ms :: if ms[c].parent == Some(p) then ms[c].limit else 0
  }

  /** Everything that c allows, p allows as well. */
  ghost predicate Narrower(c: Mandate, p: Mandate) {
    && c.currency == p.currency
    && c.maxPerOp <= p.maxPerOp
    && c.validUntil <= p.validUntil
    && forall kind: OpType :: Whitelisted(c.allowed, kind) ==> Whitelisted(p.allowed, kind)
  }

  ghost predicate Linked(ms: Mandates, m: Id)
    requires m in ms
  {
    match ms[m].parent
    case None => ms[m].depth == 0
    case Some(p) =>
      && p in ms
      && ms[m].depth == ms[p].depth + 1
      && ms[m].maxDepth == ms[p].maxDepth
      && (ms[m].status.Active? ==> ms[p].status.Active?)
      && Narrower(ms[m], ms[p])
  }

  ghost predicate Rooted(ms: Mandates, m: Id)
    requires m in ms
  {
    && Linked(ms, m)
    && ms[m].depth <= ms[m].maxDepth
    && ms[m].currency == Upper(ms[m].currency)
    && ms[m].delegated == ChildLimits(ms, m) <= ms[m].limit
  }

  /** The invariant of the forest. */
  ghost predicate ForestOk(ms: Mandates) {
    forall m {:trigger Rooted(ms, m)} | m in ms :: Rooted(ms, m)
  }

  // --- Ancestors ---------------------------------------------------------------------------

  /** Ancestors exist, lie k levels higher in the same tree, are active above an active mandate, and bound it. */
  lemma {:induction false} AncestorBounds(ms: Mandates, m: Id, k: nat, a: Id)
    requires ForestOk(ms) && m in ms
    requires AncestorAt(ms, m, k) == Some(a)
    ensures a in ms
    ensures ms[m].depth == ms[a].depth + k && ms[m].maxDepth == ms[a].maxDepth
    ensures ms[m].status.Active? ==> ms[a].status.Active?
    ensures Narrower(ms[m], ms[a])
    decreases k
  {
    assert Rooted(ms, m);
    if k > 0 {
      AncestorBounds(ms, ms[m].parent.value, k - 1, a);
    }
  }

  lemma {:induction false} AncestorStep(ms: Mandates, m: Id, k: nat)
    requires AncestorAt(ms, m, k).Some?
    ensures AncestorAt(ms, m, k + 1) ==
            var a := AncestorAt(ms, m, k).value;
            if a in ms then ms[a].parent else None
    decreases k
  {
    if k > 0 {
      AncestorStep(ms, ms[m].parent.value, k - 1);
    } else if m in ms && ms[m].parent.Some? {
      assert AncestorAt(ms, ms[m].parent.value, 0) == Some(ms[m].parent.value);
    }
  }

  lemma BelowChild(ms: Mandates, root: Id, m: Id)
    requires m in ms && ms[m].parent.Some?
    ensures Below(ms, root, m) <==> m == root || Below(ms, root, ms[m].parent.value)
  {
    var p := ms[m].parent.value;
    if Below(ms, root, m) && m != root {
      var k: nat :| AncestorAt(ms, m, k) == Some(root);
      assert k > 0 && AncestorAt(ms, p, k - 1) == Some(root);
    }
    if m == root {
      assert AncestorAt(ms, m, 0) == Some(root);
    } else if Below(ms, root, p) {
      var k: nat :| AncestorAt(ms, p, k) == Some(root);
      assert AncestorAt(ms, m, k + 1) == Some(root);
    }
  }

  lemma BelowRoot(ms: Mandates, root: Id, m: Id)
    requires m !in ms || ms[m].parent.None?
    ensures Below(ms, root, m) <==> m == root
  {
    assert AncestorAt(ms, m, 0) == Some(m);
  }

  // --- Frames ------------------------------------------------------------------------------

  /** b differs from a only in the two spend counters and the version. */
  predicate SameTerms(a: Mandate, b: Mandate) {
    b == a.(committed := b.committed, reserved := b.reserved, version := b.version)
  }

  ghost predicate SameForest(ms: Mandates, ns: Mandates) {
    ms.Keys == ns.Keys && forall m | m in ms :: SameTerms(ms[m], ns[m])
  }

  lemma ChildLimitsFrame(ms: Mandates, ns: Mandates, m: Id)
    requires ns.Keys == ms.Keys
    requires forall c | c in ms :: ns[c].parent == ms[c].parent && ns[c].limit == ms[c].limit
    ensures ChildLimits(ns, m) == ChildLimits(ms, m)
  {
    assert ChildWeights(ns, m) == ChildWeights(ms, m);
  }

  lemma ForestFrame(ms: Mandates, ns: Mandates)
    requires ForestOk(ms) && SameForest(ms, ns)
    ensures ForestOk(ns)
  {
    forall m | m in ns
      ensures Rooted(ns, m)
    {
      assert Rooted(ms, m);
      ChildLimitsFrame(ms, ns, m);
    }
  }

  // --- Creation and delegation -------------------------------------------------------------

  const DEFAULT_MAX_DELEGATION_DEPTH: nat := 2

  datatype MandateRequest = MandateRequest(
    agent: Id,
    currency: string,
    maxPerOp: Amount,
    limit: Amount,
    review: Option<int>,
    allowed: seq<string>,
    validUntil: int)

  function RootMandate(req: MandateRequest, now: int): Mandate {
    Mandate(req.agent, None, 0, DEFAULT_MAX_DELEGATION_DEPTH, MandateStatus.Active, Upper(req.currency),
            req.maxPerOp, req.limit, 0, 0, 0, req.review, req.allowed, now, req.validUntil, 1)
  }

  datatype DelegateRequest = DelegateRequest(
    agent: Id,
    currency: Option<string>,
    maxPerOp: Amount,
    limit: Amount,
    review: Option<int>,
    allowed: seq<string>,
    validUntil: int)

  datatype Refusal =
    | UnknownMandate
    | ParentNotActive
    | UnknownAgent
    | DepthReached
    | CurrencyMismatch
    | CeilingExceeded
    | OperationNotWhitelisted
    | OutlivesParent
    | BudgetExceeded

  datatype Ruling = Accepted(currency: string) | Refused(reason: Refusal)

  function Max(a: int, b: int): int {
    if a < b then b else a
  }

  /** The non-escalation checks, in the order of the source. */
  function ValidateDelegation(parent: Mandate, req: DelegateRequest): Ruling {
    var asked := if req.currency.None? || req.currency.value == "" then parent.currency else req.currency.value;
    var currency := Upper(asked);
    var available := Max(0, parent.limit - (parent.committed + parent.reserved + parent.delegated));
    if parent.depth >= parent.maxDepth then Refused(DepthReached)
    else if currency != Upper(parent.currency) then Refused(CurrencyMismatch)
    else if req.maxPerOp > parent.maxPerOp then Refused(CeilingExceeded)
    else if parent.allowed != [] && exists op :: op in req.allowed && op !in parent.allowed then Refused(OperationNotWhitelisted)
    else if req.validUntil > parent.validUntil then Refused(OutlivesParent)
    else if req.limit > available then Refused(BudgetExceeded)
    else Accepted(currency)
  }

  /** The child mandate; an absent or zero review threshold and an empty whitelist are inherited. */
  function ChildMandate(parentId: Id, parent: Mandate, req: DelegateRequest, currency: string, now: int): Mandate {
    var review := if req.review.None? || req.review.value == 0 then parent.review else req.review;
    var allowed := if req.allowed == [] then parent.allowed else req.allowed;
    Mandate(req.agent, Some(parentId), parent.depth + 1, parent.maxDepth, MandateStatus.Active, currency,
            req.maxPerOp, req.limit, 0, 0, 0, review, allowed, now, req.validUntil, 1)
  }

  function Delegated(ms: Mandates, parentId: Id, id: Id, req: DelegateRequest, currency: string, now: int): Mandates
    requires parentId in ms
  {
    var parent := ms[parentId];
    var child := ChildMandate(parentId, parent, req, currency, now);
    ms[parentId := parent.(delegated := parent.delegated + req.limit, version := parent.version + 1)][id := child]
  }

  lemma ChildLimitsInsert(ms: Mandates, ns: Mandates, id: Id, m: Id)
    requires id !in ms && ns.Keys == ms.Keys + {id}
    requires forall c | c in ms :: ns[c].parent == ms[c].parent && ns[c].limit == ms[c].limit
    ensures ChildLimits(ns, m) == ChildLimits(ms, m) + if ns[id].parent == Some(m) then ns[id].limit else 0
  {
    var w := if ns[id].parent == Some(m) then ns[id].limit else 0;
    assert ChildWeights(ns, m) == ChildWeights(ms, m)[id := w];
    SumUpdate(ChildWeights(ms, m), id, w);
  }

  lemma NoChildren(ms: Mandates, id: Id)
    requires forall c | c in ms :: ms[c].parent != Some(id)
    ensures ChildLimits(ms, id) == 0
  {
    SumZero(ChildWeights(ms, id));
  }

  lemma CreateKeepsForest(ms: Mandates, id: Id, req: MandateRequest, now: int)
    requires ForestOk(ms) && id !in ms
    ensures ForestOk(ms[id := RootMandate(req, now)])
  {
    var ns := ms[id := RootMandate(req, now)];
    UpperTwice(req.currency);
    forall m | m in ns
      ensures Rooted(ns, m)
    {
      ChildLimitsInsert(ms, ns, id, m);
      if m == id {
        forall c | c in ms ensures ms[c].parent != Some(id) { assert Rooted(ms, c); }
        NoChildren(ms, id);
      } else {
        assert Rooted(ms, m);
      }
    }
  }

  /** A child that passes the checks is narrower than its parent. */
  lemma DelegationNarrows(parentId: Id, parent: Mandate, req: DelegateRequest, now: int)
    requires ValidateDelegation(parent, req).Accepted?
    requires parent.currency == Upper(parent.currency)
    ensures var child := ChildMandate(parentId, parent, req, ValidateDelegation(parent, req).currency, now);
            Narrower(child, parent) && child.depth <= child.maxDepth
  {
  }

  lemma DelegateKeepsForest(ms: Mandates, parentId: Id, id: Id, req: DelegateRequest, now: int)
    requires ForestOk(ms) && parentId in ms && id !in ms
    requires ms[parentId].status.Active?
    requires 0 <= ms[parentId].committed + ms[parentId].reserved
    requires ValidateDelegation(ms[parentId], req).Accepted?
    ensures ForestOk(Delegated(ms, parentId, id, req, ValidateDelegation(ms[parentId], req).currency, now))
  {
    var currency := ValidateDelegation(ms[parentId], req).currency;
    var ns := Delegated(ms, parentId, id, req, currency, now);
    assert Rooted(ms, parentId);
    UpperTwice(if req.currency.None? || req.currency.value == "" then ms[parentId].currency else req.currency.value);
    DelegationNarrows(parentId, ms[parentId], req, now);
    forall m | m in ns
      ensures Rooted(ns, m)
    {
      ChildLimitsInsert(ms, ns, id, m);
      if m == id {
        forall c | c in ms ensures ms[c].parent != Some(id) { assert Rooted(ms, c); }
        NoChildren(ms, id);
      } else {
        assert Rooted(ms, m);
      }
    }
  }

  // --- Status changes ----------------------------------------------------------------------

  /** The effect of a cascade: target on exactly the root and its descendants. */
  ghost function Cascaded(ms: Mandates, root: Id, target: MandateStatus): Mandates {
    map m | m in ms ::
      if Below(ms, root, m) then ms[m].(status := target, version := ms[m].version + 1) else ms[m]
  }

  lemma CascadeKeepsForest(ms: Mandates, root: Id, target: MandateStatus)
    requires ForestOk(ms) && !target.Active?
    ensures ForestOk(Cascaded(ms, root, target))
  {
    var ns := Cascaded(ms, root, target);
    forall m | m in ns
      ensures Rooted(ns, m)
    {
      assert Rooted(ms, m);
      if ms[m].parent.Some? {
        BelowChild(ms, root, m);
      }
      ChildLimitsFrame(ms, ns, m);
    }
  }

  /** Reactivation looks at the parent's status only. */
  predicate MayActivate(ms: Mandates, m: Id)
    requires m in ms
  {
    ms[m].parent.Some? && ms[m].parent.value in ms ==> ms[ms[m].parent.value].status.Active?
  }

  function Activated(ms: Mandates, m: Id): Mandates
    requires m in ms
  {
    ms[m := ms[m].(status := MandateStatus.Active, version := ms[m].version + 1)]
  }

  lemma ActivateKeepsForest(ms: Mandates, id: Id)
    requires ForestOk(ms) && id in ms && MayActivate(ms, id)
    ensures ForestOk(Activated(ms, id))
  {
    var ns := Activated(ms, id);
    forall m | m in ns
      ensures Rooted(ns, m)
    {
      assert Rooted(ms, m);
      ChildLimitsFrame(ms, ns, m);
    }
  }

  // --- The breadth-first cascade -----------------------------------------------------------

  predicate Distinct(q: seq<Id>) {
    forall i, j | 0 <= i < j < |q| :: q[i] != q[j]
  }

  /** The rows of a query, in some order. */
  method ListRows(s: set<Id>) returns (q: seq<Id>)
    ensures Distinct(q)
    ensures forall x :: x in q <==> x in s
  {
    q := [];
    var rest := s;
    while rest != {}
      invariant Distinct(q)
      invariant forall x :: x in q <==> x in s && x !in rest
      invariant rest <= s
      decreases rest
    {
      var x :| x in rest;
      rest := rest - {x};
      q := q + [x];
    }
  }

  /** The children of the mandates already visited are visited or queued, and nothing else is. */
  ghost predicate Frontier(ms: Mandates, root: Id, visited: set<Id>, queue: seq<Id>) {
    && Distinct(queue)
    && (root in visited || queue == [root])
    && (visited == {} ==> queue == [root])
    && (forall q | q in queue :: q !in visited && Below(ms, root, q))
    && (forall v | v in visited :: Below(ms, root, v))
    && (forall q | q in queue && q != root :: q in ms && ms[q].parent.Some? && ms[q].parent.value in visited)
    && (forall c | c in ms && ms[c].parent.Some? && ms[c].parent.value in visited :: c in visited || c in queue)
  }

  lemma {:induction false} FrontierEmpty(ms: Mandates, root: Id, visited: set<Id>, m: Id, k: nat)
    requires Frontier(ms, root, visited, []) && m in ms
    requires AncestorAt(ms, m, k) == Some(root)
    ensures m in visited
    decreases k
  {
    if k > 0 {
      var p := ms[m].parent.value;
      if p in ms {
        FrontierEmpty(ms, root, visited, p, k - 1);
      } else {
        assert k == 1 && p == root;
      }
    }
  }

  ghost function Marked(ms: Mandates, visited: set<Id>, target: MandateStatus): Mandates {
    map m | m in ms ::
      if m in visited then ms[m].(status := target, version := ms[m].version + 1) else ms[m]
  }

  lemma MarkOne(ms: Mandates, visited: set<Id>, target: MandateStatus, curr: Id)
    requires curr !in visited
    ensures Marked(ms, visited + {curr}, target) ==
            if curr in ms
            then Marked(ms, visited, target)[curr := ms[curr].(status := target, version := ms[curr].version + 1)]
            else Marked(ms, visited, target)
  {
  }

  /** The rows of the child query that are not yet visited. */
  method UnvisitedChildren(ghost ms: Mandates, ns: Mandates, curr: Id, visited: set<Id>, target: MandateStatus)
    returns (children: seq<Id>)
    requires ns == Marked(ms, visited, target)
    ensures ChildRows(ms, curr, visited, children)
  {
    children := ListRows(set c | c in ns && ns[c].parent == Some(curr) && c !in visited);
  }

  ghost predicate ChildRows(ms: Mandates, curr: Id, visited: set<Id>, children: seq<Id>) {
    && Distinct(children)
    && forall c :: c in children <==> c in ms && ms[c].parent == Some(curr) && c !in visited
  }

  /** One turn of the loop: curr leaves the queue and its unvisited children enter. */
  lemma FrontierStep(ms: Mandates, root: Id, visited: set<Id>, queue: seq<Id>, children: seq<Id>)
    requires Frontier(ms, root, visited, queue) && queue != []
    requires ChildRows(ms, queue[0], visited + {queue[0]}, children)
    ensures Frontier(ms, root, visited + {queue[0]}, queue[1..] + children)
  {
    var curr := queue[0];
    var next := queue[1..] + children;
    var rest := queue[1..];
    assert forall q :: q in queue <==> q == curr || q in rest;
    assert curr in queue;
    forall i | 0 <= i < |rest| ensures rest[i] != curr { assert rest[i] == queue[i + 1]; }
    forall c | c in children ensures Below(ms, root, c) && c !in rest {
      BelowChild(ms, root, c);
      if c in rest {
        assert false;
      }
    }
    forall i, j | 0 <= i < j < |next| ensures next[i] != next[j] {
      if i < |rest| && j < |rest| {
        assert rest[i] == queue[i + 1] && rest[j] == queue[j + 1];
      } else if i < |rest| {
        assert next[i] in rest && next[j] in children;
      } else {
        assert next[i] == children[i - |rest|] && next[j] == children[j - |rest|];
      }
    }
  }

  /** Each visited mandate has exactly one audit event. */
  ghost predicate Audited(audit: seq<Id>, ms: Mandates, visited: set<Id>) {
    && Distinct(audit)
    && forall m :: m in audit <==> m in ms && m in visited
  }

  /** Marks one mandate and writes its audit event, if it exists. */
  method MarkCurrent(ghost ms: Mandates, ghost visited: set<Id>, target: MandateStatus, curr: Id, ns: Mandates, audit: seq<Id>)
    returns (ns': Mandates, audit': seq<Id>)
    requires curr !in visited
    requires ns == Marked(ms, visited, target) && Audited(audit, ms, visited)
    ensures ns' == Marked(ms, visited + {curr}, target) && Audited(audit', ms, visited + {curr})
  {
    MarkOne(ms, visited, target, curr);
    ns', audit' := ns, audit;
    if curr in ns {
      ns' := ns[curr := ns[curr].(status := target, version := ns[curr].version + 1)];
      audit' := audit + [curr];
    }
  }

  /**
   * The queue loop of suspend and revoke, on any single-parent graph (cycles included). The
   * audit list names the mandates in the order in which their audit events are written.
   */
  method CascadeStatus(ms: Mandates, root: Id, target: MandateStatus) returns (ns: Mandates, audit: seq<Id>)
    ensures ns == Cascaded(ms, root, target)
    ensures Distinct(audit)
    ensures forall m :: m in audit <==> m in ms && Below(ms, root, m)
  {
    var visited: set<Id> := {};
    var queue := [root];
    ns, audit := ms, [];
    assert AncestorAt(ms, root, 0) == Some(root);
    while queue != []
      invariant Frontier(ms, root, visited, queue)
      invariant ns == Marked(ms, visited, target)
      invariant Audited(audit, ms, visited)
      decreases ms.Keys + {root} - visited
    {
      var curr := queue[0];
      assert curr in queue;
      assert curr in ms.Keys + {root} - visited;
      ns, audit := MarkCurrent(ms, visited, target, curr, ns, audit);
      var children := UnvisitedChildren(ms, ns, curr, visited + {curr}, target);
      FrontierStep(ms, root, visited, queue, children);
      visited := visited + {curr};
      queue := queue[1..] + children;
    }
    FrontierDone(ms, root, visited, target);
  }

  lemma FrontierDone(ms: Mandates, root: Id, visited: set<Id>, target: MandateStatus)
    requires Frontier(ms, root, visited, [])
    ensures Marked(ms, visited, target) == Cascaded(ms, root, target)
    ensures forall m | m in ms :: m in visited <==> Below(ms, root, m)
  {
    forall m | m in ms ensures m in visited <==> Below(ms, root, m) {
      if Below(ms, root, m) {
        var k: nat :| AncestorAt(ms, m, k) == Some(root);
        FrontierEmpty(ms, root, visited, m, k);
      }
    }
  }
}
