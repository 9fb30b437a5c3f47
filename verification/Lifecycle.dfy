/** The operation state machine: the transition matrix, its transitive closure and its height. */
module Lifecycle {
  import opened Domain

  /** The transition matrix; a status without an entry has no successors. */
  function AllowedTransitions(current: OpStatus): set<OpStatus> {
    match current
    case Initiated => {PolicyApproved, PolicyRejected, RequiresApproval, OpStatus.Failed}
    case RequiresApproval => {Reserved, PolicyRejected, Cancelled, OpStatus.Failed}
    case PolicyApproved => {Reserved, OpStatus.Failed, Cancelled}
    case Reserved => {Executing, Succeeded, OpStatus.Failed, Cancelled}
    case Executing => {Succeeded, OpStatus.Failed, Cancelled}
    case _ => {}
  }

  predicate CanTransition(current: OpStatus, target: OpStatus) {
    current == target || target in AllowedTransitions(current)
  }

  /** Which statuses may move to the target, read off the matrix by columns. */
  lemma MovesInto(current: OpStatus, target: OpStatus)
    requires current != target
    ensures CanTransition(current, target) <==>
      match target
      case PolicyApproved => current.Initiated?
      case RequiresApproval => current.Initiated?
      case PolicyRejected => current.Initiated? || current.RequiresApproval?
      case Reserved => current.RequiresApproval? || current.PolicyApproved?
      case Executing => current.Reserved?
      case Succeeded => current.Reserved? || current.Executing?
      case Failed => current in {Initiated, RequiresApproval, PolicyApproved, Reserved, Executing}
      case Cancelled => current in {RequiresApproval, PolicyApproved, Reserved, Executing}
      case _ => false
  {
  }

  /** A walk through the matrix. */
  ghost predicate Path(p: seq<OpStatus>) {
    p != [] && forall i | 0 <= i < |p| - 1 :: p[i + 1] in AllowedTransitions(p[i])
  }

  ghost predicate PathFrom(p: seq<OpStatus>, a: OpStatus, b: OpStatus) {
    Path(p) && p[0] == a && p[|p| - 1] == b
  }

  /** b lies in the reflexive transitive closure of the matrix from a. */
  ghost predicate Reaches(a: OpStatus, b: OpStatus) {
    exists p :: PathFrom(p, a, b)
  }

  /** The longest walk that is left from a status. */
  function Height(s: OpStatus): nat {
    match s
    case Initiated => 4
    case RequiresApproval => 3
    case PolicyApproved => 3
    case Reserved => 2
    case Executing => 1
    case _ => 0
  }

  /** Height bounds the number of steps of a walk. */
  lemma {:induction false} PathIsShort(p: seq<OpStatus>)
    requires Path(p)
    ensures |p| - 1 <= Height(p[0]) - Height(p[|p| - 1])
  {
    if |p| > 1 {
      assert p[1] in AllowedTransitions(p[0]);
      var q := p[1..];
      forall i | 0 <= i < |q| - 1 ensures q[i + 1] in AllowedTransitions(q[i]) {
        assert p[i + 2] in AllowedTransitions(p[i + 1]);
      }
      PathIsShort(q);
    }
  }

  lemma ReachesStep(a: OpStatus, b: OpStatus)
    requires b in AllowedTransitions(a)
    ensures Reaches(a, b)
  {
    assert PathFrom([a, b], a, b);
  }

  lemma ReachesTwice(a: OpStatus, b: OpStatus, c: OpStatus)
    requires Reaches(a, b) && Reaches(b, c)
    ensures Reaches(a, c)
  {
    var p :| PathFrom(p, a, b);
    var q :| PathFrom(q, b, c);
    var r := p + q[1..];
    forall i | 0 <= i < |r| - 1 ensures r[i + 1] in AllowedTransitions(r[i]) {
      if i + 1 < |p| {
        assert p[i + 1] in AllowedTransitions(p[i]);
      } else {
        var j := i + 1 - |p|;
        assert q[j + 1] in AllowedTransitions(q[j]);
      }
    }
    assert PathFrom(r, a, c);
  }

  /**
   * Two different statuses in the closure are strictly ordered by height, so the closure is a
   * partial order and nothing leaves a status of height zero.
   */
  lemma ReachesLowers(a: OpStatus, b: OpStatus)
    requires Reaches(a, b) && a != b
    ensures Height(b) < Height(a)
    ensures !Reaches(b, a)
  {
    var p :| PathFrom(p, a, b);
    PathIsShort(p);
    assert |p| > 1;
    if Reaches(b, a) {
      var q :| PathFrom(q, b, a);
      PathIsShort(q);
    }
  }

  /** The matrix reaches Reserved from Initiated, though no single entry allows it. */
  lemma ReservedIsReachable()
    ensures !CanTransition(Initiated, Reserved)
    ensures Reaches(Initiated, Reserved)
  {
    assert PathFrom([Initiated, PolicyApproved, Reserved], Initiated, Reserved);
  }

  /** The proper moves of the closure, as a table. */
  predicate Later(a: OpStatus, b: OpStatus) {
    match a
    case Initiated => b !in {Initiated, PolicyCheckPending}
    case RequiresApproval => b in {PolicyRejected, Reserved, Executing, Succeeded, OpStatus.Failed, Cancelled}
    case PolicyApproved => b in {Reserved, Executing, Succeeded, OpStatus.Failed, Cancelled}
    case Reserved => b in {Executing, Succeeded, OpStatus.Failed, Cancelled}
    case Executing => b in {Succeeded, OpStatus.Failed, Cancelled}
    case _ => false
  }

  lemma {:induction false} PathIsLater(p: seq<OpStatus>)
    requires Path(p) && |p| > 1
    ensures Later(p[0], p[|p| - 1])
  {
    assert p[1] in AllowedTransitions(p[0]);
    if |p| > 2 {
      var q := p[1..];
      forall i | 0 <= i < |q| - 1 ensures q[i + 1] in AllowedTransitions(q[i]) {
        assert p[i + 2] in AllowedTransitions(p[i + 1]);
      }
      PathIsLater(q);
    }
  }

  lemma ClosureExact(a: OpStatus, b: OpStatus)
    ensures Reaches(a, b) <==> a == b || Later(a, b)
  {
    if Reaches(a, b) && a != b {
      var p :| PathFrom(p, a, b);
      PathIsLater(p);
    }
    if a == b {
      assert PathFrom([a], a, b);
    } else if Later(a, b) {
      if b in AllowedTransitions(a) {
        ReachesStep(a, b);
      } else if a.Initiated? {
        if b.Reserved? {
          ReservedIsReachable();
        } else if b.Executing? {
          assert PathFrom([a, PolicyApproved, Reserved, b], a, b);
        } else if b.Succeeded? {
          assert PathFrom([a, PolicyApproved, Reserved, b], a, b);
        } else {
          assert PathFrom([a, PolicyApproved, b], a, b);
        }
      } else {
        assert PathFrom([a, Reserved, b], a, b);
      }
    }
  }

  /** A status history: it starts at Initiated and each entry is a proper move in the closure. */
  ghost predicate Chain(t: seq<OpStatus>) {
    && t != []
    && t[0] == Initiated
    && forall i {:trigger t[i]} | 1 <= i < |t| :: Later(t[i - 1], t[i])
  }

  lemma ChainExtends(t: seq<OpStatus>, next: OpStatus)
    requires Chain(t) && Later(t[|t| - 1], next)
    ensures Chain(t + [next])
  {
    var u := t + [next];
    forall i | 1 <= i < |u| ensures Later(u[i - 1], u[i]) {
      if i < |t| {
        assert u[i] == t[i];
      }
    }
  }

  lemma {:induction false} ChainLowers(t: seq<OpStatus>, i: nat)
    requires Chain(t) && i < |t|
    ensures i + Height(t[i]) <= 4
  {
    if i > 0 {
      ChainLowers(t, i - 1);
      ClosureExact(t[i - 1], t[i]);
      ReachesLowers(t[i - 1], t[i]);
    }
  }

  lemma {:induction false} ChainReaches(t: seq<OpStatus>, i: nat, j: nat)
    requires Chain(t) && i < j < |t|
    ensures Reaches(t[i], t[j]) && Height(t[j]) < Height(t[i])
    decreases j
  {
    ClosureExact(t[j - 1], t[j]);
    ReachesLowers(t[j - 1], t[j]);
    if i < j - 1 {
      ChainReaches(t, i, j - 1);
      ReachesTwice(t[i], t[j - 1], t[j]);
    }
  }

  /** A history never returns to a status, the matrix reaches each entry from all before it, and there are at most five. */
  lemma ChainIsShort(t: seq<OpStatus>)
    requires Chain(t)
    ensures forall i, j | 0 <= i < j < |t| :: t[i] != t[j] && Reaches(t[i], t[j])
    ensures |t| - 1 <= 4
  {
    forall i, j | 0 <= i < j < |t| ensures t[i] != t[j] && Reaches(t[i], t[j]) {
      ChainReaches(t, i, j);
    }
    ChainLowers(t, |t| - 1);
  }
}
