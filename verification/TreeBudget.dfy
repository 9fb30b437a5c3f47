/** How much a whole delegation tree can spend. */
module TreeBudget {
  import opened Domain
  import opened Sums
  import opened Forest
  import opened Ledger
  import opened Books
  import opened Machine

  /** The sum of f over the mandates in S. */
  ghost function Over(ms: Mandates, S: set<Id>, f: Mandate -> int): int {
    Sum(OverWeights(ms, S, f))
  }

  ghost function OverWeights(ms: Mandates, S: set<Id>, f: Mandate -> int): map<Id, int> {
    map m | m in ms :: if m in S then f(ms[m]) else 0
  }

  function LimitOf(m: Mandate): int {
    m.limit
  }

  lemma OverUnion(ms: Mandates, S: set<Id>, T: set<Id>, f: Mandate -> int)
    requires S !! T
    ensures Over(ms, S + T, f) == Over(ms, S, f) + Over(ms, T, f)
  {
    SumPlus(OverWeights(ms, S, f), OverWeights(ms, T, f), OverWeights(ms, S + T, f));
  }

  lemma OverOne(ms: Mandates, p: Id, f: Mandate -> int)
    requires p in ms
    ensures Over(ms, {p}, f) == f(ms[p])
  {
    SumRemove(OverWeights(ms, {p}, f), p);
    SumZero(OverWeights(ms, {p}, f) - {p});
  }

  lemma OverMonotone(ms: Mandates, S: set<Id>, f: Mandate -> int, g: Mandate -> int)
    requires forall m | m in ms :: f(ms[m]) <= g(ms[m])
    ensures Over(ms, S, f) <= Over(ms, S, g)
  {
    SumMonotone(OverWeights(ms, S, f), OverWeights(ms, S, g));
  }

  // --- One level ---------------------------------------------------------------------------

  function ChildrenOf(ms: Mandates, P: set<Id>): set<Id> {
    set c | c in ms && ms[c].parent.Some? && ms[c].parent.value in P
  }

  function DelegatedOf(m: Mandate): int {
    m.delegated
  }

  /** The children of a set of mandates have exactly the limits that were delegated to them, at most those of their parents. */
  lemma {:induction false} ChildrenFit(ms: Mandates, P: set<Id>)
    requires ForestOk(ms) && P <= ms.Keys
    ensures Over(ms, ChildrenOf(ms, P), LimitOf) == Over(ms, P, DelegatedOf) <= Over(ms, P, LimitOf)
    decreases P
  {
    if P == {} {
      assert ChildrenOf(ms, P) == {};
      assert OverWeights(ms, {}, LimitOf) == OverWeights(ms, {}, DelegatedOf);
    } else {
      var p :| p in P;
      var rest := P - {p};
      ChildrenFit(ms, rest);
      assert ChildrenOf(ms, P) == ChildrenOf(ms, rest) + ChildrenOf(ms, {p});
      OverUnion(ms, ChildrenOf(ms, rest), ChildrenOf(ms, {p}), LimitOf);
      assert P == rest + {p};
      OverUnion(ms, rest, {p}, LimitOf);
      OverUnion(ms, rest, {p}, DelegatedOf);
      OverOne(ms, p, LimitOf);
      OverOne(ms, p, DelegatedOf);
      assert Rooted(ms, p);
      assert OverWeights(ms, ChildrenOf(ms, {p}), LimitOf) == ChildWeights(ms, p);
    }
  }

  /** The descendants exactly k levels below root. */
  function Level(ms: Mandates, root: Id, k: nat): set<Id> {
    set m | m in ms && AncestorAt(ms, m, k) == Some(root)
  }

  lemma LevelStep(ms: Mandates, root: Id, k: nat)
    requires ForestOk(ms)
    ensures Level(ms, root, k + 1) == ChildrenOf(ms, Level(ms, root, k))
    ensures Over(ms, Level(ms, root, k + 1), LimitOf) == Over(ms, Level(ms, root, k), DelegatedOf) <= Over(ms, Level(ms, root, k), LimitOf)
  {
    ChildrenFit(ms, Level(ms, root, k));
    forall m | m in ms ensures m in Level(ms, root, k + 1) <==> m in ChildrenOf(ms, Level(ms, root, k)) {
      AncestorSplit(ms, m, k);
      assert Rooted(ms, m);
    }
  }

  lemma AncestorSplit(ms: Mandates, m: Id, k: nat)
    requires m in ms
    ensures AncestorAt(ms, m, k + 1) == if ms[m].parent.Some? then AncestorAt(ms, ms[m].parent.value, k) else None
  {
  }

  lemma {:induction false} LevelFits(ms: Mandates, root: Id, k: nat)
    requires ForestOk(ms) && root in ms
    ensures Over(ms, Level(ms, root, k), LimitOf) <= ms[root].limit
  {
    if k == 0 {
      assert Level(ms, root, 0) == {root};
      OverOne(ms, root, LimitOf);
    } else {
      LevelFits(ms, root, k - 1);
      LevelStep(ms, root, k - 1);
    }
  }

  // --- The whole tree ----------------------------------------------------------------------

  /** Root and the descendants less than n levels below it. */
  function Top(ms: Mandates, root: Id, n: nat): set<Id> {
    if n == 0 then {} else Top(ms, root, n - 1) + Level(ms, root, n - 1)
  }

  lemma {:induction false} TopDepths(ms: Mandates, root: Id, n: nat)
    requires ForestOk(ms)
    ensures forall m | m in Top(ms, root, n) :: m in ms && root in ms && ms[m].depth < ms[root].depth + n
  {
    if n > 0 {
      TopDepths(ms, root, n - 1);
      forall m | m in Level(ms, root, n - 1) ensures root in ms && ms[m].depth == ms[root].depth + (n - 1) {
        AncestorBounds(ms, m, n - 1, root);
      }
    }
  }

  lemma {:induction false} TopFits(s: State, root: Id, n: nat)
    requires Inv(s) && root in s.mandates
    ensures Over(s.mandates, Top(s.mandates, root, n), SpendOf) <= n * s.mandates[root].limit
  {
    var ms := s.mandates;
    if n == 0 {
      SumZero(OverWeights(ms, {}, SpendOf));
    } else {
      TopFits(s, root, n - 1);
      TopDepths(ms, root, n - 1);
      forall m | m in Level(ms, root, n - 1) ensures ms[m].depth == ms[root].depth + (n - 1) {
        AncestorBounds(ms, m, n - 1, root);
      }
      OverUnion(ms, Top(ms, root, n - 1), Level(ms, root, n - 1), SpendOf);
      forall m | m in ms ensures SpendOf(ms[m]) <= LimitOf(ms[m]) {
        assert WithinLimit(s.mandates[m]);
      }
      OverMonotone(ms, Level(ms, root, n - 1), SpendOf, LimitOf);
      LevelFits(ms, root, n - 1);
      assert n * ms[root].limit == (n - 1) * ms[root].limit + ms[root].limit;
    }
  }

  /** Root and all its descendants. */
  ghost function Tree(ms: Mandates, root: Id): set<Id> {
    set m | m in ms && Below(ms, root, m)
  }

  lemma {:induction false} LevelInTop(ms: Mandates, root: Id, k: nat, n: nat)
    requires k < n
    ensures Level(ms, root, k) <= Top(ms, root, n)
    decreases n
  {
    if k < n - 1 {
      LevelInTop(ms, root, k, n - 1);
    }
  }

  lemma TreeIsTop(ms: Mandates, root: Id)
    requires ForestOk(ms) && root in ms
    ensures ms[root].depth <= ms[root].maxDepth
    ensures Tree(ms, root) <= Top(ms, root, ms[root].maxDepth - ms[root].depth + 1)
  {
    assert Rooted(ms, root);
    forall m | m in Tree(ms, root) ensures m in Top(ms, root, ms[root].maxDepth - ms[root].depth + 1) {
      var k: nat :| AncestorAt(ms, m, k) == Some(root);
      AncestorBounds(ms, m, k, root);
      assert Rooted(ms, m);
      LevelInTop(ms, root, k, ms[root].maxDepth - ms[root].depth + 1);
      assert m in Level(ms, root, k);
    }
  }

  lemma OverSubset(ms: Mandates, S: set<Id>, T: set<Id>, f: Mandate -> int)
    requires S <= T && forall m | m in ms :: 0 <= f(ms[m])
    ensures Over(ms, S, f) <= Over(ms, T, f)
  {
    SumMonotone(OverWeights(ms, S, f), OverWeights(ms, T, f));
  }

  /**
   * The whole-tree bound: in every reachable state, each level of a tree is worth at most the
   * limit of its root, and the tree together spends at most one such limit per level.
   */
  lemma TreeSpendIsBounded(s: State, root: Id)
    requires Reachable(s) && root in s.mandates
    ensures forall k: nat :: Over(s.mandates, Level(s.mandates, root, k), LimitOf) <= s.mandates[root].limit
    ensures Over(s.mandates, Tree(s.mandates, root), SpendOf)
         <= (s.mandates[root].maxDepth - s.mandates[root].depth + 1) * s.mandates[root].limit
  {
    ReachableInv(s);
    var ms := s.mandates;
    forall k: nat ensures Over(ms, Level(ms, root, k), LimitOf) <= ms[root].limit {
      LevelFits(ms, root, k);
    }
    TreeIsTop(ms, root);
    var n := ms[root].maxDepth - ms[root].depth + 1;
    TopFits(s, root, n);
    forall m | m in ms ensures 0 <= SpendOf(ms[m]) {
      CountersCover(s, m);
    }
    OverSubset(ms, Tree(ms, root), Top(ms, root, n), SpendOf);
  }

  // --- When a tree stays within the limit of its root --------------------------------------

  /** What a mandate has neither spent nor reserved nor delegated; negative if it has given out more than its limit. */
  function HeadroomOf(m: Mandate): int {
    m.limit - m.committed - m.reserved - m.delegated
  }

  /** The root's limit is divided into what the upper levels spent, what they have left, and the limits of the next level. */
  lemma {:induction false} TopIdentity(ms: Mandates, root: Id, n: nat)
    requires ForestOk(ms) && root in ms
    ensures Divided(ms, root, n) == ms[root].limit
  {
    if n == 0 {
      NoLevel(ms, root);
    } else {
      TopIdentity(ms, root, n - 1);
      OneLevelMore(ms, root, n - 1);
    }
  }

  /** What the upper n levels spent and have left, and the limits of the level below them. */
  ghost function Divided(ms: Mandates, root: Id, n: nat): int {
    Over(ms, Top(ms, root, n), SpendOf) + Over(ms, Top(ms, root, n), HeadroomOf) + Over(ms, Level(ms, root, n), LimitOf)
  }

  lemma NoLevel(ms: Mandates, root: Id)
    requires root in ms
    ensures Divided(ms, root, 0) == ms[root].limit
  {
    SumZero(OverWeights(ms, {}, SpendOf));
    SumZero(OverWeights(ms, {}, HeadroomOf));
    assert Level(ms, root, 0) == {root};
    OverOne(ms, root, LimitOf);
  }

  lemma OneLevelMore(ms: Mandates, root: Id, n: nat)
    requires ForestOk(ms)
    ensures Divided(ms, root, n + 1) == Divided(ms, root, n)
  {
    TopApart(ms, root, n);
    OverUnion(ms, Top(ms, root, n), Level(ms, root, n), SpendOf);
    OverUnion(ms, Top(ms, root, n), Level(ms, root, n), HeadroomOf);
    LevelStep(ms, root, n);
    LimitSplits(ms, Level(ms, root, n));
  }

  lemma TopApart(ms: Mandates, root: Id, n: nat)
    requires ForestOk(ms)
    ensures Top(ms, root, n) !! Level(ms, root, n)
  {
    TopDepths(ms, root, n);
    forall m | m in Level(ms, root, n) ensures m !in Top(ms, root, n) {
      AncestorBounds(ms, m, n, root);
    }
  }

  function FreeOf(m: Mandate): int {
    m.limit - m.delegated
  }

  lemma LimitSplits(ms: Mandates, S: set<Id>)
    ensures Over(ms, S, LimitOf) == Over(ms, S, SpendOf) + Over(ms, S, HeadroomOf) + Over(ms, S, DelegatedOf)
  {
    SumPlus(OverWeights(ms, S, SpendOf), OverWeights(ms, S, HeadroomOf), OverWeights(ms, S, FreeOf));
    SumPlus(OverWeights(ms, S, FreeOf), OverWeights(ms, S, DelegatedOf), OverWeights(ms, S, LimitOf));
  }

  lemma {:induction false} TopInTree(ms: Mandates, root: Id, n: nat)
    ensures Top(ms, root, n) <= Tree(ms, root)
  {
    if n > 0 {
      TopInTree(ms, root, n - 1);
      forall m | m in Level(ms, root, n - 1) ensures Below(ms, root, m) {}
    }
  }

  /** In every sound forest, what a tree spends and the headroom of its mandates add up to its root's limit. */
  lemma TreeIdentity(ms: Mandates, root: Id)
    requires ForestOk(ms) && root in ms
    ensures Over(ms, Tree(ms, root), SpendOf) + Over(ms, Tree(ms, root), HeadroomOf) == ms[root].limit
  {
    TreeIsTop(ms, root);
    var n := ms[root].maxDepth - ms[root].depth + 1;
    TopInTree(ms, root, n);
    assert Tree(ms, root) == Top(ms, root, n);
    TopIdentity(ms, root, n);
    forall m | m in ms ensures m !in Level(ms, root, n) {
      assert Rooted(ms, m);
      if m in Level(ms, root, n) {
        AncestorBounds(ms, m, n, root);
        assert false;
      }
    }
    SumZero(OverWeights(ms, Level(ms, root, n), LimitOf));
  }

  /**
   * A tree stays within its root's limit if and only if the headrooms of its mandates do not sum
   * to less than zero.
   */
  lemma TreeWithinLimitExact(s: State, root: Id)
    requires Reachable(s) && root in s.mandates
    ensures Over(s.mandates, Tree(s.mandates, root), SpendOf) <= s.mandates[root].limit
            <==> 0 <= Over(s.mandates, Tree(s.mandates, root), HeadroomOf)
  {
    ReachableInv(s);
    TreeIdentity(s.mandates, root);
  }
}
