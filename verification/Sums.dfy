/** Finite sums over maps from identifiers to integers. */
module Sums {

  ghost function Pick(s: set<nat>): (k: nat)
    requires s != {}
    ensures k in s
  {
    var k :| k in s; k
  }

  /** The sum of all values of w. */
  ghost function Sum(w: map<nat, int>): int
    decreases |w|
  {
    if w == map[] then 0
    else
      var k := Pick(w.Keys);
      w[k] + Sum(w - {k})
  }

  /** The order in which Sum takes its keys does not matter. */
  lemma {:induction false} SumRemove(w: map<nat, int>, k: nat)
    requires k in w
    ensures Sum(w) == w[k] + Sum(w - {k})
    decreases |w|
  {
    var p := Pick(w.Keys);
    if p != k {
      SumRemove(w - {p}, k);
      SumRemove(w - {k}, p);
      assert w - {p} - {k} == w - {k} - {p};
    }
  }

  lemma SumUpdate(w: map<nat, int>, k: nat, v: int)
    ensures Sum(w[k := v]) == Sum(w) + v - (if k in w then w[k] else 0)
  {
    SumRemove(w[k := v], k);
    if k in w {
      SumRemove(w, k);
      assert w[k := v] - {k} == w - {k};
    } else {
      assert w[k := v] - {k} == w;
    }
  }

  lemma {:induction false} SumMonotone(a: map<nat, int>, b: map<nat, int>)
    requires a.Keys == b.Keys
    requires forall k | k in a :: a[k] <= b[k]
    ensures Sum(a) <= Sum(b)
    decreases |a|
  {
    if a != map[] {
      var k := Pick(a.Keys);
      SumRemove(b, k);
      SumMonotone(a - {k}, b - {k});
    }
  }

  lemma {:induction false} SumPlus(a: map<nat, int>, b: map<nat, int>, c: map<nat, int>)
    requires a.Keys == b.Keys == c.Keys
    requires forall k | k in a :: c[k] == a[k] + b[k]
    ensures Sum(c) == Sum(a) + Sum(b)
    decreases |a|
  {
    if a != map[] {
      var k := Pick(a.Keys);
      SumRemove(b, k);
      SumRemove(c, k);
      SumPlus(a - {k}, b - {k}, c - {k});
    }
  }

  lemma {:induction false} SumZero(w: map<nat, int>)
    requires forall k | k in w :: w[k] == 0
    ensures Sum(w) == 0
    decreases |w|
  {
    if w != map[] {
      SumZero(w - {Pick(w.Keys)});
    }
  }

  /** Each value of a map without negative values is at most the sum. */
  lemma SumMember(w: map<nat, int>, k: nat)
    requires k in w
    requires forall j | j in w :: 0 <= w[j]
    ensures 0 <= w[k] <= Sum(w)
  {
    SumRemove(w, k);
    var rest := w - {k};
    var zeros := map j | j in rest :: 0;
    SumZero(zeros);
    SumMonotone(zeros, rest);
  }
}
