/** The conditional reservation on its own: what a burst of reservations without releases admits. */
module Admission {
  import opened Domain

  function Admit(m: Mandate, a: Amount): Mandate {
    if m.Fits(a) then m.(reserved := m.reserved + a, version := m.version + 1) else m
  }

  function AdmitAll(m: Mandate, amounts: seq<Amount>): Mandate
    decreases |amounts|
  {
    if amounts == [] then m else AdmitAll(Admit(m, amounts[0]), amounts[1..])
  }

  /** Which of the reservations succeed. */
  function Admitted(m: Mandate, amounts: seq<Amount>): (r: seq<bool>)
    ensures |r| == |amounts|
    decreases |amounts|
  {
    if amounts == [] then [] else [m.Fits(amounts[0])] + Admitted(Admit(m, amounts[0]), amounts[1..])
  }

  function Count(flags: seq<bool>): nat {
    if flags == [] then 0 else (if flags[0] then 1 else 0) + Count(flags[1..])
  }

  lemma {:induction false} NeverFitsAgain(m: Mandate, amounts: seq<Amount>, a: Amount)
    requires !m.Fits(a)
    ensures !AdmitAll(m, amounts).Fits(a)
    decreases |amounts|
  {
    if amounts != [] {
      NeverFitsAgain(Admit(m, amounts[0]), amounts[1..], a);
    }
  }

  /** Greedy admission is maximal: nothing that was rejected would fit in the end. */
  lemma {:induction false} NoRejectedWouldFit(m: Mandate, amounts: seq<Amount>, i: nat)
    requires i < |amounts| && !Admitted(m, amounts)[i]
    ensures !AdmitAll(m, amounts).Fits(amounts[i])
    decreases |amounts|
  {
    if i == 0 {
      NeverFitsAgain(Admit(m, amounts[0]), amounts[1..], amounts[0]);
    } else {
      assert Admitted(m, amounts)[i] == Admitted(Admit(m, amounts[0]), amounts[1..])[i - 1];
      NoRejectedWouldFit(Admit(m, amounts[0]), amounts[1..], i - 1);
    }
  }

  function Room(m: Mandate): int {
    m.limit - m.committed - m.reserved
  }

  function Least(a: int, b: int): int {
    if a < b then a else b
  }

  lemma QuotientIs(x: int, a: Amount, q: int, r: int)
    requires x == q * a + r && 0 <= r < a
    ensures x / a == q
  {
    var d := x / a - q;
    assert d * a == r - x % a;
    Multiples(d, a);
  }

  lemma Multiples(d: int, a: Amount)
    ensures d > 0 ==> d * a >= a
    ensures d < 0 ==> d * a <= -(a as int)
  {
  }

  lemma QuotientDrops(x: int, a: Amount)
    requires 0 <= x
    ensures x < a ==> x / a == 0
    ensures a <= x ==> x / a == (x - a) / a + 1 >= 1
  {
    var y := x - a;
    var q := y / a;
    assert x == (q + 1) * a + y % a;
    QuotientIs(x, a, q + 1, y % a);
    if x < a {
      QuotientIs(x, a, 0, x);
    }
  }

  lemma OneMoreAdmitted(k: nat, a: Amount)
    ensures (k + 1) * a == k * a + a
  {
  }

  /**
   * Equal requests are admitted exactly: of n requests of size a, the room divided by a or all of
   * them, and the reserve grows by exactly what was admitted.
   */
  lemma {:induction false} EqualRequestsExact(m: Mandate, amounts: seq<Amount>, a: Amount)
    requires 0 <= Room(m) && forall x | x in amounts :: x == a
    ensures Count(Admitted(m, amounts)) == Least(|amounts|, Room(m) / a)
    ensures AdmitAll(m, amounts).reserved == m.reserved + Count(Admitted(m, amounts)) * a
    decreases |amounts|
  {
    QuotientDrops(Room(m), a);
    if amounts != [] {
      var rest := amounts[1..];
      assert amounts[0] in amounts;
      assert forall x | x in rest :: x in amounts;
      EqualRequestsExact(Admit(m, a), rest, a);
      assert Admitted(m, amounts)[1..] == Admitted(Admit(m, a), rest);
      OneMoreAdmitted(Count(Admitted(Admit(m, a), rest)), a);
    }
  }
}
