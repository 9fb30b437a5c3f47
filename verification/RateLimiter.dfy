/** The sliding-window rate limiter: the pruned deque, the Redis set, and the full history they stand for. */
module RateLimiter {
  import opened Domain

  /** The timestamps after lo, in order. */
  function Recent(times: seq<int>, lo: int): seq<int> {
    if times == [] then []
    else
      var last := |times| - 1;
      var rest := Recent(times[..last], lo);
      if times[last] > lo then rest + [times[last]] else rest
  }

  /** How many timestamps lie in (lo, hi]. */
  function CountIn(times: seq<int>, lo: int, hi: int): nat {
    if times == [] then 0
    else
      var last := |times| - 1;
      CountIn(times[..last], lo, hi) + if lo < times[last] <= hi then 1 else 0
  }

  predicate Sorted(times: seq<int>) {
    forall i, j | 0 <= i <= j < |times| :: times[i] <= times[j]
  }

  predicate AllUpTo(times: seq<int>, t: int) {
    forall i | 0 <= i < |times| :: times[i] <= t
  }

  function Copies(now: int, cost: int): seq<int> {
    if cost <= 0 then [] else seq(cost, _ => now)
  }

  // --- Filters -----------------------------------------------------------------------------

  lemma {:induction false} RecentCounts(times: seq<int>, lo: int, hi: int)
    requires AllUpTo(times, hi)
    ensures |Recent(times, lo)| == CountIn(times, lo, hi)
    decreases |times|
  {
    if times != [] {
      RecentCounts(times[..|times| - 1], lo, hi);
    }
  }

  lemma {:induction false} RecentTwice(times: seq<int>, lo: int, higher: int)
    requires lo <= higher
    ensures Recent(Recent(times, lo), higher) == Recent(times, higher)
    decreases |times|
  {
    if times != [] {
      var last := |times| - 1;
      RecentTwice(times[..last], lo, higher);
      if times[last] > lo {
        var kept := Recent(times, lo);
        assert kept[..|kept| - 1] == Recent(times[..last], lo);
      }
    }
  }

  lemma {:induction false} RecentConcat(a: seq<int>, b: seq<int>, lo: int)
    ensures Recent(a + b, lo) == Recent(a, lo) + Recent(b, lo)
    decreases |b|
  {
    if b == [] {
      assert a + b == a;
    } else {
      var last := |b| - 1;
      assert (a + b)[..|a + b| - 1] == a + b[..last];
      RecentConcat(a, b[..last], lo);
    }
  }

  lemma RecentOne(t: int, lo: int)
    ensures Recent([t], lo) == if t > lo then [t] else []
  {
    assert [t][..0] == [];
  }

  lemma {:induction false} RecentAll(times: seq<int>, lo: int)
    requires forall i | 0 <= i < |times| :: times[i] > lo
    ensures Recent(times, lo) == times
    decreases |times|
  {
    if times != [] {
      RecentAll(times[..|times| - 1], lo);
    }
  }

  lemma {:induction false} RecentNone(times: seq<int>, lo: int)
    requires AllUpTo(times, lo)
    ensures Recent(times, lo) == []
    decreases |times|
  {
    if times != [] {
      RecentNone(times[..|times| - 1], lo);
    }
  }

  /** What is left after popping the front while it is stale; a stale timestamp behind a recent one stays. */
  function PopFront(times: seq<int>, lo: int): seq<int> {
    if times != [] && times[0] <= lo then PopFront(times[1..], lo) else times
  }

  /** No stale timestamp is behind a recent one. */
  predicate NoneHidden(times: seq<int>, lo: int) {
    forall i, j | 0 <= i < j < |times| && times[i] > lo :: times[j] > lo
  }

  lemma {:induction false} RecentShorter(times: seq<int>, lo: int)
    ensures |Recent(times, lo)| <= |times|
    ensures Recent(times, lo) == times ==> forall i | 0 <= i < |times| :: times[i] > lo
    decreases |times|
  {
    if times != [] {
      var last := |times| - 1;
      RecentShorter(times[..last], lo);
      if Recent(times, lo) == times {
        assert times[last] > lo && Recent(times[..last], lo) == Recent(times, lo)[..last] == times[..last];
        forall i | 0 <= i < |times| ensures times[i] > lo {
          if i < last {
            assert times[..last][i] > lo;
          }
        }
      }
    }
  }

  lemma HiddenTail(times: seq<int>, lo: int)
    requires times != [] && times[0] <= lo
    ensures NoneHidden(times[1..], lo) <==> NoneHidden(times, lo)
  {
    var tail := times[1..];
    forall i, j | 0 <= i < j < |times| && times[i] > lo && NoneHidden(tail, lo) ensures times[j] > lo {
      assert tail[i - 1] > lo && tail[j - 1] == times[j];
    }
    forall i, j | 0 <= i < j < |tail| && tail[i] > lo && NoneHidden(times, lo) ensures tail[j] > lo {
      assert times[i + 1] > lo && times[j + 1] == tail[j];
    }
  }

  /** Popping the front never removes a recent timestamp. */
  lemma {:induction false} PopFrontRecent(times: seq<int>, lo: int)
    ensures Recent(PopFront(times, lo), lo) == Recent(times, lo)
    ensures PopFront(times, lo) != [] ==> PopFront(times, lo)[0] > lo
    ensures NoneHidden(PopFront(times, lo), lo) <==> NoneHidden(times, lo)
    decreases |times|
  {
    if times != [] && times[0] <= lo {
      PopFrontRecent(times[1..], lo);
      assert times == times[..1] + times[1..];
      RecentConcat(times[..1], times[1..], lo);
      RecentNone(times[..1], lo);
      HiddenTail(times, lo);
    }
  }

  /**
   * Popping the front keeps at least the recent timestamps, and exactly them if and only if no
   * stale timestamp is behind a recent one.
   */
  lemma PopFrontExact(times: seq<int>, lo: int)
    ensures |Recent(times, lo)| <= |PopFront(times, lo)|
    ensures PopFront(times, lo) == Recent(times, lo) <==> NoneHidden(times, lo)
  {
    var kept := PopFront(times, lo);
    PopFrontRecent(times, lo);
    RecentShorter(kept, lo);
    if NoneHidden(times, lo) {
      RecentAll(kept, lo);
    }
  }

  /** In a sorted deque, nothing is hidden. */
  lemma SortedPops(times: seq<int>, lo: int)
    requires Sorted(times)
    ensures PopFront(times, lo) == Recent(times, lo)
  {
    PopFrontExact(times, lo);
  }

  lemma {:induction false} RecentSorted(times: seq<int>, lo: int, hi: int)
    requires Sorted(times) && AllUpTo(times, hi)
    ensures Sorted(Recent(times, lo)) && AllUpTo(Recent(times, lo), hi)
    decreases |times|
  {
    if times != [] {
      var last := |times| - 1;
      RecentSorted(times[..last], lo, times[last]);
      var rest := Recent(times[..last], lo);
      assert Sorted(rest + [times[last]]) && AllUpTo(rest + [times[last]], hi);
    }
  }

  // --- The specification: the whole admission history --------------------------------------

  /** The request fits into the window that ends now. */
  predicate Admits(history: seq<int>, now: int, window: Amount, limit: Amount, cost: int) {
    CountIn(history, now - window, now) + cost <= limit
  }

  function Record(history: seq<int>, now: int, window: Amount, limit: Amount, cost: int): seq<int> {
    if Admits(history, now, window, limit, cost) then history + Copies(now, cost) else history
  }

  /** Any limit + 1 consecutive admissions span at least a window. */
  predicate Spaced(history: seq<int>, window: Amount, limit: Amount) {
    forall i | limit <= i < |history| :: history[i - limit] <= history[i] - window
  }

  lemma {:induction false} CountSuffix(times: seq<int>, k: nat, lo: int, hi: int)
    requires k <= |times| && forall i | k <= i < |times| :: lo < times[i] <= hi
    ensures CountIn(times, lo, hi) >= |times| - k
    decreases |times|
  {
    if k < |times| {
      CountSuffix(times[..|times| - 1], k, lo, hi);
    }
  }

  lemma RecordSpaced(history: seq<int>, now: int, window: Amount, limit: Amount, cost: int)
    requires Sorted(history) && AllUpTo(history, now) && Spaced(history, window, limit)
    ensures var h := Record(history, now, window, limit, cost);
            Sorted(h) && AllUpTo(h, now) && Spaced(h, window, limit)
  {
    var h := Record(history, now, window, limit, cost);
    if Admits(history, now, window, limit, cost) {
      forall i | limit <= i < |h| ensures h[i - limit] <= h[i] - window {
        if i >= |history| && h[i - limit] > now - window {
          CountSuffix(history, i - limit, now - window, now);
          assert false;
        }
      }
    }
  }

  lemma {:induction false} CountSpread(times: seq<int>, lo: int, hi: int, n: nat)
    requires Sorted(times) && CountIn(times, lo, hi) > n
    ensures exists i :: n <= i < |times| && lo < times[i - n] && times[i] <= hi
    decreases |times|
  {
    var last := |times| - 1;
    if CountIn(times[..last], lo, hi) > n {
      CountSpread(times[..last], lo, hi, n);
      var i :| n <= i < last && lo < times[..last][i - n] && times[..last][i] <= hi;
      assert lo < times[i - n] && times[i] <= hi;
    } else {
      CountReach(times, lo, hi);
      assert lo < times[last - n] && times[last] <= hi;
    }
  }

  /** If the last timestamp lies in (lo, hi], the ones counted are the last ones. */
  lemma {:induction false} CountReach(times: seq<int>, lo: int, hi: int)
    requires Sorted(times) && times != [] && lo < times[|times| - 1] <= hi
    ensures CountIn(times, lo, hi) <= |times|
    ensures forall i | |times| - CountIn(times, lo, hi) <= i < |times| :: lo < times[i]
    decreases |times|
  {
    var init := times[..|times| - 1];
    if init != [] {
      if lo < init[|init| - 1] {
        CountReach(init, lo, hi);
        forall i | |times| - CountIn(times, lo, hi) <= i < |times| ensures lo < times[i] {
          if i < |init| {
            assert lo < init[i];
          }
        }
      } else {
        CountNone(init, lo, hi);
      }
    }
  }

  lemma {:induction false} CountNone(times: seq<int>, lo: int, hi: int)
    requires AllUpTo(times, lo)
    ensures CountIn(times, lo, hi) == 0
    decreases |times|
  {
    if times != [] {
      CountNone(times[..|times| - 1], lo, hi);
    }
  }

  /** No window of the given length, wherever it ends, holds more than the limit. */
  lemma WindowBound(history: seq<int>, window: Amount, limit: Amount, end: int)
    requires Sorted(history) && Spaced(history, window, limit)
    ensures CountIn(history, end - window, end) <= limit
  {
    if CountIn(history, end - window, end) > limit {
      CountSpread(history, end - window, end, limit);
      assert false;
    }
  }

  // --- Runs --------------------------------------------------------------------------------

  datatype Call = Call(now: int, cost: int)

  /** The clock does not run backwards and starts at or after the given time. */
  predicate Clocked(calls: seq<Call>, start: int) {
    calls == [] || (start <= calls[0].now && Clocked(calls[1..], calls[0].now))
  }

  function RecordAll(history: seq<int>, calls: seq<Call>, window: Amount, limit: Amount): seq<int>
    decreases |calls|
  {
    if calls == [] then history
    else RecordAll(Record(history, calls[0].now, window, limit, calls[0].cost), calls[1..], window, limit)
  }

  lemma {:induction false} RecordAllSpaced(history: seq<int>, calls: seq<Call>, window: Amount, limit: Amount, start: int)
    requires Sorted(history) && AllUpTo(history, start) && Spaced(history, window, limit) && Clocked(calls, start)
    ensures Sorted(RecordAll(history, calls, window, limit)) && Spaced(RecordAll(history, calls, window, limit), window, limit)
    decreases |calls|
  {
    if calls != [] {
      var c := calls[0];
      RecordSpaced(history, c.now, window, limit, c.cost);
      RecordAllSpaced(Record(history, c.now, window, limit, c.cost), calls[1..], window, limit, c.now);
    }
  }

  /** Over any run with a nondecreasing clock, no window admits more than the limit. */
  lemma RunWindowBound(calls: seq<Call>, window: Amount, limit: Amount, start: int, end: int)
    requires Clocked(calls, start)
    ensures CountIn(RecordAll([], calls, window, limit), end - window, end) <= limit
  {
    RecordAllSpaced([], calls, window, limit, start);
    WindowBound(RecordAll([], calls, window, limit), window, limit, end);
  }

  // --- The two stores ----------------------------------------------------------------------

  /** One call against the local deque: pop the stale front, compare, extend by the cost. */
  function LocalStep(bucket: seq<int>, now: int, window: Amount, limit: Amount, cost: int): (bool, seq<int>) {
    var kept := PopFront(bucket, now - window);
    if |kept| + cost > limit then (false, kept) else (true, kept + Copies(now, cost))
  }

  /**
   * One undisturbed call against the Redis set: remove every stale score, count, add one member,
   * take it back when over the limit.
   */
  function RedisStep(stored: seq<int>, now: int, window: Amount, limit: Amount, cost: int): (bool, seq<int>) {
    var kept := Recent(stored, now - window);
    var added := kept + [now];
    if |kept| + cost > limit then (false, added[..|added| - 1]) else (true, added)
  }

  /**
   * On the same timestamps the deque never admits what Redis rejects. While no stale timestamp is
   * behind a recent one, the two decide alike, and store alike exactly when the call is rejected
   * or costs one.
   */
  lemma StoresAgree(stored: seq<int>, now: int, window: Amount, limit: Amount, cost: int)
    ensures LocalStep(stored, now, window, limit, cost).0 ==> RedisStep(stored, now, window, limit, cost).0
    ensures NoneHidden(stored, now - window) ==>
              && LocalStep(stored, now, window, limit, cost).0 == RedisStep(stored, now, window, limit, cost).0
              && (LocalStep(stored, now, window, limit, cost).1 == RedisStep(stored, now, window, limit, cost).1
                  <==> !LocalStep(stored, now, window, limit, cost).0 || cost == 1)
  {
    var kept := Recent(stored, now - window);
    PopFrontExact(stored, now - window);
    assert (kept + [now])[..|kept + [now]| - 1] == kept;
    if cost == 1 {
      assert Copies(now, cost) == [now];
    } else {
      assert |Copies(now, cost)| != 1;
    }
  }

  /**
   * For calls of cost one, the two stores end alike on the same timestamps if and only if nothing
   * stale is hidden.
   */
  lemma StoresAgreeExactly(stored: seq<int>, now: int, window: Amount, limit: Amount)
    ensures LocalStep(stored, now, window, limit, 1) == RedisStep(stored, now, window, limit, 1)
            <==> NoneHidden(stored, now - window)
  {
    var recent, kept := Recent(stored, now - window), PopFront(stored, now - window);
    PopFrontExact(stored, now - window);
    assert (recent + [now])[..|recent + [now]| - 1] == recent;
    assert Copies(now, 1) == [now];
    if kept + [now] == recent + [now] {
      assert kept == (kept + [now])[..|kept|] && recent == (recent + [now])[..|recent|];
    }
  }

  /** The decisions of a run against the local deque, and what it stores in the end. */
  function LocalRun(bucket: seq<int>, nows: seq<int>, window: Amount, limit: Amount): (seq<bool>, seq<int>)
    decreases |nows|
  {
    if nows == [] then ([], bucket)
    else
      var step := LocalStep(bucket, nows[0], window, limit, 1);
      var rest := LocalRun(step.1, nows[1..], window, limit);
      ([step.0] + rest.0, rest.1)
  }

  function RedisSequentialRun(stored: seq<int>, nows: seq<int>, window: Amount, limit: Amount): (seq<bool>, seq<int>)
    decreases |nows|
  {
    if nows == [] then ([], stored)
    else
      var step := RedisStep(stored, nows[0], window, limit, 1);
      var rest := RedisSequentialRun(step.1, nows[1..], window, limit);
      ([step.0] + rest.0, rest.1)
  }

  predicate Nondecreasing(nows: seq<int>, start: int) {
    nows == [] || (start <= nows[0] && Nondecreasing(nows[1..], nows[0]))
  }

  lemma RedisStepSorted(stored: seq<int>, now: int, window: Amount, limit: Amount)
    requires Sorted(stored) && AllUpTo(stored, now)
    ensures Sorted(RedisStep(stored, now, window, limit, 1).1) && AllUpTo(RedisStep(stored, now, window, limit, 1).1, now)
  {
    RecentSorted(stored, now - window, now);
    var kept := Recent(stored, now - window);
    StepOnTimes(stored, kept, now, window, limit);
    assert Sorted(kept + [now]) && AllUpTo(kept + [now], now);
  }

  /**
   * Run one call at a time with cost one and a clock that does not step back, the two limiters
   * give the same decisions and store the same timestamps.
   */
  lemma {:induction false} LimitersAgree(stored: seq<int>, nows: seq<int>, window: Amount, limit: Amount, start: int)
    requires Sorted(stored) && AllUpTo(stored, start) && Nondecreasing(nows, start)
    ensures LocalRun(stored, nows, window, limit) == RedisSequentialRun(stored, nows, window, limit)
    decreases |nows|
  {
    if nows != [] {
      StoresAgreeExactly(stored, nows[0], window, limit);
      RedisStepSorted(stored, nows[0], window, limit);
      LimitersAgree(LocalStep(stored, nows[0], window, limit, 1).1, nows[1..], window, limit, nows[0]);
    }
  }

  lemma FirstTwoCalls()
    ensures LocalStep([], 10, 10, 2, 1) == RedisStep([], 10, 10, 2, 1) == (true, [10])
    ensures LocalStep([10], 5, 10, 2, 1) == RedisStep([10], 5, 10, 2, 1) == (true, [10, 5])
  {
    assert Copies(10, 1) == [10] && Copies(5, 1) == [5];
    RecentOne(10, -5);
    assert [10] + [5] == [10, 5];
  }

  lemma ThirdCall()
    ensures !LocalStep([10, 5], 16, 10, 2, 1).0 && RedisStep([10, 5], 16, 10, 2, 1).0
  {
    assert [10, 5][..1] == [10];
    RecentOne(10, 6);
    assert Recent([10, 5], 6) == [10];
  }

  /**
   * The clock matters: after it stepped back from 10 to 5, the stale 5 stays hidden behind the 10,
   * and the deque rejects at 16 what Redis admits.
   */
  lemma ClockStepsBack()
    ensures LocalRun([], [10, 5, 16], 10, 2).0 == [true, true, false]
    ensures RedisSequentialRun([], [10, 5, 16], 10, 2).0 == [true, true, true]
  {
    FirstTwoCalls();
    ThirdCall();
    ThreeCalls(10, 5, 16);
  }

  lemma ThreeCalls(a: int, b: int, c: int)
    ensures var x := LocalStep([], a, 10, 2, 1);
            var y := LocalStep(x.1, b, 10, 2, 1);
            LocalRun([], [a, b, c], 10, 2).0 == [x.0, y.0, LocalStep(y.1, c, 10, 2, 1).0]
    ensures var x := RedisStep([], a, 10, 2, 1);
            var y := RedisStep(x.1, b, 10, 2, 1);
            RedisSequentialRun([], [a, b, c], 10, 2).0 == [x.0, y.0, RedisStep(y.1, c, 10, 2, 1).0]
  {
    assert [a, b, c][1..] == [b, c] && [b, c][1..] == [c] && [c][1..] == [];
    var x := LocalStep([], a, 10, 2, 1);
    var y := LocalStep(x.1, b, 10, 2, 1);
    assert LocalRun(y.1, [c], 10, 2).0 == [LocalStep(y.1, c, 10, 2, 1).0];
    assert LocalRun(x.1, [b, c], 10, 2).0 == [y.0] + LocalRun(y.1, [c], 10, 2).0;
    var u := RedisStep([], a, 10, 2, 1);
    var v := RedisStep(u.1, b, 10, 2, 1);
    assert RedisSequentialRun(v.1, [c], 10, 2).0 == [RedisStep(v.1, c, 10, 2, 1).0];
    assert RedisSequentialRun(u.1, [b, c], 10, 2).0 == [v.0] + RedisSequentialRun(v.1, [c], 10, 2).0;
  }

  /** The deque stands for the history: it holds the admissions after the last cut. */
  ghost predicate Represents(bucket: seq<int>, history: seq<int>, cut: int, last: int) {
    Sorted(history) && AllUpTo(history, last) && cut <= last && bucket == Recent(history, cut)
  }

  lemma RecordSorted(history: seq<int>, now: int, window: Amount, limit: Amount, cost: int)
    requires Sorted(history) && AllUpTo(history, now)
    ensures Sorted(Record(history, now, window, limit, cost)) && AllUpTo(Record(history, now, window, limit, cost), now)
  {
  }

  /** Recording adds the admitted copies to the recent timestamps. */
  lemma RecordRecent(history: seq<int>, now: int, window: Amount, cost: int)
    ensures Recent(history + Copies(now, cost), now - window) == Recent(history, now - window) + Copies(now, cost)
  {
    RecentConcat(history, Copies(now, cost), now - window);
    RecentAll(Copies(now, cost), now - window);
  }

  /** The positions of the timestamps in (lo, hi]. */
  function Within(times: seq<int>, lo: int, hi: int): set<nat> {
    set i: nat | i < |times| && lo < times[i] <= hi
  }

  lemma {:induction false} CountIsSize(times: seq<int>, lo: int, hi: int)
    ensures CountIn(times, lo, hi) == |Within(times, lo, hi)|
    decreases |times|
  {
    if times != [] {
      var last := |times| - 1;
      CountIsSize(times[..last], lo, hi);
      if lo < times[last] <= hi {
        assert Within(times, lo, hi) == Within(times[..last], lo, hi) + {last};
      } else {
        assert Within(times, lo, hi) == Within(times[..last], lo, hi);
      }
    } else {
      assert Within(times, lo, hi) == {};
    }
  }

  /**
   * A call is admitted exactly when the admissions of the last window and its cost stay within the
   * limit; an admitted call is remembered as often as it costs, and a rejected one not at all.
   */
  lemma CallIsDecided(bucket: seq<int>, history: seq<int>, last: int, now: int, window: Amount, limit: Amount, cost: nat)
    requires Represents(bucket, history, last - window, last) && last <= now
    ensures var step := LocalStep(bucket, now, window, limit, cost);
            && (step.0 <==> |Within(history, now - window, now)| + cost <= limit)
            && Represents(step.1, if step.0 then history + seq(cost, _ => now) else history, now - window, now)
  {
    LocalRefinesHistory(bucket, history, last - window, last, now, window, limit, cost);
    CountIsSize(history, now - window, now);
    assert Copies(now, cost) == seq(cost, _ => now);
  }

  /** What is left of the deque after popping is the recent part of the history. */
  lemma PoppedHistory(bucket: seq<int>, history: seq<int>, cut: int, last: int, now: int, lo: int)
    requires Represents(bucket, history, cut, last) && last <= now && cut <= lo
    ensures PopFront(bucket, lo) == Recent(history, lo)
    ensures |Recent(history, lo)| == CountIn(history, lo, now)
  {
    RecentSorted(history, cut, last);
    SortedPops(bucket, lo);
    RecentTwice(history, cut, lo);
    RecentCounts(history, lo, now);
  }

  /** The pruned deque admits exactly what the full history would, and goes on standing for it. */
  lemma LocalRefinesHistory(bucket: seq<int>, history: seq<int>, cut: int, last: int,
                            now: int, window: Amount, limit: Amount, cost: int)
    requires Represents(bucket, history, cut, last) && last <= now && cut <= now - window
    ensures LocalStep(bucket, now, window, limit, cost).0 <==> Admits(history, now, window, limit, cost)
    ensures Represents(LocalStep(bucket, now, window, limit, cost).1, Record(history, now, window, limit, cost), now - window, now)
  {
    PoppedHistory(bucket, history, cut, last, now, now - window);
    RecordSorted(history, now, window, limit, cost);
    RecordRecent(history, now, window, cost);
  }

  function Admitted(bucket: seq<int>, c: Call, window: Amount, limit: Amount): seq<int> {
    if LocalStep(bucket, c.now, window, limit, c.cost).0 then Copies(c.now, c.cost) else []
  }

  /** The timestamps that a run of calls against the deque admits. */
  function Admissions(bucket: seq<int>, calls: seq<Call>, window: Amount, limit: Amount): seq<int>
    decreases |calls|
  {
    if calls == [] then []
    else
      var next := LocalStep(bucket, calls[0].now, window, limit, calls[0].cost).1;
      Admitted(bucket, calls[0], window, limit) + Admissions(next, calls[1..], window, limit)
  }

  lemma OneAdmission(bucket: seq<int>, history: seq<int>, last: int, c: Call, window: Amount, limit: Amount)
    requires Represents(bucket, history, last - window, last) && last <= c.now
    ensures Record(history, c.now, window, limit, c.cost) == history + Admitted(bucket, c, window, limit)
    ensures Represents(LocalStep(bucket, c.now, window, limit, c.cost).1, Record(history, c.now, window, limit, c.cost), c.now - window, c.now)
  {
    LocalRefinesHistory(bucket, history, last - window, last, c.now, window, limit, c.cost);
    assert history + [] == history;
  }

  lemma Regroup(a: seq<int>, b: seq<int>, c: seq<int>)
    ensures a + (b + c) == (a + b) + c
  {
  }

  /** A whole run against the deque records what the full history would. */
  lemma {:induction false} AdmissionsAreRecorded(bucket: seq<int>, history: seq<int>, last: int,
                                                 calls: seq<Call>, window: Amount, limit: Amount)
    requires Represents(bucket, history, last - window, last) && Clocked(calls, last)
    ensures history + Admissions(bucket, calls, window, limit) == RecordAll(history, calls, window, limit)
    decreases |calls|
  {
    if calls == [] {
      assert history + [] == history;
    } else {
      var c := calls[0];
      var bucket', history' := LocalStep(bucket, c.now, window, limit, c.cost).1, Record(history, c.now, window, limit, c.cost);
      OneAdmission(bucket, history, last, c, window, limit);
      AdmissionsAreRecorded(bucket', history', c.now, calls[1..], window, limit);
      Regroup(history, Admitted(bucket, c, window, limit), Admissions(bucket', calls[1..], window, limit));
    }
  }

  /** Over any run against the deque with a nondecreasing clock, no window admits more than the limit. */
  lemma LocalRunBound(calls: seq<Call>, window: Amount, limit: Amount, start: int, end: int)
    requires Clocked(calls, start)
    ensures CountIn(Admissions([], calls, window, limit), end - window, end) <= limit
  {
    AdmissionsAreRecorded([], [], start, calls, window, limit);
    assert [] + Admissions([], calls, window, limit) == Admissions([], calls, window, limit);
    RunWindowBound(calls, window, limit, start, end);
  }

  /** The loop at the front of the deque. */
  method PopStale(times: seq<int>, clearBefore: int) returns (bucket: seq<int>)
    ensures bucket == PopFront(times, clearBefore)
  {
    bucket := times;
    while bucket != [] && bucket[0] <= clearBefore
      invariant PopFront(bucket, clearBefore) == PopFront(times, clearBefore)
    {
      bucket := bucket[1..];
    }
  }

  /** The body of the local path on one deque. */
  method CheckBucket(was: seq<int>, now: int, window: Amount, limit: Amount, cost: int) returns (allowed: bool, bucket: seq<int>)
    ensures allowed == LocalStep(was, now, window, limit, cost).0
    ensures bucket == LocalStep(was, now, window, limit, cost).1
  {
    bucket := PopStale(was, now - window);
    if |bucket| + cost > limit {
      return false, bucket;
    }
    return true, bucket + Copies(now, cost);
  }

  // --- The local limiter -------------------------------------------------------------------

  /** What is known of the deques: everything admitted under each key, and its clock readings. */
  datatype Past = Past(admitted: map<Id, seq<int>>, last: map<Id, int>, setBack: set<Id>)

  /** Unless the key's clock has stepped back, its deque stands for its history. */
  ghost predicate KeyOk(buckets: map<Id, seq<int>>, past: Past, window: Amount, k: Id)
    requires k in buckets
  {
    && k in past.admitted && k in past.last
    && (k !in past.setBack ==> Represents(buckets[k], past.admitted[k], past.last[k] - window, past.last[k]))
  }

  ghost predicate AllKeysOk(buckets: map<Id, seq<int>>, past: Past, window: Amount) {
    && past.admitted.Keys == buckets.Keys && past.last.Keys == buckets.Keys && past.setBack <= buckets.Keys
    && (forall k {:trigger KeyOk(buckets, past, window, k)} | k in buckets :: KeyOk(buckets, past, window, k))
  }

  function HistoryOf(past: Past, key: Id): seq<int> {
    if key in past.admitted then past.admitted[key] else []
  }

  function BucketOf(buckets: map<Id, seq<int>>, key: Id): seq<int> {
    if key in buckets then buckets[key] else []
  }

  /** The reading is behind an earlier one of the same key. */
  predicate StepsBack(past: Past, key: Id, now: int) {
    key in past.last && now < past.last[key]
  }

  /** The past after one more call. */
  function Extended(past: Past, key: Id, now: int, admitted: seq<int>): Past {
    Past(past.admitted[key := HistoryOf(past, key) + admitted], past.last[key := now],
         if StepsBack(past, key, now) then past.setBack + {key} else past.setBack)
  }

  /** While the key's clock never stepped back, the call is decided as the key's full history says. */
  lemma CallRefines(buckets: map<Id, seq<int>>, past: Past, window: Amount, limit: Amount, key: Id, now: int, cost: int)
    requires AllKeysOk(buckets, past, window)
    ensures var step := LocalStep(BucketOf(buckets, key), now, window, limit, cost);
            var next := Extended(past, key, now, if step.0 then Copies(now, cost) else []);
            && AllKeysOk(buckets[key := step.1], next, window)
            && (key !in next.setBack ==>
                  && (step.0 <==> Admits(HistoryOf(past, key), now, window, limit, cost))
                  && next.admitted[key] == Record(HistoryOf(past, key), now, window, limit, cost))
  {
    var step := LocalStep(BucketOf(buckets, key), now, window, limit, cost);
    var first := if step.0 then Copies(now, cost) else [];
    var next := Extended(past, key, now, first);
    if key in buckets {
      assert KeyOk(buckets, past, window, key);
    }
    if key !in next.setBack {
      var last := if key in past.last then past.last[key] else now;
      OneAdmission(BucketOf(buckets, key), HistoryOf(past, key), last, Call(now, cost), window, limit);
      LocalRefinesHistory(BucketOf(buckets, key), HistoryOf(past, key), last - window, last, now, window, limit, cost);
    }
    var after := buckets[key := step.1];
    forall k | k in after ensures KeyOk(after, next, window, k) {
      if k != key {
        assert KeyOk(buckets, past, window, k);
      }
    }
  }

  /** The per-key deques of one process. */
  class LocalLimiter {
    const window: Amount
    var buckets: map<Id, seq<int>>
    ghost var past: Past

    ghost predicate Valid()
      reads this
    {
      AllKeysOk(buckets, past, window)
    }

    constructor (window: Amount)
      ensures Valid() && this.window == window
      ensures buckets == map[] && past == Past(map[], map[], {})
    {
      this.window := window;
      buckets, past := map[], Past(map[], map[], {});
    }

    /**
     * One call, whatever the clock reads. The decision is that of the key's deque, and no other
     * key is affected; while the key's clock never stepped back it is that of the full history.
     */
    method CheckRateLimit(key: Id, limit: Amount, cost: int, now: int) returns (allowed: bool)
      requires Valid()
      modifies this
      ensures Valid()
      ensures allowed == LocalStep(BucketOf(old(buckets), key), now, window, limit, cost).0
      ensures buckets == old(buckets)[key := LocalStep(BucketOf(old(buckets), key), now, window, limit, cost).1]
      ensures past == Extended(old(past), key, now, if allowed then Copies(now, cost) else [])
      ensures key !in past.setBack ==> (allowed <==> Admits(HistoryOf(old(past), key), now, window, limit, cost))
    {
      var was := if key in buckets then buckets[key] else [];
      CallRefines(buckets, past, window, limit, key, now, cost);
      var bucket;
      allowed, bucket := CheckBucket(was, now, window, limit, cost);
      buckets := buckets[key := bucket];
      past := Extended(past, key, now, if allowed then Copies(now, cost) else []);
    }
  }

  // --- Redis with the revert as a separate step --------------------------------------------

  /** A member of the sorted set, and whether the call that added it was granted. */
  datatype Member = Member(time: int, granted: bool, id: Id)

  /** The set, everything granted so far, the last clock reading, all ids used, and the reverts still to come. */
  datatype Redis = Redis(stored: seq<Member>, history: seq<int>, last: int, used: set<Id>, pending: set<Id>)

  datatype RedisAction = Pipeline(now: int, id: Id) | Revert(id: Id)

  function Younger(stored: seq<Member>, lo: int): seq<Member> {
    if stored == [] then []
    else
      var last := |stored| - 1;
      var rest := Younger(stored[..last], lo);
      if stored[last].time > lo then rest + [stored[last]] else rest
  }

  /** Removes the member with the given id. */
  function Without(stored: seq<Member>, id: Id): seq<Member> {
    if stored == [] then []
    else
      var last := |stored| - 1;
      var rest := Without(stored[..last], id);
      if stored[last].id == id then rest else rest + [stored[last]]
  }

  function Granted(stored: seq<Member>): seq<int> {
    if stored == [] then []
    else
      var last := |stored| - 1;
      var rest := Granted(stored[..last]);
      if stored[last].granted then rest + [stored[last].time] else rest
  }

  /** The set after pruning, and whether one more member stays within the limit. */
  function Pruned(r: Redis, now: int, window: Amount): seq<Member> {
    Younger(r.stored, now - window)
  }

  predicate Grants(r: Redis, now: int, window: Amount, limit: Amount) {
    |Pruned(r, now, window)| + 1 <= limit
  }

  /**
   * The atomic pipeline of one call of cost one, and the later removal of its member when it was
   * over the limit. Adding a member whose id is already in the set moves that member.
   */
  function RedisAct(r: Redis, a: RedisAction, window: Amount, limit: Amount): Redis {
    match a
    case Pipeline(now, id) =>
      var grants := Grants(r, now, window, limit);
      Redis(Without(Pruned(r, now, window), id) + [Member(now, grants, id)],
            if grants then r.history + [now] else r.history,
            now, r.used + {id}, if grants then r.pending else r.pending + {id})
    case Revert(id) =>
      if id in r.pending then r.(stored := Without(r.stored, id), pending := r.pending - {id}) else r
  }

  /** Ids in the set were used, and a revert is pending only for a member that was not granted. */
  predicate MemberOk(r: Redis, i: nat)
    requires i < |r.stored|
  {
    r.stored[i].id in r.used && (r.stored[i].id in r.pending ==> !r.stored[i].granted)
  }

  predicate IdsOk(r: Redis) {
    && r.pending <= r.used
    && (forall i: nat {:trigger MemberOk(r, i)} | i < |r.stored| :: MemberOk(r, i))
  }

  ghost predicate RedisOk(r: Redis, window: Amount, limit: Amount) {
    && Sorted(r.history) && AllUpTo(r.history, r.last) && Spaced(r.history, window, limit)
    && Granted(r.stored) == Recent(r.history, r.last - window)
    && IdsOk(r)
  }

  lemma GrantedConcat(a: seq<Member>, m: Member)
    ensures Granted(a + [m]) == if m.granted then Granted(a) + [m.time] else Granted(a)
  {
    assert (a + [m])[..|a|] == a;
  }

  lemma {:induction false} GrantedYounger(stored: seq<Member>, lo: int)
    ensures Granted(Younger(stored, lo)) == Recent(Granted(stored), lo)
    ensures |Granted(Younger(stored, lo))| <= |Younger(stored, lo)|
    decreases |stored|
  {
    if stored != [] {
      var last := |stored| - 1;
      GrantedYounger(stored[..last], lo);
      GrantedConcat(Younger(stored[..last], lo), stored[last]);
      RecentConcat(Granted(stored[..last]), [stored[last].time], lo);
      RecentOne(stored[last].time, lo);
    }
  }

  lemma {:induction false} GrantedWithout(stored: seq<Member>, id: Id)
    requires forall i | 0 <= i < |stored| && stored[i].id == id :: !stored[i].granted
    ensures Granted(Without(stored, id)) == Granted(stored)
    decreases |stored|
  {
    if stored != [] {
      var last := |stored| - 1;
      GrantedWithout(stored[..last], id);
      GrantedConcat(Without(stored[..last], id), stored[last]);
    }
  }

  /** Pruning and removal take members away and add none. */
  lemma {:induction false} SubMembers(stored: seq<Member>, lo: int, id: Id)
    ensures forall x | x in Younger(stored, lo) :: x in stored
    ensures forall x | x in Without(stored, id) :: x in stored
    ensures (forall x | x in stored :: x.id != id) ==> Without(stored, id) == stored
    decreases |stored|
  {
    if stored != [] {
      var last := |stored| - 1;
      SubMembers(stored[..last], lo, id);
      assert forall x | x in stored[..last] :: x in stored;
      assert stored[last] in stored;
    }
  }

  lemma MembersOk(r: Redis, x: Member)
    requires IdsOk(r) && x in r.stored
    ensures x.id in r.used && (x.id in r.pending ==> !x.granted)
  {
    var i :| 0 <= i < |r.stored| && r.stored[i] == x;
    assert MemberOk(r, i);
  }

  /** A fresh id is not in the pruned set. */
  lemma FreshId(r: Redis, now: int, window: Amount, id: Id)
    requires IdsOk(r) && id !in r.used
    ensures Without(Pruned(r, now, window), id) == Pruned(r, now, window)
  {
    SubMembers(r.stored, now - window, id);
    forall x | x in Pruned(r, now, window) ensures x.id != id {
      MembersOk(r, x);
    }
    SubMembers(Pruned(r, now, window), now - window, id);
  }

  lemma IdsStep(r: Redis, a: RedisAction, window: Amount, limit: Amount)
    requires IdsOk(r) && (a.Pipeline? ==> a.id !in r.used)
    ensures IdsOk(RedisAct(r, a, window, limit))
  {
    var t := RedisAct(r, a, window, limit);
    if a.Pipeline? {
      FreshId(r, a.now, window, a.id);
    }
    forall i: nat | i < |t.stored| ensures MemberOk(t, i) {
      var x := t.stored[i];
      SubMembers(r.stored, if a.Pipeline? then a.now - window else 0, a.id);
      if x in r.stored {
        MembersOk(r, x);
      }
    }
  }

  /** The pruned set holds at least the recent admissions. */
  lemma PrunedGranted(r: Redis, now: int, window: Amount, limit: Amount)
    requires RedisOk(r, window, limit) && r.last <= now
    ensures Granted(Pruned(r, now, window)) == Recent(r.history, now - window)
    ensures CountIn(r.history, now - window, now) <= |Pruned(r, now, window)|
  {
    GrantedYounger(r.stored, now - window);
    RecentTwice(r.history, r.last - window, now - window);
    RecentCounts(r.history, now - window, now);
  }

  lemma RecentAppend(times: seq<int>, now: int, lo: int)
    requires lo < now
    ensures Recent(times + [now], lo) == Recent(times, lo) + [now]
  {
    assert (times + [now])[..|times|] == times;
  }

  lemma PipelineGranted(r: Redis, now: int, id: Id, window: Amount, limit: Amount)
    requires IdsOk(r) && id !in r.used
    requires Granted(Pruned(r, now, window)) == Recent(r.history, now - window)
    ensures Granted(RedisAct(r, Pipeline(now, id), window, limit).stored)
         == Recent(RedisAct(r, Pipeline(now, id), window, limit).history, now - window)
  {
    FreshId(r, now, window, id);
    GrantedConcat(Pruned(r, now, window), Member(now, Grants(r, now, window, limit), id));
    RecentAppend(r.history, now, now - window);
  }

  lemma PipelineSpaced(r: Redis, now: int, id: Id, window: Amount, limit: Amount)
    requires Sorted(r.history) && AllUpTo(r.history, now) && Spaced(r.history, window, limit)
    requires CountIn(r.history, now - window, now) <= |Pruned(r, now, window)|
    ensures Sorted(RedisAct(r, Pipeline(now, id), window, limit).history)
    ensures AllUpTo(RedisAct(r, Pipeline(now, id), window, limit).history, now)
    ensures Spaced(RedisAct(r, Pipeline(now, id), window, limit).history, window, limit)
  {
    RecordSpaced(r.history, now, window, limit, 1);
    assert Copies(now, 1) == [now];
  }

  lemma RedisStepOk(r: Redis, a: RedisAction, window: Amount, limit: Amount)
    requires RedisOk(r, window, limit) && (a.Pipeline? ==> r.last <= a.now && a.id !in r.used)
    ensures RedisOk(RedisAct(r, a, window, limit), window, limit)
  {
    IdsStep(r, a, window, limit);
    match a
    case Pipeline(now, id) =>
      PrunedGranted(r, now, window, limit);
      PipelineGranted(r, now, id, window, limit);
      PipelineSpaced(r, now, id, window, limit);
    case Revert(id) =>
      if id in r.pending {
        forall i | 0 <= i < |r.stored| && r.stored[i].id == id ensures !r.stored[i].granted {
          assert MemberOk(r, i);
        }
        GrantedWithout(r.stored, id);
      }
  }

  function RedisRun(r: Redis, actions: seq<RedisAction>, window: Amount, limit: Amount): Redis
    decreases |actions|
  {
    if actions == [] then r else RedisRun(RedisAct(r, actions[0], window, limit), actions[1..], window, limit)
  }

  /** The clock does not step back, and every call has an id of its own. */
  predicate ClockedActions(r: Redis, actions: seq<RedisAction>, window: Amount, limit: Amount)
    decreases |actions|
  {
    actions == [] || ((actions[0].Pipeline? ==> r.last <= actions[0].now && actions[0].id !in r.used)
                      && ClockedActions(RedisAct(r, actions[0], window, limit), actions[1..], window, limit))
  }

  lemma {:induction false} YoungerSize(stored: seq<Member>, lo: int)
    ensures |Younger(stored, lo)| == |set i: nat | i < |stored| && stored[i].time > lo|
    decreases |stored|
  {
    var all := set i: nat | i < |stored| && stored[i].time > lo;
    if stored != [] {
      var last := |stored| - 1;
      var init := stored[..last];
      YoungerSize(init, lo);
      var fewer := set i: nat | i < |init| && init[i].time > lo;
      assert all == if stored[last].time > lo then fewer + {last} else fewer;
    } else {
      assert all == {};
    }
  }

  /** The pipeline grants exactly when the members of the last window, rejected ones not yet removed included, leave room for one. */
  lemma PipelineIsDecided(r: Redis, now: int, id: Id, window: Amount, limit: Amount)
    requires IdsOk(r) && id !in r.used
    ensures var t := RedisAct(r, Pipeline(now, id), window, limit);
            var grants := |set i: nat | i < |r.stored| && r.stored[i].time > now - window| < limit;
            && t.history == (if grants then r.history + [now] else r.history)
            && t.stored != [] && t.stored[|t.stored| - 1] == Member(now, grants, id)
            && (id in t.pending <==> !grants)
  {
    YoungerSize(r.stored, now - window);
  }

  lemma {:induction false} WithoutMeans(stored: seq<Member>, id: Id, x: Member)
    ensures x in Without(stored, id) <==> x in stored && x.id != id
    decreases |stored|
  {
    if stored != [] {
      var last := |stored| - 1;
      WithoutMeans(stored[..last], id, x);
      assert stored == stored[..last] + [stored[last]];
    }
  }

  /** A pending revert takes away exactly the member of its call, and it is pending no longer. */
  lemma RevertIsDone(r: Redis, id: Id, window: Amount, limit: Amount, x: Member)
    requires id in r.pending
    ensures var t := RedisAct(r, Revert(id), window, limit);
            && (x in t.stored <==> x in r.stored && x.id != id)
            && t.pending == r.pending - {id} && t.history == r.history
  {
    WithoutMeans(r.stored, id, x);
  }

  /** With reverts delayed at will, no window admits more than the limit. */
  lemma {:induction false} RedisRunBound(r: Redis, actions: seq<RedisAction>, window: Amount, limit: Amount, end: int)
    requires RedisOk(r, window, limit) && ClockedActions(r, actions, window, limit)
    ensures CountIn(RedisRun(r, actions, window, limit).history, end - window, end) <= limit
    decreases |actions|
  {
    if actions == [] {
      WindowBound(r.history, window, limit, end);
    } else {
      RedisStepOk(r, actions[0], window, limit);
      RedisRunBound(RedisAct(r, actions[0], window, limit), actions[1..], window, limit, end);
    }
  }

  predicate AllGranted(stored: seq<Member>) {
    forall i | 0 <= i < |stored| :: stored[i].granted
  }

  lemma {:induction false} AllGrantedTimes(stored: seq<Member>, lo: int)
    requires AllGranted(stored)
    ensures AllGranted(Younger(stored, lo)) && |Granted(stored)| == |stored|
    decreases |stored|
  {
    if stored != [] {
      AllGrantedTimes(stored[..|stored| - 1], lo);
    }
  }

  /** A call and, when it was not granted, its revert. */
  function Sequential(r: Redis, now: int, id: Id, window: Amount, limit: Amount): Redis {
    var t := RedisAct(r, Pipeline(now, id), window, limit);
    if Grants(r, now, window, limit) then t else RedisAct(t, Revert(id), window, limit)
  }

  lemma PrunedTimes(r: Redis, now: int, id: Id, window: Amount)
    requires AllGranted(r.stored) && IdsOk(r) && id !in r.used
    ensures Granted(Pruned(r, now, window)) == Recent(Granted(r.stored), now - window)
    ensures |Granted(Pruned(r, now, window))| == |Pruned(r, now, window)|
    ensures AllGranted(Pruned(r, now, window)) && Without(Pruned(r, now, window), id) == Pruned(r, now, window)
  {
    FreshId(r, now, window, id);
    AllGrantedTimes(r.stored, now - window);
    AllGrantedTimes(Pruned(r, now, window), now - window);
    GrantedYounger(r.stored, now - window);
  }

  /** A granted member stays; a member that was not granted leaves with its revert. */
  lemma AddThenRemove(kept: seq<Member>, now: int, id: Id)
    requires Without(kept, id) == kept
    ensures Granted(kept + [Member(now, true, id)]) == Granted(kept) + [now]
    ensures Without(kept + [Member(now, false, id)], id) == kept
  {
    GrantedConcat(kept, Member(now, true, id));
    var added := kept + [Member(now, false, id)];
    assert added[..|kept|] == kept;
  }

  lemma StepOnTimes(times: seq<int>, kept: seq<int>, now: int, window: Amount, limit: Amount)
    requires kept == Recent(times, now - window)
    ensures RedisStep(times, now, window, limit, 1) == if |kept| + 1 <= limit then (true, kept + [now]) else (false, kept)
  {
    assert (kept + [now])[..|kept|] == kept;
  }

  /** A call whose revert, if any, follows at once is one sequential step on the stored timestamps. */
  lemma ImmediateRevert(r: Redis, now: int, id: Id, window: Amount, limit: Amount)
    requires AllGranted(r.stored) && IdsOk(r) && id !in r.used
    ensures RedisStep(Granted(r.stored), now, window, limit, 1).0 == Grants(r, now, window, limit)
    ensures AllGranted(Sequential(r, now, id, window, limit).stored)
    ensures Granted(Sequential(r, now, id, window, limit).stored) == RedisStep(Granted(r.stored), now, window, limit, 1).1
    ensures Sequential(r, now, id, window, limit).history == if Grants(r, now, window, limit) then r.history + [now] else r.history
  {
    var kept := Pruned(r, now, window);
    PrunedTimes(r, now, id, window);
    AddThenRemove(kept, now, id);
    StepOnTimes(Granted(r.stored), Granted(kept), now, window, limit);
    if Grants(r, now, window, limit) {
      assert Sequential(r, now, id, window, limit).stored == kept + [Member(now, true, id)];
    } else {
      assert Sequential(r, now, id, window, limit).stored == kept;
    }
  }
}
