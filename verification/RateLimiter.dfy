/** The fixed-window limiter over whole histories: how many calls on one bucket it lets
    through, within one life of its counter and within any stretch of time as long as its window. */
module RateLimiter {
  import opened Text
  import opened Tokens

  predicate Ordered(times: seq<int>) {
    forall i, j :: 0 <= i < j < |times| ==> times[i] <= times[j]
  }

  /** The verdicts on successive calls at the given moments, starting from a counter state. */
  function Verdicts(c: Option<Slot<nat>>, times: seq<int>, limit: int, window: int): (v: seq<bool>)
    ensures |v| == |times|
    decreases |times|
  {
    if times == [] then []
    else
      var next := Bump(c, times[0], window);
      [next.value <= limit] + Verdicts(Some(next), times[1..], limit, window)
  }

  /** The number of calls let through at a moment in `[from, to)`. */
  function Allowed(times: seq<int>, verdicts: seq<bool>, from: int, to: int): nat
    requires |times| == |verdicts|
  {
    if times == [] then 0
    else (if verdicts[0] && from <= times[0] < to then 1 else 0) + Allowed(times[1..], verdicts[1..], from, to)
  }

  function Count(c: Option<Slot<nat>>, times: seq<int>, limit: int, window: int, from: int, to: int): nat {
    Allowed(times, Verdicts(c, times, limit, window), from, to)
  }

  lemma CountStep(c: Option<Slot<nat>>, times: seq<int>, limit: int, window: int, from: int, to: int)
    requires times != []
    ensures var next := Bump(c, times[0], window);
            Count(c, times, limit, window, from, to) ==
              (if next.value <= limit && from <= times[0] < to then 1 else 0)
              + Count(Some(next), times[1..], limit, window, from, to)
  {
    var next := Bump(c, times[0], window);
    assert Verdicts(c, times, limit, window)[1..] == Verdicts(Some(next), times[1..], limit, window);
  }

  /** The counter after the calls. */
  function CounterAfter(c: Option<Slot<nat>>, times: seq<int>, window: int): Option<Slot<nat>>
    decreases |times|
  {
    if times == [] then c else CounterAfter(Some(Bump(c, times[0], window)), times[1..], window)
  }

  /** One call more. */
  lemma {:induction false} CountNext(c: Option<Slot<nat>>, times: seq<int>, t: int, limit: int, window: int,
                                     from: int, to: int)
    ensures var next := Bump(CounterAfter(c, times, window), t, window);
            && CounterAfter(c, times + [t], window) == Some(next)
            && Count(c, times + [t], limit, window, from, to)
               == Count(c, times, limit, window, from, to) + if next.value <= limit && from <= t < to then 1 else 0
    decreases |times|
  {
    hide Verdicts, Allowed, Bump;
    CountStep(c, times + [t], limit, window, from, to);
    if times == [] {
      assert (times + [t])[1..] == [];
      CountNone(Some(Bump(c, t, window)), limit, window, from, to);
      CountNone(c, limit, window, from, to);
    } else {
      assert (times + [t])[1..] == times[1..] + [t];
      CountStep(c, times, limit, window, from, to);
      CountNext(Some(Bump(c, times[0], window)), times[1..], t, limit, window, from, to);
    }
  }

  lemma CountNone(c: Option<Slot<nat>>, limit: int, window: int, from: int, to: int)
    ensures Count(c, [], limit, window, from, to) == 0
  {
  }

  lemma {:induction false} NoneAfter(c: Option<Slot<nat>>, times: seq<int>, limit: int, window: int, from: int, to: int)
    requires Ordered(times) && (times != [] ==> to <= times[0])
    ensures Count(c, times, limit, window, from, to) == 0
    decreases |times|
  {
    if times != [] {
      CountStep(c, times, limit, window, from, to);
      NoneAfter(Some(Bump(c, times[0], window)), times[1..], limit, window, from, to);
    }
  }

  function Left(limit: int, n: nat): nat {
    if n < limit then limit - n else 0
  }

  /** One life of a counter: before its deadline it admits only what is left of the limit. */
  lemma {:induction false} OneLifetime(c: Slot<nat>, times: seq<int>, limit: int, window: int, from: int, to: int)
    requires Ordered(times) && to <= c.deadline
    ensures Count(Some(c), times, limit, window, from, to) <= Left(limit, c.value)
    decreases |times|
  {
    if times != [] {
      CountStep(Some(c), times, limit, window, from, to);
      if to <= times[0] {
        NoneAfter(Some(c), times, limit, window, from, to);
      } else {
        OneLifetime(Bump(Some(c), times[0], window), times[1..], limit, window, from, to);
      }
    }
  }

  /** A whole life, whichever came before it: where there is no counter, or its deadline has
      come, the next call opens a life, and until its deadline at most `limit` calls pass. */
  lemma LifetimeBound(c: Option<Slot<nat>>, times: seq<int>, limit: int, window: int, from: int)
    requires Ordered(times) && times != [] && limit > 0 && window > 0
    requires c.Some? ==> times[0] >= c.value.deadline
    ensures Count(c, times, limit, window, from, times[0] + window) <= limit
  {
    CountStep(c, times, limit, window, from, times[0] + window);
    OneLifetime(Slot(1, times[0] + window), times[1..], limit, window, from, times[0] + window);
  }

  lemma {:induction false} TwoLifetimes(c: Slot<nat>, times: seq<int>, limit: int, window: int, from: int, to: int)
    requires Ordered(times) && limit > 0 && window > 0
    requires to - window <= c.deadline
    ensures Count(Some(c), times, limit, window, from, to) <= Left(limit, c.value) + limit
    decreases |times|
  {
    if times != [] {
      CountStep(Some(c), times, limit, window, from, to);
      var next := Bump(Some(c), times[0], window);
      if to <= times[0] {
        NoneAfter(Some(c), times, limit, window, from, to);
      } else if times[0] < c.deadline {
        TwoLifetimes(next, times[1..], limit, window, from, to);
      } else {
        OneLifetime(next, times[1..], limit, window, from, to);
      }
    }
  }

  /** Any stretch as long as the window holds at most `2 * limit - 1` admitted calls, for
      every history: the two lives it can touch cannot both have opened inside it. */
  lemma {:induction false} SlidingBound(c: Option<Slot<nat>>, times: seq<int>, limit: int, window: int, from: int)
    requires Ordered(times) && limit > 0 && window > 0
    requires c.Some? ==> c.value.value >= 1
    ensures Count(c, times, limit, window, from, from + window) <= 2 * limit - 1
    decreases |times|
  {
    if times != [] {
      CountStep(c, times, limit, window, from, from + window);
      var next := Bump(c, times[0], window);
      if times[0] < from {
        SlidingBound(Some(next), times[1..], limit, window, from);
      } else if from + window <= times[0] {
        NoneAfter(c, times, limit, window, from, from + window);
      } else if c.Some? && times[0] < c.value.deadline {
        TwoLifetimes(c.value, times, limit, window, from, from + window);
      } else {
        OneLifetime(next, times[1..], limit, window, from, from + window);
      }
    }
  }

  // ---------------------------------------------------------------- the bound is reached

  function Repeat(t: int, n: nat): seq<int> {
    seq(n, _ => t)
  }

  lemma {:induction false} BurstAt(c: Slot<nat>, t: int, n: nat, rest: seq<int>, limit: int, window: int, from: int,
                                   to: int)
    requires t < c.deadline && c.value + n <= limit && from <= t < to
    ensures Count(Some(c), Repeat(t, n) + rest, limit, window, from, to) ==
            n + Count(Some(Slot(c.value + n, c.deadline)), rest, limit, window, from, to)
    decreases n
  {
    if n == 0 {
      assert Repeat(t, n) + rest == rest;
    } else {
      assert Repeat(t, n) + rest == [t] + (Repeat(t, n - 1) + rest);
      CountStep(Some(c), Repeat(t, n) + rest, limit, window, from, to);
      BurstAt(Slot(c.value + 1, c.deadline), t, n - 1, rest, limit, window, from, to);
    }
  }

  /** One call opens a life, the rest of the limit comes at its last moment and a full
      limit at the next: `2 * limit - 1` calls within one window. */
  lemma SlidingBoundReached(limit: int, window: int)
    requires limit > 0 && window > 1
    ensures var times := [0] + Repeat(window - 1, limit - 1) + Repeat(window, limit);
            Ordered(times) &&
            Count(None, times, limit, window, window - 1, 2 * window - 1) == 2 * limit - 1
  {
    var from, to := window - 1, 2 * window - 1;
    var second := Repeat(window, limit);
    var times := [0] + Repeat(window - 1, limit - 1) + second;
    assert times == [0] + (Repeat(window - 1, limit - 1) + second);
    CountStep(None, times, limit, window, from, to);
    BurstAt(Slot(1, window), window - 1, limit - 1, second, limit, window, from, to);
    var full: Slot<nat> := Slot(limit, window);
    CountStep(Some(full), second, limit, window, from, to);
    assert second[1..] == Repeat(window, limit - 1);
    BurstAt(Slot(1, 2 * window), window, limit - 1, [], limit, window, from, to);
    assert Repeat(window, limit - 1) + [] == Repeat(window, limit - 1);
  }

  // ---------------------------------------------------------------- the store's limiter

  /** The keyspace limiter run at successive moments. */
  function RunBucket(ks: Keyspace, bucket: Name, times: seq<int>, limit: int, window: int): (v: seq<bool>)
    ensures |v| == |times|
    decreases |times|
  {
    if times == [] then []
    else
      var here := ks.(now := times[0]);
      [RateAllows(here, bucket, limit, window)] +
      RunBucket(RateBumped(here, bucket, limit, window), bucket, times[1..], limit, window)
  }

  lemma {:induction false} BucketVerdicts(ks: Keyspace, bucket: Name, times: seq<int>, limit: int, window: int)
    requires limit > 0
    ensures RunBucket(ks, bucket, times, limit, window) == Verdicts(CounterAt(ks, bucket), times, limit, Ms(window))
    decreases |times|
  {
    if times != [] {
      var here := ks.(now := times[0]);
      BucketVerdicts(RateBumped(here, bucket, limit, window), bucket, times[1..], limit, window);
    }
  }

  /** `rate_ok` on one bucket of a store whose counters have each been called before. */
  lemma StoreSlidingBound(ks: Keyspace, bucket: Name, times: seq<int>, limit: int, window: int, from: int)
    requires Ordered(times) && limit > 0 && window > 0
    requires bucket in ks.counters ==> ks.counters[bucket].value >= 1
    ensures Allowed(times, RunBucket(ks, bucket, times, limit, window), from, from + 1000 * window) <= 2 * limit - 1
  {
    BucketVerdicts(ks, bucket, times, limit, window);
    SlidingBound(CounterAt(ks, bucket), times, limit, Ms(window), from);
  }

  /** Buckets are independent and a non-positive limit never refuses. */
  lemma OtherBuckets(ks: Keyspace, bucket: Name, other: Name, limit: int, window: int)
    requires other != bucket || limit <= 0
    ensures CounterAt(RateBumped(ks, bucket, limit, window), other) == CounterAt(ks, other)
    ensures limit <= 0 ==> RateAllows(ks, bucket, limit, window)
  {
  }
}
