/** Performance counters: per-tool call durations and call counts, cache
    hits and misses, and the averages and rates derived from them. The
    durations are whatever the caller measured. */
module Metrics {
  import opened Common

  /** `sum(xs) / len(xs) if xs else 0.0` */
  function Average(xs: seq<real>): (r: real)
    ensures xs == [] ==> r == 0.0
    ensures xs != [] ==> r * (|xs| as real) == Sum(xs)
  {
    if xs == [] then 0.0 else Sum(xs) / (|xs| as real)
  }

  /** A sum of durations lies between the count times the smallest and the
      count times the largest bound. */
  lemma {:induction false} SumBounds(xs: seq<real>, lo: real, hi: real)
    requires forall i :: 0 <= i < |xs| ==> lo <= xs[i] <= hi
    ensures (|xs| as real) * lo <= Sum(xs) <= (|xs| as real) * hi
  {
    if xs != [] {
      SumBounds(xs[1..], lo, hi);
      assert (|xs| as real) == (|xs[1..]| as real) + 1.0;
    }
  }

  /** The average of a tool's durations lies between their bounds. */
  lemma AverageWithinBounds(xs: seq<real>, lo: real, hi: real)
    requires xs != [] && forall i :: 0 <= i < |xs| ==> lo <= xs[i] <= hi
    ensures lo <= Average(xs) <= hi
  {
    SumBounds(xs, lo, hi);
    var n := |xs| as real;
    assert n > 0.0;
    assert Average(xs) * n == Sum(xs);
  }

  /** The hit rate: 0 without lookups, otherwise hits over lookups. */
  function HitRate(hits: nat, misses: nat): (r: real)
    ensures 0.0 <= r <= 1.0
    ensures hits + misses == 0 ==> r == 0.0
    ensures r == 1.0 <==> hits > 0 && misses == 0
    ensures r == 0.0 <==> hits == 0
  {
    var total := hits + misses;
    if total > 0 then
      var r := (hits as real) / (total as real);
      assert r * (total as real) == hits as real;
      r
    else 0.0
  }

  /** `PerformanceMetrics`; the two defaultdicts become maps whose missing
      keys read as the empty list and zero. */
  class PerformanceMetrics {
    var callTimes: map<string, seq<real>>
    var callCounts: map<string, nat>
    var cacheHits: nat
    var cacheMisses: nat

    /** Every tool's count is the number of its recorded durations. */
    ghost predicate Valid()
      reads this
    {
      callTimes.Keys == callCounts.Keys
      && forall t :: t in callCounts ==> callCounts[t] == |callTimes[t]|
    }

    constructor ()
      ensures Valid()
      ensures callTimes == map[] && callCounts == map[] && cacheHits == 0 && cacheMisses == 0
    {
      callTimes := map[];
      callCounts := map[];
      cacheHits := 0;
      cacheMisses := 0;
    }

    /** `tool_call_times.get(tool, [])` */
    function Times(tool: string): seq<real>
      reads this
    {
      if tool in callTimes then callTimes[tool] else []
    }

    /** `record_call`: append the duration and count the call; other tools
        are untouched. */
    method RecordCall(tool: string, duration: real)
      requires Valid()
      modifies this
      ensures Valid()
      ensures callTimes == old(callTimes)[tool := old(Times(tool)) + [duration]]
      ensures callCounts == old(callCounts)[tool := |old(Times(tool))| + 1]
      ensures cacheHits == old(cacheHits) && cacheMisses == old(cacheMisses)
      ensures TotalTime(tool) == old(TotalTime(tool)) + duration
    {
      SumSnoc(Times(tool), duration);
      var times := if tool in callTimes then callTimes[tool] else [];
      var count := if tool in callCounts then callCounts[tool] else 0;
      callTimes := callTimes[tool := times + [duration]];
      callCounts := callCounts[tool := count + 1];
    }

    /** `record_cache_hit` */
    method RecordCacheHit()
      modifies this
      ensures cacheHits == old(cacheHits) + 1 && cacheMisses == old(cacheMisses)
      ensures callTimes == old(callTimes) && callCounts == old(callCounts)
    {
      cacheHits := cacheHits + 1;
    }

    /** `record_cache_miss` */
    method RecordCacheMiss()
      modifies this
      ensures cacheMisses == old(cacheMisses) + 1 && cacheHits == old(cacheHits)
      ensures callTimes == old(callTimes) && callCounts == old(callCounts)
    {
      cacheMisses := cacheMisses + 1;
    }

    /** `get_average_time`: 0 for a tool never called, else the mean of its
        durations, which lies between the shortest and the longest. */
    function AverageTime(tool: string): (r: real)
      reads this
      ensures Times(tool) == [] ==> r == 0.0
      ensures Times(tool) != [] ==> r * (|Times(tool)| as real) == TotalTime(tool)
    {
      Average(Times(tool))
    }

    /** `get_total_time` */
    function TotalTime(tool: string): (r: real)
      reads this
      ensures Times(tool) == [] ==> r == 0.0
    {
      Sum(Times(tool))
    }

    /** `get_cache_hit_rate` */
    function CacheHitRate(): (r: real)
      reads this
      ensures 0.0 <= r <= 1.0
    {
      HitRate(cacheHits, cacheMisses)
    }
  }

  /** `_global_metrics` and `reset_metrics`. */
  class GlobalMetrics {
    var current: PerformanceMetrics

    constructor ()
      ensures fresh(current) && current.Valid()
    {
      current := new PerformanceMetrics();
    }

    /** Replace the global instance by a fresh, zeroed one. */
    method Reset()
      modifies this
      ensures fresh(current) && current.Valid()
      ensures current.callTimes == map[] && current.callCounts == map[]
      ensures current.cacheHits == 0 && current.cacheMisses == 0
    {
      current := new PerformanceMetrics();
    }
  }

  /** One more duration adds exactly that duration to the total. */
  lemma {:induction false} SumSnoc(xs: seq<real>, x: real)
    ensures Sum(xs + [x]) == Sum(xs) + x
  {
    if xs == [] {
      assert [] + [x] == [x];
    } else {
      assert (xs + [x])[0] == xs[0] && (xs + [x])[1..] == xs[1..] + [x];
      SumSnoc(xs[1..], x);
    }
  }
}
