/** The shared TTL cache of the data tools: a dictionary of entries that
    expire `ttl` seconds after they were stored, evicted lazily on lookup
    or in bulk, and the `cached` decorator that puts it in front of a
    function. The clock is a parameter of each operation. */
module Cache {
  import opened Common

  /** A stored value (None for Python None), when it was stored, and how
      long it lives. */
  datatype Entry<V> = Entry(value: Option<V>, timestamp: real, ttl: real)

  /** `CacheEntry.is_expired`: strictly older than its ttl. */
  predicate IsExpired<V>(e: Entry<V>, now: real)
  {
    now - e.timestamp > e.ttl
  }

  /** An entry that is expired stays expired as the clock advances. */
  lemma ExpiryIsFinal<V>(e: Entry<V>, now: real, later: real)
    requires IsExpired(e, now) && now <= later
    ensures IsExpired(e, later)
  {
  }

  /** An entry is live at the instant it is stored, and exactly until its
      ttl has elapsed. */
  lemma FreshEntryLive<V>(v: Option<V>, at: real, ttl: real, now: real)
    requires ttl >= 0.0 && at <= now
    ensures !IsExpired(Entry(v, at, ttl), now) <==> now <= at + ttl
    ensures !IsExpired(Entry(v, at, ttl), at)
  {
  }

  /** What `get` returns and the dictionary it leaves behind. */
  datatype Lookup<V> = Lookup(value: Option<V>, entries: map<string, Entry<V>>)

  function GetResult<V>(m: map<string, Entry<V>>, key: string, now: real): (r: Lookup<V>)
    ensures r.entries.Keys <= m.Keys
    ensures forall k :: k in r.entries ==> r.entries[k] == m[k]
    ensures r.value.Some? ==> key in r.entries && r.value == m[key].value && !IsExpired(m[key], now)
  {
    if key !in m then Lookup(None, m)
    else if IsExpired(m[key], now) then Lookup(None, m - {key})
    else Lookup(m[key].value, m)
  }

  /** A lookup removes the looked-up key if and only if it had expired, and
      touches nothing else. */
  lemma GetEvictsOnlyExpired<V>(m: map<string, Entry<V>>, key: string, now: real)
    ensures var r := GetResult(m, key, now);
      (key in m && IsExpired(m[key], now) ==> r.entries == m - {key} && r.value.None?)
      && (!(key in m && IsExpired(m[key], now)) ==> r.entries == m)
  {
  }

  /** A second lookup at the same instant returns the same value and
      changes nothing more. */
  lemma GetIdempotent<V>(m: map<string, Entry<V>>, key: string, now: real)
    ensures var r := GetResult(m, key, now);
      GetResult(r.entries, key, now) == r
  {
  }

  /** `set` then `get` before the ttl has elapsed returns the stored value;
      `get` of another key is not affected by the `set`. */
  lemma SetThenGet<V>(m: map<string, Entry<V>>, key: string, v: Option<V>, at: real, ttl: real, now: real, other: string)
    requires at <= now <= at + ttl && other != key
    ensures GetResult(m[key := Entry(v, at, ttl)], key, now).value == v
    ensures GetResult(m[key := Entry(v, at, ttl)], other, now).value == GetResult(m, other, now).value
  {
  }

  /** The entries that survive `remove_expired`. */
  function Live<V>(m: map<string, Entry<V>>, now: real): (live: map<string, Entry<V>>)
    ensures forall k :: k in live <==> k in m && !IsExpired(m[k], now)
    ensures forall k :: k in live ==> live[k] == m[k]
  {
    map k | k in m && !IsExpired(m[k], now) :: m[k]
  }

  function ExpiredKeys<V>(m: map<string, Entry<V>>, now: real): (ks: set<string>)
    ensures ks <= m.Keys
    ensures forall k :: k in ks <==> k in m && IsExpired(m[k], now)
  {
    set k | k in m && IsExpired(m[k], now)
  }

  /** `remove_expired` splits the dictionary: every entry is either
      removed and counted, or kept. */
  lemma RemoveExpiredPartitions<V>(m: map<string, Entry<V>>, now: real)
    ensures m - ExpiredKeys(m, now) == Live(m, now)
    ensures |Live(m, now)| + |ExpiredKeys(m, now)| == |m|
  {
    var ex := ExpiredKeys(m, now);
    var live := Live(m, now);
    assert live.Keys == m.Keys - ex;
    assert |m.Keys - ex| + |ex| == |m.Keys| by {
      assert (m.Keys - ex) + ex == m.Keys;
      assert (m.Keys - ex) * ex == {};
    }
  }

  /** Deleting one more of the keys still to be deleted. */
  lemma RemoveOneMore<V>(m: map<string, Entry<V>>, all: set<string>, rest: set<string>, key: string)
    requires key in rest && rest <= all
    ensures (m - (all - rest)) - {key} == m - (all - (rest - {key}))
  {
    assert all - (rest - {key}) == (all - rest) + {key};
  }

  class SimpleCache<V> {
    var entries: map<string, Entry<V>>

    constructor ()
      ensures entries == map[]
    {
      entries := map[];
    }

    method Get(key: string, now: real) returns (value: Option<V>)
      modifies this
      ensures Lookup(value, entries) == GetResult(old(entries), key, now)
    {
      if key !in entries {
        return None;
      }
      var entry := entries[key];
      if IsExpired(entry, now) {
        entries := entries - {key};
        return None;
      }
      return entry.value;
    }

    method Set(key: string, value: Option<V>, ttl: real, now: real)
      modifies this
      ensures entries == old(entries)[key := Entry(value, now, ttl)]
    {
      entries := entries[key := Entry(value, now, ttl)];
    }

    method Clear()
      modifies this
      ensures entries == map[]
    {
      entries := map[];
    }

    method RemoveExpired(now: real) returns (removed: nat)
      modifies this
      ensures entries == Live(old(entries), now)
      ensures removed == |ExpiredKeys(old(entries), now)|
      ensures removed + |entries| == |old(entries)|
    {
      var expiredKeys := set k | k in entries && IsExpired(entries[k], now);
      assert expiredKeys == ExpiredKeys(entries, now);
      RemoveExpiredPartitions(entries, now);
      DeleteKeys(expiredKeys);
      removed := |expiredKeys|;
    }

    /** The `for key in expired_keys: del self._cache[key]` loop. */
    method DeleteKeys(keys: set<string>)
      modifies this
      ensures entries == old(entries) - keys
    {
      var rest := keys;
      while rest != {}
        invariant rest <= keys
        invariant entries == old(entries) - (keys - rest)
        decreases |rest|
      {
        var key :| key in rest;
        RemoveOneMore(old(entries), keys, rest, key);
        entries := entries - {key};
        rest := rest - {key};
      }
      assert keys - rest == keys;
    }
  }

  // ---------------------------------------------------------------------
  // The `cached` decorator
  // ---------------------------------------------------------------------

  /** What one call through the decorator returns, whether it ran the
      wrapped function, and the cache dictionary afterwards. */
  datatype CachedCall<V> = CachedCall(value: Option<V>, called: bool, entries: map<string, Entry<V>>)

  /** A call through `cached(ttl)`: look the key up at `now`; on a hit
      (a stored value that is not None) return it; otherwise run the
      function, whose result is `computed`, and store that result with the
      time `doneAt` at which the function returned. */
  function CachedSpec<V>(m: map<string, Entry<V>>, key: string, ttl: real, now: real,
                         computed: Option<V>, doneAt: real): (r: CachedCall<V>)
    ensures r.called <==> GetResult(m, key, now).value.None?
    ensures !r.called ==> r.value == GetResult(m, key, now).value && r.entries == m
    ensures r.called ==> r.value == computed && key in r.entries && r.entries[key] == Entry(computed, doneAt, ttl)
  {
    var hit := GetResult(m, key, now);
    if hit.value.Some? then CachedCall(hit.value, false, hit.entries)
    else CachedCall(computed, true, hit.entries[key := Entry(computed, doneAt, ttl)])
  }

  /** A result other than None is reused by the next call within the ttl:
      the function is not run again. */
  lemma ValueReused<V>(m: map<string, Entry<V>>, key: string, ttl: real, now: real, v: V, doneAt: real,
                       next: real, computed: Option<V>, doneNext: real)
    requires doneAt <= next <= doneAt + ttl
    ensures var first := CachedSpec(m, key, ttl, now, Some(v), doneAt);
      first.called ==> CachedSpec(first.entries, key, ttl, next, computed, doneNext) == CachedCall(Some(v), false, first.entries)
  {
  }

  /** A None result is stored but never counts as a hit, so the next call
      runs the function again. */
  lemma NoneRecomputed<V>(m: map<string, Entry<V>>, key: string, ttl: real, now: real, doneAt: real,
                          next: real, computed: Option<V>, doneNext: real)
    ensures var first := CachedSpec(m, key, ttl, now, None, doneAt);
      first.called ==> CachedSpec(first.entries, key, ttl, next, computed, doneNext).called
  {
  }

  /** The decorator around `cache`, for the key `key`. */
  method Cached<V>(cache: SimpleCache<V>, key: string, ttl: real, now: real, computed: Option<V>, doneAt: real)
    returns (value: Option<V>, called: bool)
    modifies cache
    ensures CachedCall(value, called, cache.entries) == CachedSpec(old(cache.entries), key, ttl, now, computed, doneAt)
  {
    var cachedValue := cache.Get(key, now);
    if cachedValue.Some? {
      return cachedValue, false;
    }
    value := computed;
    called := true;
    cache.Set(key, value, ttl, doneAt);
  }

  // ---------------------------------------------------------------------
  // The default cache key
  // ---------------------------------------------------------------------

  /** Python's `<` on str: code-point lexicographic order. */
  predicate StrLess(a: string, b: string)
  {
    if a == [] then b != []
    else if b == [] then false
    else if a[0] != b[0] then a[0] < b[0]
    else StrLess(a[1..], b[1..])
  }

  lemma {:induction false} StrLessIrreflexive(a: string)
    ensures !StrLess(a, a)
  {
    if a != [] {
      StrLessIrreflexive(a[1..]);
    }
  }

  lemma {:induction false} StrLessTransitive(a: string, b: string, c: string)
    requires StrLess(a, b) && StrLess(b, c)
    ensures StrLess(a, c)
  {
    if a != [] && b != [] && c != [] && a[0] == b[0] == c[0] {
      StrLessTransitive(a[1..], b[1..], c[1..]);
    }
  }

  lemma {:induction false} StrLessTotal(a: string, b: string)
    requires a != b
    ensures StrLess(a, b) || StrLess(b, a)
  {
    if a != [] && b != [] && a[0] == b[0] {
      assert a == [a[0]] + a[1..] && b == [b[0]] + b[1..];
      StrLessTotal(a[1..], b[1..]);
    }
  }

  lemma StrLessAsymmetric(a: string, b: string)
    requires StrLess(a, b)
    ensures !StrLess(b, a)
  {
    if StrLess(b, a) {
      StrLessTransitive(a, b, a);
      StrLessIrreflexive(a);
    }
  }

  /** A keyword argument: its name and str() of its value. */
  type Kwarg = (string, string)

  /** Strictly increasing names. */
  predicate SortedByName(xs: seq<Kwarg>)
  {
    forall i, j :: 0 <= i < j < |xs| ==> StrLess(xs[i].0, xs[j].0)
  }

  predicate DistinctNames(xs: seq<Kwarg>)
  {
    forall i, j :: 0 <= i < j < |xs| ==> xs[i].0 != xs[j].0
  }

  function Insert(p: Kwarg, xs: seq<Kwarg>): (r: seq<Kwarg>)
    ensures multiset(r) == multiset(xs) + multiset{p}
  {
    if xs == [] then [p]
    else if StrLess(xs[0].0, p.0) then
      assert xs == [xs[0]] + xs[1..];
      [xs[0]] + Insert(p, xs[1..])
    else [p] + xs
  }

  /** `sorted(kwargs.items())` */
  function SortByName(xs: seq<Kwarg>): (r: seq<Kwarg>)
    ensures multiset(r) == multiset(xs)
  {
    if xs == [] then []
    else
      assert xs == [xs[0]] + xs[1..];
      Insert(xs[0], SortByName(xs[1..]))
  }

  lemma {:induction false} InsertSorted(p: Kwarg, xs: seq<Kwarg>)
    requires SortedByName(xs)
    requires forall i :: 0 <= i < |xs| ==> xs[i].0 != p.0
    ensures SortedByName(Insert(p, xs))
  {
    if xs != [] {
      if StrLess(xs[0].0, p.0) {
        InsertSorted(p, xs[1..]);
        var r := Insert(p, xs);
        var tail := Insert(p, xs[1..]);
        assert r == [xs[0]] + tail;
        forall j | 1 <= j < |r|
          ensures StrLess(xs[0].0, r[j].0)
        {
          assert r[j] in multiset(tail);
          assert r[j] in multiset(xs[1..]) + multiset{p};
          if r[j] != p {
            var k :| 0 <= k < |xs[1..]| && xs[1..][k] == r[j];
            assert xs[k + 1] == r[j];
          }
        }
      } else {
        var r := [p] + xs;
        StrLessTotal(xs[0].0, p.0);
        forall j | 1 <= j < |r|
          ensures StrLess(p.0, r[j].0)
        {
          if j > 1 {
            StrLessTransitive(p.0, xs[0].0, xs[j - 1].0);
          }
        }
      }
    }
  }

  lemma {:induction false} SortByNameSorted(xs: seq<Kwarg>)
    requires DistinctNames(xs)
    ensures SortedByName(SortByName(xs))
  {
    if xs != [] {
      var tail := SortByName(xs[1..]);
      SortByNameSorted(xs[1..]);
      forall i | 0 <= i < |tail|
        ensures tail[i].0 != xs[0].0
      {
        assert tail[i] in multiset(xs[1..]);
        var k :| 0 <= k < |xs[1..]| && xs[1..][k] == tail[i];
        assert xs[k + 1] == tail[i];
      }
      InsertSorted(xs[0], tail);
    }
  }

  /** The first entries of two sorted lists holding the same entries are
      the same: each is the entry with the least name. */
  lemma SortedSameHead(ys: seq<Kwarg>, zs: seq<Kwarg>)
    requires SortedByName(ys) && SortedByName(zs)
    requires ys != [] && multiset(ys) == multiset(zs)
    ensures zs != [] && ys[0] == zs[0]
  {
    assert ys[0] in multiset(zs);
    var j :| 0 <= j < |zs| && zs[j] == ys[0];
    assert zs[0] in multiset(ys);
    var i :| 0 <= i < |ys| && ys[i] == zs[0];
    if j > 0 {
      assert StrLess(zs[0].0, ys[0].0);
      if i > 0 {
        StrLessAsymmetric(ys[0].0, zs[0].0);
      } else {
        StrLessIrreflexive(ys[0].0);
      }
    }
  }

  /** Two lists sorted by strictly increasing names that hold the same
      entries are the same list. */
  lemma {:induction false} SortedUnique(ys: seq<Kwarg>, zs: seq<Kwarg>)
    requires SortedByName(ys) && SortedByName(zs)
    requires multiset(ys) == multiset(zs)
    ensures ys == zs
  {
    if ys == [] {
      assert |multiset(zs)| == 0;
    } else {
      SortedSameHead(ys, zs);
      assert ys == [ys[0]] + ys[1..] && zs == [zs[0]] + zs[1..];
      assert multiset(ys) == multiset{ys[0]} + multiset(ys[1..]);
      assert multiset(zs) == multiset{zs[0]} + multiset(zs[1..]);
      assert multiset(ys[1..]) == multiset(ys) - multiset{ys[0]};
      assert multiset(zs[1..]) == multiset(zs) - multiset{zs[0]};
      SortedUnique(ys[1..], zs[1..]);
    }
  }

  function KwargText(kw: Kwarg): string
  {
    kw.0 + "=" + kw.1
  }

  function KwargTexts(xs: seq<Kwarg>): (r: seq<string>)
    ensures |r| == |xs|
  {
    if xs == [] then [] else [KwargText(xs[0])] + KwargTexts(xs[1..])
  }

  /** The default key `f"{name}_{args}_{kwargs}"`, with positional
      arguments in order and keyword arguments sorted by name. */
  function DefaultKey(funcName: string, args: seq<string>, kwargs: seq<Kwarg>): (r: string)
    ensures |r| >= |funcName| + 2 && r[..|funcName| + 1] == funcName + "_"
    ensures kwargs == [] ==> r == funcName + "_" + Join(args, "_") + "_"
    ensures args == [] && kwargs == [] ==> r == funcName + "__"
    ensures |kwargs| == 1 ==> r == funcName + "_" + Join(args, "_") + "_" + kwargs[0].0 + "=" + kwargs[0].1
  {
    funcName + "_" + Join(args, "_") + "_" + Join(KwargTexts(SortByName(kwargs)), "_")
  }

  /** The key does not depend on the order in which keyword arguments
      were passed. */
  lemma KeyIgnoresKwargOrder(funcName: string, args: seq<string>, k1: seq<Kwarg>, k2: seq<Kwarg>)
    requires DistinctNames(k1) && DistinctNames(k2) && multiset(k1) == multiset(k2)
    ensures DefaultKey(funcName, args, k1) == DefaultKey(funcName, args, k2)
  {
    SortByNameSorted(k1);
    SortByNameSorted(k2);
    SortedUnique(SortByName(k1), SortByName(k2));
  }
}
