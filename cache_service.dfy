/**
 * The in-memory TTL cache: a map from key to (data, expiresAt). Entries are
 * evicted lazily by `get` and swept by `getStats`; nothing else bounds the map.
 * The clock (`Date.now()`) is the parameter `now`, in milliseconds.
 */
module CacheService {
  import opened Wrappers

  datatype CacheItem<T> = CacheItem(data: T, expiresAt: int)

  /** The TTL used when the constructor is given none. */
  const DefaultTtlMs: int := 300000

  /** `now > item.expiresAt`: an item is still served at exactly its expiry instant. */
  predicate Expired<T>(item: CacheItem<T>, now: int) {
    now > item.expiresAt
  }

  predicate Distinct(s: seq<string>) {
    forall i, j :: 0 <= i < j < |s| ==> s[i] != s[j]
  }

  /** `s` repeats no key, stated from the front: the head is not in the tail, which repeats none either. */
  predicate NoRepeats(s: seq<string>) {
    s == [] || (s[0] !in s[1..] && NoRepeats(s[1..]))
  }

  /** The two ways of saying that no key is repeated agree. */
  lemma {:induction false} NoRepeatsIsDistinct(s: seq<string>)
    ensures NoRepeats(s) <==> Distinct(s)
    decreases |s|
  {
    if s != [] {
      var tail := s[1..];
      NoRepeatsIsDistinct(tail);
      if Distinct(s) {
        forall i, j | 0 <= i < j < |tail| ensures tail[i] != tail[j] {
          assert tail[i] == s[i + 1] && tail[j] == s[j + 1];
        }
        forall j | 0 <= j < |tail| ensures tail[j] != s[0] {
          assert tail[j] == s[j + 1];
        }
      }
      if NoRepeats(s) {
        forall i, j | 0 <= i < j < |s| ensures s[i] != s[j] {
          assert s[j] == tail[j - 1];
          if i > 0 {
            assert s[i] == tail[i - 1];
          }
        }
      }
    }
  }

  /** `s` with every occurrence of `k` removed. */
  function Without(s: seq<string>, k: string): seq<string> {
    if s == [] then []
    else if s[0] == k then Without(s[1..], k)
    else [s[0]] + Without(s[1..], k)
  }

  /** Removing `k` keeps every other element and only those. */
  lemma {:induction false} WithoutMembers(s: seq<string>, k: string)
    ensures forall x :: x in Without(s, k) <==> x in s && x != k
  {
    if s != [] {
      WithoutMembers(s[1..], k);
      assert forall x :: x in s <==> x == s[0] || x in s[1..];
    }
  }

  /** Removing a key that does not occur changes nothing. */
  lemma {:induction false} WithoutAbsent(s: seq<string>, k: string)
    requires k !in s
    ensures Without(s, k) == s
  {
    if s != [] {
      WithoutAbsent(s[1..], k);
      assert s == [s[0]] + s[1..];
    }
  }

  lemma DistinctCons(x: string, r: seq<string>)
    requires x !in r && Distinct(r)
    ensures Distinct([x] + r)
  {
    forall i, j | 0 <= i < j < |[x] + r| ensures ([x] + r)[i] != ([x] + r)[j] {
      if i > 0 {
        assert ([x] + r)[i] == r[i - 1];
      } else {
        assert ([x] + r)[j] == r[j - 1];
      }
    }
  }

  lemma {:induction false} WithoutDistinct(s: seq<string>, k: string)
    requires Distinct(s)
    ensures Distinct(Without(s, k))
  {
    if s != [] {
      assert Distinct(s[1..]) by {
        forall i, j | 0 <= i < j < |s[1..]| ensures s[1..][i] != s[1..][j] {
          assert s[1..][i] == s[i + 1] && s[1..][j] == s[j + 1];
        }
      }
      WithoutDistinct(s[1..], k);
      if s[0] != k {
        assert s[0] !in s[1..] by {
          forall j | 0 <= j < |s[1..]| ensures s[1..][j] != s[0] {
            assert s[1..][j] == s[j + 1];
          }
        }
        WithoutMembers(s[1..], k);
        DistinctCons(s[0], Without(s[1..], k));
      }
    }
  }

  /** The entries left after the sweep has visited the keys in `visited`. */
  function SweptAfter<T>(m: map<string, CacheItem<T>>, visited: seq<string>, now: int): map<string, CacheItem<T>> {
    map k | k in m && (k !in visited || !Expired(m[k], now)) :: m[k]
  }

  lemma SweepStep<T>(m: map<string, CacheItem<T>>, visited: seq<string>, key: string, now: int)
    requires key in m && key !in visited
    ensures Expired(m[key], now) ==> SweptAfter(m, visited + [key], now) == SweptAfter(m, visited, now) - {key}
    ensures !Expired(m[key], now) ==> SweptAfter(m, visited + [key], now) == SweptAfter(m, visited, now)
  {
  }

  lemma {:induction false} LiveKeysDistinct<T>(s: seq<string>, m: map<string, CacheItem<T>>, now: int)
    requires Distinct(s)
    ensures Distinct(LiveKeys(s, m, now))
  {
    if s != [] {
      var init := s[..|s| - 1];
      assert Distinct(init) by {
        forall i, j | 0 <= i < j < |init| ensures init[i] != init[j] {
          assert init[i] == s[i] && init[j] == s[j];
        }
      }
      LiveKeysDistinct(init, m, now);
      LiveKeysMembers(init, m, now);
      var r := LiveKeys(init, m, now);
      var last := s[|s| - 1];
      assert last !in init by {
        forall j | 0 <= j < |init| ensures init[j] != last {
          assert init[j] == s[j];
        }
      }
      forall i, j | 0 <= i < j < |r + [last]| ensures (r + [last])[i] != (r + [last])[j] {
        if j < |r| {
          assert (r + [last])[i] == r[i] && (r + [last])[j] == r[j];
        } else {
          assert (r + [last])[i] == r[i];
        }
      }
    }
  }

  /** LiveKeys of a prefix one longer: the next key is appended when it is live. */
  lemma LiveKeysSnoc<T>(entries: seq<string>, i: nat, m: map<string, CacheItem<T>>, now: int)
    requires i < |entries|
    ensures entries[i] in m && !Expired(m[entries[i]], now) ==>
              LiveKeys(entries[..i + 1], m, now) == LiveKeys(entries[..i], m, now) + [entries[i]]
    ensures !(entries[i] in m && !Expired(m[entries[i]], now)) ==>
              LiveKeys(entries[..i + 1], m, now) == LiveKeys(entries[..i], m, now)
  {
    assert entries[..i + 1][..i] == entries[..i];
    var done := LiveKeys(entries[..i], m, now);
    assert done + [] == done;
  }

  /** In a sequence without repetitions, the key at `i` occurs neither before nor after `i`. */
  lemma OccursOnce(entries: seq<string>, i: nat)
    requires i < |entries| && Distinct(entries)
    ensures entries[i] !in entries[..i] && entries[i] !in entries[i + 1..]
  {
    forall j | 0 <= j < |entries| && j != i ensures entries[j] != entries[i] { }
  }

  /** One step of the sweep, on the key order: visiting `entries[i]` deletes it from the order only if it has expired. */
  lemma KeysStep<T>(entries: seq<string>, i: nat, m: map<string, CacheItem<T>>, now: int)
    requires i < |entries| && Distinct(entries) && entries[i] in m
    ensures Expired(m[entries[i]], now) ==>
              Without(LiveKeys(entries[..i], m, now) + entries[i..], entries[i]) == LiveKeys(entries[..i + 1], m, now) + entries[i + 1..]
    ensures !Expired(m[entries[i]], now) ==>
              LiveKeys(entries[..i], m, now) + entries[i..] == LiveKeys(entries[..i + 1], m, now) + entries[i + 1..]
  {
    var key, rest := entries[i], entries[i + 1..];
    var done := LiveKeys(entries[..i], m, now);
    LiveKeysSnoc(entries, i, m, now);
    OccursOnce(entries, i);
    assert entries[i..] == [key] + rest;
    var before := done + entries[i..];
    assert before == done + [key] + rest;
    if Expired(m[key], now) {
      LiveKeysMembers(entries[..i], m, now);
      WithoutSplit(done, key, rest);
    }
  }

  lemma DistinctAppend(a: seq<string>, b: seq<string>)
    requires Distinct(a) && Distinct(b) && forall x :: x in a ==> x !in b
    ensures Distinct(a + b)
  {
    forall i, j | 0 <= i < j < |a + b| ensures (a + b)[i] != (a + b)[j] {
      if j < |a| {
        assert (a + b)[i] == a[i] && (a + b)[j] == a[j];
      } else if i < |a| {
        assert (a + b)[i] == a[i] && (a + b)[j] == b[j - |a|];
        assert a[i] in a && b[j - |a|] in b;
      } else {
        assert (a + b)[i] == b[i - |a|] && (a + b)[j] == b[j - |a|];
      }
    }
  }

  /** Part-way through a sweep, the key order and the entries still describe the same keys, once each. */
  lemma SweepStateConsistent<T>(entries: seq<string>, i: nat, m: map<string, CacheItem<T>>, now: int)
    requires i <= |entries| && Distinct(entries) && forall k :: k in entries <==> k in m
    ensures Distinct(LiveKeys(entries[..i], m, now) + entries[i..])
    ensures forall k :: k in LiveKeys(entries[..i], m, now) + entries[i..] <==> k in SweptAfter(m, entries[..i], now)
  {
    var p, q := entries[..i], entries[i..];
    DistinctParts(entries, i);
    LiveKeysDistinct(p, m, now);
    LiveKeysMembers(p, m, now);
    DistinctAppend(LiveKeys(p, m, now), q);
  }

  /** Both halves of a sequence without repetitions are without repetitions and share no element. */
  lemma DistinctParts(entries: seq<string>, i: nat)
    requires i <= |entries| && Distinct(entries)
    ensures Distinct(entries[..i]) && Distinct(entries[i..])
    ensures forall x :: x in entries[..i] ==> x !in entries[i..]
  {
    var p, q := entries[..i], entries[i..];
    forall a, b | 0 <= a < b < |p| ensures p[a] != p[b] { assert p[a] == entries[a] && p[b] == entries[b]; }
    forall a, b | 0 <= a < b < |q| ensures q[a] != q[b] { assert q[a] == entries[a + i] && q[b] == entries[b + i]; }
    forall x | x in p ensures x !in q {
      var a :| 0 <= a < |p| && p[a] == x;
      forall b | 0 <= b < |q| ensures q[b] != x { assert q[b] == entries[b + i] && p[a] == entries[a]; }
    }
  }

  lemma SweepComplete<T>(m: map<string, CacheItem<T>>, entries: seq<string>, now: int)
    requires forall k :: k in m ==> k in entries
    ensures SweptAfter(m, entries, now) == Live(m, now)
  {
  }

  /** One visit of the sweep: the entry at `entries[i]` is still present, and is deleted from the map exactly when it has expired. */
  lemma SweepIteration<T>(m: map<string, CacheItem<T>>, entries: seq<string>, i: nat, now: int)
    requires i < |entries| && Distinct(entries) && forall k :: k in entries <==> k in m
    ensures entries[i] in SweptAfter(m, entries[..i], now) && SweptAfter(m, entries[..i], now)[entries[i]] == m[entries[i]]
    ensures Expired(m[entries[i]], now) ==> SweptAfter(m, entries[..i + 1], now) == SweptAfter(m, entries[..i], now) - {entries[i]}
    ensures !Expired(m[entries[i]], now) ==> SweptAfter(m, entries[..i + 1], now) == SweptAfter(m, entries[..i], now)
  {
    var key := entries[i];
    assert key in entries;
    OccursOnce(entries, i);
    SweepStep(m, entries[..i], key, now);
    assert entries[..i + 1] == entries[..i] + [key];
  }

  /** The entries a sweep at `now` keeps. */
  function Live<T>(m: map<string, CacheItem<T>>, now: int): (r: map<string, CacheItem<T>>)
    ensures forall k :: k in r <==> k in m && !Expired(m[k], now)
    ensures forall k :: k in r ==> r[k] == m[k]
  {
    map k | k in m && !Expired(m[k], now) :: m[k]
  }

  /** The keys of `s` that a sweep at `now` keeps, in their order. */
  function LiveKeys<T>(s: seq<string>, m: map<string, CacheItem<T>>, now: int): seq<string> {
    if s == [] then []
    else
      var last := s[|s| - 1];
      LiveKeys(s[..|s| - 1], m, now)
        + (if last in m && !Expired(m[last], now) then [last] else [])
  }

  /** The keys kept are exactly the keys of `s` with a live entry. */
  lemma {:induction false} LiveKeysMembers<T>(s: seq<string>, m: map<string, CacheItem<T>>, now: int)
    ensures forall x :: x in LiveKeys(s, m, now) <==> x in s && x in m && !Expired(m[x], now)
  {
    if s != [] {
      var init := s[..|s| - 1];
      LiveKeysMembers(init, m, now);
      assert s == init + [s[|s| - 1]];
    }
  }

  /** What `get(key)` returns when the map is `m` and the clock reads `now`. */
  function Lookup<T>(m: map<string, CacheItem<T>>, key: string, now: int): (r: Option<T>)
    ensures r.Some? <==> key in m && !Expired(m[key], now)
  {
    if key in m && !Expired(m[key], now) then Some(m[key].data) else None
  }

  /** The map after `get(key)` at `now`: only an expired entry under `key` is removed. */
  function AfterLookup<T>(m: map<string, CacheItem<T>>, key: string, now: int): (r: map<string, CacheItem<T>>)
    ensures r.Keys <= m.Keys
    ensures forall k :: k in r ==> r[k] == m[k]
    ensures forall k :: k in m && k != key ==> k in r
    ensures key in r <==> key in m && !Expired(m[key], now)
  {
    if key in m && Expired(m[key], now) then m - {key} else m
  }

  /** Removing a key that occurs once from a sequence closes the gap it leaves. */
  lemma {:induction false} WithoutSplit(a: seq<string>, k: string, b: seq<string>)
    requires k !in a && k !in b
    ensures Without(a + [k] + b, k) == a + b
  {
    if a == [] {
      assert (a + [k] + b)[1..] == b;
      WithoutAbsent(b, k);
    } else {
      assert (a + [k] + b)[1..] == a[1..] + [k] + b;
      WithoutSplit(a[1..], k, b);
      assert a == [a[0]] + a[1..];
    }
  }

  /** A sequence without repetitions is as long as the set of its elements is large. */
  lemma {:induction false} DistinctCardinality(s: seq<string>)
    requires Distinct(s)
    ensures |set x | x in s| == |s|
  {
    if s != [] {
      var rest := s[..|s| - 1];
      DistinctCardinality(rest);
      assert (set x | x in s) == (set x | x in rest) + {s[|s| - 1]};
      assert s[|s| - 1] !in rest;
    }
  }

  /**
   * The loop of `cleanExpired`: walks the entries in iteration order and deletes
   * each one that has expired at `now` from the map and from the key order.
   */
  method Sweep<T>(m: map<string, CacheItem<T>>, entries: seq<string>, now: int)
    returns (swept: map<string, CacheItem<T>>, keys: seq<string>)
    requires Distinct(entries) && forall k :: k in entries <==> k in m
    ensures swept == Live(m, now)
    ensures keys == LiveKeys(entries, m, now)
    ensures Distinct(keys) && forall k :: k in keys <==> k in swept
  {
    swept, keys := m, entries;
    var i := 0;
    while i < |entries|
      invariant 0 <= i <= |entries|
      invariant swept == SweptAfter(m, entries[..i], now)
      invariant keys == LiveKeys(entries[..i], m, now) + entries[i..]
    {
      var key := entries[i];
      SweepIteration(m, entries, i, now);
      KeysStep(entries, i, m, now);
      assert swept[key] == m[key];
      if now > swept[key].expiresAt {
        swept := swept - {key};
        keys := Without(keys, key);
      }
      assert swept == SweptAfter(m, entries[..i + 1], now);
      assert keys == LiveKeys(entries[..i + 1], m, now) + entries[i + 1..];
      i := i + 1;
    }
    SweepFinished(m, entries, now);
  }

  /** Once every key has been visited, the sweep has kept exactly the live entries and live keys. */
  lemma SweepFinished<T>(m: map<string, CacheItem<T>>, entries: seq<string>, now: int)
    requires Distinct(entries) && forall k :: k in entries <==> k in m
    ensures SweptAfter(m, entries[..|entries|], now) == Live(m, now)
    ensures LiveKeys(entries[..|entries|], m, now) + entries[|entries|..] == LiveKeys(entries, m, now)
    ensures Distinct(LiveKeys(entries, m, now))
    ensures forall k :: k in LiveKeys(entries, m, now) <==> k in Live(m, now)
  {
    var keys := LiveKeys(entries, m, now);
    assert entries[..|entries|] == entries;
    assert keys + entries[|entries|..] == keys;
    SweepStateConsistent(entries, |entries|, m, now);
    SweepComplete(m, entries, now);
  }

  class InMemoryCacheService<T> {
    /** The entries. */
    var cache: map<string, CacheItem<T>>
    /** The keys in the order a JavaScript Map iterates them: first insertion first. */
    var order: seq<string>
    const defaultTtlMs: int

    ghost predicate Valid()
      reads this
    {
      NoRepeats(order) && (forall k :: k in order <==> k in cache)
    }

    /** `new InMemoryCacheService(defaultTtlMs?)`. */
    constructor(defaultTtl: Option<int>)
      ensures Valid() && cache == map[] && order == []
      ensures defaultTtl.None? ==> defaultTtlMs == DefaultTtlMs
      ensures defaultTtl.Some? ==> defaultTtlMs == defaultTtl.value
    {
      cache := map[];
      order := [];
      defaultTtlMs := defaultTtl.GetOr(DefaultTtlMs);
    }

    /** `get(key)`: null for an absent key; an expired entry is deleted and null returned. */
    method Get(key: string, now: int) returns (r: Option<T>)
      requires Valid()
      modifies this
      ensures Valid()
      ensures r == Lookup(old(cache), key, now)
      ensures cache == AfterLookup(old(cache), key, now)
      ensures order == if key in old(cache) && Expired(old(cache)[key], now) then Without(old(order), key) else old(order)
    {
      if key !in cache {
        return None;
      }
      var item := cache[key];
      if now > item.expiresAt {
        NoRepeatsIsDistinct(order);
        WithoutDistinct(order, key);
        WithoutMembers(order, key);
        cache := cache - {key};
        order := Without(order, key);
        NoRepeatsIsDistinct(order);
        return None;
      }
      return Some(item.data);
    }

    /** `set(key, value, ttlMs?)`: expiresAt = now + (ttlMs ?? defaultTtlMs); an existing key keeps its place. */
    method Set(key: string, value: T, ttlMs: Option<int>, now: int)
      requires Valid()
      modifies this
      ensures Valid()
      ensures ttlMs.Some? ==> cache == old(cache)[key := CacheItem(value, now + ttlMs.value)]
      ensures ttlMs.None? ==> cache == old(cache)[key := CacheItem(value, now + defaultTtlMs)]
      ensures order == if key in old(cache) then old(order) else old(order) + [key]
    {
      var ttl := ttlMs.GetOr(defaultTtlMs);
      if key !in cache {
        NoRepeatsIsDistinct(order);
        forall i, j | 0 <= i < j < |order + [key]| ensures (order + [key])[i] != (order + [key])[j] {
          assert (order + [key])[i] == order[i];
        }
        order := order + [key];
        NoRepeatsIsDistinct(order);
      }
      cache := cache[key := CacheItem(value, now + ttl)];
    }

    /** `clear()`. */
    method Clear()
      requires Valid()
      modifies this
      ensures Valid() && cache == map[] && order == []
    {
      cache := map[];
      order := [];
    }

    /** `cleanExpired()`: visits every entry once, in order, deleting those expired at `now`. */
    method CleanExpired(now: int)
      requires Valid()
      modifies this
      ensures Valid()
      ensures cache == Live(old(cache), now)
      ensures order == LiveKeys(old(order), old(cache), now)
    {
      NoRepeatsIsDistinct(order);
      cache, order := Sweep(cache, order, now);
      NoRepeatsIsDistinct(order);
    }

    /** `getStats()`: sweeps expired entries, then reports how many remain and their keys. */
    method GetStats(now: int) returns (size: nat, keys: seq<string>)
      requires Valid()
      modifies this
      ensures Valid()
      ensures cache == Live(old(cache), now)
      ensures keys == order == LiveKeys(old(order), old(cache), now)
      ensures size == |cache| == |keys|
    {
      CleanExpired(now);
      NoRepeatsIsDistinct(order);
      DistinctCardinality(order);
      assert (set x | x in order) == cache.Keys;
      size := |cache|;
      keys := order;
    }
  }

  /** An entry just set with a TTL is served up to and including its expiry instant, and not after. */
  lemma SetThenGet<T>(m: map<string, CacheItem<T>>, key: string, value: T, setAt: int, ttl: int, getAt: int)
    ensures Lookup(m[key := CacheItem(value, setAt + ttl)], key, getAt)
            == if getAt <= setAt + ttl then Some(value) else None
  {
  }

  /** After a sweep no expired entry remains, every live entry survives, and nothing is counted twice. */
  lemma {:induction false} SweepKeepsExactlyLive<T>(m: map<string, CacheItem<T>>, order: seq<string>, now: int)
    requires Distinct(order) && forall k :: k in order <==> k in m
    ensures forall k :: k in LiveKeys(order, m, now) <==> k in Live(m, now)
    ensures |LiveKeys(order, m, now)| == |Live(m, now)|
  {
    var keys := LiveKeys(order, m, now);
    LiveKeysDistinct(order, m, now);
    LiveKeysMembers(order, m, now);
    DistinctCardinality(keys);
    assert (set x | x in keys) == Live(m, now).Keys;
  }
}
