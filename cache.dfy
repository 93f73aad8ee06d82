/**
 * The two-tier cache of the ballistic feature services: a memory tier
 * (a map of entries, a recency list with the most recent key first, and a
 * byte counter with a capacity) in front of a disk tier (one file per key,
 * modelled as a map from key to the stored entry plus whether the cache
 * directory exists).
 *
 * The clock is a parameter `now` (nanoseconds), as are the sizes the
 * service measures by encoding a value as JSON.
 */
module Cache {
  import opened Common

  // ------------------------------------------------------------------
  // Entries.
  // ------------------------------------------------------------------

  /**
   * A cached value: the caller's data, or, once a disk hit has been
   * promoted to memory, the disk entry itself.
   */
  datatype Data = Payload(value: string) | Wrapped(entry: Entry)

  /** CacheEntry; `timestamp` and `ttl` in nanoseconds. */
  datatype Entry = Entry(data: Data, timestamp: int, ttl: int, size: nat, hits: nat, key: string)

  /** time.Since(timestamp) > ttl: an age equal to the TTL is still fresh. */
  predicate Expired(timestamp: int, ttl: int, now: int)
  {
    now - timestamp > ttl
  }

  /** CacheStats. */
  datatype CacheStats = CacheStats(memoryHits: int, diskHits: int, misses: int, hitRatio: real,
                                   memoryUsageMB: real, diskUsageMB: real, entryCount: int)

  const NoStats := CacheStats(0, 0, 0, 0.0, 0.0, 0.0, 0)

  const MB: int := 1024 * 1024

  // ------------------------------------------------------------------
  // The recency list.
  // ------------------------------------------------------------------

  predicate NoDup(s: seq<string>)
  {
    forall i, j :: 0 <= i < j < |s| ==> s[i] != s[j]
  }

  /** removeLRU: the first occurrence of `k` taken out. */
  function RemoveFirst(s: seq<string>, k: string): seq<string>
  {
    if s == [] then [] else if s[0] == k then s[1..] else [s[0]] + RemoveFirst(s[1..], k)
  }

  /** updateLRU: `k` moved (or added) to the front. */
  function Touch(s: seq<string>, k: string): seq<string>
  {
    [k] + RemoveFirst(s, k)
  }

  /** The elements of `s` outside `gone`, in their order. */
  function Without(s: seq<string>, gone: set<string>): seq<string>
  {
    if s == [] then [] else (if s[0] in gone then [] else [s[0]]) + Without(s[1..], gone)
  }

  /** Removing the first occurrence cuts the list there: the rest keep their order. */
  lemma {:induction false} RemoveFirstSplit(s: seq<string>, k: string, i: nat)
    requires i < |s| && s[i] == k
    requires forall j :: 0 <= j < i ==> s[j] != k
    ensures RemoveFirst(s, k) == s[..i] + s[i + 1..]
    decreases i
  {
    if i > 0 {
      RemoveFirstSplit(s[1..], k, i - 1);
      assert s[1..][..i - 1] == s[1..i];
      assert s[1..][i..] == s[i + 1..];
      assert s[..i] == [s[0]] + s[1..i];
    }
  }

  lemma {:induction false} RemoveFirstAbsent(s: seq<string>, k: string)
    requires k !in s
    ensures RemoveFirst(s, k) == s
    decreases |s|
  {
    if s != [] {
      assert s[1..] <= s[1..];
      assert k !in s[1..];
      RemoveFirstAbsent(s[1..], k);
    }
  }

  /** On a list without duplicates, removal keeps it so and drops exactly `k`. */
  lemma {:induction false} RemoveFirstNoDup(s: seq<string>, k: string)
    requires NoDup(s)
    ensures NoDup(RemoveFirst(s, k))
    ensures forall x :: x in RemoveFirst(s, k) <==> x in s && x != k
    decreases |s|
  {
    if s != [] {
      assert NoDup(s[1..]);
      if s[0] == k {
        forall x | x in s[1..]
          ensures x != k
        {
          var j :| 0 <= j < |s[1..]| && s[1..][j] == x;
          assert s[j + 1] == x;
        }
      } else {
        RemoveFirstNoDup(s[1..], k);
        var r := RemoveFirst(s[1..], k);
        assert s[0] !in s[1..];
        forall i, j | 0 <= i < j < |[s[0]] + r|
          ensures ([s[0]] + r)[i] != ([s[0]] + r)[j]
        {
          if i == 0 {
            assert ([s[0]] + r)[j] == r[j - 1];
          }
        }
      }
    }
  }

  /** updateLRU puts `k` first, keeps the others in order, and adds no duplicate. */
  lemma TouchFront(s: seq<string>, k: string)
    requires NoDup(s)
    ensures Touch(s, k)[0] == k && Touch(s, k)[1..] == RemoveFirst(s, k)
    ensures NoDup(Touch(s, k))
    ensures forall x :: x in Touch(s, k) <==> x in s || x == k
  {
    RemoveFirstNoDup(s, k);
    var r := RemoveFirst(s, k);
    forall i, j | 0 <= i < j < |[k] + r|
      ensures ([k] + r)[i] != ([k] + r)[j]
    {
      if i == 0 {
        assert ([k] + r)[j] == r[j - 1] && r[j - 1] in r;
      } else {
        assert ([k] + r)[i] == r[i - 1] && ([k] + r)[j] == r[j - 1];
      }
    }
  }

  lemma {:induction false} WithoutMembers(s: seq<string>, gone: set<string>)
    ensures forall x :: x in Without(s, gone) <==> x in s && x !in gone
    decreases |s|
  {
    if s != [] {
      WithoutMembers(s[1..], gone);
      assert forall x :: x in s <==> x == s[0] || x in s[1..];
    }
  }

  lemma {:induction false} WithoutNoDup(s: seq<string>, gone: set<string>)
    requires NoDup(s)
    ensures NoDup(Without(s, gone))
    decreases |s|
  {
    if s != [] {
      assert NoDup(s[1..]);
      WithoutNoDup(s[1..], gone);
      WithoutMembers(s[1..], gone);
      var r := Without(s[1..], gone);
      if s[0] !in gone {
        assert s[0] !in s[1..];
        forall i, j | 0 <= i < j < |[s[0]] + r|
          ensures ([s[0]] + r)[i] != ([s[0]] + r)[j]
        {
          if i == 0 {
            assert ([s[0]] + r)[j] == r[j - 1];
          }
        }
      }
    }
  }

  /** Removing one more key of a duplicate-free list extends the removed set. */
  lemma {:induction false} RemoveFirstWithout(s: seq<string>, gone: set<string>, k: string)
    requires NoDup(s)
    ensures RemoveFirst(Without(s, gone), k) == Without(s, gone + {k})
    decreases |s|
  {
    if s != [] {
      assert NoDup(s[1..]);
      RemoveFirstWithout(s[1..], gone, k);
      if s[0] in gone {
        assert Without(s, gone) == Without(s[1..], gone);
        assert Without(s, gone + {k}) == Without(s[1..], gone + {k});
      } else if s[0] == k {
        assert k !in s[1..];
        WithoutMembers(s[1..], gone);
        RemoveFirstAbsent(Without(s[1..], gone), k);
        WithoutSame(s[1..], gone, gone + {k});
      }
    }
  }

  /** Keys absent from the list make no difference to what is removed. */
  lemma {:induction false} WithoutSame(s: seq<string>, a: set<string>, b: set<string>)
    requires forall x :: x in s ==> (x in a <==> x in b)
    ensures Without(s, a) == Without(s, b)
    decreases |s|
  {
    if s != [] {
      assert forall x :: x in s[1..] ==> x in s;
      WithoutSame(s[1..], a, b);
    }
  }

  // ------------------------------------------------------------------
  // The memory tier as a value, and what each operation does to it.
  // ------------------------------------------------------------------

  /** MemoryCache's data, lruList and currSize. */
  datatype MemState = MemState(data: map<string, Entry>, lruList: seq<string>, currSize: int)

  function SizeOf(data: map<string, Entry>, k: string): int
  {
    if k in data then data[k].size else 0
  }

  function Sizes(data: map<string, Entry>): string -> int
  {
    k => SizeOf(data, k)
  }

  /** The bytes the entries actually hold. */
  ghost function SizeSum(data: map<string, Entry>): int
  {
    IntSum(data.Keys, Sizes(data))
  }

  /**
   * What every operation keeps: the list holds each key of the map exactly
   * once and nothing else, and the counter never undercounts the entries.
   */
  ghost predicate Inv(st: MemState)
  {
    NoDup(st.lruList) &&
    (forall k :: k in st.data <==> k in st.lruList) &&
    SizeSum(st.data) <= st.currSize
  }

  /** evictLRU: the least recent key leaves the list, and the map with its size. */
  function EvictOne(st: MemState): MemState
  {
    if st.lruList == [] then st
    else
      var key := st.lruList[|st.lruList| - 1];
      MemState(st.data - {key}, st.lruList[..|st.lruList| - 1], st.currSize - SizeOf(st.data, key))
  }

  /** The eviction loop of set: evict while the new entry does not fit and the list is non-empty. */
  function EvictFor(st: MemState, size: int, maxSize: int): MemState
    decreases |st.lruList|
  {
    if st.currSize + size > maxSize && |st.lruList| > 0 then EvictFor(EvictOne(st), size, maxSize) else st
  }

  /** Storing an entry: the map is overwritten, the size added, the key moved to the front. */
  function Put(st: MemState, key: string, e: Entry): MemState
  {
    MemState(st.data[key := e], Touch(st.lruList, key), st.currSize + e.size)
  }

  /** set(key, data, ttl) at time `now`, the value encoding to `size` bytes. */
  function SetState(st: MemState, key: string, d: Data, ttl: int, size: nat, now: int, maxSize: int): MemState
  {
    Put(EvictFor(st, size, maxSize), key, Entry(d, now, ttl, size, 0, key))
  }

  /** get: the value found (if any) and the new state. */
  function GetState(st: MemState, key: string, now: int): (Option<Data>, MemState)
  {
    if key !in st.data then (None, st)
    else
      var e := st.data[key];
      if Expired(e.timestamp, e.ttl, now) then (None, MemState(st.data - {key}, RemoveFirst(st.lruList, key), st.currSize))
      else (Some(e.data), MemState(st.data[key := e.(hits := e.hits + 1)], Touch(st.lruList, key), st.currSize))
  }

  /** delete. */
  function DeleteState(st: MemState, key: string): MemState
  {
    if key in st.data then MemState(st.data - {key}, RemoveFirst(st.lruList, key), st.currSize - st.data[key].size)
    else st
  }

  const Cleared := MemState(map[], [], 0)

  /** The keys whose entries are older than their own TTL. */
  function ExpiredKeys(data: map<string, Entry>, now: int): set<string>
  {
    set k | k in data && Expired(data[k].timestamp, data[k].ttl, now)
  }

  function Keep(data: map<string, Entry>, gone: set<string>): map<string, Entry>
  {
    map k | k in data && k !in gone :: data[k]
  }

  /** The memory part of one cleanup round. */
  ghost function SweepState(st: MemState, now: int): MemState
  {
    var gone := ExpiredKeys(st.data, now);
    MemState(Keep(st.data, gone), Without(st.lruList, gone), st.currSize - IntSum(gone, Sizes(st.data)))
  }

  /** Where a sweep stands after visiting every key outside `rest`. */
  ghost predicate SweptSoFar(st: MemState, now: int, rest: set<string>, gone: set<string>, cur: MemState)
  {
    && NoDup(st.lruList)
    && rest <= st.data.Keys
    && gone == ExpiredKeys(st.data, now) - rest
    && cur.data == Keep(st.data, gone)
    && cur.lruList == Without(st.lruList, gone)
    && cur.currSize == st.currSize - IntSum(gone, Sizes(st.data))
  }

  lemma SweepStart(st: MemState, now: int)
    requires NoDup(st.lruList)
    ensures SweptSoFar(st, now, st.data.Keys, {}, st)
  {
    WithoutNothing(st.lruList);
    assert Keep(st.data, {}) == st.data;
  }

  /** One visited key: an expired one leaves the map, the list and the counter. */
  lemma SweepStep(st: MemState, now: int, rest: set<string>, gone: set<string>, cur: MemState, key: string)
    requires SweptSoFar(st, now, rest, gone, cur) && key in rest
    ensures key in cur.data && cur.data[key] == st.data[key]
    ensures var e := st.data[key];
            if Expired(e.timestamp, e.ttl, now) then
              SweptSoFar(st, now, rest - {key}, gone + {key},
                         MemState(cur.data - {key}, RemoveFirst(cur.lruList, key), cur.currSize - e.size))
            else SweptSoFar(st, now, rest - {key}, gone, cur)
  {
    var e := st.data[key];
    if Expired(e.timestamp, e.ttl, now) {
      IntSumRemove(gone + {key}, Sizes(st.data), key);
      assert gone + {key} - {key} == gone;
      RemoveFirstWithout(st.lruList, gone, key);
      assert Keep(st.data, gone + {key}) == cur.data - {key};
    }
  }

  lemma SweepEnd(st: MemState, now: int, gone: set<string>, cur: MemState)
    requires SweptSoFar(st, now, {}, gone, cur)
    ensures cur == SweepState(st, now)
  {
    assert gone == ExpiredKeys(st.data, now) - {};
    assert ExpiredKeys(st.data, now) - {} == ExpiredKeys(st.data, now);
  }

  // ------------------------------------------------------------------
  // Byte accounting.
  // ------------------------------------------------------------------

  lemma SizeSumRemove(data: map<string, Entry>, k: string)
    requires k in data
    ensures SizeSum(data - {k}) == SizeSum(data) - data[k].size
  {
    IntSumRemove(data.Keys, Sizes(data), k);
    assert (data - {k}).Keys == data.Keys - {k};
    IntSumExt(data.Keys - {k}, Sizes(data - {k}), Sizes(data));
  }

  /** Overwriting or adding an entry raises the sum by at most the new size. */
  lemma SizeSumPut(data: map<string, Entry>, k: string, e: Entry)
    ensures SizeSum(data[k := e]) <= SizeSum(data) + e.size
    ensures k !in data ==> SizeSum(data[k := e]) == SizeSum(data) + e.size
  {
    var d := data[k := e];
    IntSumRemove(d.Keys, Sizes(d), k);
    assert d.Keys - {k} == data.Keys - {k};
    IntSumExt(data.Keys - {k}, Sizes(d), Sizes(data));
    if k in data {
      IntSumRemove(data.Keys, Sizes(data), k);
    } else {
      assert data.Keys - {k} == data.Keys;
    }
  }

  lemma SizeSumSameSizes(d1: map<string, Entry>, d2: map<string, Entry>)
    requires d1.Keys == d2.Keys
    requires forall k :: k in d1 ==> d1[k].size == d2[k].size
    ensures SizeSum(d1) == SizeSum(d2)
  {
    IntSumExt(d1.Keys, Sizes(d1), Sizes(d2));
  }

  /** The entries kept by a sweep hold the old bytes minus those of the removed ones. */
  lemma SizeSumKeep(data: map<string, Entry>, gone: set<string>)
    requires gone <= data.Keys
    ensures SizeSum(Keep(data, gone)) == SizeSum(data) - IntSum(gone, Sizes(data))
  {
    IntSumSplit(data.Keys, gone, Sizes(data));
    assert Keep(data, gone).Keys == data.Keys - gone;
    IntSumExt(data.Keys - gone, Sizes(Keep(data, gone)), Sizes(data));
  }

  // ------------------------------------------------------------------
  // What the operations keep and promise.
  // ------------------------------------------------------------------

  /** evictLRU removes the last key of the list from both structures and keeps the invariant. */
  lemma EvictOneKeeps(st: MemState)
    requires Inv(st) && st.lruList != []
    ensures var key := st.lruList[|st.lruList| - 1];
            Inv(EvictOne(st)) && key !in EvictOne(st).data &&
            EvictOne(st).lruList == st.lruList[..|st.lruList| - 1] &&
            EvictOne(st).currSize == st.currSize - st.data[key].size
  {
    var key := st.lruList[|st.lruList| - 1];
    var r := EvictOne(st);
    SizeSumRemove(st.data, key);
    forall k
      ensures k in r.data <==> k in r.lruList
    {
      if k in r.lruList {
        var i :| 0 <= i < |r.lruList| && r.lruList[i] == k;
        assert st.lruList[i] == k;
      }
      if k in st.lruList && k != key {
        var i :| 0 <= i < |st.lruList| && st.lruList[i] == k;
        assert r.lruList[i] == k;
      }
    }
  }

  /**
   * The eviction loop keeps the invariant, evicts only from the tail (what
   * remains is a prefix of the list, with the same entries), and stops
   * once the new entry fits or nothing is left.
   */
  lemma {:induction false} EvictForFacts(st: MemState, size: int, maxSize: int)
    requires Inv(st)
    ensures var r := EvictFor(st, size, maxSize);
            Inv(r) && r.lruList <= st.lruList &&
            (forall k :: k in r.data ==> k in st.data && r.data[k] == st.data[k]) &&
            (r.currSize + size <= maxSize || r.lruList == []) &&
            r.currSize <= st.currSize
    decreases |st.lruList|
  {
    if st.currSize + size > maxSize && |st.lruList| > 0 {
      EvictOneKeeps(st);
      var next := EvictOne(st);
      EvictForFacts(next, size, maxSize);
    }
  }

  /** Storing keeps the invariant and leaves the key first. */
  lemma PutKeeps(st: MemState, key: string, e: Entry)
    requires Inv(st)
    ensures Inv(Put(st, key, e)) && Put(st, key, e).lruList[0] == key
  {
    TouchFront(st.lruList, key);
    SizeSumPut(st.data, key, e);
  }

  /**
   * After set, the key is first in the list and maps to a fresh entry with
   * no hits; the invariant holds; what was evicted came off the tail.
   */
  lemma SetFacts(st: MemState, key: string, d: Data, ttl: int, size: nat, now: int, maxSize: int)
    requires Inv(st)
    ensures var r := SetState(st, key, d, ttl, size, now, maxSize);
            Inv(r) && r.lruList[0] == key && r.data[key] == Entry(d, now, ttl, size, 0, key) &&
            (forall k :: k in r.data && k != key ==> k in st.data && r.data[k] == st.data[k])
  {
    EvictForFacts(st, size, maxSize);
    PutKeeps(EvictFor(st, size, maxSize), key, Entry(d, now, ttl, size, 0, key));
  }

  /**
   * get misses on an absent or expired key (an expired one is removed),
   * and on a hit returns the stored data, counts the hit and moves the key
   * to the front. The invariant holds either way and the counter is never
   * changed.
   */
  lemma GetFacts(st: MemState, key: string, now: int)
    requires Inv(st)
    ensures var (v, r) := GetState(st, key, now);
            Inv(r) && r.currSize == st.currSize &&
            (v.None? <==> key !in st.data || Expired(st.data[key].timestamp, st.data[key].ttl, now)) &&
            (v.None? ==> key !in r.data && key !in r.lruList) &&
            (v.Some? ==> v.value == st.data[key].data && r.data[key].hits == st.data[key].hits + 1 &&
                         r.lruList[0] == key)
  {
    if key in st.data {
      var e := st.data[key];
      if Expired(e.timestamp, e.ttl, now) {
        ExpiredDropKeeps(st, key, now);
      } else {
        HitTouchKeeps(st, key, now);
      }
    }
  }

  /** An expired key is dropped without touching the counter, keeping the invariant. */
  lemma ExpiredDropKeeps(st: MemState, key: string, now: int)
    requires Inv(st) && key in st.data && Expired(st.data[key].timestamp, st.data[key].ttl, now)
    ensures var (v, r) := GetState(st, key, now);
            v.None? && Inv(r) && r.currSize == st.currSize && key !in r.data && key !in r.lruList
  {
    RemoveFirstNoDup(st.lruList, key);
    SizeSumRemove(st.data, key);
  }

  /** A hit is counted and its key moved to the front, keeping the invariant. */
  lemma HitTouchKeeps(st: MemState, key: string, now: int)
    requires Inv(st) && key in st.data && !Expired(st.data[key].timestamp, st.data[key].ttl, now)
    ensures var (v, r) := GetState(st, key, now);
            v == Some(st.data[key].data) && Inv(r) && r.currSize == st.currSize &&
            r.data[key].hits == st.data[key].hits + 1 && r.lruList[0] == key
  {
    var e := st.data[key];
    var data' := st.data[key := e.(hits := e.hits + 1)];
    TouchFront(st.lruList, key);
    assert data'.Keys == st.data.Keys;
    SizeSumSameSizes(st.data, data');
  }

  /** delete of an absent key changes nothing; of a present key it removes it and its bytes. */
  lemma DeleteFacts(st: MemState, key: string)
    requires Inv(st)
    ensures var r := DeleteState(st, key);
            Inv(r) && key !in r.data && key !in r.lruList &&
            (key !in st.data ==> r == st) &&
            (key in st.data ==> r.currSize == st.currSize - st.data[key].size && r.data == st.data - {key})
  {
    if key in st.data {
      RemoveFirstNoDup(st.lruList, key);
      SizeSumRemove(st.data, key);
    }
  }

  /**
   * A cleanup round removes exactly the expired entries, subtracting their
   * sizes, keeps the other entries untouched and the list order, and
   * keeps the invariant.
   */
  lemma SweepFacts(st: MemState, now: int)
    requires Inv(st)
    ensures var r := SweepState(st, now);
            Inv(r) &&
            (forall k :: k in r.data <==> k in st.data && !Expired(st.data[k].timestamp, st.data[k].ttl, now)) &&
            (forall k :: k in r.data ==> r.data[k] == st.data[k]) &&
            r.lruList == Without(st.lruList, ExpiredKeys(st.data, now))
  {
    var gone := ExpiredKeys(st.data, now);
    WithoutNoDup(st.lruList, gone);
    WithoutMembers(st.lruList, gone);
    SizeSumKeep(st.data, gone);
  }

  lemma ClearedKeeps()
    ensures Inv(Cleared)
  {
    assert SizeSum(map[]) == 0;
  }

  /**
   * The counter can exceed the bytes held: overwriting a key adds the new
   * size without subtracting the old one.
   */
  lemma OverwriteOvercounts()
    ensures var e := Entry(Payload("v"), 0, 10, 5, 0, "a");
            var st := SetState(MemState(map["a" := e], ["a"], 5), "a", Payload("v"), 10, 5, 0, 100);
            st.currSize == 10 && SizeSum(st.data) == 5
  {
    var e := Entry(Payload("v"), 0, 10, 5, 0, "a");
    var st := SetState(MemState(map["a" := e], ["a"], 5), "a", Payload("v"), 10, 5, 0, 100);
    assert st.data == map["a" := e];
    IntSumRemove(st.data.Keys, Sizes(st.data), "a");
    assert st.data.Keys - {"a"} == {};
  }

  // ------------------------------------------------------------------
  // MemoryCache.
  // ------------------------------------------------------------------

  class MemoryCache {
    var data: map<string, Entry>
    var lruList: seq<string>
    const maxSize: int
    var currSize: int

    function State(): MemState
      reads this
    {
      MemState(data, lruList, currSize)
    }

    /** The memory tier as NewCacheService builds it: capacity in bytes from megabytes. */
    constructor(maxMemoryMB: int)
      ensures State() == Cleared && maxSize == maxMemoryMB * MB
    {
      data := map[];
      lruList := [];
      maxSize := maxMemoryMB * MB;
      currSize := 0;
    }

    method Get(key: string, now: int) returns (value: Option<Data>)
      modifies this
      ensures (value, State()) == GetState(old(State()), key, now)
    {
      if key !in data {
        return None;
      }
      var entry := data[key];
      if Expired(entry.timestamp, entry.ttl, now) {
        data := data - {key};
        RemoveLRU(key);
        return None;
      }
      data := data[key := entry.(hits := entry.hits + 1)];
      UpdateLRU(key);
      value := Some(entry.data);
    }

    /** set; `size` is the length of the value's JSON encoding. */
    method Set(key: string, d: Data, ttl: int, size: nat, now: int)
      modifies this
      ensures State() == SetState(old(State()), key, d, ttl, size, now, maxSize)
    {
      while currSize + size > maxSize && |lruList| > 0
        invariant EvictFor(State(), size, maxSize) == EvictFor(old(State()), size, maxSize)
        decreases |lruList|
      {
        EvictLRU();
      }
      var entry := Entry(d, now, ttl, size, 0, key);
      data := data[key := entry];
      currSize := currSize + size;
      UpdateLRU(key);
    }

    method Delete(key: string)
      modifies this
      ensures State() == DeleteState(old(State()), key)
    {
      if key in data {
        currSize := currSize - data[key].size;
        data := data - {key};
        RemoveLRU(key);
      }
    }

    method Clear()
      modifies this
      ensures State() == Cleared
    {
      data := map[];
      lruList := [];
      currSize := 0;
    }

    method UpdateLRU(key: string)
      modifies this
      ensures lruList == Touch(old(lruList), key) && data == old(data) && currSize == old(currSize)
    {
      RemoveLRU(key);
      lruList := [key] + lruList;
    }

    /** removeLRU: scan for the first occurrence and cut it out. */
    method RemoveLRU(key: string)
      modifies this
      ensures lruList == RemoveFirst(old(lruList), key) && data == old(data) && currSize == old(currSize)
    {
      var i := 0;
      while i < |lruList|
        invariant 0 <= i <= |lruList| && lruList == old(lruList)
        invariant forall j :: 0 <= j < i ==> lruList[j] != key
      {
        if lruList[i] == key {
          RemoveFirstSplit(lruList, key, i);
          lruList := lruList[..i] + lruList[i + 1..];
          return;
        }
        i := i + 1;
      }
      RemoveFirstAbsent(lruList, key);
    }

    method EvictLRU()
      modifies this
      ensures State() == EvictOne(old(State()))
    {
      if |lruList| == 0 {
        return;
      }
      var key := lruList[|lruList| - 1];
      if key in data {
        currSize := currSize - data[key].size;
        data := data - {key};
      }
      lruList := lruList[..|lruList| - 1];
    }

    /**
     * The memory part of cleanupExpiredEntries: every key is visited once,
     * in the map's order, and an expired entry leaves the map, the list and
     * the counter.
     */
    method Sweep(now: int)
      requires NoDup(lruList)
      modifies this
      ensures State() == SweepState(old(State()), now)
    {
      ghost var st := State();
      ghost var gone: set<string> := {};
      var rest := data.Keys;
      SweepStart(st, now);
      while rest != {}
        invariant SweptSoFar(st, now, rest, gone, State())
        decreases rest
      {
        var key :| key in rest;
        SweepStep(st, now, rest, gone, State(), key);
        var entry := data[key];
        if Expired(entry.timestamp, entry.ttl, now) {
          currSize := currSize - entry.size;
          data := data - {key};
          RemoveLRU(key);
          gone := gone + {key};
        }
        rest := rest - {key};
      }
      SweepEnd(st, now, gone, State());
    }

    /** getStats: the hits of all entries, the counter in megabytes, the entry count. */
    method GetStats() returns (stats: CacheStats)
      ensures stats == CacheStats(IntSum(data.Keys, HitCounts(data)), 0, 0, 0.0, currSize as real / MB as real, 0.0, |data|)
    {
      var totalHits := 0;
      var rest := data.Keys;
      while rest != {}
        invariant rest <= data.Keys
        invariant totalHits + IntSum(rest, HitCounts(data)) == IntSum(data.Keys, HitCounts(data))
        decreases rest
      {
        var key :| key in rest;
        IntSumRemove(rest, HitCounts(data), key);
        totalHits := totalHits + data[key].hits;
        rest := rest - {key};
      }
      stats := CacheStats(totalHits, 0, 0, 0.0, currSize as real / MB as real, 0.0, |data|);
    }
  }

  function HitCounts(data: map<string, Entry>): string -> int
  {
    k => if k in data then data[k].hits else 0
  }

  // ------------------------------------------------------------------
  // The disk tier: one file per key, as a map; the directory can be gone.
  // ------------------------------------------------------------------

  datatype DiskState = DiskState(files: map<string, Entry>, dirExists: bool)

  /** Without the directory there are no files. */
  predicate DiskInv(ds: DiskState)
  {
    !ds.dirExists ==> ds.files == map[]
  }

  /** DiskCache.get with the tier's TTL: an expired file is removed. */
  function DiskGet(ds: DiskState, key: string, ttl: int, now: int): (Option<Entry>, DiskState)
  {
    if key !in ds.files then (None, ds)
    else if Expired(ds.files[key].timestamp, ttl, now) then (None, ds.(files := ds.files - {key}))
    else (Some(ds.files[key]), ds)
  }

  /** DiskCache.set: the written entry records no size and no hits; it fails without the directory. */
  function DiskSet(ds: DiskState, key: string, d: Data, ttl: int, now: int): DiskState
  {
    if ds.dirExists then ds.(files := ds.files[key := Entry(d, now, ttl, 0, 0, key)]) else ds
  }

  function DiskDelete(ds: DiskState, key: string): DiskState
  {
    ds.(files := ds.files - {key})
  }

  /** The disk part of one cleanup round: files older than the disk TTL go. */
  function DiskSweep(ds: DiskState, ttl: int, now: int): DiskState
  {
    ds.(files := map k | k in ds.files && !Expired(ds.files[k].timestamp, ttl, now) :: ds.files[k])
  }

  class DiskCache {
    var files: map<string, Entry>
    var dirExists: bool

    function State(): DiskState
      reads this
    {
      DiskState(files, dirExists)
    }

    /** After os.MkdirAll: an empty directory. */
    constructor()
      ensures State() == DiskState(map[], true)
    {
      files := map[];
      dirExists := true;
    }

    method Get(key: string, ttl: int, now: int) returns (entry: Option<Entry>)
      modifies this
      ensures (entry, State()) == DiskGet(old(State()), key, ttl, now)
    {
      if key !in files {
        return None;
      }
      var stored := files[key];
      if Expired(stored.timestamp, ttl, now) {
        files := files - {key};
        return None;
      }
      entry := Some(stored);
    }

    /** set; `written` is false when the file cannot be created. */
    method Set(key: string, d: Data, ttl: int, now: int) returns (written: bool)
      modifies this
      ensures State() == DiskSet(old(State()), key, d, ttl, now)
      ensures written == old(dirExists)
    {
      if !dirExists {
        return false;
      }
      files := files[key := Entry(d, now, ttl, 0, 0, key)];
      written := true;
    }

    method Delete(key: string)
      modifies this
      ensures State() == DiskDelete(old(State()), key)
    {
      files := files - {key};
    }

    /** clear removes the whole directory. */
    method Clear()
      modifies this
      ensures State() == DiskState(map[], false)
    {
      files := map[];
      dirExists := false;
    }

    /** The disk part of cleanupExpiredEntries: the walk removes every file older than `ttl`. */
    method Sweep(ttl: int, now: int)
      modifies this
      ensures State() == DiskSweep(old(State()), ttl, now)
    {
      var rest := files.Keys;
      var kept := files;
      while rest != {}
        invariant rest <= files.Keys
        invariant forall k :: k in kept <==> k in files && (k in rest || !Expired(files[k].timestamp, ttl, now))
        invariant forall k :: k in kept ==> kept[k] == files[k]
        decreases rest
      {
        var key :| key in rest;
        if Expired(files[key].timestamp, ttl, now) {
          kept := kept - {key};
        }
        rest := rest - {key};
      }
      files := kept;
    }

    /** getStats; `diskBytes` is the total size of the cache files. */
    method GetStats(diskBytes: nat) returns (stats: CacheStats)
      ensures stats == CacheStats(0, 0, 0, 0.0, 0.0, diskBytes as real / MB as real, |files|)
    {
      stats := CacheStats(0, 0, 0, 0.0, 0.0, diskBytes as real / MB as real, |files|);
    }
  }

  /** Every disk operation keeps the directory invariant. */
  lemma DiskKeeps(ds: DiskState, key: string, d: Data, ttl: int, now: int)
    requires DiskInv(ds)
    ensures DiskInv(DiskGet(ds, key, ttl, now).1) && DiskInv(DiskSet(ds, key, d, ttl, now))
    ensures DiskInv(DiskDelete(ds, key)) && DiskInv(DiskSweep(ds, ttl, now))
  {
  }

  /** A disk entry is found until its age exceeds the TTL; a cleared directory finds nothing. */
  lemma DiskSetThenGet(ds: DiskState, key: string, d: Data, ttl: int, t0: int, t1: int)
    ensures var (e, _) := DiskGet(DiskSet(ds, key, d, ttl, t0), key, ttl, t1);
            (ds.dirExists && t1 - t0 <= ttl ==> e == Some(Entry(d, t0, ttl, 0, 0, key))) &&
            (!ds.dirExists && DiskInv(ds) ==> e.None?)
  {
  }

  // ------------------------------------------------------------------
  // CacheService: memory first, then disk.
  // ------------------------------------------------------------------

  /** Merging the two tiers' statistics: the disk tier never counts hits and nobody counts misses. */
  function ServiceStats(memory: CacheStats, disk: CacheStats): (stats: CacheStats)
    ensures stats.memoryHits == memory.memoryHits && stats.diskHits == disk.diskHits && stats.misses == memory.misses
    ensures stats.entryCount == memory.entryCount + disk.entryCount
    ensures stats.memoryUsageMB == memory.memoryUsageMB && stats.diskUsageMB == disk.diskUsageMB
    ensures memory.memoryHits >= 0 && disk.diskHits >= 0 && memory.misses >= 0 ==> 0.0 <= stats.hitRatio <= 1.0
    ensures memory.misses == 0 && memory.memoryHits + disk.diskHits > 0 ==> stats.hitRatio == 1.0
    ensures memory.memoryHits + disk.diskHits + memory.misses == 0 ==> stats.hitRatio == 0.0
  {
    var totalHits := memory.memoryHits + disk.diskHits;
    var totalRequests := totalHits + memory.misses;
    var hitRatio := if totalRequests > 0 then totalHits as real / totalRequests as real else 0.0;
    CacheStats(memory.memoryHits, disk.diskHits, memory.misses, hitRatio, memory.memoryUsageMB,
               disk.diskUsageMB, memory.entryCount + disk.entryCount)
  }

  class CacheService {
    const enabled: bool
    const memoryTTL: int
    const diskTTL: int
    const memory: MemoryCache
    const disk: DiskCache

    ghost predicate Valid()
      reads this, memory, disk
    {
      Inv(memory.State()) && DiskInv(disk.State())
    }

    /** NewCacheService (directory creation assumed to succeed). */
    constructor(enabled: bool, memoryTTL: int, diskTTL: int, maxMemoryMB: int)
      ensures this.enabled == enabled && this.memoryTTL == memoryTTL && this.diskTTL == diskTTL
      ensures fresh(memory) && fresh(disk) && memory.maxSize == maxMemoryMB * MB
      ensures memory.State() == Cleared && disk.State() == DiskState(map[], true)
      ensures Valid()
    {
      this.enabled := enabled;
      this.memoryTTL := memoryTTL;
      this.diskTTL := diskTTL;
      memory := new MemoryCache(maxMemoryMB);
      disk := new DiskCache();
      ClearedKeeps();
    }

    /**
     * Get at time `now`. A disk hit is promoted into memory under the
     * memory TTL; `promotedSize` is the length of the promoted value's
     * JSON encoding.
     */
    method Get(key: string, now: int, promotedSize: nat) returns (value: Option<Data>)
      requires Valid()
      modifies memory, disk
      ensures Valid()
      ensures !enabled ==> value.None? && memory.State() == old(memory.State()) && disk.State() == old(disk.State())
      ensures enabled ==>
                var (mv, afterGet) := GetState(old(memory.State()), key, now);
                var (dv, afterDisk) := DiskGet(old(disk.State()), key, diskTTL, now);
                (mv.Some? ==> value == mv && memory.State() == afterGet && disk.State() == old(disk.State())) &&
                (mv.None? && dv.Some? ==>
                   value == Some(dv.value.data) && disk.State() == afterDisk &&
                   memory.State() == SetState(afterGet, key, Wrapped(dv.value), memoryTTL, promotedSize, now, memory.maxSize)) &&
                (mv.None? && dv.None? ==> value.None? && memory.State() == afterGet && disk.State() == afterDisk)
    {
      if !enabled {
        return None;
      }
      GetFacts(memory.State(), key, now);
      value := memory.Get(key, now);
      if value.Some? {
        return;
      }
      DiskKeeps(disk.State(), key, Payload(""), diskTTL, now);
      var entry := disk.Get(key, diskTTL, now);
      if entry.Some? {
        SetFacts(memory.State(), key, Wrapped(entry.value), memoryTTL, promotedSize, now, memory.maxSize);
        memory.Set(key, Wrapped(entry.value), memoryTTL, promotedSize, now);
        return Some(entry.value.data);
      }
    }

    /** Set: memory always, disk as well (its failure is only logged). */
    method Set(key: string, d: Data, size: nat, now: int)
      requires Valid()
      modifies memory, disk
      ensures Valid()
      ensures !enabled ==> memory.State() == old(memory.State()) && disk.State() == old(disk.State())
      ensures enabled ==> memory.State() == SetState(old(memory.State()), key, d, memoryTTL, size, now, memory.maxSize) &&
                          disk.State() == DiskSet(old(disk.State()), key, d, diskTTL, now)
    {
      if !enabled {
        return;
      }
      SetFacts(memory.State(), key, d, memoryTTL, size, now, memory.maxSize);
      memory.Set(key, d, memoryTTL, size, now);
      DiskKeeps(disk.State(), key, d, diskTTL, now);
      var _ := disk.Set(key, d, diskTTL, now);
    }

    method Delete(key: string)
      requires Valid()
      modifies memory, disk
      ensures Valid()
      ensures !enabled ==> memory.State() == old(memory.State()) && disk.State() == old(disk.State())
      ensures enabled ==> memory.State() == DeleteState(old(memory.State()), key) &&
                          disk.State() == DiskDelete(old(disk.State()), key)
    {
      if !enabled {
        return;
      }
      DeleteFacts(memory.State(), key);
      memory.Delete(key);
      disk.Delete(key);
    }

    method Clear()
      requires Valid()
      modifies memory, disk
      ensures Valid()
      ensures !enabled ==> memory.State() == old(memory.State()) && disk.State() == old(disk.State())
      ensures enabled ==> memory.State() == Cleared && disk.State() == DiskState(map[], false)
    {
      if !enabled {
        return;
      }
      ClearedKeeps();
      memory.Clear();
      disk.Clear();
    }

    /** GetStats; `diskBytes` is the total size of the cache files. */
    method GetStats(diskBytes: nat) returns (stats: CacheStats)
      ensures !enabled ==> stats == NoStats
      ensures enabled ==> stats.memoryHits == IntSum(memory.data.Keys, HitCounts(memory.data)) &&
                          stats.entryCount == |memory.data| + |disk.files| &&
                          stats.diskHits == 0 && stats.misses == 0 &&
                          stats.hitRatio == (if stats.memoryHits > 0 then 1.0 else 0.0) &&
                          stats.memoryUsageMB == memory.currSize as real / MB as real &&
                          stats.diskUsageMB == diskBytes as real / MB as real
    {
      if !enabled {
        return NoStats;
      }
      var memoryStats := memory.GetStats();
      var diskStats := disk.GetStats(diskBytes);
      HitsNonneg(memory.data);
      stats := ServiceStats(memoryStats, diskStats);
    }

    /** One round of cleanupExpiredEntries at time `now`. */
    method CleanupExpiredEntries(now: int)
      requires Valid()
      modifies memory, disk
      ensures Valid()
      ensures memory.State() == SweepState(old(memory.State()), now)
      ensures disk.State() == DiskSweep(old(disk.State()), diskTTL, now)
    {
      SweepFacts(memory.State(), now);
      memory.Sweep(now);
      DiskKeeps(disk.State(), "", Payload(""), diskTTL, now);
      disk.Sweep(diskTTL, now);
    }
  }

  lemma {:induction false} WithoutNothing(s: seq<string>)
    ensures Without(s, {}) == s
    decreases |s|
  {
    if s != [] {
      WithoutNothing(s[1..]);
    }
  }

  lemma HitsNonneg(data: map<string, Entry>)
    ensures IntSum(data.Keys, HitCounts(data)) >= 0
  {
    IntSumNonneg(data.Keys, HitCounts(data));
  }

  /**
   * A disk hit is returned unwrapped, but what it promotes into memory is
   * the disk entry itself: asked again at once, the service answers with
   * the wrapper rather than the stored data.
   */
  lemma PromotedHitIsWrapped(st: MemState, key: string, e: Entry, memoryTTL: int, size: nat, now: int, maxSize: int)
    requires Inv(st) && memoryTTL >= 0
    ensures var promoted := SetState(st, key, Wrapped(e), memoryTTL, size, now, maxSize);
            GetState(promoted, key, now).0 == Some(Wrapped(e)) && Some(Wrapped(e)) != Some(e.data)
  {
    SetFacts(st, key, Wrapped(e), memoryTTL, size, now, maxSize);
    WrappedDiffers(e);
  }

  lemma WrappedDiffers(e: Entry)
    ensures Wrapped(e) != e.data
  {
    assert e.data < Wrapped(e);
  }
}
