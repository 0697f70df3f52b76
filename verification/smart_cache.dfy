/** The statistics-keeping cache of `CacheInteligente`: a key to (value, time) store with
    hit and miss counters kept by every read, and a timestamp map the class updates by
    hand beside it. Expiry and size-bounded eviction happen inside the cache library
    and are not modelled; clock readings are inputs. */
module SmartCache {
  import opened Wrappers

  /** `ValorConfiguracao`: a stored value and the time it was stored. */
  datatype Entry = Entry(value: string, storedAt: int)

  /** Everything the cache holds, as one value. */
  datatype State = State(entries: map<string, Entry>, timestamps: map<string, int>, hits: nat, misses: nat)

  const Empty := State(map[], map[], 0, 0)

  /** The library's `getIfPresent` with statistics on: a present key counts a hit, an
      absent one a miss. */
  function GetIfPresent(s: State, key: string): (State, Option<Entry>) {
    if key in s.entries then (s.(hits := s.hits + 1), Some(s.entries[key]))
    else (s.(misses := s.misses + 1), None)
  }

  /** `buscar`. */
  function Lookup(s: State, key: string): (State, Option<string>) {
    var (t, e) := GetIfPresent(s, key);
    (t, if e.Some? then Some(e.value.value) else None)
  }

  /** `contemChave`: the same library read, so it counts too. */
  function Probe(s: State, key: string): (State, bool) {
    var (t, e) := GetIfPresent(s, key);
    (t, e.Some?)
  }

  /** `armazenar`, with its two clock readings. */
  function Store(s: State, key: string, value: string, created: int, stamped: int): State {
    s.(entries := s.entries[key := Entry(value, created)], timestamps := s.timestamps[key := stamped])
  }

  /** `invalidar`. */
  function Invalidated(s: State, key: string): State {
    s.(entries := s.entries - {key}, timestamps := s.timestamps - {key})
  }

  /** `limparTudo`: both maps emptied; the statistics are kept. */
  function Cleared(s: State): State {
    s.(entries := map[], timestamps := map[])
  }

  /** The library's hit rate: hits over requests, and 1 before any request. */
  function HitRate(hits: nat, misses: nat): real {
    if hits + misses == 0 then 1.0 else hits as real / (hits + misses) as real
  }

  /** `health`: UP when the hit rate is above 0.7. */
  predicate IsUp(hits: nat, misses: nat) {
    HitRate(hits, misses) > 0.7
  }

  /** What `health` reports: the status and the counts it details. */
  datatype HealthReport = HealthReport(up: bool, size: nat, hitCount: nat, missCount: nat)

  /** The timestamp map names exactly the cached keys. */
  predicate Synced(s: State) {
    s.timestamps.Keys == s.entries.Keys
  }

  class Cache {
    var entries: map<string, Entry>
    var timestamps: map<string, int>
    var hits: nat
    var misses: nat

    ghost function Observe(): State
      reads this
    {
      State(entries, timestamps, hits, misses)
    }

    /** `inicializar`: an empty cache with no statistics. */
    constructor()
      ensures Observe() == Empty
    {
      entries, timestamps := map[], map[];
      hits, misses := 0, 0;
    }

    /** `buscar`. */
    method Get(key: string) returns (r: Option<string>)
      modifies this
      ensures (Observe(), r) == Lookup(old(Observe()), key)
    {
      if key in entries {
        hits := hits + 1;
        r := Some(entries[key].value);
      } else {
        misses := misses + 1;
        r := None;
      }
    }

    /** `armazenar`: `created` and `stamped` are the two clock readings. */
    method Put(key: string, value: string, created: int, stamped: int)
      modifies this
      ensures Observe() == Store(old(Observe()), key, value, created, stamped)
    {
      entries := entries[key := Entry(value, created)];
      timestamps := timestamps[key := stamped];
    }

    /** `invalidar`. */
    method Invalidate(key: string)
      modifies this
      ensures Observe() == Invalidated(old(Observe()), key)
    {
      entries := entries - {key};
      timestamps := timestamps - {key};
    }

    /** `limparTudo`. */
    method Clear()
      modifies this
      ensures Observe() == Cleared(old(Observe()))
    {
      entries := map[];
      timestamps := map[];
    }

    /** `contemChave`. */
    method ContainsKey(key: string) returns (b: bool)
      modifies this
      ensures (Observe(), b) == Probe(old(Observe()), key)
    {
      if key in entries {
        hits := hits + 1;
        b := true;
      } else {
        misses := misses + 1;
        b := false;
      }
    }

    /** `getTamanho`. */
    method Size() returns (n: nat)
      ensures n == |entries|
    {
      n := |entries|;
    }

    /** `getEstatisticas`: the hit and miss counts. */
    method Statistics() returns (hitCount: nat, missCount: nat)
      ensures hitCount == hits && missCount == misses
    {
      hitCount, missCount := hits, misses;
    }

    /** `health`. */
    method Health() returns (report: HealthReport)
      ensures report.up <==> IsUp(hits, misses)
      ensures report.size == |entries| && report.hitCount == hits && report.missCount == misses
    {
      var up := hits + misses == 0 || 10 * hits > 7 * (hits + misses);
      UpIffSeventyPercent(hits, misses);
      report := HealthReport(up, |entries|, hits, misses);
    }
  }

  // ----------------------------------------------------------- properties

  /** UP is the integer comparison 10 * hits > 7 * requests, or no request at all. */
  lemma UpIffSeventyPercent(hits: nat, misses: nat)
    ensures IsUp(hits, misses) <==> hits + misses == 0 || 10 * hits > 7 * (hits + misses)
  {
    var n := hits + misses;
    if n > 0 {
      var N, H := n as real, hits as real;
      assert HitRate(hits, misses) == H / N;
      QuotientAbove(H, N, 0.7);
      assert H > 0.7 * N <==> 10 * hits > 7 * n by {
        assert (10 * hits) as real == 10.0 * H;
        assert (7 * n) as real == 7.0 * N;
      }
    }
  }

  /** Over a positive denominator, a quotient exceeds `c` exactly when the numerator
      exceeds `c` times the denominator. */
  lemma QuotientAbove(x: real, y: real, c: real)
    requires y > 0.0
    ensures x / y > c <==> x > c * y
  {
    var q := x / y;
    assert q * y == x;
    assert (q - c) * y == x - c * y;
    SignOfProduct(q - c, y);
  }

  lemma SignOfProduct(x: real, y: real)
    requires y > 0.0
    ensures x * y > 0.0 <==> x > 0.0
  {
    if x > 0.0 {
      assert x * y > 0.0;
    } else {
      assert x * y <= 0.0;
    }
  }

  /** Every read counts exactly one request, as a hit exactly when the key is held. */
  lemma ReadCountsOnce(s: State, key: string)
    ensures var t := Lookup(s, key).0;
      && t.entries == s.entries && t.timestamps == s.timestamps
      && t.hits + t.misses == s.hits + s.misses + 1
      && (t.hits == s.hits + 1 <==> key in s.entries)
  {
  }

  /** A stored value is read back, as a hit. */
  lemma PutThenGet(s: State, key: string, value: string, created: int, stamped: int)
    ensures var (t, r) := Lookup(Store(s, key, value, created, stamped), key);
      r == Some(value) && t.hits == s.hits + 1 && t.misses == s.misses
    ensures key in Store(s, key, value, created, stamped).timestamps
  {
  }

  /** Storing twice under one key holds one entry for it, with the newer value. */
  lemma PutTwiceKeepsOne(s: State, key: string, v1: string, v2: string, c1: int, s1: int, c2: int, s2: int)
    ensures var t := Store(Store(s, key, v1, c1, s1), key, v2, c2, s2);
      && t.entries == s.entries[key := Entry(v2, c2)]
      && |t.entries| == (if key in s.entries then |s.entries| else |s.entries| + 1)
      && Lookup(t, key).1 == Some(v2)
  {
    var t := Store(Store(s, key, v1, c1, s1), key, v2, c2, s2);
    assert t.entries == s.entries[key := Entry(v2, c2)];
  }

  /** After invalidation the key is read as absent, probed as absent and has no
      timestamp; other keys keep their entries. */
  lemma InvalidateThenGet(s: State, key: string)
    ensures var t := Invalidated(s, key);
      && Lookup(t, key).1 == None && !Probe(t, key).1 && key !in t.timestamps
      && forall k :: k != key && k in s.entries ==> k in t.entries && t.entries[k] == s.entries[k]
  {
  }

  /** After clearing, every key is read as absent, the size is 0 and the timestamp map is
      empty. */
  lemma ClearThenGet(s: State)
    ensures var t := Cleared(s);
      && (forall k :: Lookup(t, k).1 == None && !Probe(t, k).1)
      && |t.entries| == 0 && t.timestamps == map[]
  {
  }

  /** `contemChave` answers yes exactly when `buscar` would find a value, and counts the
      same way. */
  lemma ProbeAgreesWithLookup(s: State, key: string)
    ensures Probe(s, key).1 <==> Lookup(s, key).1.Some?
    ensures Probe(s, key).0 == Lookup(s, key).0
  {
  }

  /** Every operation keeps the timestamp map naming exactly the cached keys. */
  lemma OperationsKeepSynced(s: State, key: string, value: string, created: int, stamped: int)
    requires Synced(s)
    ensures Synced(Lookup(s, key).0) && Synced(Probe(s, key).0)
    ensures Synced(Store(s, key, value, created, stamped))
    ensures Synced(Invalidated(s, key)) && Synced(Cleared(s))
  {
  }

  /** One store, one hit and one miss give a hit rate of 1/2, which reports DOWN. */
  lemma HalfHitRateIsDown(key: string, other: string, value: string, created: int, stamped: int)
    requires key != other
    ensures var s1 := Store(Empty, key, value, created, stamped);
      var (s2, r2) := Lookup(s1, key);
      var (s3, r3) := Lookup(s2, other);
      && r2 == Some(value) && r3 == None
      && HitRate(s3.hits, s3.misses) == 0.5 && !IsUp(s3.hits, s3.misses)
  {
    var s3 := Lookup(Lookup(Store(Empty, key, value, created, stamped), key).0, other).0;
    assert s3.hits == 1 && s3.misses == 1;
    UpIffSeventyPercent(1, 1);
  }
}
