/**
 * The configuration access coordinator: a cache-aside lookup over its own local map
 * `cacheLocal`, keyed by the canonical string `namespace:environment:key`, in front of
 * the configuration server. Failures never reach the caller: they come back as
 * absence (null) or as an empty map.
 */
module ClientService {
  import opened Wrappers
  import opened JavaLang
  import opened Settings
  import opened ConfigServer

  // ------------------------------------------------------------ canonical key

  /** The cache key of a (namespace, environment, key) triple. */
  function CanonicalKey(ns: string, env: string, key: string): string {
    ns + [':'] + env + [':'] + key
  }

  /** Cuts `s` at the first occurrence of `c`. */
  function CutAtFirst(s: string, c: char): (r: Option<(string, string)>)
    ensures r.None? <==> c !in s
    ensures r.Some? ==> c !in r.value.0 && s == r.value.0 + [c] + r.value.1
    decreases |s|
  {
    if s == [] then None
    else if s[0] == c then Some(([], s[1..]))
    else
      match CutAtFirst(s[1..], c)
      case None => None
      case Some(p) =>
        assert s == [s[0]] + s[1..];
        Some(([s[0]] + p.0, p.1))
  }

  /** Reads a canonical key back as a triple: up to the first ':', up to the next ':',
      and the rest. */
  function SplitCanonical(k: string): Option<(string, string, string)> {
    match CutAtFirst(k, ':')
    case None => None
    case Some(p) =>
      match CutAtFirst(p.1, ':')
      case None => None
      case Some(q) => Some((p.0, q.0, q.1))
  }

  lemma {:induction false} CutAtFirstOfJoin(a: string, c: char, b: string)
    requires c !in a
    ensures CutAtFirst(a + [c] + b, c) == Some((a, b))
    decreases |a|
  {
    if a != [] {
      assert (a + [c] + b)[1..] == a[1..] + [c] + b;
      CutAtFirstOfJoin(a[1..], c, b);
      assert [a[0]] + a[1..] == a;
    } else {
      assert (a + [c] + b)[1..] == b;
    }
  }

  /** With a namespace and an environment free of ':', the canonical key determines the
      triple it was built from. */
  lemma CanonicalKeyRoundTrip(ns: string, env: string, key: string)
    requires ':' !in ns && ':' !in env
    ensures SplitCanonical(CanonicalKey(ns, env, key)) == Some((ns, env, key))
  {
    assert CanonicalKey(ns, env, key) == ns + [':'] + (env + [':'] + key);
    CutAtFirstOfJoin(ns, ':', env + [':'] + key);
    CutAtFirstOfJoin(env, ':', key);
  }

  /** Distinct triples get distinct cache keys as long as namespaces and environments
      hold no ':'. */
  lemma CanonicalKeyInjective(ns1: string, env1: string, k1: string, ns2: string, env2: string, k2: string)
    requires ':' !in ns1 && ':' !in env1 && ':' !in ns2 && ':' !in env2
    ensures CanonicalKey(ns1, env1, k1) == CanonicalKey(ns2, env2, k2) <==> (ns1, env1, k1) == (ns2, env2, k2)
  {
    CanonicalKeyRoundTrip(ns1, env1, k1);
    CanonicalKeyRoundTrip(ns2, env2, k2);
  }

  /** A ':' inside a namespace or environment makes two triples share one cache slot. */
  lemma CanonicalKeyCollision()
    ensures CanonicalKey("a:b", "c", "k") == CanonicalKey("a", "b:c", "k")
  {
  }

  /** For one namespace and environment, different keys never share a cache slot. */
  lemma CanonicalKeySameScope(ns: string, env: string, k1: string, k2: string)
    ensures CanonicalKey(ns, env, k1) == CanonicalKey(ns, env, k2) ==> k1 == k2
  {
    var p := ns + [':'] + env + [':'];
    assert CanonicalKey(ns, env, k1) == p + k1 && CanonicalKey(ns, env, k2) == p + k2;
    if p + k1 == p + k2 {
      assert k1 == (p + k1)[|p|..];
    }
  }

  // ---------------------------------------------------------- single lookup

  /** What one lookup returns and what the local map becomes. */
  datatype Lookup = Lookup(value: Option<string>, cache: map<string, string>)

  /** A lookup is served from the local map when the cache is on and the canonical key
      is present. */
  predicate IsHit(cache: map<string, string>, enabled: bool, ns: string, env: string, key: string) {
    enabled && CanonicalKey(ns, env, key) in cache
  }

  /** A Java `String` key where the client writes it into the canonical key: string
      concatenation turns null into "null". */
  function KeyText(key: Option<string>): string {
    if key.Some? then key.value else "null"
  }

  /** A Java `String` key where the client writes it into the request path: a null URI
      template variable expands to the empty segment. */
  function UriSegment(key: Option<string>): string {
    if key.Some? then key.value else ""
  }

  /** `buscarValorConfiguracao(chave, namespace, environment)` for a key that may be
      null: a hit returns the cached value; a miss asks the server and keeps a found
      value when the cache is on; anything but a found value is null and leaves the map
      alone. */
  function LookupKey(cache: map<string, string>, enabled: bool, server: Server,
                     ns: string, env: string, key: Option<string>): Lookup
  {
    var k := CanonicalKey(ns, env, KeyText(key));
    if IsHit(cache, enabled, ns, env, KeyText(key)) then Lookup(Some(cache[k]), cache)
    else
      match server.fetchOne(ns, env, UriSegment(key))
      case Found(v) => Lookup(Some(v), if enabled then cache[k := v] else cache)
      case _ => Lookup(None, cache)
  }

  /** The lookup of a key that is not null. */
  function LookupFrom(cache: map<string, string>, enabled: bool, server: Server,
                      ns: string, env: string, key: string): Lookup
  {
    LookupKey(cache, enabled, server, ns, env, Some(key))
  }

  /** A null key is cached under "namespace:environment:null" but asked of the server as
      the empty key. */
  lemma NullKeyLookup(cache: map<string, string>, enabled: bool, server: Server, ns: string, env: string)
    ensures var l := LookupKey(cache, enabled, server, ns, env, None);
      var k := CanonicalKey(ns, env, "null");
      && (enabled && k in cache ==> l == Lookup(Some(cache[k]), cache))
      && (!(enabled && k in cache) ==>
            l == match server.fetchOne(ns, env, "")
                 case Found(v) => Lookup(Some(v), if enabled then cache[k := v] else cache)
                 case _ => Lookup(None, cache))
  {
  }

  /** A hit answers with the cached value whatever the server would say. */
  lemma HitIgnoresServer(cache: map<string, string>, enabled: bool, s1: Server, s2: Server,
                         ns: string, env: string, key: string)
    requires IsHit(cache, enabled, ns, env, key)
    ensures LookupFrom(cache, enabled, s1, ns, env, key) == LookupFrom(cache, enabled, s2, ns, env, key)
    ensures LookupFrom(cache, enabled, s1, ns, env, key).value == Some(cache[CanonicalKey(ns, env, key)])
  {
  }

  /** A miss returns the server's value; only a found value is stored, and only with
      the cache on; a failure or not-found is null and changes nothing. */
  lemma MissConsultsServer(cache: map<string, string>, enabled: bool, server: Server,
                           ns: string, env: string, key: string)
    requires !IsHit(cache, enabled, ns, env, key)
    ensures var l := LookupFrom(cache, enabled, server, ns, env, key);
      && (server.fetchOne(ns, env, key).Found? ==>
            l.value == Some(server.fetchOne(ns, env, key).value)
            && l.cache == (if enabled then cache[CanonicalKey(ns, env, key) := server.fetchOne(ns, env, key).value] else cache))
      && (!server.fetchOne(ns, env, key).Found? ==> l.value == None && l.cache == cache)
  {
  }

  /** Two lookups in a row: the second is a hit whenever the first found a value with
      the cache on, and both return the same value. */
  lemma SecondLookupHits(cache: map<string, string>, server: Server, ns: string, env: string, key: string)
    requires LookupFrom(cache, true, server, ns, env, key).value.Some?
    ensures var first := LookupFrom(cache, true, server, ns, env, key);
      && IsHit(first.cache, true, ns, env, key)
      && LookupFrom(first.cache, true, server, ns, env, key) == first
  {
  }

  /** A lookup of one triple does not change what a lookup of another triple returns,
      unless the two share a cache slot. */
  lemma LookupIndependent(cache: map<string, string>, enabled: bool, server: Server,
                          ns1: string, env1: string, k1: string, ns2: string, env2: string, k2: string)
    requires CanonicalKey(ns1, env1, k1) != CanonicalKey(ns2, env2, k2) || (ns1, env1, k1) == (ns2, env2, k2)
    ensures var after := LookupFrom(cache, enabled, server, ns2, env2, k2).cache;
      LookupFrom(after, enabled, server, ns1, env1, k1).value == LookupFrom(cache, enabled, server, ns1, env1, k1).value
  {
  }

  /** A refresh (remove, then look up) replaces whatever was cached under the key's
      canonical key by the server's current answer: the found value with the cache on,
      nothing otherwise. Every other key keeps its value. */
  lemma RefreshTakesServerValue(cache: map<string, string>, enabled: bool, server: Server,
                                ns: string, env: string, key: Option<string>)
    ensures var c := CanonicalKey(ns, env, KeyText(key));
      var after := LookupKey(cache - {c}, enabled, server, ns, env, key).cache;
      var reply := server.fetchOne(ns, env, UriSegment(key));
      && (enabled && reply.Found? ==> c in after && after[c] == reply.value)
      && (!(enabled && reply.Found?) ==> c !in after)
      && (forall k :: k != c ==> (k in after <==> k in cache))
      && (forall k :: k != c && k in cache ==> after[k] == cache[k])
  {
  }

  // ------------------------------------------------------------- bulk fetch

  /** The non-null entries of a server map. */
  function Present(entries: map<string, Option<string>>): map<string, string> {
    map k | k in entries && entries[k].Some? :: entries[k].value
  }

  predicate HasNull(entries: map<string, Option<string>>) {
    exists k :: k in entries && entries[k].None?
  }

  function Restrict(m: map<string, string>, keys: set<string>): map<string, string> {
    map k | k in m && k in keys :: m[k]
  }

  /** The server's raw keys moved under their canonical keys. */
  function Canonicalized(ns: string, env: string, entries: map<string, string>): (m: map<string, string>)
    ensures forall k :: k in entries ==> CanonicalKey(ns, env, k) in m && m[CanonicalKey(ns, env, k)] == entries[k]
  {
    forall k1, k2 | k1 in entries && k2 in entries && CanonicalKey(ns, env, k1) == CanonicalKey(ns, env, k2)
      ensures k1 == k2
    {
      CanonicalKeySameScope(ns, env, k1, k2);
    }
    map k | k in entries :: CanonicalKey(ns, env, k) := entries[k]
  }

  /** Every key of the canonicalized map comes from a raw key. */
  lemma CanonicalizedKeys(ns: string, env: string, entries: map<string, string>, c: string)
    requires c in Canonicalized(ns, env, entries)
    ensures exists k :: k in entries && c == CanonicalKey(ns, env, k)
  {
  }

  lemma CanonicalizedInsert(ns: string, env: string, entries: map<string, string>, k: string, v: string)
    ensures Canonicalized(ns, env, entries[k := v]) == Canonicalized(ns, env, entries)[CanonicalKey(ns, env, k) := v]
  {
    var a := Canonicalized(ns, env, entries[k := v]);
    var b := Canonicalized(ns, env, entries)[CanonicalKey(ns, env, k) := v];
    forall c | c in a ensures c in b && a[c] == b[c] {
      CanonicalizedKeys(ns, env, entries[k := v], c);
      var j :| j in entries[k := v] && c == CanonicalKey(ns, env, j);
      CanonicalKeySameScope(ns, env, j, k);
    }
    forall c | c in b ensures c in a {
      if c != CanonicalKey(ns, env, k) {
        CanonicalizedKeys(ns, env, entries, c);
        var j :| j in entries && c == CanonicalKey(ns, env, j);
      }
    }
  }

  /** The state of a bulk merge part-way: the raw keys in `merged` are put, those in
      `todo` are still to come. */
  ghost predicate MergeInvariant(cache: map<string, string>, base: map<string, string>, ns: string, env: string,
                                 entries: map<string, Option<string>>, todo: set<string>, merged: set<string>)
  {
    && todo !! merged && todo + merged == entries.Keys
    && merged <= Present(entries).Keys
    && cache == base + Canonicalized(ns, env, Restrict(Present(entries), merged))
  }

  /** One more entry put during a bulk merge. */
  lemma MergeStep(cache: map<string, string>, base: map<string, string>, ns: string, env: string,
                  entries: map<string, Option<string>>, todo: set<string>, merged: set<string>, k: string)
    requires MergeInvariant(cache, base, ns, env, entries, todo, merged)
    requires k in todo && entries[k].Some?
    ensures MergeInvariant(cache[CanonicalKey(ns, env, k) := entries[k].value], base, ns, env, entries,
                           todo - {k}, merged + {k})
  {
    var p := Present(entries);
    assert k in p && p[k] == entries[k].value;
    MergeCacheStep(cache, base, ns, env, p, merged, k);
    MergeKeysStep(entries.Keys, p.Keys, todo, merged, k);
  }

  lemma MergeKeysStep(all: set<string>, present: set<string>, todo: set<string>, merged: set<string>, k: string)
    requires todo !! merged && todo + merged == all && merged <= present
    requires k in todo && k in present
    ensures todo - {k} !! merged + {k} && (todo - {k}) + (merged + {k}) == all && merged + {k} <= present
  {
  }

  lemma MergeCacheStep(cache: map<string, string>, base: map<string, string>, ns: string, env: string,
                       p: map<string, string>, merged: set<string>, k: string)
    requires cache == base + Canonicalized(ns, env, Restrict(p, merged))
    requires k in p
    ensures cache[CanonicalKey(ns, env, k) := p[k]] == base + Canonicalized(ns, env, Restrict(p, merged + {k}))
  {
    var before := Restrict(p, merged);
    RestrictInsert(p, merged, k);
    CanonicalizedInsert(ns, env, before, k, p[k]);
    UpdateAfterUnion(base, Canonicalized(ns, env, before), CanonicalKey(ns, env, k), p[k]);
  }

  lemma UpdateAfterUnion<K, V>(a: map<K, V>, b: map<K, V>, c: K, v: V)
    ensures (a + b)[c := v] == a + b[c := v]
  {
  }

  lemma RestrictInsert(m: map<string, string>, keys: set<string>, k: string)
    requires k in m
    ensures Restrict(m, keys + {k}) == Restrict(m, keys)[k := m[k]]
  {
  }

  /** A merge that ran through every entry met no null. */
  lemma MergeComplete(entries: map<string, Option<string>>, merged: set<string>)
    requires merged == entries.Keys && merged <= Present(entries).Keys
    ensures !HasNull(entries)
  {
  }

  /** The answer a bulk reply carries for the merge: its non-null entries, or nothing. */
  function Loaded(reply: BulkReply): map<string, string> {
    if reply.Body? then Present(reply.entries) else map[]
  }

  /** What a bulk fetch hands back to its caller: the server's map, or an empty map
      when the request failed, there was no body, or the merge threw on a null. */
  function BulkAnswer(cacheEnabled: bool, reply: BulkReply): map<string, Option<string>> {
    if reply.Body? && !(cacheEnabled && HasNull(reply.entries)) then reply.entries else map[]
  }

  /** The raw keys a bulk fetch may have put into the local map: none without a body or
      with the cache off, every one when no value is null, some of the non-null ones
      otherwise. */
  ghost predicate MergedFrom(cacheEnabled: bool, reply: BulkReply, merged: set<string>) {
    && merged <= Loaded(reply).Keys
    && (!(reply.Body? && cacheEnabled) ==> merged == {})
    && (reply.Body? && cacheEnabled && !HasNull(reply.entries) ==> merged == reply.entries.Keys)
  }

  /** Every canonical key holds the separator. */
  lemma CanonicalKeysHaveSeparator(ns: string, env: string, entries: map<string, string>)
    ensures forall c :: c in Canonicalized(ns, env, entries) ==> ':' in c
  {
    forall c | c in Canonicalized(ns, env, entries) ensures ':' in c {
      CanonicalizedKeys(ns, env, entries, c);
      var k :| k in entries && c == CanonicalKey(ns, env, k);
      assert c[|ns|] == ':';
    }
  }

  // -------------------------------------------------------------- the client

  class ConfigClient {
    const props: Properties
    var cacheLocal: map<string, string>
    /** Every data request sent to the server, in order. */
    ghost var requests: seq<Request>

    constructor(props: Properties)
      ensures this.props == props && cacheLocal == map[] && requests == []
    {
      this.props := props;
      cacheLocal := map[];
      requests := [];
    }

    /** `buscarValorConfiguracao(chave, namespace, environment)`; the key may be null. */
    method Fetch(key: Option<string>, ns: string, env: string, server: Server) returns (r: Option<string>)
      modifies this
      ensures var l := LookupKey(old(cacheLocal), props.cacheEnabled, server, ns, env, key);
        r == l.value && cacheLocal == l.cache
      ensures requests == old(requests) +
        (if IsHit(old(cacheLocal), props.cacheEnabled, ns, env, KeyText(key)) then [] else [One(ns, env, UriSegment(key))])
    {
      var k := CanonicalKey(ns, env, KeyText(key));
      if props.cacheEnabled && k in cacheLocal {
        return Some(cacheLocal[k]);
      }
      requests := requests + [One(ns, env, UriSegment(key))];
      var reply := server.fetchOne(ns, env, UriSegment(key));
      if reply.Found? {
        if props.cacheEnabled {
          cacheLocal := cacheLocal[k := reply.value];
        }
        r := Some(reply.value);
      } else {
        r := None;
      }
    }

    /** `buscarValorConfiguracao(chave)`: the lookup in the client's own namespace and
        environment. */
    method FetchDefault(key: string, server: Server) returns (r: Option<string>)
      modifies this
      ensures var l := LookupFrom(old(cacheLocal), props.cacheEnabled, server, props.namespace, props.environment, key);
        r == l.value && cacheLocal == l.cache
      ensures requests == old(requests) +
        (if IsHit(old(cacheLocal), props.cacheEnabled, props.namespace, props.environment, key) then []
         else [One(props.namespace, props.environment, key)])
    {
      r := Fetch(Some(key), props.namespace, props.environment, server);
    }

    /** `buscarValorConfiguracao(chave, valorPadrao)`: the fallback exactly when the
        default-scope lookup is null. */
    method FetchOrDefault(key: string, fallback: string, server: Server) returns (r: string)
      modifies this
      ensures var l := LookupFrom(old(cacheLocal), props.cacheEnabled, server, props.namespace, props.environment, key);
        && (l.value.None? ==> r == fallback)
        && (l.value.Some? ==> r == l.value.value)
        && cacheLocal == l.cache
      ensures requests == old(requests) +
        (if IsHit(old(cacheLocal), props.cacheEnabled, props.namespace, props.environment, key) then []
         else [One(props.namespace, props.environment, key)])
    {
      var v := FetchDefault(key, server);
      r := v.GetOr(fallback);
    }

    /** The `forEach` of `buscarTodasConfiguracoes`: puts each entry under its canonical
        key, in the map's iteration order. A JSON null value makes the put throw, which
        ends the merge after the entries already put. `merged` names the raw keys that
        were put. */
    method MergeEntries(ns: string, env: string, entries: map<string, Option<string>>)
      returns (ok: bool, ghost merged: set<string>)
      modifies this`cacheLocal
      ensures ok <==> !HasNull(entries)
      ensures merged <= Present(entries).Keys
      ensures ok ==> merged == entries.Keys
      ensures cacheLocal == old(cacheLocal) + Canonicalized(ns, env, Restrict(Present(entries), merged))
    {
      var todo := entries.Keys;
      merged := {};
      assert Restrict(Present(entries), merged) == map[];
      while todo != {}
        invariant MergeInvariant(cacheLocal, old(cacheLocal), ns, env, entries, todo, merged)
        decreases todo
      {
        var k :| k in todo;
        if entries[k].None? {
          assert HasNull(entries);
          return false, merged;
        }
        MergeStep(cacheLocal, old(cacheLocal), ns, env, entries, todo, merged, k);
        cacheLocal := cacheLocal[CanonicalKey(ns, env, k) := entries[k].value];
        todo := todo - {k};
        merged := merged + {k};
      }
      MergeComplete(entries, merged);
      ok := true;
    }

    /** `buscarTodasConfiguracoes(namespace, environment)`: the server's map, merged
        into the local map when the cache is on; an empty map when the request fails,
        there is no body, or the merge throws on a null value. */
    method FetchAll(ns: string, env: string, server: Server)
      returns (configs: map<string, Option<string>>, ghost merged: set<string>)
      modifies this
      ensures requests == old(requests) + [Bulk(ns, env)]
      ensures merged <= Loaded(server.fetchBulk(ns, env)).Keys
      ensures cacheLocal == old(cacheLocal) + Canonicalized(ns, env, Restrict(Loaded(server.fetchBulk(ns, env)), merged))
      ensures !(server.fetchBulk(ns, env).Body? && props.cacheEnabled) ==> merged == {}
      ensures var reply := server.fetchBulk(ns, env);
        reply.Body? && props.cacheEnabled && !HasNull(reply.entries) ==> merged == reply.entries.Keys
      ensures var reply := server.fetchBulk(ns, env);
        configs == (if reply.Body? && !(props.cacheEnabled && HasNull(reply.entries)) then reply.entries else map[])
    {
      requests := requests + [Bulk(ns, env)];
      var reply := server.fetchBulk(ns, env);
      merged := {};
      assert Restrict(Loaded(reply), merged) == map[];
      if !reply.Body? {
        return map[], merged;
      }
      if !props.cacheEnabled {
        return reply.entries, merged;
      }
      var ok;
      ok, merged := MergeEntries(ns, env, reply.entries);
      configs := if ok then reply.entries else map[];
    }

    /** `buscarTodasConfiguracoes()`: the bulk fetch for the client's own scope. */
    method FetchAllDefault(server: Server) returns (configs: map<string, Option<string>>, ghost merged: set<string>)
      modifies this
      ensures requests == old(requests) + [Bulk(props.namespace, props.environment)]
      ensures var reply := server.fetchBulk(props.namespace, props.environment);
        && merged <= Loaded(reply).Keys
        && cacheLocal == old(cacheLocal) + Canonicalized(props.namespace, props.environment, Restrict(Loaded(reply), merged))
        && (!(reply.Body? && props.cacheEnabled) ==> merged == {})
        && (reply.Body? && props.cacheEnabled && !HasNull(reply.entries) ==> merged == reply.entries.Keys)
        && configs == (if reply.Body? && !(props.cacheEnabled && HasNull(reply.entries)) then reply.entries else map[])
    {
      configs, merged := FetchAll(props.namespace, props.environment, server);
    }

    /** `atualizarConfiguracao(chave, namespace, environment)`: drop the canonical key,
        then look the key up again (always a server request); the key may be null. */
    method Refresh(key: Option<string>, ns: string, env: string, server: Server)
      modifies this
      ensures cacheLocal == LookupKey(old(cacheLocal) - {CanonicalKey(ns, env, KeyText(key))}, props.cacheEnabled, server,
                                      ns, env, key).cache
      ensures requests == old(requests) + [One(ns, env, UriSegment(key))]
    {
      cacheLocal := cacheLocal - {CanonicalKey(ns, env, KeyText(key))};
      var _ := Fetch(key, ns, env, server);
    }

    /** `atualizarConfiguracao(chave)`. */
    method RefreshDefault(key: string, server: Server)
      modifies this
      ensures cacheLocal == LookupFrom(old(cacheLocal) - {CanonicalKey(props.namespace, props.environment, key)},
                                       props.cacheEnabled, server, props.namespace, props.environment, key).cache
      ensures requests == old(requests) + [One(props.namespace, props.environment, key)]
    {
      Refresh(Some(key), props.namespace, props.environment, server);
    }

    /** `atualizarTodasConfiguracoes()`: clear the whole map (every scope), then bulk
        load the client's own scope. */
    method RefreshAll(server: Server) returns (ghost merged: set<string>)
      modifies this
      ensures requests == old(requests) + [Bulk(props.namespace, props.environment)]
      ensures var reply := server.fetchBulk(props.namespace, props.environment);
        && merged <= Loaded(reply).Keys
        && cacheLocal == Canonicalized(props.namespace, props.environment, Restrict(Loaded(reply), merged))
        && (!(reply.Body? && props.cacheEnabled) ==> merged == {})
        && (reply.Body? && props.cacheEnabled && !HasNull(reply.entries) ==> merged == reply.entries.Keys)
    {
      cacheLocal := map[];
      var _, m := FetchAllDefault(server);
      merged := m;
    }

    /** `isServidorConfigDisponivel()`: up exactly when the health endpoint answers a
        body containing "UP"; no state changes. */
    method IsServerAvailable(server: Server) returns (up: bool)
      ensures up <==> server.health.HealthBody? && exists i :: OccursAt(server.health.text, "UP", i)
    {
      match server.health
      case HealthBody(text) => up := Contains(text, "UP");
      case _ => up := false;
    }

    /** `obterCacheLocal()`: a copy of the map (a value, so later changes to either side
        do not reach the other). */
    method Snapshot() returns (copy: map<string, string>)
      ensures copy == cacheLocal
    {
      copy := cacheLocal;
    }

    /** `limparCache()`. */
    method ClearCache()
      modifies this
      ensures cacheLocal == map[] && requests == old(requests)
    {
      cacheLocal := map[];
    }
  }

  /** After a bulk reload with the cache on and a body without nulls, every server
      entry is cached under its canonical key and nothing else is. */
  lemma RefreshAllLoadsExactly(reply: BulkReply, ns: string, env: string)
    requires reply.Body? && !HasNull(reply.entries)
    ensures var c := Canonicalized(ns, env, Restrict(Loaded(reply), reply.entries.Keys));
      && (forall k :: k in reply.entries ==> c[CanonicalKey(ns, env, k)] == reply.entries[k].value)
      && (forall x :: x in c ==> exists k :: k in reply.entries && x == CanonicalKey(ns, env, k))
  {
    var r := Restrict(Loaded(reply), reply.entries.Keys);
    forall k | k in reply.entries ensures k in r && r[k] == reply.entries[k].value {
      assert reply.entries[k].Some?;
    }
  }

  /** The unit scenario: a found value, looked up twice with the cache on, is requested
      from the server once and then sits under "teste:dev:teste.chave". */
  method LookupTwiceScenario(server: Server)
    requires server.fetchOne("teste", "dev", "teste.chave") == Found("teste.valor")
  {
    var client := new ConfigClient(Properties("teste", "dev", true, true));
    var r1 := client.FetchDefault("teste.chave", server);
    var r2 := client.FetchDefault("teste.chave", server);
    assert CanonicalKey("teste", "dev", "teste.chave") == "teste:dev:teste.chave";
    assert r1 == r2 == Some("teste.valor");
    assert |client.requests| == 1;
    assert client.cacheLocal["teste:dev:teste.chave"] == "teste.valor";
  }
}
