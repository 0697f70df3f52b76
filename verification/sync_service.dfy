/** The periodic reconciliation of `ServicoSincronizacaoConfiguracao`: a two-field state
    machine (was the server up at the last tick, when did the last tick succeed) driving
    the coordinator's bulk operations. The clock is an input. */
module SyncService {
  import opened Wrappers
  import opened JavaLang
  import opened Settings
  import opened ConfigServer
  import opened ClientService

  // ------------------------------------------------------------------ the diff

  /** The local map disagrees with a (non-null) server value under the same key. The
      key is looked up as it stands: the server's raw key, not its canonical key. */
  predicate Differs(value: string, local: map<string, string>, k: string) {
    k !in local || local[k] != value
  }

  /** The keys among `keys` whose non-null server value differs from the local map. */
  function Differing(server: map<string, Option<string>>, local: map<string, string>, keys: set<string>): set<string> {
    set k | k in keys && k in server && server[k].Some? && Differs(server[k].value, local, k)
  }

  /** What the counting loop of `sincronizarSeNecessario` ends with: the number of
      differing entries, or nothing when a null server value makes the comparison throw. */
  function Differences(server: map<string, Option<string>>, local: map<string, string>): Option<nat> {
    if HasNull(server) then None else Some(|Differing(server, local, server.Keys)|)
  }

  /** Every server entry is present, with the same value, under the same key locally. */
  predicate InSync(server: map<string, Option<string>>, local: map<string, string>) {
    forall k :: k in server ==> server[k].Some? && k in local && local[k] == server[k].value
  }

  lemma DifferingStep(server: map<string, Option<string>>, local: map<string, string>, done: set<string>, k: string)
    requires k in server && server[k].Some? && k !in done
    ensures Differing(server, local, done + {k})
         == Differing(server, local, done) + (if Differs(server[k].value, local, k) then {k} else {})
    ensures |Differing(server, local, done + {k})|
         == |Differing(server, local, done)| + (if Differs(server[k].value, local, k) then 1 else 0)
  {
    assert k !in Differing(server, local, done);
  }

  /** The counting loop part-way: the keys `seen` are checked, none of them null, and
      `count` of them differ; the keys `todo` remain. */
  predicate Counted(server: map<string, Option<string>>, local: map<string, string>, seen: set<string>,
                    todo: set<string>, count: nat)
  {
    && seen !! todo && seen + todo == server.Keys
    && (forall k :: k in seen ==> server[k].Some?)
    && count == |Differing(server, local, seen)|
  }

  /** One more non-null key checked. */
  lemma CountedStep(server: map<string, Option<string>>, local: map<string, string>, seen: set<string>,
                    todo: set<string>, count: nat, k: string)
    requires Counted(server, local, seen, todo, count) && k in todo && server[k].Some?
    ensures Counted(server, local, seen + {k}, todo - {k}, count + if Differs(server[k].value, local, k) then 1 else 0)
  {
    DifferingStep(server, local, seen, k);
  }

  /** The counting loop: walks the server's entries, counting those whose value differs
      from the local map's value under the raw key; a null value throws and ends the
      check with no count. */
  method CountDifferences(server: map<string, Option<string>>, local: map<string, string>) returns (r: Option<nat>)
    ensures r == Differences(server, local)
  {
    var todo := server.Keys;
    ghost var seen: set<string> := {};
    var count := 0;
    assert Differing(server, local, {}) == {};
    while todo != {}
      invariant Counted(server, local, seen, todo, count)
      decreases todo
    {
      var k :| k in todo;
      if server[k].None? {
        assert HasNull(server);
        return None;
      }
      CountedStep(server, local, seen, todo, count, k);
      if Differs(server[k].value, local, k) {
        count := count + 1;
      }
      seen := seen + {k};
      todo := todo - {k};
    }
    r := Some(count);
  }

  /** No difference is counted exactly when every server entry is already held, with
      the same value, under the same key. */
  lemma NoDifferencesIffInSync(server: map<string, Option<string>>, local: map<string, string>)
    ensures Differences(server, local) == Some(0) <==> InSync(server, local)
  {
    if InSync(server, local) {
      assert !HasNull(server);
      assert Differing(server, local, server.Keys) == {};
    }
    if Differences(server, local) == Some(0) {
      forall k | k in server ensures server[k].Some? && k in local && local[k] == server[k].value {
        assert k !in Differing(server, local, server.Keys);
      }
    }
  }

  /** Raw keys never meet canonical keys: when no server key holds ':' and every local
      key does, every server entry counts as a difference. */
  lemma RawKeysAlwaysDiffer(server: map<string, Option<string>>, local: map<string, string>)
    requires !HasNull(server)
    requires forall k :: k in server ==> ':' !in k
    requires forall k :: k in local ==> ':' in k
    ensures Differences(server, local) == Some(|server|)
  {
    assert Differing(server, local, server.Keys) == server.Keys;
  }

  // --------------------------------------------------------------- one tick

  /** The synchronizer's observable state together with the coordinator's. */
  datatype Observed = Observed(serverUp: bool, lastSync: int, cache: map<string, string>, requests: seq<Request>)

  /** The health check of `isServidorConfigDisponivel`. */
  ghost predicate HealthUp(h: HealthReply) {
    h.HealthBody? && exists i :: OccursAt(h.text, "UP", i)
  }

  /** The local map after `atualizarTodasConfiguracoes`: cleared, then loaded with the
      raw keys `merged` of the default scope's bulk reply. */
  ghost predicate Reloaded(props: Properties, reply: BulkReply, merged: set<string>, cache: map<string, string>) {
    && MergedFrom(props.cacheEnabled, reply, merged)
    && cache == Canonicalized(props.namespace, props.environment, Restrict(Loaded(reply), merged))
  }

  /** One run of `sincronizarConfiguracoes` at time `now`, from `s` to `t`. The health
      probe and the tick's first bulk request are answered by `server`; the full reload
      that follows a diff is a request of its own, answered by `again` (the server may
      have changed or failed in between). `fetched` are the raw keys the diff's bulk
      fetch merged, `reloaded` those a full reload put. */
  ghost predicate TickStep(props: Properties, server: Server, again: Server, now: int, s: Observed, t: Observed,
                           fetched: set<string>, reloaded: set<string>)
  {
    var bulk := Bulk(props.namespace, props.environment);
    var reply := server.fetchBulk(props.namespace, props.environment);
    if !props.syncEnabled then
      t == s
    else if !HealthUp(server.health) then
      t == s.(serverUp := false)
    else if !s.serverUp then
      && t.serverUp && t.lastSync == now
      && Reloaded(props, reply, reloaded, t.cache)
      && t.requests == s.requests + [bulk]
    else
      var mid := s.cache + Canonicalized(props.namespace, props.environment, Restrict(Loaded(reply), fetched));
      var d := Differences(BulkAnswer(props.cacheEnabled, reply), mid);
      && MergedFrom(props.cacheEnabled, reply, fetched)
      && t.serverUp && t.lastSync == now
      && if d.Some? && d.value > 0 then
           && Reloaded(props, again.fetchBulk(props.namespace, props.environment), reloaded, t.cache)
           && t.requests == s.requests + [bulk, bulk]
         else
           t.cache == mid && t.requests == s.requests + [bulk]
  }

  class Synchronizer {
    const client: ConfigClient
    var lastServerUp: bool
    var lastSync: int

    constructor(client: ConfigClient)
      ensures this.client == client && !lastServerUp && lastSync == 0
    {
      this.client := client;
      lastServerUp := false;
      lastSync := 0;
    }

    ghost function Observe(): Observed
      reads this, client
    {
      Observed(lastServerUp, lastSync, client.cacheLocal, client.requests)
    }

    /** `sincronizarConfiguracoes`; `again` answers the reload after a diff. */
    method Tick(server: Server, again: Server, now: int) returns (ghost fetched: set<string>, ghost reloaded: set<string>)
      modifies this, client
      ensures TickStep(client.props, server, again, now, old(Observe()), Observe(), fetched, reloaded)
    {
      fetched, reloaded := {}, {};
      if !client.props.syncEnabled {
        return;
      }
      var up := client.IsServerAvailable(server);
      if up {
        if !lastServerUp {
          reloaded := client.RefreshAll(server);
        } else {
          fetched, reloaded := SyncIfNeeded(server, again);
        }
        lastServerUp := true;
        lastSync := now;
      } else {
        lastServerUp := false;
      }
    }

    /** `sincronizarSeNecessario`: bulk fetch (which merges), snapshot, count the
        differences, and reload everything (a second request, answered by `again`) when
        there is at least one. */
    method SyncIfNeeded(server: Server, again: Server) returns (ghost fetched: set<string>, ghost reloaded: set<string>)
      modifies client
      ensures var props := client.props;
        var bulk := Bulk(props.namespace, props.environment);
        var reply := server.fetchBulk(props.namespace, props.environment);
        var mid := old(client.cacheLocal) + Canonicalized(props.namespace, props.environment, Restrict(Loaded(reply), fetched));
        var d := Differences(BulkAnswer(props.cacheEnabled, reply), mid);
        && MergedFrom(props.cacheEnabled, reply, fetched)
        && if d.Some? && d.value > 0 then
             && Reloaded(props, again.fetchBulk(props.namespace, props.environment), reloaded, client.cacheLocal)
             && client.requests == old(client.requests) + [bulk, bulk]
           else
             client.cacheLocal == mid && client.requests == old(client.requests) + [bulk]
    {
      reloaded := {};
      var configs;
      configs, fetched := client.FetchAllDefault(server);
      var local := client.Snapshot();
      var d := CountDifferences(configs, local);
      if d.Some? && d.value > 0 {
        reloaded := client.RefreshAll(again);
      }
    }

    /** `forcarSincronizacaoAgora`: exactly one tick. */
    method ForceSyncNow(server: Server, again: Server, now: int) returns (ghost fetched: set<string>, ghost reloaded: set<string>)
      modifies this, client
      ensures TickStep(client.props, server, again, now, old(Observe()), Observe(), fetched, reloaded)
    {
      fetched, reloaded := Tick(server, again, now);
    }

    /** `isServidorDisponivel`. */
    method IsServerAvailable() returns (up: bool)
      ensures up == lastServerUp
    {
      up := lastServerUp;
    }

    /** `getUltimaSincronizacao`. */
    method LastSync() returns (t: int)
      ensures t == lastSync
    {
      t := lastSync;
    }
  }

  // ------------------------------------------------------- properties of a tick

  /** A tick leaves every local key holding ':' when every key held one before: the
      local map only ever receives canonical keys. */
  lemma TickKeepsCanonicalKeys(props: Properties, server: Server, again: Server, now: int, s: Observed, t: Observed,
                               fetched: set<string>, reloaded: set<string>)
    requires TickStep(props, server, again, now, s, t, fetched, reloaded)
    requires forall k :: k in s.cache ==> ':' in k
    ensures forall k :: k in t.cache ==> ':' in k
  {
    var reply := server.fetchBulk(props.namespace, props.environment);
    CanonicalKeysHaveSeparator(props.namespace, props.environment, Restrict(Loaded(reply), fetched));
    CanonicalKeysHaveSeparator(props.namespace, props.environment, Restrict(Loaded(reply), reloaded));
    CanonicalKeysHaveSeparator(props.namespace, props.environment,
                               Restrict(Loaded(again.fetchBulk(props.namespace, props.environment)), reloaded));
  }

  /** A steady tick whose first bulk reply is a non-empty map without nulls and whose
      keys hold no ':' always reloads, even when the local map already holds every server
      entry under its canonical key: the diff looks the raw keys up among canonical ones
      and finds none. The map then holds what the reload's own reply gives: its entries
      when it is a map without nulls, nothing at all when it fails or has no body. */
  lemma SteadyTickAlwaysReloads(props: Properties, server: Server, again: Server, now: int, s: Observed, t: Observed,
                                fetched: set<string>, reloaded: set<string>)
    requires TickStep(props, server, again, now, s, t, fetched, reloaded)
    requires props.syncEnabled && HealthUp(server.health) && s.serverUp
    requires var reply := server.fetchBulk(props.namespace, props.environment);
      && reply.Body? && !HasNull(reply.entries) && |reply.entries| > 0
      && forall k :: k in reply.entries ==> ':' !in k
    requires forall k :: k in s.cache ==> ':' in k
    ensures t.requests == s.requests + [Bulk(props.namespace, props.environment), Bulk(props.namespace, props.environment)]
    ensures var second := again.fetchBulk(props.namespace, props.environment);
      second.Body? && !HasNull(second.entries) ==>
        t.cache == if props.cacheEnabled then Canonicalized(props.namespace, props.environment, Present(second.entries)) else map[]
    ensures !again.fetchBulk(props.namespace, props.environment).Body? ==> t.cache == map[]
  {
    var reply := server.fetchBulk(props.namespace, props.environment);
    var mid := s.cache + Canonicalized(props.namespace, props.environment, Restrict(Loaded(reply), fetched));
    CanonicalKeysHaveSeparator(props.namespace, props.environment, Restrict(Loaded(reply), fetched));
    RawKeysAlwaysDiffer(BulkAnswer(props.cacheEnabled, reply), mid);
    ReloadContents(props, again.fetchBulk(props.namespace, props.environment), reloaded, t.cache);
  }

  /** What a reload leaves: the entries of a reply without nulls (none with the cache
      off), and nothing after a failure or an empty answer. */
  lemma ReloadContents(props: Properties, reply: BulkReply, reloaded: set<string>, cache: map<string, string>)
    requires Reloaded(props, reply, reloaded, cache)
    ensures reply.Body? && !HasNull(reply.entries) ==>
      cache == if props.cacheEnabled then Canonicalized(props.namespace, props.environment, Present(reply.entries)) else map[]
    ensures !reply.Body? ==> cache == map[]
  {
    if reply.Body? && !HasNull(reply.entries) && props.cacheEnabled {
      assert Restrict(Loaded(reply), reloaded) == Present(reply.entries);
    } else if !(reply.Body? && props.cacheEnabled) {
      assert Restrict(Loaded(reply), reloaded) == map[];
    }
  }
}
