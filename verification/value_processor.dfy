/** The binding registry of `ProcessadorValorConfiguracao`: annotated fields of beans are
    filled from the coordinator when a bean is registered, and the refreshable ones are
    filled again when a matching change event arrives. Reflection becomes a map from
    (bean, field) to the value the field holds. */
module ValueProcessor {
  import opened Wrappers
  import opened JavaLang
  import opened Settings
  import opened ConfigServer
  import opened ClientService
  import opened ChangeListener

  type BeanId = string
  type FieldId = string

  /** `@ValorConfiguracao`: the key (`value`) and the five optional elements. */
  datatype Binding = Binding(value: string, defaultValue: string, namespace: string, environment: string,
                             required: bool, refreshable: bool)

  /** An annotation that gives only its key: every other element at its default. */
  function Annotation(key: string): Binding {
    Binding(key, "", "", "", false, false)
  }

  /** The declared type of a field, as far as `converterValor` tells them apart; the
      floating-point types and every other type are handed to a library conversion. */
  datatype FieldType = TextField | IntField | LongField | BoolField | LibraryField(typeName: string)

  /** A field as reflection lists it: its identity, its type and its annotation, if any. */
  datatype DeclaredField = DeclaredField(id: FieldId, ftype: FieldType, annotation: Option<Binding>)

  /** A registered field: its type and its annotation. */
  datatype Slot = Slot(ftype: FieldType, binding: Binding)

  /** How one injection ends: a value written to the field, the field left alone, or an
      error thrown to the caller. */
  datatype Injection = Write(v: Value) | Keep | Fail

  // ------------------------------------------------------------ resolution

  /** The scope a binding is looked up in: its own only when both namespace and
      environment are given, the client's defaults otherwise. */
  function Scope(props: Properties, b: Binding): (string, string) {
    if b.namespace != "" && b.environment != "" then (b.namespace, b.environment)
    else (props.namespace, props.environment)
  }

  /** `converterValor`: the text itself for a String field, the Java parsers for the
      integer and boolean types, the library (Jackson or a floating-point parser) for
      the rest; None when the conversion throws. */
  function Convert(ftype: FieldType, s: string, library: (string, string) -> Option<Value>): Option<Value> {
    match ftype
    case TextField => Some(Text(s))
    case IntField => if ParseInt(s).Some? then Some(Int(ParseInt(s).value)) else None
    case LongField => if ParseLong(s).Some? then Some(Int(ParseLong(s).value)) else None
    case BoolField => Some(Bool(ParseBoolean(s)))
    case LibraryField(name) => library(name, s)
  }

  /** `injetarValorConfiguracao` once the lookup has answered `found`: a null answer
      falls back to the default value; a non-empty value is converted and written; an
      empty value or a failed conversion throws when the binding is required and is
      swallowed otherwise. */
  function Decide(found: Option<string>, slot: Slot, library: (string, string) -> Option<Value>): Injection {
    var resolved := found.GetOr(slot.binding.defaultValue);
    if resolved != "" && Convert(slot.ftype, resolved, library).Some? then
      Write(Convert(slot.ftype, resolved, library).value)
    else if slot.binding.required then Fail
    else Keep
  }

  /** The lookup a binding performs: its scope and its key. */
  function Triple(props: Properties, b: Binding): (string, string, string) {
    (Scope(props, b).0, Scope(props, b).1, b.value)
  }

  /** What injecting `slot` does when the local map is `cache`. */
  function Planned(props: Properties, server: Server, library: (string, string) -> Option<Value>,
                   cache: map<string, string>, slot: Slot): Injection
  {
    var t := Triple(props, slot.binding);
    Decide(LookupFrom(cache, props.cacheEnabled, server, t.0, t.1, t.2).value, slot, library)
  }

  /** What injecting a declared field does: nothing for a field without annotation. */
  function PlanOf(props: Properties, server: Server, library: (string, string) -> Option<Value>,
                  cache: map<string, string>, d: DeclaredField): Injection
  {
    if d.annotation.Some? then Planned(props, server, library, cache, Slot(d.ftype, d.annotation.value)) else Keep
  }

  /** A failure happens exactly for a required binding whose resolved value is empty or
      does not convert; a written value is the converted resolved value. */
  lemma DecideCases(found: Option<string>, slot: Slot, library: (string, string) -> Option<Value>)
    ensures var resolved := (if found.Some? then found.value else slot.binding.defaultValue);
      && (Decide(found, slot, library) == Fail <==>
            slot.binding.required && (resolved == "" || Convert(slot.ftype, resolved, library).None?))
      && (Decide(found, slot, library).Write? <==> resolved != "" && Convert(slot.ftype, resolved, library).Some?)
      && (Decide(found, slot, library).Write? ==> Decide(found, slot, library).v == Convert(slot.ftype, resolved, library).value)
  {
  }

  /** A String field receives the resolved text itself; an empty resolved value leaves a
      non-required field untouched. */
  lemma TextFieldGetsResolvedText(found: Option<string>, b: Binding, library: (string, string) -> Option<Value>)
    ensures var resolved := (if found.Some? then found.value else b.defaultValue);
      && (resolved != "" ==> Decide(found, Slot(TextField, b), library) == Write(Text(resolved)))
      && (resolved == "" ==> Decide(found, Slot(TextField, b), library) == (if b.required then Fail else Keep))
  {
  }

  /** With only a key given, a missing configuration resolves to the empty default, so the
      field is left as it was and nothing is thrown. */
  lemma BareAnnotationKeepsFieldWhenMissing(ftype: FieldType, key: string, library: (string, string) -> Option<Value>)
    ensures Decide(None, Slot(ftype, Annotation(key)), library) == Keep
  {
  }

  // ------------------------------------------------- the fields and the registry

  /** The field at `key` holds what it held before. */
  predicate Unchanged(before: map<(BeanId, FieldId), Value>, after: map<(BeanId, FieldId), Value>, key: (BeanId, FieldId)) {
    (key in after <==> key in before) && (key in before ==> after[key] == before[key])
  }

  /** The field at `key` reflects the injection `p`: its value when written, what it held
      before otherwise. */
  predicate Reflects(before: map<(BeanId, FieldId), Value>, after: map<(BeanId, FieldId), Value>,
                     key: (BeanId, FieldId), p: Injection)
  {
    if p.Write? then key in after && after[key] == p.v else Unchanged(before, after, key)
  }

  /** No two different lookups share a cache slot. */
  predicate NoClash(triples: set<(string, string, string)>) {
    forall t1, t2 :: t1 in triples && t2 in triples && CanonicalKey(t1.0, t1.1, t1.2) == CanonicalKey(t2.0, t2.1, t2.2) ==> t1 == t2
  }

  /** Every lookup in `triples` answers on `cache` what it answered on `cache0`. */
  ghost predicate Stable(props: Properties, server: Server, cache0: map<string, string>, cache: map<string, string>,
                         triples: set<(string, string, string)>)
  {
    forall t :: t in triples ==>
      LookupFrom(cache, props.cacheEnabled, server, t.0, t.1, t.2).value
      == LookupFrom(cache0, props.cacheEnabled, server, t.0, t.1, t.2).value
  }

  /** One more lookup among clash-free lookups changes none of their answers. */
  lemma StableStep(props: Properties, server: Server, cache0: map<string, string>, cache: map<string, string>,
                   triples: set<(string, string, string)>, t: (string, string, string))
    requires Stable(props, server, cache0, cache, triples) && NoClash(triples) && t in triples
    ensures Stable(props, server, cache0, LookupFrom(cache, props.cacheEnabled, server, t.0, t.1, t.2).cache, triples)
  {
    var after := LookupFrom(cache, props.cacheEnabled, server, t.0, t.1, t.2).cache;
    forall u | u in triples
      ensures LookupFrom(after, props.cacheEnabled, server, u.0, u.1, u.2).value
           == LookupFrom(cache0, props.cacheEnabled, server, u.0, u.1, u.2).value
    {
      LookupIndependent(cache, props.cacheEnabled, server, u.0, u.1, u.2, t.0, t.1, t.2);
    }
  }

  /** The coordinator's local map and the requests it sends after the lookups `looked`,
      in order, starting from the map `cache`. */
  function Lookups(props: Properties, server: Server, cache: map<string, string>,
                   looked: seq<(string, string, string)>): (map<string, string>, seq<Request>)
    decreases |looked|
  {
    if looked == [] then (cache, [])
    else
      var before := Lookups(props, server, cache, looked[..|looked| - 1]);
      var t := looked[|looked| - 1];
      (LookupFrom(before.0, props.cacheEnabled, server, t.0, t.1, t.2).cache,
       before.1 + if IsHit(before.0, props.cacheEnabled, t.0, t.1, t.2) then [] else [One(t.0, t.1, t.2)])
  }

  /** One more lookup at the end. */
  lemma LookupsSnoc(props: Properties, server: Server, cache: map<string, string>,
                    looked: seq<(string, string, string)>, t: (string, string, string))
    ensures var before := Lookups(props, server, cache, looked);
      Lookups(props, server, cache, looked + [t])
      == (LookupFrom(before.0, props.cacheEnabled, server, t.0, t.1, t.2).cache,
          before.1 + if IsHit(before.0, props.cacheEnabled, t.0, t.1, t.2) then [] else [One(t.0, t.1, t.2)])
  {
    assert (looked + [t])[..|looked|] == looked;
  }

  /** Lookups only add to the local map: every key held before keeps its value, and every
      new key is the canonical key of a looked-up triple whose server answer it holds,
      which happens only with the cache on. */
  lemma {:induction false} LookupsGrow(props: Properties, server: Server, cache: map<string, string>,
                                       looked: seq<(string, string, string)>)
    ensures var r := Lookups(props, server, cache, looked).0;
      && (forall c :: c in cache ==> c in r && r[c] == cache[c])
      && (forall c :: c in r && c !in cache ==>
            props.cacheEnabled
            && exists i :: 0 <= i < |looked| && c == CanonicalKey(looked[i].0, looked[i].1, looked[i].2)
                        && server.fetchOne(looked[i].0, looked[i].1, looked[i].2) == Found(r[c]))
    decreases |looked|
  {
    if looked != [] {
      var n := |looked| - 1;
      var init := looked[..n];
      LookupsGrow(props, server, cache, init);
      var before := Lookups(props, server, cache, init).0;
      var t := looked[n];
      var r := Lookups(props, server, cache, looked).0;
      assert r == LookupFrom(before, props.cacheEnabled, server, t.0, t.1, t.2).cache;
      forall c | c in r && c !in cache
        ensures props.cacheEnabled
        ensures exists i :: 0 <= i < |looked| && c == CanonicalKey(looked[i].0, looked[i].1, looked[i].2)
                         && server.fetchOne(looked[i].0, looked[i].1, looked[i].2) == Found(r[c])
      {
        if c in before {
          var i :| 0 <= i < |init| && c == CanonicalKey(init[i].0, init[i].1, init[i].2)
                   && server.fetchOne(init[i].0, init[i].1, init[i].2) == Found(before[c]);
          assert init[i] == looked[i];
        } else {
          assert c == CanonicalKey(t.0, t.1, t.2) && server.fetchOne(t.0, t.1, t.2) == Found(r[c]);
        }
      }
    }
  }

  /** The requests lookups send: at most one per lookup, each for a looked-up triple that
      was not cached at the start. */
  lemma {:induction false} LookupsRequests(props: Properties, server: Server, cache: map<string, string>,
                                           looked: seq<(string, string, string)>)
    ensures var r := Lookups(props, server, cache, looked).1;
      && |r| <= |looked|
      && forall j :: 0 <= j < |r| ==>
           exists i :: 0 <= i < |looked| && r[j] == One(looked[i].0, looked[i].1, looked[i].2)
                    && !IsHit(cache, props.cacheEnabled, looked[i].0, looked[i].1, looked[i].2)
    decreases |looked|
  {
    if looked != [] {
      var n := |looked| - 1;
      var init := looked[..n];
      LookupsRequests(props, server, cache, init);
      var before := Lookups(props, server, cache, init);
      var t := looked[n];
      var hit := IsHit(before.0, props.cacheEnabled, t.0, t.1, t.2);
      var r := Lookups(props, server, cache, looked).1;
      assert r == before.1 + if hit then [] else [One(t.0, t.1, t.2)];
      if !hit {
        LookupsGrow(props, server, cache, init);
        assert !IsHit(cache, props.cacheEnabled, t.0, t.1, t.2);
      }
      forall j | 0 <= j < |r|
        ensures exists i :: 0 <= i < |looked| && r[j] == One(looked[i].0, looked[i].1, looked[i].2)
                         && !IsHit(cache, props.cacheEnabled, looked[i].0, looked[i].1, looked[i].2)
      {
        if j < |before.1| {
          var i :| 0 <= i < |init| && before.1[j] == One(init[i].0, init[i].1, init[i].2)
                   && !IsHit(cache, props.cacheEnabled, init[i].0, init[i].1, init[i].2);
          assert init[i] == looked[i];
        } else {
          assert r[j] == One(looked[n].0, looked[n].1, looked[n].2);
        }
      }
    }
  }

  /** With the cache off, every lookup sends its request, in order, and the map is left
      alone. */
  lemma {:induction false} LookupsWithoutCache(props: Properties, server: Server, cache: map<string, string>,
                                               looked: seq<(string, string, string)>)
    requires !props.cacheEnabled
    ensures var r := Lookups(props, server, cache, looked);
      && r.0 == cache && |r.1| == |looked|
      && forall i :: 0 <= i < |looked| ==> r.1[i] == One(looked[i].0, looked[i].1, looked[i].2)
    decreases |looked|
  {
    if looked != [] {
      var n := |looked| - 1;
      LookupsWithoutCache(props, server, cache, looked[..n]);
    }
  }

  /** Lookups among clash-free triples change none of their answers. */
  lemma {:induction false} LookupsStable(props: Properties, server: Server, cache: map<string, string>,
                                         looked: seq<(string, string, string)>, triples: set<(string, string, string)>)
    requires NoClash(triples) && forall i :: 0 <= i < |looked| ==> looked[i] in triples
    ensures Stable(props, server, cache, Lookups(props, server, cache, looked).0, triples)
    decreases |looked|
  {
    if looked != [] {
      var n := |looked| - 1;
      var init := looked[..n];
      LookupsStable(props, server, cache, init, triples);
      StableStep(props, server, cache, Lookups(props, server, cache, init).0, triples, looked[n]);
    }
  }

  /** With the cache on and clash-free triples, after the lookups every looked-up triple
      whose answer on the starting map is a value sits in the map with that value, and
      the others are absent. */
  lemma {:induction false} LookupsCached(props: Properties, server: Server, cache: map<string, string>,
                                         looked: seq<(string, string, string)>, triples: set<(string, string, string)>)
    requires props.cacheEnabled && NoClash(triples) && forall i :: 0 <= i < |looked| ==> looked[i] in triples
    ensures var r := Lookups(props, server, cache, looked).0;
      forall i :: 0 <= i < |looked| ==>
        var c := CanonicalKey(looked[i].0, looked[i].1, looked[i].2);
        var v := LookupFrom(cache, true, server, looked[i].0, looked[i].1, looked[i].2).value;
        (c in r <==> v.Some?) && (c in r ==> v == Some(r[c]))
    decreases |looked|
  {
    if looked != [] {
      var n := |looked| - 1;
      var init := looked[..n];
      LookupsCached(props, server, cache, init, triples);
      LookupsStable(props, server, cache, init, triples);
      var before := Lookups(props, server, cache, init).0;
      var t := looked[n];
      var r := Lookups(props, server, cache, looked).0;
      assert r == LookupFrom(before, true, server, t.0, t.1, t.2).cache;
      assert t in triples;
      LookupAfter(before, server, t, LookupFrom(cache, true, server, t.0, t.1, t.2).value);
      forall i | 0 <= i < |looked|
        ensures var c := CanonicalKey(looked[i].0, looked[i].1, looked[i].2);
          var v := LookupFrom(cache, true, server, looked[i].0, looked[i].1, looked[i].2).value;
          (c in r <==> v.Some?) && (c in r ==> v == Some(r[c]))
      {
        var u := looked[i];
        if u != t {
          assert u == init[i];
          assert u in triples;
          assert CanonicalKey(u.0, u.1, u.2) != CanonicalKey(t.0, t.1, t.2);
        }
      }
    }
  }

  /** A lookup with the cache on whose answer is `v` leaves its key holding `v`, or absent
      when `v` is null, and every other key as it was. */
  lemma LookupAfter(cache: map<string, string>, server: Server, t: (string, string, string), v: Option<string>)
    requires LookupFrom(cache, true, server, t.0, t.1, t.2).value == v
    ensures var r := LookupFrom(cache, true, server, t.0, t.1, t.2).cache;
      var c := CanonicalKey(t.0, t.1, t.2);
      && (c in r <==> v.Some?) && (c in r ==> v == Some(r[c]))
      && forall k :: k != c ==> (k in r <==> k in cache) && (k in r ==> r[k] == cache[k])
  {
  }

  type FieldKey = (BeanId, FieldId)

  /** A walk over the fields in `plan` part-way: those in `done` were injected without
      failure and every other field holds what it held; when the walk's lookups cannot
      clash, each lookup still answers as on the initial map `cache0`, so each injected
      field reflects its injection on that map. */
  ghost predicate Progress(props: Properties, server: Server, library: (string, string) -> Option<Value>,
                           cache0: map<string, string>, fields0: map<FieldKey, Value>, plan: map<FieldKey, Slot>,
                           triples: set<(string, string, string)>, done: set<FieldKey>,
                           cache: map<string, string>, fields: map<FieldKey, Value>)
  {
    && done <= plan.Keys
    && (forall k :: k in plan ==> Triple(props, plan[k].binding) in triples)
    && (forall k :: k !in done ==> Unchanged(fields0, fields, k))
    && (NoClash(triples) ==> Stable(props, server, cache0, cache, triples))
    && (NoClash(triples) ==> forall k :: k in done ==>
          Planned(props, server, library, cache0, plan[k]) != Fail
          && Reflects(fields0, fields, k, Planned(props, server, library, cache0, plan[k])))
  }

  /** Mid-walk, an injection decides as it would have on the initial map. */
  lemma ProgressAgrees(props: Properties, server: Server, library: (string, string) -> Option<Value>,
                       cache0: map<string, string>, fields0: map<FieldKey, Value>, plan: map<FieldKey, Slot>,
                       triples: set<(string, string, string)>, done: set<FieldKey>,
                       cache: map<string, string>, fields: map<FieldKey, Value>, k: FieldKey)
    requires Progress(props, server, library, cache0, fields0, plan, triples, done, cache, fields)
    requires k in plan && NoClash(triples)
    ensures Planned(props, server, library, cache, plan[k]) == Planned(props, server, library, cache0, plan[k])
  {
    var t := Triple(props, plan[k].binding);
    assert t in triples;
  }

  /** One more injection that does not fail keeps the walk's invariant. */
  lemma ProgressStep(props: Properties, server: Server, library: (string, string) -> Option<Value>,
                     cache0: map<string, string>, fields0: map<FieldKey, Value>, plan: map<FieldKey, Slot>,
                     triples: set<(string, string, string)>, done: set<FieldKey>,
                     cache: map<string, string>, fields: map<FieldKey, Value>, k: FieldKey)
    requires Progress(props, server, library, cache0, fields0, plan, triples, done, cache, fields)
    requires k in plan && k !in done
    requires Planned(props, server, library, cache, plan[k]) != Fail
    ensures var t := Triple(props, plan[k].binding);
      var r := Planned(props, server, library, cache, plan[k]);
      Progress(props, server, library, cache0, fields0, plan, triples, done + {k},
               LookupFrom(cache, props.cacheEnabled, server, t.0, t.1, t.2).cache,
               if r.Write? then fields[k := r.v] else fields)
  {
    var t := Triple(props, plan[k].binding);
    var r := Planned(props, server, library, cache, plan[k]);
    var cache' := LookupFrom(cache, props.cacheEnabled, server, t.0, t.1, t.2).cache;
    var fields' := if r.Write? then fields[k := r.v] else fields;
    assert t in triples;
    forall j | j !in done + {k} ensures Unchanged(fields0, fields', j) {
      assert Unchanged(fields0, fields, j);
    }
    if NoClash(triples) {
      ProgressAgrees(props, server, library, cache0, fields0, plan, triples, done, cache, fields, k);
      StableStep(props, server, cache0, cache, triples, t);
      forall j | j in done + {k}
        ensures Planned(props, server, library, cache0, plan[j]) != Fail
        ensures Reflects(fields0, fields', j, Planned(props, server, library, cache0, plan[j]))
      {
        if j != k {
          assert Reflects(fields0, fields, j, Planned(props, server, library, cache0, plan[j]));
        } else {
          assert Unchanged(fields0, fields, k);
        }
      }
    }
    assert Progress(props, server, library, cache0, fields0, plan, triples, done + {k}, cache', fields');
  }

  /** The annotated fields of a declaration list, by identity; a later field of the same
      identity replaces an earlier one. */
  function SlotsOf(declared: seq<DeclaredField>): map<FieldId, Slot> {
    if |declared| == 0 then map[]
    else
      var last := declared[|declared| - 1];
      var m := SlotsOf(declared[..|declared| - 1]);
      if last.annotation.Some? then m[last.id := Slot(last.ftype, last.annotation.value)] else m
  }

  /** Reflection lists each field once. */
  predicate DistinctIds(declared: seq<DeclaredField>) {
    forall i, j :: 0 <= i < j < |declared| ==> declared[i].id != declared[j].id
  }

  /** The lookups the annotated fields of a declaration list perform. */
  function DeclaredTriples(props: Properties, declared: seq<DeclaredField>): set<(string, string, string)> {
    set i | 0 <= i < |declared| && declared[i].annotation.Some? :: Triple(props, declared[i].annotation.value)
  }

  /** The lookups registration performs, in declaration order: one per annotated field. */
  function DeclaredLookups(props: Properties, declared: seq<DeclaredField>): seq<(string, string, string)> {
    if |declared| == 0 then []
    else
      var d := declared[|declared| - 1];
      DeclaredLookups(props, declared[..|declared| - 1]) + if d.annotation.Some? then [Triple(props, d.annotation.value)] else []
  }

  /** Every lookup of a registration walk is one of the declared lookups. */
  lemma {:induction false} DeclaredLookupsIn(props: Properties, declared: seq<DeclaredField>, n: nat)
    requires n <= |declared|
    ensures forall j :: 0 <= j < |DeclaredLookups(props, declared[..n])| ==>
      DeclaredLookups(props, declared[..n])[j] in DeclaredTriples(props, declared)
  {
    if n > 0 {
      DeclaredLookupsIn(props, declared, n - 1);
      assert declared[..n][..n - 1] == declared[..n - 1];
    }
  }

  /** The coordinator after the lookups of the first `i` declared fields, from the local
      map `cache0` and the request log `req0`. */
  ghost predicate Registered(props: Properties, server: Server, cache0: map<string, string>, req0: seq<Request>,
                             declared: seq<DeclaredField>, i: nat, cache: map<string, string>, requests: seq<Request>)
  {
    && i <= |declared|
    && cache == Lookups(props, server, cache0, DeclaredLookups(props, declared[..i])).0
    && requests == req0 + Lookups(props, server, cache0, DeclaredLookups(props, declared[..i])).1
  }

  /** The coordinator after one more declared field: unchanged for a field without
      annotation, one lookup further otherwise. */
  lemma RegisteredStep(props: Properties, server: Server, cache0: map<string, string>, req0: seq<Request>,
                       declared: seq<DeclaredField>, i: nat, cache: map<string, string>, requests: seq<Request>,
                       cache': map<string, string>, requests': seq<Request>)
    requires Registered(props, server, cache0, req0, declared, i, cache, requests) && i < |declared|
    requires declared[i].annotation.None? ==> cache' == cache && requests' == requests
    requires declared[i].annotation.Some? ==>
      var u := Triple(props, declared[i].annotation.value);
      && cache' == LookupFrom(cache, props.cacheEnabled, server, u.0, u.1, u.2).cache
      && requests' == requests + if IsHit(cache, props.cacheEnabled, u.0, u.1, u.2) then [] else [One(u.0, u.1, u.2)]
    ensures Registered(props, server, cache0, req0, declared, i + 1, cache', requests')
  {
    var d := declared[i];
    assert declared[..i + 1][..i] == declared[..i];
    var before := DeclaredLookups(props, declared[..i]);
    if d.annotation.Some? {
      LookupsSnoc(props, server, cache0, before, Triple(props, d.annotation.value));
    } else {
      assert DeclaredLookups(props, declared[..i + 1]) == before;
    }
  }

  /** A bean's registered fields, keyed as the field values are. */
  function BeanPlan(bean: BeanId, slots: map<FieldId, Slot>): map<FieldKey, Slot> {
    map f | f in slots :: (bean, f) := slots[f]
  }

  /** Registration starts with nothing injected, and every planned field's lookup is
      among the declared ones. */
  lemma RegisterStart(props: Properties, server: Server, library: (string, string) -> Option<Value>,
                      cache0: map<string, string>, fields0: map<FieldKey, Value>, bean: BeanId, declared: seq<DeclaredField>)
    requires DistinctIds(declared)
    ensures Progress(props, server, library, cache0, fields0, BeanPlan(bean, SlotsOf(declared)),
                     DeclaredTriples(props, declared), {}, cache0, fields0)
  {
    SlotsOfContents(declared);
    var plan := BeanPlan(bean, SlotsOf(declared));
    forall k | k in plan ensures Triple(props, plan[k].binding) in DeclaredTriples(props, declared) {
      var i :| 0 <= i < |declared| && declared[i].id == k.1 && declared[i].annotation.Some?;
      assert plan[k] == Slot(declared[i].ftype, declared[i].annotation.value);
    }
  }

  /** Registration's step from `declared[..i]` to `declared[..i + 1]`. */
  lemma RegisterStep(bean: BeanId, declared: seq<DeclaredField>, i: nat)
    requires DistinctIds(declared) && i < |declared|
    ensures var d := declared[i];
      SlotsOf(declared[..i + 1]) == if d.annotation.Some? then SlotsOf(declared[..i])[d.id := Slot(d.ftype, d.annotation.value)]
                                    else SlotsOf(declared[..i])
    ensures var d := declared[i];
      d.annotation.Some? ==>
        && d.id !in SlotsOf(declared[..i])
        && d.id in SlotsOf(declared)
        && SlotsOf(declared)[d.id] == Slot(d.ftype, d.annotation.value)
  {
    var prefix := declared[..i + 1];
    assert prefix[..i] == declared[..i];
    SlotsOfContents(declared);
    var init := declared[..i];
    assert DistinctIds(init);
    SlotsOfContents(init);
  }

  /** Exactly the annotated fields are registered, each with its own type and annotation. */
  lemma {:induction false} SlotsOfContents(declared: seq<DeclaredField>)
    requires DistinctIds(declared)
    ensures forall i :: 0 <= i < |declared| && declared[i].annotation.Some? ==>
      declared[i].id in SlotsOf(declared) && SlotsOf(declared)[declared[i].id] == Slot(declared[i].ftype, declared[i].annotation.value)
    ensures forall f :: f in SlotsOf(declared) ==> exists i :: 0 <= i < |declared| && declared[i].id == f && declared[i].annotation.Some?
  {
    if |declared| > 0 {
      var n := |declared| - 1;
      var init := declared[..n];
      assert DistinctIds(init);
      SlotsOfContents(init);
      forall f | f in SlotsOf(declared)
        ensures exists i :: 0 <= i < |declared| && declared[i].id == f && declared[i].annotation.Some?
      {
        if f in SlotsOf(init) {
          var i :| 0 <= i < |init| && init[i].id == f && init[i].annotation.Some?;
          assert declared[i] == init[i];
        } else {
          assert declared[n].id == f && declared[n].annotation.Some?;
        }
      }
      forall i | 0 <= i < |declared| && declared[i].annotation.Some?
        ensures declared[i].id in SlotsOf(declared) && SlotsOf(declared)[declared[i].id] == Slot(declared[i].ftype, declared[i].annotation.value)
      {
        if i < n {
          assert init[i] == declared[i];
        }
      }
    }
  }

  // --------------------------------------------------------------- dispatch

  /** `deveAtualizarCampo`: an empty namespace or environment matches any event; a given
      one must equal the event's; the key must equal the event's (a null key matches
      nothing). */
  predicate ShouldUpdate(b: Binding, ev: LocalEvent) {
    && (b.namespace == "" || b.namespace == ev.namespace)
    && (b.environment == "" || b.environment == ev.environment)
    && Some(b.value) == ev.key
  }

  /** The fields an event re-injects: registered, matching and refreshable. */
  function Targets(registry: map<BeanId, map<FieldId, Slot>>, ev: LocalEvent): set<(BeanId, FieldId)> {
    set bean, field | bean in registry && field in registry[bean]
      && ShouldUpdate(registry[bean][field].binding, ev) && registry[bean][field].binding.refreshable :: (bean, field)
  }

  /** The lookups the targets of an event perform. */
  function TargetTriples(props: Properties, registry: map<BeanId, map<FieldId, Slot>>, ev: LocalEvent): set<(string, string, string)> {
    set t | t in Targets(registry, ev) :: Triple(props, registry[t.0][t.1].binding)
  }

  /** An event for the client's own scope (the only kind the listener publishes) makes
      every target look up one and the same triple, so the lookups cannot clash. */
  lemma OwnScopeEventsNeverClash(props: Properties, registry: map<BeanId, map<FieldId, Slot>>, ev: LocalEvent)
    requires ev.namespace == props.namespace && ev.environment == props.environment && ev.key.Some?
    ensures TargetTriples(props, registry, ev) <= {(props.namespace, props.environment, ev.key.value)}
    ensures NoClash(TargetTriples(props, registry, ev))
  {
    forall u | u in TargetTriples(props, registry, ev)
      ensures u == (props.namespace, props.environment, ev.key.value)
    {
      var t :| t in Targets(registry, ev) && u == Triple(props, registry[t.0][t.1].binding);
      var b := registry[t.0][t.1].binding;
      assert ShouldUpdate(b, ev);
    }
  }

  /** Matching an event against a binding, beside the scope the binding is looked up in:
      a null key matches nothing; an unscoped binding matches its key in every scope; a
      fully scoped binding matches exactly the events of the triple it looks up; a
      half-scoped binding is looked up in the client's scope but matched only against
      the one element it names. */
  lemma MatchVersusLookup(props: Properties, b: Binding, ev: LocalEvent)
    ensures ev.key.None? ==> !ShouldUpdate(b, ev)
    ensures b.namespace == "" && b.environment == "" ==> (ShouldUpdate(b, ev) <==> ev.key == Some(b.value))
    ensures b.namespace != "" && b.environment != "" ==>
      (ShouldUpdate(b, ev) <==> ev.key.Some? && (ev.namespace, ev.environment, ev.key.value) == Triple(props, b))
    ensures (b.namespace == "") != (b.environment == "") ==>
      && Triple(props, b) == (props.namespace, props.environment, b.value)
      && (ShouldUpdate(b, ev) <==>
            ev.key == Some(b.value) && (if b.namespace != "" then ev.namespace == b.namespace else ev.environment == b.environment))
  {
  }

  /** A half-scoped binding that names another namespace (or environment) than the
      client's reads the client's scope, yet no event of the client's own scope, the
      only kind the listener publishes, ever re-injects it. */
  lemma HalfScopedBindingMissesOwnEvents(props: Properties, b: Binding, ev: LocalEvent)
    requires (b.namespace != "" && b.environment == "" && b.namespace != props.namespace)
          || (b.namespace == "" && b.environment != "" && b.environment != props.environment)
    requires ev.namespace == props.namespace && ev.environment == props.environment
    ensures Triple(props, b) == (props.namespace, props.environment, b.value)
    ensures !ShouldUpdate(b, ev)
  {
  }

  /** A field annotated with its key alone is looked up in the client's scope and, not
      being refreshable, is never a target of any event. */
  lemma BareAnnotationNeverRefreshed(props: Properties, registry: map<BeanId, map<FieldId, Slot>>, ev: LocalEvent, key: string)
    ensures Triple(props, Annotation(key)) == (props.namespace, props.environment, key)
    ensures forall t :: t in Targets(registry, ev) ==> registry[t.0][t.1].binding != Annotation(key)
  {
  }

  /** What registration promises about the fields: only the bean's annotated fields can
      change; when the lookups cannot clash, the walk fails exactly when one annotated
      field's injection on the initial map `cache0` fails, and a successful walk leaves
      every annotated field as that injection says. */
  ghost predicate RegisterOutcome(props: Properties, server: Server, library: (string, string) -> Option<Value>,
                                  bean: BeanId, declared: seq<DeclaredField>, cache0: map<string, string>,
                                  fields0: map<FieldKey, Value>, ok: bool, fields: map<FieldKey, Value>)
  {
    && (forall f :: f !in SlotsOf(declared) ==> Unchanged(fields0, fields, (bean, f)))
    && (forall k: FieldKey :: k.0 != bean ==> Unchanged(fields0, fields, k))
    && (NoClash(DeclaredTriples(props, declared)) ==>
        && (ok <==> forall i :: 0 <= i < |declared| && declared[i].annotation.Some? ==>
              PlanOf(props, server, library, cache0, declared[i]) != Fail)
        && (ok ==> forall i :: 0 <= i < |declared| && declared[i].annotation.Some? ==>
              Reflects(fields0, fields, (bean, declared[i].id), PlanOf(props, server, library, cache0, declared[i]))))
  }

  /** Registration only ever writes the bean's own annotated fields. */
  lemma RegisterFrame(props: Properties, server: Server, library: (string, string) -> Option<Value>,
                      bean: BeanId, declared: seq<DeclaredField>, cache0: map<string, string>, fields0: map<FieldKey, Value>,
                      done: set<FieldKey>, cache: map<string, string>, fields: map<FieldKey, Value>)
    requires Progress(props, server, library, cache0, fields0, BeanPlan(bean, SlotsOf(declared)),
                      DeclaredTriples(props, declared), done, cache, fields)
    ensures forall f :: f !in SlotsOf(declared) ==> Unchanged(fields0, fields, (bean, f))
    ensures forall k: FieldKey :: k.0 != bean ==> Unchanged(fields0, fields, k)
  {
    var plan := BeanPlan(bean, SlotsOf(declared));
    forall f | f !in SlotsOf(declared) ensures Unchanged(fields0, fields, (bean, f)) {
      assert (bean, f) !in plan;
    }
    forall k: FieldKey | k.0 != bean ensures Unchanged(fields0, fields, k) {
      assert k !in plan;
    }
  }

  /** The end of a registration walk after every field. */
  lemma RegisterEndDone(props: Properties, server: Server, library: (string, string) -> Option<Value>,
                        bean: BeanId, declared: seq<DeclaredField>, cache0: map<string, string>, fields0: map<FieldKey, Value>,
                        cache: map<string, string>, fields: map<FieldKey, Value>)
    requires DistinctIds(declared)
    requires Progress(props, server, library, cache0, fields0, BeanPlan(bean, SlotsOf(declared)),
                      DeclaredTriples(props, declared), BeanPlan(bean, SlotsOf(declared)).Keys, cache, fields)
    ensures RegisterOutcome(props, server, library, bean, declared, cache0, fields0, true, fields)
  {
    var plan := BeanPlan(bean, SlotsOf(declared));
    RegisterFrame(props, server, library, bean, declared, cache0, fields0, plan.Keys, cache, fields);
    if NoClash(DeclaredTriples(props, declared)) {
      SlotsOfContents(declared);
      forall i | 0 <= i < |declared| && declared[i].annotation.Some?
        ensures PlanOf(props, server, library, cache0, declared[i]) != Fail
        ensures Reflects(fields0, fields, (bean, declared[i].id), PlanOf(props, server, library, cache0, declared[i]))
      {
        var k := (bean, declared[i].id);
        assert k in plan;
        assert plan[k] == Slot(declared[i].ftype, declared[i].annotation.value);
      }
    }
  }

  /** The end of a registration walk at the field `failed` whose injection failed. */
  lemma RegisterEndFailed(props: Properties, server: Server, library: (string, string) -> Option<Value>,
                          bean: BeanId, declared: seq<DeclaredField>, cache0: map<string, string>, fields0: map<FieldKey, Value>,
                          done: set<FieldKey>, cache: map<string, string>, fields: map<FieldKey, Value>, failed: nat)
    requires Progress(props, server, library, cache0, fields0, BeanPlan(bean, SlotsOf(declared)),
                      DeclaredTriples(props, declared), done, cache, fields)
    requires failed < |declared| && declared[failed].annotation.Some?
    requires NoClash(DeclaredTriples(props, declared)) ==> PlanOf(props, server, library, cache0, declared[failed]) == Fail
    ensures RegisterOutcome(props, server, library, bean, declared, cache0, fields0, false, fields)
  {
    RegisterFrame(props, server, library, bean, declared, cache0, fields0, done, cache, fields);
  }

  /** Registration after the first `i` declared fields: `slots` holds their annotated
      ones and `done` names those injected without failure. */
  ghost predicate Walked(props: Properties, server: Server, library: (string, string) -> Option<Value>,
                         bean: BeanId, declared: seq<DeclaredField>, cache0: map<string, string>,
                         fields0: map<FieldKey, Value>, i: nat, slots: map<FieldId, Slot>, done: set<FieldKey>,
                         cache: map<string, string>, fields: map<FieldKey, Value>)
  {
    && i <= |declared|
    && slots == SlotsOf(declared[..i])
    && done == BeanPlan(bean, slots).Keys
    && Progress(props, server, library, cache0, fields0, BeanPlan(bean, SlotsOf(declared)),
                DeclaredTriples(props, declared), done, cache, fields)
  }

  lemma WalkStart(props: Properties, server: Server, library: (string, string) -> Option<Value>,
                  bean: BeanId, declared: seq<DeclaredField>, cache0: map<string, string>, fields0: map<FieldKey, Value>)
    requires DistinctIds(declared)
    ensures Walked(props, server, library, bean, declared, cache0, fields0, 0, map[], {}, cache0, fields0)
  {
    RegisterStart(props, server, library, cache0, fields0, bean, declared);
    assert BeanPlan(bean, map[]).Keys == {};
  }

  /** A field without annotation is passed over. */
  lemma WalkSkip(props: Properties, server: Server, library: (string, string) -> Option<Value>,
                 bean: BeanId, declared: seq<DeclaredField>, cache0: map<string, string>, fields0: map<FieldKey, Value>,
                 i: nat, slots: map<FieldId, Slot>, done: set<FieldKey>, cache: map<string, string>, fields: map<FieldKey, Value>)
    requires DistinctIds(declared)
    requires Walked(props, server, library, bean, declared, cache0, fields0, i, slots, done, cache, fields)
    requires i < |declared| && declared[i].annotation.None?
    ensures Walked(props, server, library, bean, declared, cache0, fields0, i + 1, slots, done, cache, fields)
  {
    RegisterStep(bean, declared, i);
  }

  lemma BeanPlanInsert(bean: BeanId, slots: map<FieldId, Slot>, f: FieldId, slot: Slot)
    ensures BeanPlan(bean, slots[f := slot]).Keys == BeanPlan(bean, slots).Keys + {(bean, f)}
  {
  }

  /** An annotated field injected without failure joins `slots` and `done`; `cache'` and
      `fields'` are the local map and the fields after its injection. */
  lemma WalkInject(props: Properties, server: Server, library: (string, string) -> Option<Value>,
                   bean: BeanId, declared: seq<DeclaredField>, cache0: map<string, string>, fields0: map<FieldKey, Value>,
                   i: nat, slots: map<FieldId, Slot>, done: set<FieldKey>, cache: map<string, string>, fields: map<FieldKey, Value>,
                   slot: Slot, cache': map<string, string>, fields': map<FieldKey, Value>)
    requires DistinctIds(declared)
    requires Walked(props, server, library, bean, declared, cache0, fields0, i, slots, done, cache, fields)
    requires i < |declared| && declared[i].annotation.Some?
    requires slot == Slot(declared[i].ftype, declared[i].annotation.value)
    requires Planned(props, server, library, cache, slot) != Fail
    requires cache' == LookupFrom(cache, props.cacheEnabled, server, Triple(props, slot.binding).0,
                                  Triple(props, slot.binding).1, Triple(props, slot.binding).2).cache
    requires var r := Planned(props, server, library, cache, slot);
      fields' == if r.Write? then fields[(bean, declared[i].id) := r.v] else fields
    ensures Walked(props, server, library, bean, declared, cache0, fields0, i + 1, slots[declared[i].id := slot],
                   done + {(bean, declared[i].id)}, cache', fields')
  {
    var d := declared[i];
    RegisterStep(bean, declared, i);
    var plan := BeanPlan(bean, SlotsOf(declared));
    assert plan[(bean, d.id)] == slot;
    ProgressStep(props, server, library, cache0, fields0, plan, DeclaredTriples(props, declared), done, cache, fields, (bean, d.id));
    BeanPlanInsert(bean, slots, d.id, slot);
  }

  /** A failing injection ends the walk with the promised outcome. */
  lemma WalkFail(props: Properties, server: Server, library: (string, string) -> Option<Value>,
                 bean: BeanId, declared: seq<DeclaredField>, cache0: map<string, string>, fields0: map<FieldKey, Value>,
                 i: nat, slots: map<FieldId, Slot>, done: set<FieldKey>, cache: map<string, string>, fields: map<FieldKey, Value>)
    requires DistinctIds(declared)
    requires Walked(props, server, library, bean, declared, cache0, fields0, i, slots, done, cache, fields)
    requires i < |declared| && declared[i].annotation.Some?
    requires Planned(props, server, library, cache, Slot(declared[i].ftype, declared[i].annotation.value)) == Fail
    ensures RegisterOutcome(props, server, library, bean, declared, cache0, fields0, false, fields)
  {
    var d := declared[i];
    RegisterStep(bean, declared, i);
    var plan := BeanPlan(bean, SlotsOf(declared));
    assert plan[(bean, d.id)] == Slot(d.ftype, d.annotation.value);
    if NoClash(DeclaredTriples(props, declared)) {
      ProgressAgrees(props, server, library, cache0, fields0, plan, DeclaredTriples(props, declared), done, cache, fields, (bean, d.id));
    }
    RegisterEndFailed(props, server, library, bean, declared, cache0, fields0, done, cache, fields, i);
  }

  /** The walk over every field ends with the promised outcome. */
  lemma WalkDone(props: Properties, server: Server, library: (string, string) -> Option<Value>,
                 bean: BeanId, declared: seq<DeclaredField>, cache0: map<string, string>, fields0: map<FieldKey, Value>,
                 slots: map<FieldId, Slot>, done: set<FieldKey>, cache: map<string, string>, fields: map<FieldKey, Value>)
    requires DistinctIds(declared)
    requires Walked(props, server, library, bean, declared, cache0, fields0, |declared|, slots, done, cache, fields)
    ensures slots == SlotsOf(declared)
    ensures RegisterOutcome(props, server, library, bean, declared, cache0, fields0, true, fields)
  {
    assert declared[..|declared|] == declared;
    RegisterEndDone(props, server, library, bean, declared, cache0, fields0, cache, fields);
  }

  /** The fields a dispatch walks, each with its registered slot. */
  function TargetPlan(registry: map<BeanId, map<FieldId, Slot>>, ev: LocalEvent): map<FieldKey, Slot> {
    map t | t in Targets(registry, ev) :: registry[t.0][t.1]
  }

  /** The lookups a dispatch performs when it visits the fields `order` in turn. */
  function TargetLookups(props: Properties, registry: map<BeanId, map<FieldId, Slot>>, order: seq<FieldKey>): seq<(string, string, string)>
    requires forall j :: 0 <= j < |order| ==> order[j].0 in registry && order[j].1 in registry[order[j].0]
  {
    if order == [] then []
    else
      var t := order[|order| - 1];
      TargetLookups(props, registry, order[..|order| - 1]) + [Triple(props, registry[t.0][t.1].binding)]
  }

  /** The coordinator after a dispatch visited the distinct targets `order`, in turn,
      from the local map `cache0` and the request log `req0`. */
  ghost predicate Visited(props: Properties, server: Server, registry: map<BeanId, map<FieldId, Slot>>, ev: LocalEvent,
                          cache0: map<string, string>, req0: seq<Request>, order: seq<FieldKey>,
                          cache: map<string, string>, requests: seq<Request>)
  {
    && (forall j :: 0 <= j < |order| ==> order[j] in Targets(registry, ev))
    && (forall i, j :: 0 <= i < j < |order| ==> order[i] != order[j])
    && cache == Lookups(props, server, cache0, TargetLookups(props, registry, order)).0
    && requests == req0 + Lookups(props, server, cache0, TargetLookups(props, registry, order)).1
  }

  /** The coordinator after one more target's lookup. */
  lemma VisitedStep(props: Properties, server: Server, registry: map<BeanId, map<FieldId, Slot>>, ev: LocalEvent,
                    cache0: map<string, string>, req0: seq<Request>, order: seq<FieldKey>,
                    cache: map<string, string>, requests: seq<Request>, t: FieldKey,
                    cache': map<string, string>, requests': seq<Request>)
    requires Visited(props, server, registry, ev, cache0, req0, order, cache, requests)
    requires t in Targets(registry, ev) && t !in order
    requires var u := Triple(props, registry[t.0][t.1].binding);
      && cache' == LookupFrom(cache, props.cacheEnabled, server, u.0, u.1, u.2).cache
      && requests' == requests + if IsHit(cache, props.cacheEnabled, u.0, u.1, u.2) then [] else [One(u.0, u.1, u.2)]
    ensures Visited(props, server, registry, ev, cache0, req0, order + [t], cache', requests')
  {
    var order' := order + [t];
    assert order'[..|order|] == order;
    assert TargetLookups(props, registry, order') == TargetLookups(props, registry, order) + [Triple(props, registry[t.0][t.1].binding)];
    LookupsSnoc(props, server, cache0, TargetLookups(props, registry, order), Triple(props, registry[t.0][t.1].binding));
  }

  /** Every lookup of a dispatch is one of its targets' lookups. */
  lemma {:induction false} TargetLookupsIn(props: Properties, registry: map<BeanId, map<FieldId, Slot>>, ev: LocalEvent,
                                           order: seq<FieldKey>)
    requires forall j :: 0 <= j < |order| ==> order[j].0 in registry && order[j].1 in registry[order[j].0]
    requires forall j :: 0 <= j < |order| ==> order[j] in Targets(registry, ev)
    ensures forall j :: 0 <= j < |TargetLookups(props, registry, order)| ==>
      TargetLookups(props, registry, order)[j] in TargetTriples(props, registry, ev)
  {
    if order != [] {
      var n := |order| - 1;
      TargetLookupsIn(props, registry, ev, order[..n]);
      assert order[n] in Targets(registry, ev);
    }
  }

  /** What a dispatch promises: `done` are targets and, on success, all of them; no
      field outside `done` changes; when the lookups cannot clash, the walk fails exactly
      when some target's injection on the initial map `cache0` fails, and every field in
      `done` reflects its injection on that map. */
  ghost predicate DispatchOutcome(props: Properties, server: Server, library: (string, string) -> Option<Value>,
                                  registry: map<BeanId, map<FieldId, Slot>>, ev: LocalEvent, cache0: map<string, string>,
                                  fields0: map<FieldKey, Value>, ok: bool, done: set<FieldKey>, fields: map<FieldKey, Value>)
  {
    && done <= Targets(registry, ev) && (ok ==> done == Targets(registry, ev))
    && (forall k :: k !in done ==> Unchanged(fields0, fields, k))
    && (NoClash(TargetTriples(props, registry, ev)) ==>
        && (ok <==> forall t :: t in Targets(registry, ev) ==>
              Planned(props, server, library, cache0, registry[t.0][t.1]) != Fail)
        && (forall t :: t in done ==>
              Reflects(fields0, fields, t, Planned(props, server, library, cache0, registry[t.0][t.1]))))
  }

  /** A dispatch starts with nothing injected. */
  lemma DispatchStart(props: Properties, server: Server, library: (string, string) -> Option<Value>,
                      registry: map<BeanId, map<FieldId, Slot>>, ev: LocalEvent, cache0: map<string, string>,
                      fields0: map<FieldKey, Value>)
    ensures Progress(props, server, library, cache0, fields0, TargetPlan(registry, ev),
                     TargetTriples(props, registry, ev), {}, cache0, fields0)
  {
  }

  /** The end of a dispatch walk: after every target, or at the target `failed` whose
      injection failed. */
  lemma DispatchEnd(props: Properties, server: Server, library: (string, string) -> Option<Value>,
                    registry: map<BeanId, map<FieldId, Slot>>, ev: LocalEvent, cache0: map<string, string>,
                    fields0: map<FieldKey, Value>, done: set<FieldKey>, cache: map<string, string>,
                    fields: map<FieldKey, Value>, failed: Option<FieldKey>)
    requires Progress(props, server, library, cache0, fields0, TargetPlan(registry, ev),
                      TargetTriples(props, registry, ev), done, cache, fields)
    requires failed.None? ==> done == Targets(registry, ev)
    requires failed.Some? ==> failed.value in Targets(registry, ev)
    requires failed.Some? && NoClash(TargetTriples(props, registry, ev)) ==>
      Planned(props, server, library, cache0, registry[failed.value.0][failed.value.1]) == Fail
    ensures DispatchOutcome(props, server, library, registry, ev, cache0, fields0, failed.None?, done, fields)
  {
  }

  /** A dispatch part-way: `done` are targets, injected without failure, as `Progress`
      says. */
  ghost predicate DispatchWalked(props: Properties, server: Server, library: (string, string) -> Option<Value>,
                                 registry: map<BeanId, map<FieldId, Slot>>, ev: LocalEvent, cache0: map<string, string>,
                                 fields0: map<FieldKey, Value>, done: set<FieldKey>, cache: map<string, string>,
                                 fields: map<FieldKey, Value>)
  {
    && done <= Targets(registry, ev)
    && Progress(props, server, library, cache0, fields0, TargetPlan(registry, ev),
                TargetTriples(props, registry, ev), done, cache, fields)
  }

  /** One target of a dispatch: a failing injection ends the dispatch as promised; any
      other extends the walk. */
  lemma DispatchVisit(props: Properties, server: Server, library: (string, string) -> Option<Value>,
                      registry: map<BeanId, map<FieldId, Slot>>, ev: LocalEvent, cache0: map<string, string>,
                      fields0: map<FieldKey, Value>, done: set<FieldKey>, cache: map<string, string>,
                      fields: map<FieldKey, Value>, t: FieldKey, r: Injection,
                      cache': map<string, string>, fields': map<FieldKey, Value>)
    requires DispatchWalked(props, server, library, registry, ev, cache0, fields0, done, cache, fields)
    requires t in Targets(registry, ev) && t !in done
    requires r == Planned(props, server, library, cache, registry[t.0][t.1])
    requires var u := Triple(props, registry[t.0][t.1].binding);
      cache' == LookupFrom(cache, props.cacheEnabled, server, u.0, u.1, u.2).cache
    requires fields' == if r.Write? then fields[t := r.v] else fields
    ensures r.Fail? ==> DispatchOutcome(props, server, library, registry, ev, cache0, fields0, false, done, fields)
    ensures !r.Fail? ==> DispatchWalked(props, server, library, registry, ev, cache0, fields0, done + {t}, cache', fields')
  {
    var plan := TargetPlan(registry, ev);
    var triples := TargetTriples(props, registry, ev);
    assert plan[t] == registry[t.0][t.1];
    if r.Fail? {
      if NoClash(triples) {
        ProgressAgrees(props, server, library, cache0, fields0, plan, triples, done, cache, fields, t);
      }
      DispatchEnd(props, server, library, registry, ev, cache0, fields0, done, cache, fields, Some(t));
    } else {
      ProgressStep(props, server, library, cache0, fields0, plan, triples, done, cache, fields, t);
    }
  }

  /** A dispatch with the targets `todo` still to visit: the others, `done`, were injected
      without failure, in the order `order`. */
  ghost predicate Dispatching(props: Properties, server: Server, library: (string, string) -> Option<Value>,
                              registry: map<BeanId, map<FieldId, Slot>>, ev: LocalEvent, cache0: map<string, string>,
                              req0: seq<Request>, fields0: map<FieldKey, Value>, todo: set<FieldKey>, done: set<FieldKey>,
                              order: seq<FieldKey>, cache: map<string, string>, requests: seq<Request>,
                              fields: map<FieldKey, Value>)
  {
    && todo <= Targets(registry, ev) && done == Targets(registry, ev) - todo
    && DispatchWalked(props, server, library, registry, ev, cache0, fields0, done, cache, fields)
    && Visited(props, server, registry, ev, cache0, req0, order, cache, requests)
    && (forall t :: t in order <==> t in done)
  }

  /** How a dispatch ends: the fields as `DispatchOutcome` says, and the coordinator as
      the lookups of the visited targets `order` leave it, the failing one last. */
  ghost predicate DispatchResult(props: Properties, server: Server, library: (string, string) -> Option<Value>,
                                 registry: map<BeanId, map<FieldId, Slot>>, ev: LocalEvent, cache0: map<string, string>,
                                 req0: seq<Request>, fields0: map<FieldKey, Value>, ok: bool, done: set<FieldKey>,
                                 order: seq<FieldKey>, cache: map<string, string>, requests: seq<Request>,
                                 fields: map<FieldKey, Value>)
  {
    && DispatchOutcome(props, server, library, registry, ev, cache0, fields0, ok, done, fields)
    && Visited(props, server, registry, ev, cache0, req0, order, cache, requests)
    && (ok ==> forall t :: t in order <==> t in done)
    && (!ok ==> |order| > 0 && order[|order| - 1] !in done && forall t :: t in order[..|order| - 1] <==> t in done)
  }

  /** A dispatch starts with every target to visit. */
  lemma DispatchBegin(props: Properties, server: Server, library: (string, string) -> Option<Value>,
                      registry: map<BeanId, map<FieldId, Slot>>, ev: LocalEvent, cache0: map<string, string>,
                      req0: seq<Request>, fields0: map<FieldKey, Value>)
    ensures Dispatching(props, server, library, registry, ev, cache0, req0, fields0, Targets(registry, ev), {}, [],
                        cache0, req0, fields0)
  {
    DispatchStart(props, server, library, registry, ev, cache0, fields0);
    assert TargetLookups(props, registry, []) == [];
  }

  /** One target visited: its injection `r` moved the coordinator from `cache`/`requests`
      to `cache'`/`requests'` and the fields from `fields` to `fields'`. A failure ends
      the dispatch; anything else moves the target from `todo` to `done`. */
  lemma DispatchAdvance(props: Properties, server: Server, library: (string, string) -> Option<Value>,
                        registry: map<BeanId, map<FieldId, Slot>>, ev: LocalEvent, cache0: map<string, string>,
                        req0: seq<Request>, fields0: map<FieldKey, Value>, todo: set<FieldKey>, done: set<FieldKey>,
                        order: seq<FieldKey>, cache: map<string, string>, requests: seq<Request>,
                        fields: map<FieldKey, Value>, t: FieldKey, r: Injection,
                        cache': map<string, string>, requests': seq<Request>, fields': map<FieldKey, Value>)
    requires Dispatching(props, server, library, registry, ev, cache0, req0, fields0, todo, done, order, cache, requests, fields)
    requires t in todo
    requires r == Planned(props, server, library, cache, registry[t.0][t.1])
    requires var u := Triple(props, registry[t.0][t.1].binding);
      && cache' == LookupFrom(cache, props.cacheEnabled, server, u.0, u.1, u.2).cache
      && requests' == requests + if IsHit(cache, props.cacheEnabled, u.0, u.1, u.2) then [] else [One(u.0, u.1, u.2)]
    requires fields' == if r.Write? then fields[t := r.v] else fields
    ensures r.Fail? ==>
      DispatchResult(props, server, library, registry, ev, cache0, req0, fields0, false, done, order + [t], cache', requests', fields')
    ensures !r.Fail? ==>
      Dispatching(props, server, library, registry, ev, cache0, req0, fields0, todo - {t}, done + {t}, order + [t],
                  cache', requests', fields')
  {
    DispatchVisit(props, server, library, registry, ev, cache0, fields0, done, cache, fields, t, r, cache', fields');
    VisitedStep(props, server, registry, ev, cache0, req0, order, cache, requests, t, cache', requests');
    assert (order + [t])[..|order|] == order;
  }

  /** A dispatch that visited every target ends successfully. */
  lemma DispatchFinish(props: Properties, server: Server, library: (string, string) -> Option<Value>,
                       registry: map<BeanId, map<FieldId, Slot>>, ev: LocalEvent, cache0: map<string, string>,
                       req0: seq<Request>, fields0: map<FieldKey, Value>, done: set<FieldKey>,
                       order: seq<FieldKey>, cache: map<string, string>, requests: seq<Request>,
                       fields: map<FieldKey, Value>)
    requires Dispatching(props, server, library, registry, ev, cache0, req0, fields0, {}, done, order, cache, requests, fields)
    ensures DispatchResult(props, server, library, registry, ev, cache0, req0, fields0, true, done, order, cache, requests, fields)
  {
    DispatchEnd(props, server, library, registry, ev, cache0, fields0, done, cache, fields, None);
  }

  // ------------------------------------------- from a change message to the fields

  /** The value a target of a relevant change for `key` reads after the listener's
      refresh: the refresh asked `server`; the target's own lookup, made later, reads the
      refreshed cache slot when there is one and asks `later` otherwise. */
  function FreshValue(props: Properties, server: Server, later: Server, key: string): Option<string> {
    var reply := server.fetchOne(props.namespace, props.environment, key);
    var again := later.fetchOne(props.namespace, props.environment, key);
    if props.cacheEnabled && reply.Found? then Some(reply.value)
    else if again.Found? then Some(again.value)
    else None
  }

  /** After the refresh, a lookup of the refreshed key answers `FreshValue`. */
  lemma RefreshedLookup(props: Properties, server: Server, later: Server, cache: map<string, string>, key: string)
    ensures var ns := props.namespace;
      var env := props.environment;
      var refreshed := LookupKey(cache - {CanonicalKey(ns, env, key)}, props.cacheEnabled, server, ns, env, Some(key)).cache;
      LookupFrom(refreshed, props.cacheEnabled, later, ns, env, key).value == FreshValue(props, server, later, key)
  {
    RefreshTakesServerValue(cache, props.cacheEnabled, server, props.namespace, props.environment, Some(key));
  }

  /** A relevant change message, end to end: the listener refreshes the key and
      publishes the event; the dispatch that follows (on the refreshed cache, with the
      server then answering as `later`) fails exactly when some target cannot take the
      current value, and leaves every target it injected as the current value decides. A
      message without a key reaches no field. */
  lemma ChangeReachesTargets(props: Properties, server: Server, later: Server, library: (string, string) -> Option<Value>,
                             registry: map<BeanId, map<FieldId, Slot>>, cache: map<string, string>, e: EventFields,
                             message: string, fields0: map<FieldKey, Value>, ok: bool, done: set<FieldKey>,
                             fields: map<FieldKey, Value>)
    requires IsRelevant(props, e)
    requires var ns := props.namespace;
      var env := props.environment;
      var refreshed := LookupKey(cache - {CanonicalKey(ns, env, KeyText(e.key))}, props.cacheEnabled, server, ns, env, e.key).cache;
      DispatchOutcome(props, later, library, registry, LocalEvent(ns, env, e.key, e.changeType, message),
                      refreshed, fields0, ok, done, fields)
    ensures var ev := LocalEvent(props.namespace, props.environment, e.key, e.changeType, message);
      var current := if e.key.Some? then FreshValue(props, server, later, e.key.value) else None;
      && (e.key.None? ==> Targets(registry, ev) == {} && ok && done == {})
      && (e.key.Some? ==>
            && (ok <==> forall t :: t in Targets(registry, ev) ==> Decide(current, registry[t.0][t.1], library) != Fail)
            && (forall t :: t in done ==> Reflects(fields0, fields, t, Decide(current, registry[t.0][t.1], library))))
      && (forall k :: k !in done ==> Unchanged(fields0, fields, k))
  {
    var ns, env := props.namespace, props.environment;
    var ev := LocalEvent(ns, env, e.key, e.changeType, message);
    var refreshed := LookupKey(cache - {CanonicalKey(ns, env, KeyText(e.key))}, props.cacheEnabled, server, ns, env, e.key).cache;
    if e.key.Some? {
      var key := e.key.value;
      var current := FreshValue(props, server, later, key);
      OwnScopeEventsNeverClash(props, registry, ev);
      RefreshedLookup(props, server, later, cache, key);
      forall t | t in Targets(registry, ev)
        ensures Planned(props, later, library, refreshed, registry[t.0][t.1]) == Decide(current, registry[t.0][t.1], library)
      {
        assert Triple(props, registry[t.0][t.1].binding) in TargetTriples(props, registry, ev);
      }
    }
  }

  class Processor {
    const client: ConfigClient
    /** Conversion to the types `converterValor` leaves to a library: None when it throws
        or the result cannot be assigned to the field. */
    const library: (string, string) -> Option<Value>
    /** `beansAnotados`: each registered bean's annotated fields. */
    var registry: map<BeanId, map<FieldId, Slot>>
    /** The values the beans' fields hold. */
    var fields: map<(BeanId, FieldId), Value>

    constructor(client: ConfigClient, library: (string, string) -> Option<Value>, fields: map<(BeanId, FieldId), Value>)
      ensures this.client == client && this.library == library && registry == map[] && this.fields == fields
    {
      this.client := client;
      this.library := library;
      registry := map[];
      this.fields := fields;
    }

    /** `injetarValorConfiguracao`: one lookup in the binding's scope, then the decision. */
    method Inject(key: (BeanId, FieldId), slot: Slot, server: Server) returns (r: Injection)
      modifies this`fields, client
      ensures r == Planned(client.props, server, library, old(client.cacheLocal), slot)
      ensures var t := Triple(client.props, slot.binding);
        client.cacheLocal == LookupFrom(old(client.cacheLocal), client.props.cacheEnabled, server, t.0, t.1, t.2).cache
      ensures var t := Triple(client.props, slot.binding);
        client.requests == old(client.requests) +
          if IsHit(old(client.cacheLocal), client.props.cacheEnabled, t.0, t.1, t.2) then [] else [One(t.0, t.1, t.2)]
      ensures fields == if r.Write? then old(fields)[key := r.v] else old(fields)
    {
      var b := slot.binding;
      var found;
      if b.namespace != "" && b.environment != "" {
        found := client.Fetch(Some(b.value), b.namespace, b.environment, server);
      } else {
        found := client.FetchDefault(b.value, server);
      }
      var resolved := if found.Some? then found.value else b.defaultValue;
      if resolved != "" {
        var converted := Convert(slot.ftype, resolved, library);
        if converted.Some? {
          fields := fields[key := converted.value];
          return Write(converted.value);
        }
      }
      r := if b.required then Fail else Keep;
    }

    /** `postProcessAfterInitialization`: walks the declared fields in order and injects
        each annotated one; a failing required injection stops the walk and leaves the
        bean unregistered; otherwise the bean is registered exactly when it has at least
        one annotated field. When the lookups cannot clash, every annotated field ends as
        its injection on the initial local map says, and the walk fails exactly when one
        of them fails. The coordinator ends as the lookups of the first `visited` declared
        fields leave it: all of them, or up to the one whose injection failed. */
    method Register(bean: BeanId, declared: seq<DeclaredField>, server: Server) returns (ok: bool, ghost visited: nat)
      requires DistinctIds(declared)
      modifies this, client
      ensures registry == if ok && SlotsOf(declared) != map[] then old(registry)[bean := SlotsOf(declared)] else old(registry)
      ensures RegisterOutcome(client.props, server, library, bean, declared, old(client.cacheLocal), old(fields), ok, fields)
      ensures ok ==> visited == |declared|
      ensures !ok ==> 0 < visited <= |declared| && declared[visited - 1].annotation.Some?
      ensures Registered(client.props, server, old(client.cacheLocal), old(client.requests), declared, visited,
                         client.cacheLocal, client.requests)
    {
      var failed, slots;
      failed, slots, visited := WalkFields(bean, declared, server);
      if failed {
        return false, visited;
      }
      if slots != map[] {
        registry := registry[bean := slots];
      }
      ok := true;
    }

    /** The walk of `Register` over the declared fields, in order, up to the first
        failing injection. */
    method WalkFields(bean: BeanId, declared: seq<DeclaredField>, server: Server)
      returns (failed: bool, slots: map<FieldId, Slot>, ghost visited: nat)
      requires DistinctIds(declared)
      modifies this`fields, client
      ensures !failed ==> slots == SlotsOf(declared)
      ensures RegisterOutcome(client.props, server, library, bean, declared, old(client.cacheLocal), old(fields), !failed, fields)
      ensures !failed ==> visited == |declared|
      ensures failed ==> 0 < visited <= |declared| && declared[visited - 1].annotation.Some?
      ensures Registered(client.props, server, old(client.cacheLocal), old(client.requests), declared, visited,
                         client.cacheLocal, client.requests)
    {
      ghost var cache0 := client.cacheLocal;
      ghost var req0 := client.requests;
      ghost var fields0 := fields;
      ghost var done: set<FieldKey> := {};
      slots := map[];
      WalkStart(client.props, server, library, bean, declared, cache0, fields0);
      var i := 0;
      visited := 0;
      while i < |declared|
        invariant Walked(client.props, server, library, bean, declared, cache0, fields0, i, slots, done, client.cacheLocal, fields)
        invariant visited == i
        invariant Registered(client.props, server, cache0, req0, declared, i, client.cacheLocal, client.requests)
        decreases |declared| - i
      {
        failed, slots, done := VisitField(bean, declared, server, cache0, req0, fields0, i, slots, done);
        visited := i + 1;
        if failed {
          return;
        }
        i := i + 1;
      }
      WalkDone(client.props, server, library, bean, declared, cache0, fields0, slots, done, client.cacheLocal, fields);
      failed := false;
    }

    /** The callback registration runs on each declared field: an annotated field is
        recorded and injected; a failing injection ends the walk. */
    method VisitField(bean: BeanId, declared: seq<DeclaredField>, server: Server,
                      ghost cache0: map<string, string>, ghost req0: seq<Request>, ghost fields0: map<FieldKey, Value>,
                      i: nat, slots: map<FieldId, Slot>, ghost done: set<FieldKey>)
      returns (failed: bool, slots': map<FieldId, Slot>, ghost done': set<FieldKey>)
      requires DistinctIds(declared) && i < |declared|
      requires Walked(client.props, server, library, bean, declared, cache0, fields0, i, slots, done, client.cacheLocal, fields)
      requires Registered(client.props, server, cache0, req0, declared, i, client.cacheLocal, client.requests)
      modifies this`fields, client
      ensures failed ==> declared[i].annotation.Some?
      ensures Registered(client.props, server, cache0, req0, declared, i + 1, client.cacheLocal, client.requests)
      ensures failed ==> RegisterOutcome(client.props, server, library, bean, declared, cache0, fields0, false, fields)
      ensures !failed ==>
        Walked(client.props, server, library, bean, declared, cache0, fields0, i + 1, slots', done', client.cacheLocal, fields)
    {
      var d := declared[i];
      slots', done' := slots, done;
      if d.annotation.None? {
        WalkSkip(client.props, server, library, bean, declared, cache0, fields0, i, slots, done, client.cacheLocal, fields);
        RegisteredStep(client.props, server, cache0, req0, declared, i, client.cacheLocal, client.requests,
                       client.cacheLocal, client.requests);
        return false, slots', done';
      }
      var slot := Slot(d.ftype, d.annotation.value);
      ghost var cacheBefore := client.cacheLocal;
      ghost var requestsBefore := client.requests;
      ghost var fieldsBefore := fields;
      var r := Inject((bean, d.id), slot, server);
      RegisteredStep(client.props, server, cache0, req0, declared, i, cacheBefore, requestsBefore,
                     client.cacheLocal, client.requests);
      if r.Fail? {
        WalkFail(client.props, server, library, bean, declared, cache0, fields0, i, slots, done, cacheBefore, fieldsBefore);
        return true, slots', done';
      }
      WalkInject(client.props, server, library, bean, declared, cache0, fields0, i, slots, done, cacheBefore, fieldsBefore,
                 slot, client.cacheLocal, fields);
      slots' := slots[d.id := slot];
      done' := done + {(bean, d.id)};
      failed := false;
    }

    /** `processarMudancaConfiguracao`: re-injects every registered field that matches
        the event and is refreshable, in the registry's iteration order; a failing
        required injection throws and stops the walk. `done` names the fields injected
        without failure; `order` names the targets visited, in turn, the failing one last.
        The coordinator ends as the lookups of `order` leave it. */
    method Dispatch(ev: LocalEvent, server: Server) returns (ok: bool, ghost done: set<FieldKey>, ghost order: seq<FieldKey>)
      modifies this`fields, client
      ensures DispatchResult(client.props, server, library, registry, ev, old(client.cacheLocal), old(client.requests),
                             old(fields), ok, done, order, client.cacheLocal, client.requests, fields)
    {
      ghost var cache0 := client.cacheLocal;
      ghost var req0 := client.requests;
      ghost var fields0 := fields;
      DispatchBegin(client.props, server, library, registry, ev, cache0, req0, fields0);
      var todo := Targets(registry, ev);
      done, order := {}, [];
      while todo != {}
        invariant Dispatching(client.props, server, library, registry, ev, cache0, req0, fields0, todo, done, order,
                              client.cacheLocal, client.requests, fields)
        decreases todo
      {
        var t :| t in todo;
        var failed := VisitTarget(ev, server, cache0, req0, fields0, todo, t, done, order);
        if failed {
          return false, done, order + [t];
        }
        todo := todo - {t};
        done := done + {t};
        order := order + [t];
      }
      DispatchFinish(client.props, server, library, registry, ev, cache0, req0, fields0, done, order,
                     client.cacheLocal, client.requests, fields);
      ok := true;
    }

    /** One target of a dispatch: its field is re-injected; a failing injection ends
        the dispatch. */
    method VisitTarget(ev: LocalEvent, server: Server, ghost cache0: map<string, string>, ghost req0: seq<Request>,
                       ghost fields0: map<FieldKey, Value>, ghost todo: set<FieldKey>, t: FieldKey,
                       ghost done: set<FieldKey>, ghost order: seq<FieldKey>)
      returns (failed: bool)
      requires Dispatching(client.props, server, library, registry, ev, cache0, req0, fields0, todo, done, order,
                           client.cacheLocal, client.requests, fields)
      requires t in todo
      modifies this`fields, client
      ensures failed ==>
        DispatchResult(client.props, server, library, registry, ev, cache0, req0, fields0, false, done, order + [t],
                       client.cacheLocal, client.requests, fields)
      ensures !failed ==>
        Dispatching(client.props, server, library, registry, ev, cache0, req0, fields0, todo - {t}, done + {t}, order + [t],
                    client.cacheLocal, client.requests, fields)
    {
      ghost var cacheBefore := client.cacheLocal;
      ghost var requestsBefore := client.requests;
      ghost var fieldsBefore := fields;
      var r := Inject(t, registry[t.0][t.1], server);
      DispatchAdvance(client.props, server, library, registry, ev, cache0, req0, fields0, todo, done, order,
                      cacheBefore, requestsBefore, fieldsBefore, t, r, client.cacheLocal, client.requests, fields);
      failed := r.Fail?;
    }

    /** `getQuantidadeBeansAnotados`. */
    method BeanCount() returns (n: nat)
      ensures n == |registry|
    {
      n := |registry|;
    }
  }
}
