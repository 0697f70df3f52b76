/** The change dispatcher of `ServicoListenerMudancaConfiguracao`: a message from the
    change topic is decoded, kept only when it names the client's own namespace and
    environment, and then refreshes that one key and is re-published locally. JSON
    decoding is a partial function given to the listener; publication appends to a log. */
module ChangeListener {
  import opened Wrappers
  import opened Settings
  import opened ConfigServer
  import opened ClientService

  /** A JSON value, as far as the event's fields care. */
  datatype Json = JsonString(s: string) | JsonNull | JsonOther

  /** `(String) evento.get(name)`: null for an absent name or a JSON null, the text of a
      string, and a failed cast for anything else. */
  datatype Cast = Null | Str(text: string) | BadCast

  function CastField(obj: map<string, Json>, name: string): Cast {
    if name !in obj then Null
    else match obj[name]
      case JsonString(s) => Str(s)
      case JsonNull => Null
      case JsonOther => BadCast
  }

  function AsOption(c: Cast): Option<string>
    requires !c.BadCast?
  {
    if c.Str? then Some(c.text) else None
  }

  /** The four fields an event carries; each may be null. */
  datatype EventFields = EventFields(namespace: Option<string>, environment: Option<string>,
                                     key: Option<string>, changeType: Option<string>)

  /** The four casts, in order; any failed cast makes the whole message fail. */
  function Extract(obj: map<string, Json>): (r: Option<EventFields>)
    ensures r.Some? <==> forall name :: name in ["namespace", "environment", "key", "changeType"] ==> !CastField(obj, name).BadCast?
    ensures r.Some? ==> r.value.key == (if "key" in obj && obj["key"].JsonString? then Some(obj["key"].s) else None)
  {
    var ns := CastField(obj, "namespace");
    var env := CastField(obj, "environment");
    var key := CastField(obj, "key");
    var change := CastField(obj, "changeType");
    if ns.BadCast? || env.BadCast? || key.BadCast? || change.BadCast? then None
    else Some(EventFields(AsOption(ns), AsOption(env), AsOption(key), AsOption(change)))
  }

  /** `isEventoRelevante`: the configured namespace and environment equal the event's;
      a null field never matches. */
  predicate IsRelevant(props: Properties, fields: EventFields) {
    fields.namespace == Some(props.namespace) && fields.environment == Some(props.environment)
  }

  /** `EventoMudancaConfiguracao`: the local event handed to interested beans. */
  datatype LocalEvent = LocalEvent(namespace: string, environment: string, key: Option<string>,
                                   changeType: Option<string>, rawMessage: string)

  /** How the processing of one message ended. */
  datatype Outcome = Malformed | Ignored | Applied

  class Listener {
    const client: ConfigClient
    /** JSON decoding to an object; None when the text is not a JSON object. */
    const parse: string -> Option<map<string, Json>>
    /** Every local event published, in order. */
    ghost var published: seq<LocalEvent>

    constructor(client: ConfigClient, parse: string -> Option<map<string, Json>>)
      ensures this.client == client && this.parse == parse && published == []
    {
      this.client := client;
      this.parse := parse;
      published := [];
    }

    /** The fields of a message, or None when it does not decode or a cast fails. */
    function Decode(message: string): Option<EventFields>
      reads this
    {
      match parse(message)
      case None => None
      case Some(obj) => Extract(obj)
    }

    /** `processarMudancaConfiguracao`: a malformed or irrelevant message changes
        nothing; a relevant one refreshes its key in its scope (the new value comes from
        the server, not the message) and then publishes exactly one local event with the
        extracted fields and the raw message. No error escapes. */
    method Process(message: string, server: Server) returns (outcome: Outcome)
      modifies this, client
      ensures Decode(message).None? ==> outcome == Malformed
      ensures Decode(message).Some? && !IsRelevant(client.props, Decode(message).value) ==> outcome == Ignored
      ensures Decode(message).Some? && IsRelevant(client.props, Decode(message).value) ==> outcome == Applied
      ensures outcome != Applied ==>
        client.cacheLocal == old(client.cacheLocal) && client.requests == old(client.requests) && published == old(published)
      ensures outcome == Applied ==>
        var e := Decode(message).value;
        var ns := client.props.namespace;
        var env := client.props.environment;
        && client.cacheLocal == LookupKey(old(client.cacheLocal) - {CanonicalKey(ns, env, KeyText(e.key))},
                                          client.props.cacheEnabled, server, ns, env, e.key).cache
        && client.requests == old(client.requests) + [One(ns, env, UriSegment(e.key))]
        && published == old(published) + [LocalEvent(ns, env, e.key, e.changeType, message)]
    {
      var fields := Decode(message);
      if fields.None? {
        return Malformed;
      }
      var e := fields.value;
      if !(e.namespace == Some(client.props.namespace) && e.environment == Some(client.props.environment)) {
        return Ignored;
      }
      client.Refresh(e.key, e.namespace.value, e.environment.value, server);
      published := published + [LocalEvent(e.namespace.value, e.environment.value, e.key, e.changeType, message)];
      outcome := Applied;
    }
  }

  /** Two messages that decode to the same namespace, environment and key leave the
      local map in the same state, whatever else they carry: the value never comes
      from the message. */
  lemma ValueNotFromMessage(props: Properties, server: Server, cache: map<string, string>, e1: EventFields, e2: EventFields)
    requires IsRelevant(props, e1) && IsRelevant(props, e2) && e1.key == e2.key
    ensures LookupKey(cache - {CanonicalKey(e1.namespace.value, e1.environment.value, KeyText(e1.key))}, props.cacheEnabled,
                      server, e1.namespace.value, e1.environment.value, e1.key)
         == LookupKey(cache - {CanonicalKey(e2.namespace.value, e2.environment.value, KeyText(e2.key))}, props.cacheEnabled,
                      server, e2.namespace.value, e2.environment.value, e2.key)
  {
  }

  /** The update message of the scenario below decodes to its four fields; its "value"
      member is not one of them. */
  lemma UpdateMessageFields(obj: map<string, Json>)
    requires obj == map["namespace" := JsonString("default"), "environment" := JsonString("dev"),
                        "key" := JsonString("db.url"), "changeType" := JsonString("UPDATE"),
                        "value" := JsonOther]
    ensures Extract(obj) == Some(EventFields(Some("default"), Some("dev"), Some("db.url"), Some("UPDATE")))
  {
    assert CastField(obj, "namespace") == Str("default");
    assert CastField(obj, "environment") == Str("dev");
    assert CastField(obj, "key") == Str("db.url");
    assert CastField(obj, "changeType") == Str("UPDATE");
  }

  /** The scenario of a relevant update: the changed key is re-read from the server and
      the new value replaces the stale one, while the rest of the map is untouched. */
  method RelevantUpdateScenario(server: Server, parse: string -> Option<map<string, Json>>, message: string)
    requires parse(message) == Some(map["namespace" := JsonString("default"), "environment" := JsonString("dev"),
                                        "key" := JsonString("db.url"), "changeType" := JsonString("UPDATE"),
                                        "value" := JsonOther])
    requires server.fetchOne("default", "dev", "db.url") == Found("jdbc:new")
  {
    UpdateMessageFields(parse(message).value);
    var c := CanonicalKey("default", "dev", "db.url");
    var other := CanonicalKey("other", "prod", "x");
    assert c != other by {
      assert |c| != |other|;
    }
    var client := new ConfigClient(Defaults);
    var stale := map[c := "jdbc:old", other := "1"];
    client.cacheLocal := stale;
    var listener := new Listener(client, parse);
    var outcome := listener.Process(message, server);
    assert outcome == Applied;
    RefreshTakesServerValue(stale, true, server, "default", "dev", Some("db.url"));
    assert client.cacheLocal[c] == "jdbc:new" && client.cacheLocal[other] == "1";
    assert client.cacheLocal.Keys == {c, other};
    assert |listener.published| == 1;
  }
}
