# Configuration client core, in Dafny

A model of the client-side engine of a configuration system. A Java client reads
configuration values from a remote server, keeps them in a local map and keeps that
map in step with the server. The engine has six parts:

- the access coordinator `ServicoClienteConfiguracao`;
- the periodic synchronizer `ServicoSincronizacaoConfiguracao`;
- the change-event listener `ServicoListenerMudancaConfiguracao`;
- the registry of annotated bean fields `ProcessadorValorConfiguracao`;
- the statistics-keeping cache `CacheInteligente`;
- the converter and pattern registry `ValidadorTipos`.

Modules, one per file:

| file | module | what it holds |
|---|---|---|
| `wrappers.dfy` | `Wrappers` | `Option` |
| `settings.dfy` | `Settings` | the client settings and their defaults |
| `config_server.dfy` | `ConfigServer` | the server as three abstract answers, and the request log entries |
| `javalang.dfy` | `JavaLang` | `String.trim`, `contains`, `split`, `Integer.valueOf`, `Long.valueOf`, `Boolean.valueOf` |
| `client_service.dfy` | `ClientService` | the coordinator: class `ConfigClient` over `cacheLocal` |
| `sync_service.dfy` | `SyncService` | the synchronizer: class `Synchronizer`, one tick as a method |
| `change_listener.dfy` | `ChangeListener` | the listener: class `Listener` and the published local events |
| `value_processor.dfy` | `ValueProcessor` | the registry: class `Processor`, registration and dispatch loops |
| `smart_cache.dfy` | `SmartCache` | the cache: class `Cache` with its value map, timestamp map and counters |
| `type_validator.dfy` | `TypeValidator` | the registry: class `Validator`, `Convert` and `Validate` |

Each class that the Java code updates in place is a Dafny `class` whose methods state
their new state in terms of a specification function of the old state. The properties
are lemmas about those functions.

Some things sit outside the JVM code shown and become parameters:

- The server is a `Server` value with three answers:
  - one value per (namespace, environment, key);
  - a bulk map per (namespace, environment);
  - a health body.
- The clock is a number passed to each tick.
- Library parsers (floating point, dates, Jackson) are a `library` function.
- The regular-expression engine and `Pattern.compile` are functions of the validator.
- JSON decoding of a change message is a `parse` function of the listener.

A ghost log `requests` records every data request the coordinator sends. This makes
"the server was not consulted" a statement about the log.

The model follows the code as written where it behaves differently from what its
comments and the surrounding design suggest:

- The synchronizer's diff looks the server's raw keys up in the local map, whose keys
  are canonical (`ns:env:key`). Whenever no server key holds a colon, every entry
  counts as a difference. A steady tick whose bulk reply is a successful, non-empty map
  without nulls therefore always reloads everything
  (`SyncService.SteadyTickAlwaysReloads`).
- A bulk reply holding a JSON null makes `ConcurrentHashMap.put` throw during the
  merge. The entries merged before the null stay in the map, and the caller gets an
  empty map. The merge order is left open.
- The `ip` pattern accepts octets with leading zeros such as `010` and `00`, since
  `[01]?[0-9][0-9]?` allows them. "Four numbers 0..255" is stated over the digits'
  value, with up to three digits each.
- The canonical key is not injective when a namespace or an environment holds `:`
  (`ClientService.CanonicalKeyCollision`).
- A change event without a key refreshes the canonical key ending in `null`, since
  string concatenation prints null that way. The server request for it carries an
  empty key segment, since the URI template expands null to nothing
  (`ClientService.NullKeyLookup`).

## Model

| member | source | states |
|---|---|---|
| ClientService.CutAtFirst | src/main/java/com/configsystem/client/servico/ServicoClienteConfiguracao.java:60 | the cut is absent exactly when the separator is absent; otherwise the text is the separator-free head, the separator and the rest |
| ClientService.CutAtFirstOfJoin | src/main/java/com/configsystem/client/servico/ServicoClienteConfiguracao.java:60 | cutting "a:b" at the first ':' gives back a and b when a holds no ':' |
| ClientService.CanonicalKeyRoundTrip | src/main/java/com/configsystem/client/servico/ServicoClienteConfiguracao.java:60 | a canonical key splits back into its namespace, environment and key when the first two hold no ':' |
| ClientService.CanonicalKeyInjective | src/main/java/com/configsystem/client/servico/ServicoClienteConfiguracao.java:60 | two canonical keys are equal exactly when their triples are equal, for colon-free namespaces and environments |
| ClientService.CanonicalKeyCollision | src/main/java/com/configsystem/client/servico/ServicoClienteConfiguracao.java:60 | two different triples share a canonical key once a namespace or environment holds ':' |
| ClientService.CanonicalKeySameScope | src/main/java/com/configsystem/client/servico/ServicoClienteConfiguracao.java:108 | within one namespace and environment, different raw keys get different canonical keys |
| ClientService.CanonicalKey | src/main/java/com/configsystem/client/servico/ServicoClienteConfiguracao.java:60 | the cache key is namespace, environment and key joined by ':' |
| ClientService.KeyText | src/main/java/com/configsystem/client/servico/ServicoClienteConfiguracao.java:133 | a null key reads as "null" in the canonical key |
| ClientService.UriSegment | src/main/java/com/configsystem/client/servico/ServicoClienteConfiguracao.java:172 | a null key is an empty segment in the request path |
| ClientService.LookupKey | src/main/java/com/configsystem/client/servico/ServicoClienteConfiguracao.java:59-82 | the cache-aside lookup of a key that may be null: a hit answers from the map; a miss asks the server for the key's path segment and stores a found value under the canonical key only with the cache on |
| ClientService.LookupFrom | src/main/java/com/configsystem/client/servico/ServicoClienteConfiguracao.java:59-82 | the lookup of a non-null key |
| ClientService.NullKeyLookup | src/main/java/com/configsystem/client/servico/ServicoClienteConfiguracao.java:133-137 | a null key is cached under "ns:env:null" but asked of the server with an empty key |
| ClientService.HitIgnoresServer | src/main/java/com/configsystem/client/servico/ServicoClienteConfiguracao.java:63-68 | on a hit (cache on, key present) the answer is the cached value, whatever the server would say |
| ClientService.MissConsultsServer | src/main/java/com/configsystem/client/servico/ServicoClienteConfiguracao.java:71-81 | on a miss a found value is returned and stored only when the cache is on; not-found or failure returns null and leaves the map unchanged |
| ClientService.SecondLookupHits | src/test/java/com/configsystem/client/servico/ServicoClienteConfiguracaoTest.java:124-133 | after a lookup that found a value with the cache on, a second lookup is a hit with the same answer and map |
| ClientService.LookupIndependent | src/main/java/com/configsystem/client/servico/ServicoClienteConfiguracao.java:59-82 | a lookup of another canonical key does not change what a lookup answers |
| ClientService.RefreshTakesServerValue | src/main/java/com/configsystem/client/servico/ServicoClienteConfiguracao.java:132-138 | after remove-then-refetch of a key (null included) its canonical key holds the server's answer to that key's request (cache on, value found) or is absent; every other key is as before |
| ClientService.Canonicalized | src/main/java/com/configsystem/client/servico/ServicoClienteConfiguracao.java:107-110 | every raw key of a bulk reply lands under its canonical key with its value |
| ClientService.CanonicalizedKeys | src/main/java/com/configsystem/client/servico/ServicoClienteConfiguracao.java:107-110 | every key of the moved map is the canonical key of some raw key |
| ClientService.CanonicalizedInsert | src/main/java/com/configsystem/client/servico/ServicoClienteConfiguracao.java:107-110 | moving one more entry adds exactly its canonical key |
| ClientService.MergeStep | src/main/java/com/configsystem/client/servico/ServicoClienteConfiguracao.java:107-110 | the merge invariant is kept by one more put of a non-null value |
| ClientService.MergeCacheStep | src/main/java/com/configsystem/client/servico/ServicoClienteConfiguracao.java:109 | one put extends the merged part of the local map by that key |
| ClientService.MergeComplete | src/main/java/com/configsystem/client/servico/ServicoClienteConfiguracao.java:107-110 | a merge that took every key met no null |
| ClientService.CanonicalKeysHaveSeparator | src/main/java/com/configsystem/client/servico/ServicoClienteConfiguracao.java:108 | every canonical key holds ':' |
| ClientService.ConfigClient.constructor | src/main/java/com/configsystem/client/servico/ServicoClienteConfiguracao.java:32-39 | a new client has an empty local map and has sent no request |
| ClientService.ConfigClient.Fetch | src/main/java/com/configsystem/client/servico/ServicoClienteConfiguracao.java:59-82 | for a key that may be null, the answer and new map are those of the cache-aside lookup; the request log grows by one request exactly on a miss |
| ClientService.ConfigClient.FetchDefault | src/main/java/com/configsystem/client/servico/ServicoClienteConfiguracao.java:44-46 | the lookup in the client's own namespace and environment, one request exactly on a miss |
| ClientService.ConfigClient.FetchOrDefault | src/main/java/com/configsystem/client/servico/ServicoClienteConfiguracao.java:51-54 | the default is returned exactly when the lookup returns null; otherwise the looked-up value; the map and the request log are those of the lookup |
| ClientService.ConfigClient.MergeEntries | src/main/java/com/configsystem/client/servico/ServicoClienteConfiguracao.java:106-111 | succeeds exactly when no value is null; the map gains the canonical keys of the merged non-null entries and nothing else, and all of them on success |
| ClientService.ConfigClient.FetchAll | src/main/java/com/configsystem/client/servico/ServicoClienteConfiguracao.java:94-120 | one bulk request; the server's map is returned unless the request failed, had no body or the merge met a null, when the answer is empty; the merged entries are added and no key is removed |
| ClientService.ConfigClient.FetchAllDefault | src/main/java/com/configsystem/client/servico/ServicoClienteConfiguracao.java:87-89 | the bulk fetch in the client's own namespace and environment |
| ClientService.ConfigClient.Refresh | src/main/java/com/configsystem/client/servico/ServicoClienteConfiguracao.java:132-138 | for a key that may be null, the new map is the lookup's result on the old map without the canonical key; exactly one request, for the key's path segment, is sent |
| ClientService.ConfigClient.RefreshDefault | src/main/java/com/configsystem/client/servico/ServicoClienteConfiguracao.java:125-127 | the refresh in the client's own namespace and environment |
| ClientService.ConfigClient.RefreshAll | src/main/java/com/configsystem/client/servico/ServicoClienteConfiguracao.java:143-146 | the map is cleared, other namespaces included, then holds exactly the merged entries of one bulk fetch |
| ClientService.ConfigClient.IsServerAvailable | src/main/java/com/configsystem/client/servico/ServicoClienteConfiguracao.java:151-164 | up exactly when the health probe answered with a body that contains "UP" |
| ClientService.ConfigClient.Snapshot | src/main/java/com/configsystem/client/servico/ServicoClienteConfiguracao.java:203-205 | a copy equal to the local map; being a value, changing it cannot affect the map |
| ClientService.ConfigClient.ClearCache | src/main/java/com/configsystem/client/servico/ServicoClienteConfiguracao.java:210-212 | the local map is empty and no request is sent |
| ClientService.RefreshAllLoadsExactly | src/main/java/com/configsystem/client/servico/ServicoClienteConfiguracao.java:143-146 | a null-free bulk reply reloads exactly its entries under their canonical keys |
| JavaLang.DropLeading | src/main/java/com/configsystem/client/validacao/ValidadorTipos.java:82 | the rest of the text after its blank prefix, starting with a non-blank char |
| JavaLang.DropTrailing | src/main/java/com/configsystem/client/validacao/ValidadorTipos.java:82 | the text before its blank suffix, ending with a non-blank char |
| JavaLang.TrimSlice | src/main/java/com/configsystem/client/validacao/ValidadorTipos.java:82 | the trim is the slice between a blank prefix and a blank suffix |
| JavaLang.TrimEnds | src/main/java/com/configsystem/client/validacao/ValidadorTipos.java:82 | a non-empty trim starts and ends with non-blank chars |
| JavaLang.TrimEmpty | src/main/java/com/configsystem/client/validacao/ValidadorTipos.java:75 | the trim is empty exactly when the text is blank |
| JavaLang.TrimKeepsTrimmed | src/main/java/com/configsystem/client/validacao/ValidadorTipos.java:82 | text without blank ends is its own trim |
| JavaLang.TrimIdempotent | src/main/java/com/configsystem/client/validacao/ValidadorTipos.java:82 | trimming twice is trimming once |
| JavaLang.Trim | src/main/java/com/configsystem/client/validacao/ValidadorTipos.java:75 | `String.trim`: the text without its blank prefix and suffix |
| JavaLang.Contains | src/main/java/com/configsystem/client/servico/ServicoClienteConfiguracao.java:159 | contains holds exactly when the pattern occurs at some index |
| JavaLang.Fields | src/main/java/com/configsystem/client/validacao/ValidadorTipos.java:56 | splitting always yields at least one piece |
| JavaLang.DropTrailingEmpty | src/main/java/com/configsystem/client/validacao/ValidadorTipos.java:56 | removing trailing empty pieces keeps a prefix whose last piece is not empty |
| JavaLang.FieldsHaveNoSeparator | src/main/java/com/configsystem/client/validacao/ValidadorTipos.java:56 | no piece holds the separator |
| JavaLang.JoinFields | src/main/java/com/configsystem/client/validacao/ValidadorTipos.java:56 | joining the pieces with the separator gives back the text |
| JavaLang.FieldsOfCut | src/main/java/com/configsystem/client/validacao/ValidadorTipos.java:64 | text split at its first separator gives its head followed by the pieces of the rest |
| JavaLang.LastFieldEmpty | src/main/java/com/configsystem/client/validacao/ValidadorTipos.java:56 | the last piece is empty exactly when the text ends with the separator |
| JavaLang.JavaSplitRoundTrip | src/main/java/com/configsystem/client/validacao/ValidadorTipos.java:56 | for text not ending with the separator, split gives at least one separator-free piece and the pieces join back to the text |
| JavaLang.JavaSplit | src/main/java/com/configsystem/client/validacao/ValidadorTipos.java:56 | `split` with limit 0: the text itself when it holds no separator, the pieces without trailing empty ones otherwise |
| JavaLang.JoinSnoc | src/main/java/com/configsystem/client/validacao/ValidadorTipos.java:56 | joining one more piece appends the separator and the piece |
| JavaLang.JoinEmptyTail | src/main/java/com/configsystem/client/validacao/ValidadorTipos.java:56 | trailing empty pieces join as bare separators |
| JavaLang.FieldsOfSeparators | src/main/java/com/configsystem/client/validacao/ValidadorTipos.java:56 | a text of separators only splits into empty pieces |
| JavaLang.KeptFields | src/main/java/com/configsystem/client/validacao/ValidadorTipos.java:56 | the kept pieces are the leading pieces, followed only by empty ones |
| JavaLang.JoinOfEmpties | src/main/java/com/configsystem/client/validacao/ValidadorTipos.java:56 | empty pieces join into separators only |
| JavaLang.SplitPiecesFree | src/main/java/com/configsystem/client/validacao/ValidadorTipos.java:56 | the pieces split keeps hold no separator |
| JavaLang.SplitJoinsBack | src/main/java/com/configsystem/client/validacao/ValidadorTipos.java:56 | when a piece is kept, the text is the kept pieces' join followed by one separator per dropped piece |
| JavaLang.SplitEmptyOnlySeparators | src/main/java/com/configsystem/client/validacao/ValidadorTipos.java:56 | when split keeps nothing, the text is separators only |
| JavaLang.SplitEmptyIffSeparators | src/main/java/com/configsystem/client/validacao/ValidadorTipos.java:56 | split keeps nothing exactly when the text is separators only |
| JavaLang.JavaSplitDropsTrailing | src/main/java/com/configsystem/client/validacao/ValidadorTipos.java:56 | with the separator present, the pieces are separator-free, the last is non-empty, and the text is their join plus one separator per dropped piece; no piece remains exactly when the text is separators only |
| JavaLang.SplitDropsLastPiece | src/main/java/com/configsystem/client/validacao/ValidadorTipos.java:56 | a text ending with the separator loses at least its last, empty, piece |
| JavaLang.SplitAtTrailingSeparators | src/main/java/com/configsystem/client/validacao/ValidadorTipos.java:56 | a text ending with the separator splits into separator-free pieces, the last non-empty, that join back into the text less its trailing separators, at least one; none is left exactly when the text is separators only |
| JavaLang.TrailingSeparatorDropped | src/main/java/com/configsystem/client/validacao/ValidadorTipos.java:56 | "a,b," splits into "a" and "b" |
| JavaLang.LoneSeparatorSplitsToNothing | src/main/java/com/configsystem/client/validacao/ValidadorTipos.java:56 | "," splits into no piece at all |
| JavaLang.NumeralBounds | src/main/java/com/configsystem/client/validacao/ValidadorTipos.java:38 | k digits are worth less than 10^k, and at least 10^(k-1) without a leading zero |
| JavaLang.ParseInteger | src/main/java/com/configsystem/client/validacao/ValidadorTipos.java:38-41 | a parsed number is within the type's range |
| JavaLang.Decimal | src/main/java/com/configsystem/client/validacao/ValidadorTipos.java:38 | printing a natural gives a non-empty run of digits |
| JavaLang.DecimalValue | src/main/java/com/configsystem/client/validacao/ValidadorTipos.java:38 | printed digits are worth the number printed |
| JavaLang.IntegerText | src/main/java/com/configsystem/client/validacao/ValidadorTipos.java:38 | a printed integer is non-empty and has no blank ends |
| JavaLang.ParsePrintedInteger | src/main/java/com/configsystem/client/validacao/ValidadorTipos.java:38-41 | parsing inverts printing for every number in range, in both signs |
| JavaLang.ParseInt | src/main/java/com/configsystem/client/validacao/ValidadorTipos.java:38-39 | `Integer.valueOf`: an optional sign and decimal digits worth a value in the 32-bit range; anything else throws |
| JavaLang.ParseLong | src/main/java/com/configsystem/client/validacao/ValidadorTipos.java:40-41 | `Long.valueOf`: the same over the 64-bit range |
| JavaLang.ParseBoolean | src/main/java/com/configsystem/client/validacao/ValidadorTipos.java:44-45 | `Boolean.valueOf`: true exactly for "true" in any letter case |
| SyncService.DifferingStep | src/main/java/com/configsystem/client/servico/ServicoSincronizacaoConfiguracao.java:79-84 | counting one more entry adds it exactly when its value differs |
| SyncService.CountedStep | src/main/java/com/configsystem/client/servico/ServicoSincronizacaoConfiguracao.java:79-84 | checking one more non-null entry keeps the count equal to the differing entries checked so far |
| SyncService.CountDifferences | src/main/java/com/configsystem/client/servico/ServicoSincronizacaoConfiguracao.java:78-84 | the loop's count is the number of server entries whose value differs from the local value under the same key, or none when a value is null |
| SyncService.NoDifferencesIffInSync | src/main/java/com/configsystem/client/servico/ServicoSincronizacaoConfiguracao.java:86-91 | the count is zero exactly when every server entry is held locally with its value |
| SyncService.RawKeysAlwaysDiffer | src/main/java/com/configsystem/client/servico/ServicoSincronizacaoConfiguracao.java:74-84 | colon-free server keys against a map of canonical keys: every entry counts as a difference |
| SyncService.Synchronizer.constructor | src/main/java/com/configsystem/client/servico/ServicoSincronizacaoConfiguracao.java:26-27 | the server is taken as down and no sync has happened |
| SyncService.Synchronizer.Tick | src/main/java/com/configsystem/client/servico/ServicoSincronizacaoConfiguracao.java:33-66 | sync off: nothing; server down: the flag falls; server back up: full reload; steady up: diff and, on a difference, a reload whose bulk fetch gets its own reply; on up the flag rises and the time is taken |
| SyncService.Synchronizer.SyncIfNeeded | src/main/java/com/configsystem/client/servico/ServicoSincronizacaoConfiguracao.java:71-96 | one bulk fetch and merge, then a full reload, answered by its own reply, exactly when the count is positive |
| SyncService.Synchronizer.ForceSyncNow | src/main/java/com/configsystem/client/servico/ServicoSincronizacaoConfiguracao.java:127-130 | the same step as a scheduled tick |
| SyncService.Synchronizer.IsServerAvailable | src/main/java/com/configsystem/client/servico/ServicoSincronizacaoConfiguracao.java:113-115 | the status seen at the last tick |
| SyncService.Synchronizer.LastSync | src/main/java/com/configsystem/client/servico/ServicoSincronizacaoConfiguracao.java:120-122 | the time of the last tick that found the server up |
| SyncService.TickKeepsCanonicalKeys | src/main/java/com/configsystem/client/servico/ServicoSincronizacaoConfiguracao.java:33-66 | a tick only ever puts canonical keys into the local map |
| SyncService.SteadyTickAlwaysReloads | src/main/java/com/configsystem/client/servico/ServicoSincronizacaoConfiguracao.java:45-53 | a steady tick whose first reply is a non-empty, null-free map with colon-free keys sends two bulk requests and ends with exactly the second reply's entries (none with the cache off or after a failed reload) |
| SyncService.ReloadContents | src/main/java/com/configsystem/client/servico/ServicoClienteConfiguracao.java:143-146 | a reload leaves the entries of a null-free reply under their canonical keys (none with the cache off), and nothing after a failure |
| ChangeListener.Extract | src/main/java/com/configsystem/client/servico/ServicoListenerMudancaConfiguracao.java:55-58 | fields are read exactly when none is a non-string; the key is the string under "key", or null |
| ChangeListener.IsRelevant | src/main/java/com/configsystem/client/servico/ServicoListenerMudancaConfiguracao.java:87-90 | an event is relevant exactly when its namespace and environment equal the client's; a null one never matches |
| ChangeListener.Listener.constructor | src/main/java/com/configsystem/client/servico/ServicoListenerMudancaConfiguracao.java:26-37 | no event published yet |
| ChangeListener.Listener.Process | src/main/java/com/configsystem/client/servico/ServicoListenerMudancaConfiguracao.java:43-82 | a malformed message changes nothing; an event for another scope is ignored; a relevant event refreshes its key (null included) in the client's scope, logs exactly that one request, and publishes one local event with the raw message |
| ChangeListener.ValueNotFromMessage | src/main/java/com/configsystem/client/servico/ServicoListenerMudancaConfiguracao.java:66 | the refresh depends only on the event's key, not on the message's value field |
| ChangeListener.UpdateMessageFields | src/main/java/com/configsystem/client/servico/ServicoListenerMudancaConfiguracao.java:55-58 | a typical update message yields its namespace, environment, key and change type |
| ValueProcessor.Convert | src/main/java/com/configsystem/client/processador/ProcessadorValorConfiguracao.java:136-160 | `converterValor`: the text for String, the Java parsers for the integer and boolean types, the library for the rest; a thrown conversion is none |
| ValueProcessor.Decide | src/main/java/com/configsystem/client/processador/ProcessadorValorConfiguracao.java:98-116 | a null answer falls back to the default; a non-empty value that converts is written; otherwise a required binding fails and an optional one is kept |
| ValueProcessor.DecideCases | src/main/java/com/configsystem/client/processador/ProcessadorValorConfiguracao.java:98-116 | an injection fails exactly for a required binding whose resolved value is empty or does not convert; it writes exactly when the value is non-empty and converts |
| ValueProcessor.TextFieldGetsResolvedText | src/main/java/com/configsystem/client/processador/ProcessadorValorConfiguracao.java:137-138 | a String field receives the resolved text itself |
| ValueProcessor.BareAnnotationKeepsFieldWhenMissing | src/main/java/com/configsystem/client/processador/ProcessadorValorConfiguracao.java:98-109 | a missing value with an empty default leaves the field alone and throws nothing |
| ValueProcessor.StableStep | src/main/java/com/configsystem/client/servico/ServicoClienteConfiguracao.java:59-82 | one lookup among lookups of distinct canonical keys changes none of their answers |
| ValueProcessor.LookupsGrow | src/main/java/com/configsystem/client/servico/ServicoClienteConfiguracao.java:59-82 | lookups keep every cached key and value; a new key is the canonical key of a looked-up triple holding the server's found value, only with the cache on |
| ValueProcessor.LookupsRequests | src/main/java/com/configsystem/client/servico/ServicoClienteConfiguracao.java:71-81 | lookups send at most one request each, each for a looked-up triple that missed at the start |
| ValueProcessor.LookupsWithoutCache | src/main/java/com/configsystem/client/servico/ServicoClienteConfiguracao.java:62-81 | with the cache off every lookup sends its request, in order, and the map is left alone |
| ValueProcessor.LookupsStable | src/main/java/com/configsystem/client/servico/ServicoClienteConfiguracao.java:59-82 | lookups among clash-free triples change none of their answers |
| ValueProcessor.LookupsCached | src/main/java/com/configsystem/client/servico/ServicoClienteConfiguracao.java:71-76 | with the cache on and clash-free triples, a looked-up key ends in the map exactly when its lookup answered a value, holding that value |
| ValueProcessor.ProgressAgrees | src/main/java/com/configsystem/client/processador/ProcessadorValorConfiguracao.java:71-79 | mid-walk, an injection decides as it would have on the initial map |
| ValueProcessor.ProgressStep | src/main/java/com/configsystem/client/processador/ProcessadorValorConfiguracao.java:86-117 | one more successful injection keeps the walk invariant |
| ValueProcessor.RegisterStep | src/main/java/com/configsystem/client/processador/ProcessadorValorConfiguracao.java:39-48 | each annotated field enters the bean's map once, with its type and annotation |
| ValueProcessor.SlotsOfContents | src/main/java/com/configsystem/client/processador/ProcessadorValorConfiguracao.java:39-48 | the bean's map holds exactly the annotated fields |
| ValueProcessor.DeclaredLookupsIn | src/main/java/com/configsystem/client/processador/ProcessadorValorConfiguracao.java:39-48 | every lookup of a registration walk is one of the annotated fields' lookups |
| ValueProcessor.RegisteredStep | src/main/java/com/configsystem/client/processador/ProcessadorValorConfiguracao.java:39-48 | one more declared field moves the coordinator by that field's lookup, or not at all when it has no annotation |
| ValueProcessor.OwnScopeEventsNeverClash | src/main/java/com/configsystem/client/processador/ProcessadorValorConfiguracao.java:122-131 | an event of the client's own scope makes every target look up one and the same triple |
| ValueProcessor.ShouldUpdate | src/main/java/com/configsystem/client/processador/ProcessadorValorConfiguracao.java:122-131 | `deveAtualizarCampo`: an empty namespace or environment matches any event, a given one must equal the event's, and the key must equal the event's |
| ValueProcessor.MatchVersusLookup | src/main/java/com/configsystem/client/processador/ProcessadorValorConfiguracao.java:122-131 | a null event key matches nothing; an unscoped binding matches its key in every scope; a fully scoped binding matches exactly the events of the triple it looks up; a half-scoped binding is looked up in the client's scope but matched against the one element it names |
| ValueProcessor.HalfScopedBindingMissesOwnEvents | src/main/java/com/configsystem/client/processador/ProcessadorValorConfiguracao.java:88-96 | a half-scoped binding naming another namespace or environment reads the client's scope but is never matched by an event of the client's own scope |
| ValueProcessor.BareAnnotationNeverRefreshed | src/main/java/com/configsystem/client/processador/ProcessadorValorConfiguracao.java:74 | a field annotated with its key alone is looked up in the client's scope and is never a dispatch target, refreshable being false by default |
| ValueProcessor.RegisterFrame | src/main/java/com/configsystem/client/processador/ProcessadorValorConfiguracao.java:39-48 | registration writes only the bean's own annotated fields |
| ValueProcessor.WalkFail | src/main/java/com/configsystem/client/processador/ProcessadorValorConfiguracao.java:113-115 | a failing required injection ends registration with failure |
| ValueProcessor.WalkDone | src/main/java/com/configsystem/client/processador/ProcessadorValorConfiguracao.java:50-54 | a walk over every field ends with the bean's full map and success |
| ValueProcessor.DispatchEnd | src/main/java/com/configsystem/client/processador/ProcessadorValorConfiguracao.java:67-80 | a dispatch ends with every target injected, or at a failing one |
| ValueProcessor.VisitedStep | src/main/java/com/configsystem/client/processador/ProcessadorValorConfiguracao.java:71-79 | one more target moves the coordinator by that target's lookup |
| ValueProcessor.TargetLookupsIn | src/main/java/com/configsystem/client/processador/ProcessadorValorConfiguracao.java:71-79 | every lookup of a dispatch is one of its targets' lookups |
| ValueProcessor.DispatchBegin | src/main/java/com/configsystem/client/processador/ProcessadorValorConfiguracao.java:63-67 | a dispatch starts with every target still to visit and the coordinator untouched |
| ValueProcessor.DispatchAdvance | src/main/java/com/configsystem/client/processador/ProcessadorValorConfiguracao.java:71-79 | one target injected: a failure ends the dispatch with that target last in the visit order; anything else moves it to the injected ones |
| ValueProcessor.DispatchFinish | src/main/java/com/configsystem/client/processador/ProcessadorValorConfiguracao.java:63-80 | a dispatch that visited every target ends successfully |
| ValueProcessor.RefreshedLookup | src/main/java/com/configsystem/client/servico/ServicoClienteConfiguracao.java:132-138 | after the listener's refresh, a target's lookup of the key answers the refreshed value when the cache holds it, and asks the server again otherwise |
| ValueProcessor.ChangeReachesTargets | src/main/java/com/configsystem/client/servico/ServicoListenerMudancaConfiguracao.java:66-72 | a relevant change message followed by its dispatch: it fails exactly when some target cannot take the refreshed value, every target it injected ends as that value decides, and no other field changes; a message without a key reaches no field |
| ValueProcessor.Processor.constructor | src/main/java/com/configsystem/client/processador/ProcessadorValorConfiguracao.java:32 | an empty registry |
| ValueProcessor.Processor.Inject | src/main/java/com/configsystem/client/processador/ProcessadorValorConfiguracao.java:86-117 | the field gets the decided value from the coordinator's lookup in the binding's scope; the lookup's new map is kept and one request is logged exactly on a miss |
| ValueProcessor.Processor.Register | src/main/java/com/configsystem/client/processador/ProcessadorValorConfiguracao.java:35-57 | the bean is registered exactly when it has annotated fields and none failed; only its annotated fields change, each as its injection on the initial map says; the coordinator ends as the lookups of the fields walked, up to the failing one, leave it |
| ValueProcessor.Processor.WalkFields | src/main/java/com/configsystem/client/processador/ProcessadorValorConfiguracao.java:39-54 | the registration walk: the bean's map of annotated fields on success, the per-field outcome as for Register, and the coordinator after the lookups of the fields walked |
| ValueProcessor.Processor.VisitField | src/main/java/com/configsystem/client/processador/ProcessadorValorConfiguracao.java:39-48 | one field of the walk: injected when annotated, skipped otherwise |
| ValueProcessor.Processor.Dispatch | src/main/java/com/configsystem/client/processador/ProcessadorValorConfiguracao.java:63-81 | exactly the registered, matching, refreshable fields are re-injected; no other field changes; it stops at the first failure; the coordinator ends as the lookups of the visited targets, in turn, leave it |
| ValueProcessor.Processor.VisitTarget | src/main/java/com/configsystem/client/processador/ProcessadorValorConfiguracao.java:74-77 | one target of a dispatch: re-injected, and the dispatch invariant moved past it or closed at a failure |
| ValueProcessor.Processor.BeanCount | src/main/java/com/configsystem/client/processador/ProcessadorValorConfiguracao.java:164-166 | the number of registered beans |
| SmartCache.Lookup | src/main/java/com/configsystem/client/cache/CacheInteligente.java:61-69 | `buscar`: the stored value and one hit when present; none and one miss otherwise |
| SmartCache.Probe | src/main/java/com/configsystem/client/cache/CacheInteligente.java:102-104 | `contemChave`: the same counted read, answering whether an entry is present |
| SmartCache.Store | src/main/java/com/configsystem/client/cache/CacheInteligente.java:74-79 | `armazenar`: the entry with its creation time and the key's timestamp, replacing any earlier ones |
| SmartCache.Invalidated | src/main/java/com/configsystem/client/cache/CacheInteligente.java:84-88 | `invalidar`: the key leaves both maps |
| SmartCache.Cleared | src/main/java/com/configsystem/client/cache/CacheInteligente.java:93-97 | `limparTudo`: both maps empty, the statistics kept |
| SmartCache.HitRate | src/main/java/com/configsystem/client/cache/CacheInteligente.java:125 | hits over requests, 1 before any request |
| SmartCache.IsUp | src/main/java/com/configsystem/client/cache/CacheInteligente.java:129 | UP exactly when the hit rate exceeds 0.7 |
| SmartCache.Cache.constructor | src/main/java/com/configsystem/client/cache/CacheInteligente.java:37-47 | an empty cache with no statistics |
| SmartCache.Cache.Get | src/main/java/com/configsystem/client/cache/CacheInteligente.java:61-69 | the stored value and a hit when present; empty and a miss otherwise |
| SmartCache.Cache.Put | src/main/java/com/configsystem/client/cache/CacheInteligente.java:74-79 | the value is stored with its time and the key gets a timestamp |
| SmartCache.Cache.Invalidate | src/main/java/com/configsystem/client/cache/CacheInteligente.java:84-88 | the key leaves both maps |
| SmartCache.Cache.Clear | src/main/java/com/configsystem/client/cache/CacheInteligente.java:93-97 | both maps are emptied; the statistics remain |
| SmartCache.Cache.ContainsKey | src/main/java/com/configsystem/client/cache/CacheInteligente.java:102-104 | the same read as a lookup, answering whether a value is present |
| SmartCache.Cache.Size | src/main/java/com/configsystem/client/cache/CacheInteligente.java:116-118 | the number of stored entries |
| SmartCache.Cache.Statistics | src/main/java/com/configsystem/client/cache/CacheInteligente.java:109-111 | the hit and miss counts |
| SmartCache.Cache.Health | src/main/java/com/configsystem/client/cache/CacheInteligente.java:124-140 | UP exactly when the hit rate is above 0.7, reporting the size and the counts |
| SmartCache.UpIffSeventyPercent | src/main/java/com/configsystem/client/cache/CacheInteligente.java:129 | the 0.7 threshold on the hit rate is the integer test 10 * hits > 7 * requests, or no request at all |
| SmartCache.ReadCountsOnce | src/main/java/com/configsystem/client/cache/CacheInteligente.java:61-69 | every read counts one request, a hit exactly when the key is present, and stores nothing |
| SmartCache.PutThenGet | src/main/java/com/configsystem/client/cache/CacheInteligente.java:61-79 | a stored value is read back as a hit, and its key has a timestamp |
| SmartCache.PutTwiceKeepsOne | src/test/java/com/configsystem/client/cache/CacheInteligenteTest.java:171-186 | storing twice under one key leaves one entry, with the newer value |
| SmartCache.InvalidateThenGet | src/main/java/com/configsystem/client/cache/CacheInteligente.java:84-88 | after invalidation the key reads and probes absent and has no timestamp; other keys keep their entries |
| SmartCache.ClearThenGet | src/main/java/com/configsystem/client/cache/CacheInteligente.java:93-97 | after clearing every key reads absent, the size is 0 and no timestamp remains |
| SmartCache.ProbeAgreesWithLookup | src/main/java/com/configsystem/client/cache/CacheInteligente.java:102-104 | the probe says yes exactly when the lookup finds a value, and counts the same |
| SmartCache.OperationsKeepSynced | src/main/java/com/configsystem/client/cache/CacheInteligente.java:74-97 | every operation keeps the timestamp map naming exactly the stored keys, in the absence of the library's asynchronous removal listener, which is not modelled |
| SmartCache.HalfHitRateIsDown | src/test/java/com/configsystem/client/cache/CacheInteligenteTest.java:97-110 | one store, a hit and a miss give a hit rate of 1/2, which reports DOWN |
| TypeValidator.Apply | src/main/java/com/configsystem/client/validacao/ValidadorTipos.java:36-56 | a converter run on the trimmed text: the identity, the Java integer, long and boolean parsers, the comma split, or the library; a thrown parse is a failure |
| TypeValidator.InitialConverters | src/main/java/com/configsystem/client/validacao/ValidadorTipos.java:35-59 | the sixteen types the constructor registers, each with its converter |
| TypeValidator.Convert | src/main/java/com/configsystem/client/validacao/ValidadorTipos.java:74-98 | null or blank text converts to null for every type; an unregistered type gets the untrimmed text back |
| TypeValidator.Validate | src/main/java/com/configsystem/client/validacao/ValidadorTipos.java:103-114 | an unknown pattern name accepts everything |
| TypeValidator.Validator.constructor | src/main/java/com/configsystem/client/validacao/ValidadorTipos.java:30-33 | the sixteen converters and four patterns of the constructor |
| TypeValidator.Validator.RegisterConverter | src/main/java/com/configsystem/client/validacao/ValidadorTipos.java:155-158 | the converter for the type is replaced and nothing else changes |
| TypeValidator.Validator.RegisterPattern | src/main/java/com/configsystem/client/validacao/ValidadorTipos.java:163-166 | an expression that does not compile registers nothing; otherwise the name maps to it |
| TypeValidator.ConvertIgnoresSurroundingBlanks | src/main/java/com/configsystem/client/validacao/ValidadorTipos.java:82 | for a registered type, surrounding blanks make no difference |
| TypeValidator.ConvertRegistered | src/main/java/com/configsystem/client/validacao/ValidadorTipos.java:80-85 | non-blank text is converted by the registered converter, on its trim |
| TypeValidator.IntegerConverters | src/main/java/com/configsystem/client/validacao/ValidadorTipos.java:38-39 | Integer and int are registered with Integer.valueOf |
| TypeValidator.ListConverter | src/main/java/com/configsystem/client/validacao/ValidadorTipos.java:56 | List is registered with the comma split |
| TypeValidator.ListConversion | src/main/java/com/configsystem/client/validacao/ValidadorTipos.java:80-85 | non-blank text converts to a List by splitting its trim at commas |
| TypeValidator.IntegerRoundTrip | src/main/java/com/configsystem/client/validacao/ValidadorTipos.java:38-39 | every printed int converts back to itself as Integer and as int |
| TypeValidator.NonIntegerFails | src/main/java/com/configsystem/client/validacao/ValidadorTipos.java:91-97 | text whose trim is no int fails to convert to Integer or int |
| TypeValidator.IntegerTextConverts | src/main/java/com/configsystem/client/validacao/ValidadorTipos.java:80-85 | text whose trim is an int converts to that int |
| TypeValidator.ListConversionSplits | src/main/java/com/configsystem/client/validacao/ValidadorTipos.java:56 | for a trimmed text that does not end with a comma, List conversion gives comma-free pieces that join back to it |
| TypeValidator.ListConversionTrailingCommas | src/main/java/com/configsystem/client/validacao/ValidadorTipos.java:56 | for a trimmed text ending with a comma, List conversion drops the trailing empty pieces: the comma-free pieces left, the last non-empty, join back to the text less its trailing commas; none is left exactly when the text is commas only |
| TypeValidator.LettersAreNoInteger | src/test/java/com/configsystem/client/validacao/ValidadorTiposTest.java:97-102 | "abc" is no int |
| TypeValidator.PaddedNumberTrims | src/test/java/com/configsystem/client/validacao/ValidadorTiposTest.java:243-253 | "  123  " trims to "123" |
| TypeValidator.DigitsAreInteger | src/test/java/com/configsystem/client/validacao/ValidadorTiposTest.java:243-253 | "123" is the int 123 |
| TypeValidator.IntegerExamples | src/test/java/com/configsystem/client/validacao/ValidadorTiposTest.java:243-253 | "abc" fails as Integer, "  123  " converts to 123 |
| TypeValidator.RegisteredConverterTakesOver | src/main/java/com/configsystem/client/validacao/ValidadorTipos.java:155-158 | a new converter takes over conversions to its type on the trimmed text; other types convert as before |
| TypeValidator.PortMatches | src/main/java/com/configsystem/client/validacao/ValidadorTipos.java:65 | the port expression's six alternatives, anchored |
| TypeValidator.OctetMatches | src/main/java/com/configsystem/client/validacao/ValidadorTipos.java:64 | the octet alternatives of the ip expression |
| TypeValidator.IpMatches | src/main/java/com/configsystem/client/validacao/ValidadorTipos.java:64 | three octets each followed by a dot, then a fourth, anchored |
| TypeValidator.PortMatchesIffPortNumber | src/main/java/com/configsystem/client/validacao/ValidadorTipos.java:65 | the port expression accepts exactly digit runs without a leading zero worth 1..65535 |
| TypeValidator.IpMatchesIffDottedQuad | src/main/java/com/configsystem/client/validacao/ValidadorTipos.java:64 | the ip expression accepts exactly four dot-separated runs of one to three digits worth 0..255 each |
| TypeValidator.DottedQuadFields | src/main/java/com/configsystem/client/validacao/ValidadorTipos.java:64 | four dot-free octets joined by dots split back into exactly those four |
| TypeValidator.OctetMatchesIffOctet | src/main/java/com/configsystem/client/validacao/ValidadorTipos.java:64 | the octet alternatives accept exactly one to three digits worth at most 255 |
| TypeValidator.PortExamples | src/test/java/com/configsystem/client/validacao/ValidadorTiposTest.java:148-160 | 80, 8080, 443 and 65535 are ports; 0, 65536, 99999 and abc are not |
| TypeValidator.RegisteredPatternTakesOver | src/main/java/com/configsystem/client/validacao/ValidadorTipos.java:163-166 | a new expression decides validations under its name; other names validate as before |

## Left out

- HTTP transport, basic-auth header building and JSON decoding: the server is three abstract answers, and a change message is decoded by a parameter.
- Kafka consumer setup, Spring wiring and scheduling: a tick and a message are method calls, and published events are a ghost log.
- Concurrency: thread safety of the concurrent maps and overlapping scheduler runs are not modelled; every operation is atomic.
- Reflection and the Jackson fallback of `converterValor`: fields are a map from (bean, field) to value, and conversion to other types is a `library` parameter that also decides assignability.
- Reflection order: the registry walk follows the declared order, and each field name appears once (`DistinctIds`).
- `logStatusSincronizacao` and all logging: they change no state.
- The synchronizer's outer `catch`: nothing inside the try can throw, because the coordinator catches its own failures.
- Caffeine internals: expiry after write or access, size-bounded eviction, eviction and load counts, and the removal listener. Without them, entries leave only by invalidation or clearing. The listener removes timestamps asynchronously, even on replacement, and that removal is not modelled.
- SmartCache.Cache.Size: `estimatedSize` is exact in the model.
- SmartCache.HitRate: the double hit rate is an exact real, and the zero-request rate is taken as 1.0. The percentage text and load penalty in the health details are left out.
- Floating-point, BigDecimal, date and duration conversion: a `library` parameter, with no property stated.
- `validarRange`: it compares doubles.
- `validarComRegex`, and the `email` and `url` patterns: the regular-expression engine is a parameter, with no property stated.
- `validar` with a null value throws inside the engine; the model's values are never null.
- TypeValidator.Validator.RegisterConverter: classes are compared by name (`OtherClass`), not by class identity.
- ValueProcessor.Processor.Register: the success condition and per-field results are stated only when the bean's lookups never share a canonical key (`NoClash`). Otherwise one injection's lookup could change what a later one sees.
- ValueProcessor.Processor.Dispatch: stated under `NoClash` too; events the listener publishes always satisfy it (`ValueProcessor.OwnScopeEventsNeverClash`).
- Null settings: the namespace and environment are always strings.
- JavaLang.ParseInteger: accepts ASCII digits only, while `Character.digit` in `Integer.valueOf` and `Long.valueOf` also accepts the other Unicode decimal digits.
- SmartCache.Store: `armazenar(k, null)` would store an entry holding null, and a later `buscar(k)` would throw from `Optional.of`; the model's values are never null (`Entry.value` is a string).
- The two clock readings of `armazenar` are separate inputs, as two calls to `LocalDateTime.now()` are.
