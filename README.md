# conga-bass, modelled in Dafny

conga-bass is the glue between the conga framework and the `bass` data
mapper. This project models its per-request layer and the smaller
sequential rules around it.

**Per-request proxies.** When request scoping is on, the kernel listener
replaces the container's `bass` service with a `BassRequestProxy`. That
proxy hands out `SessionRequestProxy` sessions. Their
`ManagerFactoryRequestProxy` in turn builds `ManagerRequestProxy` managers.
Each proxy holds the request and the scoped container. Through
`RequestProxy.wrap` it forwards every member of the wrapped object that it
does not define itself.

**ManagerRequestProxy.** The manager proxy does the following:
- It keeps its own repository cache.
- It reaches the shared manager through an `Object.create` facade, so the
  shared manager is never written.
- It records 13 query operations in the `BassDataCollector`.
- It times every operation on the request's stopwatch section.

**Other rules.** The project also models:
- `findBundleNameFromPath`;
- the REST adapter's sort-string parser and its reply decisions;
- the dashboard's grouping of metadata by manager;
- the fixture registry;
- fixture loading, which sorts fixtures stably by `getOrder()`, then runs
  them one at a time in `FixtureRunner` and in the `bass:fixtures` command.

**How the JavaScript world is represented.** The bass library's objects
(bass, sessions, manager factories, managers, repositories) are
`Js.JsObject`s with own and inherited properties. Every call into the
library is appended to the log of one `Js.Library` object. The library's
answers come from an uninterpreted oracle. Promises are settled outcomes
(`Ok`/`Err`). A synchronous throw is a `Completion.Throw`.

JSON serialisation, `parseInt`, the microtime clock, the file system,
`glob` and `require` are all parameters:
- `stringify` and `serialize` are functions;
- `now` is an integer;
- `dirExists`, `files` and `orderOf` stand for the file-system lookups.

Modules, one per source file (plus `Js`, `Strings`, `Profiler` and
`Containers` for the environment):

| module | source |
|---|---|
| `RequestProxies` | lib/proxy/RequestProxy.js |
| `BassProxies` | lib/proxy/BassRequestProxy.js |
| `SessionProxies` | lib/proxy/SessionRequestProxy.js |
| `ManagerFactoryProxies` | lib/proxy/ManagerFactoryRequestProxy.js |
| `ManagerProxies` | lib/proxy/ManagerRequestProxy.js |
| `Collector` | lib/collector/BassDataCollector.js |
| `KernelListener` | lib/CongaBass.js (onRequestScope) |
| `BundlePaths` | findBundleNameFromPath in lib/CongaBass.js and lib/bass.js (one algorithm) |
| `RestAdapters` | lib/rest/adapter.js |
| `Dashboard` | lib/resources/conga-dashboard/controller/BassController.js |
| `FixtureRegistries` | lib/fixture/FixtureRegistry.js |
| `Fixtures` | lib/fixture/FixtureRunner.js and lib/command/LoadFixturesCommand.js |

## Model

| member | source | states |
|---|---|---|
| RequestProxies.RequestProxy.constructor | lib/proxy/RequestProxy.js:19-22 | the new proxy's own data properties are exactly `_request` and `_container`, stored unchanged; no getters yet |
| RequestProxies.RequestProxy.Set | lib/proxy/BassRequestProxy.js:27 | a subclass's own assignment before `wrap` adds that one data property and changes nothing else |
| RequestProxies.WrapNames | lib/proxy/RequestProxy.js:32 | the names wrap walks are the object's own keys plus the own names of its immediate prototype only (Object.prototype's for a literal) |
| RequestProxies.RequestProxy.Wrap | lib/proxy/RequestProxy.js:28-37 | a falsy or non-object argument changes nothing; otherwise exactly the listed names that read `undefined` on the proxy get a getter, so data properties and class methods win; the getters read the wrapped object live; the wrapped object is not written |
| RequestProxies.Own | lib/proxy/RequestProxy.js:19-22 | a subclass's own properties are `_request`, `_container` and its own fields |
| RequestProxies.NewWrapped | lib/proxy/SessionRequestProxy.js:24-35 | super constructor, then own fields, then `wrap`: the forwarded names are those unset after the own fields are in place, and the remaining fields are the own fields minus the forwarded names |
| BassProxies.BassRequestProxy.constructor | lib/proxy/BassRequestProxy.js:24-30 | `_bass` is stored before wrap, and every other unset member of bass forwards to the global instance |
| BassProxies.BassRequestProxy.CreateSession | lib/proxy/BassRequestProxy.js:36-38 | bass's `createSession` is called exactly once with no arguments; the result is a fresh SessionRequestProxy for this proxy's request and container (nothing cached); throws pass through |
| SessionProxies.SessionFields | lib/proxy/SessionRequestProxy.js:28-31 | the session proxy's own fields are the factory proxy and a fresh empty `managers` object |
| SessionProxies.SessionRequestProxy.constructor | lib/proxy/SessionRequestProxy.js:24-35 | `managerFactory` and `managers` are assigned before wrap, so the session's own members of those names are not forwarded; all other unset session members are |
| SessionProxies.NewSessionProxy | lib/proxy/SessionRequestProxy.js:24-35 | reading `session.managerFactory` throws a TypeError exactly for an undefined or null session; otherwise that factory is wrapped in a fresh ManagerFactoryRequestProxy with the same request and container |
| ManagerFactoryProxies.ManagerFactoryRequestProxy.constructor | lib/proxy/ManagerFactoryRequestProxy.js:24-30 | `_managerFactory` is stored before wrap and the factory's other members forward |
| ManagerFactoryProxies.ManagerFactoryRequestProxy.Factory | lib/proxy/ManagerFactoryRequestProxy.js:39-45 | the underlying `factory` is called exactly once with identical arguments; its manager comes back in a fresh ManagerRequestProxy (empty cache, the container's stopwatch and collector, this proxy's request) |
| ManagerProxies.Facade.constructor | lib/proxy/ManagerRequestProxy.js:27 | the facade has the shared manager as prototype and only its own overrides |
| ManagerProxies.RepositoryCache.constructor | lib/proxy/ManagerRequestProxy.js:34 | each proxy's repository cache starts empty |
| ManagerProxies.ManagerRequestProxy.constructor | lib/proxy/ManagerRequestProxy.js:23-44 | the facade overrides only `getRepository`; the cache is new and empty; section and collector come from the container; the manager is wrapped last; the shared manager is unchanged |
| ManagerProxies.AdapterName | lib/proxy/ManagerRequestProxy.js:50-52 | `definition.adapter.name` when truthy, else "bass"; a TypeError exactly when the definition or adapter is undefined or null; the result is always truthy |
| ManagerProxies.EventName | lib/proxy/ManagerRequestProxy.js:61 | the event name is the adapter, a dot and the title |
| ManagerProxies.ManagerRequestProxy.Stopwatch | lib/proxy/ManagerRequestProxy.js:59-62 | without a section the result is false and no event exists; otherwise one new event named `adapter.title` in category `adapter`, and the handle points at it |
| ManagerProxies.ManagerRequestProxy.StopEvent | lib/proxy/ManagerRequestProxy.js:71-72 | `stopwatch && stopwatch.stop()`: only the handled event's stop count grows |
| ManagerProxies.ManagerRequestProxy.Promise | lib/proxy/ManagerRequestProxy.js:69-73 | the settled value or error passes through unchanged and the event is stopped on either path |
| ManagerProxies.SaveTarget | lib/collector/BassDataCollector.js:35-53 | `saveQuery` throws a TypeError exactly when the adapter name read throws or the name is one `in` finds on Object.prototype (its `queries` is undefined); otherwise the name is used as it is |
| ManagerProxies.ManagerRequestProxy.SaveQuery | lib/proxy/ManagerRequestProxy.js:132 | `saveQuery` under the adapter name: a TypeError from `getAdapterName`, or an adapter named like an Object.prototype member, saves nothing and throws; otherwise exactly one query is saved for that adapter; no event or manager call happens either way |
| ManagerProxies.ManagerRequestProxy.CallManager | lib/proxy/ManagerRequestProxy.js:161 | exactly one call to the facade with the same arguments, its answer returned; a TypeError and no call when the member is not a function |
| ManagerProxies.ManagerRequestProxy.Timed | lib/proxy/ManagerRequestProxy.js:149-155 | one event started, one manager call, and the event stopped once the call settles |
| ManagerProxies.ManagerRequestProxy.Record | lib/proxy/ManagerRequestProxy.js:157-164 | a recorded operation saves exactly one query under the adapter name, then makes the timed call; a failing adapter-name read, or an adapter named like an Object.prototype member, throws before the stopwatch or the manager is touched |
| ManagerProxies.ManagerRequestProxy.Find | lib/proxy/ManagerRequestProxy.js:157-164 | records `find` with `{name, criteria: {id}}` and forwards the same arguments |
| ManagerProxies.ManagerRequestProxy.FindByQuery | lib/proxy/ManagerRequestProxy.js:166-173 | records `findByQuery` with `{name, query}` and forwards the same arguments |
| ManagerProxies.ManagerRequestProxy.FindCountByQuery | lib/proxy/ManagerRequestProxy.js:175-182 | records `findCountByQuery` with `{name, query}` and forwards the same arguments |
| ManagerProxies.ManagerRequestProxy.FindBy | lib/proxy/ManagerRequestProxy.js:184-191 | records `findBy` with `{name, criteria, sort, skip, limit}` and forwards the same arguments |
| ManagerProxies.ManagerRequestProxy.FindWhereIn | lib/proxy/ManagerRequestProxy.js:193-200 | records `findWhereIn` with `{name, field, values, sort, limit}` and forwards the same arguments |
| ManagerProxies.ManagerRequestProxy.FindCountBy | lib/proxy/ManagerRequestProxy.js:202-209 | records `findCountBy` with `{name, criteria}` and forwards the same arguments |
| ManagerProxies.ManagerRequestProxy.FindOneBy | lib/proxy/ManagerRequestProxy.js:211-218 | records `findOneBy` with `{name, criteria, sort}` and forwards the same arguments |
| ManagerProxies.ManagerRequestProxy.RemoveBy | lib/proxy/ManagerRequestProxy.js:140-147 | records `removeBy` with `{name, criteria}` and forwards the same arguments |
| ManagerProxies.ManagerRequestProxy.CreateSqlQuery | lib/proxy/ManagerRequestProxy.js:220-227 | records `createSqlQuery` with `{sql, params, repositoryName}`, forwards the same arguments, and times it under the title as written (SqlLabelAsWritten), so a missing name gives "undefinedcreateSqlQuery" |
| ManagerProxies.ManagerRequestProxy.StartTransaction | lib/proxy/ManagerRequestProxy.js:229-236 | records `startTransaction` with the default `{}` and calls the manager without arguments, timed as `transaction.start` |
| ManagerProxies.ManagerRequestProxy.CommitTransaction | lib/proxy/ManagerRequestProxy.js:238-245 | the same shape for `commitTransaction`, timed as `transaction.commit` |
| ManagerProxies.ManagerRequestProxy.RollbackTransaction | lib/proxy/ManagerRequestProxy.js:247-254 | the same shape for `rollbackTransaction`, timed as `transaction.rollback` |
| ManagerProxies.ManagerRequestProxy.GetRepository | lib/proxy/ManagerRequestProxy.js:77-87 | the exact log and cache on every path: a cached name, or one `in` finds on Object.prototype, is answered with no call; a missing `getRepository` throws with no call; on a miss the shared `getRepository` is called once with the facade; an error, a non-object answer or a facade without `_setManager` stops there with that one call logged and the cache unchanged; on success `_setManager(this)` is the second call and the fresh facade is cached under the name |
| ManagerProxies.ManagerRequestProxy.CallRepository | lib/proxy/ManagerRequestProxy.js:135 | one `updateBy(criteria, data)` call on the repository the cache handed out, or a TypeError without a call |
| ManagerProxies.ManagerRequestProxy.CallAndSettle | lib/proxy/ManagerRequestProxy.js:134-136 | a repository with a callable member gets exactly one more logged call, its answer comes back and the event is stopped once; otherwise the lookup's error, or a TypeError, with no call and no stop |
| ManagerProxies.ManagerRequestProxy.UpdateThrough | lib/proxy/ManagerRequestProxy.js:134-137 | the log is the one after the repository lookup, followed by exactly `updateBy(criteria, data)` when the repository has that function; then the answer is returned and the event stopped once; otherwise the lookup's error or a TypeError, with nothing after the lookup's calls and the event left running |
| ManagerProxies.ManagerRequestProxy.TimedUpdate | lib/proxy/ManagerRequestProxy.js:133-137 | the event `adapter.name.updateBy` is appended; with a callable repository it ends with one stop, the log is the lookup's calls then `updateBy`, and the answer is returned; on a throw the event has no stop and no `updateBy` call is logged |
| ManagerProxies.ManagerRequestProxy.UpdateBy | lib/proxy/ManagerRequestProxy.js:131-138 | records `updateBy` with `{name, criteria, data}`, or throws with nothing changed when that save throws; then the timed call as in TimedUpdate, through the proxy's own cache, with criteria and data only and the exact log on both the success and the throw path |
| ManagerProxies.ManagerRequestProxy.StartMapping | lib/proxy/ManagerRequestProxy.js:90-91 | an event is started (not stopped) and the manager is called once; the handle is returned for the callbacks |
| ManagerProxies.ManagerRequestProxy.Mapping | lib/proxy/ManagerRequestProxy.js:89-95 | `metadata.name` throws on undefined or null metadata before any event or call; otherwise the event is titled `name.op` |
| ManagerProxies.ManagerRequestProxy.MapToModel | lib/proxy/ManagerRequestProxy.js:89-95 | mapToModel forwards metadata, data, populate and a completion callback; nothing is recorded |
| ManagerProxies.ManagerRequestProxy.MapDataToModel | lib/proxy/ManagerRequestProxy.js:97-108 | mapDataToModel forwards metadata, document, a completion callback and a progress callback; nothing is recorded |
| ManagerProxies.ManagerRequestProxy.MapDataToModels | lib/proxy/ManagerRequestProxy.js:110-121 | mapDataToModels has the same shape; nothing is recorded |
| ManagerProxies.ManagerRequestProxy.MapModelToData | lib/proxy/ManagerRequestProxy.js:123-129 | mapModelToData forwards metadata, model and a completion callback; nothing is recorded |
| ManagerProxies.ManagerRequestProxy.Done | lib/proxy/ManagerRequestProxy.js:89-129 | the completion callback stops the event once, then passes the caller's callback exactly its declared parameters, as many as `CallbackArity` gives for the operation: `(err, data)` for the three model mappings, `(data)` for mapModelToData, `(err)` for closeConnection (lines 266-268); extra arguments are dropped and missing ones are undefined |
| ManagerProxies.ManagerRequestProxy.Progress | lib/proxy/ManagerRequestProxy.js:102-107 | a lap only when there is an event and the index is above 0; the walk callback only when it is a function, with the same arguments |
| ManagerProxies.ManagerRequestProxy.Flush | lib/proxy/ManagerRequestProxy.js:149-155 | timed as `flush`, not recorded, same arguments |
| ManagerProxies.ManagerRequestProxy.ConnectWithConfig | lib/proxy/ManagerRequestProxy.js:256-262 | timed as `connection.open.config`, not recorded, same arguments |
| ManagerProxies.ManagerRequestProxy.CloseConnection | lib/proxy/ManagerRequestProxy.js:264-270 | the event `connection.close` is started, the manager gets only the wrapping callback, and nothing is recorded |
| ManagerProxies.SqlLabelAsWritten | lib/proxy/ManagerRequestProxy.js:222 | the title as written: a truthy name gets `name.`; a falsy name is converted and prefixed as it is |
| ManagerProxies.SqlLabelPrefixesMissingName | lib/proxy/ManagerRequestProxy.js:222 | without a repository name the written title is "undefinedcreateSqlQuery", while the intended one is "createSqlQuery" |
| ManagerProxies.SqlLabelsAgree | lib/proxy/ManagerRequestProxy.js:222 | the two titles agree if and only if the name is truthy or the empty string |
| ManagerProxies.SqlLabel | lib/proxy/ManagerRequestProxy.js:222 | the intended title: `name.createSqlQuery` for a truthy name, `createSqlQuery` otherwise |
| Collector.BassDataCollector.constructor | lib/collector/BassDataCollector.js:25-28 | a new collector has no adapters |
| Collector.BassDataCollector.GetAdapter | lib/collector/BassDataCollector.js:35-42 | the record for a new name is created empty and its key appended once; a known name returns its queries and changes nothing; a name `in` finds on Object.prototype returns the inherited member and creates nothing |
| Collector.WithDefault | lib/collector/BassDataCollector.js:51 | an omitted `data` becomes `{}`; any other value is kept |
| Collector.BassDataCollector.SaveQuery | lib/collector/BassDataCollector.js:51-58 | a TypeError, with nothing changed, exactly for an adapter named like an Object.prototype member; otherwise exactly one `{name, data, microtime}` is appended to that adapter's list, other adapters are unchanged, and the result is the collector itself |
| Collector.EntryOf | lib/collector/BassDataCollector.js:97-104 | an entry's `document` is `data.name`; its `data` is the shallow copy without `name` and otherwise equal; `pretty` is the serialisation of that copy |
| Collector.EntriesAt | lib/collector/BassDataCollector.js:96-105 | one adapter's entries are its queries' entries, one each, in list order |
| Collector.FlattenLength | lib/collector/BassDataCollector.js:94-106 | collectData emits exactly one entry per stored query |
| Collector.FlattenAt | lib/collector/BassDataCollector.js:94-106 | the j-th query of the i-th adapter (in key order) is at the position right after all earlier adapters' queries |
| Collector.CollectEntries | lib/collector/BassDataCollector.js:94-106 | the nested loops over keys and queries produce exactly the flattening, one entry per stored query in key then list order |
| Collector.BassDataCollector.CollectData | lib/collector/BassDataCollector.js:91-108 | the entries are the flattening over keys then queries; nothing stored changes |
| BundlePaths.LastBundleIsLastMatch | lib/CongaBass.js:184-190 | the bundle part is the last segment ending in `-bundle` (later matches win), or "" when none does |
| BundlePaths.FindBundleNameFromPath | lib/bass.js:145-162 | the loop computes the bundle part, then appends the file part of a `.js` last segment |
| BundlePaths.BundleNameOfSegments | lib/CongaBass.js:192-196 | in terms of the path's segments, a last segment not ending in `.js` leaves the bundle part alone; one ending in `.js` (and holding it nowhere earlier) appends `:` and the name without `.js` |
| Strings.Split | lib/CongaBass.js:182 | split gives at least one piece and no piece holds the separator |
| Strings.JoinSplit | lib/rest/adapter.js:59 | joining the split pieces with the separator gives back the string, so the pieces are untrimmed |
| Strings.IndexOf | lib/CongaBass.js:193 | a found index is at or after the start and the pattern occurs there |
| Strings.IndexOfIsFirst | lib/CongaBass.js:193 | the found index is the first occurrence, and nothing found means no occurrence |
| Strings.ReplaceWithoutOccurrence | lib/resources/conga-dashboard/controller/BassController.js:32 | `replace` without an occurrence keeps the string |
| Strings.ReplaceFirstOccurrence | lib/resources/conga-dashboard/controller/BassController.js:32 | `replace` with a string pattern replaces the first occurrence only |
| Strings.ToLower | lib/CongaBass.js:151 | lower-casing keeps the length and maps each character |
| Strings.LowerIsTrue | lib/CongaBass.js:151 | `toLowerCase() === 'true'` holds exactly for the four letters of "true" in any case |
| KernelListener.FrameworkScopeRequest | lib/CongaBass.js:148-149 | a request scope is configured exactly when the framework's `scope` is an object with a defined `request` |
| KernelListener.IsTrueText | lib/CongaBass.js:151 | a TypeError exactly for a non-string; otherwise whether the lower-cased text is "true" |
| KernelListener.ScopeEnabledAsWritten | lib/CongaBass.js:145-153 | as written: true without a framework request scope; otherwise the type test reads the bass configuration, and it throws exactly when that configuration or its scope is missing, or when the tested value is a string and the framework's is not |
| KernelListener.ScopeEnabled | lib/CongaBass.js:145-153 | intended: true without a framework request scope; otherwise a string compared case-insensitively with "true", any other value as it is; never throws |
| KernelListener.ScopeReadingsAgree | lib/CongaBass.js:150-152 | the two readings agree whenever the bass configuration's `scope.request` is readable and is a string exactly when the framework's is |
| KernelListener.ScopeTypeTestMisread | lib/CongaBass.js:150-152 | a framework setting "false" with a bass scope lacking `request` is enabled as written but disabled as intended; a bass configuration without `scope` throws |
| KernelListener.WrapDecision | lib/CongaBass.js:145-159 | with the scope test as written: its TypeError passes through; otherwise wrap if and only if the scope reads enabled and `request_scope` is truthy, or undefined with a profiler present and enabled; a missing bass configuration throws only once the scope reads enabled |
| KernelListener.WrapDecisionIntended | lib/CongaBass.js:150-159 | whenever the two scope readings agree, the decision is the one the intended scope test gives |
| KernelListener.WrapDecisionMisread | lib/CongaBass.js:150-159 | a framework setting "false" with a bass scope lacking `request` still wraps, though the intended reading disables the scope; a bass configuration without `scope` throws |
| KernelListener.CongaBass.constructor | lib/CongaBass.js:18 | `_bass` starts as null |
| KernelListener.CongaBass.OnRequestScope | lib/CongaBass.js:144-173 | on wrapping, the container's `bass` and `_bass` become the same fresh BassRequestProxy around the old service, for this request and container; `next` is called exactly once on both branches; the decision is the as-written one, and its throw changes nothing and skips `next` |
| RestAdapters.Put | lib/rest/adapter.js:63 | after `sort[key] = dir` the key reads `dir`, the key set gains only `key`, keys stay distinct, and an existing key keeps its place |
| RestAdapters.PutKeepsOthers | lib/rest/adapter.js:63-65 | setting one key leaves every other key's direction unchanged |
| RestAdapters.DashRemoved | lib/rest/adapter.js:62-63 | a token starting with `-` loses exactly its first `-` |
| RestAdapters.UnsetKeyAbsent | lib/rest/adapter.js:61-67 | a key no token sets is absent from the sort object |
| RestAdapters.Assign | lib/rest/adapter.js:63-65 | `sort[key] = dir` on a plain object: `__proto__` with a number is ignored by the prototype setter; any other key reads `dir` and is the only key added |
| RestAdapters.ProtoKeyIgnored | lib/rest/adapter.js:61-67 | the sort object never has a `__proto__` key, whatever the tokens |
| RestAdapters.SortOfLookup | lib/rest/adapter.js:59-67 | each key other than `__proto__` reads the direction of the last token that sets it; a key no token sets, and `__proto__`, read nothing |
| RestAdapters.LastDirAt | lib/rest/adapter.js:61-67 | a token that no later token sets again is the last one for its key |
| RestAdapters.LastOccurrenceWins | lib/rest/adapter.js:61-67 | for repeated keys the last token's direction wins: -1 after a leading `-`, 1 otherwise (the empty token included); a `__proto__` token leaves nothing |
| RestAdapters.SortKeysDistinct | lib/rest/adapter.js:59-67 | the sort object never lists a key twice |
| RestAdapters.ParseSort | lib/rest/adapter.js:58-68 | the loop builds the sort object of the untrimmed comma-split tokens, one assignment per token; its keys are distinct and never `__proto__` |
| RestAdapters.QueryCalls | lib/rest/adapter.js:79-81 | skip, limit and sort are applied when, and only when, present in the request query, in that order |
| RestAdapters.FindAllReply | lib/rest/adapter.js:86-119 | one reply with the serialised `documents.data` when the query resolves to a readable value; otherwise no reply |
| RestAdapters.FindAll | lib/rest/adapter.js:39-136 | findAll's effects are its query calls, then `findByQuery`, then the reply |
| RestAdapters.FindReply | lib/rest/adapter.js:150-162 | exactly one reply: 400 with the message if and only if the document is `== null`; 500 if and only if rejected; else the serialised document |
| RestAdapters.SaveEffects | lib/rest/adapter.js:181-193 | errors give only the 400 reply; otherwise persist, flush, and the reply only once the flush resolves |
| RestAdapters.CreateEffects | lib/rest/adapter.js:171-194 | the document is persisted if and only if there are no errors; a reply is always last; a reply is sent if and only if there were errors or the flush resolved |
| RestAdapters.UpdateEffectsAsWritten | lib/rest/adapter.js:202-239 | as written: a rejected lookup gives no reply, because the handler calls `req.return`; a missing document gives 400; a found one is merged and saved as in create |
| RestAdapters.UpdateEffects | lib/rest/adapter.js:202-239 | intended: a rejected lookup replies 500 as find does; the other cases as written |
| RestAdapters.UpdateRejectionUnanswered | lib/rest/adapter.js:237 | the two update readings differ exactly on a rejected lookup, which as written gets no reply |
| RestAdapters.RemoveEffects | lib/rest/adapter.js:250-265 | a document `=== null` replies `{success:false}` without removing; anything else is removed then flushed, with `{success:true}` if and only if the flush resolves; a rejection is only logged |
| Dashboard.Meta.constructor | lib/resources/conga-dashboard/controller/BassController.js:26 | a metadata object carries its manager name and file path, and no relative path yet |
| Dashboard.GroupedIsFilter | lib/resources/conga-dashboard/controller/BassController.js:24-35 | a manager name has a list if and only if some metadata names it, and the list is that manager's metadata in iteration order |
| Dashboard.Reached | lib/resources/conga-dashboard/controller/BassController.js:24-35 | the first loop gets through every metadata object up to and including the first whose manager name `managerToMeta` inherits |
| Dashboard.ReachedPast | lib/resources/conga-dashboard/controller/BassController.js:28-34 | the loop at index i has not yet reached the throwing metadata, or i is that metadata |
| Dashboard.GroupMetas | lib/resources/conga-dashboard/controller/BassController.js:24-35 | every metadata object reached gets `relativePath` = file path with the first occurrence of the project path removed; the others are untouched; it throws if and only if an inherited manager name is reached; otherwise the groups are the grouping |
| Dashboard.DocumentsFor | lib/resources/conga-dashboard/controller/BassController.js:44 | `documents` is the key's list, or undefined when nothing matched (an inherited member for Object.prototype names) |
| Dashboard.BuildEntries | lib/resources/conga-dashboard/controller/BassController.js:37-46 | exactly one entry per definition, in key order, built from that definition |
| Dashboard.Managers | lib/resources/conga-dashboard/controller/BassController.js:11-51 | metadata comes only from the first definition; no definitions throws; on success one entry per definition, with documents looked up by the definition's key in the grouping |
| FixtureRegistries.FixtureRegistry.constructor | lib/fixture/FixtureRegistry.js:19-21 | a new registry holds no model |
| FixtureRegistries.FixtureRegistry.Add | lib/fixture/FixtureRegistry.js:30-32 | add overwrites the entry for the name, reads back the model, and leaves every other name unchanged |
| FixtureRegistries.FixtureRegistry.Get | lib/fixture/FixtureRegistry.js:40-42 | get returns the added model, or undefined for a name never added (other than Object.prototype's) |
| FixtureRegistries.ModelOf | lib/fixture/FixtureRegistry.js:41 | a name reads its own entry, else an inherited Object.prototype member, else undefined |
| FixtureRegistries.AddThenGet | lib/fixture/FixtureRegistry.js:30-42 | after add, get of that name returns the model and every other name reads as before |
| Fixtures.Fixture.constructor | lib/fixture/FixtureRunner.js:81 | a new fixture has its order and the shared registry |
| Fixtures.InsertPermutes | lib/fixture/FixtureRunner.js:88-94 | one insertion step permutes: it adds exactly the inserted fixture |
| Fixtures.InsertSorted | lib/fixture/FixtureRunner.js:88-94 | one insertion into a sorted list keeps it sorted |
| Fixtures.InsertKeepsTies | lib/fixture/FixtureRunner.js:88-94 | an inserted fixture goes after the fixtures of its own order already there |
| Fixtures.StableSortCorrect | lib/fixture/FixtureRunner.js:88-94 | the sort is ascending by `getOrder()`, a permutation, and keeps fixtures of equal order in discovery order |
| Fixtures.InsertAt | lib/command/LoadFixturesCommand.js:131-137 | one step of the in-place sort moves one fixture left past the fixtures of greater order |
| Fixtures.SortByOrder | lib/fixture/FixtureRunner.js:88-94 | the array is sorted in place into the stable sort of its old contents |
| Fixtures.LoadFixtures | lib/fixture/FixtureRunner.js:66-97 | one fixture per file, in file order, each tagged with its path, all sharing one fresh empty registry; the result is their stable sort by order (the same for lib/command/LoadFixturesCommand.js:107-140) |
| Fixtures.TaskSteps | lib/fixture/FixtureRunner.js:44-51 | each task ends with its fixture's load; in FixtureRunner, `onRunEach(fixture)` comes first if and only if it is a function; in the command, the line `loading fixture: path` comes first |
| Fixtures.TaskLoads | lib/fixture/FixtureRunner.js:44-51 | a task loads its own fixture, exactly once, whether or not `onRunEach` runs first |
| Fixtures.TasksRun | lib/fixture/FixtureRunner.js:55-57 | the series runs tasks up to and including the first load that calls back with an error, or all of them |
| Fixtures.LoadsAppend | lib/fixture/FixtureRunner.js:44-51 | the loads of two step sequences put together are their loads put together |
| Fixtures.SeriesLoads | lib/fixture/FixtureRunner.js:42-53 | each run task loads its own fixture exactly once, in sorted order |
| Fixtures.RunSeries | lib/fixture/FixtureRunner.js:55-57 | the tasks run one at a time, and `next` is called exactly once at the end whatever the error |
| Fixtures.RunFixtures | lib/fixture/FixtureRunner.js:37-59 | the sorted fixtures of the directory run in series, each preceded by `onRunEach` when it is a function, then `next` once; a missing directory throws before `next` |
| Fixtures.Execute | lib/command/LoadFixturesCommand.js:70-100 | "Preparing to load fixtures..." comes first; a missing directory writes the error line and exits without `next`; otherwise each fixture is announced and loaded in series, then `next` is called once |

## Left out

- Asynchrony: a promise is an already-settled `Ok`/`Err`. `async.series` is a sequential loop. The command's `setTimeout` delay (lib/command/LoadFixturesCommand.js:91) is not modelled.
- The `bass` library's semantics: managers, repositories, sessions, factories and queries only log the calls they receive. Their answers come from an oracle.
- ManagerProxies.ManagerRequestProxy.Timed: the manager's and the repositories' timed methods are assumed to return promises, so the oracle answers with a settled `Ok`/`Err`. A synchronous throw from the manager (for instance from bass's own repository lookup inside `find`), or a non-promise answer on which `.then` throws a TypeError, would pass through with the started event never stopped. This is not modelled, for Timed, CallAndSettle and every operation built on them.
- RestAdapters.FindAll: request-query parameters are single strings. An array or object value, such as `?sort=a&sort=b` or `?sort[k]=1`, on which `sort.split` throws a TypeError before any query call, is not modelled.
- JSON serialisation, the REST manager's `serialize` and `deserialize`, `parseInt`, `Date` and the microtime clock are uninterpreted parameters. The `date` field of collected entries (a floating-point division) is not modelled.
- `console.log` on rejections and errors is not modelled. Such a path produces no effect.
- Module probing and the empty-class fallback of the collector module are left out. The profiler collector is assumed present.
- onKernelCompile in lib/CongaBass.js and lib/bass.js is left out: it is file-system probing, dynamic `require` and `process.exit`.
- index.js, the Vue dashboard files and lib/fixture/AbstractFixture.js are not part of this model. The last reads JSON/CSV streams and delegates references to the registry, which is modelled.
- The `restModifyCriteriaMethods` branch of findAll is left out. It refers to an undefined `criteria`, and the list is always empty.
- The REST handlers' `createSession().getManager(...)`, `createDocument` and validation calls are left out. Validation errors and the looked-up or merged document are parameters.
- `process.exit` is modelled only as the `Exited` ending. Nothing after it runs.
- `Object.keys` order for integer-like keys, which objects list first, is not modelled. The sort object, the collector's adapters and the dashboard's definitions keep insertion or key order.
- Property-descriptor details of `__defineGetter__` beyond live read-through are left out. So are NaN, floating-point numbers, symbols and property reads on primitive strings.
- Wrap: a function or an opaque object, such as a container, has no known property names, so wrapping it installs no getters.
- ManagerFactoryProxies.ManagerFactoryRequestProxy.Factory: an answer that is not a library object is modelled as a TypeError. `Object.create` would accept `null` or a plain object literal and build a proxy over it, so those answers are not modelled.
- ManagerProxies.ManagerRequestProxy.GetRepository: the repository's `_setManager` call is logged, but its effect on the repository is not modelled.
- The stopwatch's `.request(request)` binding is folded into the container: the container holds the section already bound to its request.
- Strings.ToLower: only ASCII letters are case-folded. There is no Unicode case mapping.
- Fixtures.LoadFixtures: `getOrder()` is an integer-valued `orderOf(file)`. Mixed types and NaN are not modelled. The file list and `require` are parameters.
- Fixtures.RunFixtures: the missing-directory path dereferences a `this.output` that a FixtureRunner never sets. It is modelled as a TypeError, and the later `process.exit` is never reached.
- FixtureRegistries.FixtureRegistry.Add: assigning the name `__proto__` changes the prototype rather than adding an entry. This is not modelled.
- Inherited Object.prototype members: a lookup that reaches one reads back as the function `Fn(name)` (ManagerProxies.ManagerRequestProxy.GetRepository, FixtureRegistries.ModelOf) or as a bare marker (Collector.Adapter, Dashboard.DocumentsFor). For `__proto__`, which reads Object.prototype itself, an object, not a function, the value is therefore not exact. The paths taken, whether a call is made and what is cached, are modelled.
- Dashboard: the metadata objects' `managerName` and `filePath` are strings. `for…in` over inherited enumerable keys is not modelled.
- BundlePaths: `path.sep` is the POSIX `/`.

## Findings

The operations run the code as written. Each corrected reading is proved beside them and related to the as-written one (ScopeReadingsAgree, WrapDecisionIntended, SqlLabelsAgree, UpdateRejectionUnanswered).

| source | as written | input that shows it | evidently intended | confidence | as-written member | corrected member |
|---|---|---|---|---|---|---|
| lib/CongaBass.js:150-152 | the type test reads the bass configuration's `scope.request`, while the framework's value is converted | framework scope request "false" with a bass `scope` lacking `request`: enabled as written (the string is truthy); a bass config without `scope` throws | test the framework's own `scope.request` | not executed | KernelListener.ScopeEnabledAsWritten | KernelListener.ScopeEnabled |
| lib/proxy/ManagerRequestProxy.js:222 | `(repositoryName && repositoryName + '.') + 'createSqlQuery'` keeps a falsy name | no repository name: the event is titled "undefinedcreateSqlQuery" | "createSqlQuery" when no repository name is given | not executed | ManagerProxies.SqlLabelAsWritten | ManagerProxies.SqlLabel |
| lib/rest/adapter.js:237 | the update rejection handler calls `req.return` | any lookup rejection: `req.return` is not a function, so no reply is sent | reply 500 through `res.return`, as find does | not executed | RestAdapters.UpdateEffectsAsWritten | RestAdapters.UpdateEffects |
