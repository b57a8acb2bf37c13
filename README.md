# Change-capture watcher and service registry, modelled in Dafny

This project models the core of a MongoDB change-data-capture adapter. The
adapter watches a replica set for inserts, updates and deletes on a fixed list
of collections. It turns each change into one canonical `RealTimeData` event.
It hands that event to the listeners registered under the event's collection.
It also tracks when it last delivered an event, so that callers can ask how
stale the feed is.

The model covers two source files.

- `database/DatabaseWatcher.ts`. `watch()` picks one of three strategies, in
  this order of precedence: the Meteor oplog bridge (`USE_NATIVE_OPLOG`), the
  native oplog tail (`IGNORE_CHANGE_STREAM`), or the change stream. If the
  change stream's setup throws synchronously, it falls back once to the tail.
  The model also covers the tail's setup checks and its server-side selector,
  the client-side namespace filter and id choice, the single delivery path
  `emitDoc`, `on`, and the staleness queries. The settings read from the
  environment when the module loads are modelled with JavaScript's own
  conversions: `String`, `toLowerCase`, and `parseInt` with no radix.
- `services/core/lib/Api.ts`. The `Api` class keeps a set of registered
  services and an optional broker. Every call it makes on a broker is recorded
  in an append-only log. So the contracts state set membership, and they also
  state exactly which broker calls happen, in which order.

Layout:

- `wrappers.dfy`: `Option`, `Result`, `Outcome`.
- `js_env.dfy`: module `JsEnv`, the environment settings.
- `realtime.dfy`: module `RealTime`, the event shape, `Infinity`, and staleness.
- `oplog.dfy`: module `Oplog`, the tail's setup, selector and entry routing.
- `strategy.dfy`: module `Strategy`, the change-stream pipeline and the strategy plan `WatchRun`.
- `emitting.dfy`: module `Emitting`, the delivery path as a function on the state it changes.
- `watcher.dfy`: module `Watcher`, the `DatabaseWatcher` class.
- `api.dfy`: module `ServiceApi`, the `Api` class.

The class methods are imperative. They include the loop that registers one
Meteor callback per collection, the loop that calls a topic's listeners, and
the loop in `setBroker`. Each of them is proved against the pure function
beside it. The properties are then proved about those functions.

Three behaviours of the code are easy to misread; the model follows the code:

- `watch()` has no guard against being called twice. The model therefore keeps
  append-only logs of attempted strategies and installed subscriptions,
  instead of a single Unstarted/Running state.
- The ping interval falls back to 10000 ms when it is unparsable, and also
  when it is 0. A negative value is used as written.
- The replica-set check rejects a `setName` that is the empty string, because
  the empty string is falsy.

## Model

| member | source | states |
|---|---|---|
| JsEnv.InstancePing | database/DatabaseWatcher.ts:24-25 | The ping interval is never 0. It is either 10000 or the value `parseInt` read from the variable. |
| JsEnv.InstancePingUnset | database/DatabaseWatcher.ts:24-25 | An unset variable reads as the text "undefined", which parses to NaN, so the interval is 10000. |
| JsEnv.InstancePingDecimal | database/DatabaseWatcher.ts:24-25 | A decimal setting, even with trailing text such as "ms", is used as written. "0" falls back to 10000. |
| JsEnv.PingOfNaN | database/DatabaseWatcher.ts:24-25 | Whenever `parseInt` gives NaN, the interval is 10000. |
| JsEnv.PingOfParsed | database/DatabaseWatcher.ts:24-25 | Whenever `parseInt` gives a number `n`, the interval is `n`, except that 0 gives 10000. |
| JsEnv.ParseIntDecimal | database/DatabaseWatcher.ts:24-25 | `parseInt` reads back any decimal number, with or without a leading "-". It stops at the first non-digit. Only a leading "0x" switches to hexadecimal. |
| JsEnv.ParseIntSkipsWhiteSpace | database/DatabaseWatcher.ts:24-25 | Leading ECMAScript white space never changes what `parseInt` returns. |
| JsEnv.MaxDocMs | database/DatabaseWatcher.ts:27 | The staleness bound is a non-zero multiple of 4: four times the ping interval. |
| JsEnv.EnvFlag | database/DatabaseWatcher.ts:39-45 | A flag is on exactly when the variable is set and its lower-cased text is "yes" or "true". An unset variable is off, because "undefined" is neither. |
| JsEnv.EnvFlagMeaning | database/DatabaseWatcher.ts:39-45 | The flag ignores case: a value and its lower-cased form give the same answer. For example "TRUE", "Yes" and "true" are on, and "1", "on" and " true" are off. |
| RealTime.LastDocDelta | database/DatabaseWatcher.ts:233-235 | The delta is `Infinity` exactly when no event was delivered. Otherwise it is the time elapsed since the last delivery. |
| RealTime.StaleBeforeFirstDelivery | database/DatabaseWatcher.ts:233-242 | Before any delivery the delta is `Infinity`, and the feed counts as delayed. |
| RealTime.StaleIffOlderThanBound | database/DatabaseWatcher.ts:240-242 | After a delivery at `t`, the feed is delayed exactly when more than `maxDocMs` have passed since `t`. |
| RealTime.StaleStaysStale | database/DatabaseWatcher.ts:240-242 | Without a new delivery, a delayed feed stays delayed as time advances. |
| RealTime.StaleExamples | database/DatabaseWatcher.ts:24-27 | With the ping interval unset, the bound is `MaxDocMs` of the default, and an age of 41000 ms is delayed while 39000 ms is not. |
| Oplog.OplogSelector | database/DatabaseWatcher.ts:131-135 | The selector matches an entry exactly when three things hold: its `ns` starts with `dbName + "."`, its `op` is i, u or d, and its `ts` is after the resume point. The `ts` clause exists only when the oplog had an entry. |
| Oplog.NoReplay | database/DatabaseWatcher.ts:126-135 | No entry at or before the newest entry found at connect time is selected. |
| Oplog.DotIsLiteral | database/DatabaseWatcher.ts:132 | For database "a.b", the namespace clause selects "a.b.users" and not "axb.users". |
| Oplog.RouteEntry | database/DatabaseWatcher.ts:145-158 | An entry is forwarded exactly when its `ns` is `dbName + "." + c` for a watched `c`. The name passed on is such a `c`. The id is `o2._id` for "u" and `o._id` otherwise. |
| Oplog.RoutedToNamedCollection | database/DatabaseWatcher.ts:146-154 | `ns.slice(dbName.length + 1)` is exactly the watched collection that the namespace names. |
| Oplog.TailDeliversExactly | database/DatabaseWatcher.ts:131-158 | An entry passes the selector and the client filter exactly when three things hold: it is an i, u or d entry, it is newer than the resume point, and it is in a watched collection's namespace. |
| Oplog.OplogSetup | database/DatabaseWatcher.ts:97-135 | The first failing check wins: the missing `MONGO_OPLOG_URL`, then the failed or non-replica-set `ismaster`, then a client database other than "local". Setup succeeds exactly when every step succeeds, and it then yields the selector for the newest entry. |
| Strategy.ChangeStreamPipeline | database/DatabaseWatcher.ts:184-191 | The `$match` stage passes exactly the insert, update and delete events of the watched collections. |
| Strategy.Attempt | database/DatabaseWatcher.ts:95-206 | One strategy's setup installs only subscriptions of its own kind, and installs nothing when it fails. |
| Strategy.WatchRun | database/DatabaseWatcher.ts:73-93 | With the native-oplog flag set, only the Meteor bridge is attempted, whatever the other flag says. It fails with "no-oplog-handle" without a handle, and otherwise installs one callback per collection. With only the ignore flag set, only the tail is attempted. With neither flag, the change stream is attempted, and a synchronous throw leads to exactly one tail attempt, whose failure is final. |
| Emitting.Bump | database/DatabaseWatcher.ts:218-221 | The counter for the (collection, action) label rises by one, and no other label changes. |
| Emitting.Emit | database/DatabaseWatcher.ts:208-224 | A missing payload changes nothing. Otherwise `lastDocTS` becomes `now`, the (collection, action) counter rises by one only if metrics were supplied, and exactly the listeners of that collection are called once each, in registration order, after the earlier calls. |
| Emitting.OnlyOwnListeners | database/DatabaseWatcher.ts:223 | Every listener called for an event is registered under that event's collection. |
| Emitting.SourceOrderKept | database/DatabaseWatcher.ts:208-224 | Two events for the same collection reach its listeners in the order they were delivered. |
| Emitting.DeliveryRefreshesStaleness | database/DatabaseWatcher.ts:212-242 | After a delivery at `now`, the feed is delayed later exactly when more than `maxDocMs` have passed since `now`. |
| Watcher.DatabaseWatcher.constructor | database/DatabaseWatcher.ts:59-71 | A new watcher stores its configuration and the settings derived from the environment, with nothing delivered, listened to or installed. |
| Watcher.DatabaseWatcher.Watch | database/DatabaseWatcher.ts:73-93 | The attempts, the subscriptions and the outcome are exactly those of `WatchRun`. |
| Watcher.DatabaseWatcher.WatchMeteorOplog | database/DatabaseWatcher.ts:163-175 | Fails with "no-oplog-handle" and registers nothing when no handle was supplied. Otherwise it registers one callback per watched collection, in list order, each scoped to that collection. |
| Watcher.DatabaseWatcher.WatchOplog | database/DatabaseWatcher.ts:95-143 | Runs the checks in order. It opens the cursor over the selector only when all of them pass, and otherwise rejects with the first failure. |
| Watcher.DatabaseWatcher.WatchChangeStream | database/DatabaseWatcher.ts:177-206 | A synchronous throw from `db.watch` is rethrown and installs nothing. Otherwise the stream over the change-stream pipeline is installed. |
| Watcher.DatabaseWatcher.On | database/DatabaseWatcher.ts:226-228 | Appends the listener to its topic's list and leaves every other topic's list unchanged. |
| Watcher.DatabaseWatcher.Dispatch | database/DatabaseWatcher.ts:223 | Calls the topic's listeners once each, in registration order, after all earlier calls. |
| Watcher.DatabaseWatcher.EmitDoc | database/DatabaseWatcher.ts:208-224 | The delivered state is exactly `Emit` of the old one. After a delivery, the feed is delayed at a later time exactly when more than `maxDocMs` have passed. |
| Watcher.DatabaseWatcher.OnMeteorEntry | database/DatabaseWatcher.ts:171-173 | A Meteor callback delivers the converted event under the collection it was registered for. |
| Watcher.DatabaseWatcher.OnOplogEntry | database/DatabaseWatcher.ts:145-160 | An entry outside the watched namespaces changes nothing. An entry in `dbName.c` is delivered under `c`, with the converter given the chosen record id. |
| Watcher.DatabaseWatcher.OnChange | database/DatabaseWatcher.ts:192-194 | A change event is delivered under its own `ns.coll`. |
| Watcher.DatabaseWatcher.GetLastDocDelta | database/DatabaseWatcher.ts:233-235 | Returns `Infinity` before any delivery, and `now - lastDocTS` after one. |
| Watcher.DatabaseWatcher.IsLastDocDelayed | database/DatabaseWatcher.ts:240-242 | Holds exactly when nothing was delivered yet, or when more than `4 * instancePing` ms have passed since the last delivery. |
| ServiceApi.Added | services/core/lib/Api.ts:35 | `Set.add`: the members become the old ones plus the instance, a present instance changes nothing, order is kept, and there are still no duplicates. |
| ServiceApi.Removed | services/core/lib/Api.ts:28 | `Set.delete`: only the instance leaves, an absent instance changes nothing, and there are still no duplicates. |
| ServiceApi.RemovedKeepsOrder | services/core/lib/Api.ts:28 | Deleting a member at position `k` leaves the members before and after it in their insertion order: the result is `s[..k] + s[k+1..]`. |
| ServiceApi.RemoveAfterAdd | services/core/lib/Api.ts:19-42 | Registering a new instance and then destroying it leaves the set exactly as it was. |
| ServiceApi.Api.constructor | services/core/lib/Api.ts:8-11 | A new registry has no services, no broker and no broker calls. |
| ServiceApi.Api.SetBroker | services/core/lib/Api.ts:13-17 | Stores the broker, then issues exactly one `createService` call, without dependencies, for each registered service, in insertion order. |
| ServiceApi.Api.DestroyService | services/core/lib/Api.ts:19-29 | For an unregistered instance, the set and the broker log are unchanged. Otherwise only that instance leaves the set, and `destroyService` is called on the broker if and only if one is set. |
| ServiceApi.Api.RegisterService | services/core/lib/Api.ts:31-42 | Adds the instance to the set, calls `setApi` on it once, and issues `createService(instance, deps)` if and only if a broker is set. |
| ServiceApi.Api.Call | services/core/lib/Api.ts:44-46 | Forwards to the broker and yields its reply when a broker is set. Otherwise it yields `undefined` and makes no call. |
| ServiceApi.Api.BroadcastEvent | services/core/lib/Api.ts:48-53 | Forwards `broadcast` to the broker if and only if one is set. |
| ServiceApi.Api.BroadcastLocalEvent | services/core/lib/Api.ts:55-60 | Forwards `broadcastLocal` to the broker if and only if one is set. |
| ServiceApi.Api.Start | services/core/lib/Api.ts:62-67 | Rejects with "No broker set to start." when no broker is set. Otherwise it calls `start` on the broker. |

## Left out

- MongoDB I/O is replaced by its outcomes (`SetupIO`, `OplogIO`). This covers the connection, the `ismaster` command, `findOne`, `db.watch`, and the tailable, await-data and oplog-replay flags of the cursor. A `MongoClient` constructor that throws on a malformed URL is not modelled.
- The `"error"` handler of the change stream rethrows runtime stream errors. These are asynchronous, transport-driven failures with no retry logic, and they are not modelled.
- The payload converters, `escapeRegExp` and `watchCollections` are not part of this model. The converters are functions given to the watcher when it is built. The watched collections are a constructor argument. The selector's namespace clause is modelled as a literal prefix test, which is what the escaping exists to guarantee.
- Node's `EventEmitter` is reduced to a table from topic to an ordered list of listener ids, plus a log of listener calls. Listener exceptions, listener removal and `once` are not modelled, and neither are the special `error` and `newListener` topics (an `error` emit with no listener throws in Node). The `this` that `on` returns is not modelled.
- Console output is not modelled, and neither is the deprecation warning of the Meteor bridge.
- `async`/`await` interleaving is not modelled. Each setup runs to completion, and a thrown error becomes the `Fail` outcome of `watch`.
- JavaScript numbers are modelled as unbounded integers. A `parseInt` result beyond 2^53, or one that overflows to `Infinity`, is not rounded. Times are integer milliseconds given as `now`. BSON timestamps are natural numbers.
- `JsEnv.ToLowerCase` folds ASCII letters only. For the flag test this is exact, because no other character lower-cases into the letters of "yes" or "true".
- Oplog entries are assumed to carry `o._id`, and `o2._id` for updates, as insert, update and delete entries do. Ids are text.
- ServiceApi.Api.Call: the broker's reply is an argument. A rejection of the broker's promise is not modelled, and neither is one from `broadcast`, `broadcastLocal` or `start`.
- The effect of `setApi` on the service is recorded as a log of calls and not modelled further.
- `services/core/types/ServiceClass.ts`, `database/watchers.ts`, `services/InstanceStatus.ts`, `example/node.ts`, `services/index.ts` and `services/core/Events.ts` are not part of this model. They are event-emitter pass-throughs, one-handler glue, process bootstrap, re-exports and type declarations.
