/**
 * The `DatabaseWatcher` class: the one-shot strategy selection of `watch()`,
 * the setup of each strategy, the per-change handlers, the single delivery
 * path `emitDoc`, listener registration and the staleness queries.
 *
 * I/O is replaced by its outcomes (`SetupIO`), the clock by a `now` argument,
 * and the two payload converters by the functions the watcher is built with.
 */
module Watcher {
  import opened Wrappers
  import opened JsEnv
  import opened RealTime
  import opened Oplog
  import opened Strategy
  import opened Emitting

  class DatabaseWatcher {
    const dbName: string                  // this.db.databaseName
    const hasOplogHandle: bool            // whether `_oplogHandle` was supplied
    const hasMetrics: bool                // whether `metrics` was supplied
    const collections: seq<string>        // watchCollections
    const flags: Flags                    // useMeteorOplog, ignoreChangeStream
    const maxDocMs: int                   // 4 * instancePing
    const convertOplog: OplogPayload -> Option<RealTimeData>
    const convertChange: ChangeEvent -> Option<RealTimeData>

    var lastDocTS: Option<int>
    var metrics: map<MetricKey, nat>           // the `oplog` counter of `metrics`
    var listeners: map<string, seq<HandlerId>> // the emitter's listener table
    var invocations: seq<Invocation>           // listener calls so far, oldest first
    var attempts: seq<StrategyKind>            // strategy setups started so far
    var installed: seq<Installed>              // subscriptions left by successful setups

    constructor (env: Env, dbName: string, hasOplogHandle: bool, hasMetrics: bool, collections: seq<string>,
                 convertOplog: OplogPayload -> Option<RealTimeData>, convertChange: ChangeEvent -> Option<RealTimeData>)
      ensures this.dbName == dbName && this.hasOplogHandle == hasOplogHandle && this.hasMetrics == hasMetrics
      ensures this.collections == collections
      ensures this.convertOplog == convertOplog && this.convertChange == convertChange
      ensures flags == Flags(EnvFlag(env.useNativeOplog), EnvFlag(env.ignoreChangeStream))
      ensures maxDocMs == MaxDocMs(env.pingInterval)
      ensures lastDocTS == None && metrics == map[] && listeners == map[] && invocations == []
      ensures attempts == [] && installed == []
    {
      this.dbName := dbName;
      this.hasOplogHandle := hasOplogHandle;
      this.hasMetrics := hasMetrics;
      this.collections := collections;
      this.convertOplog := convertOplog;
      this.convertChange := convertChange;
      flags := Flags(EnvFlag(env.useNativeOplog), EnvFlag(env.ignoreChangeStream));
      maxDocMs := MaxDocMs(env.pingInterval);
      lastDocTS := None;
      metrics := map[];
      listeners := map[];
      invocations := [];
      attempts := [];
      installed := [];
    }

    /** The part of the state that delivery changes. */
    function Delivered(): Delivery
      reads this
    {
      Delivery(lastDocTS, metrics, invocations)
    }

    /** `watch()`: runs the strategy selection described by `WatchRun`. */
    method Watch(io: SetupIO) returns (r: Outcome)
      modifies this`attempts, this`installed
      ensures r == WatchRun(flags, hasOplogHandle, dbName, collections, io).outcome
      ensures attempts == old(attempts) + WatchRun(flags, hasOplogHandle, dbName, collections, io).attempts
      ensures installed == old(installed) + WatchRun(flags, hasOplogHandle, dbName, collections, io).installs
    {
      if flags.useMeteorOplog {
        r := WatchMeteorOplog();
        return;
      }
      if flags.ignoreChangeStream {
        r := WatchOplog(io.oplog);
        return;
      }
      r := WatchChangeStream(io.changeStreamError);
      if r.Fail? {
        r := WatchOplog(io.oplog);
      }
    }

    /** `watchMeteorOplog()`: one callback on the supplied handle per watched collection. */
    method WatchMeteorOplog() returns (r: Outcome)
      modifies this`attempts, this`installed
      ensures attempts == old(attempts) + [MeteorBridge]
      ensures r == if hasOplogHandle then Pass else Fail(NoOplogHandle)
      ensures installed == old(installed) + if hasOplogHandle then MeteorCallbacks(collections) else []
    {
      attempts := attempts + [MeteorBridge];
      if !hasOplogHandle {
        return Fail(NoOplogHandle);
      }
      var i := 0;
      while i < |collections|
        invariant 0 <= i <= |collections|
        invariant installed == old(installed) + MeteorCallbacks(collections[..i])
        invariant attempts == old(attempts) + [MeteorBridge]
      {
        assert MeteorCallbacks(collections[..i + 1]) == MeteorCallbacks(collections[..i]) + [MeteorCallback(collections[i])];
        installed := installed + [MeteorCallback(collections[i])];
        i := i + 1;
      }
      assert collections[..i] == collections;
      r := Pass;
    }

    /** `watchOplog()`: the setup checks in order, then the tailable cursor over the selector. */
    method WatchOplog(io: OplogIO) returns (r: Outcome)
      modifies this`attempts, this`installed
      ensures attempts == old(attempts) + [OplogTail]
      ensures match OplogSetup(dbName, io)
        case Success(sel) => r == Pass && installed == old(installed) + [OplogCursor(sel)]
        case Failure(err) => r == Fail(err) && installed == old(installed)
    {
      attempts := attempts + [OplogTail];
      if io.oplogUrl.None? {
        return Fail(NoOplogUrl);
      }
      if io.probe.ProbeFailed? {
        return Fail(io.probe.error);
      }
      if !IsReplicaSet(io.probe) {
        return Fail(NotReplicaSet);
      }
      if io.clientDbName != "local" {
        return Fail(NotLocalDb);
      }
      if io.connectError.Some? {
        return Fail(io.connectError.value);
      }
      var last: Option<Timestamp>;
      match io.lastEntry {
        case LookupFailed(err) => return Fail(err);
        case EmptyOplog => last := None;
        case Newest(ts) => last := Some(ts);
      }
      installed := installed + [OplogCursor(OplogSelector(dbName, last))];
      r := Pass;
    }

    /** `watchChangeStream()`: opens the change stream unless `db.watch` throws synchronously. */
    method WatchChangeStream(setupError: Option<string>) returns (r: Outcome)
      modifies this`attempts, this`installed
      ensures attempts == old(attempts) + [ChangeStream]
      ensures r == if setupError.Some? then Fail(setupError.value) else Pass
      ensures installed == old(installed) + if setupError.Some? then [] else [ChangeFeed(ChangeStreamPipeline(collections))]
    {
      attempts := attempts + [ChangeStream];
      if setupError.Some? {
        return Fail(setupError.value);
      }
      installed := installed + [ChangeFeed(ChangeStreamPipeline(collections))];
      r := Pass;
    }

    /** `on(collection, callback)`: appends a listener to that collection's list. */
    method On(topic: string, handler: HandlerId)
      modifies this`listeners
      ensures listeners == old(listeners)[topic := HandlersOf(old(listeners), topic) + [handler]]
      ensures forall t :: t != topic ==> HandlersOf(listeners, t) == HandlersOf(old(listeners), t)
    {
      listeners := listeners[topic := HandlersOf(listeners, topic) + [handler]];
    }

    /** The emitter's `emit(topic, doc)`: calls the listeners of `topic` one after another. */
    method Dispatch(topic: string, doc: RealTimeData)
      modifies this`invocations
      ensures invocations == old(invocations) + Fanout(HandlersOf(listeners, topic), topic, doc)
    {
      var handlers := HandlersOf(listeners, topic);
      var i := 0;
      while i < |handlers|
        invariant 0 <= i <= |handlers|
        invariant invocations == old(invocations) + Fanout(handlers[..i], topic, doc)
      {
        assert Fanout(handlers[..i + 1], topic, doc) == Fanout(handlers[..i], topic, doc) + [Invocation(handlers[i], topic, doc)];
        invocations := invocations + [Invocation(handlers[i], topic, doc)];
        i := i + 1;
      }
      assert handlers[..i] == handlers;
    }

    /** `emitDoc(collection, doc)` at time `now`. */
    method EmitDoc(collection: string, doc: Option<RealTimeData>, now: int)
      modifies this`lastDocTS, this`metrics, this`invocations
      ensures Delivered() == Emit(old(Delivered()), listeners, hasMetrics, collection, doc, now)
      ensures doc.Some? ==> forall later :: IsLastDocDelayed(later) <==> later - now > maxDocMs
    {
      if doc.None? {
        return;
      }
      lastDocTS := Some(now);
      if hasMetrics {
        metrics := Bump(metrics, MetricKey(collection, doc.value.action));
      }
      Dispatch(collection, doc.value);
    }

    /** The callback registered on the Meteor handle for `installed[k].collection`. */
    method OnMeteorEntry(k: nat, event: OplogPayload, now: int)
      requires k < |installed| && installed[k].MeteorCallback?
      modifies this`lastDocTS, this`metrics, this`invocations
      ensures Delivered() == Emit(old(Delivered()), listeners, hasMetrics, installed[k].collection, convertOplog(event), now)
    {
      EmitDoc(installed[k].collection, convertOplog(event), now);
    }

    /** The `"data"` handler of the oplog cursor. */
    method OnOplogEntry(entry: OplogEntry, now: int)
      modifies this`lastDocTS, this`metrics, this`invocations
      ensures !Matters(dbName, collections, entry.ns) ==> Delivered() == old(Delivered())
      ensures forall c :: c in collections && entry.ns == dbName + "." + c ==>
        Delivered() == Emit(old(Delivered()), listeners, hasMetrics, c,
                            convertOplog(OplogPayload(RecordId(entry), entry)), now)
    {
      var route := RouteEntry(dbName, collections, entry);
      if route.Some? {
        EmitDoc(route.value.0, convertOplog(route.value.1), now);
      }
      forall c | c in collections && entry.ns == dbName + "." + c
        ensures route == Some((c, OplogPayload(RecordId(entry), entry)))
      {
        RoutedToNamedCollection(dbName, collections, c, entry);
      }
    }

    /** The `"change"` handler of the change stream: delivers under the event's own collection. */
    method OnChange(event: ChangeEvent, now: int)
      modifies this`lastDocTS, this`metrics, this`invocations
      ensures Delivered() == Emit(old(Delivered()), listeners, hasMetrics, event.coll, convertChange(event), now)
    {
      EmitDoc(event.coll, convertChange(event), now);
    }

    /** `getLastDocDelta()` with `Date.now()` given as `now`. */
    function GetLastDocDelta(now: int): (d: Delta)
      reads this
      ensures d.Infinite? <==> lastDocTS.None?
      ensures lastDocTS.Some? ==> d == Finite(now - lastDocTS.value)
    {
      LastDocDelta(lastDocTS, now)
    }

    /** `isLastDocDelayed()` with `Date.now()` given as `now`. */
    predicate IsLastDocDelayed(now: int): (b: bool)
      reads this
      ensures b <==> lastDocTS.None? || now - lastDocTS.value > maxDocMs
    {
      IsDelayed(lastDocTS, now, maxDocMs)
    }
  }
}
