/**
 * The canonical change event (`RealTimeData` in DatabaseWatcher.ts) and the
 * staleness queries over the time the last event was delivered.
 */
module RealTime {
  import opened Wrappers
  import JsEnv

  /** The internal classification of a change. */
  datatype Action = Insert | Update | Remove

  /** The classification shown to clients. */
  datatype ClientAction = Inserted | Updated | Removed

  /** A record snapshot or a field-path map; field values are left abstract as text. */
  type Document = map<string, string>

  /** One observed mutation, as the payload converters produce it. */
  datatype RealTimeData = RealTimeData(
    id: string,
    action: Action,
    clientAction: ClientAction,
    data: Option<Document>,
    diff: Option<Document>,
    unset: Option<set<string>>,
    oplog: bool             // the `oplog: true` marker of events read from the replication log
  )

  /** A number of milliseconds, or JavaScript's `Infinity`. */
  datatype Delta = Finite(ms: int) | Infinite

  /** `d > bound` on JavaScript numbers, where `Infinity` exceeds every finite bound. */
  predicate Exceeds(d: Delta, bound: int)
  {
    d.Infinite? || d.ms > bound
  }

  /**
   * `getLastDocDelta()`: the time since the last delivered event, or `Infinity`
   * when none has been delivered; `now` stands for `Date.now()`.
   */
  function LastDocDelta(lastDocTS: Option<int>, now: int): (d: Delta)
    ensures d.Infinite? <==> lastDocTS.None?
    ensures d.Finite? ==> lastDocTS.value + d.ms == now
  {
    match lastDocTS
    case None => Infinite
    case Some(t) => Finite(now - t)
  }

  /** `isLastDocDelayed()`: the delta exceeds the staleness bound `maxDocMs`. */
  predicate IsDelayed(lastDocTS: Option<int>, now: int, maxDocMs: int)
  {
    Exceeds(LastDocDelta(lastDocTS, now), maxDocMs)
  }

  /** Before any delivery the feed is stale whatever the clock and the bound say. */
  lemma StaleBeforeFirstDelivery(now: int, maxDocMs: int)
    ensures LastDocDelta(None, now) == Infinite
    ensures IsDelayed(None, now, maxDocMs)
  {
  }

  /** After a delivery at `t`, the feed is stale exactly when more than `maxDocMs` have passed since `t`. */
  lemma StaleIffOlderThanBound(t: int, now: int, maxDocMs: int)
    ensures IsDelayed(Some(t), now, maxDocMs) <==> now - t > maxDocMs
  {
  }

  /** Staleness persists while no new event arrives: a stale feed stays stale as time goes on. */
  lemma StaleStaysStale(lastDocTS: Option<int>, now: int, later: int, maxDocMs: int)
    requires now <= later
    ensures IsDelayed(lastDocTS, now, maxDocMs) ==> IsDelayed(lastDocTS, later, maxDocMs)
  {
  }

  /** With the ping interval unset, the bound is 40000 ms: 41000 ms is stale, 39000 ms is not. */
  lemma StaleExamples(t: int)
    ensures IsDelayed(Some(t), t + 41000, JsEnv.MaxDocMs(None))
    ensures !IsDelayed(Some(t), t + 39000, JsEnv.MaxDocMs(None))
  {
    JsEnv.InstancePingUnset();
  }
}
