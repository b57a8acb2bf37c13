/**
 * The single delivery path of the watcher (`emitDoc`) as a function on the
 * state it touches: the time of the last delivered event, the metric counter
 * keyed by collection and action, and the log of listener invocations.
 */
module Emitting {
  import opened Wrappers
  import opened RealTime

  /** A registered listener, identified by registration. */
  type HandlerId = nat

  /** One call of listener `handler`, registered under `topic`, with `doc`. */
  datatype Invocation = Invocation(handler: HandlerId, topic: string, doc: RealTimeData)

  /** The labels of `metrics.oplog.inc({ collection, op })`. */
  datatype MetricKey = MetricKey(collection: string, op: Action)

  /** The value of a counter; a label never incremented reads 0. */
  function Count(m: map<MetricKey, nat>, k: MetricKey): nat
  {
    if k in m then m[k] else 0
  }

  /** `inc` on the counter: the labelled value goes up by one and no other changes. */
  function Bump(m: map<MetricKey, nat>, k: MetricKey): (r: map<MetricKey, nat>)
    ensures Count(r, k) == Count(m, k) + 1
    ensures forall j :: j != k ==> Count(r, j) == Count(m, j)
    ensures r.Keys == m.Keys + {k}
  {
    m[k := Count(m, k) + 1]
  }

  /** The listeners registered under `topic`, in registration order. */
  function HandlersOf(listeners: map<string, seq<HandlerId>>, topic: string): seq<HandlerId>
  {
    if topic in listeners then listeners[topic] else []
  }

  /** `emit(topic, doc)`: every listener of `topic` is called once with `doc`, in registration order. */
  function Fanout(handlers: seq<HandlerId>, topic: string, doc: RealTimeData): seq<Invocation>
  {
    seq(|handlers|, i requires 0 <= i < |handlers| => Invocation(handlers[i], topic, doc))
  }

  /** The state `emitDoc` changes. */
  datatype Delivery = Delivery(lastDocTS: Option<int>, metrics: map<MetricKey, nat>, invocations: seq<Invocation>)

  /**
   * `emitDoc(collection, doc)` at time `now`: a missing payload changes nothing;
   * otherwise the time is stamped, the counter for (collection, action) is
   * incremented when metrics were supplied, and the listeners of exactly that
   * collection are called.
   */
  function Emit(s: Delivery, listeners: map<string, seq<HandlerId>>, hasMetrics: bool,
                collection: string, doc: Option<RealTimeData>, now: int): (t: Delivery)
    ensures doc.None? ==> t == s
    ensures doc.Some? ==> t.lastDocTS == Some(now)
    ensures doc.Some? && hasMetrics ==>
      Count(t.metrics, MetricKey(collection, doc.value.action)) == Count(s.metrics, MetricKey(collection, doc.value.action)) + 1
    ensures forall k :: (doc.None? || !hasMetrics || k != MetricKey(collection, doc.value.action)) ==>
      Count(t.metrics, k) == Count(s.metrics, k)
    ensures |s.invocations| <= |t.invocations| && t.invocations[..|s.invocations|] == s.invocations
    ensures |t.invocations| - |s.invocations| == (if doc.Some? then |HandlersOf(listeners, collection)| else 0)
    ensures forall i :: |s.invocations| <= i < |t.invocations| ==>
      t.invocations[i] == Invocation(HandlersOf(listeners, collection)[i - |s.invocations|], collection, doc.value)
  {
    match doc
    case None => s
    case Some(d) =>
      var metrics := if hasMetrics then Bump(s.metrics, MetricKey(collection, d.action)) else s.metrics;
      Delivery(Some(now), metrics, s.invocations + Fanout(HandlersOf(listeners, collection), collection, d))
  }

  /** Only listeners of the event's own collection are called. */
  lemma OnlyOwnListeners(s: Delivery, listeners: map<string, seq<HandlerId>>, hasMetrics: bool,
                         collection: string, doc: RealTimeData, now: int, i: nat)
    requires |s.invocations| <= i < |Emit(s, listeners, hasMetrics, collection, Some(doc), now).invocations|
    ensures Emit(s, listeners, hasMetrics, collection, Some(doc), now).invocations[i].topic == collection
    ensures Emit(s, listeners, hasMetrics, collection, Some(doc), now).invocations[i].handler in HandlersOf(listeners, collection)
  {
  }

  /**
   * Two events for one collection, delivered in source order, reach its
   * listeners in that order: all calls for the first precede all calls for the second.
   */
  lemma SourceOrderKept(s: Delivery, listeners: map<string, seq<HandlerId>>, hasMetrics: bool,
                        collection: string, d1: RealTimeData, d2: RealTimeData, now1: int, now2: int)
    ensures Emit(Emit(s, listeners, hasMetrics, collection, Some(d1), now1), listeners, hasMetrics, collection, Some(d2), now2).invocations
      == s.invocations + Fanout(HandlersOf(listeners, collection), collection, d1)
                       + Fanout(HandlersOf(listeners, collection), collection, d2)
    ensures Emit(Emit(s, listeners, hasMetrics, collection, Some(d1), now1), listeners, hasMetrics, collection, Some(d2), now2).lastDocTS
      == Some(now2)
  {
  }

  /** A delivery at `now` makes the feed fresh: it is stale later only once more than `maxDocMs` have passed. */
  lemma DeliveryRefreshesStaleness(s: Delivery, listeners: map<string, seq<HandlerId>>, hasMetrics: bool,
                                   collection: string, doc: RealTimeData, now: int, later: int, maxDocMs: int)
    ensures IsDelayed(Emit(s, listeners, hasMetrics, collection, Some(doc), now).lastDocTS, later, maxDocMs)
      <==> later - now > maxDocMs
  {
  }
}
