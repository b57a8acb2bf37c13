/**
 * The service registry `Api`: a set of registered services, kept in insertion
 * order as a JavaScript `Set` is, and an optional broker. Every call the
 * registry makes on a broker is appended to a log, so its contracts say exactly
 * which broker calls happen and in which order.
 */
module ServiceApi {
  import opened Wrappers

  /** A service instance, identified as the `Set` identifies objects. */
  type ServiceId = nat

  /** A broker instance. */
  type BrokerId = nat

  /** An argument or reply passed through to the broker, left abstract as text. */
  type Value = string

  /** The broker methods the registry calls. */
  datatype BrokerCall =
    | CreateService(service: ServiceId, dependencies: Option<seq<string>>)
    | DestroyService(service: ServiceId)
    | CallAction(action: string, data: Option<Value>)
    | Broadcast(event: string, args: seq<Value>)
    | BroadcastLocal(event: string, args: seq<Value>)
    | StartBroker

  /** One call made on broker `broker`. */
  datatype Sent = Sent(broker: BrokerId, call: BrokerCall)

  const NoBrokerToStart: string := "No broker set to start."

  predicate NoDuplicates(s: seq<ServiceId>)
  {
    forall i, j :: 0 <= i < j < |s| ==> s[i] != s[j]
  }

  /** `Set.prototype.add`: a new member goes last, a present one keeps its place. */
  function Added(s: seq<ServiceId>, x: ServiceId): (r: seq<ServiceId>)
    ensures x in r
    ensures forall y :: y in r <==> y in s || y == x
    ensures x in s ==> r == s
    ensures |s| <= |r| && r[..|s|] == s
    ensures NoDuplicates(s) ==> NoDuplicates(r)
  {
    if x in s then s else s + [x]
  }

  /** `Set.prototype.delete`: drops `x` and keeps the others in their order. */
  function Removed(s: seq<ServiceId>, x: ServiceId): (r: seq<ServiceId>)
    ensures x !in r
    ensures forall y :: y in r <==> y in s && y != x
    ensures x !in s ==> r == s
    ensures |r| <= |s|
    ensures NoDuplicates(s) ==> NoDuplicates(r)
  {
    if s == [] then []
    else if s[0] == x then Removed(s[1..], x)
    else
      var rest := Removed(s[1..], x);
      assert NoDuplicates(s) ==> s[0] !in s[1..] && NoDuplicates(s[1..]) by {
        if NoDuplicates(s) {
          forall k | 0 <= k < |s[1..]| ensures s[1..][k] != s[0] { assert s[1..][k] == s[k + 1]; }
        }
      }
      assert forall k :: 0 <= k < |rest| ==> ([s[0]] + rest)[k + 1] == rest[k];
      [s[0]] + rest
  }

  /** Deleting a present member removes it from its place and keeps the others in their order. */
  lemma {:induction false} RemovedKeepsOrder(s: seq<ServiceId>, x: ServiceId, k: nat)
    requires NoDuplicates(s) && k < |s| && s[k] == x
    ensures Removed(s, x) == s[..k] + s[k + 1..]
  {
    var t := s[1..];
    TailNoDuplicates(s);
    if k == 0 {
      assert Removed(s, x) == t;
      assert s[..0] + s[1..] == t;
    } else {
      assert s[0] != s[k];
      RemovedKeepsOrder(t, x, k - 1);
      assert Removed(s, x) == [s[0]] + (t[..k - 1] + t[k..]);
      assert t[..k - 1] == s[1..k];
      assert t[k..] == s[k + 1..];
      assert s[..k] == [s[0]] + s[1..k];
    }
  }

  lemma TailNoDuplicates(s: seq<ServiceId>)
    requires NoDuplicates(s) && |s| > 0
    ensures NoDuplicates(s[1..]) && s[0] !in s[1..]
  {
    var t := s[1..];
    forall i, j | 0 <= i < j < |t| ensures t[i] != t[j] { assert t[i] == s[i + 1] && t[j] == s[j + 1]; }
    forall j | 0 <= j < |t| ensures t[j] != s[0] { assert t[j] == s[j + 1]; }
  }

  /** Registering a new service and destroying it again leaves the set as it was. */
  lemma RemoveAfterAdd(s: seq<ServiceId>, x: ServiceId)
    requires x !in s
    ensures Removed(Added(s, x), x) == s
  {
    RemoveLast(s, x);
  }

  lemma {:induction false} RemoveLast(s: seq<ServiceId>, x: ServiceId)
    requires x !in s
    ensures Removed(s + [x], x) == s
  {
    var t := s + [x];
    if s == [] {
      assert t == [x];
      assert Removed(t, x) == Removed([], x);
    } else {
      var tail := s[1..];
      assert t[0] == s[0] && t[1..] == tail + [x];
      assert x !in tail;
      RemoveLast(tail, x);
      assert Removed(t, x) == [s[0]] + tail;
    }
  }

  /** `createService(service)` on broker `b` for each listed service, in order, without dependencies. */
  function Creations(b: BrokerId, services: seq<ServiceId>): seq<Sent>
  {
    seq(|services|, i requires 0 <= i < |services| => Sent(b, CreateService(services[i], None)))
  }

  /** The calls a registry with broker `broker` makes for `call`: one on the broker if set, none otherwise. */
  function Forwarded(broker: Option<BrokerId>, call: BrokerCall): seq<Sent>
  {
    if broker.Some? then [Sent(broker.value, call)] else []
  }

  class Api {
    var services: seq<ServiceId>   // #services
    var broker: Option<BrokerId>   // #broker
    var sent: seq<Sent>            // every broker call made so far, oldest first
    var apiSetOn: seq<ServiceId>   // the services whose setApi(this) was called, in call order

    ghost predicate Valid()
      reads this
    {
      NoDuplicates(services)
    }

    constructor ()
      ensures Valid()
      ensures services == [] && broker == None && sent == [] && apiSetOn == []
    {
      services := [];
      broker := None;
      sent := [];
      apiSetOn := [];
    }

    /** `setBroker(b)`: stores `b`, then asks it to create every registered service. */
    method SetBroker(b: BrokerId)
      requires Valid()
      modifies this`broker, this`sent
      ensures Valid()
      ensures broker == Some(b)
      ensures sent == old(sent) + Creations(b, services)
    {
      broker := Some(b);
      var i := 0;
      while i < |services|
        invariant 0 <= i <= |services|
        invariant broker == Some(b)
        invariant sent == old(sent) + Creations(b, services[..i])
      {
        assert Creations(b, services[..i + 1]) == Creations(b, services[..i]) + [Sent(b, CreateService(services[i], None))];
        sent := sent + [Sent(b, CreateService(services[i], None))];
        i := i + 1;
      }
      assert services[..i] == services;
    }

    /** `destroyService(x)`: nothing for an unregistered `x`; else the broker destroys it and it leaves the set. */
    method DestroyService(x: ServiceId)
      requires Valid()
      modifies this`services, this`sent
      ensures Valid()
      ensures x !in old(services) ==> services == old(services) && sent == old(sent)
      ensures x in old(services) ==>
        services == Removed(old(services), x) && sent == old(sent) + Forwarded(broker, BrokerCall.DestroyService(x))
      ensures forall y :: y != x ==> (y in services <==> y in old(services))
    {
      if x !in services {
        return;
      }
      if broker.Some? {
        sent := sent + [Sent(broker.value, BrokerCall.DestroyService(x))];
      }
      services := Removed(services, x);
    }

    /** `registerService(x, deps)`: adds `x`, hands it this registry, and asks a set broker to create it. */
    method RegisterService(x: ServiceId, dependencies: Option<seq<string>>)
      requires Valid()
      modifies this`services, this`sent, this`apiSetOn
      ensures Valid()
      ensures services == Added(old(services), x)
      ensures apiSetOn == old(apiSetOn) + [x]
      ensures sent == old(sent) + Forwarded(broker, CreateService(x, dependencies))
    {
      services := Added(services, x);
      apiSetOn := apiSetOn + [x];
      if broker.Some? {
        sent := sent + [Sent(broker.value, CreateService(x, dependencies))];
      }
    }

    /** `call(action, data)`: the broker's `reply` when a broker is set, `undefined` otherwise. */
    method Call(action: string, data: Option<Value>, reply: Value) returns (r: Option<Value>)
      modifies this`sent
      ensures r == if broker.Some? then Some(reply) else None
      ensures sent == old(sent) + Forwarded(broker, CallAction(action, data))
    {
      r := None;
      if broker.Some? {
        sent := sent + [Sent(broker.value, CallAction(action, data))];
        r := Some(reply);
      }
    }

    /** `broadcast(event, ...args)`, forwarded when a broker is set. */
    method BroadcastEvent(event: string, args: seq<Value>)
      modifies this`sent
      ensures sent == old(sent) + Forwarded(broker, Broadcast(event, args))
    {
      if broker.Some? {
        sent := sent + [Sent(broker.value, Broadcast(event, args))];
      }
    }

    /** `broadcastLocal(event, ...args)`, forwarded when a broker is set. */
    method BroadcastLocalEvent(event: string, args: seq<Value>)
      modifies this`sent
      ensures sent == old(sent) + Forwarded(broker, BroadcastLocal(event, args))
    {
      if broker.Some? {
        sent := sent + [Sent(broker.value, BroadcastLocal(event, args))];
      }
    }

    /** `start()`: rejects without a broker, otherwise starts the broker. */
    method Start() returns (r: Outcome)
      modifies this`sent
      ensures r == if broker.Some? then Pass else Fail(NoBrokerToStart)
      ensures sent == old(sent) + Forwarded(broker, StartBroker)
    {
      if broker.None? {
        return Fail(NoBrokerToStart);
      }
      sent := sent + [Sent(broker.value, StartBroker)];
      r := Pass;
    }
  }
}
