/**
 * The oplog-tail strategy of DatabaseWatcher.ts as values: the three setup
 * validations, the server-side selector built from the newest existing entry,
 * and the client-side filter that routes each tailed entry to a collection.
 */
module Oplog {
  import opened Wrappers

  /** A replication-log position; BSON timestamps are totally ordered, as here. */
  type Timestamp = nat

  /** The fields of an `oplog.rs` entry the watcher reads: `ns`, `op`, `ts`, `o._id`, `o2._id`. */
  datatype OplogEntry = OplogEntry(ns: string, op: string, ts: Timestamp, oId: string, o2Id: string)

  /** The `{ id, op }` argument given to the oplog payload converter. */
  datatype OplogPayload = OplogPayload(id: string, entry: OplogEntry)

  /**
   * The cursor's query `{ ns: /^(?:<escaped dbName.>)/, op: { $in: ops }, ts: { $gt: after } }`;
   * the `ts` clause exists only when `tsAfter` is `Some`.
   */
  datatype Selector = Selector(nsPrefix: string, ops: set<string>, tsAfter: Option<Timestamp>)

  /** The operations the tail reads: insert, update, delete. */
  const TailedOps: set<string> := {"i", "u", "d"}

  predicate StartsWith(s: string, prefix: string)
  {
    |prefix| <= |s| && s[..|prefix|] == prefix
  }

  /**
   * Whether the server returns `e` for `sel`. The namespace regex is anchored and
   * built from the escaped database name, so it matches exactly the literal prefix.
   */
  predicate SelectorMatches(sel: Selector, e: OplogEntry)
  {
    StartsWith(e.ns, sel.nsPrefix)
    && e.op in sel.ops
    && (sel.tsAfter.Some? ==> e.ts > sel.tsAfter.value)
  }

  /** The selector for database `dbName`, resuming after the newest entry `last` if the oplog had one. */
  function OplogSelector(dbName: string, last: Option<Timestamp>): (sel: Selector)
    ensures sel.tsAfter == last
    ensures forall e :: SelectorMatches(sel, e) <==>
      StartsWith(e.ns, dbName + ".") && e.op in {"i", "u", "d"} && (last.Some? ==> e.ts > last.value)
  {
    Selector(dbName + ".", TailedOps, last)
  }

  /** Entries that already existed when the watcher connected are never returned: there is no replay. */
  lemma NoReplay(dbName: string, last: Timestamp, e: OplogEntry)
    requires e.ts <= last
    ensures !SelectorMatches(OplogSelector(dbName, Some(last)), e)
  {
  }

  /**
   * A dot in the database name is literal: "a.b" selects "a.b.users" and not "axb.users".
   * The namespace clause is modelled as the literal prefix test that escaping the
   * name exists to give, so this holds by that modelling choice; it is not a proof
   * about the escaping routine itself.
   */
  lemma DotIsLiteral(e: OplogEntry)
    requires e.op == "i"
    ensures e.ns == "a.b.users" ==> SelectorMatches(OplogSelector("a.b", None), e)
    ensures e.ns == "axb.users" ==> !SelectorMatches(OplogSelector("a.b", None), e)
  {
    assert "a.b" + "." == "a.b.";
    if e.ns == "axb.users" {
      assert e.ns[..4][1] == 'x' != "a.b."[1];
    }
  }

  /** `watchCollections.some((c) => doc.ns === dbName + "." + c)`. */
  predicate Matters(dbName: string, collections: seq<string>, ns: string)
  {
    exists i :: 0 <= i < |collections| && ns == dbName + "." + collections[i]
  }

  /** `doc.op === "u" ? doc.o2._id : doc.o._id`: updates name their record in the `o2` image. */
  function RecordId(e: OplogEntry): string
  {
    if e.op == "u" then e.o2Id else e.oId
  }

  /**
   * The `"data"` handler of the tail: for an entry that matters, the collection
   * name `ns.slice(dbName.length + 1)` and the converter's input; `None` drops the entry.
   */
  function RouteEntry(dbName: string, collections: seq<string>, e: OplogEntry): (r: Option<(string, OplogPayload)>)
    ensures r.Some? <==> Matters(dbName, collections, e.ns)
    ensures r.Some? ==> r.value.0 in collections && e.ns == dbName + "." + r.value.0
    ensures r.Some? ==> r.value.1.entry == e
    ensures r.Some? ==> r.value.1.id == (if e.op == "u" then e.o2Id else e.oId)
  {
    if Matters(dbName, collections, e.ns) then
      var i :| 0 <= i < |collections| && e.ns == dbName + "." + collections[i];
      assert e.ns[|dbName| + 1..] == collections[i];
      Some((e.ns[|dbName| + 1..], OplogPayload(RecordId(e), e)))
    else
      None
  }

  /** The collection passed on is the watched collection the namespace names. */
  lemma RoutedToNamedCollection(dbName: string, collections: seq<string>, c: string, e: OplogEntry)
    requires c in collections && e.ns == dbName + "." + c
    ensures RouteEntry(dbName, collections, e).Some?
    ensures RouteEntry(dbName, collections, e).value.0 == c
  {
    var i :| 0 <= i < |collections| && collections[i] == c;
    assert Matters(dbName, collections, e.ns);
    assert e.ns[|dbName| + 1..] == c;
  }

  /**
   * End to end: an entry is delivered by the tail exactly when it is an insert,
   * update or delete newer than the resume point in the namespace of a watched
   * collection.
   */
  lemma TailDeliversExactly(dbName: string, collections: seq<string>, last: Option<Timestamp>, e: OplogEntry)
    ensures (SelectorMatches(OplogSelector(dbName, last), e) && RouteEntry(dbName, collections, e).Some?)
      <==> (e.op in TailedOps && (last.Some? ==> e.ts > last.value) && Matters(dbName, collections, e.ns))
  {
    if Matters(dbName, collections, e.ns) {
      var i :| 0 <= i < |collections| && e.ns == dbName + "." + collections[i];
      assert e.ns[..|dbName + "."|] == dbName + ".";
    }
  }

  /** What the `ismaster` probe yields: a rejection, no document, or a document with or without `setName`. */
  datatype Probe = ProbeFailed(error: string) | NoReply | Reply(setName: Option<string>)

  /** What `findOne` sorted by `$natural: -1` yields: a rejection, nothing (empty oplog), or the newest `ts`. */
  datatype LastEntry = LookupFailed(error: string) | EmptyOplog | Newest(ts: Timestamp)

  /** The outcomes of the I/O `watchOplog` performs, in the order it performs it. */
  datatype OplogIO = OplogIO(
    oplogUrl: Option<string>,      // MONGO_OPLOG_URL, read when the tail is set up
    probe: Probe,                  // db.admin().command({ ismaster: 1 })
    clientDbName: string,          // client.db().databaseName of the oplog client
    connectError: Option<string>,  // client.connect() rejecting
    lastEntry: LastEntry
  )

  const NoOplogUrl: string := "No $MONGO_OPLOG_URL provided"
  const NotReplicaSet: string := "$MONGO_URL should be a replica set's URL"
  const NotLocalDb: string := "$MONGO_OPLOG_URL must be set to the 'local' database of a Mongo replica set"

  /** `isMasterDoc && isMasterDoc.setName`: a reply whose `setName` is a non-empty string. */
  predicate IsReplicaSet(p: Probe)
  {
    p.Reply? && p.setName.Some? && p.setName.value != ""
  }

  function ResumePoint(l: LastEntry): Option<Timestamp>
  {
    if l.Newest? then Some(l.ts) else None
  }

  /**
   * The setup of `watchOplog`: the selector of the cursor it opens, or the
   * error it rejects with. The first failing step wins: the URL check, the
   * probe, the replica-set check, the database-name check, then the
   * connection and the lookup of the newest entry.
   */
  function OplogSetup(dbName: string, io: OplogIO): (r: Result<Selector>)
    ensures io.oplogUrl.None? ==> r == Failure(NoOplogUrl)
    ensures io.oplogUrl.Some? && io.probe.ProbeFailed? ==> r == Failure(io.probe.error)
    ensures io.oplogUrl.Some? && !io.probe.ProbeFailed? && !IsReplicaSet(io.probe) ==> r == Failure(NotReplicaSet)
    ensures io.oplogUrl.Some? && IsReplicaSet(io.probe) && io.clientDbName != "local" ==> r == Failure(NotLocalDb)
    ensures r.Success? <==>
      io.oplogUrl.Some? && IsReplicaSet(io.probe) && io.clientDbName == "local"
      && io.connectError.None? && !io.lastEntry.LookupFailed?
    ensures r.Success? ==> r.value == OplogSelector(dbName, ResumePoint(io.lastEntry))
  {
    if io.oplogUrl.None? then Failure(NoOplogUrl)
    else if io.probe.ProbeFailed? then Failure(io.probe.error)
    else if !IsReplicaSet(io.probe) then Failure(NotReplicaSet)
    else if io.clientDbName != "local" then Failure(NotLocalDb)
    else if io.connectError.Some? then Failure(io.connectError.value)
    else if io.lastEntry.LookupFailed? then Failure(io.lastEntry.error)
    else Success(OplogSelector(dbName, ResumePoint(io.lastEntry)))
  }
}
