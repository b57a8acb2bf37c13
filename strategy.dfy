/**
 * Strategy selection of `DatabaseWatcher.watch()` as values: which strategies
 * are attempted, in which order, what each one installs, and how the run ends.
 */
module Strategy {
  import opened Wrappers
  import opened Oplog

  datatype StrategyKind = MeteorBridge | OplogTail | ChangeStream

  /** The fields of a change-stream notification the watcher and its `$match` stage read. */
  datatype ChangeEvent = ChangeEvent(operationType: string, coll: string)

  /** The `$match` stage: `operationType` in `operationTypes` and `ns.coll` in `colls`. */
  datatype Pipeline = Pipeline(operationTypes: set<string>, colls: seq<string>)

  predicate PipelineMatches(p: Pipeline, e: ChangeEvent)
  {
    e.operationType in p.operationTypes && e.coll in p.colls
  }

  /** The pipeline `watchChangeStream` opens over the watched collections. */
  function ChangeStreamPipeline(collections: seq<string>): (p: Pipeline)
    ensures forall e :: PipelineMatches(p, e) <==>
      e.operationType in {"insert", "update", "delete"} && e.coll in collections
  {
    Pipeline({"insert", "update", "delete"}, collections)
  }

  /** A subscription a strategy leaves behind: one Meteor callback, the oplog cursor, or the change stream. */
  datatype Installed =
    | MeteorCallback(collection: string)
    | OplogCursor(selector: Selector)
    | ChangeFeed(pipeline: Pipeline)

  function KindOf(s: Installed): StrategyKind
  {
    match s
    case MeteorCallback(_) => MeteorBridge
    case OplogCursor(_) => OplogTail
    case ChangeFeed(_) => ChangeStream
  }

  /** The two settings `watch` consults, derived once from the environment. */
  datatype Flags = Flags(useMeteorOplog: bool, ignoreChangeStream: bool)

  /** Setup I/O outcomes: whether `db.watch` throws synchronously, and those of the oplog tail. */
  datatype SetupIO = SetupIO(changeStreamError: Option<string>, oplog: OplogIO)

  const NoOplogHandle: string := "no-oplog-handle"

  /** One Meteor callback per watched collection, in the order of the list. */
  function MeteorCallbacks(collections: seq<string>): seq<Installed>
  {
    seq(|collections|, i requires 0 <= i < |collections| => MeteorCallback(collections[i]))
  }

  /** One call to `watch()`: the strategies it attempted, what they installed, and its outcome. */
  datatype Run = Run(attempts: seq<StrategyKind>, installs: seq<Installed>, outcome: Outcome)

  /** Attempting one strategy on its own. */
  function Attempt(kind: StrategyKind, hasOplogHandle: bool, dbName: string, collections: seq<string>, io: SetupIO): (run: Run)
    ensures run.attempts == [kind]
    ensures run.outcome.Fail? ==> run.installs == []
    ensures forall i :: 0 <= i < |run.installs| ==> KindOf(run.installs[i]) == kind
  {
    match kind
    case MeteorBridge =>
      if hasOplogHandle then Run([kind], MeteorCallbacks(collections), Pass)
      else Run([kind], [], Fail(NoOplogHandle))
    case OplogTail =>
      (match OplogSetup(dbName, io.oplog)
       case Success(sel) => Run([kind], [OplogCursor(sel)], Pass)
       case Failure(err) => Run([kind], [], Fail(err)))
    case ChangeStream =>
      if io.changeStreamError.Some? then Run([kind], [], Fail(io.changeStreamError.value))
      else Run([kind], [ChangeFeed(ChangeStreamPipeline(collections))], Pass)
  }

  /**
   * `watch()`: the Meteor bridge when its flag is set, else the oplog tail when
   * change streams are ignored, else the change stream, falling back once to
   * the oplog tail when its setup throws.
   */
  function WatchRun(flags: Flags, hasOplogHandle: bool, dbName: string, collections: seq<string>, io: SetupIO): (run: Run)
    // The Meteor bridge wins over everything, whatever the other flag says.
    ensures flags.useMeteorOplog ==> run.attempts == [MeteorBridge]
    ensures flags.useMeteorOplog ==>
      if hasOplogHandle then run.outcome == Pass && run.installs == MeteorCallbacks(collections)
      else run.outcome == Fail(NoOplogHandle) && run.installs == []
    // Ignoring change streams goes straight to the oplog tail.
    ensures !flags.useMeteorOplog && flags.ignoreChangeStream ==> run.attempts == [OplogTail]
    // Otherwise the change stream is tried first, and only a synchronous throw leads to the tail.
    ensures !flags.useMeteorOplog && !flags.ignoreChangeStream ==>
      run.attempts == if io.changeStreamError.Some? then [ChangeStream, OplogTail] else [ChangeStream]
    ensures !flags.useMeteorOplog && !flags.ignoreChangeStream && io.changeStreamError.None? ==>
      run.outcome == Pass && run.installs == [ChangeFeed(ChangeStreamPipeline(collections))]
    // Whenever the tail is attempted, its setup decides the outcome; its failure is final.
    ensures OplogTail in run.attempts ==>
      match OplogSetup(dbName, io.oplog)
      case Success(sel) => run.outcome == Pass && run.installs == [OplogCursor(sel)]
      case Failure(err) => run.outcome == Fail(err) && run.installs == []
    // At most one fallback, and everything installed belongs to the last strategy attempted.
    ensures 1 <= |run.attempts| <= 2
    ensures run.outcome.Fail? ==> run.installs == []
    ensures forall i :: 0 <= i < |run.installs| ==> KindOf(run.installs[i]) == run.attempts[|run.attempts| - 1]
  {
    if flags.useMeteorOplog then
      Attempt(MeteorBridge, hasOplogHandle, dbName, collections, io)
    else if flags.ignoreChangeStream then
      Attempt(OplogTail, hasOplogHandle, dbName, collections, io)
    else
      var first := Attempt(ChangeStream, hasOplogHandle, dbName, collections, io);
      if first.outcome.Pass? then first
      else
        var fallback := Attempt(OplogTail, hasOplogHandle, dbName, collections, io);
        Run(first.attempts + fallback.attempts, fallback.installs, fallback.outcome)
  }
}
