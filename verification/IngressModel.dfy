/**
 * The harness ingress queue: state functions over its Ref, and the transition system they form together
 * with the forked offers, the work queue and the forever worker.
 */
module IngressModel {
  import opened Wrappers

  datatype Correlation = Correlation(
    harnessRunId: Option<string>,
    sessionId: Option<string>,
    worktreeId: Option<string>,
    terminalTargetId: Option<string>,
    cwd: Option<string>)

  datatype Report = Report(
    reportId: string,
    provider: string,
    eventType: string,
    correlation: Option<Correlation>,
    coalesceKey: Option<string>,
    body: string)

  datatype Queued = Queued(report: Report, receivedAt: int)

  datatype QueueError = ShuttingDown(provider: string) | QueueFull(provider: string) | ProcessFailed(message: string)

  datatype DrainCounts = DrainCounts(scanned: nat, drained: nat, failed: nat, finishedAt: int)

  datatype Metrics = Metrics(
    enqueued: nat,
    processed: nat,
    coalesced: nat,
    dropped: nat,
    failed: nat,
    lastProcessedAt: Option<int>,
    lastError: Option<QueueError>,
    lastDrain: Option<DrainCounts>)

  datatype Memory = Memory(seen: set<string>, order: seq<string>)

  datatype QueueState = QueueState(
    pending: map<string, Queued>,
    memory: Memory,
    metrics: Metrics,
    active: nat,
    shuttingDown: bool,
    waiters: seq<nat>)

  datatype Receipt = Accepted(deduped: bool) | Rejected(error: QueueError)

  datatype EnqueueResult = EnqueueResult(receipt: Receipt, readyKey: Option<string>)

  /** What processReport resolves to, or the error it throws. */
  datatype ProcessResult =
    | Processed(rejection: Option<Option<QueueError>>, reconcileReason: Option<string>)
    | Threw(error: QueueError)

  const MAX_REMEMBERED_REPORT_IDS: nat := 10_000

  const INITIAL_QUEUE :=
    QueueState(map[], Memory({}, []), Metrics(0, 0, 0, 0, 0, None, None, None), 0, false, [])

  // ---- State functions ----

  function StableAgentKey(report: Report): string {
    match report.correlation
    case None => report.reportId
    case Some(c) =>
      c.harnessRunId.OrElse(c.sessionId).OrElse(c.worktreeId).OrElse(c.terminalTargetId).OrElse(c.cwd).Or(report.reportId)
  }

  function CoalesceKey(report: Report): string {
    report.provider + ":" + StableAgentKey(report) + ":" + report.eventType + ":" + report.coalesceKey.Or("-")
  }

  predicate IsIdle(q: QueueState) {
    q.pending == map[] && q.active == 0
  }

  function Depth(q: QueueState): nat {
    |q.pending| + q.active
  }

  function Elements(ids: seq<string>): set<string> {
    set id | id in ids
  }

  /** The ids kept are the newest ones; whatever drops off the list is also forgotten by the set. */
  function Remember(memory: Memory, id: string, limit: nat): Memory {
    var order := memory.order + [id];
    var dropped := if |order| > limit then |order| - limit else 0;
    Memory((memory.seen + {id}) - Elements(order[..dropped]), order[dropped..])
  }

  function Drop(q: QueueState, error: QueueError): QueueState {
    q.(metrics := q.metrics.(dropped := q.metrics.dropped + 1, lastError := Some(error)))
  }

  function EnqueueInState(q: QueueState, report: Report, receivedAt: int, limit: nat): (EnqueueResult, QueueState) {
    if q.shuttingDown then
      var error := ShuttingDown(report.provider);
      (EnqueueResult(Rejected(error), None), Drop(q, error))
    else if report.reportId in q.memory.seen then
      (EnqueueResult(Accepted(true), None), q)
    else
      var key := CoalesceKey(report);
      if key !in q.pending && Depth(q) >= limit then
        var error := QueueFull(report.provider);
        (EnqueueResult(Rejected(error), None), Drop(q, error))
      else
        (EnqueueResult(Accepted(false), if key in q.pending then None else Some(key)),
         q.(pending := q.pending[key := Queued(report, receivedAt)],
            memory := Remember(q.memory, report.reportId, MAX_REMEMBERED_REPORT_IDS),
            metrics := q.metrics.(enqueued := q.metrics.enqueued + 1,
                                  coalesced := q.metrics.coalesced + if key in q.pending then 1 else 0)))
  }

  function TakeQueuedReport(q: QueueState, key: string): (Option<Queued>, QueueState) {
    if key !in q.pending then (None, q)
    else (Some(q.pending[key]), q.(pending := q.pending - {key}, active := q.active + 1))
  }

  function RecordProcessed(q: QueueState, rejection: Option<Option<QueueError>>, now: int): QueueState {
    q.(metrics := q.metrics.(
      processed := q.metrics.processed + 1,
      lastProcessedAt := Some(now),
      failed := q.metrics.failed + if rejection.Some? then 1 else 0,
      lastError := if rejection.Some? then rejection.value.OrElse(q.metrics.lastError) else q.metrics.lastError))
  }

  function RecordFailed(q: QueueState, error: QueueError, now: int): QueueState {
    q.(metrics := q.metrics.(
      failed := q.metrics.failed + 1, lastProcessedAt := Some(now), lastError := Some(error)))
  }

  function RecordSpoolDrain(q: QueueState, scanned: nat, drained: nat, failed: nat, now: int): QueueState {
    q.(metrics := q.metrics.(lastDrain := Some(DrainCounts(scanned, drained, failed, now))))
  }

  function DecrementActive(q: QueueState): QueueState {
    q.(active := if q.active == 0 then 0 else q.active - 1)
  }

  // ---- The system around the state ----

  /** Program point of the forever worker. */
  datatype Worker =
    | Taking
    | Holding(key: string)
    | Processing(queued: Queued)
    | Recorded(reason: Option<string>)
    | Notifying(reason: Option<string>)
    | Interrupted

  datatype Entry = Entry(key: string, queued: Queued)

  /** History: what was accepted and handed to processReport, which waiters were released, what was counted. */
  datatype Log = Log(
    accepted: seq<Entry>,
    handled: seq<Entry>,
    thrown: nat,
    rejected: nat,
    finished: nat,
    drainCalls: nat,
    released: set<nat>,
    reconciles: seq<string>)

  datatype System = System(
    queue: QueueState,
    forked: multiset<string>,     // offers that were forked and have not run yet
    work: seq<string>,            // the unbounded work queue of ready keys
    worker: Worker,
    shutdownWaiter: Option<nat>,
    log: Log)

  const INITIAL_SYSTEM := System(INITIAL_QUEUE, multiset{}, [], Taking, None, Log([], [], 0, 0, 0, 0, {}, []))

  /** The waiters to wake when the state becomes `next`: all of them, once it is idle. */
  function Release(s: System, next: QueueState): System {
    if IsIdle(next) && next.waiters != [] then
      s.(queue := next.(waiters := []),
         log := s.log.(released := s.log.released + set w | w in next.waiters))
    else
      s.(queue := next)
  }

  function Enqueue(s: System, report: Report, receivedAt: int, limit: nat): System {
    var (result, next) := EnqueueInState(s.queue, report, receivedAt, limit);
    var log :=
      if result.receipt == Accepted(false) then
        s.log.(accepted := s.log.accepted + [Entry(CoalesceKey(report), Queued(report, receivedAt))])
      else s.log;
    s.(queue := next,
       forked := if result.readyKey.Some? then s.forked + multiset{result.readyKey.value} else s.forked,
       log := log)
  }

  function OfferRuns(s: System, key: string): System {
    s.(forked := s.forked - multiset{key}, work := s.work + [key])
  }

  function WorkerTakes(s: System): System
    requires s.work != []
  {
    s.(worker := Holding(s.work[0]), work := s.work[1..])
  }

  function WorkerClaims(s: System): System
    requires s.worker.Holding?
  {
    var key := s.worker.key;
    var (queued, next) := TakeQueuedReport(s.queue, key);
    var updated := Release(s, next);
    match queued
    case None => updated.(worker := Taking)
    case Some(q) => updated.(worker := Processing(q), log := updated.log.(handled := updated.log.handled + [Entry(key, q)]))
  }

  function WorkerRecords(s: System, result: ProcessResult, now: int): System
    requires s.worker.Processing?
  {
    match result
    case Processed(rejection, reason) =>
      Release(s.(worker := Recorded(reason),
                 log := s.log.(rejected := s.log.rejected + if rejection.Some? then 1 else 0)),
              RecordProcessed(s.queue, rejection, now))
    case Threw(error) =>
      Release(s.(worker := Recorded(None), log := s.log.(thrown := s.log.thrown + 1)),
              RecordFailed(s.queue, error, now))
  }

  function WorkerFinishes(s: System): System
    requires s.worker.Recorded?
  {
    Release(s.(worker := Notifying(s.worker.reason), log := s.log.(finished := s.log.finished + 1)),
            DecrementActive(s.queue))
  }

  function WorkerNotifies(s: System): System
    requires s.worker.Notifying?
  {
    s.(worker := Taking,
       log := if s.worker.reason.Some? then s.log.(reconciles := s.log.reconciles + [s.worker.reason.value]) else s.log)
  }

  function DrainCalled(s: System): System {
    var waiter := s.log.drainCalls;
    var log := s.log.(drainCalls := waiter + 1);
    if IsIdle(s.queue) then s.(log := log.(released := log.released + {waiter}))
    else s.(queue := s.queue.(waiters := s.queue.waiters + [waiter]), log := log)
  }

  function ShutdownBegins(s: System): System {
    Release(s, s.queue.(shuttingDown := true))
  }

  /** The drain that shutdown() waits for before it stops the worker. */
  function ShutdownDrains(s: System): System {
    DrainCalled(s).(shutdownWaiter := Some(s.log.drainCalls))
  }

  datatype Action =
    | DoEnqueue(report: Report, receivedAt: int)
    | DoOffer(key: string)
    | DoTake
    | DoClaim
    | DoRecord(result: ProcessResult, now: int)
    | DoFinish
    | DoNotify
    | DoDrain
    | DoShutdown
    | DoShutdownDrain
    | DoInterrupt
    | DoRecordSpoolDrain(scanned: nat, drained: nat, failed: nat, now: int)

  predicate IsWorkerStep(a: Action) {
    a.DoTake? || a.DoClaim? || a.DoRecord? || a.DoFinish? || a.DoNotify?
  }

  predicate Enabled(s: System, a: Action) {
    match a
    case DoEnqueue(_, _) => true
    case DoOffer(key) => key in s.forked
    case DoTake => s.worker.Taking? && s.work != []
    case DoClaim => s.worker.Holding?
    case DoRecord(_, _) => s.worker.Processing?
    case DoFinish => s.worker.Recorded?
    case DoNotify => s.worker.Notifying?
    case DoDrain => true
    case DoShutdown => true
    case DoShutdownDrain => s.queue.shuttingDown && s.shutdownWaiter.None?
    case DoInterrupt => s.shutdownWaiter.Some? && s.shutdownWaiter.value in s.log.released
    case DoRecordSpoolDrain(_, _, _, _) => true
  }

  function Step(s: System, a: Action, limit: nat): System
    requires Enabled(s, a)
  {
    match a
    case DoEnqueue(report, receivedAt) => Enqueue(s, report, receivedAt, limit)
    case DoOffer(key) => OfferRuns(s, key)
    case DoTake => WorkerTakes(s)
    case DoClaim => WorkerClaims(s)
    case DoRecord(result, now) => WorkerRecords(s, result, now)
    case DoFinish => WorkerFinishes(s)
    case DoNotify => WorkerNotifies(s)
    case DoDrain => DrainCalled(s)
    case DoShutdown => ShutdownBegins(s)
    case DoShutdownDrain => ShutdownDrains(s)
    case DoInterrupt => s.(worker := Interrupted)
    case DoRecordSpoolDrain(scanned, drained, failed, now) =>
      s.(queue := RecordSpoolDrain(s.queue, scanned, drained, failed, now))
  }

  function Next(s: System, a: Action, limit: nat): System {
    if Enabled(s, a) then Step(s, a, limit) else s
  }

  /** A run of the queue with room for `limit` reports, from its creation. */
  function Run(actions: seq<Action>, limit: nat): System {
    RunFrom(INITIAL_SYSTEM, actions, limit)
  }

  function RunFrom(s: System, actions: seq<Action>, limit: nat): System {
    if actions == [] then s
    else Next(RunFrom(s, actions[..|actions| - 1], limit), actions[|actions| - 1], limit)
  }
}
