/**
 * Provider hooks on their way to the event log, as a transition system: senders that deliver, start the observer,
 * deliver again and spool; ingest requests whose answers may be lost; drains of the spool; crashes of either side.
 */
module HookModel {
  import opened Wrappers
  import opened IngressStore

  // ---- The observer ----

  datatype RequestPhase = Arrived | Committed | Replied(accepted: bool) | Lost

  /** One ingest() call. `Committed` lies between its transaction and its publish. */
  datatype Request = Request(hookId: string, phase: RequestPhase)

  // ---- The spool directory ----

  datatype SpoolRecord = SpoolRecord(hookId: string, attempts: nat)

  /** A file that has been opened for writing holds nothing until it is written. */
  datatype File = File(inode: nat, content: Option<SpoolRecord>)

  datatype Disk = Disk(
    files: map<string, File>,
    inodes: nat,
    owner: map<string, string>,   // history: the hook every path was created for
    spooled: set<string>,         // history: paths their sender has finished writing
    torn: set<string>)            // history: paths whose rewriting was cut short

  // ---- Senders and drains ----

  datatype Receipt = DeliveredReceipt | SpooledReceipt(path: string)

  datatype SenderPhase =
    | Delivering(attempt: nat, request: Option<nat>)
    | Starting
    | Spooling
    | Writing(path: string)
    | Returned(receipt: Receipt)
    | Stopped

  datatype Sender = Sender(hookId: string, autoStart: bool, phase: SenderPhase)

  /**
   * What a drain is doing with the first of its remaining paths. `retry` says that a failure of the update is caught
   * and the update tried once more, which the catch after a rejected record does.
   */
  datatype DrainPoint =
    | Looking
    | Ingesting(record: SpoolRecord, request: nat)
    | Unlinking(record: SpoolRecord)
    | Truncating(record: SpoolRecord, retry: bool)
    | Rewriting(record: SpoolRecord, inode: nat, retry: bool)

  datatype Drain = Drain(todo: seq<string>, point: DrainPoint, drained: nat, failed: nat)

  datatype State = State(
    store: Tables,
    published: seq<string>,
    requests: seq<Request>,
    senders: seq<Sender>,
    drains: seq<Drain>,
    disk: Disk)

  const INITIAL := State(EMPTY_TABLES, [], [], [], [], Disk(map[], 0, map[], {}, {}))

  // ---- Sender steps ----

  function SetPhase(s: State, i: nat, phase: SenderPhase): State
    requires i < |s.senders|
  {
    s.(senders := s.senders[i := s.senders[i].(phase := phase)])
  }

  /** Where a sender goes when a delivery attempt brought no receipt. */
  function AfterAttempt(sender: Sender): SenderPhase
    requires sender.phase.Delivering?
  {
    if sender.phase.attempt == 1 && sender.autoStart then Starting else Spooling
  }

  function SendRequest(s: State, i: nat): State
    requires i < |s.senders| && s.senders[i].phase.Delivering?
  {
    var phase := s.senders[i].phase.(request := Some(|s.requests|));
    SetPhase(s.(requests := s.requests + [Request(s.senders[i].hookId, Arrived)]), i, phase)
  }

  /** A new spool file is created exclusively, under a path that was never used before. */
  function OpenSpoolFile(s: State, i: nat, path: string): State
    requires i < |s.senders|
  {
    var disk := s.disk.(files := s.disk.files[path := File(s.disk.inodes, None)],
                        inodes := s.disk.inodes + 1,
                        owner := s.disk.owner[path := s.senders[i].hookId]);
    SetPhase(s.(disk := disk), i, Writing(path))
  }

  function WriteSpoolFile(s: State, i: nat): State
    requires i < |s.senders| && s.senders[i].phase.Writing? && s.senders[i].phase.path in s.disk.files
  {
    var path := s.senders[i].phase.path;
    var file := s.disk.files[path].(content := Some(SpoolRecord(s.senders[i].hookId, 0)));
    var disk := s.disk.(files := s.disk.files[path := file], spooled := s.disk.spooled + {path});
    SetPhase(s.(disk := disk), i, Returned(SpooledReceipt(path)))
  }

  // ---- Observer steps ----

  function Ingest(s: State, r: nat, eventId: string, fault: Fault): State
    requires r < |s.requests|
  {
    var (outcome, store) := RecordHook(s.store, s.requests[r].hookId, eventId, fault);
    var phase := if outcome.Rejected? then Replied(false) else if outcome.deduped then Replied(true) else Committed;
    s.(store := store, requests := s.requests[r := s.requests[r].(phase := phase)])
  }

  function Publish(s: State, r: nat): State
    requires r < |s.requests|
  {
    s.(published := s.published + [s.requests[r].hookId], requests := s.requests[r := s.requests[r].(phase := Replied(true))])
  }

  // ---- Drain steps ----

  function SetDrain(s: State, d: nat, drain: Drain): State
    requires d < |s.drains|
  {
    s.(drains := s.drains[d := drain])
  }

  function Advance(drain: Drain, worked: bool): Drain
    requires drain.todo != []
  {
    Drain(drain.todo[1..], Looking, drain.drained + if worked then 1 else 0, drain.failed + if worked then 0 else 1)
  }

  /** The first path is read; one that is gone or does not parse is counted and left alone. */
  function ReadFile(s: State, d: nat): State
    requires d < |s.drains| && s.drains[d].todo != []
  {
    var drain := s.drains[d];
    var path := drain.todo[0];
    if path !in s.disk.files || s.disk.files[path].content.None? then SetDrain(s, d, Advance(drain, false))
    else
      var record := s.disk.files[path].content.value;
      SetDrain(s.(requests := s.requests + [Request(record.hookId, Arrived)]),
               d, drain.(point := Ingesting(record, |s.requests|)))
  }

  /** unlink() of an ingested record's file; a failure, as of a file that is already gone, is handled like a rejection. */
  function Unlink(s: State, d: nat, works: bool): State
    requires d < |s.drains| && s.drains[d].todo != [] && s.drains[d].point.Unlinking?
  {
    var drain := s.drains[d];
    if works then
      SetDrain(s.(disk := s.disk.(files := s.disk.files - {drain.todo[0]})), d, Advance(drain, true))
    else SetDrain(s, d, drain.(point := Truncating(drain.point.record, false)))
  }

  /** writeFile() opens the file: what it held is gone, and a missing file exists again. */
  function Truncate(s: State, d: nat): State
    requires d < |s.drains| && s.drains[d].todo != [] && s.drains[d].point.Truncating?
  {
    var drain := s.drains[d];
    var path := drain.todo[0];
    var inode := if path in s.disk.files then s.disk.files[path].inode else s.disk.inodes;
    var disk := s.disk.(files := s.disk.files[path := File(inode, None)], inodes := s.disk.inodes + 1);
    SetDrain(s.(disk := disk), d, drain.(point := Rewriting(drain.point.record, inode, drain.point.retry)))
  }

  /** writeFile() writes; if the file was unlinked since it was opened, to no effect. */
  function Rewrite(s: State, d: nat): State
    requires d < |s.drains| && s.drains[d].todo != [] && s.drains[d].point.Rewriting?
  {
    var drain := s.drains[d];
    var path, record := drain.todo[0], drain.point.record;
    var files :=
      if path in s.disk.files && s.disk.files[path].inode == drain.point.inode then
        s.disk.files[path := File(drain.point.inode, Some(record.(attempts := record.attempts + 1)))]
      else s.disk.files;
    SetDrain(s.(disk := s.disk.(files := files)), d, Advance(drain, false))
  }

  predicate IsRewriting(drain: Drain, path: string) {
    drain.point.Rewriting? && drain.todo != [] && drain.todo[0] == path
  }

  /** The file whose rewriting is cut short when the drain's update fails now. */
  function Cut(drain: Drain): set<string> {
    if drain.point.Rewriting? && drain.todo != [] then {drain.todo[0]} else {}
  }

  /** updateFailedSpoolRecord() throws after a rejection: the catch calls it again, with the same record. */
  function RetryUpdate(s: State, d: nat): State
    requires d < |s.drains| && IsUpdating(s.drains[d])
  {
    var drain := s.drains[d];
    SetDrain(s.(disk := s.disk.(torn := s.disk.torn + Cut(drain))), d,
             drain.(point := Truncating(drain.point.record, false)))
  }

  /** updateFailedSpoolRecord() throws in the catch, which ends the whole drain. */
  function AbandonDrain(s: State, d: nat): State
    requires d < |s.drains|
  {
    SetDrain(s.(disk := s.disk.(torn := s.disk.torn + Cut(s.drains[d]))), d, s.drains[d].(todo := [], point := Looking))
  }

  predicate IsUpdating(drain: Drain) {
    drain.point.Truncating? || drain.point.Rewriting?
  }

  function RewrittenPaths(drains: seq<Drain>): set<string> {
    set d | 0 <= d < |drains| && drains[d].point.Rewriting? && drains[d].todo != [] :: drains[d].todo[0]
  }

  function Forget(requests: seq<Request>): (r: seq<Request>)
    ensures |r| == |requests|
  {
    seq(|requests|, i requires 0 <= i < |requests| => requests[i].(phase := Lost))
  }

  /** The observer process dies; its store and the spool directory stay. */
  function Crash(s: State): State {
    s.(requests := Forget(s.requests), drains := [],
       disk := s.disk.(torn := s.disk.torn + RewrittenPaths(s.drains)))
  }

  datatype Action =
    | DoSend(hookId: string, autoStart: bool)
    | DoRequest(i: nat)
    | DoAnswered(i: nat)
    | DoAttemptFails(i: nat)
    | DoStartEnds(i: nat, ok: bool)
    | DoOpenSpoolFile(i: nat, path: string)
    | DoWriteSpoolFile(i: nat)
    | DoSenderStops(i: nat)
    | DoIngest(r: nat, eventId: string, fault: Fault)
    | DoPublish(r: nat)
    | DoRecordOther(name: string, eventId: string)
    | DoDrain(paths: seq<string>)
    | DoReadFile(d: nat)
    | DoDrainAnswered(d: nat)
    | DoUnlink(d: nat, works: bool)
    | DoTruncate(d: nat)
    | DoRewrite(d: nat)
    | DoRetryUpdate(d: nat)
    | DoAbandonDrain(d: nat)
    | DoCrash

  predicate SenderEnabled(s: State, a: Action) {
    match a
    case DoRequest(i) => i < |s.senders| && s.senders[i].phase.Delivering? && s.senders[i].phase.request.None?
    case DoAnswered(i) =>
      i < |s.senders| && s.senders[i].phase.Delivering? && s.senders[i].phase.request.Some? &&
      s.senders[i].phase.request.value < |s.requests| && s.requests[s.senders[i].phase.request.value].phase.Replied?
    case DoAttemptFails(i) => i < |s.senders| && s.senders[i].phase.Delivering?
    case DoStartEnds(i, _) => i < |s.senders| && s.senders[i].phase.Starting?
    case DoOpenSpoolFile(i, path) => i < |s.senders| && s.senders[i].phase.Spooling? && path !in s.disk.owner
    case DoWriteSpoolFile(i) => i < |s.senders| && s.senders[i].phase.Writing? && s.senders[i].phase.path in s.disk.files
    case DoSenderStops(i) => i < |s.senders| && !s.senders[i].phase.Returned?
    case _ => true
  }

  predicate DrainEnabled(s: State, a: Action) {
    match a
    case DoDrain(paths) =>
      (forall path :: path in paths ==> path in s.disk.files) && (forall path :: path in s.disk.files ==> path in paths)
    case DoReadFile(d) => d < |s.drains| && s.drains[d].todo != [] && s.drains[d].point.Looking?
    case DoDrainAnswered(d) =>
      d < |s.drains| && s.drains[d].todo != [] && s.drains[d].point.Ingesting? &&
      s.drains[d].point.request < |s.requests| && s.requests[s.drains[d].point.request].phase.Replied?
    case DoUnlink(d, works) =>
      d < |s.drains| && s.drains[d].todo != [] && s.drains[d].point.Unlinking? &&
      (works ==> s.drains[d].todo[0] in s.disk.files)
    case DoTruncate(d) => d < |s.drains| && s.drains[d].todo != [] && s.drains[d].point.Truncating?
    case DoRewrite(d) => d < |s.drains| && s.drains[d].todo != [] && s.drains[d].point.Rewriting?
    case DoRetryUpdate(d) =>
      d < |s.drains| && s.drains[d].todo != [] && IsUpdating(s.drains[d]) && s.drains[d].point.retry
    case DoAbandonDrain(d) =>
      d < |s.drains| && s.drains[d].todo != [] && IsUpdating(s.drains[d]) && !s.drains[d].point.retry
    case _ => true
  }

  predicate Enabled(s: State, a: Action) {
    match a
    case DoIngest(r, _, _) => r < |s.requests| && s.requests[r].phase.Arrived?
    case DoPublish(r) => r < |s.requests| && s.requests[r].phase.Committed?
    case _ => SenderEnabled(s, a) && DrainEnabled(s, a)
  }

  function Step(s: State, a: Action): State
    requires Enabled(s, a)
  {
    match a
    case DoSend(hookId, autoStart) => s.(senders := s.senders + [Sender(hookId, autoStart, Delivering(1, None))])
    case DoRequest(i) => SendRequest(s, i)
    case DoAnswered(i) =>
      if s.requests[s.senders[i].phase.request.value].phase.accepted then SetPhase(s, i, Returned(DeliveredReceipt))
      else SetPhase(s, i, AfterAttempt(s.senders[i]))
    case DoAttemptFails(i) => SetPhase(s, i, AfterAttempt(s.senders[i]))
    case DoStartEnds(i, ok) => SetPhase(s, i, if ok then Delivering(2, None) else Spooling)
    case DoOpenSpoolFile(i, path) => OpenSpoolFile(s, i, path)
    case DoWriteSpoolFile(i) => WriteSpoolFile(s, i)
    case DoSenderStops(i) => SetPhase(s, i, Stopped)
    case DoIngest(r, eventId, fault) => Ingest(s, r, eventId, fault)
    case DoPublish(r) => Publish(s, r)
    case DoRecordOther(name, eventId) => s.(store := RecordOther(s.store, name, eventId))
    case DoDrain(paths) => s.(drains := s.drains + [Drain(paths, Looking, 0, 0)])
    case DoReadFile(d) => ReadFile(s, d)
    case DoDrainAnswered(d) =>
      var record := s.drains[d].point.record;
      SetDrain(s, d, s.drains[d].(point :=
        if s.requests[s.drains[d].point.request].phase.accepted then Unlinking(record) else Truncating(record, true)))
    case DoUnlink(d, works) => Unlink(s, d, works)
    case DoTruncate(d) => Truncate(s, d)
    case DoRewrite(d) => Rewrite(s, d)
    case DoRetryUpdate(d) => RetryUpdate(s, d)
    case DoAbandonDrain(d) => AbandonDrain(s, d)
    case DoCrash => Crash(s)
  }

  function Next(s: State, a: Action): State {
    if Enabled(s, a) then Step(s, a) else s
  }

  function RunFrom(s: State, actions: seq<Action>): State {
    if actions == [] then s
    else Next(RunFrom(s, actions[..|actions| - 1]), actions[|actions| - 1])
  }
}
