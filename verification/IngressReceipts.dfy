/** What the ingress queue answers to a report, told from the history, and what becomes of each result. */
module IngressReceipts {
  import opened Wrappers
  import opened IngressModel
  import opened IngressInvariants
  import opened IngressTheorems

  /** shutdown() has been called. */
  predicate IsFlagged(actions: seq<Action>) {
    DoShutdown in actions
  }

  /** The id belongs to one of the newest 10,000 accepted reports. */
  predicate IsRecent(accepted: seq<Entry>, id: string) {
    exists i :: 0 <= i < |accepted| && |accepted| - 10_000 <= i && accepted[i].queued.report.reportId == id
  }

  /** No room: as many reports wait or are being processed as the queue holds. */
  predicate IsFull(s: System, limit: nat) {
    |s.queue.pending| + s.queue.active >= limit
  }

  lemma FlagNext(s: System, a: Action, limit: nat)
    requires WorkerInv(s) && WaiterInv(s)
    ensures Next(s, a, limit).queue.shuttingDown <==> s.queue.shuttingDown || a.DoShutdown?
  {
    if Enabled(s, a) {
      match a
      case DoEnqueue(report, receivedAt) => EnqueueFrame(s, report, receivedAt, limit);
      case DoRecord(result, now) => RecordFrame(s, result, now);
      case DoFinish => FinishFrame(s);
      case DoShutdown => ShutdownFrame(s);
      case _ =>
    }
  }

  lemma {:induction false} FlaggedIff(actions: seq<Action>, limit: nat)
    ensures Run(actions, limit).queue.shuttingDown <==> IsFlagged(actions)
  {
    if actions == [] {
    } else {
      var init, a := actions[..|actions| - 1], actions[|actions| - 1];
      FlaggedIff(init, limit);
      var s := Reached(init, limit);
      FlagNext(s, a, limit);
      assert actions == init + [a];
    }
  }

  lemma {:induction false} SeenIffRecent(actions: seq<Action>, limit: nat, id: string)
    ensures var s := Run(actions, limit); id in s.queue.memory.seen <==> IsRecent(s.log.accepted, id)
  {
    var s := Reached(actions, limit);
    var order, ids := s.queue.memory.order, Ids(s.log.accepted);
    assert order == ids[|ids| - |order|..];
    if id in order {
      var k :| 0 <= k < |order| && order[k] == id;
      assert ids[|ids| - |order| + k] == id;
    }
    if IsRecent(s.log.accepted, id) {
      var i :| 0 <= i < |ids| && |ids| - 10_000 <= i && s.log.accepted[i].queued.report.reportId == id;
      assert ids[i] == id && order[i - (|ids| - |order|)] == id;
    }
  }

  /** The next state of the run after a report, and the answer to it. */
  function ReceiptFor(actions: seq<Action>, limit: nat, report: Report, receivedAt: int): Receipt {
    EnqueueInState(Run(actions, limit).queue, report, receivedAt, limit).0.receipt
  }

  /**
   * In every run: a report is a duplicate exactly if its id is recent and no shutdown was flagged; it is rejected
   * exactly after a shutdown, or if it is not recent, none of its key waits and the queue is full; and otherwise it
   * is accepted, whether or not an older report of its key waits.
   */
  lemma {:induction false} ReceiptIff(actions: seq<Action>, limit: nat, report: Report, receivedAt: int)
    ensures var s, receipt := Run(actions, limit), ReceiptFor(actions, limit, report, receivedAt);
            var flagged, recent := IsFlagged(actions), IsRecent(s.log.accepted, report.reportId);
            var waits := CoalesceKey(report) in s.queue.pending;
            && (receipt == Accepted(true) <==> !flagged && recent)
            && (receipt.Rejected? <==> flagged || (!recent && !waits && IsFull(s, limit)))
            && (receipt == Accepted(false) <==> !flagged && !recent && (waits || !IsFull(s, limit)))
            && (receipt.Rejected? ==>
                  receipt.error == if flagged then ShuttingDown(report.provider) else QueueFull(report.provider))
  {
    FlaggedIff(actions, limit);
    SeenIffRecent(actions, limit, report.reportId);
  }

  /**
   * An accepted report is the last accepted one and the one that now waits under its key, in place of an older one,
   * which is counted as coalesced; a duplicate changes nothing; a rejected one is counted as dropped, with its error.
   */
  lemma {:induction false} ReceiptTellsWhatHappened(actions: seq<Action>, limit: nat, report: Report, receivedAt: int)
    ensures var s, t := Run(actions, limit), Run(actions + [DoEnqueue(report, receivedAt)], limit);
            var receipt, key := ReceiptFor(actions, limit, report, receivedAt), CoalesceKey(report);
            var m, n := s.queue.metrics, t.queue.metrics;
            && (receipt == Accepted(false) ==>
                  && t.log.accepted == s.log.accepted + [Entry(key, Queued(report, receivedAt))]
                  && t.queue.pending == s.queue.pending[key := Queued(report, receivedAt)]
                  && n.coalesced == m.coalesced + (if key in s.queue.pending then 1 else 0) && n.dropped == m.dropped)
            && (receipt == Accepted(true) ==> t == s)
            && (receipt.Rejected? ==>
                  && t.log == s.log && t.queue.pending == s.queue.pending
                  && n == m.(dropped := m.dropped + 1, lastError := Some(receipt.error)))
  {
    var s := Run(actions, limit);
    assert (actions + [DoEnqueue(report, receivedAt)])[..|actions|] == actions;
    EnqueueFrame(s, report, receivedAt, limit);
  }

  // ---- Results ----

  /** A processed report is counted as such, also if it was rejected; a thrown error counts as a failure only. */
  lemma {:induction false} ResultIsCounted(actions: seq<Action>, limit: nat, result: ProcessResult, now: int)
    requires Run(actions, limit).worker.Processing?
    ensures var m := Run(actions, limit).queue.metrics;
            var n := Run(actions + [DoRecord(result, now)], limit).queue.metrics;
            && n.lastProcessedAt == Some(now)
            && n.processed == m.processed + (if result.Processed? then 1 else 0)
            && n.failed == m.failed + (if result.Threw? || result.rejection.Some? then 1 else 0)
            && n.lastError == (if result.Threw? then Some(result.error)
                               else if result.rejection.Some? && result.rejection.value.Some? then result.rejection.value
                               else m.lastError)
            && n.enqueued == m.enqueued && n.coalesced == m.coalesced && n.dropped == m.dropped && n.lastDrain == m.lastDrain
  {
    assert (actions + [DoRecord(result, now)])[..|actions|] == actions;
  }

  lemma {:induction false} DrainIsCounted(
    actions: seq<Action>, limit: nat, scanned: nat, drained: nat, failed: nat, now: int)
    ensures var a := DoRecordSpoolDrain(scanned, drained, failed, now);
            Run(actions + [a], limit).queue.metrics ==
            Run(actions, limit).queue.metrics.(lastDrain := Some(DrainCounts(scanned, drained, failed, now)))
  {
    assert (actions + [DoRecordSpoolDrain(scanned, drained, failed, now)])[..|actions|] == actions;
  }

  /** The reason to reconcile that the step's result gives, if it is the result of a report. */
  function Given(s: System, a: Action): seq<string> {
    if a.DoRecord? && s.worker.Processing? && a.result.Processed? && a.result.reconcileReason.Some? then
      [a.result.reconcileReason.value]
    else []
  }

  /** The reconcile reasons that processed reports gave in a run, in order. */
  function Reasons(actions: seq<Action>, limit: nat): seq<string> {
    if actions == [] then []
    else
      var init, a := actions[..|actions| - 1], actions[|actions| - 1];
      Reasons(init, limit) + Given(Run(init, limit), a)
  }

  /** A reason that is still to be passed on. */
  function Outstanding(worker: Worker): seq<string> {
    match worker
    case Recorded(Some(reason)) => [reason]
    case Notifying(Some(reason)) => [reason]
    case _ => []
  }

  /** The step loses no reason and adds the one its result gives. */
  predicate KeepsReasons(s: System, t: System, given: seq<string>) {
    t.log.reconciles + Outstanding(t.worker) == s.log.reconciles + Outstanding(s.worker) + given
  }

  lemma ReasonIsGiven(s: System, result: ProcessResult, now: int)
    requires s.worker.Processing?
    ensures KeepsReasons(s, WorkerRecords(s, result, now), Given(s, DoRecord(result, now)))
  {
  }

  lemma ReasonIsNotified(s: System)
    requires s.worker.Notifying?
    ensures KeepsReasons(s, WorkerNotifies(s), [])
  {
  }

  lemma {:induction false} ReasonStepOfWorker(s: System, a: Action, limit: nat)
    requires IsWorkerStep(a) && Enabled(s, a) && Inv(s, limit)
    ensures KeepsReasons(s, Step(s, a, limit), Given(s, a))
  {
    match a
    case DoClaim =>
      HeldKeyIsPending(s);
      ClaimFrame(s);
    case DoRecord(result, now) => ReasonIsGiven(s, result, now);
    case DoFinish => FinishFrame(s);
    case DoNotify => ReasonIsNotified(s);
    case _ =>
  }

  lemma {:induction false} ReasonStepElsewhere(s: System, a: Action, limit: nat)
    requires !IsWorkerStep(a) && !a.DoInterrupt? && Enabled(s, a) && Inv(s, limit)
    ensures KeepsReasons(s, Step(s, a, limit), Given(s, a))
  {
    match a
    case DoEnqueue(report, receivedAt) => EnqueueFrame(s, report, receivedAt, limit);
    case DoShutdown => ShutdownFrame(s);
    case _ =>
  }

  lemma {:induction false} ReasonStep(s: System, a: Action, limit: nat)
    requires Inv(s, limit) && !(a.DoInterrupt? && Enabled(s, a))
    ensures KeepsReasons(s, Next(s, a, limit), Given(s, a))
  {
    if !Enabled(s, a) {
    } else if IsWorkerStep(a) {
      ReasonStepOfWorker(s, a, limit);
    } else {
      ReasonStepElsewhere(s, a, limit);
    }
  }

  predicate ArePassedOn(s: System, reasons: seq<string>) {
    && (!s.worker.Interrupted? ==> s.log.reconciles + Outstanding(s.worker) == reasons)
    && (s.worker.Interrupted? ==> s.log.reconciles <= reasons && |reasons| <= |s.log.reconciles| + 1)
  }

  lemma {:induction false} PassingStep(s: System, a: Action, limit: nat, reasons: seq<string>)
    requires Inv(s, limit) && ArePassedOn(s, reasons)
    ensures ArePassedOn(Next(s, a, limit), reasons + Given(s, a))
  {
    if !(a.DoInterrupt? && Enabled(s, a)) { ReasonStep(s, a, limit); }
  }

  /**
   * Every reason to reconcile that a processed report gave is passed on once, in order, and before the next report
   * is claimed; only the interruption of the worker can drop one.
   */
  lemma {:induction false} ReasonsArePassedOn(actions: seq<Action>, limit: nat)
    ensures var s := Run(actions, limit);
            && ArePassedOn(s, Reasons(actions, limit))
            && (s.worker.Taking? || s.worker.Holding? || s.worker.Processing? ==> s.log.reconciles == Reasons(actions, limit))
  {
    if actions == [] {
    } else {
      var init, a := actions[..|actions| - 1], actions[|actions| - 1];
      ReasonsArePassedOn(init, limit);
      var s := Reached(init, limit);
      PassingStep(s, a, limit, Reasons(init, limit));
    }
  }

  /** The interruption drops a reason exactly if it comes between the end of a report and the passing on of its reason. */
  lemma {:induction false} InterruptDropsAReasonIff(actions: seq<Action>, limit: nat)
    requires Enabled(Run(actions, limit), DoInterrupt) && !Run(actions, limit).worker.Interrupted?
    ensures var s := Run(actions, limit);
            Run(actions + [DoInterrupt], limit).log.reconciles != Reasons(actions + [DoInterrupt], limit) <==>
              s.worker.Notifying? && s.worker.reason.Some?
  {
    ReasonsArePassedOn(actions, limit);
    var s := Reached(actions, limit);
    assert (actions + [DoInterrupt])[..|actions|] == actions;
  }

  // ---- The order of ready keys ----

  /** The key that an offer of the step makes ready... */
  function Offers(s: System, a: Action): seq<string> {
    if a.DoOffer? && Enabled(s, a) then [a.key] else []
  }

  /** ...and the one with which the worker comes away from the work queue. */
  function Takes(s: System, a: Action, limit: nat): seq<string> {
    var t := Next(s, a, limit);
    if a.DoTake? && Enabled(s, a) && t.worker.Holding? then [t.worker.key] else []
  }

  function Offered(actions: seq<Action>, limit: nat): seq<string> {
    if actions == [] then []
    else
      var init, a := actions[..|actions| - 1], actions[|actions| - 1];
      Offered(init, limit) + Offers(Run(init, limit), a)
  }

  function Taken(actions: seq<Action>, limit: nat): seq<string> {
    if actions == [] then []
    else
      var init, a := actions[..|actions| - 1], actions[|actions| - 1];
      Taken(init, limit) + Takes(Run(init, limit), a, limit)
  }

  /** The step loses no ready key and overtakes none. */
  predicate KeepsKeys(s: System, a: Action, limit: nat) {
    Takes(s, a, limit) + Next(s, a, limit).work == s.work + Offers(s, a)
  }

  lemma {:induction false} KeysOfWorker(s: System, a: Action, limit: nat)
    requires IsWorkerStep(a) && Enabled(s, a) && Inv(s, limit)
    ensures KeepsKeys(s, a, limit)
  {
    match a
    case DoClaim =>
      HeldKeyIsPending(s);
      ClaimFrame(s);
    case DoRecord(result, now) => RecordFrame(s, result, now);
    case DoFinish => FinishFrame(s);
    case _ =>
  }

  lemma {:induction false} KeysElsewhere(s: System, a: Action, limit: nat)
    requires !IsWorkerStep(a) && Enabled(s, a) && Inv(s, limit)
    ensures KeepsKeys(s, a, limit)
  {
    match a
    case DoEnqueue(report, receivedAt) => EnqueueFrame(s, report, receivedAt, limit);
    case DoShutdown => ShutdownFrame(s);
    case _ =>
  }

  lemma {:induction false} KeysStep(s: System, a: Action, limit: nat)
    requires Inv(s, limit)
    ensures KeepsKeys(s, a, limit)
  {
    if !Enabled(s, a) {
    } else if IsWorkerStep(a) {
      KeysOfWorker(s, a, limit);
    } else {
      KeysElsewhere(s, a, limit);
    }
  }

  lemma Regrouped(taken: seq<string>, takes: seq<string>, after: seq<string>,
                  before: seq<string>, offered: seq<string>, offers: seq<string>)
    requires taken + before == offered && takes + after == before + offers
    ensures taken + takes + after == offered + offers
  {
    assert taken + takes + after == taken + (takes + after) && taken + (before + offers) == taken + before + offers;
  }

  /** Ready keys are taken in the order in which they were offered, first in, first out. */
  lemma {:induction false} KeysAreTakenInOrder(actions: seq<Action>, limit: nat)
    ensures Taken(actions, limit) + Run(actions, limit).work == Offered(actions, limit)
  {
    if actions == [] {
    } else {
      var init, a := actions[..|actions| - 1], actions[|actions| - 1];
      KeysAreTakenInOrder(init, limit);
      var s := Reached(init, limit);
      KeysStep(s, a, limit);
      Regrouped(Taken(init, limit), Takes(s, a, limit), Next(s, a, limit).work, s.work, Offered(init, limit), Offers(s, a));
    }
  }
}
