/**
 * The ingress queue as the object the source builds: a Ref with the queue state, a work queue and a worker.
 * Each method is one uninterrupted piece of code, tied to its transition in IngressModel.
 */
module HarnessIngressQueue {
  import opened Wrappers
  import opened IngressModel

  /** The loop over local copies that remembers a report id and forgets the oldest ones. */
  method RememberReportId(memory: Memory, id: string, limit: nat) returns (r: Memory)
    ensures r == Remember(memory, id, limit)
  {
    ghost var all := memory.order + [id];
    ghost var dropped: nat := 0;
    var seen := memory.seen + {id};
    var order := memory.order + [id];
    assert Elements(all[..0]) == {};
    while |order| > limit
      invariant dropped <= |all| && order == all[dropped..]
      invariant dropped <= if |all| > limit then |all| - limit else 0
      invariant seen == (memory.seen + {id}) - Elements(all[..dropped])
    {
      assert all[..dropped + 1] == all[..dropped] + [all[dropped]];
      assert Elements(all[..dropped + 1]) == Elements(all[..dropped]) + {order[0]};
      seen := seen - {order[0]};
      order := order[1..];
      dropped := dropped + 1;
    }
    return Memory(seen, order);
  }

  class IngressQueue {
    const limit: nat
    var state: QueueState
    var forked: multiset<string>
    var work: seq<string>
    var worker: Worker
    var shutdownWaiter: Option<nat>
    var log: Log

    ghost function Model(): System
      reads this
    {
      System(state, forked, work, worker, shutdownWaiter, log)
    }

    constructor (maxPendingReports: nat)
      ensures limit == maxPendingReports && Model() == INITIAL_SYSTEM
    {
      limit := maxPendingReports;
      state := INITIAL_QUEUE;
      forked, work, worker, shutdownWaiter := multiset{}, [], Taking, None;
      log := Log([], [], 0, 0, 0, 0, {}, []);
    }

    method Reject(error: QueueError) returns (receipt: Receipt)
      modifies `state
      ensures state == Drop(old(state), error) && receipt == Rejected(error)
    {
      state := state.(metrics := state.metrics.(dropped := state.metrics.dropped + 1, lastError := Some(error)));
      return Rejected(error);
    }

    method EnqueueReport(report: Report, receivedAt: int) returns (receipt: Receipt)
      modifies this
      ensures Model() == Enqueue(old(Model()), report, receivedAt, limit)
      ensures receipt == EnqueueInState(old(state), report, receivedAt, limit).0.receipt
      ensures receipt == Accepted(true) <==> !old(state.shuttingDown) && report.reportId in old(state.memory.seen)
      ensures receipt == Accepted(false) ==>
                state.pending == old(state.pending)[CoalesceKey(report) := Queued(report, receivedAt)]
    {
      if state.shuttingDown {
        receipt := Reject(ShuttingDown(report.provider));
        return;
      }
      if report.reportId in state.memory.seen {
        return Accepted(true);
      }
      var key := CoalesceKey(report);
      var alreadyPending := key in state.pending;
      if !alreadyPending && |state.pending| + state.active >= limit {
        receipt := Reject(QueueFull(report.provider));
        return;
      }
      var metrics := state.metrics.(enqueued := state.metrics.enqueued + 1);
      if alreadyPending {
        metrics := metrics.(coalesced := metrics.coalesced + 1);
      }
      var memory := RememberReportId(state.memory, report.reportId, MAX_REMEMBERED_REPORT_IDS);
      state := state.(pending := state.pending[key := Queued(report, receivedAt)], memory := memory, metrics := metrics);
      log := log.(accepted := log.accepted + [Entry(key, Queued(report, receivedAt))]);
      if !alreadyPending {
        forked := forked + multiset{key};
      }
      return Accepted(false);
    }

    /** Installs the next state and wakes every drain waiter once the queue is idle. */
    method UpdateState(next: QueueState)
      modifies `state, `log
      ensures Model() == Release(old(Model()), next)
    {
      if !IsIdle(next) || next.waiters == [] {
        state := next;
        return;
      }
      var released := log.released;
      for i := 0 to |next.waiters|
        invariant released == log.released + set w | w in next.waiters[..i]
      {
        assert next.waiters[..i + 1] == next.waiters[..i] + [next.waiters[i]];
        released := released + {next.waiters[i]};
      }
      assert next.waiters[..|next.waiters|] == next.waiters;
      state := next.(waiters := []);
      log := log.(released := released);
    }

    method OfferFires(key: string)
      requires key in forked
      modifies `forked, `work
      ensures Model() == OfferRuns(old(Model()), key)
    {
      forked := forked - multiset{key};
      work := work + [key];
    }

    method TakeReady()
      requires worker.Taking? && work != []
      modifies `worker, `work
      ensures Model() == WorkerTakes(old(Model()))
    {
      worker, work := Holding(work[0]), work[1..];
    }

    method ClaimReport()
      requires worker.Holding?
      modifies `state, `worker, `log
      ensures Model() == WorkerClaims(old(Model()))
    {
      var key := worker.key;
      if key !in state.pending {
        UpdateState(state);
        worker := Taking;
        return;
      }
      var queued := state.pending[key];
      UpdateState(state.(pending := state.pending - {key}, active := state.active + 1));
      worker := Processing(queued);
      log := log.(handled := log.handled + [Entry(key, queued)]);
    }

    method RecordResult(result: ProcessResult, now: int)
      requires worker.Processing?
      modifies `state, `worker, `log
      ensures Model() == WorkerRecords(old(Model()), result, now)
    {
      match result {
        case Processed(rejection, reason) =>
          worker := Recorded(reason);
          if rejection.Some? {
            log := log.(rejected := log.rejected + 1);
          }
          UpdateState(RecordProcessed(state, rejection, now));
        case Threw(error) =>
          worker := Recorded(None);
          log := log.(thrown := log.thrown + 1);
          UpdateState(RecordFailed(state, error, now));
      }
    }

    method FinishReport()
      requires worker.Recorded?
      modifies `state, `worker, `log
      ensures Model() == WorkerFinishes(old(Model()))
    {
      worker := Notifying(worker.reason);
      log := log.(finished := log.finished + 1);
      UpdateState(DecrementActive(state));
    }

    method RequestReconcile()
      requires worker.Notifying?
      modifies `worker, `log
      ensures Model() == WorkerNotifies(old(Model()))
    {
      if worker.reason.Some? {
        log := log.(reconciles := log.reconciles + [worker.reason.value]);
      }
      worker := Taking;
    }

    method Drain() returns (alreadyIdle: bool)
      modifies `state, `log
      ensures Model() == DrainCalled(old(Model()))
      ensures alreadyIdle <==> IsIdle(old(state))
    {
      var waiter := log.drainCalls;
      log := log.(drainCalls := waiter + 1);
      if IsIdle(state) {
        log := log.(released := log.released + {waiter});
        return true;
      }
      state := state.(waiters := state.waiters + [waiter]);
      return false;
    }

    method BeginShutdown()
      modifies `state, `log
      ensures Model() == ShutdownBegins(old(Model()))
    {
      UpdateState(state.(shuttingDown := true));
    }

    method DrainForShutdown()
      modifies `state, `log, `shutdownWaiter
      ensures Model() == ShutdownDrains(old(Model()))
    {
      var waiter := log.drainCalls;
      var _ := Drain();
      shutdownWaiter := Some(waiter);
    }

    method InterruptWorker()
      requires shutdownWaiter.Some? && shutdownWaiter.value in log.released
      modifies `worker
      ensures Model() == Step(old(Model()), DoInterrupt, limit)
    {
      worker := Interrupted;
    }

    method RecordDrainOfSpool(scanned: nat, drained: nat, failed: nat, now: int)
      modifies `state
      ensures Model() == old(Model()).(queue := RecordSpoolDrain(old(state), scanned, drained, failed, now))
    {
      state := state.(metrics := state.metrics.(lastDrain := Some(DrainCounts(scanned, drained, failed, now))));
    }

    method Health() returns (depth: nat, metrics: Metrics)
      ensures depth == Depth(state) && metrics == state.metrics
    {
      return |state.pending| + state.active, state.metrics;
    }
  }
}
