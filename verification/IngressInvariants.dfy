/** What every transition of the ingress queue keeps. */
module IngressInvariants {
  import opened IngressModel

  // ---- What the state functions change ----

  /** The three outcomes of an enqueue: refused or deduplicated, coalesced into a pending entry, or new. */
  lemma EnqueueFrame(s: System, report: Report, receivedAt: int, limit: nat)
    ensures var t := Enqueue(s, report, receivedAt, limit);
            var key, entry := CoalesceKey(report), Queued(report, receivedAt);
            && t.work == s.work && t.worker == s.worker && t.shutdownWaiter == s.shutdownWaiter
            && t.queue.active == s.queue.active && t.queue.shuttingDown == s.queue.shuttingDown
            && t.queue.waiters == s.queue.waiters
            && t.log == s.log.(accepted := t.log.accepted)
            && t.queue.metrics.processed == s.queue.metrics.processed
            && t.queue.metrics.failed == s.queue.metrics.failed
            && if EnqueueInState(s.queue, report, receivedAt, limit).0.receipt == Accepted(false) then
                 && !s.queue.shuttingDown && report.reportId !in s.queue.memory.seen
                 && (key in s.queue.pending || Depth(s.queue) < limit)
                 && t.queue.pending == s.queue.pending[key := entry]
                 && t.queue.memory == Remember(s.queue.memory, report.reportId, MAX_REMEMBERED_REPORT_IDS)
                 && t.log.accepted == s.log.accepted + [Entry(key, entry)]
                 && t.queue.metrics.enqueued == s.queue.metrics.enqueued + 1
                 && t.queue.metrics.coalesced == s.queue.metrics.coalesced + (if key in s.queue.pending then 1 else 0)
                 && t.forked == if key in s.queue.pending then s.forked else s.forked + multiset{key}
               else
                 && t.queue.pending == s.queue.pending && t.queue.memory == s.queue.memory
                 && t.log == s.log && t.forked == s.forked
                 && t.queue.metrics.enqueued == s.queue.metrics.enqueued
                 && t.queue.metrics.coalesced == s.queue.metrics.coalesced
  {
  }

  lemma ClaimFrame(s: System)
    requires s.worker.Holding? && s.worker.key in s.queue.pending
    ensures var t := WorkerClaims(s);
            var key := s.worker.key;
            && t.forked == s.forked && t.work == s.work && t.shutdownWaiter == s.shutdownWaiter
            && t.worker == Processing(s.queue.pending[key])
            && t.queue == s.queue.(pending := s.queue.pending - {key}, active := s.queue.active + 1)
            && t.log == s.log.(handled := s.log.handled + [Entry(key, s.queue.pending[key])])
  {
  }

  lemma RecordFrame(s: System, result: ProcessResult, now: int)
    requires s.worker.Processing? && s.queue.active > 0
    ensures var t := WorkerRecords(s, result, now);
            && t.forked == s.forked && t.work == s.work && t.shutdownWaiter == s.shutdownWaiter && t.worker.Recorded?
            && t.queue == s.queue.(metrics := t.queue.metrics)
            && t.log == s.log.(thrown := t.log.thrown, rejected := t.log.rejected)
            && t.queue.metrics.enqueued == s.queue.metrics.enqueued
            && t.queue.metrics.coalesced == s.queue.metrics.coalesced
            && t.queue.metrics.processed + t.log.thrown == s.queue.metrics.processed + s.log.thrown + 1
            && t.queue.metrics.failed + s.log.thrown + s.log.rejected ==
               s.queue.metrics.failed + t.log.thrown + t.log.rejected
  {
  }

  lemma FinishFrame(s: System)
    requires s.worker.Recorded? && s.queue.active > 0
    ensures var t := WorkerFinishes(s);
            var next := s.queue.(active := s.queue.active - 1);
            && t.forked == s.forked && t.work == s.work && t.shutdownWaiter == s.shutdownWaiter && t.worker.Notifying?
            && t.queue == next.(waiters := if IsIdle(next) then [] else next.waiters)
            && t.log == s.log.(finished := s.log.finished + 1,
                               released := s.log.released + if IsIdle(next) then set w | w in next.waiters else {})
  {
  }

  lemma ShutdownFrame(s: System)
    requires WaiterInv(s)
    ensures ShutdownBegins(s) == s.(queue := s.queue.(shuttingDown := true))
  {
  }

  // ---- Ready tokens ----

  function Held(worker: Worker): multiset<string> {
    if worker.Holding? then multiset{worker.key} else multiset{}
  }

  /** Everywhere a ready key can be between its enqueue and its claim. */
  function Tokens(s: System): multiset<string> {
    s.forked + multiset(s.work) + Held(s.worker)
  }

  /** Each pending key has exactly one token and every other key none. */
  ghost predicate TokenInv(s: System) {
    Tokens(s) == multiset(s.queue.pending.Keys)
  }

  lemma HeldKeyIsPending(s: System)
    requires TokenInv(s) && s.worker.Holding?
    ensures s.worker.key in s.queue.pending
  {
    assert s.worker.key in Tokens(s);
  }

  lemma TokenAfterEnqueue(s: System, report: Report, receivedAt: int, limit: nat)
    requires TokenInv(s)
    ensures TokenInv(Enqueue(s, report, receivedAt, limit))
  {
    EnqueueFrame(s, report, receivedAt, limit);
    var key := CoalesceKey(report);
    assert s.queue.pending[key := Queued(report, receivedAt)].Keys == s.queue.pending.Keys + {key};
  }

  lemma TokenAfterClaim(s: System)
    requires TokenInv(s) && s.worker.Holding?
    ensures TokenInv(WorkerClaims(s))
  {
    HeldKeyIsPending(s);
    ClaimFrame(s);
    var key, keys := s.worker.key, s.queue.pending.Keys;
    assert (s.queue.pending - {key}).Keys == keys - {key};
    assert multiset(keys - {key}) == multiset(keys) - multiset{key};
    assert Tokens(WorkerClaims(s)) == Tokens(s) - multiset{key};
  }

  lemma TokenAfterOffer(s: System, key: string)
    requires TokenInv(s) && key in s.forked
    ensures TokenInv(OfferRuns(s, key))
  {
  }

  lemma TokenAfterTake(s: System)
    requires TokenInv(s) && s.worker.Taking? && s.work != []
    ensures TokenInv(WorkerTakes(s))
  {
    assert s.work == [s.work[0]] + s.work[1..];
    assert Tokens(WorkerTakes(s)) == Tokens(s);
  }

  lemma {:induction false} TokenNext(s: System, a: Action, limit: nat)
    requires TokenInv(s) && WorkerInv(s) && WaiterInv(s)
    ensures TokenInv(Next(s, a, limit))
  {
    if Enabled(s, a) {
      match a
      case DoEnqueue(report, receivedAt) => TokenAfterEnqueue(s, report, receivedAt, limit);
      case DoOffer(key) => TokenAfterOffer(s, key);
      case DoTake => TokenAfterTake(s);
      case DoClaim => TokenAfterClaim(s);
      case DoRecord(result, now) => RecordFrame(s, result, now);
      case DoFinish => FinishFrame(s);
      case DoShutdown => ShutdownFrame(s);
      case DoInterrupt => IdleHasNoTokens(s);
      case _ =>
    }
  }

  lemma IdleHasNoTokens(s: System)
    requires TokenInv(s) && IsIdle(s.queue)
    ensures Tokens(s) == multiset{} && !s.worker.Holding? && s.work == [] && s.forked == multiset{}
  {
  }

  // ---- The worker and the waiters ----

  function Busy(worker: Worker): nat {
    if worker.Processing? || worker.Recorded? then 1 else 0
  }

  ghost predicate WorkerInv(s: System) {
    && s.queue.active == Busy(s.worker)
    && (s.worker.Interrupted? ==> s.queue.shuttingDown && IsIdle(s.queue))
    && (s.shutdownWaiter.Some? ==>
          && s.queue.shuttingDown && s.shutdownWaiter.value < s.log.drainCalls
          && (s.shutdownWaiter.value in s.log.released ==> IsIdle(s.queue)))
  }

  /** A waiter waits exactly while it has not been released, and only in a state that is not idle. */
  ghost predicate WaiterInv(s: System) {
    && (s.queue.waiters != [] ==> !IsIdle(s.queue))
    && (forall w :: w in s.queue.waiters ==> w < s.log.drainCalls && w !in s.log.released)
    && (forall w :: w in s.log.released ==> w < s.log.drainCalls)
    && (forall w: nat :: w < s.log.drainCalls ==> w in s.queue.waiters || w in s.log.released)
  }

  lemma {:induction false} WorkerNextOfWorker(s: System, a: Action, limit: nat)
    requires IsWorkerStep(a) && Enabled(s, a)
    requires TokenInv(s) && WorkerInv(s) && WaiterInv(s)
    ensures WorkerInv(Next(s, a, limit))
  {
    match a
    case DoTake => if s.shutdownWaiter.Some? && IsIdle(s.queue) { IdleHasNoTokens(s); }
    case DoClaim =>
      HeldKeyIsPending(s);
      ClaimFrame(s);
    case DoRecord(result, now) => RecordFrame(s, result, now);
    case DoFinish => FinishFrame(s);
    case _ =>
  }

  lemma {:induction false} WorkerNextElsewhere(s: System, a: Action, limit: nat)
    requires !IsWorkerStep(a) && Enabled(s, a)
    requires TokenInv(s) && WorkerInv(s) && WaiterInv(s)
    ensures WorkerInv(Next(s, a, limit))
  {
    match a
    case DoEnqueue(report, receivedAt) => EnqueueFrame(s, report, receivedAt, limit);
    case DoOffer(key) =>
    case DoShutdown => ShutdownFrame(s);
    case _ =>
  }

  lemma {:induction false} WorkerNext(s: System, a: Action, limit: nat)
    requires TokenInv(s) && WorkerInv(s) && WaiterInv(s)
    ensures WorkerInv(Next(s, a, limit))
  {
    if !Enabled(s, a) {
    } else if IsWorkerStep(a) {
      WorkerNextOfWorker(s, a, limit);
    } else {
      WorkerNextElsewhere(s, a, limit);
    }
  }

  lemma {:induction false} WaiterNextOfWorker(s: System, a: Action, limit: nat)
    requires IsWorkerStep(a) && Enabled(s, a)
    requires TokenInv(s) && WorkerInv(s) && WaiterInv(s)
    ensures WaiterInv(Next(s, a, limit))
  {
    match a
    case DoClaim =>
      HeldKeyIsPending(s);
      ClaimFrame(s);
    case DoRecord(result, now) => RecordFrame(s, result, now);
    case DoFinish => FinishFrame(s);
    case _ =>
  }

  lemma {:induction false} WaiterNextElsewhere(s: System, a: Action, limit: nat)
    requires !IsWorkerStep(a) && Enabled(s, a)
    requires TokenInv(s) && WorkerInv(s) && WaiterInv(s)
    ensures WaiterInv(Next(s, a, limit))
  {
    match a
    case DoEnqueue(report, receivedAt) => EnqueueFrame(s, report, receivedAt, limit);
    case DoShutdown => ShutdownFrame(s);
    case _ =>
  }

  lemma {:induction false} WaiterNext(s: System, a: Action, limit: nat)
    requires TokenInv(s) && WorkerInv(s) && WaiterInv(s)
    ensures WaiterInv(Next(s, a, limit))
  {
    if !Enabled(s, a) {
    } else if IsWorkerStep(a) {
      WaiterNextOfWorker(s, a, limit);
    } else {
      WaiterNextElsewhere(s, a, limit);
    }
  }

  // ---- The bound and the counters ----

  ghost predicate CountInv(s: System, limit: nat) {
    var m := s.queue.metrics;
    && Depth(s.queue) <= limit
    && m.enqueued == |s.log.accepted|
    && m.enqueued == m.coalesced + |s.queue.pending| + m.processed + s.log.thrown + (if s.worker.Processing? then 1 else 0)
    && m.failed == s.log.thrown + s.log.rejected
  }

  lemma {:induction false} CountNextOfWorker(s: System, a: Action, limit: nat)
    requires IsWorkerStep(a) && Enabled(s, a)
    requires TokenInv(s) && WorkerInv(s) && WaiterInv(s) && CountInv(s, limit)
    ensures CountInv(Next(s, a, limit), limit)
  {
    match a
    case DoClaim =>
      HeldKeyIsPending(s);
      ClaimFrame(s);
    case DoRecord(result, now) => RecordFrame(s, result, now);
    case DoFinish => FinishFrame(s);
    case _ =>
  }

  lemma {:induction false} CountNextElsewhere(s: System, a: Action, limit: nat)
    requires !IsWorkerStep(a) && Enabled(s, a)
    requires TokenInv(s) && WorkerInv(s) && WaiterInv(s) && CountInv(s, limit)
    ensures CountInv(Next(s, a, limit), limit)
  {
    match a
    case DoEnqueue(report, receivedAt) => EnqueueFrame(s, report, receivedAt, limit);
    case DoShutdown => ShutdownFrame(s);
    case _ =>
  }

  lemma {:induction false} CountNext(s: System, a: Action, limit: nat)
    requires TokenInv(s) && WorkerInv(s) && WaiterInv(s) && CountInv(s, limit)
    ensures CountInv(Next(s, a, limit), limit)
  {
    if !Enabled(s, a) {
    } else if IsWorkerStep(a) {
      CountNextOfWorker(s, a, limit);
    } else {
      CountNextElsewhere(s, a, limit);
    }
  }
}
