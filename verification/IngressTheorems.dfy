/** The guarantees of the ingress queue over every run. */
module IngressTheorems {
  import opened Wrappers
  import opened Sequences
  import opened IngressModel
  import opened IngressInvariants

  // ---- Coalescing refines the uncoalesced queue ----

  /** The reports of one key, oldest first. */
  function Of(entries: seq<Entry>, key: string): seq<Queued> {
    if entries == [] then []
    else
      var last := entries[|entries| - 1];
      Of(entries[..|entries| - 1], key) + if last.key == key then [last.queued] else []
  }

  lemma OfOneMore(entries: seq<Entry>, entry: Entry, key: string)
    ensures Of(entries + [entry], key) == Of(entries, key) + if entry.key == key then [entry.queued] else []
  {
  }

  /** What has been handled for a key, followed by what is still pending for it. */
  function Future(s: System, key: string): seq<Queued> {
    Of(s.log.handled, key) + if key in s.queue.pending then [s.queue.pending[key]] else []
  }

  ghost predicate RefinesKey(s: System, key: string) {
    var accepted, future := Of(s.log.accepted, key), Future(s, key);
    && Subsequence(future, accepted)
    && (accepted != [] ==> future != [] && future[|future| - 1] == accepted[|accepted| - 1])
  }

  ghost predicate OrderInv(s: System) {
    forall key :: RefinesKey(s, key)
  }

  lemma RefinesAfterAccept(s: System, t: System, key: string, entry: Entry)
    requires RefinesKey(s, key)
    requires t.log.handled == s.log.handled && t.log.accepted == s.log.accepted + [entry]
    requires t.queue.pending == s.queue.pending[entry.key := entry.queued]
    ensures RefinesKey(t, key)
  {
    OfOneMore(s.log.accepted, entry, key);
    var handled, accepted := Of(s.log.handled, key), Of(s.log.accepted, key);
    if entry.key != key {
      assert Of(t.log.accepted, key) == accepted && Future(t, key) == Future(s, key);
    } else {
      if key in s.queue.pending {
        assert Future(s, key)[..|handled|] == handled;
        SubsequenceInit(Future(s, key), accepted);
      } else {
        assert Future(s, key) == handled;
      }
      SubsequenceExtend(handled, accepted, entry.queued);
      assert Future(t, key) == handled + [entry.queued];
    }
  }

  lemma RefinesAfterClaim(s: System, t: System, key: string, claimed: string)
    requires RefinesKey(s, key) && claimed in s.queue.pending
    requires t.log.accepted == s.log.accepted
    requires t.log.handled == s.log.handled + [Entry(claimed, s.queue.pending[claimed])]
    requires t.queue.pending == s.queue.pending - {claimed}
    ensures RefinesKey(t, key)
  {
    OfOneMore(s.log.handled, Entry(claimed, s.queue.pending[claimed]), key);
    assert Future(t, key) == Future(s, key);
  }

  lemma OrderNext(s: System, a: Action, limit: nat)
    requires TokenInv(s) && WorkerInv(s) && WaiterInv(s) && OrderInv(s)
    ensures OrderInv(Next(s, a, limit))
  {
    var t := Next(s, a, limit);
    forall key ensures RefinesKey(t, key) {
      assert RefinesKey(s, key);
      RefinesNext(s, a, limit, key);
    }
  }

  /** Only enqueues and claims touch the pending reports and their history. */
  lemma QuietStep(s: System, a: Action, limit: nat)
    requires WorkerInv(s) && WaiterInv(s) && !a.DoEnqueue? && !a.DoClaim?
    ensures var t := Next(s, a, limit);
            && t.queue.pending == s.queue.pending && t.queue.memory == s.queue.memory
            && t.log.accepted == s.log.accepted && t.log.handled == s.log.handled
  {
    if Enabled(s, a) {
      match a
      case DoRecord(result, now) => RecordFrame(s, result, now);
      case DoFinish => FinishFrame(s);
      case DoShutdown => ShutdownFrame(s);
      case _ =>
    }
  }

  lemma RefinesAfterEnqueue(s: System, report: Report, receivedAt: int, limit: nat, key: string)
    requires RefinesKey(s, key)
    ensures RefinesKey(Enqueue(s, report, receivedAt, limit), key)
  {
    var t := Enqueue(s, report, receivedAt, limit);
    EnqueueFrame(s, report, receivedAt, limit);
    if t.log != s.log {
      RefinesAfterAccept(s, t, key, Entry(CoalesceKey(report), Queued(report, receivedAt)));
    }
  }

  lemma RefinesAfterWorkerClaims(s: System, key: string)
    requires TokenInv(s) && RefinesKey(s, key) && s.worker.Holding?
    ensures RefinesKey(WorkerClaims(s), key)
  {
    HeldKeyIsPending(s);
    ClaimFrame(s);
    RefinesAfterClaim(s, WorkerClaims(s), key, s.worker.key);
  }

  lemma RefinesNext(s: System, a: Action, limit: nat, key: string)
    requires TokenInv(s) && WorkerInv(s) && WaiterInv(s) && RefinesKey(s, key)
    ensures RefinesKey(Next(s, a, limit), key)
  {
    if a.DoEnqueue? {
      RefinesAfterEnqueue(s, a.report, a.receivedAt, limit, key);
    } else if a.DoClaim? {
      if s.worker.Holding? { RefinesAfterWorkerClaims(s, key); }
    } else {
      QuietStep(s, a, limit);
    }
  }

  // ---- The dedupe memory ----

  function Ids(entries: seq<Entry>): (r: seq<string>)
    ensures |r| == |entries|
  {
    seq(|entries|, i requires 0 <= i < |entries| => entries[i].queued.report.reportId)
  }

  /** The memory is the newest stretch of the accepted ids, and no id occurs twice within such a stretch. */
  ghost predicate MemoryInv(s: System) {
    && IsWindow(s.queue.memory.order, Ids(s.log.accepted), MAX_REMEMBERED_REPORT_IDS)
    && s.queue.memory.seen == Elements(s.queue.memory.order)
    && FarApart(Ids(s.log.accepted), MAX_REMEMBERED_REPORT_IDS)
  }

  /** The tail of `ids` of length at most `limit`. */
  ghost predicate IsWindow(order: seq<string>, ids: seq<string>, limit: nat) {
    && |order| == (if |ids| <= limit then |ids| else limit)
    && order == ids[|ids| - |order|..]
  }

  ghost predicate FarApart(ids: seq<string>, limit: nat) {
    forall i, j :: 0 <= i < j < |ids| && ids[i] == ids[j] ==> j - i > limit
  }

  lemma FreshIdIsFarApart(ids: seq<string>, order: seq<string>, id: string, limit: nat)
    requires IsWindow(order, ids, limit) && id !in order && FarApart(ids, limit)
    ensures FarApart(ids + [id], limit)
  {
  }

  lemma WindowIsDistinct(order: seq<string>, ids: seq<string>, limit: nat)
    requires IsWindow(order, ids, limit) && FarApart(ids, limit)
    ensures forall i, j :: 0 <= i < j < |order| ==> order[i] != order[j]
  {
  }

  lemma ForgetOldest(seen: set<string>, order: seq<string>)
    requires seen == Elements(order) && order != []
    requires forall i, j :: 0 <= i < j < |order| ==> order[i] != order[j]
    ensures seen - Elements(order[..1]) == Elements(order[1..])
  {
  }

  lemma RememberElements(memory: Memory, id: string, limit: nat)
    requires 0 < limit && |memory.order| <= limit && memory.seen == Elements(memory.order) && id !in memory.seen
    requires forall i, j :: 0 <= i < j < |memory.order| ==> memory.order[i] != memory.order[j]
    ensures var next := Remember(memory, id, limit); next.seen == Elements(next.order)
  {
    var extended := memory.order + [id];
    assert Elements(extended) == memory.seen + {id};
    if |extended| > limit {
      ForgetOldest(Elements(extended), extended);
    } else {
      assert Elements(extended[..0]) == {};
    }
  }

  lemma RememberWindow(ids: seq<string>, memory: Memory, id: string, limit: nat)
    requires limit > 0 && IsWindow(memory.order, ids, limit) && FarApart(ids, limit)
    requires memory.seen == Elements(memory.order) && id !in memory.seen
    ensures var next, all := Remember(memory, id, limit), ids + [id];
            IsWindow(next.order, all, limit) && next.seen == Elements(next.order) && FarApart(all, limit)
  {
    FreshIdIsFarApart(ids, memory.order, id, limit);
    WindowIsDistinct(memory.order, ids, limit);
    RememberElements(memory, id, limit);
  }

  lemma MemoryAfterEnqueue(s: System, a: Action, limit: nat)
    requires MemoryInv(s) && a.DoEnqueue?
    ensures MemoryInv(Next(s, a, limit))
  {
    var t := Next(s, a, limit);
    EnqueueFrame(s, a.report, a.receivedAt, limit);
    if t.log != s.log {
      RememberWindow(Ids(s.log.accepted), s.queue.memory, a.report.reportId, MAX_REMEMBERED_REPORT_IDS);
      assert Ids(t.log.accepted) == Ids(s.log.accepted) + [a.report.reportId];
    }
  }

  lemma {:induction false} MemoryNext(s: System, a: Action, limit: nat)
    requires TokenInv(s) && WorkerInv(s) && WaiterInv(s) && MemoryInv(s)
    ensures MemoryInv(Next(s, a, limit))
  {
    var t := Next(s, a, limit);
    if a.DoEnqueue? {
      MemoryAfterEnqueue(s, a, limit);
    } else if a.DoClaim? {
      if s.worker.Holding? {
        HeldKeyIsPending(s);
        ClaimFrame(s);
      }
    } else {
      QuietStep(s, a, limit);
    }
  }

  // ---- Runs ----

  ghost predicate Inv(s: System, limit: nat) {
    TokenInv(s) && WorkerInv(s) && WaiterInv(s) && CountInv(s, limit) && OrderInv(s) && MemoryInv(s)
  }

  lemma InitialInv(limit: nat)
    ensures Inv(INITIAL_SYSTEM, limit)
  {
  }

  lemma {:induction false} InvNext(s: System, a: Action, limit: nat)
    requires Inv(s, limit)
    ensures Inv(Next(s, a, limit), limit)
  {
    TokenNext(s, a, limit);
    WorkerNext(s, a, limit);
    WaiterNext(s, a, limit);
    CountNext(s, a, limit);
    OrderNext(s, a, limit);
    MemoryNext(s, a, limit);
  }

  lemma {:induction false} InvFrom(s: System, actions: seq<Action>, limit: nat)
    requires Inv(s, limit)
    ensures Inv(RunFrom(s, actions, limit), limit)
  {
    if actions == [] {
    } else {
      InvFrom(s, actions[..|actions| - 1], limit);
      InvNext(RunFrom(s, actions[..|actions| - 1], limit), actions[|actions| - 1], limit);
    }
  }

  lemma Reached(actions: seq<Action>, limit: nat) returns (s: System)
    ensures s == Run(actions, limit) && Inv(s, limit)
  {
    InitialInv(limit);
    InvFrom(INITIAL_SYSTEM, actions, limit);
    s := Run(actions, limit);
  }

  /**
   * Per key, what is handled is what was accepted with superseded reports left out, in arrival order: `at` are the
   * places of the handled reports among the accepted ones, each once and increasing;
   * whenever the queue is idle the last report handled is the last one accepted.
   */
  lemma HandledRefinesAccepted(actions: seq<Action>, limit: nat, key: string) returns (at: seq<nat>)
    ensures var s := Run(actions, limit);
            var handled, accepted := Of(s.log.handled, key), Of(s.log.accepted, key);
            && Embeds(at, handled, accepted)
            && (IsIdle(s.queue) && accepted != [] ==>
                  handled != [] && handled[|handled| - 1] == accepted[|accepted| - 1])
  {
    var s := Reached(actions, limit);
    assert RefinesKey(s, key);
    var future := Future(s, key);
    if key in s.queue.pending {
      assert future[..|future| - 1] == Of(s.log.handled, key);
      SubsequenceInit(future, Of(s.log.accepted, key));
    } else {
      assert future == Of(s.log.handled, key);
    }
    at := SubsequenceEmbeds(Of(s.log.handled, key), Of(s.log.accepted, key));
  }

  /** Pending keys and ready tokens are in one-to-one correspondence, so a claim never misses. */
  lemma TokensMatchPendingKeys(actions: seq<Action>, limit: nat)
    ensures var s := Run(actions, limit);
            && (forall key :: Tokens(s)[key] == if key in s.queue.pending then 1 else 0)
            && (s.worker.Holding? ==> TakeQueuedReport(s.queue, s.worker.key).0.Some?)
  {
    var s := Reached(actions, limit);
    if s.worker.Holding? { HeldKeyIsPending(s); }
  }

  /** Every accepted report is coalesced away, waiting, being processed, processed or failed; nothing exceeds the bound. */
  lemma Accounting(actions: seq<Action>, limit: nat)
    ensures var s := Run(actions, limit); var m := s.queue.metrics;
            && Depth(s.queue) <= limit && s.queue.active <= 1
            && (s.worker.Recorded? ==> s.queue.active > 0)
            && m.enqueued == |s.log.accepted| && m.failed == s.log.thrown + s.log.rejected
            && (IsIdle(s.queue) ==> m.enqueued == m.coalesced + m.processed + s.log.thrown)
  {
    var s := Reached(actions, limit);
  }

  /** The memory holds the newest 10,000 accepted ids, and equal ids are accepted more than 10,000 acceptances apart. */
  lemma DedupeMemoryIsSound(actions: seq<Action>, limit: nat)
    ensures var s := Run(actions, limit); var ids, memory := Ids(s.log.accepted), s.queue.memory;
            && |memory.order| <= MAX_REMEMBERED_REPORT_IDS && |memory.order| <= |ids|
            && memory.order == ids[|ids| - |memory.order|..]
            && memory.seen == Elements(memory.order)
            && (forall i, j :: 0 <= i < j < |ids| && ids[i] == ids[j] ==> j - i > MAX_REMEMBERED_REPORT_IDS)
            && (forall i, j :: 0 <= i < j < |memory.order| ==> memory.order[i] != memory.order[j])
  {
    var s := Reached(actions, limit);
    WindowIsDistinct(s.queue.memory.order, Ids(s.log.accepted), MAX_REMEMBERED_REPORT_IDS);
  }

  // ---- Drain ----

  /** At every moment a drain() call either waits or has resolved, and some wait only while the queue is busy. */
  lemma WaitersOnlyWhileBusy(actions: seq<Action>, limit: nat)
    ensures var s := Run(actions, limit);
            && (s.queue.waiters != [] ==> !IsIdle(s.queue))
            && (forall w: nat :: w < s.log.drainCalls <==> (w in s.queue.waiters || w in s.log.released))
            && (forall w :: w in s.queue.waiters ==> w !in s.log.released)
  {
    var s := Reached(actions, limit);
  }

  /** drain() resolves only when nothing is pending or active, and wakes everyone who waits. */
  lemma DrainResolvesOnlyWhenIdle(actions: seq<Action>, a: Action, limit: nat, waiter: nat)
    requires waiter !in Run(actions, limit).log.released && waiter in Run(actions + [a], limit).log.released
    ensures IsIdle(Run(actions + [a], limit).queue) && Run(actions + [a], limit).queue.waiters == []
  {
    var s := Reached(actions, limit);
    var t := Reached(actions + [a], limit);
    assert (actions + [a])[..|actions|] == actions;
    ReleasedStep(s, a, limit);
  }

  lemma {:induction false} ReleasedStepOfWorker(s: System, a: Action, limit: nat)
    requires IsWorkerStep(a) && Enabled(s, a)
    requires Inv(s, limit)
    ensures var t := Next(s, a, limit);
            !IsIdle(t.queue) ==> t.log.released == s.log.released && forall w :: w in s.queue.waiters ==> w in t.queue.waiters
  {
    match a
    case DoClaim =>
      HeldKeyIsPending(s);
      ClaimFrame(s);
    case DoRecord(result, now) => RecordFrame(s, result, now);
    case DoFinish => FinishFrame(s);
    case _ =>
  }

  lemma {:induction false} ReleasedStepElsewhere(s: System, a: Action, limit: nat)
    requires !IsWorkerStep(a) && Enabled(s, a)
    requires Inv(s, limit)
    ensures var t := Next(s, a, limit);
            !IsIdle(t.queue) ==> t.log.released == s.log.released && forall w :: w in s.queue.waiters ==> w in t.queue.waiters
  {
    match a
    case DoEnqueue(report, receivedAt) => EnqueueFrame(s, report, receivedAt, limit);
    case DoShutdown => ShutdownFrame(s);
    case _ =>
  }

  lemma {:induction false} ReleasedStep(s: System, a: Action, limit: nat)
    requires Inv(s, limit)
    ensures var t := Next(s, a, limit);
            !IsIdle(t.queue) ==> t.log.released == s.log.released && forall w :: w in s.queue.waiters ==> w in t.queue.waiters
  {
    if !Enabled(s, a) {
    } else if IsWorkerStep(a) {
      ReleasedStepOfWorker(s, a, limit);
    } else {
      ReleasedStepElsewhere(s, a, limit);
    }
  }

  lemma {:induction false} ShutdownStepOfWorker(s: System, a: Action, limit: nat)
    requires IsWorkerStep(a) && Enabled(s, a)
    requires Inv(s, limit) && s.queue.shuttingDown
    ensures var t := Next(s, a, limit);
            && t.queue.shuttingDown && t.log.finished + Depth(t.queue) == s.log.finished + Depth(s.queue)
            && s.log.finished <= t.log.finished
  {
    match a
    case DoClaim =>
      HeldKeyIsPending(s);
      ClaimFrame(s);
    case DoRecord(result, now) => RecordFrame(s, result, now);
    case DoFinish => FinishFrame(s);
    case _ =>
  }

  lemma {:induction false} ShutdownStepElsewhere(s: System, a: Action, limit: nat)
    requires !IsWorkerStep(a) && Enabled(s, a)
    requires Inv(s, limit) && s.queue.shuttingDown
    ensures var t := Next(s, a, limit);
            && t.queue.shuttingDown && t.log.finished + Depth(t.queue) == s.log.finished + Depth(s.queue)
            && s.log.finished <= t.log.finished
  {
    match a
    case DoEnqueue(report, receivedAt) => EnqueueFrame(s, report, receivedAt, limit);
    case DoShutdown => ShutdownFrame(s);
    case _ =>
  }

  lemma {:induction false} ShutdownStep(s: System, a: Action, limit: nat)
    requires Inv(s, limit) && s.queue.shuttingDown
    ensures var t := Next(s, a, limit);
            && t.queue.shuttingDown && t.log.finished + Depth(t.queue) == s.log.finished + Depth(s.queue)
            && s.log.finished <= t.log.finished
  {
    if !Enabled(s, a) {
    } else if IsWorkerStep(a) {
      ShutdownStepOfWorker(s, a, limit);
    } else {
      ShutdownStepElsewhere(s, a, limit);
    }
  }

  lemma {:induction false} CountdownFrom(s: System, actions: seq<Action>, limit: nat)
    requires Inv(s, limit) && s.queue.shuttingDown
    ensures var t := RunFrom(s, actions, limit);
            && t.queue.shuttingDown && t.log.finished + Depth(t.queue) == s.log.finished + Depth(s.queue)
            && s.log.finished <= t.log.finished
            && (Depth(t.queue) > 0 ==> forall w :: w in s.queue.waiters ==> w in t.queue.waiters)
  {
    if actions == [] {
    } else {
      var init, a := actions[..|actions| - 1], actions[|actions| - 1];
      CountdownFrom(s, init, limit);
      InvFrom(s, init, limit);
      var mid := RunFrom(s, init, limit);
      ShutdownStep(mid, a, limit);
      ReleasedStep(mid, a, limit);
    }
  }

  lemma {:induction false} RunFromSplit(s: System, first: seq<Action>, second: seq<Action>, limit: nat)
    ensures RunFrom(s, first + second, limit) == RunFrom(RunFrom(s, first, limit), second, limit)
  {
    if second == [] {
      assert first + second == first;
    } else {
      assert (first + second)[..|first + second| - 1] == first + second[..|second| - 1];
      RunFromSplit(s, first, second[..|second| - 1], limit);
    }
  }

  lemma DrainCalls(s: System, a: Action, limit: nat)
    requires Inv(s, limit)
    ensures s.log.drainCalls <= Next(s, a, limit).log.drainCalls
  {
  }

  lemma {:induction false} DrainCallsGrow(s: System, actions: seq<Action>, limit: nat)
    requires Inv(s, limit)
    ensures s.log.drainCalls <= RunFrom(s, actions, limit).log.drainCalls
  {
    if actions == [] {
    } else {
      var init := actions[..|actions| - 1];
      DrainCallsGrow(s, init, limit);
      InvFrom(s, init, limit);
      DrainCalls(RunFrom(s, init, limit), actions[|actions| - 1], limit);
    }
  }

  /** Once shutdown is flagged, a waiting drain() resolves after exactly `Depth` more completions, whatever arrives. */
  lemma ShutdownDrainCountsDown(before: seq<Action>, after: seq<Action>, limit: nat, waiter: nat)
    requires var s := Run(before, limit); s.queue.shuttingDown && waiter in s.queue.waiters
    ensures var s, t := Run(before, limit), Run(before + after, limit);
            waiter in t.log.released <==> t.log.finished - s.log.finished == Depth(s.queue)
  {
    var s := Reached(before, limit);
    RunFromSplit(INITIAL_SYSTEM, before, after, limit);
    CountdownFrom(s, after, limit);
    DrainCallsGrow(s, after, limit);
    InvFrom(s, after, limit);
  }

  // ---- Progress ----

  predicate OwnStep(a: Action) {
    a.DoOffer? || a.DoTake? || a.DoClaim? || a.DoRecord? || a.DoFinish? || a.DoNotify?
  }

  /** Steps the queue can still take on its own account. */
  function Remaining(s: System): nat {
    6 * |s.forked| + 5 * |s.work| +
    match s.worker
    case Taking => 0
    case Holding(_) => 4
    case Processing(_) => 3
    case Recorded(_) => 2
    case Notifying(_) => 1
    case Interrupted => 0
  }

  /** No report is stranded: unless the queue is idle one of its own steps is possible. */
  lemma NoReportIsStranded(actions: seq<Action>, limit: nat)
    ensures var s := Run(actions, limit); IsIdle(s.queue) || exists a :: OwnStep(a) && Enabled(s, a)
  {
    var s := Reached(actions, limit);
    if !IsIdle(s.queue) {
      var a: Action;
      match s.worker {
        case Holding(_) => a := DoClaim;
        case Processing(_) => a := DoRecord(Processed(None, None), 0);
        case Recorded(_) => a := DoFinish;
        case Notifying(_) => a := DoNotify;
        case Interrupted => assert false;
        case Taking =>
          var key :| key in s.queue.pending;
          assert Tokens(s)[key] == 1;
          a := if s.work != [] then DoTake else DoOffer(key);
      }
      assert OwnStep(a) && Enabled(s, a);
    }
  }

  /** Every own step uses up some of a finite supply. */
  lemma OwnStepsRunOut(s: System, a: Action, limit: nat)
    requires OwnStep(a) && Enabled(s, a)
    ensures Remaining(Next(s, a, limit)) < Remaining(s)
  {
  }

  ghost predicate IsOwnRun(s: System, steps: seq<Action>, limit: nat) {
    forall i :: 0 <= i < |steps| ==> OwnStep(steps[i]) && Enabled(RunFrom(s, steps[..i], limit), steps[i])
  }

  lemma {:induction false} OwnRunPrefix(s: System, steps: seq<Action>, limit: nat)
    requires IsOwnRun(s, steps, limit) && steps != []
    ensures var n := |steps| - 1;
            IsOwnRun(s, steps[..n], limit) && OwnStep(steps[n]) && Enabled(RunFrom(s, steps[..n], limit), steps[n])
  {
    var n := |steps| - 1;
    assert forall i :: 0 <= i < n ==> steps[..n][i] == steps[i] && steps[..n][..i] == steps[..i];
  }

  lemma {:induction false} OwnRunsAreBounded(s: System, steps: seq<Action>, limit: nat)
    requires IsOwnRun(s, steps, limit)
    ensures |steps| + Remaining(RunFrom(s, steps, limit)) <= Remaining(s)
  {
    if steps == [] {
    } else {
      var init := steps[..|steps| - 1];
      OwnRunPrefix(s, steps, limit);
      OwnRunsAreBounded(s, init, limit);
      OwnStepsRunOut(RunFrom(s, init, limit), steps[|steps| - 1], limit);
    }
  }

  /** Every maximal run of own steps is short and ends idle. */
  lemma {:induction false} OwnRunsEndIdle(actions: seq<Action>, steps: seq<Action>, limit: nat)
    requires IsOwnRun(Run(actions, limit), steps, limit)
    requires forall a :: OwnStep(a) ==> !Enabled(Run(actions + steps, limit), a)
    ensures |steps| <= Remaining(Run(actions, limit)) && IsIdle(Run(actions + steps, limit).queue)
  {
    OwnRunsAreBounded(Run(actions, limit), steps, limit);
    RunFromSplit(INITIAL_SYSTEM, actions, steps, limit);
    NoReportIsStranded(actions + steps, limit);
  }
}
