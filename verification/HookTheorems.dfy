/** At-least-once delivery and a transactional claim give every hook one row in the event log. */
module HookTheorems {
  import opened Wrappers
  import opened IngressStore
  import opened HookModel

  // ---- Invariants ----

  /** Nothing is published or accepted that is not in the log, and nothing is published twice. */
  ghost predicate RequestInv(s: State) {
    && IsConsistent(s.store)
    && (forall r :: 0 <= r < |s.requests| && (s.requests[r].phase.Committed? || s.requests[r].phase == Replied(true)) ==>
          IsClaimed(s.store, s.requests[r].hookId))
    && (forall r, q :: 0 <= r < q < |s.requests| && s.requests[r].phase.Committed? && s.requests[q].phase.Committed? ==>
          s.requests[r].hookId != s.requests[q].hookId)
    && (forall r :: 0 <= r < |s.requests| && s.requests[r].phase.Committed? ==> s.requests[r].hookId !in s.published)
    && (forall k :: 0 <= k < |s.published| ==> IsClaimed(s.store, s.published[k]))
    && (forall j, k :: 0 <= j < k < |s.published| ==> s.published[j] != s.published[k])
  }

  ghost predicate SenderOk(s: State, sender: Sender) {
    match sender.phase
    case Delivering(_, Some(r)) => r < |s.requests| && s.requests[r].hookId == sender.hookId
    case Writing(path) =>
      path in s.disk.owner && s.disk.owner[path] == sender.hookId && path !in s.disk.spooled && path in s.disk.files
    case Returned(DeliveredReceipt) => IsClaimed(s.store, sender.hookId)
    case Returned(SpooledReceipt(path)) =>
      path in s.disk.spooled && path in s.disk.owner && s.disk.owner[path] == sender.hookId
    case _ => true
  }

  ghost predicate SenderInv(s: State) {
    && s.disk.spooled <= s.disk.owner.Keys
    && (forall i :: 0 <= i < |s.senders| ==> SenderOk(s, s.senders[i]))
    && (forall i, j :: 0 <= i < j < |s.senders| && s.senders[i].phase.Writing? ==> s.senders[j].phase != s.senders[i].phase)
  }

  /** A drain works on records it has read, and unlinks only what is in the log. */
  ghost predicate DrainOk(s: State, drain: Drain) {
    drain.point.Looking? ||
    (&& drain.todo != [] && drain.todo[0] in s.disk.spooled && s.disk.spooled <= s.disk.owner.Keys
     && drain.point.record.hookId == s.disk.owner[drain.todo[0]]
     && (drain.point.Ingesting? ==>
           drain.point.request < |s.requests| && s.requests[drain.point.request].hookId == drain.point.record.hookId)
     && (drain.point.Unlinking? ==> IsClaimed(s.store, drain.point.record.hookId))
     && (drain.point.Rewriting? ==>
           IsClaimed(s.store, drain.point.record.hookId) ||
           (drain.todo[0] in s.disk.files && s.disk.files[drain.todo[0]].inode == drain.point.inode)))
  }

  ghost predicate DrainInv(s: State) {
    forall d :: 0 <= d < |s.drains| ==> DrainOk(s, s.drains[d])
  }

  ghost predicate BeingRewritten(drains: seq<Drain>, path: string) {
    exists d :: 0 <= d < |drains| && IsRewriting(drains[d], path)
  }

  predicate IsReadable(disk: Disk, path: string, hookId: string) {
    path in disk.files && disk.files[path].content.Some? && disk.files[path].content.value.hookId == hookId
  }

  /** Every spooled hook is in the log, or still in a file that is readable, being rewritten, or torn. */
  ghost predicate DiskInv(s: State) {
    && s.disk.spooled <= s.disk.owner.Keys
    && (forall path :: path in s.disk.files ==>
          path in s.disk.owner && s.disk.files[path].inode < s.disk.inodes &&
          (s.disk.files[path].content.Some? ==> path in s.disk.spooled && IsReadable(s.disk, path, s.disk.owner[path])))
    && (forall path :: path in s.disk.spooled ==> IsKept(s, path))
  }

  ghost predicate IsKept(s: State, path: string)
    requires path in s.disk.owner
  {
    IsClaimed(s.store, s.disk.owner[path]) ||
    (path in s.disk.files &&
     (IsReadable(s.disk, path, s.disk.owner[path]) || path in s.disk.torn || BeingRewritten(s.drains, path)))
  }

  ghost predicate Inv(s: State) {
    RequestInv(s) && SenderInv(s) && DrainInv(s) && DiskInv(s)
  }

  /** What most steps leave alone: claims only grow, requests keep their hooks. */
  ghost predicate Grows(s: State, t: State) {
    && (forall hookId :: IsClaimed(s.store, hookId) ==> IsClaimed(t.store, hookId))
    && |s.requests| <= |t.requests|
    && (forall r :: 0 <= r < |s.requests| ==> t.requests[r].hookId == s.requests[r].hookId)
  }

  // ---- Observer steps ----

  lemma IngestKeepsRequests(s: State, a: Action)
    requires RequestInv(s) && a.DoIngest? && Enabled(s, a)
    ensures RequestInv(Step(s, a)) && Grows(s, Step(s, a))
  {
    RecordHookKeepsTablesConsistent(s.store, s.requests[a.r].hookId, a.eventId, a.fault);
  }

  lemma PublishKeepsRequests(s: State, a: Action)
    requires RequestInv(s) && a.DoPublish? && Enabled(s, a)
    ensures RequestInv(Step(s, a)) && Grows(s, Step(s, a))
  {
  }

  lemma RecordOtherKeepsRequests(s: State, a: Action)
    requires RequestInv(s) && a.DoRecordOther?
    ensures RequestInv(Step(s, a)) && Grows(s, Step(s, a))
  {
    RecordOtherKeepsTablesConsistent(s.store, a.name, a.eventId);
  }

  /** Steps that change neither senders, drains nor the disk. */
  lemma GrowthKeepsTheRest(s: State, t: State)
    requires SenderInv(s) && DrainInv(s) && DiskInv(s) && Grows(s, t)
    requires t.senders == s.senders && t.drains == s.drains && t.disk == s.disk
    ensures SenderInv(t) && DrainInv(t) && DiskInv(t)
  {
  }

  // ---- Sender steps ----

  predicate IsSenders(a: Action) {
    a.DoSend? || a.DoRequest? || a.DoAnswered? || a.DoAttemptFails? || a.DoStartEnds? || a.DoSenderStops?
  }

  /** At most a new request: the store and what was published stay. */
  ghost predicate AsksAtMost(s: State, t: State) {
    && t.store == s.store && t.published == s.published
    && (t.requests == s.requests || exists hookId :: t.requests == s.requests + [Request(hookId, Arrived)])
  }

  lemma AskingKeepsRequests(s: State, t: State)
    requires RequestInv(s) && AsksAtMost(s, t)
    ensures RequestInv(t) && Grows(s, t)
  {
  }

  lemma SenderKeepsRequests(s: State, a: Action)
    requires RequestInv(s) && IsSenders(a) && Enabled(s, a)
    ensures RequestInv(Step(s, a)) && Grows(s, Step(s, a)) && Step(s, a).drains == s.drains && Step(s, a).disk == s.disk
  {
    if a.DoRequest? { assert Step(s, a).requests == s.requests + [Request(s.senders[a.i].hookId, Arrived)]; }
    AskingKeepsRequests(s, Step(s, a));
  }

  lemma RequestKeepsSenders(s: State, a: Action)
    requires SenderInv(s) && (a.DoSend? || a.DoRequest?) && Enabled(s, a)
    ensures SenderInv(Step(s, a))
  {
  }

  lemma SenderKeepsSenders(s: State, a: Action)
    requires RequestInv(s) && SenderInv(s) && IsSenders(a) && Enabled(s, a)
    ensures SenderInv(Step(s, a))
  {
    if a.DoSend? || a.DoRequest? { RequestKeepsSenders(s, a); }
  }

  lemma OpenKeepsAll(s: State, a: Action)
    requires Inv(s) && a.DoOpenSpoolFile? && Enabled(s, a)
    ensures Inv(Step(s, a))
  {
    var t := Step(s, a);
    forall i | 0 <= i < |t.senders| ensures SenderOk(t, t.senders[i]) { assert SenderOk(s, s.senders[i]); }
    forall d | 0 <= d < |t.drains| ensures DrainOk(t, t.drains[d]) { assert DrainOk(s, s.drains[d]); }
    forall path | path in t.disk.spooled ensures IsKept(t, path) { assert IsKept(s, path); }
  }

  lemma WriteKeepsAll(s: State, a: Action)
    requires Inv(s) && a.DoWriteSpoolFile? && Enabled(s, a)
    ensures Inv(Step(s, a))
  {
    var t := Step(s, a);
    assert SenderOk(s, s.senders[a.i]);
    forall i | 0 <= i < |t.senders| ensures SenderOk(t, t.senders[i]) { assert SenderOk(s, s.senders[i]); }
    forall d | 0 <= d < |t.drains| ensures DrainOk(t, t.drains[d]) { assert DrainOk(s, s.drains[d]); }
    forall path | path in t.disk.spooled ensures IsKept(t, path) {
      if path in s.disk.spooled { assert IsKept(s, path); }
    }
  }

  // ---- Drain steps ----

  predicate IsDrains(a: Action) {
    a.DoReadFile? || a.DoDrainAnswered? || a.DoUnlink? || a.DoTruncate? || a.DoRewrite? ||
    a.DoRetryUpdate? || a.DoAbandonDrain?
  }

  lemma DrainAsksAtMost(s: State, a: Action)
    requires IsDrains(a) && Enabled(s, a)
    ensures AsksAtMost(s, Step(s, a))
  {
  }

  lemma DrainKeepsRequests(s: State, a: Action)
    requires RequestInv(s) && IsDrains(a) && Enabled(s, a)
    ensures RequestInv(Step(s, a)) && Grows(s, Step(s, a)) && Step(s, a).store == s.store
  {
    DrainAsksAtMost(s, a);
    AskingKeepsRequests(s, Step(s, a));
  }

  /** A drain's step touches its own first path only. */
  ghost predicate Local(s: State, t: State, d: nat)
    requires d < |s.drains| && s.drains[d].todo != []
  {
    && t.senders == s.senders && |t.drains| == |s.drains|
    && (forall e :: 0 <= e < |s.drains| && e != d ==> t.drains[e] == s.drains[e])
    && t.disk.owner == s.disk.owner && t.disk.spooled == s.disk.spooled
    && s.disk.inodes <= t.disk.inodes && s.disk.torn <= t.disk.torn
    && (forall path :: path != s.drains[d].todo[0] ==>
          (path in t.disk.files <==> path in s.disk.files) &&
          (path in s.disk.files ==> t.disk.files[path] == s.disk.files[path]))
  }

  lemma DrainIsLocal(s: State, a: Action)
    requires IsDrains(a) && Enabled(s, a)
    ensures Local(s, Step(s, a), a.d)
  {
  }

  /** An unclaimed hook's file is neither removed nor replaced by another. */
  ghost predicate KeepsUnclaimed(s: State, t: State, path: string)
    requires path in s.disk.owner
  {
    !IsClaimed(s.store, s.disk.owner[path]) && path in s.disk.files ==>
      path in t.disk.files && t.disk.files[path].inode == s.disk.files[path].inode
  }

  /** Files of spooled paths are no sender's concern any more. */
  lemma DrainKeepsSenders(s: State, t: State, d: nat)
    requires SenderInv(s) && d < |s.drains| && s.drains[d].todo != []
    requires Grows(s, t) && Local(s, t, d)
    requires t.disk.files == s.disk.files || s.drains[d].todo[0] in s.disk.spooled
    ensures SenderInv(t)
  {
  }

  lemma DrainKeepsDrains(s: State, t: State, d: nat)
    requires DrainInv(s) && d < |s.drains| && s.drains[d].todo != [] && Grows(s, t) && Local(s, t, d)
    requires s.drains[d].todo[0] in s.disk.owner ==> KeepsUnclaimed(s, t, s.drains[d].todo[0])
    requires DrainOk(t, t.drains[d])
    ensures DrainInv(t)
  {
  }

  lemma DrainKeepsDisk(s: State, t: State, d: nat)
    requires DiskInv(s) && d < |s.drains| && s.drains[d].todo != [] && Grows(s, t) && Local(s, t, d)
    requires var path := s.drains[d].todo[0];
             && (path in t.disk.files ==>
                   path in t.disk.owner && t.disk.files[path].inode < t.disk.inodes &&
                   (t.disk.files[path].content.Some? ==> path in t.disk.spooled && IsReadable(t.disk, path, t.disk.owner[path])))
             && (path in s.disk.spooled ==> IsKept(t, path))
    ensures DiskInv(t)
  {
  }

  /** What a drain's step has to see to: its own path, and its own next point. */
  ghost predicate KeepsItsPath(s: State, t: State, d: nat)
    requires d < |s.drains| && s.drains[d].todo != [] && |t.drains| == |s.drains| && t.disk.owner == s.disk.owner
    requires s.disk.spooled <= s.disk.owner.Keys
  {
    var path := s.drains[d].todo[0];
    && (t.disk.files == s.disk.files || path in s.disk.spooled)
    && (path in s.disk.owner ==> KeepsUnclaimed(s, t, path))
    && DrainOk(t, t.drains[d])
    && (path in t.disk.files ==>
          path in t.disk.owner && t.disk.files[path].inode < t.disk.inodes &&
          (t.disk.files[path].content.Some? ==> path in t.disk.spooled && IsReadable(t.disk, path, t.disk.owner[path])))
    && (path in s.disk.spooled ==> IsKept(t, path))
  }

  lemma {:induction false} DrainKeepsAll(s: State, t: State, d: nat)
    requires Inv(s) && RequestInv(t) && Grows(s, t)
    requires d < |s.drains| && s.drains[d].todo != [] && Local(s, t, d) && KeepsItsPath(s, t, d)
    ensures Inv(t)
  {
    DrainKeepsSenders(s, t, d);
    DrainKeepsDrains(s, t, d);
    DrainKeepsDisk(s, t, d);
  }

  lemma ReadStep(s: State, a: Action)
    requires Inv(s) && a.DoReadFile? && Enabled(s, a)
    ensures Inv(Step(s, a))
  {
    var t := Step(s, a);
    DrainKeepsRequests(s, a);
    DrainIsLocal(s, a);
    KeptByOthers(s, t, a.d);
    DrainKeepsAll(s, t, a.d);
  }

  /** A step of a drain that is not rewriting leaves a file kept if it left it alone. */
  lemma KeptByOthers(s: State, t: State, d: nat)
    requires DiskInv(s) && d < |s.drains| && s.drains[d].todo != [] && Grows(s, t) && Local(s, t, d)
    requires !s.drains[d].point.Rewriting? && t.disk == s.disk
    ensures var path := s.drains[d].todo[0]; path in s.disk.spooled ==> IsKept(t, path)
  {
  }

  lemma AnsweredStep(s: State, a: Action)
    requires Inv(s) && a.DoDrainAnswered? && Enabled(s, a)
    ensures Inv(Step(s, a))
  {
    var t := Step(s, a);
    assert DrainOk(s, s.drains[a.d]);
    DrainKeepsRequests(s, a);
    DrainIsLocal(s, a);
    KeptByOthers(s, t, a.d);
    DrainKeepsAll(s, t, a.d);
  }

  lemma UnlinkStep(s: State, a: Action)
    requires Inv(s) && a.DoUnlink? && Enabled(s, a)
    ensures Inv(Step(s, a))
  {
    var t := Step(s, a);
    assert DrainOk(s, s.drains[a.d]);
    DrainKeepsRequests(s, a);
    DrainIsLocal(s, a);
    DrainKeepsAll(s, t, a.d);
  }

  lemma TruncateStep(s: State, a: Action)
    requires Inv(s) && a.DoTruncate? && Enabled(s, a)
    ensures Inv(Step(s, a))
  {
    var t := Step(s, a);
    assert DrainOk(s, s.drains[a.d]);
    var path := s.drains[a.d].todo[0];
    assert IsKept(s, path);
    DrainKeepsRequests(s, a);
    DrainIsLocal(s, a);
    assert IsRewriting(t.drains[a.d], path);
    DrainKeepsAll(s, t, a.d);
  }

  lemma RewriteStep(s: State, a: Action)
    requires Inv(s) && a.DoRewrite? && Enabled(s, a)
    ensures Inv(Step(s, a))
  {
    var t := Step(s, a);
    assert DrainOk(s, s.drains[a.d]);
    DrainKeepsRequests(s, a);
    DrainIsLocal(s, a);
    DrainKeepsAll(s, t, a.d);
  }

  /** A drain whose update fails leaves the file kept: by another drain's rewrite, or as torn. */
  lemma FailedUpdateKeepsFile(s: State, a: Action)
    requires DiskInv(s) && (a.DoRetryUpdate? || a.DoAbandonDrain?) && Enabled(s, a) && s.drains[a.d].todo[0] in s.disk.spooled
    ensures IsKept(Step(s, a), s.drains[a.d].todo[0])
  {
    var d := a.d;
    var path, t := s.drains[d].todo[0], Step(s, a);
    assert IsKept(s, path);
    if BeingRewritten(s.drains, path) && !s.drains[d].point.Rewriting? {
      var e :| 0 <= e < |s.drains| && IsRewriting(s.drains[e], path);
      assert IsRewriting(t.drains[e], path);
    }
  }

  lemma FailedUpdateKeepsItsPath(s: State, a: Action)
    requires DiskInv(s) && DrainInv(s) && (a.DoRetryUpdate? || a.DoAbandonDrain?) && Enabled(s, a)
    ensures Local(s, Step(s, a), a.d) && KeepsItsPath(s, Step(s, a), a.d)
  {
    assert DrainOk(s, s.drains[a.d]);
    DrainIsLocal(s, a);
    FailedUpdateKeepsFile(s, a);
  }

  lemma {:induction false} FailedUpdateStep(s: State, a: Action)
    requires Inv(s) && (a.DoRetryUpdate? || a.DoAbandonDrain?) && Enabled(s, a)
    ensures Inv(Step(s, a))
  {
    DrainKeepsRequests(s, a);
    FailedUpdateKeepsItsPath(s, a);
    DrainKeepsAll(s, Step(s, a), a.d);
  }

  lemma BeginDrainStep(s: State, a: Action)
    requires Inv(s) && a.DoDrain?
    ensures Inv(Next(s, a))
  {
    if Enabled(s, a) {
      var t := Step(s, a);
      forall i | 0 <= i < |t.senders| ensures SenderOk(t, t.senders[i]) { assert SenderOk(s, s.senders[i]); }
      forall d | 0 <= d < |t.drains| ensures DrainOk(t, t.drains[d]) {
        if d < |s.drains| { assert DrainOk(s, s.drains[d]); }
      }
      forall path | path in t.disk.spooled
        ensures IsKept(t, path)
      {
        assert IsKept(s, path);
        if BeingRewritten(s.drains, path) {
          var e :| 0 <= e < |s.drains| && IsRewriting(s.drains[e], path);
          assert IsRewriting(t.drains[e], path);
        }
      }
    }
  }

  lemma CrashStep(s: State)
    requires Inv(s)
    ensures Inv(Crash(s))
  {
    var t := Crash(s);
    forall i | 0 <= i < |t.senders| ensures SenderOk(t, t.senders[i]) { assert SenderOk(s, s.senders[i]); }
    forall path | path in t.disk.spooled
      ensures IsKept(t, path)
    {
      assert IsKept(s, path);
      if BeingRewritten(s.drains, path) {
        var e :| 0 <= e < |s.drains| && IsRewriting(s.drains[e], path);
        assert path in RewrittenPaths(s.drains);
      }
    }
  }

  lemma {:induction false} SenderStep(s: State, a: Action)
    requires Inv(s) && (IsSenders(a) || a.DoOpenSpoolFile? || a.DoWriteSpoolFile?) && Enabled(s, a)
    ensures Inv(Step(s, a))
  {
    if a.DoOpenSpoolFile? {
      OpenKeepsAll(s, a);
    } else if a.DoWriteSpoolFile? {
      WriteKeepsAll(s, a);
    } else {
      SenderKeepsRequests(s, a);
      SenderKeepsSenders(s, a);
      OthersKept(s, Step(s, a));
    }
  }

  lemma {:induction false} ObserverStep(s: State, a: Action)
    requires Inv(s) && (a.DoIngest? || a.DoPublish? || a.DoRecordOther?) && Enabled(s, a)
    ensures Inv(Step(s, a))
  {
    if a.DoIngest? {
      IngestKeepsRequests(s, a);
    } else if a.DoPublish? {
      PublishKeepsRequests(s, a);
    } else {
      RecordOtherKeepsRequests(s, a);
    }
    GrowthKeepsTheRest(s, Step(s, a));
  }

  lemma IngestingStep(s: State, a: Action)
    requires Inv(s) && (a.DoReadFile? || a.DoDrainAnswered? || a.DoUnlink?) && Enabled(s, a)
    ensures Inv(Step(s, a))
  {
    if a.DoReadFile? {
      ReadStep(s, a);
    } else if a.DoDrainAnswered? {
      AnsweredStep(s, a);
    } else {
      UnlinkStep(s, a);
    }
  }

  lemma RewritingStep(s: State, a: Action)
    requires Inv(s) && (a.DoTruncate? || a.DoRewrite? || a.DoRetryUpdate? || a.DoAbandonDrain?) && Enabled(s, a)
    ensures Inv(Step(s, a))
  {
    if a.DoTruncate? {
      TruncateStep(s, a);
    } else if a.DoRewrite? {
      RewriteStep(s, a);
    } else {
      FailedUpdateStep(s, a);
    }
  }

  lemma {:induction false} DrainStep(s: State, a: Action)
    requires Inv(s) && IsDrains(a) && Enabled(s, a)
    ensures Inv(Step(s, a))
  {
    if a.DoReadFile? || a.DoDrainAnswered? || a.DoUnlink? { IngestingStep(s, a); } else { RewritingStep(s, a); }
  }

  lemma {:induction false} InvNext(s: State, a: Action)
    requires Inv(s)
    ensures Inv(Next(s, a))
  {
    if !Enabled(s, a) {
    } else if IsDrains(a) {
      DrainStep(s, a);
    } else if a.DoIngest? || a.DoPublish? || a.DoRecordOther? {
      ObserverStep(s, a);
    } else if a.DoDrain? {
      BeginDrainStep(s, a);
    } else if a.DoCrash? {
      CrashStep(s);
    } else {
      SenderStep(s, a);
    }
  }

  lemma OthersKept(s: State, t: State)
    requires DrainInv(s) && DiskInv(s) && Grows(s, t) && t.drains == s.drains && t.disk == s.disk
    ensures DrainInv(t) && DiskInv(t)
  {
  }

  lemma {:induction false} RunInv(actions: seq<Action>)
    ensures Inv(RunFrom(INITIAL, actions))
  {
    if actions == [] {
    } else {
      RunInv(actions[..|actions| - 1]);
      InvNext(RunFrom(INITIAL, actions[..|actions| - 1]), actions[|actions| - 1]);
    }
  }

  lemma Reached(actions: seq<Action>) returns (s: State)
    ensures s == RunFrom(INITIAL, actions) && Inv(s)
  {
    RunInv(actions);
    s := RunFrom(INITIAL, actions);
  }

  // ---- Results ----

  /** However often a hook is delivered, drained and redelivered, and whatever crashes, it has at most one row. */
  lemma AtMostOneRow(actions: seq<Action>, hookId: string)
    ensures RowsFor(RunFrom(INITIAL, actions).store.events, hookId) <= 1
  {
    var s := Reached(actions);
  }

  /** A hook's event is published at most once, and only when its row is in the log. */
  lemma PublishedAtMostOnce(actions: seq<Action>, j: nat, k: nat)
    requires j < k < |RunFrom(INITIAL, actions).published|
    ensures var s := RunFrom(INITIAL, actions);
            s.published[j] != s.published[k] && RowsFor(s.store.events, s.published[k]) == 1
  {
    var s := Reached(actions);
  }

  /**
   * Once a sender has its receipt the hook is kept: it has its row, or the spool file it was promised is still
   * there, readable, or being rewritten by a drain, or cut short by a crash or write failure during a rewrite.
   */
  lemma ReceiptMeansKept(actions: seq<Action>, i: nat)
    requires var s := RunFrom(INITIAL, actions); i < |s.senders| && s.senders[i].phase.Returned?
    ensures var s := RunFrom(INITIAL, actions);
            var hookId, receipt := s.senders[i].hookId, s.senders[i].phase.receipt;
            || RowsFor(s.store.events, hookId) == 1
            || (&& receipt.SpooledReceipt? && receipt.path in s.disk.files
                && (|| IsReadable(s.disk, receipt.path, hookId)
                    || BeingRewritten(s.drains, receipt.path)
                    || receipt.path in s.disk.torn))
  {
    var s := Reached(actions);
    assert SenderOk(s, s.senders[i]);
    if s.senders[i].phase.receipt.SpooledReceipt? {
      assert IsKept(s, s.senders[i].phase.receipt.path);
    }
  }

  /** So when the spool has been drained empty, every hook with a receipt has exactly one row. */
  lemma DrainedSpoolMeansOneRowEach(actions: seq<Action>, i: nat)
    requires var s := RunFrom(INITIAL, actions);
             s.disk.files == map[] && i < |s.senders| && s.senders[i].phase.Returned?
    ensures var s := RunFrom(INITIAL, actions); RowsFor(s.store.events, s.senders[i].hookId) == 1
  {
    ReceiptMeansKept(actions, i);
  }

  // ---- Where the spool can lose an event ----

  /** A step that ends a rewrite of the file between emptying and writing it. */
  ghost predicate CutsRewrite(s: State, a: Action, path: string) {
    Enabled(s, a) &&
    match a
    case DoCrash => BeingRewritten(s.drains, path)
    case DoRetryUpdate(d) => IsRewriting(s.drains[d], path)
    case DoAbandonDrain(d) => IsRewriting(s.drains[d], path)
    case _ => false
  }

  lemma TornStep(s: State, a: Action, path: string)
    requires path !in s.disk.torn && path in Next(s, a).disk.torn
    ensures CutsRewrite(s, a, path)
  {
    if a.DoCrash? {
      var d :| 0 <= d < |s.drains| && s.drains[d].point.Rewriting? && s.drains[d].todo != [] && s.drains[d].todo[0] == path;
      assert IsRewriting(s.drains[d], path);
    }
  }

  lemma {:induction false} TornMeansCut(actions: seq<Action>, path: string) returns (k: nat)
    requires path in RunFrom(INITIAL, actions).disk.torn
    ensures k < |actions| && CutsRewrite(RunFrom(INITIAL, actions[..k]), actions[k], path)
  {
    var n := |actions| - 1;
    if path in RunFrom(INITIAL, actions[..n]).disk.torn {
      k := TornMeansCut(actions[..n], path);
      assert actions[..n][..k] == actions[..k];
    } else {
      TornStep(RunFrom(INITIAL, actions[..n]), actions[n], path);
      k := n;
    }
  }

  /** A hook with a receipt is lost in one way only: at some point of the run a rewrite of its file was cut short. */
  lemma {:induction false} LostOnlyIfARewriteWasCut(actions: seq<Action>, i: nat) returns (k: nat)
    requires var s := RunFrom(INITIAL, actions);
             && i < |s.senders| && s.senders[i].phase.Returned? && RowsFor(s.store.events, s.senders[i].hookId) == 0
             && (forall path :: path in s.disk.files ==>
                   !IsReadable(s.disk, path, s.senders[i].hookId) && !BeingRewritten(s.drains, path))
    ensures var s := RunFrom(INITIAL, actions);
            && s.senders[i].phase.receipt.SpooledReceipt? && k < |actions|
            && CutsRewrite(RunFrom(INITIAL, actions[..k]), actions[k], s.senders[i].phase.receipt.path)
  {
    ReceiptMeansKept(actions, i);
    k := TornMeansCut(actions, RunFrom(INITIAL, actions).senders[i].phase.receipt.path);
  }

  /** The file is unreadable and nobody is about to write it. */
  ghost predicate IsDead(s: State, path: string) {
    && path in s.disk.files && s.disk.files[path].content.None? && path in s.disk.owner
    && (forall d :: 0 <= d < |s.drains| ==> s.drains[d].point.Looking? || s.drains[d].todo == [] || s.drains[d].todo[0] != path)
    && (forall i :: 0 <= i < |s.senders| ==> s.senders[i].phase != Writing(path))
  }

  lemma {:induction false} DeadAfterDrains(s: State, a: Action, path: string)
    requires IsDead(s, path) && IsDrains(a) && Enabled(s, a)
    ensures IsDead(Step(s, a), path)
  {
    DrainIsLocal(s, a);
  }

  lemma {:induction false} DeadNext(s: State, a: Action, path: string)
    requires IsDead(s, path)
    ensures IsDead(Next(s, a), path)
  {
    if Enabled(s, a) && IsDrains(a) {
      DeadAfterDrains(s, a, path);
    }
  }

  lemma {:induction false} DeadFrom(s: State, actions: seq<Action>, path: string)
    requires IsDead(s, path)
    ensures IsDead(RunFrom(s, actions), path)
  {
    if actions == [] {
    } else {
      DeadFrom(s, actions[..|actions| - 1], path);
      DeadNext(RunFrom(s, actions[..|actions| - 1]), actions[|actions| - 1], path);
    }
  }

  /** No continuation ever makes the file readable again, so no drain ever delivers it. */
  ghost predicate IsLostFrom(s: State, path: string, hookId: string) {
    forall more :: !IsReadable(RunFrom(s, more).disk, path, hookId)
  }

  lemma {:induction false} DeadIsLost(s: State, path: string, hookId: string)
    requires IsDead(s, path)
    ensures IsLostFrom(s, path, hookId)
  {
    forall more ensures !IsReadable(RunFrom(s, more).disk, path, hookId) { DeadFrom(s, more, path); }
  }

  /** A spooled file without its hook in the log is there, and holds the hook's record or nothing. */
  lemma {:induction false} UnrecordedFileIsThere(s: State, path: string)
    requires Inv(s) && path in s.disk.spooled && !IsClaimed(s.store, s.disk.owner[path])
    ensures path in s.disk.files
    ensures IsReadable(s.disk, path, s.disk.owner[path]) <==> s.disk.files[path].content.Some?
    ensures forall i :: 0 <= i < |s.senders| ==> s.senders[i].phase != Writing(path)
  {
    assert IsKept(s, path);
    forall i | 0 <= i < |s.senders| ensures s.senders[i].phase != Writing(path) { assert SenderOk(s, s.senders[i]); }
  }

  /**
   * A crash loses a spooled hook that is not in the log if and only if it comes while the file is empty, between
   * being opened and being written by a rewrite.
   */
  lemma {:induction false} CrashLosesIff(actions: seq<Action>, path: string)
    requires var s := RunFrom(INITIAL, actions);
             path in s.disk.spooled && path in s.disk.owner && !IsClaimed(s.store, s.disk.owner[path])
    ensures var s := RunFrom(INITIAL, actions);
            path in s.disk.files &&
            (IsLostFrom(Crash(s), path, s.disk.owner[path]) <==> s.disk.files[path].content.None?)
  {
    var s := Reached(actions);
    UnrecordedFileIsThere(s, path);
    var hookId := s.disk.owner[path];
    if s.disk.files[path].content.None? {
      DeadIsLost(Crash(s), path, hookId);
    } else {
      assert RunFrom(Crash(s), []) == Crash(s);
    }
  }

  // ---- A drain at work on a file can still bring it back ----

  predicate IsAtWork(drain: Drain, path: string) {
    !drain.point.Looking? && drain.todo != [] && drain.todo[0] == path
  }

  ghost predicate WorksAlone(drains: seq<Drain>, d: nat, path: string) {
    forall e :: 0 <= e < |drains| && e != d ==> !IsAtWork(drains[e], path)
  }

  /** The ingest() call a drain waits for lives as long as the drain. */
  ghost predicate LiveInv(s: State) {
    forall d :: 0 <= d < |s.drains| && s.drains[d].point.Ingesting? ==>
      s.drains[d].point.request < |s.requests| && !s.requests[s.drains[d].point.request].phase.Lost?
  }

  lemma LiveAfterDrains(s: State, a: Action)
    requires LiveInv(s) && IsDrains(a)
    ensures LiveInv(Next(s, a))
  {
  }

  lemma LiveNext(s: State, a: Action)
    requires LiveInv(s)
    ensures LiveInv(Next(s, a))
  {
    if IsDrains(a) { LiveAfterDrains(s, a); }
  }

  lemma {:induction false} LiveFrom(actions: seq<Action>)
    ensures LiveInv(RunFrom(INITIAL, actions))
  {
    if actions == [] {
    } else {
      LiveFrom(actions[..|actions| - 1]);
      LiveNext(RunFrom(INITIAL, actions[..|actions| - 1]), actions[|actions| - 1]);
    }
  }

  lemma {:induction false} RunSplit(s: State, first: seq<Action>, second: seq<Action>)
    ensures RunFrom(s, first + second) == RunFrom(RunFrom(s, first), second)
  {
    if second == [] {
      assert first + second == first;
    } else {
      assert (first + second)[..|first + second| - 1] == first + second[..|second| - 1];
      RunSplit(s, first, second[..|second| - 1]);
    }
  }

  lemma {:induction false} RunOne(s: State, a: Action)
    ensures RunFrom(s, [a]) == Next(s, a)
  {
    assert [a][..0] == [];
  }

  ghost predicate CanBeRead(s: State, path: string, hookId: string) {
    exists more :: IsReadable(RunFrom(s, more).disk, path, hookId)
  }

  lemma {:induction false} ReadableAfter(s: State, a: Action, path: string, hookId: string)
    requires CanBeRead(Next(s, a), path, hookId)
    ensures CanBeRead(s, path, hookId)
  {
    var more :| IsReadable(RunFrom(Next(s, a), more).disk, path, hookId);
    RunSplit(s, [a], more);
    RunOne(s, a);
  }

  lemma {:induction false} RewritingRestores(s: State, e: nat, path: string)
    requires e < |s.drains| && IsRewriting(s.drains[e], path)
    requires path in s.disk.files && s.disk.files[path].inode == s.drains[e].point.inode
    ensures CanBeRead(s, path, s.drains[e].point.record.hookId)
  {
    var t := Next(s, DoRewrite(e));
    assert IsReadable(t.disk, path, s.drains[e].point.record.hookId) && RunFrom(t, []) == t;
    ReadableAfter(s, DoRewrite(e), path, s.drains[e].point.record.hookId);
  }

  lemma {:induction false} TruncatingRestores(s: State, e: nat, path: string)
    requires e < |s.drains| && IsAtWork(s.drains[e], path) && s.drains[e].point.Truncating? && path in s.disk.files
    ensures CanBeRead(s, path, s.drains[e].point.record.hookId)
  {
    RewritingRestores(Next(s, DoTruncate(e)), e, path);
    ReadableAfter(s, DoTruncate(e), path, s.drains[e].point.record.hookId);
  }

  lemma {:induction false} RejectionRestores(s: State, e: nat, path: string)
    requires e < |s.drains| && IsAtWork(s.drains[e], path) && s.drains[e].point.Ingesting? && path in s.disk.files
    requires s.drains[e].point.request < |s.requests| && s.requests[s.drains[e].point.request].phase == Replied(false)
    ensures CanBeRead(s, path, s.drains[e].point.record.hookId)
  {
    TruncatingRestores(Next(s, DoDrainAnswered(e)), e, path);
    ReadableAfter(s, DoDrainAnswered(e), path, s.drains[e].point.record.hookId);
  }

  lemma {:induction false} IngestingRestores(s: State, e: nat, path: string)
    requires e < |s.drains| && IsAtWork(s.drains[e], path) && s.drains[e].point.Ingesting? && path in s.disk.files
    requires s.drains[e].point.request < |s.requests| && s.requests[s.drains[e].point.request].phase.Arrived?
    ensures CanBeRead(s, path, s.drains[e].point.record.hookId)
  {
    var ingest := DoIngest(s.drains[e].point.request, "", AtBegin);
    RejectionRestores(Next(s, ingest), e, path);
    ReadableAfter(s, ingest, path, s.drains[e].point.record.hookId);
  }

  /** While the hook is not in the log, any drain at work on its file can write the file back. */
  lemma {:induction false} DrainAtWorkRestores(s: State, e: nat, path: string)
    requires Inv(s) && LiveInv(s) && e < |s.drains| && IsAtWork(s.drains[e], path)
    requires path in s.disk.owner && !IsClaimed(s.store, s.disk.owner[path]) && path in s.disk.files
    ensures CanBeRead(s, path, s.disk.owner[path])
  {
    var drain := s.drains[e];
    assert DrainOk(s, drain);
    if drain.point.Rewriting? {
      RewritingRestores(s, e, path);
    } else if drain.point.Truncating? {
      TruncatingRestores(s, e, path);
    } else if s.requests[drain.point.request].phase == Replied(false) {
      RejectionRestores(s, e, path);
    } else {
      IngestingRestores(s, e, path);
    }
  }

  /**
   * A drain that gives up loses a spooled hook that is not in the log if and only if it gives up while the file is
   * empty and no other drain is at work on it.
   */
  lemma {:induction false} AbandoningLosesIff(actions: seq<Action>, d: nat)
    requires var s := RunFrom(INITIAL, actions);
             && Enabled(s, DoAbandonDrain(d)) && s.drains[d].todo[0] in s.disk.owner
             && !IsClaimed(s.store, s.disk.owner[s.drains[d].todo[0]])
    ensures var s := RunFrom(INITIAL, actions);
            var path := s.drains[d].todo[0];
            path in s.disk.files &&
            (IsLostFrom(AbandonDrain(s, d), path, s.disk.owner[path]) <==>
               s.disk.files[path].content.None? && WorksAlone(s.drains, d, path))
  {
    var s := Reached(actions);
    LiveFrom(actions);
    var path := s.drains[d].todo[0];
    assert DrainOk(s, s.drains[d]);
    UnrecordedFileIsThere(s, path);
    var t := AbandonDrain(s, d);
    if s.disk.files[path].content.Some? {
      assert RunFrom(t, []) == t;
    } else if WorksAlone(s.drains, d, path) {
      assert IsDead(t, path);
      DeadIsLost(t, path, s.disk.owner[path]);
    } else {
      var e :| 0 <= e < |s.drains| && e != d && IsAtWork(s.drains[e], path);
      FailedUpdateStep(s, DoAbandonDrain(d));
      LiveNext(s, DoAbandonDrain(d));
      assert t.drains[e] == s.drains[e];
      DrainAtWorkRestores(t, e, path);
    }
  }

  /** A failed update that is tried again loses nothing: the drain itself can still write the file back. */
  lemma {:induction false} RetryLosesNothing(actions: seq<Action>, d: nat)
    requires var s := RunFrom(INITIAL, actions);
             && Enabled(s, DoRetryUpdate(d)) && s.drains[d].todo[0] in s.disk.owner
             && !IsClaimed(s.store, s.disk.owner[s.drains[d].todo[0]])
    ensures var s := RunFrom(INITIAL, actions);
            !IsLostFrom(RetryUpdate(s, d), s.drains[d].todo[0], s.disk.owner[s.drains[d].todo[0]])
  {
    var s := Reached(actions);
    LiveFrom(actions);
    assert DrainOk(s, s.drains[d]);
    UnrecordedFileIsThere(s, s.drains[d].todo[0]);
    FailedUpdateStep(s, DoRetryUpdate(d));
    LiveNext(s, DoRetryUpdate(d));
    DrainAtWorkRestores(RetryUpdate(s, d), d, s.drains[d].todo[0]);
  }

  lemma {:induction false} Grow(actions: seq<Action>, a: Action) returns (more: seq<Action>)
    ensures RunFrom(INITIAL, more) == Next(RunFrom(INITIAL, actions), a)
  {
    more := actions + [a];
    assert more[..|actions|] == actions;
  }

  lemma SpoolOne(hookId: string, path: string) returns (actions: seq<Action>)
    ensures var s := RunFrom(INITIAL, actions);
            && s.senders == [Sender(hookId, false, Returned(SpooledReceipt(path)))]
            && s.disk == Disk(map[path := File(0, Some(SpoolRecord(hookId, 0)))], 1, map[path := hookId], {path}, {})
            && s.store == EMPTY_TABLES && s.requests == [] && s.drains == []
  {
    actions := Grow([], DoSend(hookId, false));
    actions := Grow(actions, DoAttemptFails(0));
    actions := Grow(actions, DoOpenSpoolFile(0, path));
    actions := Grow(actions, DoWriteSpoolFile(0));
  }

  lemma RejectOne(hookId: string, path: string) returns (actions: seq<Action>)
    ensures var s := RunFrom(INITIAL, actions);
            && s.senders == [Sender(hookId, false, Returned(SpooledReceipt(path)))]
            && s.disk == Disk(map[path := File(0, Some(SpoolRecord(hookId, 0)))], 1, map[path := hookId], {path}, {})
            && s.store == EMPTY_TABLES && s.requests == [Request(hookId, Replied(false))]
            && s.drains == [Drain([path], Ingesting(SpoolRecord(hookId, 0), 0), 0, 0)]
  {
    actions := SpoolOne(hookId, path);
    actions := Grow(actions, DoDrain([path]));
    actions := Grow(actions, DoReadFile(0));
    actions := Grow(actions, DoIngest(0, "e", AtBegin));
  }

  lemma EmptyOne(hookId: string, path: string) returns (actions: seq<Action>)
    ensures var s := RunFrom(INITIAL, actions);
            && s.senders == [Sender(hookId, false, Returned(SpooledReceipt(path)))]
            && s.disk.files == map[path := File(0, None)] && path in s.disk.owner && s.store == EMPTY_TABLES
  {
    actions := RejectOne(hookId, path);
    actions := Grow(actions, DoDrainAnswered(0));
    actions := Grow(actions, DoTruncate(0));
  }

  /**
   * A spooled hook can be lost: a drain is turned down by a failing store, empties the file to count the attempt,
   * and the observer dies before writing it back. The sender holds a receipt, and no later drain ever reads the file.
   */
  lemma {:induction false} CrashDuringRewriteLosesAHook(hookId: string, path: string) returns (actions: seq<Action>)
    ensures var s := RunFrom(INITIAL, actions);
            && |s.senders| == 1 && s.senders[0].hookId == hookId && s.senders[0].phase.Returned?
            && RowsFor(s.store.events, hookId) == 0
            && forall more :: var t := RunFrom(s, more); path in t.disk.files && t.disk.files[path].content.None?
  {
    actions := EmptyOne(hookId, path);
    actions := Grow(actions, DoCrash);
    var s := RunFrom(INITIAL, actions);
    assert IsDead(s, path);
    forall more
      ensures path in RunFrom(s, more).disk.files && RunFrom(s, more).disk.files[path].content.None?
    {
      DeadFrom(s, more, path);
    }
  }
}
