/** What becomes of a recorded hook: it is published, unless the observer dies first, and its claim names its row. */
module HookPublishing {
  import opened Wrappers
  import opened IngressStore
  import opened HookModel
  import opened HookTheorems

  /** Some request has recorded the hook and is about to publish it. */
  ghost predicate IsCommitted(s: State, hookId: string) {
    exists r :: 0 <= r < |s.requests| && s.requests[r] == Request(hookId, Committed)
  }

  /** At some crash of the run the hook was recorded and about to be published. */
  ghost predicate CrashCaught(actions: seq<Action>, hookId: string) {
    actions != [] &&
    var init, last := actions[..|actions| - 1], actions[|actions| - 1];
    CrashCaught(init, hookId) || (last.DoCrash? && IsCommitted(RunFrom(INITIAL, init), hookId))
  }

  ghost predicate GoesOut(s: State, hookId: string, caught: bool) {
    IsClaimed(s.store, hookId) ==> hookId in s.published || IsCommitted(s, hookId) || caught
  }

  lemma GoesOutAfterIngest(s: State, a: Action, hookId: string, caught: bool)
    requires a.DoIngest? && Enabled(s, a) && GoesOut(s, hookId, caught)
    ensures GoesOut(Step(s, a), hookId, caught)
  {
    var t := Step(s, a);
    if IsCommitted(s, hookId) {
      var r :| 0 <= r < |s.requests| && s.requests[r] == Request(hookId, Committed);
      assert t.requests[r] == s.requests[r];
    }
    if IsClaimed(t.store, hookId) && !IsClaimed(s.store, hookId) {
      assert t.requests[a.r] == Request(hookId, Committed);
    }
  }

  lemma GoesOutAfterPublish(s: State, a: Action, hookId: string, caught: bool)
    requires a.DoPublish? && Enabled(s, a) && GoesOut(s, hookId, caught)
    ensures GoesOut(Step(s, a), hookId, caught)
  {
    var t := Step(s, a);
    assert t.published[|s.published|] == s.requests[a.r].hookId;
    if IsCommitted(s, hookId) && hookId != s.requests[a.r].hookId {
      var r :| 0 <= r < |s.requests| && s.requests[r] == Request(hookId, Committed);
      assert t.requests[r] == s.requests[r];
    }
  }

  /** Every other step but a crash keeps requests as they are, and claims no hook. */
  ghost predicate KeepsRequests(s: State, t: State) {
    && t.published == s.published && |s.requests| <= |t.requests|
    && (forall r :: 0 <= r < |s.requests| ==> t.requests[r] == s.requests[r])
    && (forall hookId :: IsClaimed(t.store, hookId) <==> IsClaimed(s.store, hookId))
    && (forall r :: |s.requests| <= r < |t.requests| ==> t.requests[r].phase.Arrived?)
  }

  lemma OthersKeepRequests(s: State, a: Action)
    requires Enabled(s, a) && !a.DoIngest? && !a.DoPublish? && !a.DoCrash?
    ensures KeepsRequests(s, Step(s, a))
  {
    if IsDrains(a) { DrainAsksAtMost(s, a); }
  }

  lemma {:induction false} GoesOutNext(s: State, a: Action, hookId: string, caught: bool)
    requires GoesOut(s, hookId, caught)
    ensures GoesOut(Next(s, a), hookId, caught || (a.DoCrash? && IsCommitted(s, hookId)))
  {
    if !Enabled(s, a) || a.DoCrash? {
    } else if a.DoIngest? {
      GoesOutAfterIngest(s, a, hookId, caught);
    } else if a.DoPublish? {
      GoesOutAfterPublish(s, a, hookId, caught);
    } else {
      OthersKeepRequests(s, a);
      if IsCommitted(s, hookId) {
        var r :| 0 <= r < |s.requests| && s.requests[r] == Request(hookId, Committed);
        assert Step(s, a).requests[r] == s.requests[r];
      }
    }
  }

  lemma {:induction false} GoesOutFrom(actions: seq<Action>, hookId: string)
    ensures GoesOut(RunFrom(INITIAL, actions), hookId, CrashCaught(actions, hookId))
  {
    if actions == [] {
    } else {
      var init, a := actions[..|actions| - 1], actions[|actions| - 1];
      GoesOutFrom(init, hookId);
      GoesOutNext(RunFrom(INITIAL, init), a, hookId, CrashCaught(init, hookId));
    }
  }

  /** In every run a hook with a row has been published, is about to be, or was caught by a crash in between. */
  lemma {:induction false} RecordedIsPublished(actions: seq<Action>, hookId: string)
    requires RowsFor(RunFrom(INITIAL, actions).store.events, hookId) > 0
    ensures hookId in RunFrom(INITIAL, actions).published || IsCommitted(RunFrom(INITIAL, actions), hookId)
            || CrashCaught(actions, hookId)
  {
    var s := Reached(actions);
    GoesOutFrom(actions, hookId);
  }

  lemma {:induction false} PublishedOnce(published: seq<string>, hookId: string)
    requires forall j, k :: 0 <= j < k < |published| ==> published[j] != published[k]
    ensures multiset(published)[hookId] == if hookId in published then 1 else 0
  {
    if published == [] {
    } else {
      var n := |published| - 1;
      PublishedOnce(published[..n], hookId);
      assert published == published[..n] + [published[n]];
    }
  }

  /** A hook that was answered as accepted is published exactly once, if no crash caught it and no request still has it. */
  lemma {:induction false} AcceptedIsPublishedOnce(actions: seq<Action>, r: nat)
    requires var s := RunFrom(INITIAL, actions);
             && r < |s.requests| && s.requests[r].phase == Replied(true)
             && !IsCommitted(s, s.requests[r].hookId) && !CrashCaught(actions, s.requests[r].hookId)
    ensures var s := RunFrom(INITIAL, actions); multiset(s.published)[s.requests[r].hookId] == 1
  {
    var s := Reached(actions);
    GoesOutFrom(actions, s.requests[r].hookId);
    PublishedOnce(s.published, s.requests[r].hookId);
  }

  // ---- When a publish is lost ----

  /** Recorded, not published, and nobody about to publish it. */
  ghost predicate IsSilent(s: State, hookId: string) {
    IsClaimed(s.store, hookId) && hookId !in s.published && !IsCommitted(s, hookId)
  }

  lemma {:induction false} SilentNext(s: State, a: Action, hookId: string)
    requires IsSilent(s, hookId)
    ensures IsSilent(Next(s, a), hookId)
  {
    if Enabled(s, a) && !a.DoIngest? && !a.DoPublish? && !a.DoCrash? { OthersKeepRequests(s, a); }
  }

  lemma {:induction false} SilentFrom(s: State, more: seq<Action>, hookId: string)
    requires IsSilent(s, hookId)
    ensures IsSilent(RunFrom(s, more), hookId)
  {
    if more == [] {
    } else {
      SilentFrom(s, more[..|more| - 1], hookId);
      SilentNext(RunFrom(s, more[..|more| - 1]), more[|more| - 1], hookId);
    }
  }

  /** A recorded hook not published yet never will be, whatever happens later, if and only if no request is about to. */
  lemma {:induction false} PublishIsLostIff(s: State, hookId: string)
    requires IsClaimed(s.store, hookId) && hookId !in s.published
    ensures (forall more :: hookId !in RunFrom(s, more).published) <==> !IsCommitted(s, hookId)
  {
    if IsCommitted(s, hookId) {
      var r :| 0 <= r < |s.requests| && s.requests[r] == Request(hookId, Committed);
      RunOne(s, DoPublish(r));
      assert RunFrom(s, [DoPublish(r)]).published[|s.published|] == hookId;
    } else {
      forall more ensures hookId !in RunFrom(s, more).published { SilentFrom(s, more, hookId); }
    }
  }

  /** So a crash that catches a hook between its row and its publish loses the publish for good. */
  lemma {:induction false} CrashLosesPublish(actions: seq<Action>, hookId: string)
    requires IsCommitted(RunFrom(INITIAL, actions), hookId)
    ensures forall more :: hookId !in RunFrom(Crash(RunFrom(INITIAL, actions)), more).published
  {
    var s := Reached(actions);
    assert IsSilent(Crash(s), hookId);
    PublishIsLostIff(Crash(s), hookId);
  }

  // ---- Claims and rows ----

  /** The id noted with a claim is that of the hook's row. */
  ghost predicate NamesItsRow(t: Tables, hookId: string) {
    IsClaimed(t, hookId) ==>
      EventRow(t.dedupe[DedupeKey(HookKey, hookId)], HookIngested(hookId)) in t.events
  }

  lemma RecordingNamesItsRow(t: Tables, recorded: string, eventId: string, fault: Fault, hookId: string)
    requires NamesItsRow(t, hookId)
    ensures NamesItsRow(RecordHook(t, recorded, eventId, fault).1, hookId)
  {
  }

  lemma {:induction false} RowNext(s: State, a: Action, hookId: string)
    requires NamesItsRow(s.store, hookId)
    ensures NamesItsRow(Next(s, a).store, hookId)
  {
    if Enabled(s, a) {
      if a.DoIngest? {
        RecordingNamesItsRow(s.store, s.requests[a.r].hookId, a.eventId, a.fault, hookId);
      }
    }
  }

  /** In every run the claim of a hook is filed under the hook's id with the id of its row. */
  lemma {:induction false} ClaimsNameTheirRows(actions: seq<Action>, hookId: string)
    ensures NamesItsRow(RunFrom(INITIAL, actions).store, hookId)
  {
    if actions == [] {
    } else {
      ClaimsNameTheirRows(actions[..|actions| - 1], hookId);
      RowNext(RunFrom(INITIAL, actions[..|actions| - 1]), actions[|actions| - 1], hookId);
    }
  }

  // ---- Senders ----

  /** A failed first attempt starts the observer if that was asked for; any other failure leads to the spool. */
  lemma FailedAttemptGoesOn(s: State, i: nat)
    requires i < |s.senders| && s.senders[i].phase.Delivering?
    ensures var phase := Next(s, DoAttemptFails(i)).senders[i].phase;
            if s.senders[i].autoStart && s.senders[i].phase.attempt == 1 then phase.Starting? else phase.Spooling?
    ensures Enabled(s, DoAnswered(i)) ==>
              Next(s, DoAnswered(i)).senders[i].phase ==
              if s.requests[s.senders[i].phase.request.value].phase.accepted then Returned(DeliveredReceipt)
              else Next(s, DoAttemptFails(i)).senders[i].phase
  {
  }

  /** A started observer is delivered to once more, and one that does not start leads to the spool. */
  lemma StartGoesOn(s: State, i: nat, ok: bool)
    requires i < |s.senders| && s.senders[i].phase.Starting?
    ensures Next(s, DoStartEnds(i, ok)).senders[i].phase == if ok then Delivering(2, None) else Spooling
  {
  }

  predicate IsObedient(sender: Sender) {
    && (sender.phase.Starting? ==> sender.autoStart)
    && (sender.phase.Delivering? ==> sender.phase.attempt == 1 || (sender.phase.attempt == 2 && sender.autoStart))
  }

  ghost predicate ObedientInv(s: State) {
    forall i :: 0 <= i < |s.senders| ==> IsObedient(s.senders[i])
  }

  lemma ObedientNext(s: State, a: Action)
    requires ObedientInv(s)
    ensures ObedientInv(Next(s, a))
  {
    if Enabled(s, a) && IsDrains(a) { DrainIsLocal(s, a); }
  }

  lemma {:induction false} ObedientFrom(actions: seq<Action>)
    ensures ObedientInv(RunFrom(INITIAL, actions))
  {
    if actions == [] {
    } else {
      ObedientFrom(actions[..|actions| - 1]);
      ObedientNext(RunFrom(INITIAL, actions[..|actions| - 1]), actions[|actions| - 1]);
    }
  }

  /** In every run the observer is started, and a second delivery made, only for senders that asked for it. */
  lemma {:induction false} StartsOnlyIfAsked(actions: seq<Action>, i: nat)
    requires i < |RunFrom(INITIAL, actions).senders|
    ensures IsObedient(RunFrom(INITIAL, actions).senders[i])
  {
    ObedientFrom(actions);
  }

  // ---- Retries of an update ----

  predicate MayRetry(drain: Drain) {
    IsUpdating(drain) && drain.point.retry
  }

  /** A failed update is tried again only once, and only after a rejection: the retry takes the permission away. */
  lemma RetryComesFromARejection(s: State, a: Action, d: nat)
    requires Enabled(s, a) && d < |s.drains| && d < |Step(s, a).drains| && MayRetry(Step(s, a).drains[d])
    ensures || (MayRetry(s.drains[d]) && a != DoRetryUpdate(d))
            || (a == DoDrainAnswered(d) && s.requests[s.drains[d].point.request].phase == Replied(false))
  {
  }
}
