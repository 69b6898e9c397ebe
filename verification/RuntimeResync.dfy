/**
 * The resync contract: epochs are never reused, and a live subscription is always synced,
 * owed a resync, or told to end.
 */
module RuntimeResync {
  import opened Wrappers
  import opened SnapshotReducer
  import opened RuntimeModel
  import opened RuntimeFrames
  import opened RuntimeInvariants

  predicate Waits(requests: seq<Request>, epoch: nat) {
    exists i :: 0 <= i < |requests| && requests[i].waiter == ResyncOf(epoch)
  }

  ghost predicate EpochsUpTo(requests: seq<Request>, limit: nat) {
    forall i :: 0 <= i < |requests| && requests[i].waiter.ResyncOf? ==> requests[i].waiter.epoch <= limit
  }

  ghost predicate LifeInv(life: Life) {
    life.active <==> life.started && !life.stopRequested
  }

  /** Where the loop is, which epoch is live and which iterator is held. */
  ghost predicate LoopInv(s: State) {
    && (s.sub.activeEpoch.Some? ==> s.sub.activeEpoch.value == s.sub.epoch > 0)
    && (s.sub.activeEpoch.Some? <==> s.sub.loop.Consuming?)
    && (s.sub.currentIterator.Some? ==> s.sub.currentIterator == s.sub.activeEpoch)
    && (s.life.active && s.sub.activeEpoch.Some? ==> s.sub.currentIterator.Some?)
    && LifeInv(s.life)
    && (s.life.started <==> !s.sub.loop.Unforked?)
    && (s.sub.loop.Unforked? ==> s.sub.epoch == 0)
    && (s.sub.loop.Ended? ==> s.sub.epoch > 0)
  }

  lemma LoopAfterFlight(s: State, result: LoadResult, now: int)
    requires LoopInv(s) && s.chain.flight.Some?
    ensures LoopInv(LandFlight(s, result, now))
  {
    FlightFrame(s, result, now);
    OutcomeFrame(s, s.chain.flight.value, OutcomeOf(result), now);
  }

  lemma LoopAfterClose(s: State, end: StreamEnd, now: int)
    requires LifeInv(s.life) && s.life.started && s.sub.epoch > 0
    ensures LoopInv(CloseCycle(s, end, now))
  {
  }

  lemma {:induction false} LoopNextInCycle(s: State, a: Action)
    requires IsCycleStep(a)
    requires LoopInv(s)
    ensures LoopInv(Next(s, a))
  {
    if Enabled(s, a) {
      match a
      case DoCloseCycle(end, now) => LoopAfterClose(s, end, now);
      case DoOpenCycleFails(error, now) => LoopAfterClose(s.(sub := BeginEpoch(s.sub)), Threw(error), now);
      case _ =>
    }
  }

  lemma {:induction false} LoopNextElsewhere(s: State, a: Action)
    requires !IsCycleStep(a)
    requires LoopInv(s)
    ensures LoopInv(Next(s, a))
  {
    if Enabled(s, a) {
      match a
      case DoLandFlight(result, now) => LoopAfterFlight(s, result, now);
      case DoDeliverEvent(event) => EventFrame(s, event);
      case DoRefresh => RequestFrame(s, Caller, RefreshCaller);
      case DoLandReconcile(i, result, now) => ReconcileFrame(s, i, result, now);
      case _ =>
    }
  }

  lemma {:induction false} LoopNext(s: State, a: Action)
    requires LoopInv(s)
    ensures LoopInv(Next(s, a))
  {
    if IsCycleStep(a) { LoopNextInCycle(s, a); } else { LoopNextElsewhere(s, a); }
  }

  /** Every remembered epoch has already been opened, so a later subscription cannot be mistaken for it. */
  ghost predicate EpochInv(s: State) {
    && ChainEpochs(s.chain, s.sub.epoch)
    && (forall i :: 0 <= i < |s.reconciles| && s.reconciles[i].at.epoch.Some? ==>
          s.reconciles[i].at.epoch.value <= s.sub.epoch)
  }

  ghost predicate ChainEpochs(c: Chain, limit: nat) {
    && EpochsUpTo(c.pending, limit)
    && (c.flight.Some? ==>
          && EpochsUpTo(c.flight.value.requests, limit)
          && (c.flight.value.at.epoch.Some? ==> c.flight.value.at.epoch.value <= limit))
  }

  // ---- A live subscription is never left unsynced ----

  ghost predicate OwedTo(c: Chain, epoch: nat) {
    || Waits(c.pending, epoch)
    || (c.flight.Some? && Waits(c.flight.value.requests, epoch))
  }

  ghost predicate FlightTagged(c: Chain, epoch: nat) {
    c.flight.Some? && Waits(c.flight.value.requests, epoch) ==> c.flight.value.at.epoch == Some(epoch)
  }

  lemma AskOwes(c: Chain, source: Source, waiter: Waiter, at: Moment, epoch: nat)
    requires ChainShape(c) && at.epoch == Some(epoch) && FlightTagged(c, epoch)
    ensures FlightTagged(Ask(c, source, waiter, at), epoch)
    ensures OwedTo(c, epoch) || waiter == ResyncOf(epoch) ==> OwedTo(Ask(c, source, waiter, at), epoch)
  {
    var requests := c.pending + [Request(source, waiter, c.log.begun)];
    if Waits(c.pending, epoch) {
      var i :| 0 <= i < |c.pending| && c.pending[i].waiter == ResyncOf(epoch);
      assert requests[i].waiter == ResyncOf(epoch);
    }
    if waiter == ResyncOf(epoch) {
      assert requests[|c.pending|].waiter == ResyncOf(epoch);
    }
  }

  lemma ContinueOwes(c: Chain, response: Option<Snapshot>, followUp: bool, at: Moment, epoch: nat)
    requires ChainShape(c) && c.flight.Some? && at.epoch == Some(epoch)
    ensures FlightTagged(Continue(c, c.flight.value, response, followUp, at), epoch)
    ensures Waits(c.pending, epoch) ==> OwedTo(Continue(c, c.flight.value, response, followUp, at), epoch)
  {
  }

  lemma {:induction false} WakeReaches(replies: map<nat, Outcome>, requests: seq<Request>, outcome: Outcome, epoch: nat)
    requires Waits(requests, epoch)
    ensures epoch in Wake(replies, requests, outcome) && Wake(replies, requests, outcome)[epoch] == outcome
  {
    var last := |requests| - 1;
    if requests[last].waiter != ResyncOf(epoch) {
      var i :| 0 <= i < |requests| && requests[i].waiter == ResyncOf(epoch);
      assert requests[..last][i].waiter == ResyncOf(epoch);
      WakeReaches(replies, requests[..last], outcome, epoch);
    }
  }

  lemma {:induction false} WakeKeeps(replies: map<nat, Outcome>, requests: seq<Request>, outcome: Outcome, epoch: nat)
    requires !Waits(requests, epoch)
    ensures epoch in Wake(replies, requests, outcome) <==> epoch in replies
    ensures epoch in replies ==> Wake(replies, requests, outcome)[epoch] == replies[epoch]
  {
    if requests == [] {
    } else {
      var last := |requests| - 1;
      assert requests[last].waiter != ResyncOf(epoch);
      assert forall i :: 0 <= i < last ==> requests[..last][i] == requests[i];
      WakeKeeps(replies, requests[..last], outcome, epoch);
    }
  }

  /** A load that spanned this epoch was applied, or this is the first epoch and the initial snapshot was trusted. */
  ghost predicate Synced(s: State, epoch: nat) {
    s.sub.resynced && (s.sub.proof == Some(epoch) || (epoch == 1 && s.log.trusted))
  }

  /** A resync of this epoch is pending, airborne or answered with a failure not yet handled. */
  ghost predicate ResyncOwed(s: State, epoch: nat) {
    OwedTo(s.chain, epoch) || (epoch in s.sub.replies && !s.sub.replies[epoch].Loaded?)
  }

  /** The cycle is marked faulty and its stream has been told to end. */
  ghost predicate Condemned(s: State, epoch: nat) {
    s.sub.cycleFault && epoch in s.sub.returned
  }

  ghost predicate ResyncInv(s: State) {
    && (s.sub.loop.Head? || s.sub.loop.Unforked? ==>
          if s.sub.epoch == 0 then s.sub.resynced == s.log.trusted else !s.sub.resynced)
    && (s.sub.activeEpoch.Some? ==>
          var epoch := s.sub.activeEpoch.value;
          && FlightTagged(s.chain, epoch)
          && (s.life.active && s.life.halted ==> epoch in s.sub.returned)
          && (s.life.active && !s.life.halted ==>
                Synced(s, epoch) || ResyncOwed(s, epoch) || Condemned(s, epoch)))
  }

  lemma AskEpochs(c: Chain, source: Source, waiter: Waiter, at: Moment, limit: nat)
    requires ChainEpochs(c, limit)
    requires waiter.ResyncOf? ==> waiter.epoch <= limit
    requires at.epoch.Some? ==> at.epoch.value <= limit
    ensures ChainEpochs(Ask(c, source, waiter, at), limit)
  {
  }

  lemma ContinueEpochs(c: Chain, response: Option<Snapshot>, followUp: bool, at: Moment, limit: nat)
    requires ChainEpochs(c, limit) && c.flight.Some?
    requires at.epoch.Some? ==> at.epoch.value <= limit
    ensures ChainEpochs(Continue(c, c.flight.value, response, followUp, at), limit)
  {
  }

  lemma EpochsAfterFlight(s: State, result: LoadResult, now: int)
    requires LoopInv(s) && EpochInv(s) && s.chain.flight.Some?
    ensures EpochInv(LandFlight(s, result, now))
  {
    var t := LandFlight(s, result, now);
    FlightFrame(s, result, now);
    OutcomeFrame(s, s.chain.flight.value, OutcomeOf(result), now);
    ContinueEpochs(s.chain, ResponseOf(OutcomeOf(result)), !t.life.stopRequested && !t.life.halted,
                   Moment(s.sub.activeEpoch, |s.log.delivered|, t.view.snapshot.Some?), s.sub.epoch);
  }

  lemma EpochsAfterEvent(s: State, event: Event)
    requires LoopInv(s) && EpochInv(s) && s.life.active
    ensures EpochInv(DeliverEvent(s, event))
  {
    EventFrame(s, event);
    AskEpochs(s.chain.(mutations := s.chain.mutations + 1), Managed, Nobody,
              Moment(s.sub.activeEpoch, |s.log.delivered| + 1, true), s.sub.epoch);
  }

  lemma EpochsAfterOpen(s: State)
    requires LoopInv(s) && EpochInv(s)
    ensures EpochInv(OpenCycle(s))
  {
    OpenFrame(s);
    var epoch := s.sub.epoch + 1;
    AskEpochs(s.chain, Managed, ResyncOf(epoch),
              Moment(Some(epoch), |s.log.delivered|, s.view.snapshot.Some?), epoch);
  }

  lemma {:induction false} EpochNextInCycle(s: State, a: Action)
    requires IsCycleStep(a)
    requires LoopInv(s) && EpochInv(s)
    ensures EpochInv(Next(s, a))
  {
    if Enabled(s, a) {
      match a
      case DoOpenCycle => EpochsAfterOpen(s);
      case DoOpenCycleFails(error, now) => CloseFrame(s.(sub := BeginEpoch(s.sub)), Threw(error), now);
      case DoCloseCycle(end, now) => CloseFrame(s, end, now);
      case _ =>
    }
  }

  lemma {:induction false} EpochNextElsewhere(s: State, a: Action)
    requires !IsCycleStep(a)
    requires LoopInv(s) && EpochInv(s)
    ensures EpochInv(Next(s, a))
  {
    if Enabled(s, a) {
      match a
      case DoLandFlight(result, now) => EpochsAfterFlight(s, result, now);
      case DoRefresh =>
        RequestFrame(s, Caller, RefreshCaller);
        AskEpochs(s.chain, Caller, RefreshCaller, Now(s), s.sub.epoch);
      case DoDeliverEvent(event) => EpochsAfterEvent(s, event);
      case DoLandReconcile(i, result, now) => ReconcileFrame(s, i, result, now);
      case _ =>
    }
  }

  lemma {:induction false} EpochNext(s: State, a: Action)
    requires LoopInv(s) && EpochInv(s)
    ensures EpochInv(Next(s, a))
  {
    if IsCycleStep(a) { EpochNextInCycle(s, a); } else { EpochNextElsewhere(s, a); }
  }

  // ---- ResyncInv, one transition at a time ----

  lemma ResyncAfterFlight(s: State, result: LoadResult, now: int)
    requires LoopInv(s) && ResyncInv(s) && ChainShape(s.chain) && s.chain.flight.Some?
    ensures ResyncInv(LandFlight(s, result, now))
  {
    var t := LandFlight(s, result, now);
    var flight, outcome := s.chain.flight.value, OutcomeOf(result);
    FlightFrame(s, result, now);
    OutcomeFrame(s, flight, outcome, now);
    if s.sub.activeEpoch.Some? {
      var epoch := s.sub.activeEpoch.value;
      ContinueOwes(s.chain, ResponseOf(outcome), !t.life.stopRequested && !t.life.halted,
                   Moment(s.sub.activeEpoch, |s.log.delivered|, t.view.snapshot.Some?), epoch);
      if Waits(flight.requests, epoch) {
        WakeReaches(s.sub.replies, flight.requests, outcome, epoch);
      } else {
        WakeKeeps(s.sub.replies, flight.requests, outcome, epoch);
      }
    }
  }

  lemma ResyncAfterAsk(s: State, t: State, source: Source, waiter: Waiter, at: Moment)
    requires LoopInv(s) && ResyncInv(s) && ChainShape(s.chain)
    requires t.sub == s.sub && t.life == s.life && t.log.trusted == s.log.trusted
    requires at.epoch == s.sub.activeEpoch
    requires t.chain == Ask(s.chain, source, waiter, at)
    ensures ResyncInv(t)
  {
    if s.sub.activeEpoch.Some? {
      AskOwes(s.chain, source, waiter, at, s.sub.activeEpoch.value);
    }
  }

  lemma ResyncAfterMutation(s: State, t: State)
    requires ResyncInv(s)
    requires t.sub == s.sub && t.life == s.life && t.log.trusted == s.log.trusted
    requires t.chain == s.chain.(mutations := t.chain.mutations)
    ensures ResyncInv(t)
  {
  }

  lemma ResyncAfterEvent(s: State, event: Event)
    requires LoopInv(s) && ResyncInv(s) && ChainShape(s.chain) && s.life.active
    ensures ResyncInv(DeliverEvent(s, event))
  {
    EventFrame(s, event);
    var t, bumped := DeliverEvent(s, event), s.chain.(mutations := s.chain.mutations + 1);
    if t.chain == s.chain || t.chain == bumped {
      ResyncAfterMutation(s, t);
    } else {
      ResyncAfterMutation(s, s.(chain := bumped));
      ResyncAfterAsk(s.(chain := bumped), t, Managed, Nobody, Moment(s.sub.activeEpoch, |t.log.delivered|, true));
    }
  }

  lemma FreshEpochIsUnheardOf(c: Chain, epoch: nat)
    requires ChainEpochs(c, epoch)
    ensures !OwedTo(c, epoch + 1)
  {
  }

  lemma ResyncAfterOpen(s: State)
    requires LoopInv(s) && EpochInv(s) && ResyncInv(s) && ChainShape(s.chain) && s.sub.loop.Head?
    requires s.life.active && !s.life.halted
    ensures ResyncInv(OpenCycle(s))
  {
    OpenFrame(s);
    var epoch := s.sub.epoch + 1;
    FreshEpochIsUnheardOf(s.chain, s.sub.epoch);
    AskOwes(s.chain, Managed, ResyncOf(epoch), Moment(Some(epoch), |s.log.delivered|, s.view.snapshot.Some?), epoch);
  }

  lemma ResyncAfterReconcile(s: State, i: nat, result: LoadResult, now: int)
    requires LoopInv(s) && ResyncInv(s) && i < |s.reconciles|
    ensures ResyncInv(LandReconcile(s, i, result, now))
  {
  }

  lemma {:induction false} ResyncNextInCycle(s: State, a: Action)
    requires IsCycleStep(a)
    requires ChainShape(s.chain) && LoopInv(s) && EpochInv(s) && ResyncInv(s)
    ensures ResyncInv(Next(s, a))
  {
    if Enabled(s, a) {
      match a
      case DoOpenCycle => ResyncAfterOpen(s);
      case DoOpenCycleFails(error, now) => CloseFrame(s.(sub := BeginEpoch(s.sub)), Threw(error), now);
      case DoCloseCycle(end, now) => CloseFrame(s, end, now);
      case _ =>
    }
  }

  lemma {:induction false} ResyncNextElsewhere(s: State, a: Action)
    requires !IsCycleStep(a)
    requires ChainShape(s.chain) && LoopInv(s) && EpochInv(s) && ResyncInv(s)
    ensures ResyncInv(Next(s, a))
  {
    if Enabled(s, a) {
      match a
      case DoLandFlight(result, now) => ResyncAfterFlight(s, result, now);
      case DoRefresh =>
        RequestFrame(s, Caller, RefreshCaller);
        ResyncAfterAsk(s, Next(s, a), Caller, RefreshCaller, Now(s));
      case DoDeliverEvent(event) => ResyncAfterEvent(s, event);
      case DoLandReconcile(i, result, now) => ResyncAfterReconcile(s, i, result, now);
      case _ =>
    }
  }

  lemma {:induction false} ResyncNext(s: State, a: Action)
    requires ChainShape(s.chain) && LoopInv(s) && EpochInv(s) && ResyncInv(s)
    ensures ResyncInv(Next(s, a))
  {
    if IsCycleStep(a) { ResyncNextInCycle(s, a); } else { ResyncNextElsewhere(s, a); }
  }
}
