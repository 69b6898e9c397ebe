/** Which events the shown snapshot accounts for. */
module RuntimeStream {
  import opened Wrappers
  import opened SnapshotReducer
  import opened RuntimeModel
  import opened RuntimeFrames
  import opened RuntimeInvariants

  /** The snapshot is the response it is based on, with every event delivered since then reduced on top. */
  ghost predicate BaseInv(s: State) {
    && (s.view.snapshot.Some? <==> s.log.base.Some?)
    && (s.log.base.Some? ==>
          var base := s.log.base.value;
          && base.asked.events <= base.applied <= |s.log.delivered|
          && s.view.snapshot.value == ApplyEvents(base.response, s.log.delivered[base.applied..]))
  }

  /** Loads on their way know how many events had been delivered when they were sent. */
  ghost predicate AirborneInv(s: State) {
    && (s.chain.flight.Some? ==>
          var flight := s.chain.flight.value;
          && flight.at.events <= |s.log.delivered|
          && (flight.at.hasSnapshot ==> s.view.snapshot.Some?)
          && (flight.at.hasSnapshot && s.chain.mutations == flight.mutationsAtStart ==>
                flight.at.events == |s.log.delivered|))
    && (forall i :: 0 <= i < |s.reconciles| ==> s.reconciles[i].at.events <= |s.log.delivered|)
  }

  /** The response of the last flight, when it is what the snapshot is based on, raced no event. */
  ghost predicate RestInv(s: State) {
    s.chain.flight.None? && !s.life.stopRequested && !s.life.halted
    && s.chain.log.last.Some? && s.chain.log.last.value.response.Some? ==>
      var at := s.chain.log.last.value.flight.at;
      && s.log.base.Some?
      && !s.log.base.value.origin.Initial?
      && (s.log.base.value.origin.ByFlight? ==>
            && s.log.base.value.asked == at
            && s.chain.log.last.value.response == Some(s.log.base.value.response)
            && (at.hasSnapshot ==> s.log.base.value.applied == at.events))
  }

  ghost predicate StreamInv(s: State) {
    BaseInv(s) && AirborneInv(s) && RestInv(s)
  }

  /** How landing a flight changes the snapshot's base. */
  lemma FlightBase(s: State, result: LoadResult, now: int)
    requires s.chain.flight.Some?
    ensures var t := LandFlight(s, result, now);
            if result.Snapshotted? && !s.life.stopRequested then
              && t.log.base == Some(Base(ByFlight, result.snapshot, s.chain.flight.value.at, |s.log.delivered|))
              && t.view.snapshot == Some(result.snapshot)
              && t.life == s.life
            else
              t.log.base == s.log.base && t.view.snapshot == s.view.snapshot
  {
  }

  lemma {:induction false} StreamAfterFlight(s: State, result: LoadResult, now: int)
    requires ChainInv(s.chain) && StreamInv(s) && s.chain.flight.Some?
    ensures StreamInv(LandFlight(s, result, now))
  {
    FlightFrame(s, result, now);
    FlightBase(s, result, now);
    assert s.log.delivered[|s.log.delivered|..] == [];
  }

  lemma StreamAfterEvent(s: State, event: Event)
    requires ChainInv(s.chain) && StreamInv(s) && !s.life.stopRequested
    ensures StreamInv(DeliverEvent(s, event))
  {
    EventFrame(s, event);
    if s.log.base.Some? {
      var base := s.log.base.value;
      var since := s.log.delivered[base.applied..];
      assert (s.log.delivered + [event])[base.applied..] == since + [event];
      ApplyEventsOne(base.response, since, event);
    }
  }

  lemma ReconcileBase(s: State, i: nat, result: LoadResult, now: int)
    requires i < |s.reconciles|
    ensures var t := LandReconcile(s, i, result, now);
            if result.Snapshotted? && !s.life.stopRequested then
              && t.log.base == Some(Base(ByReconcile, result.snapshot, s.reconciles[i].at, |s.log.delivered|))
              && t.view.snapshot == Some(result.snapshot)
            else
              t.log.base == s.log.base && t.view.snapshot == s.view.snapshot
  {
  }

  lemma StreamAfterReconcile(s: State, i: nat, result: LoadResult, now: int)
    requires ChainInv(s.chain) && StreamInv(s) && i < |s.reconciles|
    ensures StreamInv(LandReconcile(s, i, result, now))
  {
    ReconcileFrame(s, i, result, now);
    ReconcileBase(s, i, result, now);
    assert s.log.delivered[|s.log.delivered|..] == [];
  }

  lemma StreamAfterAsk(s: State, t: State, source: Source, waiter: Waiter, at: Moment)
    requires ChainInv(s.chain) && StreamInv(s)
    requires t.view.snapshot == s.view.snapshot && t.log == s.log && t.life == s.life && t.reconciles == s.reconciles
    requires at.events == |s.log.delivered| && at.hasSnapshot == s.view.snapshot.Some?
    requires t.chain == Ask(s.chain, source, waiter, at)
    ensures StreamInv(t)
  {
  }

  lemma StreamAfterOpen(s: State)
    requires ChainInv(s.chain) && StreamInv(s)
    ensures StreamInv(OpenCycle(s))
  {
    OpenFrame(s);
    if !s.sub.resynced {
      StreamAfterAsk(s, OpenCycle(s), Managed, ResyncOf(s.sub.epoch + 1),
                     Moment(Some(s.sub.epoch + 1), |s.log.delivered|, s.view.snapshot.Some?));
    }
  }

  lemma {:induction false} StreamAfterClose(s: State, a: Action)
    requires StreamInv(s) && Enabled(s, a) && (a.DoOpenCycleFails? || a.DoCloseCycle?)
    ensures StreamInv(Step(s, a))
  {
    if a.DoOpenCycleFails? {
      CloseFrame(s.(sub := BeginEpoch(s.sub)), Threw(a.error), a.now);
    } else {
      CloseFrame(s, a.end, a.now);
    }
  }

  lemma StreamAfterRefresh(s: State)
    requires ChainInv(s.chain) && StreamInv(s) && Enabled(s, DoRefresh)
    ensures StreamInv(Step(s, DoRefresh))
  {
    RequestFrame(s, Caller, RefreshCaller);
    StreamAfterAsk(s, Step(s, DoRefresh), Caller, RefreshCaller, Now(s));
  }

  lemma {:induction false} StreamNextInCycle(s: State, a: Action)
    requires IsCycleStep(a)
    requires ChainInv(s.chain) && StreamInv(s)
    requires s.life.active ==> !s.life.stopRequested
    ensures StreamInv(Next(s, a))
  {
    if Enabled(s, a) {
      match a
      case DoOpenCycle => StreamAfterOpen(s);
      case DoOpenCycleFails(_, _) => StreamAfterClose(s, a);
      case DoCloseCycle(_, _) => StreamAfterClose(s, a);
      case _ =>
    }
  }

  lemma {:induction false} StreamNextElsewhere(s: State, a: Action)
    requires !IsCycleStep(a)
    requires ChainInv(s.chain) && StreamInv(s)
    requires s.life.active ==> !s.life.stopRequested
    ensures StreamInv(Next(s, a))
  {
    if Enabled(s, a) {
      match a
      case DoLandFlight(result, now) => StreamAfterFlight(s, result, now);
      case DoRefresh => StreamAfterRefresh(s);
      case DoDeliverEvent(event) => StreamAfterEvent(s, event);
      case DoLandReconcile(i, result, now) => StreamAfterReconcile(s, i, result, now);
      case _ =>
    }
  }

  lemma {:induction false} StreamNext(s: State, a: Action)
    requires ChainInv(s.chain) && StreamInv(s)
    requires s.life.active ==> !s.life.stopRequested
    ensures StreamInv(Next(s, a))
  {
    if IsCycleStep(a) { StreamNextInCycle(s, a); } else { StreamNextElsewhere(s, a); }
  }
}
