/** What each compound transition of the client runtime leaves alone. */
module RuntimeFrames {
  import opened Wrappers
  import opened SnapshotReducer
  import opened RuntimeModel

  lemma OutcomeFrame(s: State, flight: Flight, outcome: Outcome, now: int)
    ensures var t := ApplyFlightOutcome(s, flight, outcome, now);
            && t.chain == s.chain && t.reconciles == s.reconciles
            && t.life == s.life.(halted := t.life.halted)
            && (s.life.halted ==> t.life.halted)
            && t.sub == s.sub.(returned := t.sub.returned, resynced := t.sub.resynced, proof := t.sub.proof)
            && s.sub.returned <= t.sub.returned
            && t.log == s.log.(base := t.log.base)
  {
  }

  lemma FlightFrame(s: State, result: LoadResult, now: int)
    requires s.chain.flight.Some?
    ensures var flight := s.chain.flight.value;
            var outcome := OutcomeOf(result);
            var applied := if s.life.stopRequested then s else ApplyFlightOutcome(s, flight, outcome, now);
            var t := LandFlight(s, result, now);
            && t.reconciles == s.reconciles && t.life == applied.life && t.log == applied.log
            && t.sub == applied.sub.(replies := Wake(s.sub.replies, flight.requests, outcome))
            && t.view == applied.view.(inFlightRefresh := t.view.inFlightRefresh)
            && t.chain == Continue(s.chain, flight, ResponseOf(outcome), !t.life.stopRequested && !t.life.halted,
                                   Moment(s.sub.activeEpoch, |s.log.delivered|, t.view.snapshot.Some?))
  {
    var flight := s.chain.flight.value;
    OutcomeFrame(s, flight, OutcomeOf(result), now);
  }

  lemma RequestFrame(s: State, source: Source, waiter: Waiter)
    ensures var t := RequestRefresh(s, source, waiter);
            && t.sub == s.sub && t.life == s.life && t.log == s.log && t.reconciles == s.reconciles
            && t.view == s.view.(inFlightRefresh := t.view.inFlightRefresh)
            && t.chain == Ask(s.chain, source, waiter, Now(s))
  {
  }

  lemma EventFrame(s: State, event: Event)
    requires !s.life.stopRequested
    ensures var t := DeliverEvent(s, event);
            && t.sub == s.sub && t.life == s.life && t.reconciles == s.reconciles
            && t.log == s.log.(delivered := s.log.delivered + [event])
            && t.view.connection == s.view.connection
            && t.view.snapshot ==
               (if s.view.snapshot.None? then None else Some(ApplyEvent(s.view.snapshot.value, event).snapshot))
            && (if s.view.snapshot.None? then t.chain == s.chain
                else
                  var bumped := s.chain.(mutations := s.chain.mutations + 1);
                  || t.chain == bumped
                  || t.chain == Ask(bumped, Managed, Nobody, Moment(s.sub.activeEpoch, |t.log.delivered|, true)))
  {
    if s.view.snapshot.Some? {
      var application := ApplyEvent(s.view.snapshot.value, event);
      var noted := s.(log := s.log.(delivered := s.log.delivered + [event]));
      var swapped :=
        Swap(noted, s.view.(snapshot := Some(application.snapshot)))
        .(chain := s.chain.(mutations := s.chain.mutations + 1));
      RequestFrame(swapped, Managed, Nobody);
    }
  }

  lemma OpenFrame(s: State)
    ensures var t := OpenCycle(s);
            var epoch := s.sub.epoch + 1;
            && t.life == s.life && t.log == s.log && t.reconciles == s.reconciles
            && t.sub == BeginEpoch(s.sub).(currentIterator := Some(epoch), loop := Consuming)
            && t.view == s.view.(inFlightRefresh := t.view.inFlightRefresh)
            && t.chain == if s.sub.resynced then s.chain
                          else Ask(s.chain, Managed, ResyncOf(epoch),
                                   Moment(Some(epoch), |s.log.delivered|, s.view.snapshot.Some?))
  {
  }

  lemma CloseFrame(s: State, end: StreamEnd, now: int)
    ensures var t := CloseCycle(s, end, now);
            && t.chain == s.chain && t.reconciles == s.reconciles && t.log == s.log
            && t.life == s.life.(halted := t.life.halted)
            && (s.life.halted ==> t.life.halted)
            && t.sub.loop.Ended?
            && t.sub == s.sub.(returned := t.sub.returned, activeEpoch := None, currentIterator := None,
                               loop := t.sub.loop)
            && t.view == s.view.(connection := t.view.connection)
  {
  }

  lemma ReconcileFrame(s: State, i: nat, result: LoadResult, now: int)
    requires i < |s.reconciles|
    ensures var t := LandReconcile(s, i, result, now);
            && t.life == s.life
            && t.reconciles == s.reconciles[..i] + s.reconciles[i + 1..]
            && t.log == s.log.(base := t.log.base)
            && t.sub == s.sub.(resynced := t.sub.resynced, proof := t.sub.proof)
            && (t.sub == s.sub ||
                (t.sub.resynced && t.sub.proof == s.sub.activeEpoch && s.sub.activeEpoch.Some?))
            && t.chain == (if s.life.stopRequested || result.Refused? then s.chain
                           else s.chain.(mutations := s.chain.mutations + 1))
  {
  }
}
