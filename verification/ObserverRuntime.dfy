/**
 * The client runtime as the object the source builds: its closure variables are fields and each method
 * is the code that runs between two awaits. Every method is tied to its transition in RuntimeModel.
 */
module ObserverRuntime {
  import opened Wrappers
  import opened SafeErrors
  import opened ClientConnection
  import opened SnapshotReducer
  import opened RuntimeModel

  class Runtime {
    var state: View
    var active: bool
    var started: bool
    var stopRequested: bool
    var haltedFlag: bool
    var currentIterator: Option<nat>
    var returned: set<nat>
    var resynced: bool
    var subscriptionEpoch: nat
    var activeEpoch: Option<nat>
    var cycleFault: bool
    var loop: Loop
    var replies: map<nat, Outcome>
    var refreshChainRunning: bool
    var pendingRefreshRequests: seq<Request>
    var flight: Option<Flight>
    var mutationCounter: nat
    var reconciles: seq<Reconcile>
    var proof: Option<nat>
    var chainLog: ChainLog
    var streamLog: StreamLog

    ghost function Model(): State
      reads this
    {
      State(
        state,
        Life(active, started, stopRequested, haltedFlag),
        Subscription(currentIterator, returned, resynced, subscriptionEpoch, activeEpoch, cycleFault, loop, replies, proof),
        Chain(refreshChainRunning, pendingRefreshRequests, flight, mutationCounter, chainLog),
        reconciles,
        streamLog)
    }

    constructor (initial: Option<Snapshot>)
      ensures Model() == InitialState(initial)
    {
      state := View(Connection.Idle, initial, false);
      active, started, stopRequested, haltedFlag := false, false, false, false;
      currentIterator, returned := None, {};
      resynced := initial.Some?;
      subscriptionEpoch, activeEpoch, cycleFault := 0, None, false;
      loop, replies, proof := Unforked, map[], None;
      refreshChainRunning, pendingRefreshRequests, flight, mutationCounter := false, [], None, 0;
      reconciles := [];
      chainLog := ChainLog(0, 0, 0, [], [], None);
      streamLog := StreamLog([],
        if initial.Some? then Some(Base(Initial, initial.value, Moment(None, 0, true), 0)) else None, 0, initial.Some?);
    }

    method SwapState(next: View)
      modifies `state
      ensures Model() == Swap(old(Model()), next)
    {
      if stopRequested {
        return;
      }
      state := next;
    }

    method FailConnection(error: SafeError, now: int)
      modifies `state
      ensures Model() == ApplyConnectionFailure(old(Model()), error, now)
    {
      SwapState(state.(connection := FailureState(state.connection, error, state.snapshot.Some?, now)));
    }

    method ReturnCurrentIterator()
      modifies `returned
      ensures Model() == old(Model()).(sub := ReturnIterator(old(Model()).sub))
    {
      if currentIterator.Some? {
        returned := returned + {currentIterator.value};
      }
    }

    method HaltRuntime(error: SafeError, now: int)
      modifies `state, `haltedFlag, `returned
      ensures Model() == Halt(old(Model()), error, now)
    {
      if haltedFlag {
        return;
      }
      haltedFlag := true;
      SwapState(state.(connection := HaltedState(error, now)));
      ReturnCurrentIterator();
    }

    /** Whether a load began under the subscription that is still open, which settles the resync debt. */
    method SettleResyncDebt(base: Base) returns (subscribedThroughout: bool)
      modifies `resynced, `proof, `streamLog
      ensures subscribedThroughout == SubscribedThroughout(old(Model()), base.asked.epoch)
      ensures Model() == old(Model()).(
        sub := if subscribedThroughout then old(Model()).sub.(resynced := true, proof := base.asked.epoch) else old(Model()).sub,
        log := old(Model()).log.(base := Some(base)))
    {
      var epochAtStart := base.asked.epoch;
      subscribedThroughout := !haltedFlag && epochAtStart.Some? && epochAtStart == activeEpoch;
      if subscribedThroughout {
        resynced := true;
        proof := epochAtStart;
      }
      streamLog := streamLog.(base := Some(base));
    }

    method ApplyLoaded(base: Base, now: int)
      modifies `state, `resynced, `proof, `streamLog
      ensures Model() == ApplyLoadedOutcome(old(Model()), base, now)
    {
      var subscribedThroughout := SettleResyncDebt(base);
      var next := state.(snapshot := Some(base.response));
      if subscribedThroughout || state.connection.Connected? {
        next := next.(connection := ConnectedState(state.connection, now));
      }
      ghost var before := Model();
      SwapState(next);
      assert Model() == Swap(before, next);
    }

    method SetInFlightRefresh(value: bool)
      modifies `state
      ensures Model() == SetInFlight(old(Model()), value)
    {
      if state.inFlightRefresh != value {
        SwapState(state.(inFlightRefresh := value));
      }
    }

    method PushRequest(source: Source, waiter: Waiter)
      modifies `pendingRefreshRequests, `chainLog
      ensures Model() == old(Model()).(chain := Push(old(Model()).chain, source, waiter))
    {
      var request := Request(source, waiter, chainLog.begun);
      pendingRefreshRequests := pendingRefreshRequests + [request];
      chainLog := chainLog.(asked := chainLog.asked + [request]);
    }

    /** The head of the chain loop up to its await. */
    method LaunchFlight()
      modifies `pendingRefreshRequests, `flight, `chainLog
      ensures Model() == old(Model()).(chain := Launch(old(Model()).chain, Now(old(Model()))))
    {
      var requests := pendingRefreshRequests;
      pendingRefreshRequests := [];
      var managed := false;
      for i := 0 to |requests|
        invariant managed <==> exists j :: 0 <= j < i && requests[j].source == Managed
      {
        if requests[i].source == Managed {
          managed := true;
        }
      }
      flight := Some(Flight(requests, if managed then Managed else Caller, mutationCounter,
                            Moment(activeEpoch, |streamLog.delivered|, state.snapshot.Some?)));
      chainLog := chainLog.(begun := chainLog.begun + 1);
    }

    method RequestManagedOrCallerRefresh(source: Source, waiter: Waiter)
      modifies `state, `refreshChainRunning, `pendingRefreshRequests, `flight, `chainLog
      ensures Model() == RequestRefresh(old(Model()), source, waiter)
    {
      ghost var s := Model();
      chainLog := chainLog.(calls := chainLog.calls + 1);
      PushRequest(source, waiter);
      ghost var pushed := Push(s.chain.(log := s.chain.log.(calls := s.chain.log.calls + 1)), source, waiter);
      assert Model() == s.(chain := pushed);
      if !refreshChainRunning {
        refreshChainRunning := true;
        assert Model() == s.(chain := pushed.(running := true));
        SetInFlightRefresh(true);
        assert Model() == SetInFlight(s, true).(chain := pushed.(running := true));
        LaunchFlight();
      }
    }

    method ApplyOutcome(landed: Flight, outcome: Outcome, now: int)
      modifies `state, `resynced, `proof, `streamLog, `haltedFlag, `returned
      ensures Model() == ApplyFlightOutcome(old(Model()), landed, outcome, now)
    {
      if outcome.Loaded? {
        ApplyLoaded(Base(ByFlight, outcome.snapshot, landed.at, |streamLog.delivered|), now);
        return;
      }
      if outcome.Failure? && outcome.permanent {
        HaltRuntime(outcome.error, now);
        return;
      }
      if landed.source.Caller? {
        return;
      }
      if outcome.ConnectFailure? {
        FailConnection(outcome.error, now);
      }
    }

    /** Resolves every request of a flight, waking the resync continuations among them. */
    method ResolveAll(landed: Flight, outcome: Outcome)
      modifies `replies, `chainLog
      ensures Model() == ResolveRequests(old(Model()), landed, outcome)
    {
      var answers := [];
      for i := 0 to |landed.requests|
        invariant replies == Wake(old(replies), landed.requests[..i], outcome)
        invariant |answers| == i && forall j :: 0 <= j < i ==> answers[j] == Answer(landed.requests[j], chainLog.begun)
        invariant chainLog == old(chainLog)
      {
        assert landed.requests[..i + 1][..i] == landed.requests[..i];
        if landed.requests[i].waiter.ResyncOf? {
          replies := replies[landed.requests[i].waiter.epoch := outcome];
        }
        answers := answers + [Answer(landed.requests[i], chainLog.begun)];
      }
      assert landed.requests[..|landed.requests|] == landed.requests;
      assert answers == Answers(landed.requests, chainLog.begun);
      chainLog := chainLog.(answered := chainLog.answered + answers, landed := chainLog.landed + 1,
                            last := Some(Landing(ResponseOf(outcome), landed)));
    }

    /** The end of one turn of the chain loop: schedule a follow-up for a stale response, then fly again or rest. */
    method FlyAgainOrRest(landed: Flight, loaded: bool)
      modifies `state, `refreshChainRunning, `pendingRefreshRequests, `flight, `chainLog
      ensures Model() == FinishChainTurn(old(Model()), landed, loaded)
    {
      ghost var s := Model();
      var mutated := mutationCounter != landed.mutationsAtStart;
      if !stopRequested && !haltedFlag && loaded && mutated && pendingRefreshRequests == [] {
        PushRequest(Managed, Nobody);
      }
      ghost var queued := Model().chain;
      assert Model() == s.(chain := queued) && Now(Model()) == Now(s);
      if pendingRefreshRequests != [] {
        LaunchFlight();
      } else {
        flight := None;
        refreshChainRunning := false;
        assert Model() == s.(chain := queued.(flight := None, running := false));
        SetInFlightRefresh(false);
      }
    }

    /** One turn of the chain loop after its await. */
    method Land(result: LoadResult, now: int)
      requires flight.Some?
      modifies this
      ensures Model() == LandFlight(old(Model()), result, now)
    {
      var landed := flight.value;
      var outcome := OutcomeOf(result);
      if !stopRequested {
        ApplyOutcome(landed, outcome, now);
      }
      ResolveAll(landed, outcome);
      FlyAgainOrRest(landed, outcome.Loaded?);
    }

    /** Reduces an event into the snapshot; the result tells whether the reducer asks for a new one. */
    method ReduceEvent(event: Event) returns (needsSnapshotRefresh: bool)
      requires state.snapshot.Some?
      modifies `state, `mutationCounter
      ensures var s := old(Model());
              var application := ApplyEvent(s.view.snapshot.value, event);
              && needsSnapshotRefresh == application.needsSnapshotRefresh
              && Model() == Swap(s, s.view.(snapshot := Some(application.snapshot)))
                            .(chain := s.chain.(mutations := s.chain.mutations + 1))
    {
      var application := ApplyEvent(state.snapshot.value, event);
      mutationCounter := mutationCounter + 1;
      SwapState(state.(snapshot := Some(application.snapshot)));
      return application.needsSnapshotRefresh;
    }

    method ApplyStreamEvent(event: Event)
      requires Enabled(Model(), DoDeliverEvent(event))
      modifies this
      ensures Model() == DeliverEvent(old(Model()), event)
      ensures chainLog.asked ==
              if old(state.snapshot).Some? && (event.ProviderHealthChanged? || event.RefreshWorthy?) then
                old(chainLog.asked) + [Request(Managed, Nobody, old(chainLog.begun))]
              else old(chainLog.asked)
    {
      ghost var s := Model();
      streamLog := streamLog.(delivered := streamLog.delivered + [event]);
      assert Model() == s.(log := s.log.(delivered := s.log.delivered + [event]));
      if state.snapshot.None? {
        return;
      }
      var needsSnapshotRefresh := ReduceEvent(event);
      if needsSnapshotRefresh {
        RequestManagedOrCallerRefresh(Managed, Nobody);
      }
    }

    method HandleFailure(error: SafeError, now: int) returns (ending: Ending)
      modifies `state, `haltedFlag, `returned
      ensures Model() == HandleSubscriptionFailure(old(Model()), error, now)
      ensures ending == if IsPermanent(error) then HaltedEnding else Failed
    {
      var permanent := IsPermanent(error);
      if permanent {
        HaltRuntime(error, now);
      }
      if IsConnectError(error) {
        if !permanent {
          FailConnection(error, now);
        }
      }
      return if permanent then HaltedEnding else Failed;
    }

    method LeaveRunCycle(ending: Ending)
      modifies `activeEpoch, `currentIterator, `returned, `loop
      ensures Model() == old(Model()).(sub := LeaveCycle(old(Model()).sub, ending))
    {
      activeEpoch := None;
      ReturnCurrentIterator();
      currentIterator := None;
      loop := Ended(ending);
    }

    method NextEpoch()
      modifies `subscriptionEpoch, `activeEpoch, `cycleFault
      ensures Model() == old(Model()).(sub := BeginEpoch(old(Model()).sub))
    {
      subscriptionEpoch := subscriptionEpoch + 1;
      activeEpoch := Some(subscriptionEpoch);
      cycleFault := false;
    }

    method OpenIterator()
      modifies `currentIterator, `loop
      ensures Model() == old(Model()).(sub := old(Model()).sub.(currentIterator := Some(subscriptionEpoch), loop := Consuming))
    {
      currentIterator := Some(subscriptionEpoch);
      loop := Consuming;
    }

    method RunCycleOpens()
      requires Enabled(Model(), DoOpenCycle)
      modifies this
      ensures Model() == OpenCycle(old(Model()))
    {
      NextEpoch();
      OpenIterator();
      if !resynced {
        RequestManagedOrCallerRefresh(Managed, ResyncOf(subscriptionEpoch));
      }
    }

    /** The end of a cycle, whether its stream was opened or not. */
    method EndRunCycle(end: StreamEnd, now: int)
      modifies this
      ensures Model() == CloseCycle(old(Model()), end, now)
    {
      var ending := Failed;
      match end {
        case Done =>
          if haltedFlag {
            ending := HaltedEnding;
          } else if !cycleFault {
            ending := Clean;
          }
        case Threw(error) =>
          if active {
            ending := HandleFailure(error, now);
          }
      }
      LeaveRunCycle(ending);
    }

    method RunCycleCloses(end: StreamEnd, now: int)
      requires Enabled(Model(), DoCloseCycle(end, now))
      modifies this
      ensures Model() == CloseCycle(old(Model()), end, now)
    {
      EndRunCycle(end, now);
    }

    method RunCycleFailsToOpen(error: SafeError, now: int)
      requires Enabled(Model(), DoOpenCycleFails(error, now))
      modifies this
      ensures Model() == OpenCycleFails(old(Model()), error, now)
    {
      NextEpoch();
      EndRunCycle(Threw(error), now);
    }

    method RunResyncContinues(epoch: nat)
      requires epoch in replies
      modifies this
      ensures Model() == ContinueResync(old(Model()), epoch)
    {
      var outcome := replies[epoch];
      replies := replies - {epoch};
      if !active || haltedFlag || activeEpoch != Some(epoch) || outcome.Loaded? {
        return;
      }
      cycleFault := true;
      ReturnCurrentIterator();
    }

    method LoopContinues()
      requires loop.Ended?
      modifies this
      ensures Model() == ContinueLoop(old(Model()))
    {
      if !active || haltedFlag || loop.ending.HaltedEnding? {
        loop := Loop.Exited;
        return;
      }
      resynced := false;
      loop := Head;
    }

    /** The loop's guard fails. */
    method LoopExits()
      requires loop.Head? && (!active || haltedFlag)
      modifies `loop
      ensures Model() == Step(old(Model()), DoExitLoop)
    {
      loop := Loop.Exited;
    }

    /** What start() shows: a held snapshot counts as connected. */
    method ShowStarting(now: int)
      modifies `state
      ensures Model() == Swap(old(Model()), old(Model()).view.(connection :=
                if old(Model()).view.snapshot.None? then Loading(now)
                else ConnectedState(old(Model()).view.connection, now)))
    {
      if state.snapshot.None? {
        SwapState(state.(connection := Loading(now)));
      } else {
        SwapState(state.(connection := ConnectedState(state.connection, now)));
      }
    }

    method StartRuntime(now: int)
      modifies this
      ensures Model() == Start(old(Model()), now)
    {
      if started || stopRequested {
        return;
      }
      started := true;
      active := true;
      ShowStarting(now);
      loop := Head;
    }

    method StopRuntime()
      modifies this
      ensures Model() == Stop(old(Model()))
    {
      if stopRequested {
        return;
      }
      stopRequested := true;
      active := false;
      ReturnCurrentIterator();
      currentIterator := None;
    }

    method RefreshCalled()
      modifies this
      ensures Model() == Step(old(Model()), DoRefresh)
    {
      RequestManagedOrCallerRefresh(Caller, RefreshCaller);
    }

    method ReconcileCalled()
      modifies `reconciles, `streamLog
      ensures Model() == BeginReconcile(old(Model()))
    {
      var at := Moment(activeEpoch, |streamLog.delivered|, state.snapshot.Some?);
      reconciles := reconciles + [Reconcile(streamLog.reconciles, at)];
      streamLog := streamLog.(reconciles := streamLog.reconciles + 1);
    }

    method TakeReconcile(i: nat) returns (call: Reconcile)
      requires i < |reconciles|
      modifies `reconciles
      ensures call == old(Model()).reconciles[i]
      ensures Model() == old(Model()).(reconciles := old(Model()).reconciles[..i] + old(Model()).reconciles[i + 1..])
    {
      call := reconciles[i];
      reconciles := reconciles[..i] + reconciles[i + 1..];
    }

    method ReconcileReturns(i: nat, result: LoadResult, now: int)
      requires i < |reconciles|
      modifies this
      ensures Model() == LandReconcile(old(Model()), i, result, now)
    {
      var call := TakeReconcile(i);
      if stopRequested || result.Refused? {
        return;
      }
      mutationCounter := mutationCounter + 1;
      ApplyLoaded(Base(ByReconcile, result.snapshot, call.at, |streamLog.delivered|), now);
    }
  }
}
