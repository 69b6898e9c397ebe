/** What every step of the client runtime asks for, shows, halts and ends: told apart by kinds of steps and results. */
module RuntimeReactions {
  import opened Wrappers
  import opened SafeErrors
  import opened ClientConnection
  import opened SnapshotReducer
  import opened RuntimeModel
  import opened RuntimeFrames
  import opened RuntimeInvariants
  import opened RuntimeResync
  import opened RuntimeStream
  import opened RuntimeTheorems

  // ---- Who asks for a load ----

  /** The events after which the local snapshot is not trusted to be complete. */
  predicate CallsForRefresh(event: Event) {
    event.ProviderHealthChanged? || event.RefreshWorthy?
  }

  /** A response that raced a mutation while nobody else asks for a load. */
  predicate LandsStale(s: State, result: LoadResult)
    requires s.chain.flight.Some?
  {
    && result.Snapshotted? && !s.life.stopRequested && !s.life.halted
    && s.chain.mutations != s.chain.flight.value.mutationsAtStart && s.chain.pending == []
  }

  /** The requests a step makes: one for refresh(), for some events, for a resync that is due, for a stale response. */
  function Asked(s: State, a: Action): seq<Request>
    requires Enabled(s, a)
  {
    var loads := s.chain.log.begun;
    match a
    case DoRefresh => [Request(Caller, RefreshCaller, loads)]
    case DoDeliverEvent(event) =>
      if s.view.snapshot.Some? && CallsForRefresh(event) then [Request(Managed, Nobody, loads)] else []
    case DoOpenCycle => if s.sub.resynced then [] else [Request(Managed, ResyncOf(s.sub.epoch + 1), loads)]
    case DoLandFlight(result, _) => if LandsStale(s, result) then [Request(Managed, Nobody, loads)] else []
    case _ => []
  }

  lemma AskedByEvent(s: State, event: Event)
    requires Inv(s) && Enabled(s, DoDeliverEvent(event))
    ensures DeliverEvent(s, event).chain.log.asked == s.chain.log.asked + Asked(s, DoDeliverEvent(event))
  {
  }

  lemma AskedByFlight(s: State, result: LoadResult, now: int)
    requires Inv(s) && s.chain.flight.Some?
    ensures LandFlight(s, result, now).chain.log.asked == s.chain.log.asked + Asked(s, DoLandFlight(result, now))
  {
    FlightFrame(s, result, now);
    OutcomeFrame(s, s.chain.flight.value, OutcomeOf(result), now);
  }

  lemma {:induction false} AskedInCycle(s: State, a: Action)
    requires Inv(s) && Enabled(s, a) && IsCycleStep(a)
    ensures Step(s, a).chain.log.asked == s.chain.log.asked + Asked(s, a)
  {
    match a
    case DoOpenCycle => OpenFrame(s);
    case DoOpenCycleFails(error, now) => CloseFrame(s.(sub := BeginEpoch(s.sub)), Threw(error), now);
    case DoCloseCycle(end, now) => CloseFrame(s, end, now);
    case _ =>
  }

  lemma {:induction false} AskedElsewhere(s: State, a: Action)
    requires Inv(s) && Enabled(s, a) && !IsCycleStep(a)
    ensures Step(s, a).chain.log.asked == s.chain.log.asked + Asked(s, a)
  {
    match a
    case DoRefresh => RequestFrame(s, Caller, RefreshCaller);
    case DoDeliverEvent(event) => AskedByEvent(s, event);
    case DoLandFlight(result, now) => AskedByFlight(s, result, now);
    case DoLandReconcile(i, result, now) => ReconcileFrame(s, i, result, now);
    case _ =>
  }

  /** In every run each step makes exactly the requests of Asked. */
  lemma {:induction false} RequestsAreMadeBy(initial: Option<Snapshot>, actions: seq<Action>, a: Action)
    requires Enabled(Run(InitialState(initial), actions), a)
    ensures var s := Run(InitialState(initial), actions);
            Run(InitialState(initial), actions + [a]).chain.log.asked == s.chain.log.asked + Asked(s, a)
  {
    var s := Reached(initial, actions);
    RunOneMore(InitialState(initial), actions, a);
    if IsCycleStep(a) { AskedInCycle(s, a); } else { AskedElsewhere(s, a); }
  }

  lemma {:induction false} AskedGrows(initial: Option<Snapshot>, actions: seq<Action>, more: seq<Action>)
    ensures Run(InitialState(initial), actions).chain.log.asked <= Run(InitialState(initial), actions + more).chain.log.asked
  {
    if more == [] {
      assert actions + more == actions;
    } else {
      var init, a := more[..|more| - 1], more[|more| - 1];
      AskedGrows(initial, actions, init);
      assert actions + more == actions + init + [a];
      var mid := Run(InitialState(initial), actions + init);
      RunOneMore(InitialState(initial), actions + init, a);
      if Enabled(mid, a) { RequestsAreMadeBy(initial, actions + init, a); }
    }
  }

  /** Whatever request is made, once the chain rests again it has been answered by a load that began after it. */
  lemma {:induction false} RequestIsAnswered(initial: Option<Snapshot>, actions: seq<Action>, more: seq<Action>, i: nat)
    requires i < |Run(InitialState(initial), actions).chain.log.asked|
    requires Run(InitialState(initial), actions + more).chain.flight.None?
    ensures var request := Run(InitialState(initial), actions).chain.log.asked[i];
            var log := Run(InitialState(initial), actions + more).chain.log;
            && i < |log.answered| && log.answered[i].request == request
            && request.loadsBefore < log.answered[i].load <= log.landed
  {
    AskedGrows(initial, actions, more);
    SingleFlight(initial, actions + more);
  }

  /**
   * An event of the kinds that call for a refresh, delivered on a held snapshot, gets one: as soon as the chain rests
   * again a load has been answered that began after the event.
   */
  lemma {:induction false} EventIsRefreshed(initial: Option<Snapshot>, actions: seq<Action>, event: Event, more: seq<Action>)
    requires var s := Run(InitialState(initial), actions);
             s.sub.loop.Consuming? && s.life.active && s.view.snapshot.Some?
    requires event.ProviderHealthChanged? || event.RefreshWorthy?
    requires Run(InitialState(initial), actions + [DoDeliverEvent(event)] + more).chain.flight.None?
    ensures var before := Run(InitialState(initial), actions).chain.log;
            var after := Run(InitialState(initial), actions + [DoDeliverEvent(event)] + more).chain.log;
            && |before.asked| < |after.answered|
            && after.answered[|before.asked|].request == Request(Managed, Nobody, before.begun)
            && before.begun < after.answered[|before.asked|].load <= after.landed
  {
    RequestsAreMadeBy(initial, actions, DoDeliverEvent(event));
    RequestIsAnswered(initial, actions + [DoDeliverEvent(event)], more, |Run(InitialState(initial), actions).chain.log.asked|);
  }

  // ---- Which responses are stale ----

  /** The step changes the snapshot behind the back of an airborne load: by an event, or by a reconcile response. */
  predicate Mutates(s: State, a: Action) {
    match a
    case DoDeliverEvent(_) => Enabled(s, a) && s.view.snapshot.Some?
    case DoLandReconcile(_, result, _) => Enabled(s, a) && result.Snapshotted? && !s.life.stopRequested
    case _ => false
  }

  /** How many steps of a run do. */
  function MutationsIn(s: State, actions: seq<Action>): nat {
    if actions == [] then 0
    else
      var init, a := actions[..|actions| - 1], actions[|actions| - 1];
      MutationsIn(s, init) + if Mutates(Run(s, init), a) then 1 else 0
  }

  /** The step counts as a mutation exactly if it is one. */
  predicate CountsMutation(s: State, a: Action) {
    Next(s, a).chain.mutations == s.chain.mutations + if Mutates(s, a) then 1 else 0
  }

  lemma {:induction false} MutationInCycle(s: State, a: Action)
    requires Inv(s) && IsCycleStep(a)
    ensures CountsMutation(s, a)
  {
    if Enabled(s, a) {
      match a
      case DoOpenCycle => OpenFrame(s);
      case DoOpenCycleFails(error, now) => CloseFrame(s.(sub := BeginEpoch(s.sub)), Threw(error), now);
      case DoCloseCycle(end, now) => CloseFrame(s, end, now);
      case _ =>
    }
  }

  lemma {:induction false} MutationElsewhere(s: State, a: Action)
    requires Inv(s) && !IsCycleStep(a)
    ensures CountsMutation(s, a)
  {
    if Enabled(s, a) {
      match a
      case DoRefresh => RequestFrame(s, Caller, RefreshCaller);
      case DoDeliverEvent(event) => EventFrame(s, event);
      case DoLandFlight(result, now) => FlightFrame(s, result, now);
      case DoLandReconcile(i, result, now) => ReconcileFrame(s, i, result, now);
      case _ =>
    }
  }

  lemma {:induction false} MutationsAreCounted(initial: Option<Snapshot>, actions: seq<Action>)
    ensures Run(InitialState(initial), actions).chain.mutations == MutationsIn(InitialState(initial), actions)
  {
    if actions == [] {
    } else {
      var init, a := actions[..|actions| - 1], actions[|actions| - 1];
      MutationsAreCounted(initial, init);
      var s := Reached(initial, init);
      if IsCycleStep(a) { MutationInCycle(s, a); } else { MutationElsewhere(s, a); }
    }
  }

  /**
   * In every run, when a response is applied, one more load is asked for on the runtime's own account if and only if
   * the snapshot was mutated since the load of that response began and no other request waits.
   */
  lemma {:induction false} StaleResponseIsFollowedUpIff(
    initial: Option<Snapshot>, actions: seq<Action>, response: Snapshot, now: int) returns (k: nat)
    requires var s := Run(InitialState(initial), actions);
             s.chain.flight.Some? && !s.life.stopRequested && !s.life.halted
    ensures LoadBeganAt(InitialState(initial), actions, k)
    ensures var s := Run(InitialState(initial), actions);
            var t := Run(InitialState(initial), actions + [DoLandFlight(Snapshotted(response), now)]);
            t.chain.log.asked ==
              if MutationsIn(InitialState(initial), actions[..k]) < MutationsIn(InitialState(initial), actions) &&
                 s.chain.pending == [] then
                s.chain.log.asked + [Request(Managed, Nobody, s.chain.log.begun)]
              else s.chain.log.asked
  {
    k := FlightBegan(initial, actions);
    RequestsAreMadeBy(initial, actions, DoLandFlight(Snapshotted(response), now));
    MutationsAreCounted(initial, actions);
    MutationsAreCounted(initial, actions[..k]);
    MutationsGrow(InitialState(initial), actions, k);
  }

  lemma {:induction false} MutationsGrow(s: State, actions: seq<Action>, k: nat)
    requires k <= |actions|
    ensures MutationsIn(s, actions[..k]) <= MutationsIn(s, actions)
  {
    if k == |actions| {
      assert actions[..k] == actions;
    } else {
      MutationsGrow(s, actions[..|actions| - 1], k);
      assert actions[..|actions| - 1][..k] == actions[..k];
    }
  }

  // ---- The shown refresh ----

  /** Until stop() is requested, a refresh is shown exactly while a load is airborne. */
  ghost predicate ShowsFlight(s: State) {
    !s.life.stopRequested ==> (s.view.inFlightRefresh <==> s.chain.flight.Some?)
  }

  lemma ShowsFlightAfterAsk(s: State, source: Source, waiter: Waiter)
    requires ChainShape(s.chain) && ShowsFlight(s)
    ensures ShowsFlight(RequestRefresh(s, source, waiter))
  {
  }

  lemma ShowsFlightAfterEvent(s: State, event: Event)
    requires ChainShape(s.chain) && ShowsFlight(s)
    ensures ShowsFlight(DeliverEvent(s, event))
  {
    if s.view.snapshot.Some? {
      var application := ApplyEvent(s.view.snapshot.value, event);
      var noted := s.(log := s.log.(delivered := s.log.delivered + [event]));
      var swapped :=
        Swap(noted, s.view.(snapshot := Some(application.snapshot)))
        .(chain := s.chain.(mutations := s.chain.mutations + 1));
      ShowsFlightAfterAsk(swapped, Managed, Nobody);
    }
  }

  lemma ShowsFlightAfterOpen(s: State)
    requires ChainShape(s.chain) && ShowsFlight(s)
    ensures ShowsFlight(OpenCycle(s))
  {
    var epoch := s.sub.epoch + 1;
    var begun := s.(sub := BeginEpoch(s.sub).(currentIterator := Some(epoch), loop := Consuming));
    ShowsFlightAfterAsk(begun, Managed, ResyncOf(epoch));
  }

  lemma OutcomeKeepsInFlight(s: State, flight: Flight, outcome: Outcome, now: int)
    ensures ApplyFlightOutcome(s, flight, outcome, now).view.inFlightRefresh == s.view.inFlightRefresh
  {
  }

  lemma ShowsFlightAfterLanding(s: State, result: LoadResult, now: int)
    requires ChainShape(s.chain) && ShowsFlight(s) && s.chain.flight.Some?
    ensures ShowsFlight(LandFlight(s, result, now))
  {
    var flight, outcome := s.chain.flight.value, OutcomeOf(result);
    OutcomeKeepsInFlight(s, flight, outcome, now);
    OutcomeFrame(s, flight, outcome, now);
  }

  lemma {:induction false} ShowsFlightInCycle(s: State, a: Action)
    requires Inv(s) && ShowsFlight(s) && IsCycleStep(a)
    ensures ShowsFlight(Next(s, a))
  {
    if Enabled(s, a) {
      match a
      case DoOpenCycle => ShowsFlightAfterOpen(s);
      case DoOpenCycleFails(error, now) => CloseFrame(s.(sub := BeginEpoch(s.sub)), Threw(error), now);
      case DoCloseCycle(end, now) => CloseFrame(s, end, now);
      case _ =>
    }
  }

  lemma ShowsFlightAfterReconcile(s: State, i: nat, result: LoadResult, now: int)
    requires i < |s.reconciles| && ShowsFlight(s)
    ensures ShowsFlight(LandReconcile(s, i, result, now))
  {
  }

  lemma {:induction false} ShowsFlightElsewhere(s: State, a: Action)
    requires Inv(s) && ShowsFlight(s) && !IsCycleStep(a)
    ensures ShowsFlight(Next(s, a))
  {
    if Enabled(s, a) {
      match a
      case DoRefresh => ShowsFlightAfterAsk(s, Caller, RefreshCaller);
      case DoDeliverEvent(event) => ShowsFlightAfterEvent(s, event);
      case DoLandFlight(result, now) => ShowsFlightAfterLanding(s, result, now);
      case DoLandReconcile(i, result, now) => ShowsFlightAfterReconcile(s, i, result, now);
      case _ =>
    }
  }

  lemma {:induction false} RefreshShownIff(initial: Option<Snapshot>, actions: seq<Action>)
    ensures var s := Run(InitialState(initial), actions);
            !s.life.stopRequested ==> (s.view.inFlightRefresh <==> s.chain.flight.Some?)
  {
    if actions == [] {
    } else {
      var init, a := actions[..|actions| - 1], actions[|actions| - 1];
      RefreshShownIff(initial, init);
      var s := Reached(initial, init);
      if IsCycleStep(a) { ShowsFlightInCycle(s, a); } else { ShowsFlightElsewhere(s, a); }
    }
  }

  // ---- What is shown of the connection ----

  /** The stream of the open or opening cycle ends with an error, on which a stopped runtime does not act. */
  function StreamError(s: State, a: Action): Option<(SafeError, int)> {
    if !s.life.active then None
    else
      match a
      case DoCloseCycle(Threw(error), now) => Some((error, now))
      case DoOpenCycleFails(error, now) => Some((error, now))
      case _ => None
  }

  /** A load is refused. */
  function RefusedLoad(s: State, a: Action): Option<(SafeError, int)> {
    match a
    case DoLandFlight(Refused(error), now) => Some((error, now))
    case _ => None
  }

  /** The permanent error that a step discovers, on the stream or with any load of the chain. */
  function PermanentError(s: State, a: Action): Option<(SafeError, int)> {
    var found := StreamError(s, a).OrElse(RefusedLoad(s, a));
    if found.Some? && IsPermanent(found.value.0) then found else None
  }

  /** A failure to connect that the runtime meets on its own account, which a load that only callers asked for is not. */
  function ConnectError(s: State, a: Action): Option<(SafeError, int)> {
    var found := StreamError(s, a).OrElse(
      if a.DoLandFlight? && s.chain.flight.Some? && s.chain.flight.value.source.Managed? then RefusedLoad(s, a) else None);
    if found.Some? && IsConnectError(found.value.0) then found else None
  }

  function Downtime(before: Connection, now: int, hasSnapshot: bool): int {
    if hasSnapshot && before.DisplayOnly? then before.since
    else if !hasSnapshot && before.Reconnecting? then before.since
    else now
  }

  function LandingTime(a: Action): int
    requires a.DoLandFlight? || a.DoLandReconcile?
  {
    a.now
  }

  /** The connection shown after a step of a runtime that was not asked to stop. */
  function ShownAfter(s: State, a: Action): Connection {
    var before, hasSnapshot := s.view.connection, s.view.snapshot.Some?;
    if PermanentError(s, a).Some? then
      if s.life.halted then before else Halted(PermanentError(s, a).value.1, PermanentError(s, a).value.0)
    else if ConnectError(s, a).Some? then
      var (error, now) := ConnectError(s, a).value;
      if hasSnapshot then DisplayOnly(Downtime(before, now, true), error)
      else Reconnecting(Downtime(before, now, false), error)
    else if a.DoStart? && !s.life.started then
      if !hasSnapshot then Loading(a.now) else if before.Connected? then before else Connected(a.now)
    else if before.Connected? || !LandsSpanningLoad(s, a) then before
    else Connected(LandingTime(a))
  }

  lemma ShownAfterOutcome(s: State, result: LoadResult, now: int)
    requires s.chain.flight.Some? && !s.life.stopRequested
    ensures var t := ApplyFlightOutcome(s, s.chain.flight.value, OutcomeOf(result), now);
            && t.view.connection == ShownAfter(s, DoLandFlight(result, now))
            && (t.life.halted <==> s.life.halted || PermanentError(s, DoLandFlight(result, now)).Some?)
  {
  }

  lemma ShownAfterLanding(s: State, result: LoadResult, now: int)
    requires s.chain.flight.Some? && !s.life.stopRequested
    ensures var t := LandFlight(s, result, now);
            && t.view.connection == ShownAfter(s, DoLandFlight(result, now))
            && (t.life.halted <==> s.life.halted || PermanentError(s, DoLandFlight(result, now)).Some?)
  {
    FlightFrame(s, result, now);
    ShownAfterOutcome(s, result, now);
  }

  lemma ShownAfterReconciling(s: State, i: nat, result: LoadResult, now: int)
    requires i < |s.reconciles| && !s.life.stopRequested
    ensures LandReconcile(s, i, result, now).view.connection == ShownAfter(s, DoLandReconcile(i, result, now))
  {
  }

  lemma ShownAfterClosing(s: State, end: StreamEnd, now: int)
    requires !s.life.stopRequested
    ensures var t := CloseCycle(s, end, now);
            && t.view.connection == ShownAfter(s, DoCloseCycle(end, now))
            && (t.life.halted <==> s.life.halted || PermanentError(s, DoCloseCycle(end, now)).Some?)
  {
  }

  lemma {:induction false} ShownAfterCycle(s: State, a: Action)
    requires Inv(s) && Enabled(s, a) && !s.life.stopRequested && IsCycleStep(a)
    ensures Step(s, a).view.connection == ShownAfter(s, a)
    ensures Step(s, a).life.halted <==> s.life.halted || PermanentError(s, a).Some?
  {
    match a
    case DoOpenCycle => OpenFrame(s);
    case DoOpenCycleFails(error, now) => ShownAfterClosing(s.(sub := BeginEpoch(s.sub)), Threw(error), now);
    case DoCloseCycle(end, now) => ShownAfterClosing(s, end, now);
    case _ =>
  }

  lemma {:induction false} ShownAfterOthers(s: State, a: Action)
    requires Inv(s) && Enabled(s, a) && !s.life.stopRequested && !IsCycleStep(a)
    ensures Step(s, a).view.connection == ShownAfter(s, a)
    ensures Step(s, a).life.halted <==> s.life.halted || PermanentError(s, a).Some?
  {
    match a
    case DoRefresh => RequestFrame(s, Caller, RefreshCaller);
    case DoDeliverEvent(event) => EventFrame(s, event);
    case DoLandFlight(result, now) => ShownAfterLanding(s, result, now);
    case DoLandReconcile(i, result, now) =>
      ReconcileFrame(s, i, result, now);
      ShownAfterReconciling(s, i, result, now);
    case _ =>
  }

  /**
   * In every run, until stop() is requested, every step shows the connection that its result calls for, and the
   * runtime is halted by the first permanent error, be it of the stream or of any load of the chain, and by no other.
   */
  lemma {:induction false} ConnectionFollows(initial: Option<Snapshot>, actions: seq<Action>, a: Action)
    requires var s := Run(InitialState(initial), actions); Enabled(s, a) && !s.life.stopRequested
    ensures var s, t := Run(InitialState(initial), actions), Run(InitialState(initial), actions + [a]);
            && t.view.connection == ShownAfter(s, a)
            && (t.life.halted <==> s.life.halted || PermanentError(s, a).Some?)
  {
    var s := Reached(initial, actions);
    RunOneMore(InitialState(initial), actions, a);
    if IsCycleStep(a) { ShownAfterCycle(s, a); } else { ShownAfterOthers(s, a); }
  }

  // ---- What is shown of the snapshot ----

  /** The snapshot after a step: an event is reduced on it, the response of a load replaces it. */
  function SnapshotAfter(s: State, a: Action): Option<Snapshot> {
    if s.life.stopRequested then s.view.snapshot
    else
      match a
      case DoDeliverEvent(event) =>
        if s.view.snapshot.Some? then Some(ApplyEvent(s.view.snapshot.value, event).snapshot) else None
      case DoLandFlight(Snapshotted(snapshot), _) => Some(snapshot)
      case DoLandReconcile(_, Snapshotted(snapshot), _) => Some(snapshot)
      case _ => s.view.snapshot
  }

  lemma {:induction false} SnapshotInCycle(s: State, a: Action)
    requires Inv(s) && Enabled(s, a) && IsCycleStep(a)
    ensures Step(s, a).view.snapshot == SnapshotAfter(s, a) && Step(s, a).log.delivered == s.log.delivered
  {
    match a
    case DoOpenCycle => OpenFrame(s);
    case DoOpenCycleFails(error, now) => CloseFrame(s.(sub := BeginEpoch(s.sub)), Threw(error), now);
    case DoCloseCycle(end, now) => CloseFrame(s, end, now);
    case _ =>
  }

  lemma {:induction false} SnapshotElsewhere(s: State, a: Action)
    requires Inv(s) && Enabled(s, a) && !IsCycleStep(a)
    ensures Step(s, a).view.snapshot == SnapshotAfter(s, a)
    ensures Step(s, a).log.delivered == s.log.delivered + if a.DoDeliverEvent? then [a.event] else []
  {
    match a
    case DoRefresh => RequestFrame(s, Caller, RefreshCaller);
    case DoDeliverEvent(event) => EventFrame(s, event);
    case DoLandFlight(result, now) =>
      FlightFrame(s, result, now);
      FlightBase(s, result, now);
      OutcomeFrame(s, s.chain.flight.value, OutcomeOf(result), now);
    case DoLandReconcile(i, result, now) =>
      ReconcileFrame(s, i, result, now);
      ReconcileBase(s, i, result, now);
    case _ =>
  }

  /** In every run each step leaves the snapshot that its event or result calls for, and each event is on record. */
  lemma {:induction false} SnapshotFollows(initial: Option<Snapshot>, actions: seq<Action>, a: Action)
    requires Enabled(Run(InitialState(initial), actions), a)
    ensures var s, t := Run(InitialState(initial), actions), Run(InitialState(initial), actions + [a]);
            && t.view.snapshot == SnapshotAfter(s, a)
            && t.log.delivered == s.log.delivered + if a.DoDeliverEvent? then [a.event] else []
  {
    var s := Reached(initial, actions);
    RunOneMore(InitialState(initial), actions, a);
    if IsCycleStep(a) { SnapshotInCycle(s, a); } else { SnapshotElsewhere(s, a); }
  }

  // ---- On whose account a load flies ----

  ghost predicate SourceOk(c: Chain) {
    c.flight.Some? ==>
      (c.flight.value.source.Managed? <==>
         exists i :: 0 <= i < |c.flight.value.requests| && c.flight.value.requests[i].source == Managed)
  }

  lemma SourceAfterMove(c: Chain, move: Move)
    requires SourceOk(c)
    ensures SourceOk(Moved(c, move))
  {
  }

  /** A load counts as the runtime's own if and only if some request it answers does. */
  lemma {:induction false} LoadIsManagedIff(initial: Option<Snapshot>, actions: seq<Action>)
    ensures SourceOk(Run(InitialState(initial), actions).chain)
  {
    if actions == [] {
    } else {
      var init, a := actions[..|actions| - 1], actions[|actions| - 1];
      LoadIsManagedIff(initial, init);
      var move := StepMove(Run(InitialState(initial), init), a);
      SourceAfterMove(Run(InitialState(initial), init).chain, move);
    }
  }

  // ---- The loop ----

  /** A running loop never gives up, and a stream that nobody wants any more has been told to end. */
  ghost predicate LoopLives(s: State) {
    && (s.life.active && !s.life.halted ==>
          s.sub.loop.Head? || s.sub.loop.Consuming? || (s.sub.loop.Ended? && !s.sub.loop.ending.HaltedEnding?))
    && (s.sub.loop.Consuming? && (s.life.stopRequested || s.life.halted) ==>
          s.sub.activeEpoch.Some? && s.sub.activeEpoch.value in s.sub.returned)
  }

  lemma LoopLivesAfterOutcome(s: State, flight: Flight, outcome: Outcome, now: int)
    requires LoopInv(s) && LoopLives(s) && !s.life.stopRequested
    ensures LoopLives(ApplyFlightOutcome(s, flight, outcome, now))
  {
  }

  lemma LoopLivesAfterLanding(s: State, result: LoadResult, now: int)
    requires LoopInv(s) && LoopLives(s) && s.chain.flight.Some?
    ensures LoopLives(LandFlight(s, result, now))
  {
    FlightFrame(s, result, now);
    if !s.life.stopRequested { LoopLivesAfterOutcome(s, s.chain.flight.value, OutcomeOf(result), now); }
  }

  lemma LoopLivesAfterClose(s: State, end: StreamEnd, now: int)
    requires LifeInv(s.life)
    ensures LoopLives(CloseCycle(s, end, now))
  {
  }

  lemma {:induction false} LoopLivesInCycle(s: State, a: Action)
    requires Inv(s) && LoopLives(s) && IsCycleStep(a)
    ensures LoopLives(Next(s, a))
  {
    if Enabled(s, a) {
      match a
      case DoOpenCycle => OpenFrame(s);
      case DoOpenCycleFails(error, now) => LoopLivesAfterClose(s.(sub := BeginEpoch(s.sub)), Threw(error), now);
      case DoCloseCycle(end, now) => LoopLivesAfterClose(s, end, now);
      case _ =>
    }
  }

  lemma {:induction false} LoopLivesElsewhere(s: State, a: Action)
    requires Inv(s) && LoopLives(s) && !IsCycleStep(a)
    ensures LoopLives(Next(s, a))
  {
    if Enabled(s, a) {
      match a
      case DoRefresh => RequestFrame(s, Caller, RefreshCaller);
      case DoDeliverEvent(event) => EventFrame(s, event);
      case DoLandFlight(result, now) => LoopLivesAfterLanding(s, result, now);
      case DoLandReconcile(i, result, now) => ReconcileFrame(s, i, result, now);
      case _ =>
    }
  }

  lemma {:induction false} LoopLivesFrom(initial: Option<Snapshot>, actions: seq<Action>)
    ensures LoopLives(Run(InitialState(initial), actions))
  {
    if actions == [] {
    } else {
      var init, a := actions[..|actions| - 1], actions[|actions| - 1];
      LoopLivesFrom(initial, init);
      var s := Reached(initial, init);
      if IsCycleStep(a) { LoopLivesInCycle(s, a); } else { LoopLivesElsewhere(s, a); }
    }
  }

  /** A started runtime that was neither stopped nor halted can always go on to its next subscription, or has one. */
  lemma {:induction false} RunningLoopGoesOn(initial: Option<Snapshot>, actions: seq<Action>)
    requires var s := Run(InitialState(initial), actions); s.life.started && !s.life.stopRequested && !s.life.halted
    ensures var s := Run(InitialState(initial), actions);
            || s.sub.loop.Consuming?
            || Enabled(s, DoOpenCycle)
            || (Enabled(s, DoContinueLoop) && Enabled(Step(s, DoContinueLoop), DoOpenCycle))
  {
    var s := Reached(initial, actions);
    LoopLivesFrom(initial, actions);
  }

  /** The loop of a started runtime that was stopped or halted has exited, or its next step ends its cycle or exits. */
  lemma {:induction false} UselessLoopExits(initial: Option<Snapshot>, actions: seq<Action>)
    requires var s := Run(InitialState(initial), actions); s.life.started && (s.life.stopRequested || s.life.halted)
    ensures var s := Run(InitialState(initial), actions);
            match s.sub.loop
            case Unforked => false
            case Head => Run(InitialState(initial), actions + [DoExitLoop]).sub.loop.Exited?
            case Consuming => s.sub.activeEpoch.Some? && s.sub.activeEpoch.value in s.sub.returned
            case Ended(_) => Run(InitialState(initial), actions + [DoContinueLoop]).sub.loop.Exited?
            case Exited => true
  {
    var s := Reached(initial, actions);
    LoopLivesFrom(initial, actions);
    RunOneMore(InitialState(initial), actions, DoExitLoop);
    RunOneMore(InitialState(initial), actions, DoContinueLoop);
  }

  /**
   * However a cycle ends, its iterator has been returned and nothing of it is held; it ends as halted exactly in a
   * halted runtime or on a permanent error, as clean exactly if the stream just ended and no resync had failed in it.
   */
  lemma {:induction false} CycleEnds(initial: Option<Snapshot>, actions: seq<Action>, end: StreamEnd, now: int)
    requires Run(InitialState(initial), actions).sub.loop.Consuming?
    ensures var s := Run(InitialState(initial), actions);
            var t := Run(InitialState(initial), actions + [DoCloseCycle(end, now)]);
            && s.sub.activeEpoch.Some? && s.sub.activeEpoch.value in t.sub.returned
            && t.sub.activeEpoch.None? && t.sub.currentIterator.None? && t.sub.loop.Ended?
            && (t.sub.loop.ending.HaltedEnding? <==>
                  if end.Done? then s.life.halted else s.life.active && IsPermanent(end.error))
            && (t.sub.loop.ending.Clean? <==> end.Done? && !s.life.halted && !s.sub.cycleFault)
  {
    var s := Reached(initial, actions);
    LoopLivesFrom(initial, actions);
    RunOneMore(InitialState(initial), actions, DoCloseCycle(end, now));
    CloseFrame(s, end, now);
  }

  // ---- Resyncs ----

  lemma {:induction false} WakeTells(replies: map<nat, Outcome>, requests: seq<Request>, outcome: Outcome, epoch: nat)
    ensures var after := Wake(replies, requests, outcome);
            if Waits(requests, epoch) then epoch in after && after[epoch] == outcome
            else (epoch in after <==> epoch in replies) && (epoch in replies ==> after[epoch] == replies[epoch])
  {
    if Waits(requests, epoch) {
      WakeReaches(replies, requests, outcome, epoch);
    } else {
      WakeKeeps(replies, requests, outcome, epoch);
    }
  }

  /** A landing answers exactly the resyncs among its requests: with success if and only if it loaded a snapshot. */
  lemma {:induction false} ResyncsHearTheirLoad(
    initial: Option<Snapshot>, actions: seq<Action>, result: LoadResult, now: int, epoch: nat)
    requires Run(InitialState(initial), actions).chain.flight.Some?
    ensures var s := Run(InitialState(initial), actions);
            var t := Run(InitialState(initial), actions + [DoLandFlight(result, now)]);
            if exists i :: 0 <= i < |s.chain.flight.value.requests| &&
                           s.chain.flight.value.requests[i].waiter == ResyncOf(epoch) then
              epoch in t.sub.replies && (t.sub.replies[epoch].Loaded? <==> result.Snapshotted?)
            else
              (epoch in t.sub.replies <==> epoch in s.sub.replies) &&
              (epoch in s.sub.replies ==> t.sub.replies[epoch] == s.sub.replies[epoch])
  {
    var s := Run(InitialState(initial), actions);
    RunOneMore(InitialState(initial), actions, DoLandFlight(result, now));
    FlightFrame(s, result, now);
    WakeTells(s.sub.replies, s.chain.flight.value.requests, OutcomeOf(result), epoch);
  }

  /** A cycle is marked faulty only by the failed resync of its own epoch, and by that always. */
  lemma {:induction false} FaultIff(initial: Option<Snapshot>, actions: seq<Action>, a: Action)
    requires !Run(InitialState(initial), actions).sub.cycleFault
    ensures var s := Run(InitialState(initial), actions);
            Run(InitialState(initial), actions + [a]).sub.cycleFault <==>
              && a.DoContinueResync? && a.epoch in s.sub.replies && !s.sub.replies[a.epoch].Loaded?
              && s.life.active && !s.life.halted && s.sub.activeEpoch == Some(a.epoch)
  {
    var s := Reached(initial, actions);
    RunOneMore(InitialState(initial), actions, a);
    if IsCycleStep(a) { FaultInCycle(s, a); } else { FaultElsewhere(s, a); }
  }

  lemma {:induction false} FaultInCycle(s: State, a: Action)
    requires Inv(s) && IsCycleStep(a) && !s.sub.cycleFault
    ensures !Next(s, a).sub.cycleFault
  {
    if Enabled(s, a) {
      match a
      case DoOpenCycle => OpenFrame(s);
      case DoOpenCycleFails(error, now) => CloseFrame(s.(sub := BeginEpoch(s.sub)), Threw(error), now);
      case DoCloseCycle(end, now) => CloseFrame(s, end, now);
      case _ =>
    }
  }

  lemma {:induction false} FaultElsewhere(s: State, a: Action)
    requires Inv(s) && !IsCycleStep(a) && !s.sub.cycleFault
    ensures Next(s, a).sub.cycleFault <==>
              && a.DoContinueResync? && a.epoch in s.sub.replies && !s.sub.replies[a.epoch].Loaded?
              && s.life.active && !s.life.halted && s.sub.activeEpoch == Some(a.epoch)
  {
    if Enabled(s, a) {
      match a
      case DoRefresh => RequestFrame(s, Caller, RefreshCaller);
      case DoDeliverEvent(event) => EventFrame(s, event);
      case DoLandFlight(result, now) =>
        FlightFrame(s, result, now);
        OutcomeFrame(s, s.chain.flight.value, OutcomeOf(result), now);
      case DoLandReconcile(i, result, now) => ReconcileFrame(s, i, result, now);
      case _ =>
    }
  }
}
