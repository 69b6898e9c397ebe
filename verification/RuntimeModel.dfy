/**
 * The client runtime as a transition system. JavaScript runs to completion, so one
 * transition is the code between two awaits; every interleaving of the transitions is a run.
 */
module RuntimeModel {
  import opened Wrappers
  import opened SafeErrors
  import opened ClientConnection
  import opened SnapshotReducer

  datatype Source = Managed | Caller

  /** What `resolve` of a refresh request wakes up: a refresh() caller, the resync of an epoch, or nothing. */
  datatype Waiter = RefreshCaller | ResyncOf(epoch: nat) | Nobody

  /** `loadsBefore` is history: how many chain loads had begun when the request was made. */
  datatype Request = Request(source: Source, waiter: Waiter, loadsBefore: nat)

  datatype LoadResult = Snapshotted(snapshot: Snapshot) | Refused(error: SafeError)

  datatype Outcome =
    | Loaded(snapshot: Snapshot)
    | ConnectFailure(error: SafeError)
    | Failure(error: SafeError, permanent: bool)

  /** What the observable world looks like at the moment a load is sent out. */
  datatype Moment = Moment(epoch: Option<nat>, events: nat, hasSnapshot: bool)

  /** The locals of runRefreshChain across its await; only `at.epoch` is kept by the source. */
  datatype Flight = Flight(requests: seq<Request>, source: Source, mutationsAtStart: nat, at: Moment)

  /** The locals of one reconcile() call across its await; `ordinal` tells calls apart in a history. */
  datatype Reconcile = Reconcile(ordinal: nat, at: Moment)

  datatype Answer = Answer(request: Request, load: nat)

  /** How a flight ended, with its response if it loaded. */
  datatype Landing = Landing(response: Option<Snapshot>, flight: Flight)

  /** History of the refresh chain; loads are numbered from 1 in the order they begin. */
  datatype ChainLog = ChainLog(
    calls: nat,
    begun: nat,
    landed: nat,
    asked: seq<Request>,
    answered: seq<Answer>,
    last: Option<Landing>)

  datatype Chain = Chain(
    running: bool,
    pending: seq<Request>,
    flight: Option<Flight>,
    mutations: nat,
    log: ChainLog)

  datatype Ending = Clean | Failed | HaltedEnding

  /** Program point of the subscription loop. */
  datatype Loop = Unforked | Head | Consuming | Ended(ending: Ending) | Exited

  datatype Subscription = Subscription(
    currentIterator: Option<nat>,   // named by the epoch that opened it
    returned: set<nat>,             // the iterators on which return() has been called
    resynced: bool,
    epoch: nat,
    activeEpoch: Option<nat>,
    cycleFault: bool,
    loop: Loop,
    replies: map<nat, Outcome>,     // runResync continuations that are resolved but have not run yet
    proof: Option<nat>)             // history: the epoch whose load last set `resynced`

  datatype Life = Life(active: bool, started: bool, stopRequested: bool, halted: bool)

  datatype View = View(connection: Connection, snapshot: Option<Snapshot>, inFlightRefresh: bool)

  datatype Origin = Initial | ByFlight | ByReconcile

  /** The response the current snapshot is built on, when it was asked for and when it was applied. */
  datatype Base = Base(origin: Origin, response: Snapshot, asked: Moment, applied: nat)

  /** History of events and responses. */
  datatype StreamLog = StreamLog(delivered: seq<Event>, base: Option<Base>, reconciles: nat, trusted: bool)

  datatype State = State(
    view: View,
    life: Life,
    sub: Subscription,
    chain: Chain,
    reconciles: seq<Reconcile>,
    log: StreamLog)

  function InitialState(initial: Option<Snapshot>): State {
    State(
      View(Connection.Idle, initial, false),
      Life(false, false, false, false),
      Subscription(None, {}, initial.Some?, 0, None, false, Unforked, map[], None),
      Chain(false, [], None, 0, ChainLog(0, 0, 0, [], [], None)),
      [],
      StreamLog([],
                if initial.Some? then Some(Base(Initial, initial.value, Moment(None, 0, true), 0)) else None,
                0, initial.Some?))
  }

  function Now(s: State): Moment {
    Moment(s.sub.activeEpoch, |s.log.delivered|, s.view.snapshot.Some?)
  }

  // ---- The helpers of the closure ----

  /** Once stop() has been requested the view is frozen. */
  function Swap(s: State, next: View): State {
    if s.life.stopRequested then s else s.(view := next)
  }

  function ApplyConnectionFailure(s: State, error: SafeError, now: int): State {
    Swap(s, s.view.(connection := FailureState(s.view.connection, error, s.view.snapshot.Some?, now)))
  }

  function ReturnIterator(sub: Subscription): Subscription {
    if sub.currentIterator.Some? then sub.(returned := sub.returned + {sub.currentIterator.value}) else sub
  }

  function Halt(s: State, error: SafeError, now: int): State {
    if s.life.halted then s
    else
      Swap(s, s.view.(connection := HaltedState(error, now)))
      .(life := s.life.(halted := true), sub := ReturnIterator(s.sub))
  }

  predicate SubscribedThroughout(s: State, epochAtStart: Option<nat>) {
    !s.life.halted && epochAtStart.Some? && epochAtStart == s.sub.activeEpoch
  }

  function ApplyLoadedOutcome(s: State, base: Base, now: int): State {
    var subscribed := SubscribedThroughout(s, base.asked.epoch);
    var loaded := s.view.(snapshot := Some(base.response));
    var next :=
      if subscribed || s.view.connection.Connected? then
        loaded.(connection := ConnectedState(s.view.connection, now))
      else loaded;
    Swap(s, next)
    .(sub := if subscribed then s.sub.(resynced := true, proof := base.asked.epoch) else s.sub,
      log := s.log.(base := Some(base)))
  }

  function SetInFlight(s: State, value: bool): State {
    if s.view.inFlightRefresh != value then Swap(s, s.view.(inFlightRefresh := value)) else s
  }

  // ---- The refresh chain ----

  predicate AnyManaged(requests: seq<Request>) {
    exists i :: 0 <= i < |requests| && requests[i].source == Managed
  }

  /** One turn of the chain loop up to its await: take every pending request and start a load. */
  function Launch(c: Chain, at: Moment): Chain {
    c.(pending := [],
       flight := Some(Flight(c.pending, if AnyManaged(c.pending) then Managed else Caller, c.mutations, at)),
       log := c.log.(begun := c.log.begun + 1))
  }

  function Push(c: Chain, source: Source, waiter: Waiter): Chain {
    var request := Request(source, waiter, c.log.begun);
    c.(pending := c.pending + [request], log := c.log.(asked := c.log.asked + [request]))
  }

  function Ask(c: Chain, source: Source, waiter: Waiter, at: Moment): Chain {
    var pushed := Push(c.(log := c.log.(calls := c.log.calls + 1)), source, waiter);
    if c.running then pushed else Launch(pushed.(running := true), at)
  }

  function RequestRefresh(s: State, source: Source, waiter: Waiter): State {
    (if s.chain.running then s else SetInFlight(s, true))
    .(chain := Ask(s.chain, source, waiter, Now(s)))
  }

  function OutcomeOf(result: LoadResult): Outcome {
    match result
    case Snapshotted(snapshot) => Loaded(snapshot)
    case Refused(error) =>
      if IsConnectError(error) then ConnectFailure(error) else Failure(error, IsPermanent(error))
  }

  function ApplyFlightOutcome(s: State, flight: Flight, outcome: Outcome, now: int): State {
    match outcome
    case Loaded(snapshot) =>
      ApplyLoadedOutcome(s, Base(ByFlight, snapshot, flight.at, |s.log.delivered|), now)
    case Failure(error, permanent) => if permanent then Halt(s, error, now) else s
    case ConnectFailure(error) => if flight.source.Managed? then ApplyConnectionFailure(s, error, now) else s
  }

  /** The resync continuations woken by resolving `requests`. */
  function Wake(replies: map<nat, Outcome>, requests: seq<Request>, outcome: Outcome): map<nat, Outcome> {
    if requests == [] then replies
    else
      var init := Wake(replies, requests[..|requests| - 1], outcome);
      var last := requests[|requests| - 1].waiter;
      if last.ResyncOf? then init[last.epoch := outcome] else init
  }

  function Answers(requests: seq<Request>, load: nat): (r: seq<Answer>)
    ensures |r| == |requests|
  {
    seq(|requests|, i requires 0 <= i < |requests| => Answer(requests[i], load))
  }

  function ResponseOf(outcome: Outcome): Option<Snapshot> {
    if outcome.Loaded? then Some(outcome.snapshot) else None
  }

  function Resolve(c: Chain, flight: Flight, response: Option<Snapshot>): Chain {
    c.(log := c.log.(answered := c.log.answered + Answers(flight.requests, c.log.begun),
                     landed := c.log.landed + 1,
                     last := Some(Landing(response, flight))))
  }

  /** After a flight's requests were resolved: a follow-up for a stale response, the next flight, or rest. */
  function FinishTurn(c: Chain, flight: Flight, loaded: bool, followUp: bool, at: Moment): Chain {
    var stale := followUp && loaded && c.mutations != flight.mutationsAtStart && c.pending == [];
    var queued := if stale then Push(c, Managed, Nobody) else c;
    if queued.pending != [] then Launch(queued, at) else queued.(flight := None, running := false)
  }

  function Continue(c: Chain, flight: Flight, response: Option<Snapshot>, followUp: bool, at: Moment): Chain {
    FinishTurn(Resolve(c, flight, response), flight, response.Some?, followUp, at)
  }

  function ResolveRequests(s: State, flight: Flight, outcome: Outcome): State {
    s.(sub := s.sub.(replies := Wake(s.sub.replies, flight.requests, outcome)),
       chain := Resolve(s.chain, flight, ResponseOf(outcome)))
  }

  function FinishChainTurn(s: State, flight: Flight, loaded: bool): State {
    var chain := FinishTurn(s.chain, flight, loaded, !s.life.stopRequested && !s.life.halted, Now(s));
    (if chain.flight.Some? then s else SetInFlight(s, false)).(chain := chain)
  }

  /** One turn of the chain loop after its await. */
  function LandFlight(s: State, result: LoadResult, now: int): State
    requires s.chain.flight.Some?
  {
    var flight := s.chain.flight.value;
    var outcome := OutcomeOf(result);
    var applied := if s.life.stopRequested then s else ApplyFlightOutcome(s, flight, outcome, now);
    FinishChainTurn(ResolveRequests(applied, flight, outcome), flight, outcome.Loaded?)
  }

  // ---- Events and the subscription cycle ----

  function DeliverEvent(s: State, event: Event): State {
    var noted := s.(log := s.log.(delivered := s.log.delivered + [event]));
    if s.view.snapshot.None? then noted
    else
      var application := ApplyEvent(s.view.snapshot.value, event);
      var swapped :=
        Swap(noted, s.view.(snapshot := Some(application.snapshot)))
        .(chain := s.chain.(mutations := s.chain.mutations + 1));
      if application.needsSnapshotRefresh then RequestRefresh(swapped, Managed, Nobody) else swapped
  }

  function HandleSubscriptionFailure(s: State, error: SafeError, now: int): State {
    if IsPermanent(error) then Halt(s, error, now)
    else if IsConnectError(error) then ApplyConnectionFailure(s, error, now)
    else s
  }

  function BeginEpoch(sub: Subscription): Subscription {
    sub.(epoch := sub.epoch + 1, activeEpoch := Some(sub.epoch + 1), cycleFault := false)
  }

  function OpenCycle(s: State): State {
    var epoch := s.sub.epoch + 1;
    var begun := s.(sub := BeginEpoch(s.sub).(currentIterator := Some(epoch), loop := Consuming));
    if !s.sub.resynced then RequestRefresh(begun, Managed, ResyncOf(epoch)) else begun
  }

  datatype StreamEnd = Done | Threw(error: SafeError)

  /** The `finally` of runCycle. */
  function LeaveCycle(sub: Subscription, ending: Ending): Subscription {
    ReturnIterator(sub).(activeEpoch := None, currentIterator := None, loop := Ended(ending))
  }

  function CloseCycle(s: State, end: StreamEnd, now: int): State {
    match end
    case Done =>
      s.(sub := LeaveCycle(s.sub, if s.life.halted then HaltedEnding else if s.sub.cycleFault then Failed else Clean))
    case Threw(error) =>
      if !s.life.active then s.(sub := LeaveCycle(s.sub, Failed))
      else
        var handled := HandleSubscriptionFailure(s, error, now);
        handled.(sub := LeaveCycle(handled.sub, if IsPermanent(error) then HaltedEnding else Failed))
  }

  /** subscribeEvents() itself throws: the epoch is used up, nothing is requested. */
  function OpenCycleFails(s: State, error: SafeError, now: int): State {
    CloseCycle(s.(sub := BeginEpoch(s.sub)), Threw(error), now)
  }

  /** runResync after its request was answered. */
  function ContinueResync(s: State, epoch: nat): State
    requires epoch in s.sub.replies
  {
    var outcome := s.sub.replies[epoch];
    var woken := s.sub.(replies := s.sub.replies - {epoch});
    if !s.life.active || s.life.halted || s.sub.activeEpoch != Some(epoch) || outcome.Loaded? then
      s.(sub := woken)
    else
      s.(sub := ReturnIterator(woken.(cycleFault := true)))
  }

  function ContinueLoop(s: State): State
    requires s.sub.loop.Ended?
  {
    if !s.life.active || s.life.halted || s.sub.loop.ending.HaltedEnding? then
      s.(sub := s.sub.(loop := Loop.Exited))
    else
      s.(sub := s.sub.(resynced := false, loop := Head))
  }

  // ---- The public calls ----

  function Start(s: State, now: int): State {
    if s.life.started || s.life.stopRequested then s
    else
      s.(life := s.life.(started := true, active := true),
         sub := s.sub.(loop := Head),
         view := s.view.(connection :=
           if s.view.snapshot.None? then Loading(now) else ConnectedState(s.view.connection, now)))
  }

  function Stop(s: State): State {
    if s.life.stopRequested then s
    else
      s.(life := s.life.(stopRequested := true, active := false),
         sub := ReturnIterator(s.sub).(currentIterator := None))
  }

  function BeginReconcile(s: State): State {
    s.(reconciles := s.reconciles + [Reconcile(s.log.reconciles, Now(s))],
       log := s.log.(reconciles := s.log.reconciles + 1))
  }

  function LandReconcile(s: State, i: nat, result: LoadResult, now: int): State
    requires i < |s.reconciles|
  {
    var taken := s.(reconciles := s.reconciles[..i] + s.reconciles[i + 1..]);
    if s.life.stopRequested || result.Refused? then taken
    else
      var base := Base(ByReconcile, result.snapshot, s.reconciles[i].at, |s.log.delivered|);
      ApplyLoadedOutcome(taken, base, now).(chain := s.chain.(mutations := s.chain.mutations + 1))
  }

  // ---- Runs ----

  datatype Action =
    | DoStart(now: int)
    | DoStop
    | DoRefresh
    | DoBeginReconcile
    | DoLandReconcile(i: nat, result: LoadResult, now: int)
    | DoLandFlight(result: LoadResult, now: int)
    | DoDeliverEvent(event: Event)
    | DoOpenCycle
    | DoOpenCycleFails(error: SafeError, now: int)
    | DoCloseCycle(end: StreamEnd, now: int)
    | DoContinueLoop
    | DoExitLoop
    | DoContinueResync(epoch: nat)

  /** The steps of start(), stop() and the subscription loop; the others are loads, events and resyncs. */
  predicate IsCycleStep(a: Action) {
    || a.DoStart? || a.DoStop? || a.DoOpenCycle? || a.DoOpenCycleFails? || a.DoCloseCycle?
    || a.DoContinueLoop? || a.DoExitLoop?
  }

  predicate Enabled(s: State, a: Action) {
    match a
    case DoStart(_) => true
    case DoStop => true
    case DoRefresh => true
    case DoBeginReconcile => true
    case DoLandReconcile(i, _, _) => i < |s.reconciles|
    case DoLandFlight(_, _) => s.chain.flight.Some?
    case DoDeliverEvent(_) => s.sub.loop.Consuming? && s.life.active
    case DoOpenCycle => s.sub.loop.Head? && s.life.active && !s.life.halted
    case DoOpenCycleFails(_, _) => s.sub.loop.Head? && s.life.active && !s.life.halted
    case DoCloseCycle(_, _) => s.sub.loop.Consuming?
    case DoContinueLoop => s.sub.loop.Ended?
    case DoExitLoop => s.sub.loop.Head? && (!s.life.active || s.life.halted)
    case DoContinueResync(epoch) => epoch in s.sub.replies
  }

  function Step(s: State, a: Action): State
    requires Enabled(s, a)
  {
    match a
    case DoStart(now) => Start(s, now)
    case DoStop => Stop(s)
    case DoRefresh => RequestRefresh(s, Caller, RefreshCaller)
    case DoBeginReconcile => BeginReconcile(s)
    case DoLandReconcile(i, result, now) => LandReconcile(s, i, result, now)
    case DoLandFlight(result, now) => LandFlight(s, result, now)
    case DoDeliverEvent(event) => DeliverEvent(s, event)
    case DoOpenCycle => OpenCycle(s)
    case DoOpenCycleFails(error, now) => OpenCycleFails(s, error, now)
    case DoCloseCycle(end, now) => CloseCycle(s, end, now)
    case DoContinueLoop => ContinueLoop(s)
    case DoExitLoop => s.(sub := s.sub.(loop := Loop.Exited))
    case DoContinueResync(epoch) => ContinueResync(s, epoch)
  }

  /** An action that is not possible in `s` leaves it unchanged. */
  function Next(s: State, a: Action): State {
    if Enabled(s, a) then Step(s, a) else s
  }

  function Run(s: State, actions: seq<Action>): State {
    if actions == [] then s
    else Next(Run(s, actions[..|actions| - 1]), actions[|actions| - 1])
  }

  lemma {:induction false} RunSplit(s: State, first: seq<Action>, second: seq<Action>)
    ensures Run(s, first + second) == Run(Run(s, first), second)
  {
    if second == [] {
      assert first + second == first;
    } else {
      var all := first + second;
      assert all[..|all| - 1] == first + second[..|second| - 1];
      RunSplit(s, first, second[..|second| - 1]);
    }
  }
}
