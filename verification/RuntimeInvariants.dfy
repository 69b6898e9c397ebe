/** What every transition of the client runtime keeps. */
module RuntimeInvariants {
  import opened Wrappers
  import opened SnapshotReducer
  import opened RuntimeModel

  // ---- The chain on its own ----

  /** Requests still owed an answer, in the order they will get it. */
  function Owed(c: Chain): seq<Request> {
    (if c.flight.Some? then c.flight.value.requests else []) + c.pending
  }

  function AnsweredRequests(answers: seq<Answer>): (r: seq<Request>)
    ensures |r| == |answers|
  {
    seq(|answers|, i requires 0 <= i < |answers| => answers[i].request)
  }

  /** At most one load is airborne, and the chain never rests on a request. */
  ghost predicate ChainShape(c: Chain) {
    && (c.running <==> c.flight.Some?)
    && (c.flight.None? ==> c.pending == [])
    && (c.flight.Some? ==> c.flight.value.requests != [])
    && c.log.begun == c.log.landed + (if c.flight.Some? then 1 else 0)
  }

  /** Every request is answered once, in order, by a load that began after it was made. */
  ghost predicate ChainAnswers(c: Chain) {
    && c.log.asked == AnsweredRequests(c.log.answered) + Owed(c)
    && (forall i :: 0 <= i < |c.log.answered| ==>
          c.log.answered[i].request.loadsBefore < c.log.answered[i].load <= c.log.landed)
    && (c.flight.Some? ==> forall i :: 0 <= i < |c.flight.value.requests| ==>
          c.flight.value.requests[i].loadsBefore < c.log.begun)
    && (forall i :: 0 <= i < |c.pending| ==> c.pending[i].loadsBefore <= c.log.begun)
  }

  /** A load is paid for by a request or by a mutation that no earlier load was charged to. */
  ghost predicate ChainBudget(c: Chain) {
    match c.flight
    case None => c.log.begun <= c.log.calls + c.mutations
    case Some(flight) =>
      && flight.mutationsAtStart <= c.mutations
      && c.log.begun + |c.pending| <= c.log.calls + flight.mutationsAtStart
  }

  ghost predicate ChainInv(c: Chain) {
    ChainShape(c) && ChainAnswers(c) && ChainBudget(c)
  }

  lemma AskKeepsChain(c: Chain, source: Source, waiter: Waiter, at: Moment)
    requires ChainInv(c)
    ensures ChainInv(Ask(c, source, waiter, at))
  {
  }

  lemma ContinueKeepsChain(c: Chain, response: Option<Snapshot>, followUp: bool, at: Moment)
    requires ChainInv(c) && c.flight.Some?
    ensures ChainInv(Continue(c, c.flight.value, response, followUp, at))
  {
  }

  /** The ways a transition touches the chain. */
  datatype Move =
    | Stay
    | Bump
    | AskFor(source: Source, waiter: Waiter, at: Moment)
    | BumpAndAsk(source: Source, waiter: Waiter, at: Moment)
    | Land(response: Option<Snapshot>, followUp: bool, at: Moment)

  function Moved(c: Chain, move: Move): Chain {
    match move
    case Stay => c
    case Bump => c.(mutations := c.mutations + 1)
    case AskFor(source, waiter, at) => Ask(c, source, waiter, at)
    case BumpAndAsk(source, waiter, at) => Ask(c.(mutations := c.mutations + 1), source, waiter, at)
    case Land(response, followUp, at) =>
      if c.flight.Some? then Continue(c, c.flight.value, response, followUp, at) else c
  }

  lemma FlightMove(s: State, result: LoadResult, now: int) returns (move: Move)
    requires s.chain.flight.Some?
    ensures LandFlight(s, result, now).chain == Moved(s.chain, move)
  {
    var flight := s.chain.flight.value;
    var outcome := OutcomeOf(result);
    var applied := if s.life.stopRequested then s else ApplyFlightOutcome(s, flight, outcome, now);
    move := Land(ResponseOf(outcome), !applied.life.stopRequested && !applied.life.halted, Now(applied));
  }

  lemma EventMove(s: State, event: Event) returns (move: Move)
    ensures DeliverEvent(s, event).chain == Moved(s.chain, move)
  {
    if s.view.snapshot.None? {
      return Stay;
    }
    var application := ApplyEvent(s.view.snapshot.value, event);
    if !application.needsSnapshotRefresh {
      return Bump;
    }
    var noted := s.(log := s.log.(delivered := s.log.delivered + [event]));
    var swapped := Swap(noted, s.view.(snapshot := Some(application.snapshot)));
    return BumpAndAsk(Managed, Nobody, Now(swapped));
  }

  lemma FailureKeepsChain(s: State, end: StreamEnd, now: int)
    ensures CloseCycle(s, end, now).chain == s.chain
  {
  }

  lemma StepMove(s: State, a: Action) returns (move: Move)
    ensures Next(s, a).chain == Moved(s.chain, move)
  {
    move := Stay;
    if Enabled(s, a) {
      match a
      case DoStart(now) =>
      case DoStop =>
      case DoRefresh => move := AskFor(Caller, RefreshCaller, Now(s));
      case DoBeginReconcile =>
      case DoLandReconcile(i, result, now) =>
        if !s.life.stopRequested && result.Snapshotted? { move := Bump; }
      case DoLandFlight(result, now) => move := FlightMove(s, result, now);
      case DoDeliverEvent(event) => move := EventMove(s, event);
      case DoOpenCycle =>
        var epoch := s.sub.epoch + 1;
        var begun := s.(sub := BeginEpoch(s.sub).(currentIterator := Some(epoch), loop := Consuming));
        if !s.sub.resynced { move := AskFor(Managed, ResyncOf(epoch), Now(begun)); }
      case DoOpenCycleFails(error, now) => FailureKeepsChain(s.(sub := BeginEpoch(s.sub)), Threw(error), now);
      case DoCloseCycle(end, now) => FailureKeepsChain(s, end, now);
      case DoContinueLoop =>
      case DoExitLoop =>
      case DoContinueResync(epoch) =>
    }
  }

  lemma {:induction false} MovedKeepsChain(c: Chain, move: Move)
    requires ChainInv(c)
    ensures ChainInv(Moved(c, move))
  {
    match move
    case Stay =>
    case Bump =>
    case AskFor(source, waiter, at) => AskKeepsChain(c, source, waiter, at);
    case BumpAndAsk(source, waiter, at) => AskKeepsChain(c.(mutations := c.mutations + 1), source, waiter, at);
    case Land(response, followUp, at) => if c.flight.Some? { ContinueKeepsChain(c, response, followUp, at); }
  }

  lemma {:induction false} ChainNext(s: State, a: Action)
    requires ChainInv(s.chain)
    ensures ChainInv(Next(s, a).chain)
  {
    var move := StepMove(s, a);
    MovedKeepsChain(s.chain, move);
  }
}
