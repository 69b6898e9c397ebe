/**
 * The command queue as a transition system: dispatch, per-scope promise chains, execution with its
 * status writes, clean-up of settled tails, drain and shutdown.
 */
module CommandModel {
  import opened Wrappers
  import opened CommandScope

  /** Program point of one chained command. `after` is the chain tail its execution was attached to. */
  datatype Point =
    | Waiting(after: Option<nat>)
    | Marking
    | Announcing
    | Handling
    | Closing(ok: bool)
    | Closed
    | Settled
    | Swept

  datatype Status = IsAccepted | IsStarted | IsSucceeded | IsFailed

  /**
   * A command that joined its chain; commands are numbered by the order in which they did. `running` says that
   * its handler is at work, which a handler may be even after its timeout has let the execution go on.
   */
  datatype Link = Link(command: Command, point: Point, status: Status, aborted: bool, running: bool, timedOut: bool)

  /** A dispatch call that still awaits persistence. */
  datatype Dispatching = Dispatching(command: Command, recorded: bool)

  /** A drain() call between two looks at `pending`. */
  datatype Drain = Drain(awaiting: set<nat>, resolved: bool)

  datatype Mark = Began(id: nat) | Ended(id: nat)

  datatype State = State(
    dispatching: seq<Dispatching>,
    links: seq<Link>,
    scopeChains: map<string, nat>,
    pending: set<nat>,
    controllers: set<nat>,
    shuttingDown: bool,
    drains: seq<Drain>,
    log: seq<Mark>)      // history: executions beginning and settling, in order

  const INITIAL := State([], [], map[], {}, {}, false, [], [])

  predicate HasBegun(point: Point) {
    !point.Waiting?
  }

  predicate HasSettled(point: Point) {
    point.Settled? || point.Swept?
  }

  function ScopeAt(s: State, id: nat): string
    requires id < |s.links|
  {
    Scope(s.links[id].command)
  }

  function At(s: State, id: nat, point: Point): State
    requires id < |s.links|
  {
    s.(links := s.links[id := s.links[id].(point := point)])
  }

  function Run(s: State, id: nat, running: bool): State
    requires id < |s.links|
  {
    s.(links := s.links[id := s.links[id].(running := running)])
  }

  function TimeOut(s: State, id: nat): State
    requires id < |s.links|
  {
    s.(links := s.links[id := s.links[id].(point := Closing(false), timedOut := true)])
  }

  function Write(s: State, id: nat, status: Status): State
    requires id < |s.links|
  {
    s.(links := s.links[id := s.links[id].(status := status)])
  }

  /** dispatch() up to its first await; while shutting down it is answered with a rejection. */
  function Dispatch(s: State, command: Command): State {
    if s.shuttingDown then s else s.(dispatching := s.dispatching + [Dispatching(command, false)])
  }

  function RecordAccepted(s: State, i: nat): State
    requires i < |s.dispatching|
  {
    s.(dispatching := s.dispatching[i := s.dispatching[i].(recorded := true)])
  }

  /** The rest of dispatch(), in one turn: attach to the chain of the scope and become its tail. */
  function JoinChain(s: State, i: nat): State
    requires i < |s.dispatching|
  {
    var command := s.dispatching[i].command;
    var scope, id := Scope(command), |s.links|;
    var previous := if scope in s.scopeChains then Some(s.scopeChains[scope]) else None;
    s.(dispatching := s.dispatching[..i] + s.dispatching[i + 1..],
       links := s.links + [Link(command, Waiting(previous), IsAccepted, false, false, false)],
       scopeChains := s.scopeChains[scope := id],
       pending := s.pending + {id},
       controllers := s.controllers + {id})
  }

  function DispatchFails(s: State, i: nat): State
    requires i < |s.dispatching|
  {
    s.(dispatching := s.dispatching[..i] + s.dispatching[i + 1..])
  }

  function Begin(s: State, id: nat): State
    requires id < |s.links|
  {
    At(s, id, Marking).(log := s.log + [Began(id)])
  }

  function Settle(s: State, id: nat): State
    requires id < |s.links|
  {
    At(s, id, Settled).(log := s.log + [Ended(id)])
  }

  /** The `finally` of a settled execution: forget it, and its chain if it is still the tail. */
  function Sweep(s: State, id: nat): State
    requires id < |s.links|
  {
    var scope := ScopeAt(s, id);
    At(s, id, Swept).(
      pending := s.pending - {id},
      controllers := s.controllers - {id},
      scopeChains := if scope in s.scopeChains && s.scopeChains[scope] == id then s.scopeChains - {scope}
                     else s.scopeChains)
  }

  /** drain() begins or looks again: it resolves on an empty pending set and otherwise awaits what it sees. */
  function Look(pending: set<nat>): Drain {
    Drain(pending, pending == {})
  }

  function BeginDrain(s: State): State {
    s.(drains := s.drains + [Look(s.pending)])
  }

  function ContinueDrain(s: State, d: nat): State
    requires d < |s.drains|
  {
    s.(drains := s.drains[d := Look(s.pending)])
  }

  function Abort(links: seq<Link>, ids: set<nat>): (r: seq<Link>)
    ensures |r| == |links|
  {
    seq(|links|, i requires 0 <= i < |links| => if i in ids then links[i].(aborted := true) else links[i])
  }

  function Shutdown(s: State): State {
    BeginDrain(s.(shuttingDown := true, links := Abort(s.links, s.controllers)))
  }

  datatype Action =
    | DoDispatch(command: Command)
    | DoRecordAccepted(i: nat)
    | DoJoinChain(i: nat)
    | DoDispatchFails(i: nat)
    | DoBegin(id: nat)
    | DoMarkStarted(id: nat)
    | DoAnnounce(id: nat)
    | DoHandlerEnds(id: nat, ok: bool)
    | DoTimeOut(id: nat)
    | DoHandlerReturns(id: nat)
    | DoMarkTerminal(id: nat)
    | DoSettle(id: nat)
    | DoThrow(id: nat)
    | DoSweep(id: nat)
    | DoDrain
    | DoContinueDrain(d: nat)
    | DoShutdown

  predicate Enabled(s: State, a: Action) {
    match a
    case DoDispatch(_) => true
    case DoRecordAccepted(i) => i < |s.dispatching| && !s.dispatching[i].recorded
    case DoJoinChain(i) => i < |s.dispatching| && s.dispatching[i].recorded
    case DoDispatchFails(i) => i < |s.dispatching|
    case DoBegin(id) =>
      id < |s.links| && s.links[id].point.Waiting? &&
      (s.links[id].point.after.None? ||
       (s.links[id].point.after.value < |s.links| && HasSettled(s.links[s.links[id].point.after.value].point)))
    case DoMarkStarted(id) => id < |s.links| && s.links[id].point.Marking?
    case DoAnnounce(id) => id < |s.links| && s.links[id].point.Announcing?
    case DoHandlerEnds(id, ok) => id < |s.links| && s.links[id].point.Handling? && (ok ==> !s.links[id].aborted)
    case DoTimeOut(id) => id < |s.links| && s.links[id].point.Handling?
    case DoHandlerReturns(id) => id < |s.links| && s.links[id].running && !s.links[id].point.Handling?
    case DoMarkTerminal(id) => id < |s.links| && s.links[id].point.Closing?
    case DoSettle(id) => id < |s.links| && s.links[id].point.Closed?
    case DoThrow(id) =>
      id < |s.links| && (s.links[id].point.Marking? || s.links[id].point.Announcing? ||
                         s.links[id].point.Closing? || s.links[id].point.Closed?)
    case DoSweep(id) => id < |s.links| && s.links[id].point.Settled?
    case DoDrain => true
    case DoContinueDrain(d) =>
      d < |s.drains| && !s.drains[d].resolved &&
      forall id :: id in s.drains[d].awaiting ==> id < |s.links| && HasSettled(s.links[id].point)
    case DoShutdown => true
  }

  function Step(s: State, a: Action): State
    requires Enabled(s, a)
  {
    match a
    case DoDispatch(command) => Dispatch(s, command)
    case DoRecordAccepted(i) => RecordAccepted(s, i)
    case DoJoinChain(i) => JoinChain(s, i)
    case DoDispatchFails(i) => DispatchFails(s, i)
    case DoBegin(id) => Begin(s, id)
    case DoMarkStarted(id) => Write(At(s, id, Announcing), id, IsStarted)
    case DoAnnounce(id) => Run(At(s, id, Handling), id, true)
    case DoHandlerEnds(id, ok) => Run(At(s, id, Closing(ok)), id, false)
    case DoTimeOut(id) => TimeOut(s, id)
    case DoHandlerReturns(id) => Run(s, id, false)
    case DoMarkTerminal(id) => Write(At(s, id, Closed), id, if s.links[id].point.ok then IsSucceeded else IsFailed)
    case DoSettle(id) => Settle(s, id)
    case DoThrow(id) => Settle(s, id)
    case DoSweep(id) => Sweep(s, id)
    case DoDrain => BeginDrain(s)
    case DoContinueDrain(d) => ContinueDrain(s, d)
    case DoShutdown => Shutdown(s)
  }

  function Next(s: State, a: Action): State {
    if Enabled(s, a) then Step(s, a) else s
  }

  function RunFrom(s: State, actions: seq<Action>): State {
    if actions == [] then s
    else Next(RunFrom(s, actions[..|actions| - 1]), actions[|actions| - 1])
  }
}
