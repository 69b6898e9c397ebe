/** The command queue in its own form: mutable collections changed by the turns of dispatch and execution. */
module CommandQueue {
  import opened Wrappers
  import opened CommandScope
  import opened CommandModel

  class Queue {
    var dispatching: seq<Dispatching>
    var links: seq<Link>
    var scopeChains: map<string, nat>
    var pending: set<nat>
    var controllers: set<nat>
    var shuttingDown: bool
    var drains: seq<Drain>
    ghost var log: seq<Mark>

    ghost function Model(): State
      reads this
    {
      State(dispatching, links, scopeChains, pending, controllers, shuttingDown, drains, log)
    }

    constructor ()
      ensures Model() == INITIAL
    {
      dispatching, links, scopeChains, pending, controllers := [], [], map[], {}, {};
      shuttingDown, drains, log := false, [], [];
    }

    /** dispatch() up to its first await; `rejected` is the receipt given while shutting down. */
    method BeginDispatch(command: Command) returns (rejected: bool)
      modifies `dispatching
      ensures rejected == old(shuttingDown)
      ensures Model() == Dispatch(old(Model()), command)
    {
      rejected := shuttingDown;
      if !shuttingDown {
        dispatching := dispatching + [Dispatching(command, false)];
      }
    }

    /** The last turn of dispatch(): chain the execution and register it. */
    method FinishDispatch(i: nat) returns (id: nat)
      requires Enabled(Model(), DoJoinChain(i))
      modifies `dispatching, `links, `scopeChains, `pending, `controllers
      ensures id == old(|links|)
      ensures Model() == JoinChain(old(Model()), i)
    {
      var command := dispatching[i].command;
      dispatching := dispatching[..i] + dispatching[i + 1..];
      var scope := Scope(command);
      var previous := if scope in scopeChains then Some(scopeChains[scope]) else None;
      id := |links|;
      links := links + [Link(command, Waiting(previous), IsAccepted, false, false, false)];
      scopeChains := scopeChains[scope := id];
      controllers := controllers + {id};
      pending := pending + {id};
    }

    /** executeCommand() starts: the chain tail it was attached to has settled. */
    method BeginExecution(id: nat)
      requires Enabled(Model(), DoBegin(id))
      modifies `links, `log
      ensures Model() == Step(old(Model()), DoBegin(id))
    {
      links := links[id := links[id].(point := Marking)];
      log := log + [Began(id)];
    }

    /** The started status is written, which precedes the event that announces it. */
    method WriteStartedStatus(id: nat)
      requires Enabled(Model(), DoMarkStarted(id))
      modifies `links
      ensures Model() == Step(old(Model()), DoMarkStarted(id))
    {
      links := links[id := links[id].(point := Announcing, status := IsStarted)];
    }

    /** The started event is out and the handler goes to work. */
    method StartHandler(id: nat)
      requires Enabled(Model(), DoAnnounce(id))
      modifies `links
      ensures Model() == Step(old(Model()), DoAnnounce(id))
    {
      links := links[id := links[id].(point := Handling, running := true)];
    }

    /** The boundary around the handler answers: signals are checked before and after the handler's work. */
    method EndHandler(id: nat, handlerSucceeded: bool, expired: bool)
      requires id < |links| && links[id].point.Handling?
      modifies `links
      ensures Model() == Step(old(Model()),
                if expired then DoTimeOut(id) else DoHandlerEnds(id, handlerSucceeded && !old(links[id].aborted)))
    {
      if expired {
        links := links[id := links[id].(point := Closing(false), timedOut := true)];
      } else {
        var ok := handlerSucceeded && !links[id].aborted;
        links := links[id := links[id].(point := Closing(ok), running := false)];
      }
    }

    /** The terminal status write that follows the handler's result. */
    method WriteTerminalStatus(id: nat)
      requires Enabled(Model(), DoMarkTerminal(id))
      modifies `links
      ensures Model() == Step(old(Model()), DoMarkTerminal(id))
      ensures links[id].status.IsSucceeded? <==> old(links[id].point.ok)
      ensures links[id].status.IsFailed? <==> !old(links[id].point.ok)
    {
      var status := if links[id].point.ok then IsSucceeded else IsFailed;
      links := links[id := links[id].(point := Closed, status := status)];
    }

    /** The execution's promise settles, whether executeCommand() returned or threw. */
    method SettleExecution(id: nat, threw: bool)
      requires Enabled(Model(), if threw then DoThrow(id) else DoSettle(id))
      modifies `links, `log
      ensures Model() == Step(old(Model()), if threw then DoThrow(id) else DoSettle(id))
    {
      links := links[id := links[id].(point := Settled)];
      log := log + [Ended(id)];
    }

    /** `finally`: the execution is forgotten, and its scope too unless a later command has joined it. */
    method ForgetExecution(id: nat)
      requires Enabled(Model(), DoSweep(id))
      modifies `links, `scopeChains, `pending, `controllers
      ensures Model() == Step(old(Model()), DoSweep(id))
    {
      var scope := Scope(links[id].command);
      controllers := controllers - {id};
      pending := pending - {id};
      if scope in scopeChains && scopeChains[scope] == id {
        scopeChains := scopeChains - {scope};
      }
      links := links[id := links[id].(point := Swept)];
    }

    method BeginDraining()
      modifies `drains
      ensures Model() == BeginDrain(old(Model()))
    {
      drains := drains + [Look(pending)];
    }

    /** Everything this drain() saw has settled: it looks at `pending` again. */
    method ContinueDraining(d: nat)
      requires Enabled(Model(), DoContinueDrain(d))
      modifies `drains
      ensures Model() == ContinueDrain(old(Model()), d)
    {
      drains := drains[d := Look(pending)];
    }

    /** shutdown() up to its drain: every live controller is aborted, and nothing else is touched. */
    method BeginShutdown()
      requires forall id :: id in controllers ==> id < |links|
      modifies `shuttingDown, `links, `drains
      ensures Model() == Shutdown(old(Model()))
    {
      shuttingDown := true;
      ghost var before := links;
      var left := controllers;
      while left != {}
        invariant shuttingDown && drains == old(drains)
        invariant left <= controllers && |links| == |before|
        invariant forall i :: 0 <= i < |links| ==>
          links[i] == if i in controllers - left then before[i].(aborted := true) else before[i]
        decreases |left|
      {
        var id :| id in left;
        left := left - {id};
        links := links[id := links[id].(aborted := true)];
      }
      assert links == Abort(before, controllers);
      BeginDraining();
    }
  }
}
