/** What is recorded of a command, told from what its handler did. */
module CommandOutcomes {
  import opened CommandScope
  import opened CommandModel
  import opened CommandTheorems

  /** The run takes this step at some point at which it is possible. */
  predicate Did(actions: seq<Action>, a: Action) {
    actions != [] &&
    var init, last := actions[..|actions| - 1], actions[|actions| - 1];
    Did(init, a) || (last == a && Enabled(RunFrom(INITIAL, init), a))
  }

  lemma {:induction false} DidOneMore(actions: seq<Action>, last: Action, a: Action)
    ensures Did(actions + [last], a) <==> Did(actions, a) || (last == a && Enabled(RunFrom(INITIAL, actions), a))
  {
    assert (actions + [last])[..|actions|] == actions;
  }

  predicate IsTerminal(status: Status) {
    status.IsSucceeded? || status.IsFailed?
  }

  /** The link of a command whose handler has `succeeded` or not, and whose end has been `written` or not. */
  predicate RecordsOutcome(link: Link, succeeded: bool, written: bool) {
    && (link.point.Waiting? || link.point.Marking? || link.point.Announcing? || link.point.Handling? ==>
          !succeeded && !written)
    && (link.point.Closing? ==> (succeeded <==> link.point.ok) && !written)
    && (link.point.Closed? ==> written)
    && (written <==> IsTerminal(link.status))
    && (written ==> (link.status.IsSucceeded? <==> succeeded))
  }

  /** Likewise for a command by its number; one that has not joined a chain yet has done nothing. */
  predicate Records(s: State, id: nat, succeeded: bool, written: bool) {
    if id < |s.links| then RecordsOutcome(s.links[id], succeeded, written) else !succeeded && !written
  }

  lemma OutcomeLink(s: State, a: Action, succeeded: bool, written: bool)
    requires IsLinkStep(a) && Enabled(s, a) && a.id < |s.links| && StatusOk(s.links[a.id])
    requires RecordsOutcome(s.links[a.id], succeeded, written)
    ensures RecordsOutcome(
              Step(s, a).links[a.id], succeeded || a == DoHandlerEnds(a.id, true), written || a == DoMarkTerminal(a.id))
  {
  }

  lemma {:induction false} OutcomeNext(s: State, a: Action, id: nat, succeeded: bool, written: bool)
    requires StatusInv(s) && Records(s, id, succeeded, written)
    ensures Records(Next(s, a), id,
                    succeeded || (a == DoHandlerEnds(id, true) && Enabled(s, a)),
                    written || (a == DoMarkTerminal(id) && Enabled(s, a)))
  {
    if Enabled(s, a) {
      if IsLinkStep(a) {
        OnlyItsLink(s, a);
        if a.id == id { OutcomeLink(s, a, succeeded, written); }
      } else {
        LinksElsewhere(s, a);
      }
    }
  }

  lemma {:induction false} OutcomeFrom(actions: seq<Action>, id: nat)
    ensures Records(RunFrom(INITIAL, actions), id, Did(actions, DoHandlerEnds(id, true)), Did(actions, DoMarkTerminal(id)))
  {
    if actions == [] {
    } else {
      var init, a := actions[..|actions| - 1], actions[|actions| - 1];
      OutcomeFrom(init, id);
      StatusFrom(init);
      OutcomeNext(RunFrom(INITIAL, init), a, id, Did(init, DoHandlerEnds(id, true)), Did(init, DoMarkTerminal(id)));
    }
  }

  /**
   * In every run a command's record is terminal if and only if its end was written, and then it says succeeded if and
   * only if the handler returned in time, with its signal not aborted; a failure or a timeout is recorded as failed.
   */
  lemma {:induction false} SucceedsIff(actions: seq<Action>, id: nat)
    requires id < |RunFrom(INITIAL, actions).links|
    ensures var status := RunFrom(INITIAL, actions).links[id].status;
            && (status.IsSucceeded? || status.IsFailed? <==> Did(actions, DoMarkTerminal(id)))
            && (status.IsSucceeded? <==> Did(actions, DoMarkTerminal(id)) && Did(actions, DoHandlerEnds(id, true)))
  {
    OutcomeFrom(actions, id);
  }

  /** A handler that returns in time, with its signal not aborted, lets its end be written next, as succeeded. */
  lemma {:induction false} SuccessIsWritten(actions: seq<Action>, id: nat)
    requires Enabled(RunFrom(INITIAL, actions), DoHandlerEnds(id, true))
    ensures var t := RunFrom(INITIAL, actions + [DoHandlerEnds(id, true)] + [DoMarkTerminal(id)]);
            id < |t.links| && t.links[id].status.IsSucceeded?
  {
    var first, a, b := actions + [DoHandlerEnds(id, true)], DoHandlerEnds(id, true), DoMarkTerminal(id);
    RunSnoc(actions, a);
    RunSnoc(first, b);
    DidOneMore(actions, a, a);
    DidOneMore(first, b, a);
    DidOneMore(first, b, b);
    OutcomeFrom(first, id);
    OnlyItsLink(RunFrom(INITIAL, actions), a);
    assert Enabled(RunFrom(INITIAL, first), b);
    OnlyItsLink(RunFrom(INITIAL, first), b);
    SucceedsIff(first + [b], id);
  }

  // ---- Signals ----

  ghost predicate AbortInv(s: State) {
    forall i :: 0 <= i < |s.links| && s.links[i].aborted ==> s.shuttingDown
  }

  lemma SignalLink(s: State, a: Action)
    requires IsLinkStep(a) && Enabled(s, a) && a.id < |s.links|
    ensures Step(s, a).links[a.id].aborted == s.links[a.id].aborted && Step(s, a).shuttingDown == s.shuttingDown
  {
  }

  lemma AbortedNext(s: State, a: Action)
    requires AbortInv(s)
    ensures AbortInv(Next(s, a))
  {
    if Enabled(s, a) && IsLinkStep(a) {
      OnlyItsLink(s, a);
      SignalLink(s, a);
    }
  }

  lemma {:induction false} AbortedFrom(actions: seq<Action>)
    ensures AbortInv(RunFrom(INITIAL, actions))
  {
    if actions == [] {
    } else {
      AbortedFrom(actions[..|actions| - 1]);
      AbortedNext(RunFrom(INITIAL, actions[..|actions| - 1]), actions[|actions| - 1]);
    }
  }

  /** Signals are aborted by a shutdown and by nothing else, and it aborts those of all commands that it has to wait for. */
  lemma {:induction false} AbortedOnlyByShutdown(actions: seq<Action>, id: nat)
    requires id < |RunFrom(INITIAL, actions).links|
    ensures var s := RunFrom(INITIAL, actions);
            && (s.links[id].aborted ==> s.shuttingDown)
            && Shutdown(s).links[id].aborted == (s.links[id].aborted || id in s.pending)
  {
    AbortedFrom(actions);
    var s := Reached(actions);
  }

  // ---- Handlers at work ----

  /** The handler was called, and has neither returned in time nor later. */
  predicate IsAtWork(actions: seq<Action>, id: nat) {
    actions != [] &&
    var init, last := actions[..|actions| - 1], actions[|actions| - 1];
    if !Enabled(RunFrom(INITIAL, init), last) then IsAtWork(init, id)
    else if last == DoAnnounce(id) then true
    else if last == DoHandlerReturns(id) || (last.DoHandlerEnds? && last.id == id) then false
    else IsAtWork(init, id)
  }

  predicate TellsHandler(s: State, id: nat, working: bool, timedOut: bool) {
    if id < |s.links| then s.links[id].running == working && s.links[id].timedOut == timedOut else !working && !timedOut
  }

  lemma HandlerStep(s: State, a: Action)
    requires IsLinkStep(a) && Enabled(s, a) && a.id < |s.links|
    ensures Step(s, a).links[a.id].running ==
            if a.DoAnnounce? then true else if a.DoHandlerEnds? || a.DoHandlerReturns? then false else s.links[a.id].running
    ensures Step(s, a).links[a.id].timedOut == (s.links[a.id].timedOut || a.DoTimeOut?)
  {
  }

  lemma {:induction false} HandlerFollows(s: State, a: Action, id: nat, working: bool, timedOut: bool)
    requires Enabled(s, a) && TellsHandler(s, id, working, timedOut)
    ensures TellsHandler(Step(s, a), id,
              if a == DoAnnounce(id) then true
              else if a == DoHandlerReturns(id) || (a.DoHandlerEnds? && a.id == id) then false else working,
              timedOut || a == DoTimeOut(id))
  {
    if IsLinkStep(a) {
      OnlyItsLink(s, a);
      HandlerStep(s, a);
    } else {
      LinksElsewhere(s, a);
    }
  }

  /** A handler counts as at work exactly from its call to its return, and as timed out exactly after its timeout. */
  lemma {:induction false} AtWorkIff(actions: seq<Action>, id: nat)
    ensures TellsHandler(RunFrom(INITIAL, actions), id, IsAtWork(actions, id), Did(actions, DoTimeOut(id)))
  {
    if actions == [] {
    } else {
      var init, a := actions[..|actions| - 1], actions[|actions| - 1];
      AtWorkIff(init, id);
      var s := RunFrom(INITIAL, init);
      if Enabled(s, a) { HandlerFollows(s, a, id, IsAtWork(init, id), Did(init, DoTimeOut(id))); }
    }
  }

  // ---- Dispatches and drains ----

  /** The command of a dispatch that is not turned down... */
  function Taken(s: State, a: Action): multiset<Command> {
    if a.DoDispatch? && !s.shuttingDown then multiset{a.command} else multiset{}
  }

  /** ...and of one that fails before it joins a chain. */
  function Failing(s: State, a: Action): multiset<Command> {
    if a.DoDispatchFails? && Enabled(s, a) then multiset{s.dispatching[a.i].command} else multiset{}
  }

  function Dispatched(actions: seq<Action>): multiset<Command> {
    if actions == [] then multiset{}
    else
      var init := actions[..|actions| - 1];
      Dispatched(init) + Taken(RunFrom(INITIAL, init), actions[|actions| - 1])
  }

  function Lost(actions: seq<Action>): multiset<Command> {
    if actions == [] then multiset{}
    else
      var init := actions[..|actions| - 1];
      Lost(init) + Failing(RunFrom(INITIAL, init), actions[|actions| - 1])
  }

  function CommandsOf(dispatching: seq<Dispatching>): (r: seq<Command>)
    ensures |r| == |dispatching|
  {
    seq(|dispatching|, i requires 0 <= i < |dispatching| => dispatching[i].command)
  }

  function Joined(links: seq<Link>): (r: seq<Command>)
    ensures |r| == |links|
  {
    seq(|links|, i requires 0 <= i < |links| => links[i].command)
  }

  function Held(s: State): multiset<Command> {
    multiset(CommandsOf(s.dispatching)) + multiset(Joined(s.links))
  }

  predicate Balances(s: State, a: Action, t: State) {
    Held(t) + Failing(s, a) == Held(s) + Taken(s, a)
  }

  lemma {:induction false} WithoutOne(dispatching: seq<Dispatching>, i: nat)
    requires i < |dispatching|
    ensures multiset(CommandsOf(dispatching[..i] + dispatching[i + 1..])) + multiset{dispatching[i].command} ==
            multiset(CommandsOf(dispatching))
  {
    var all := CommandsOf(dispatching);
    assert all == all[..i] + [all[i]] + all[i + 1..];
    assert CommandsOf(dispatching[..i] + dispatching[i + 1..]) == all[..i] + all[i + 1..];
  }

  lemma LinkStepKeepsCommand(s: State, a: Action)
    requires IsLinkStep(a) && Enabled(s, a) && a.id < |s.links|
    ensures Step(s, a).links[a.id].command == s.links[a.id].command
  {
  }

  lemma LinkStepKeepsCalls(s: State, a: Action)
    requires IsLinkStep(a) && Enabled(s, a)
    ensures Step(s, a).dispatching == s.dispatching && Step(s, a).drains == s.drains
  {
  }

  lemma {:induction false} LinkStepBalances(s: State, a: Action)
    requires IsLinkStep(a) && Enabled(s, a)
    ensures Balances(s, a, Step(s, a))
  {
    OnlyItsLink(s, a);
    LinkStepKeepsCommand(s, a);
    LinkStepKeepsCalls(s, a);
    assert Joined(Step(s, a).links) == Joined(s.links);
  }

  lemma {:induction false} DispatchBalances(s: State, a: Action)
    requires a.DoDispatch?
    ensures Balances(s, a, Dispatch(s, a.command))
  {
    if !s.shuttingDown {
      assert CommandsOf(Dispatch(s, a.command).dispatching) == CommandsOf(s.dispatching) + [a.command];
    }
  }

  lemma {:induction false} JoinBalances(s: State, a: Action)
    requires a.DoJoinChain? && Enabled(s, a)
    ensures Balances(s, a, JoinChain(s, a.i))
  {
    WithoutOne(s.dispatching, a.i);
    assert Joined(JoinChain(s, a.i).links) == Joined(s.links) + [s.dispatching[a.i].command];
  }

  lemma {:induction false} FailureBalances(s: State, a: Action)
    requires a.DoDispatchFails? && Enabled(s, a)
    ensures Balances(s, a, DispatchFails(s, a.i))
  {
    WithoutOne(s.dispatching, a.i);
  }

  lemma {:induction false} OthersBalance(s: State, a: Action)
    requires a.DoRecordAccepted? || a.DoDrain? || a.DoContinueDrain? || a.DoShutdown?
    requires Enabled(s, a)
    ensures Balances(s, a, Step(s, a))
  {
    assert CommandsOf(Step(s, a).dispatching) == CommandsOf(s.dispatching);
    assert Joined(Step(s, a).links) == Joined(s.links);
  }

  lemma {:induction false} StepBalances(s: State, a: Action)
    ensures Balances(s, a, Next(s, a))
  {
    if !Enabled(s, a) {
    } else if IsLinkStep(a) {
      LinkStepBalances(s, a);
    } else if a.DoDispatch? {
      DispatchBalances(s, a);
    } else if a.DoJoinChain? {
      JoinBalances(s, a);
    } else if a.DoDispatchFails? {
      FailureBalances(s, a);
    } else {
      OthersBalance(s, a);
    }
  }

  lemma AddUp(d: multiset<Command>, l: multiset<Command>, h: multiset<Command>, g: multiset<Command>,
              taken: multiset<Command>, failing: multiset<Command>)
    requires d == h + l && g + failing == h + taken
    ensures d + taken == g + (l + failing)
  {
    assert d + taken == (h + taken) + l;
    assert (g + failing) + l == g + (l + failing);
  }

  /** No dispatch is lost: each that was taken awaits persistence, is in its chain, or has failed, with its command. */
  lemma {:induction false} DispatchesAreAccountedFor(actions: seq<Action>)
    ensures Dispatched(actions) == Held(RunFrom(INITIAL, actions)) + Lost(actions)
  {
    if actions == [] {
    } else {
      var init, a := actions[..|actions| - 1], actions[|actions| - 1];
      var s := RunFrom(INITIAL, init);
      DispatchesAreAccountedFor(init);
      StepBalances(s, a);
      AddUp(Dispatched(init), Lost(init), Held(s), Held(Next(s, a)), Taken(s, a), Failing(s, a));
    }
  }

  /** How often drain() and shutdown() were called. */
  function DrainCalls(actions: seq<Action>): nat {
    if actions == [] then 0
    else DrainCalls(actions[..|actions| - 1]) +
         if actions[|actions| - 1].DoDrain? || actions[|actions| - 1].DoShutdown? then 1 else 0
  }

  lemma {:induction false} DrainsStep(s: State, a: Action)
    ensures var t := Next(s, a);
            && |t.drains| == |s.drains| + (if a.DoDrain? || a.DoShutdown? then 1 else 0)
            && (forall d :: 0 <= d < |s.drains| && s.drains[d].resolved ==> t.drains[d] == s.drains[d])
            && (forall d :: |s.drains| <= d < |t.drains| ==> t.drains[d] == Drain(s.pending, s.pending == {}))
  {
    if Enabled(s, a) && IsLinkStep(a) {
      LinkStepKeepsCalls(s, a);
    }
  }

  /** Every call of drain() or shutdown() has its own drain. */
  lemma {:induction false} EveryCallDrains(actions: seq<Action>)
    ensures |RunFrom(INITIAL, actions).drains| == DrainCalls(actions)
  {
    if actions == [] {
    } else {
      EveryCallDrains(actions[..|actions| - 1]);
      DrainsStep(RunFrom(INITIAL, actions[..|actions| - 1]), actions[|actions| - 1]);
    }
  }

  /** And it starts by awaiting everything that is pending then; a drain that resolved stays so. */
  lemma {:induction false} DrainAwaitsThePending(actions: seq<Action>, a: Action, d: nat)
    requires d < |RunFrom(INITIAL, actions + [a]).drains|
    ensures var s, t := RunFrom(INITIAL, actions), RunFrom(INITIAL, actions + [a]);
            if d < |s.drains| then s.drains[d].resolved ==> t.drains[d].resolved
            else t.drains[d].awaiting == s.pending && (t.drains[d].resolved <==> s.pending == {})
  {
    RunSnoc(actions, a);
    DrainsStep(RunFrom(INITIAL, actions), a);
  }
}
