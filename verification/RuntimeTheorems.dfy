/** The guarantees of the client runtime over every run. */
module RuntimeTheorems {
  import opened Wrappers
  import opened SafeErrors
  import opened SnapshotReducer
  import opened RuntimeModel
  import opened RuntimeFrames
  import opened RuntimeInvariants
  import opened RuntimeResync
  import opened RuntimeStream

  ghost predicate Inv(s: State) {
    ChainInv(s.chain) && LoopInv(s) && EpochInv(s) && ResyncInv(s) && StreamInv(s)
  }

  lemma InitialInv(initial: Option<Snapshot>)
    ensures Inv(InitialState(initial))
  {
  }

  lemma {:induction false} InvNext(s: State, a: Action)
    requires Inv(s)
    ensures Inv(Next(s, a))
  {
    ChainNext(s, a);
    LoopNext(s, a);
    EpochNext(s, a);
    ResyncNext(s, a);
    StreamNext(s, a);
  }

  lemma {:induction false} RunInv(s: State, actions: seq<Action>)
    requires Inv(s)
    ensures Inv(Run(s, actions))
  {
    if actions == [] {
    } else {
      RunInv(s, actions[..|actions| - 1]);
      InvNext(Run(s, actions[..|actions| - 1]), actions[|actions| - 1]);
    }
  }

  lemma Reached(initial: Option<Snapshot>, actions: seq<Action>) returns (s: State)
    ensures s == Run(InitialState(initial), actions) && Inv(s)
  {
    InitialInv(initial);
    RunInv(InitialState(initial), actions);
    s := Run(InitialState(initial), actions);
  }

  lemma RunOneMore(s: State, actions: seq<Action>, a: Action)
    ensures Run(s, actions + [a]) == Next(Run(s, actions), a)
  {
  }

  // ---- Single flight ----

  /**
   * One load at a time; requests are answered once, in the order they were made, each by a load that
   * began after it; and no more loads begin than requests and mutations pay for.
   */
  lemma {:induction false} SingleFlight(initial: Option<Snapshot>, actions: seq<Action>)
    ensures var c := Run(InitialState(initial), actions).chain;
            && c.log.begun - c.log.landed == (if c.flight.Some? then 1 else 0)
            && c.log.asked == AnsweredRequests(c.log.answered) + Owed(c)
            && (forall i :: 0 <= i < |c.log.answered| ==>
                  c.log.answered[i].request.loadsBefore < c.log.answered[i].load <= c.log.landed)
            && (c.flight.None? ==> Owed(c) == [])
            && c.log.begun <= c.log.calls + c.mutations
  {
    var s := Reached(initial, actions);
  }

  // ---- No subscription parks unsynced ----

  lemma NoSubscriptionParksUnsynced(initial: Option<Snapshot>, actions: seq<Action>)
    ensures var s := Run(InitialState(initial), actions);
            s.life.active && s.sub.activeEpoch.Some? ==>
              var epoch := s.sub.activeEpoch.value;
              if s.life.halted then epoch in s.sub.returned
              else Synced(s, epoch) || ResyncOwed(s, epoch) || Condemned(s, epoch)
  {
    var s := Reached(initial, actions);
  }

  // ---- Entering `connected` ----

  /** The only transitions into `connected`. */
  lemma WaysIntoConnected(s: State, a: Action)
    requires !s.view.connection.Connected? && Next(s, a).view.connection.Connected?
    ensures || (a.DoStart? && s.view.snapshot.Some? && !s.life.started)
            || (a.DoLandFlight? && s.chain.flight.Some? && a.result.Snapshotted? &&
                SubscribedThroughout(s, s.chain.flight.value.at.epoch))
            || (a.DoLandReconcile? && a.i < |s.reconciles| && a.result.Snapshotted? &&
                SubscribedThroughout(s, s.reconciles[a.i].at.epoch))
  {
  }

  lemma {:induction false} EpochStepInCycle(s: State, a: Action)
    requires IsCycleStep(a)
    requires LoopInv(s)
    ensures var t := Next(s, a);
            && s.sub.epoch <= t.sub.epoch
            && (t.sub.activeEpoch.Some? && t.sub.activeEpoch != s.sub.activeEpoch ==>
                  s.sub.epoch < t.sub.activeEpoch.value == t.sub.epoch)
  {
    if Enabled(s, a) {
      match a
      case DoOpenCycle => OpenFrame(s);
      case DoOpenCycleFails(error, now) => CloseFrame(s.(sub := BeginEpoch(s.sub)), Threw(error), now);
      case DoCloseCycle(end, now) => CloseFrame(s, end, now);
      case _ =>
    }
  }

  lemma {:induction false} EpochStepElsewhere(s: State, a: Action)
    requires !IsCycleStep(a)
    requires LoopInv(s)
    ensures var t := Next(s, a);
            && s.sub.epoch <= t.sub.epoch
            && (t.sub.activeEpoch.Some? && t.sub.activeEpoch != s.sub.activeEpoch ==>
                  s.sub.epoch < t.sub.activeEpoch.value == t.sub.epoch)
  {
    if Enabled(s, a) {
      match a
      case DoLandFlight(result, now) =>
        FlightFrame(s, result, now);
        OutcomeFrame(s, s.chain.flight.value, OutcomeOf(result), now);
      case DoRefresh => RequestFrame(s, Caller, RefreshCaller);
      case DoDeliverEvent(event) => EventFrame(s, event);
      case DoLandReconcile(i, result, now) => ReconcileFrame(s, i, result, now);
      case _ =>
    }
  }

  lemma {:induction false} EpochStep(s: State, a: Action)
    requires LoopInv(s)
    ensures var t := Next(s, a);
            && s.sub.epoch <= t.sub.epoch
            && (t.sub.activeEpoch.Some? && t.sub.activeEpoch != s.sub.activeEpoch ==>
                  s.sub.epoch < t.sub.activeEpoch.value == t.sub.epoch)
  {
    if IsCycleStep(a) { EpochStepInCycle(s, a); } else { EpochStepElsewhere(s, a); }
  }

  /** An epoch that was left never comes back. */
  lemma {:induction false} EpochIsNeverReused(s: State, actions: seq<Action>, epoch: nat)
    requires Inv(s) && epoch <= s.sub.epoch && s.sub.activeEpoch != Some(epoch)
    ensures var t := Run(s, actions); epoch <= t.sub.epoch && t.sub.activeEpoch != Some(epoch)
  {
    if actions == [] {
    } else {
      var init := actions[..|actions| - 1];
      EpochIsNeverReused(s, init, epoch);
      RunInv(s, init);
      EpochStep(Run(s, init), actions[|actions| - 1]);
    }
  }

  /** An epoch live at the start and at the end of a stretch was live at every point of it. */
  lemma {:induction false} EpochSpans(s: State, actions: seq<Action>, epoch: nat, k: nat)
    requires Inv(s) && s.sub.activeEpoch == Some(epoch)
    requires Run(s, actions).sub.activeEpoch == Some(epoch) && k <= |actions|
    ensures Run(s, actions[..k]).sub.activeEpoch == Some(epoch)
  {
    var mid := Run(s, actions[..k]);
    RunInv(s, actions[..k]);
    EpochGrows(s, actions[..k]);
    assert actions[..k] + actions[k..] == actions;
    RunSplit(s, actions[..k], actions[k..]);
    if mid.sub.activeEpoch != Some(epoch) {
      EpochIsNeverReused(mid, actions[k..], epoch);
    }
  }

  lemma {:induction false} EpochGrows(s: State, actions: seq<Action>)
    requires Inv(s)
    ensures s.sub.epoch <= Run(s, actions).sub.epoch
  {
    if actions == [] {
    } else {
      var init := actions[..|actions| - 1];
      EpochGrows(s, init);
      RunInv(s, init);
      EpochStep(Run(s, init), actions[|actions| - 1]);
    }
  }

  /** A load airborne after a step is the one from before, or it began in this very step under the epoch it remembers. */
  ghost predicate SameOrNewFlight(s: State, t: State) {
    t.chain.flight.Some? ==>
      || (t.chain.flight == s.chain.flight && t.chain.log.begun == s.chain.log.begun)
      || (&& t.chain.log.begun == s.chain.log.begun + 1 && t.chain.flight.value.at.epoch == t.sub.activeEpoch
          && t.chain.flight.value.mutationsAtStart == t.chain.mutations)
  }

  lemma FlightAfterFlight(s: State, result: LoadResult, now: int)
    requires s.chain.flight.Some?
    ensures SameOrNewFlight(s, LandFlight(s, result, now))
  {
  }

  lemma {:induction false} FlightStepInCycle(s: State, a: Action)
    requires IsCycleStep(a)
    requires Inv(s)
    ensures SameOrNewFlight(s, Next(s, a))
  {
    if Enabled(s, a) {
      match a
      case DoOpenCycle => OpenFrame(s);
      case DoOpenCycleFails(error, now) => CloseFrame(s.(sub := BeginEpoch(s.sub)), Threw(error), now);
      case DoCloseCycle(end, now) => CloseFrame(s, end, now);
      case _ =>
    }
  }

  lemma {:induction false} FlightStepElsewhere(s: State, a: Action)
    requires !IsCycleStep(a)
    requires Inv(s)
    ensures SameOrNewFlight(s, Next(s, a))
  {
    if Enabled(s, a) {
      match a
      case DoLandFlight(result, now) => FlightAfterFlight(s, result, now);
      case DoRefresh => RequestFrame(s, Caller, RefreshCaller);
      case DoDeliverEvent(event) => EventFrame(s, event);
      case DoLandReconcile(i, result, now) => ReconcileFrame(s, i, result, now);
      case _ =>
    }
  }

  lemma {:induction false} FlightStep(s: State, a: Action)
    requires Inv(s)
    ensures SameOrNewFlight(s, Next(s, a))
  {
    if IsCycleStep(a) { FlightStepInCycle(s, a); } else { FlightStepElsewhere(s, a); }
  }

  /** `k` is the length of the shortest prefix after which the load now airborne had begun. */
  ghost predicate LoadBeganAt(s: State, actions: seq<Action>, k: nat) {
    && 0 < k <= |actions|
    && Run(s, actions[..k]).chain.log.begun == Run(s, actions).chain.log.begun
    && Run(s, actions[..k - 1]).chain.log.begun + 1 == Run(s, actions).chain.log.begun
  }

  lemma {:induction false} FlightBegan(initial: Option<Snapshot>, actions: seq<Action>) returns (k: nat)
    requires Run(InitialState(initial), actions).chain.flight.Some?
    ensures LoadBeganAt(InitialState(initial), actions, k)
    ensures var flight := Run(InitialState(initial), actions).chain.flight.value;
            var begun := Run(InitialState(initial), actions[..k]);
            begun.sub.activeEpoch == flight.at.epoch && begun.chain.mutations == flight.mutationsAtStart
  {
    var s0 := InitialState(initial);
    var n := |actions|;
    var init := actions[..n - 1];
    var before := Reached(initial, init);
    FlightStep(before, actions[n - 1]);
    assert actions[..n] == actions;
    if Run(s0, actions).chain.log.begun == before.chain.log.begun {
      k := FlightBegan(initial, init);
      assert init[..k] == actions[..k] && init[..k - 1] == actions[..k - 1];
    } else {
      k := n;
    }
  }

  /** The same for a reconcile() call, recognised by its ordinal. */
  ghost predicate ReconcileBeganAt(s: State, actions: seq<Action>, ordinal: nat, k: nat) {
    && 0 < k <= |actions|
    && Run(s, actions[..k]).log.reconciles == ordinal + 1
    && Run(s, actions[..k - 1]).log.reconciles == ordinal
  }

  /** The index a call had before the step, if it had begun. */
  lemma ReconcileStep(s: State, a: Action, i: nat) returns (j: Option<nat>)
    requires Inv(s) && i < |Next(s, a).reconciles|
    ensures var t := Next(s, a); var call := t.reconciles[i];
            match j
            case Some(before) => before < |s.reconciles| && s.reconciles[before] == call
            case None =>
              && call.ordinal == s.log.reconciles && t.log.reconciles == s.log.reconciles + 1
              && call.at.epoch == t.sub.activeEpoch
  {
    var t := Next(s, a);
    if t.reconciles == s.reconciles {
      j := Some(i);
    } else if a.DoLandReconcile? {
      ReconcileFrame(s, a.i, a.result, a.now);
      j := Some(if i < a.i then i else i + 1);
    } else {
      ReconcilesElsewhere(s, a);
      j := if i < |s.reconciles| then Some(i) else None;
    }
  }

  lemma ReconcilesElsewhere(s: State, a: Action)
    requires Inv(s) && !a.DoLandReconcile?
    ensures if a.DoBeginReconcile? then Next(s, a) == BeginReconcile(s) else Next(s, a).reconciles == s.reconciles
  {
  }

  lemma {:induction false} ReconcileBegan(initial: Option<Snapshot>, actions: seq<Action>, i: nat) returns (k: nat)
    requires i < |Run(InitialState(initial), actions).reconciles|
    ensures var call := Run(InitialState(initial), actions).reconciles[i];
            && ReconcileBeganAt(InitialState(initial), actions, call.ordinal, k)
            && Run(InitialState(initial), actions[..k]).sub.activeEpoch == call.at.epoch
  {
    var s0 := InitialState(initial);
    var n := |actions|;
    var init := actions[..n - 1];
    var before := Reached(initial, init);
    var j := ReconcileStep(before, actions[n - 1], i);
    assert actions[..n] == actions;
    if j.Some? {
      k := ReconcileBegan(initial, init, j.value);
      assert init[..k] == actions[..k] && init[..k - 1] == actions[..k - 1];
    } else {
      k := n;
    }
  }

  /** One subscription epoch was live from the moment after `k` actions to the end of `actions`. */
  ghost predicate LiveSince(s: State, actions: seq<Action>, k: nat, epoch: nat) {
    k <= |actions| && forall j :: k <= j <= |actions| ==> Run(s, actions[..j]).sub.activeEpoch == Some(epoch)
  }

  lemma RunBetween(s0: State, actions: seq<Action>, k: nat, j: nat)
    requires k <= j <= |actions|
    ensures Run(s0, actions[..j]) == Run(Run(s0, actions[..k]), actions[k..][..j - k])
  {
    assert actions[..k] + actions[k..][..j - k] == actions[..j];
    RunSplit(s0, actions[..k], actions[k..][..j - k]);
  }

  lemma {:induction false} LiveAt(s0: State, actions: seq<Action>, k: nat, epoch: nat, j: nat)
    requires Inv(s0) && k <= j <= |actions|
    requires Run(s0, actions[..k]).sub.activeEpoch == Some(epoch)
    requires Run(s0, actions).sub.activeEpoch == Some(epoch)
    ensures Run(s0, actions[..j]).sub.activeEpoch == Some(epoch)
  {
    RunInv(s0, actions[..k]);
    assert actions[..|actions|] == actions && actions[k..][..|actions| - k] == actions[k..];
    RunBetween(s0, actions, k, |actions|);
    RunBetween(s0, actions, k, j);
    EpochSpans(Run(s0, actions[..k]), actions[k..], epoch, j - k);
  }

  lemma {:induction false} LiveThroughout(initial: Option<Snapshot>, actions: seq<Action>, k: nat, epoch: nat)
    requires k <= |actions|
    requires Run(InitialState(initial), actions[..k]).sub.activeEpoch == Some(epoch)
    requires Run(InitialState(initial), actions).sub.activeEpoch == Some(epoch)
    ensures LiveSince(InitialState(initial), actions, k, epoch)
  {
    InitialInv(initial);
    forall j | k <= j <= |actions|
      ensures Run(InitialState(initial), actions[..j]).sub.activeEpoch == Some(epoch)
    {
      LiveAt(InitialState(initial), actions, k, epoch, j);
    }
  }

  // ---- start() with a snapshot nobody vouched for ----

  /** start() takes for connected whatever snapshot is held, be it one that a load brought before any subscription. */
  predicate StartsUntrusted(s: State, a: Action) {
    && a.DoStart? && !s.life.started && !s.life.stopRequested
    && !s.log.trusted && s.view.snapshot.Some?
  }

  lemma {:induction false} TrustStepInCycle(s: State, a: Action)
    requires IsCycleStep(a)
    requires Inv(s)
    ensures Next(s, a).log.trusted == s.log.trusted
  {
    if Enabled(s, a) {
      match a
      case DoOpenCycle => OpenFrame(s);
      case DoOpenCycleFails(error, now) => CloseFrame(s.(sub := BeginEpoch(s.sub)), Threw(error), now);
      case DoCloseCycle(end, now) => CloseFrame(s, end, now);
      case _ =>
    }
  }

  lemma {:induction false} TrustStepElsewhere(s: State, a: Action)
    requires !IsCycleStep(a)
    requires Inv(s)
    ensures Next(s, a).log.trusted == s.log.trusted
  {
    if Enabled(s, a) {
      match a
      case DoLandFlight(result, now) =>
        FlightFrame(s, result, now);
        OutcomeFrame(s, s.chain.flight.value, OutcomeOf(result), now);
      case DoRefresh => RequestFrame(s, Caller, RefreshCaller);
      case DoDeliverEvent(event) => EventFrame(s, event);
      case DoLandReconcile(i, result, now) => ReconcileFrame(s, i, result, now);
      case _ =>
    }
  }

  lemma {:induction false} TrustStep(s: State, a: Action)
    requires Inv(s)
    ensures Next(s, a).log.trusted == s.log.trusted
  {
    if IsCycleStep(a) { TrustStepInCycle(s, a); } else { TrustStepElsewhere(s, a); }
  }

  lemma {:induction false} ConnectedNeedsStart(initial: Option<Snapshot>, actions: seq<Action>)
    ensures var s := Run(InitialState(initial), actions);
            && s.log.trusted == initial.Some?
            && (s.view.connection.Connected? ==> s.life.started)
  {
    if actions == [] {
    } else {
      var init, a := actions[..|actions| - 1], actions[|actions| - 1];
      ConnectedNeedsStart(initial, init);
      var s := Reached(initial, init);
      InvNext(s, a);
      TrustStep(s, a);
      LifeOnlyAdvances(s, a);
      if !s.view.connection.Connected? && Next(s, a).view.connection.Connected? { WaysIntoConnected(s, a); }
    }
  }

  /** `connected` is entered by start() without a trusted snapshot exactly by a first start that holds a loaded one. */
  lemma {:induction false} StartEntersUntrustedIff(initial: Option<Snapshot>, actions: seq<Action>, a: Action)
    requires a.DoStart?
    ensures var s := Run(InitialState(initial), actions);
            (!s.view.connection.Connected? && Next(s, a).view.connection.Connected? && !s.log.trusted) <==>
              StartsUntrusted(s, a)
  {
    ConnectedNeedsStart(initial, actions);
  }

  lemma RefreshedBeforeStart(response: Snapshot, now: int)
    ensures var s := Next(Next(InitialState(None), DoRefresh), DoLandFlight(Snapshotted(response), now));
            && s.view.snapshot == Some(response) && s.life == Life(false, false, false, false)
            && !s.log.trusted && !s.sub.resynced && s.sub.epoch == 0 && s.sub.activeEpoch.None?
  {
    RequestFrame(InitialState(None), Caller, RefreshCaller);
    var s := Next(InitialState(None), DoRefresh);
    FlightFrame(s, Snapshotted(response), now);
    FlightBase(s, Snapshotted(response), now);
  }

  /** A refresh() before start() is enough: connected, with no subscription ever opened and the resync still owed. */
  lemma RefreshBeforeStartConnects(response: Snapshot, now: int)
    ensures var s := Run(InitialState(None), [DoRefresh, DoLandFlight(Snapshotted(response), now), DoStart(now)]);
            && s.view.connection.Connected? && s.view.snapshot == Some(response)
            && !s.log.trusted && !s.sub.resynced && s.sub.epoch == 0 && s.sub.activeEpoch.None?
  {
    RunThree(InitialState(None), DoRefresh, DoLandFlight(Snapshotted(response), now), DoStart(now));
    RefreshedBeforeStart(response, now);
  }

  /**
   * Every move into `connected`, except start() with the trusted initial snapshot or untrusted with one loaded before
   * it, applies the response of a load or reconcile during whose whole span one and the same subscription was live.
   */
  lemma {:induction false} ConnectedNeedsASpanningLoad(initial: Option<Snapshot>, actions: seq<Action>, a: Action)
    requires !Run(InitialState(initial), actions).view.connection.Connected?
    requires Run(InitialState(initial), actions + [a]).view.connection.Connected?
    ensures || (a.DoStart? && initial.Some?)
            || StartsUntrusted(Run(InitialState(initial), actions), a)
            || (a.DoLandFlight? && exists k, epoch ::
                  LoadBeganAt(InitialState(initial), actions, k) && LiveSince(InitialState(initial), actions, k, epoch))
            || (a.DoLandReconcile? && a.i < |Run(InitialState(initial), actions).reconciles| && exists k, epoch ::
                  && ReconcileBeganAt(InitialState(initial), actions,
                                      Run(InitialState(initial), actions).reconciles[a.i].ordinal, k)
                  && LiveSince(InitialState(initial), actions, k, epoch))
  {
    var s := Run(InitialState(initial), actions);
    RunOneMore(InitialState(initial), actions, a);
    WaysIntoConnected(s, a);
    ConnectedNeedsStart(initial, actions);
    if a.DoStart? {
      StartEntersUntrustedIff(initial, actions, a);
    } else if a.DoLandFlight? {
      var k := FlightBegan(initial, actions);
      LiveThroughout(initial, actions, k, s.sub.activeEpoch.value);
    } else if a.DoLandReconcile? {
      var k := ReconcileBegan(initial, actions, a.i);
      LiveThroughout(initial, actions, k, s.sub.activeEpoch.value);
    }
  }

  // ---- No event is lost to a stale response ----

  /** No load of the chain is on its way, and the runtime was neither stopped nor halted. */
  predicate AtRest(s: State) {
    s.chain.flight.None? && !s.life.stopRequested && !s.life.halted
  }

  /** At rest, and the last load succeeded. */
  predicate Settled(s: State) {
    AtRest(s) && s.chain.log.last.Some? && s.chain.log.last.value.response.Some?
  }

  /** Events that arrived while the response under the snapshot was on its way: neither surely in it nor reduced on it. */
  function Missed(s: State): seq<Event>
    requires BaseInv(s) && s.log.base.Some?
  {
    s.log.delivered[s.log.base.value.asked.events..s.log.base.value.applied]
  }

  /**
   * At rest the snapshot is built on the response of a reconcile() or of the last flight; in the latter case, if
   * that flight began with a snapshot, every event delivered since it began is reduced on its response.
   */
  lemma {:induction false} NoEventIsLost(initial: Option<Snapshot>, actions: seq<Action>)
    ensures var s := Run(InitialState(initial), actions);
            Settled(s) ==>
              && BaseInv(s) && s.log.base.Some?
              && var base := s.log.base.value;
              && !base.origin.Initial?
              && (base.origin.ByFlight? ==>
                    base.asked == s.chain.log.last.value.flight.at
                    && Some(base.response) == s.chain.log.last.value.response)
              && (base.origin.ByFlight? && base.asked.hasSnapshot ==>
                    && Missed(s) == []
                    && s.view.snapshot == Some(ApplyEvents(base.response, s.log.delivered[base.asked.events..])))
  {
    var s := Reached(initial, actions);
  }

  /** Without reconcile() the snapshot at rest always stems from the last flight. */
  lemma {:induction false} OnlyReconcileReplacesTheFlight(initial: Option<Snapshot>, actions: seq<Action>)
    requires forall i :: 0 <= i < |actions| ==> !actions[i].DoBeginReconcile?
    ensures var s := Run(InitialState(initial), actions);
            && s.reconciles == []
            && (s.log.base.Some? ==> !s.log.base.value.origin.ByReconcile?)
  {
    if actions == [] {
    } else {
      var init, a := actions[..|actions| - 1], actions[|actions| - 1];
      assert forall i :: 0 <= i < |init| ==> init[i] == actions[i];
      OnlyReconcileReplacesTheFlight(initial, init);
      var s := Reached(initial, init);
      if !a.DoLandReconcile? { ReconcilesElsewhere(s, a); }
      BaseStep(s, a);
    }
  }

  lemma {:induction false} BaseStepInCycle(s: State, a: Action)
    requires IsCycleStep(a)
    requires Inv(s) && s.reconciles == []
    ensures var t := Next(s, a); t.log.base == s.log.base || (t.log.base.Some? && t.log.base.value.origin.ByFlight?)
  {
    if Enabled(s, a) {
      match a
      case DoOpenCycle => OpenFrame(s);
      case DoOpenCycleFails(error, now) => CloseFrame(s.(sub := BeginEpoch(s.sub)), Threw(error), now);
      case DoCloseCycle(end, now) => CloseFrame(s, end, now);
      case _ =>
    }
  }

  lemma {:induction false} BaseStepElsewhere(s: State, a: Action)
    requires !IsCycleStep(a)
    requires Inv(s) && s.reconciles == []
    ensures var t := Next(s, a); t.log.base == s.log.base || (t.log.base.Some? && t.log.base.value.origin.ByFlight?)
  {
    if Enabled(s, a) {
      match a
      case DoLandFlight(result, now) => FlightBase(s, result, now);
      case DoRefresh => RequestFrame(s, Caller, RefreshCaller);
      case DoDeliverEvent(event) => EventFrame(s, event);
      case _ =>
    }
  }

  lemma {:induction false} BaseStep(s: State, a: Action)
    requires Inv(s) && s.reconciles == []
    ensures var t := Next(s, a); t.log.base == s.log.base || (t.log.base.Some? && t.log.base.value.origin.ByFlight?)
  {
    if IsCycleStep(a) { BaseStepInCycle(s, a); } else { BaseStepElsewhere(s, a); }
  }

  /** In runs without reconcile(), once a load that began with a snapshot has settled, no event is lost. */
  lemma {:induction false} WithoutReconcileNoEventIsLost(initial: Option<Snapshot>, actions: seq<Action>)
    requires forall i :: 0 <= i < |actions| ==> !actions[i].DoBeginReconcile?
    ensures var s := Run(InitialState(initial), actions);
            Settled(s) && s.chain.log.last.value.flight.at.hasSnapshot ==>
              var last := s.chain.log.last.value;
              && s.log.base.Some? && s.log.base.value.origin.ByFlight?
              && s.log.base.value.asked == last.flight.at && Some(s.log.base.value.response) == last.response
              && last.flight.at.events <= |s.log.delivered|
              && s.view.snapshot == Some(ApplyEvents(last.response.value, s.log.delivered[last.flight.at.events..]))
  {
    var s := Reached(initial, actions);
    OnlyReconcileReplacesTheFlight(initial, actions);
  }

  /** Nothing is on its way that would bring the events which the response under the snapshot may have missed. */
  ghost predicate LosesEvents(s: State) {
    AtRest(s) && BaseInv(s) && s.log.base.Some? && Missed(s) != []
  }

  /**
   * When landing a flight loses events. No request may be waiting; an applied response raced an event that was not
   * reduced, or a failure leaves a response standing that had raced one.
   */
  ghost predicate LandingLoses(s: State, result: LoadResult)
    requires BaseInv(s) && s.chain.flight.Some?
  {
    var flight := s.chain.flight.value;
    && s.chain.pending == []
    && match result
       case Snapshotted(_) =>
         s.chain.mutations == flight.mutationsAtStart && flight.at.events < |s.log.delivered|
       case Refused(error) => !IsPermanent(error) && s.log.base.Some? && Missed(s) != []
  }

  lemma RefusedFlightKeepsBase(s: State, error: SafeError, now: int)
    requires ChainInv(s.chain) && StreamInv(s) && s.chain.flight.Some? && !s.life.stopRequested && !s.life.halted
    ensures var t := LandFlight(s, Refused(error), now);
            && t.log == s.log && !t.life.stopRequested && (t.life.halted <==> IsPermanent(error))
            && (t.chain.flight.None? <==> s.chain.pending == [])
  {
    FlightFrame(s, Refused(error), now);
    FlightBase(s, Refused(error), now);
    OutcomeFrame(s, s.chain.flight.value, OutcomeOf(Refused(error)), now);
  }

  /**
   * A landing flight leaves events unaccounted for, and nothing on its way to repair that, if and only if LandingLoses.
   * An applied response does so only if there was no snapshot to reduce the events on.
   */
  lemma {:induction false} FlightMissesEventsIff(initial: Option<Snapshot>, actions: seq<Action>, result: LoadResult, now: int)
    requires var s := Run(InitialState(initial), actions);
             s.chain.flight.Some? && !s.life.stopRequested && !s.life.halted
    ensures var s := Run(InitialState(initial), actions);
            var t, flight := LandFlight(s, result, now), s.chain.flight.value;
            && BaseInv(s) && BaseInv(t) && (LosesEvents(t) <==> LandingLoses(s, result))
            && (result.Snapshotted? ==>
                  t.log.base.Some? && Missed(t) == s.log.delivered[flight.at.events..] &&
                  (LosesEvents(t) ==> !flight.at.hasSnapshot))
  {
    var s := Reached(initial, actions);
    StreamAfterFlight(s, result, now);
    if result.Snapshotted? {
      FlightFrame(s, result, now);
      FlightBase(s, result, now);
    } else {
      RefusedFlightKeepsBase(s, result.error, now);
    }
  }

  /**
   * An applied reconcile() response leaves events unaccounted for at rest if and only if the runtime was at rest
   * already and an event came while it was on its way.
   */
  lemma {:induction false} ReconcileMissesEventsIff(
    initial: Option<Snapshot>, actions: seq<Action>, i: nat, response: Snapshot, now: int)
    requires var s := Run(InitialState(initial), actions);
             i < |s.reconciles| && !s.life.stopRequested && !s.life.halted
    ensures var s := Run(InitialState(initial), actions);
            var t := LandReconcile(s, i, Snapshotted(response), now);
            && BaseInv(t) && t.log.base.Some? && Missed(t) == s.log.delivered[s.reconciles[i].at.events..]
            && (AtRest(t) && Missed(t) != [] <==> AtRest(s) && s.reconciles[i].at.events < |s.log.delivered|)
  {
    var s := Reached(initial, actions);
    ReconcileFrame(s, i, Snapshotted(response), now);
    ReconcileBase(s, i, Snapshotted(response), now);
    StreamAfterReconcile(s, i, Snapshotted(response), now);
  }

  /** The steps that can lose events. */
  ghost predicate BeginsLoss(s: State, a: Action)
    requires BaseInv(s)
  {
    match a
    case DoLandFlight(result, _) =>
      s.chain.flight.Some? && !s.life.stopRequested && !s.life.halted && LandingLoses(s, result)
    case DoLandReconcile(i, result, _) =>
      i < |s.reconciles| && result.Snapshotted? && AtRest(s) && s.reconciles[i].at.events < |s.log.delivered|
    case _ => false
  }

  /** A step that lands no load leaves the base alone and brings nothing to rest. */
  ghost predicate KeepsBase(s: State, t: State) {
    && t.log.base == s.log.base && s.log.delivered <= t.log.delivered
    && (AtRest(t) ==> AtRest(s))
  }

  lemma {:induction false} KeepsBaseInCycle(s: State, a: Action)
    requires IsCycleStep(a) && Inv(s)
    ensures KeepsBase(s, Next(s, a))
  {
    if Enabled(s, a) {
      match a
      case DoOpenCycle => OpenFrame(s);
      case DoOpenCycleFails(error, now) => CloseFrame(s.(sub := BeginEpoch(s.sub)), Threw(error), now);
      case DoCloseCycle(end, now) => CloseFrame(s, end, now);
      case _ =>
    }
  }

  lemma {:induction false} KeepsBaseElsewhere(s: State, a: Action)
    requires !IsCycleStep(a) && !a.DoLandFlight? && !a.DoLandReconcile? && Inv(s)
    ensures KeepsBase(s, Next(s, a))
  {
    if Enabled(s, a) {
      match a
      case DoRefresh => RequestFrame(s, Caller, RefreshCaller);
      case DoDeliverEvent(event) => EventFrame(s, event);
      case _ =>
    }
  }

  lemma {:induction false} OthersLoseNothing(s: State, a: Action)
    requires Inv(s) && !LosesEvents(s) && !a.DoLandFlight? && !a.DoLandReconcile?
    ensures !LosesEvents(Next(s, a))
  {
    var t := Next(s, a);
    if IsCycleStep(a) { KeepsBaseInCycle(s, a); } else { KeepsBaseElsewhere(s, a); }
    if s.log.base.Some? {
      var base := s.log.base.value;
      assert t.log.delivered[base.asked.events..base.applied] == s.log.delivered[base.asked.events..base.applied];
    }
  }

  /** In every run, events are lost by exactly the steps of BeginsLoss. */
  lemma {:induction false} EventsAreLostIff(initial: Option<Snapshot>, actions: seq<Action>, a: Action)
    requires !LosesEvents(Run(InitialState(initial), actions))
    ensures BaseInv(Run(InitialState(initial), actions))
    ensures LosesEvents(Run(InitialState(initial), actions + [a])) <==> BeginsLoss(Run(InitialState(initial), actions), a)
  {
    var s := Reached(initial, actions);
    RunOneMore(InitialState(initial), actions, a);
    if a.DoLandFlight? {
      if s.chain.flight.Some? { LandedFlightLosesIff(initial, actions, a.result, a.now); }
    } else if a.DoLandReconcile? {
      if a.i < |s.reconciles| { LandedReconcileLosesIff(initial, actions, a.i, a.result, a.now); }
    } else {
      OthersLoseNothing(s, a);
    }
  }

  lemma {:induction false} LandedFlightLosesIff(initial: Option<Snapshot>, actions: seq<Action>, result: LoadResult, now: int)
    requires Run(InitialState(initial), actions).chain.flight.Some?
    ensures var s := Run(InitialState(initial), actions);
            BaseInv(s) && (LosesEvents(LandFlight(s, result, now)) <==> BeginsLoss(s, DoLandFlight(result, now)))
  {
    var s := Reached(initial, actions);
    if s.life.stopRequested || s.life.halted {
      FlightFrame(s, result, now);
      OutcomeFrame(s, s.chain.flight.value, OutcomeOf(result), now);
    } else {
      FlightMissesEventsIff(initial, actions, result, now);
    }
  }

  lemma {:induction false} LandedReconcileLosesIff(
    initial: Option<Snapshot>, actions: seq<Action>, i: nat, result: LoadResult, now: int)
    requires var s := Run(InitialState(initial), actions); i < |s.reconciles| && !LosesEvents(s)
    ensures var s := Run(InitialState(initial), actions);
            BaseInv(s) && (LosesEvents(LandReconcile(s, i, result, now)) <==> BeginsLoss(s, DoLandReconcile(i, result, now)))
  {
    var s := Reached(initial, actions);
    if s.life.stopRequested || s.life.halted || result.Refused? {
      ReconcileFrame(s, i, result, now);
      ReconcileBase(s, i, result, now);
    } else {
      ReconcileMissesEventsIff(initial, actions, i, result.snapshot, now);
    }
  }

  lemma RunThree(s: State, a: Action, b: Action, c: Action)
    ensures Run(s, [a, b, c]) == Next(Next(Next(s, a), b), c)
  {
    assert [] + [a] == [a] && [a] + [b] == [a, b] && [a, b] + [c] == [a, b, c];
    RunOneMore(s, [], a);
    RunOneMore(s, [a], b);
    RunOneMore(s, [a, b], c);
  }

  /** The state of a runtime without initial snapshot whose first load is airborne when `event` arrives. */
  lemma FirstLoadAirborne(event: Event, now: int) returns (s: State)
    ensures s == Run(InitialState(None), [DoStart(now), DoOpenCycle, DoDeliverEvent(event)])
    ensures s.log == StreamLog([event], None, 0, false)
    ensures s.chain.flight.Some? && s.chain.flight.value.at == Moment(Some(1), 0, false)
    ensures s.chain.mutations == s.chain.flight.value.mutationsAtStart && s.chain.pending == []
    ensures s.sub.activeEpoch == Some(1) && s.life == Life(true, true, false, false)
  {
    RunThree(InitialState(None), DoStart(now), DoOpenCycle, DoDeliverEvent(event));
    var started := Next(InitialState(None), DoStart(now));
    OpenFrame(started);
    EventFrame(OpenCycle(started), event);
    s := Run(InitialState(None), [DoStart(now), DoOpenCycle, DoDeliverEvent(event)]);
  }

  /**
   * The first load is not protected: an event that arrives while it is airborne leaves no trace, whatever
   * the event and whatever the response, and the runtime still settles as connected.
   */
  lemma FirstLoadMissesEvents(event: Event, response: Snapshot, now: int)
    ensures var s := Run(InitialState(None), [DoStart(now), DoOpenCycle, DoDeliverEvent(event),
                                              DoLandFlight(Snapshotted(response), now)]);
            && Settled(s) && s.view.connection.Connected? && s.view.snapshot == Some(response)
            && LosesEvents(s) && Missed(s) == [event] && s.log.delivered == [event]
            && s.log.base == Some(Base(ByFlight, response, Moment(Some(1), 0, false), 1))
  {
    var s := FirstLoadAirborne(event, now);
    var land := DoLandFlight(Snapshotted(response), now);
    var three := [DoStart(now), DoOpenCycle, DoDeliverEvent(event)];
    RunOneMore(InitialState(None), three, land);
    assert three + [land] == [DoStart(now), DoOpenCycle, DoDeliverEvent(event), land];
    FlightFrame(s, Snapshotted(response), now);
    FlightBase(s, Snapshotted(response), now);
  }

  /** The state of a connected runtime whose refresh() is airborne... */
  lemma RefreshAirborne(initial: Snapshot, now: int) returns (s: State)
    ensures s == Run(InitialState(Some(initial)), [DoStart(now), DoOpenCycle, DoRefresh])
    ensures s.life == Life(true, true, false, false) && s.view.connection.Connected? && s.view.snapshot.Some?
    ensures s.sub.loop.Consuming? && s.sub.activeEpoch == Some(1) && s.sub.resynced
    ensures s.log.trusted && s.log.delivered == []
    ensures s.chain.running && s.chain.pending == []
    ensures s.chain.flight.Some? && s.chain.flight.value.at == Moment(Some(1), 0, true)
    ensures s.chain.mutations == s.chain.flight.value.mutationsAtStart
  {
    RunThree(InitialState(Some(initial)), DoStart(now), DoOpenCycle, DoRefresh);
    var started := Next(InitialState(Some(initial)), DoStart(now));
    OpenFrame(started);
    RequestFrame(OpenCycle(started), Caller, RefreshCaller);
    s := Next(OpenCycle(started), DoRefresh);
  }

  /** ...when `event` arrives. */
  lemma EventDuringRefresh(initial: Snapshot, event: Event, now: int) returns (s: State)
    ensures s == Run(InitialState(Some(initial)), [DoStart(now), DoOpenCycle, DoRefresh, DoDeliverEvent(event)])
    ensures s.life == Life(true, true, false, false) && s.view.connection.Connected?
    ensures s.sub.activeEpoch == Some(1) && s.sub.resynced && s.log.trusted && s.log.delivered == [event]
    ensures s.chain.flight.Some? && s.chain.flight.value.at == Moment(Some(1), 0, true)
    ensures s.chain.mutations != s.chain.flight.value.mutationsAtStart
    ensures forall i :: 0 <= i < |s.chain.pending| ==> s.chain.pending[i].source.Managed?
  {
    var before := RefreshAirborne(initial, now);
    var three := [DoStart(now), DoOpenCycle, DoRefresh];
    RunOneMore(InitialState(Some(initial)), three, DoDeliverEvent(event));
    assert three + [DoDeliverEvent(event)] == [DoStart(now), DoOpenCycle, DoRefresh, DoDeliverEvent(event)];
    EventFrame(before, event);
    s := Next(before, DoDeliverEvent(event));
  }

  lemma RacedResponseLands(s: State, response: Snapshot, now: int)
    requires s.life == Life(true, true, false, false) && s.view.connection.Connected?
    requires s.sub.activeEpoch == Some(1) && s.log.delivered != []
    requires s.chain.flight.Some? && s.chain.flight.value.at.epoch == Some(1)
    requires s.chain.mutations != s.chain.flight.value.mutationsAtStart
    requires forall i :: 0 <= i < |s.chain.pending| ==> s.chain.pending[i].source.Managed?
    ensures var t := LandFlight(s, Snapshotted(response), now);
            && t.life == s.life && t.view.connection.Connected? && t.view.snapshot == Some(response) && IsSynced(t)
            && t.log == s.log.(base := Some(Base(ByFlight, response, s.chain.flight.value.at, |s.log.delivered|)))
            && t.chain.flight.Some? && t.chain.flight.value.source.Managed? && t.chain.pending == []
  {
    FlightFrame(s, Snapshotted(response), now);
    FlightBase(s, Snapshotted(response), now);
    FollowUpIsManaged(s.chain, Moment(Some(1), |s.log.delivered|, true), response);
  }

  /** A refresh() whose response races an event. */
  function RacedRefresh(event: Event, response: Snapshot, now: int): seq<Action> {
    [DoStart(now), DoOpenCycle, DoRefresh, DoDeliverEvent(event), DoLandFlight(Snapshotted(response), now)]
  }

  /** A managed follow-up is sent at once. */
  lemma FollowUpAirborne(initial: Snapshot, event: Event, response: Snapshot, now: int) returns (s: State)
    ensures s == Run(InitialState(Some(initial)), RacedRefresh(event, response, now))
    ensures s.life == Life(true, true, false, false) && s.view.connection.Connected? && s.view.snapshot == Some(response)
    ensures Inv(s) && IsSynced(s)
    ensures s.log.delivered == [event] && s.log.base == Some(Base(ByFlight, response, Moment(Some(1), 0, true), 1))
    ensures s.chain.flight.Some? && s.chain.flight.value.source.Managed? && s.chain.pending == []
  {
    var before := EventDuringRefresh(initial, event, now);
    var land := DoLandFlight(Snapshotted(response), now);
    var four := [DoStart(now), DoOpenCycle, DoRefresh, DoDeliverEvent(event)];
    RunOneMore(InitialState(Some(initial)), four, land);
    assert four + [land] == RacedRefresh(event, response, now);
    RacedResponseLands(before, response, now);
    s := Reached(Some(initial), four + [land]);
  }

  lemma FollowUpIsManaged(c: Chain, at: Moment, response: Snapshot)
    requires c.flight.Some? && c.mutations != c.flight.value.mutationsAtStart
    requires forall i :: 0 <= i < |c.pending| ==> c.pending[i].source.Managed?
    ensures var t := Continue(c, c.flight.value, Some(response), true, at);
            t.flight.Some? && t.flight.value.source.Managed? && t.pending == []
  {
    if c.pending != [] {
      assert c.pending[0].source == Managed;
    } else {
      assert Push(Resolve(c, c.flight.value, Some(response)), Managed, Nobody).pending[0].source == Managed;
    }
  }

  lemma FollowUpFails(s: State, error: SafeError, now: int)
    requires Inv(s) && s.life == Life(true, true, false, false) && s.view.connection.Connected? && IsSynced(s)
    requires s.chain.flight.Some? && s.chain.flight.value.source.Managed? && s.chain.pending == []
    requires !IsPermanent(error)
    ensures var t := LandFlight(s, Refused(error), now);
            && Inv(t) && AtRest(t) && t.log == s.log && t.view.snapshot == s.view.snapshot
            && IsSynced(t) && (t.view.connection.Connected? <==> !IsConnectError(error))
  {
    FlightFrame(s, Refused(error), now);
    InvNext(s, DoLandFlight(Refused(error), now));
  }

  /**
   * A stale response can be the final word: its follow-up fails, for whatever reason that is not permanent, and the
   * event it raced, once shown, is gone, with nothing scheduled to bring it back.
   */
  lemma FailedFollowUpLosesEvents(initial: Snapshot, event: Event, response: Snapshot, error: SafeError, now: int)
    requires !IsPermanent(error)
    ensures var s := Run(InitialState(Some(initial)),
                         RacedRefresh(event, response, now) + [DoLandFlight(Refused(error), now)]);
            && LosesEvents(s) && Missed(s) == [event] && s.view.snapshot == Some(response)
            && IsSynced(s) && (s.view.connection.Connected? <==> !IsConnectError(error))
  {
    var before := FollowUpAirborne(initial, event, response, now);
    RunOneMore(InitialState(Some(initial)), RacedRefresh(event, response, now), DoLandFlight(Refused(error), now));
    FollowUpFails(before, error, now);
  }

  lemma DeliveredQuietly(s: State, event: Event)
    requires s.view.snapshot.Some? && !ApplyEvent(s.view.snapshot.value, event).needsSnapshotRefresh
    ensures DeliverEvent(s, event).chain.flight == s.chain.flight
  {
  }

  /** The state of a connected runtime at rest whose reconcile() is airborne. */
  lemma ReconcileAirborne(initial: Snapshot, now: int) returns (s: State)
    ensures s == Run(InitialState(Some(initial)), [DoStart(now), DoBeginReconcile, DoOpenCycle])
    ensures s.life == Life(true, true, false, false) && s.sub.loop.Consuming? && s.chain.flight.None?
    ensures s.view.snapshot == Some(initial) && s.view.connection.Connected?
    ensures s.log.delivered == [] && s.reconciles == [Reconcile(0, Moment(None, 0, true))]
  {
    RunThree(InitialState(Some(initial)), DoStart(now), DoBeginReconcile, DoOpenCycle);
    var begun := Next(Next(InitialState(Some(initial)), DoStart(now)), DoBeginReconcile);
    OpenFrame(begun);
    s := Next(begun, DoOpenCycle);
  }

  /** A reconcile() during which an event arrives. */
  function RacedReconcile(event: Event, now: int): seq<Action> {
    [DoStart(now), DoBeginReconcile, DoOpenCycle, DoDeliverEvent(event)]
  }

  lemma EventDuringReconcile(initial: Snapshot, event: Event, now: int) returns (s: State)
    requires !ApplyEvent(initial, event).needsSnapshotRefresh
    ensures s == Run(InitialState(Some(initial)), RacedReconcile(event, now))
    ensures AtRest(s) && s.view.connection.Connected? && s.log.delivered == [event]
    ensures s.reconciles == [Reconcile(0, Moment(None, 0, true))]
  {
    var before := ReconcileAirborne(initial, now);
    var three := [DoStart(now), DoBeginReconcile, DoOpenCycle];
    RunOneMore(InitialState(Some(initial)), three, DoDeliverEvent(event));
    assert three + [DoDeliverEvent(event)] == RacedReconcile(event, now);
    EventFrame(before, event);
    DeliveredQuietly(before, event);
    s := Next(before, DoDeliverEvent(event));
  }

  /**
   * A reconcile() response is not checked for staleness: applied at rest it replaces whatever was reduced
   * while it was on its way, and nothing is scheduled to repair that.
   */
  lemma ReconcileMissesEvents(initial: Snapshot, event: Event, response: Snapshot, now: int)
    requires !ApplyEvent(initial, event).needsSnapshotRefresh
    ensures var s := Run(InitialState(Some(initial)),
                         RacedReconcile(event, now) + [DoLandReconcile(0, Snapshotted(response), now)]);
            && s.view.connection.Connected? && s.view.snapshot == Some(response)
            && LosesEvents(s) && Missed(s) == [event] && s.log.delivered == [event]
            && s.log.base == Some(Base(ByReconcile, response, Moment(None, 0, true), 1))
  {
    var s := EventDuringReconcile(initial, event, now);
    RunOneMore(InitialState(Some(initial)), RacedReconcile(event, now), DoLandReconcile(0, Snapshotted(response), now));
    ReconcileMissesEventsIff(Some(initial), RacedReconcile(event, now), 0, response, now);
    ReconcileBase(s, 0, Snapshotted(response), now);
    ReconcileFrame(s, 0, Snapshotted(response), now);
  }

  // ---- What a synced subscription shows ----

  /** The open subscription of a running runtime is synced. */
  ghost predicate IsSynced(s: State) {
    s.life.active && !s.life.halted && s.sub.activeEpoch.Some? && Synced(s, s.sub.activeEpoch.value)
  }

  /** An applied load that spanned the open subscription. */
  predicate LandsSpanningLoad(s: State, a: Action) {
    match a
    case DoLandFlight(result, _) =>
      s.chain.flight.Some? && result.Snapshotted? && SubscribedThroughout(s, s.chain.flight.value.at.epoch)
    case DoLandReconcile(i, result, _) =>
      i < |s.reconciles| && result.Snapshotted? && SubscribedThroughout(s, s.reconciles[i].at.epoch)
    case _ => false
  }

  /** A load of the runtime's own that cannot connect. */
  predicate FailsToConnect(s: State, a: Action) {
    a.DoLandFlight? && s.chain.flight.Some? && s.chain.flight.value.source.Managed? &&
    a.result.Refused? && IsConnectError(a.result.error)
  }

  lemma {:induction false} ShownInCycle(s: State, a: Action)
    requires IsCycleStep(a) && Inv(s) && IsSynced(Next(s, a))
    ensures Next(s, a).view.connection == s.view.connection
  {
    if Enabled(s, a) {
      match a
      case DoOpenCycle => OpenFrame(s);
      case DoOpenCycleFails(error, now) => CloseFrame(s.(sub := BeginEpoch(s.sub)), Threw(error), now);
      case DoCloseCycle(end, now) => CloseFrame(s, end, now);
      case _ =>
    }
  }

  lemma {:induction false} ShownElsewhere(s: State, a: Action)
    requires !IsCycleStep(a) && !a.DoLandFlight? && !a.DoLandReconcile? && Inv(s) && IsSynced(Next(s, a))
    ensures Next(s, a).view.connection == s.view.connection
  {
    if Enabled(s, a) {
      match a
      case DoRefresh => RequestFrame(s, Caller, RefreshCaller);
      case DoDeliverEvent(event) => EventFrame(s, event);
      case _ =>
    }
  }

  lemma {:induction false} ShownAfterFlight(s: State, result: LoadResult, now: int)
    requires Inv(s) && s.chain.flight.Some? && IsSynced(LandFlight(s, result, now))
    ensures var t, a := LandFlight(s, result, now), DoLandFlight(result, now);
            t.view.connection.Connected? <==>
              LandsSpanningLoad(s, a) || (s.view.connection.Connected? && !FailsToConnect(s, a))
  {
    FlightFrame(s, result, now);
    OutcomeFrame(s, s.chain.flight.value, OutcomeOf(result), now);
  }

  lemma {:induction false} ShownAfterReconcile(s: State, i: nat, result: LoadResult, now: int)
    requires Inv(s) && i < |s.reconciles| && IsSynced(LandReconcile(s, i, result, now))
    ensures LandReconcile(s, i, result, now).view.connection.Connected? <==>
              LandsSpanningLoad(s, DoLandReconcile(i, result, now)) || s.view.connection.Connected?
  {
  }

  lemma {:induction false} ShownStep(s: State, a: Action)
    requires Inv(s) && IsSynced(Next(s, a))
    ensures Next(s, a).view.connection.Connected? <==>
              LandsSpanningLoad(s, a) || (s.view.connection.Connected? && !FailsToConnect(s, a))
  {
    if a.DoLandFlight? && s.chain.flight.Some? {
      ShownAfterFlight(s, a.result, a.now);
    } else if a.DoLandReconcile? && a.i < |s.reconciles| {
      ShownAfterReconcile(s, a.i, a.result, a.now);
    } else if IsCycleStep(a) {
      ShownInCycle(s, a);
    } else if !a.DoLandFlight? && !a.DoLandReconcile? {
      ShownElsewhere(s, a);
    }
  }

  ghost predicate FailsAt(s: State, actions: seq<Action>, k: nat) {
    k < |actions| && FailsToConnect(Run(s, actions[..k]), actions[k])
  }

  ghost predicate SpansAt(s: State, actions: seq<Action>, k: nat) {
    k < |actions| && LandsSpanningLoad(Run(s, actions[..k]), actions[k])
  }

  /** Some load of the runtime's own could not connect, and none that spanned the subscription was applied since. */
  ghost predicate FailureStands(s: State, actions: seq<Action>) {
    exists k :: FailsAt(s, actions, k) && forall j :: k < j ==> !SpansAt(s, actions, j)
  }

  lemma {:induction false} FailureStandsStep(s: State, init: seq<Action>, a: Action)
    ensures FailureStands(s, init + [a]) <==>
              FailsToConnect(Run(s, init), a) || (FailureStands(s, init) && !LandsSpanningLoad(Run(s, init), a))
  {
    var all, n := init + [a], |init|;
    assert all[..n] == init;
    forall k: nat | k < n ensures FailsAt(s, all, k) == FailsAt(s, init, k) && SpansAt(s, all, k) == SpansAt(s, init, k) {
      assert all[..k] == init[..k];
    }
    if FailsToConnect(Run(s, init), a) { assert FailsAt(s, all, n); }
    if FailureStands(s, init) && !LandsSpanningLoad(Run(s, init), a) {
      var k: nat :| FailsAt(s, init, k) && forall j :: k < j ==> !SpansAt(s, init, j);
      assert FailsAt(s, all, k);
      assert !SpansAt(s, all, n);
    }
    if FailureStands(s, all) && !FailsToConnect(Run(s, init), a) {
      var k: nat :| FailsAt(s, all, k) && forall j :: k < j ==> !SpansAt(s, all, j);
      assert k < n && !SpansAt(s, all, n) && FailsAt(s, init, k);
    }
  }

  ghost predicate StaysSynced(s: State, actions: seq<Action>) {
    IsSynced(Run(s, actions)) && (actions != [] ==> StaysSynced(s, actions[..|actions| - 1]))
  }

  /**
   * From a synced subscription that shows `connected`, over any stretch in which the subscription stays synced:
   * `connected` is shown at its end if and only if no failure to connect stands.
   */
  lemma {:induction false} SyncedShowsConnectedIff(s: State, actions: seq<Action>)
    requires Inv(s) && s.view.connection.Connected? && StaysSynced(s, actions)
    ensures Run(s, actions).view.connection.Connected? <==> !FailureStands(s, actions)
  {
    if actions == [] {
      assert forall k: nat :: !FailsAt(s, actions, k);
    } else {
      var init, a := actions[..|actions| - 1], actions[|actions| - 1];
      SyncedShowsConnectedIff(s, init);
      RunInv(s, init);
      ShownStep(Run(s, init), a);
      FailureStandsStep(s, init, a);
      assert actions == init + [a];
    }
  }

  /** Between start() and the end of the first cycle, and in every synced subscription, there is a snapshot on display. */
  ghost predicate DisplayInv(s: State) {
    && (s.sub.resynced || s.log.trusted ==> s.view.snapshot.Some?)
    && (s.life.active && !s.life.halted && s.sub.resynced && (s.sub.epoch == 0 || s.sub.activeEpoch.Some?) ==>
          s.view.connection.Connected? || s.view.connection.DisplayOnly?)
  }

  lemma {:induction false} DisplayInCycle(s: State, a: Action)
    requires IsCycleStep(a) && Inv(s) && DisplayInv(s)
    ensures DisplayInv(Next(s, a))
  {
    if Enabled(s, a) {
      match a
      case DoOpenCycle => OpenFrame(s);
      case DoOpenCycleFails(error, now) => CloseFrame(s.(sub := BeginEpoch(s.sub)), Threw(error), now);
      case DoCloseCycle(end, now) => CloseFrame(s, end, now);
      case _ =>
    }
  }

  lemma {:induction false} DisplayAfterOutcome(s: State, flight: Flight, outcome: Outcome, now: int)
    requires DisplayInv(s) && !s.life.stopRequested
    ensures DisplayInv(ApplyFlightOutcome(s, flight, outcome, now))
  {
  }

  lemma {:induction false} DisplayAfterFlight(s: State, result: LoadResult, now: int)
    requires s.chain.flight.Some? && DisplayInv(s)
    ensures DisplayInv(LandFlight(s, result, now))
  {
    FlightFrame(s, result, now);
    if !s.life.stopRequested { DisplayAfterOutcome(s, s.chain.flight.value, OutcomeOf(result), now); }
  }

  lemma {:induction false} DisplayAfterReconcile(s: State, i: nat, result: LoadResult, now: int)
    requires i < |s.reconciles| && DisplayInv(s)
    ensures DisplayInv(LandReconcile(s, i, result, now))
  {
  }

  lemma {:induction false} DisplayElsewhere(s: State, a: Action)
    requires !IsCycleStep(a) && Inv(s) && DisplayInv(s)
    ensures DisplayInv(Next(s, a))
  {
    if Enabled(s, a) {
      match a
      case DoLandFlight(result, now) => DisplayAfterFlight(s, result, now);
      case DoRefresh => RequestFrame(s, Caller, RefreshCaller);
      case DoDeliverEvent(event) => EventFrame(s, event);
      case DoLandReconcile(i, result, now) => DisplayAfterReconcile(s, i, result, now);
      case _ =>
    }
  }

  /** A synced subscription shows its snapshot, as `connected` or as `displayOnly`, and nothing else. */
  lemma {:induction false} SyncedShowsItsSnapshot(initial: Option<Snapshot>, actions: seq<Action>)
    ensures var s := Run(InitialState(initial), actions);
            && DisplayInv(s)
            && (IsSynced(s) ==>
                  s.view.snapshot.Some? && (s.view.connection.Connected? || s.view.connection.DisplayOnly?))
  {
    if actions == [] {
    } else {
      var init, a := actions[..|actions| - 1], actions[|actions| - 1];
      SyncedShowsItsSnapshot(initial, init);
      var s := Reached(initial, init);
      if IsCycleStep(a) { DisplayInCycle(s, a); } else { DisplayElsewhere(s, a); }
    }
  }

  // ---- Stop and halt ----

  lemma StopStep(s: State, a: Action)
    requires Inv(s) && s.life.stopRequested
    ensures Next(s, a).view == s.view && Next(s, a).life.stopRequested
  {
  }

  /** Once stop() has been requested the view never changes again, even though loads still land. */
  lemma {:induction false} StopFreezesTheView(initial: Option<Snapshot>, before: seq<Action>, after: seq<Action>)
    requires Run(InitialState(initial), before).life.stopRequested
    ensures var s := Run(InitialState(initial), before + after);
            s.view == Run(InitialState(initial), before).view && s.life.stopRequested
  {
    if after == [] {
      assert before + after == before;
    } else {
      var init, a := after[..|after| - 1], after[|after| - 1];
      StopFreezesTheView(initial, before, init);
      var s := Reached(initial, before + init);
      assert before + after == before + init + [a];
      RunOneMore(InitialState(initial), before + init, a);
      StopStep(s, a);
    }
  }

  ghost predicate HaltedForGood(s: State) {
    s.life.halted && s.life.started && !s.view.connection.Connected?
  }

  lemma {:induction false} LifeOnlyAdvancesInCycle(s: State, a: Action)
    requires IsCycleStep(a)
    requires Inv(s)
    ensures var t := Next(s, a);
            && (s.life.halted ==> t.life.halted) && (s.life.started ==> t.life.started)
            && (s.life.stopRequested ==> t.life.stopRequested)
            && (s.life.halted ==> t.sub.epoch == s.sub.epoch)
  {
    if Enabled(s, a) {
      match a
      case DoOpenCycle =>
      case DoOpenCycleFails(error, now) =>
      case DoCloseCycle(end, now) => CloseFrame(s, end, now);
      case _ =>
    }
  }

  lemma {:induction false} LifeOnlyAdvancesElsewhere(s: State, a: Action)
    requires !IsCycleStep(a)
    requires Inv(s)
    ensures var t := Next(s, a);
            && (s.life.halted ==> t.life.halted) && (s.life.started ==> t.life.started)
            && (s.life.stopRequested ==> t.life.stopRequested)
            && (s.life.halted ==> t.sub.epoch == s.sub.epoch)
  {
    if Enabled(s, a) {
      match a
      case DoLandFlight(result, now) =>
        FlightFrame(s, result, now);
        OutcomeFrame(s, s.chain.flight.value, OutcomeOf(result), now);
      case DoRefresh => RequestFrame(s, Caller, RefreshCaller);
      case DoDeliverEvent(event) => EventFrame(s, event);
      case DoLandReconcile(i, result, now) => ReconcileFrame(s, i, result, now);
      case _ =>
    }
  }

  lemma {:induction false} LifeOnlyAdvances(s: State, a: Action)
    requires Inv(s)
    ensures var t := Next(s, a);
            && (s.life.halted ==> t.life.halted) && (s.life.started ==> t.life.started)
            && (s.life.stopRequested ==> t.life.stopRequested)
            && (s.life.halted ==> t.sub.epoch == s.sub.epoch)
  {
    if IsCycleStep(a) { LifeOnlyAdvancesInCycle(s, a); } else { LifeOnlyAdvancesElsewhere(s, a); }
  }

  /** A permanent error discovered after start() shows the halted state. */
  lemma HaltShows(s: State, a: Action)
    requires Inv(s) && s.life.started && !s.life.halted && Next(s, a).life.halted && !s.life.stopRequested
    ensures Next(s, a).view.connection.Halted? && HaltedForGood(Next(s, a))
  {
  }

  lemma {:induction false} StaysHalted(s: State, after: seq<Action>)
    requires Inv(s) && HaltedForGood(s)
    ensures var t := Run(s, after); HaltedForGood(t) && t.sub.epoch == s.sub.epoch
  {
    if after == [] {
    } else {
      var init, a := after[..|after| - 1], after[|after| - 1];
      StaysHalted(s, init);
      RunInv(s, init);
      var t := Run(s, init);
      LifeOnlyAdvances(t, a);
      if Next(t, a).view.connection.Connected? {
        WaysIntoConnected(t, a);
      }
    }
  }

  /** After a halt that follows start(), `connected` is never entered and no further subscription is opened. */
  lemma HaltIsNeverReconnected(initial: Option<Snapshot>, before: seq<Action>, a: Action, after: seq<Action>)
    requires var s := Run(InitialState(initial), before); s.life.started && !s.life.stopRequested && !s.life.halted
    requires Run(InitialState(initial), before + [a]).life.halted
    ensures var s := Run(InitialState(initial), before + [a]);
            var t := Run(InitialState(initial), before + [a] + after);
            && s.view.connection.Halted?
            && !t.view.connection.Connected? && t.sub.epoch == s.sub.epoch && t.life.halted
  {
    var s := Reached(initial, before);
    RunOneMore(InitialState(initial), before, a);
    HaltShows(s, a);
    InvNext(s, a);
    RunSplit(InitialState(initial), before + [a], after);
    StaysHalted(Next(s, a), after);
  }

  /** A connect failure that may still overwrite the shown `halted`. */
  predicate OverwritesHalted(s: State, a: Action) {
    !s.life.stopRequested &&
    match a
    case DoStart(_) => !s.life.started
    case DoLandFlight(Refused(error), _) =>
      s.chain.flight.Some? && s.chain.flight.value.source.Managed? && IsConnectError(error)
    case DoCloseCycle(Threw(error), _) => s.sub.loop.Consuming? && s.life.active && IsConnectError(error)
    case _ => false
  }

  lemma FlightOverHalted(s: State, result: LoadResult, now: int)
    requires s.view.connection.Halted? && s.life.halted && s.chain.flight.Some?
    ensures !LandFlight(s, result, now).view.connection.Halted? <==> OverwritesHalted(s, DoLandFlight(result, now))
  {
  }

  lemma {:induction false} HaltedStepInCycle(s: State, a: Action)
    requires IsCycleStep(a)
    requires Inv(s) && s.view.connection.Halted? && s.life.halted
    ensures !Next(s, a).view.connection.Halted? <==> OverwritesHalted(s, a)
  {
    if Enabled(s, a) {
      match a
      case DoOpenCycle =>
      case _ =>
    }
  }

  lemma {:induction false} HaltedStepElsewhere(s: State, a: Action)
    requires !IsCycleStep(a)
    requires Inv(s) && s.view.connection.Halted? && s.life.halted
    ensures !Next(s, a).view.connection.Halted? <==> OverwritesHalted(s, a)
  {
    if Enabled(s, a) {
      match a
      case DoLandFlight(result, now) => FlightOverHalted(s, result, now);
      case DoRefresh => RequestFrame(s, Caller, RefreshCaller);
      case DoDeliverEvent(event) => EventFrame(s, event);
      case DoLandReconcile(i, result, now) => ReconcileFrame(s, i, result, now);
      case _ =>
    }
  }

  lemma {:induction false} HaltedStep(s: State, a: Action)
    requires Inv(s) && s.view.connection.Halted? && s.life.halted
    ensures !Next(s, a).view.connection.Halted? <==> OverwritesHalted(s, a)
  {
    if IsCycleStep(a) { HaltedStepInCycle(s, a); } else { HaltedStepElsewhere(s, a); }
  }

  /** The connection shows `halted` only in a halted runtime. */
  lemma {:induction false} HaltedIsHonest(initial: Option<Snapshot>, actions: seq<Action>)
    ensures var s := Run(InitialState(initial), actions); s.view.connection.Halted? ==> s.life.halted
  {
    if actions == [] {
    } else {
      var init, a := actions[..|actions| - 1], actions[|actions| - 1];
      HaltedIsHonest(initial, init);
      var s := Reached(initial, init);
      LifeOnlyAdvances(s, a);
      if !s.life.halted && !s.view.connection.Halted? && Next(s, a).view.connection.Halted? { HonestStep(s, a); }
    }
  }

  lemma {:induction false} HonestStepInCycle(s: State, a: Action)
    requires IsCycleStep(a)
    requires Inv(s) && !s.view.connection.Halted? && Next(s, a).view.connection.Halted?
    ensures Next(s, a).life.halted
  {
    if Enabled(s, a) {
      match a
      case DoOpenCycle => OpenFrame(s);
      case _ =>
    }
  }

  lemma OutcomeHonest(s: State, flight: Flight, outcome: Outcome, now: int)
    requires !s.view.connection.Halted? && ApplyFlightOutcome(s, flight, outcome, now).view.connection.Halted?
    ensures ApplyFlightOutcome(s, flight, outcome, now).life.halted
  {
  }

  lemma FlightHonest(s: State, result: LoadResult, now: int)
    requires s.chain.flight.Some?
    requires !s.view.connection.Halted? && LandFlight(s, result, now).view.connection.Halted?
    ensures LandFlight(s, result, now).life.halted
  {
    FlightFrame(s, result, now);
    if !s.life.stopRequested { OutcomeHonest(s, s.chain.flight.value, OutcomeOf(result), now); }
  }

  lemma {:induction false} HonestStepElsewhere(s: State, a: Action)
    requires !IsCycleStep(a)
    requires Inv(s) && !s.view.connection.Halted? && Next(s, a).view.connection.Halted?
    ensures Next(s, a).life.halted
  {
    if Enabled(s, a) {
      match a
      case DoLandFlight(result, now) => FlightHonest(s, result, now);
      case DoRefresh => RequestFrame(s, Caller, RefreshCaller);
      case DoDeliverEvent(event) => EventFrame(s, event);
      case DoLandReconcile(i, result, now) => ReconcileFrame(s, i, result, now);
      case _ =>
    }
  }

  lemma {:induction false} HonestStep(s: State, a: Action)
    requires Inv(s) && !s.view.connection.Halted? && Next(s, a).view.connection.Halted?
    ensures Next(s, a).life.halted
  {
    if IsCycleStep(a) { HonestStepInCycle(s, a); } else { HonestStepElsewhere(s, a); }
  }

  /** `halted` is not absorbing: it is left exactly on a late start() or a connect failure. */
  lemma HaltedIsLeftIff(initial: Option<Snapshot>, actions: seq<Action>, a: Action)
    requires Run(InitialState(initial), actions).view.connection.Halted?
    ensures !Run(InitialState(initial), actions + [a]).view.connection.Halted?
      <==> OverwritesHalted(Run(InitialState(initial), actions), a)
  {
    var s := Reached(initial, actions);
    HaltedIsHonest(initial, actions);
    RunOneMore(InitialState(initial), actions, a);
    HaltedStep(s, a);
  }
}
