/** Commands of one scope never overlap, in spite of chains being forgotten once they settle. */
module CommandTheorems {
  import opened CommandScope
  import opened CommandModel

  predicate SameScope(s: State, i: nat, j: nat)
    requires i < |s.links| && j < |s.links|
  {
    ScopeAt(s, i) == ScopeAt(s, j)
  }

  predicate SettledAt(s: State, i: nat)
    requires i < |s.links|
  {
    HasSettled(s.links[i].point)
  }

  predicate BegunAt(s: State, i: nat)
    requires i < |s.links|
  {
    HasBegun(s.links[i].point)
  }

  /** A command begins only after every earlier command of its scope has settled. */
  ghost predicate SerialInv(s: State) {
    forall i, j :: 0 <= i < j < |s.links| && SameScope(s, i, j) && BegunAt(s, j) ==> SettledAt(s, i)
  }

  /** `p` is the last command of its scope before `j`. */
  ghost predicate IsPredecessor(s: State, p: nat, j: nat)
    requires j <= |s.links|
  {
    p < j && forall k :: p < k < j ==> !SameScope(s, p, k)
  }

  /** A waiting command waits for its predecessor; without one, its whole scope has settled. */
  ghost predicate WaitInv(s: State) {
    forall j :: 0 <= j < |s.links| && s.links[j].point.Waiting? ==>
      match s.links[j].point.after
      case Some(p) => p < j && SameScope(s, p, j) && IsPredecessor(s, p, j)
      case None => forall i :: 0 <= i < j && SameScope(s, i, j) ==> SettledAt(s, i)
  }

  /** The map holds the tail of every chain that may still matter. */
  ghost predicate ChainsInv(s: State) {
    && (forall scope :: scope in s.scopeChains ==>
          var tail := s.scopeChains[scope];
          tail < |s.links| && ScopeAt(s, tail) == scope && IsPredecessor(s, tail, |s.links|))
    && (forall i :: 0 <= i < |s.links| && ScopeAt(s, i) !in s.scopeChains ==> SettledAt(s, i))
  }

  ghost predicate PendingInv(s: State) {
    && (forall i: nat :: i in s.pending <==> i < |s.links| && !s.links[i].point.Swept?)
    && s.controllers == s.pending
    && (forall d :: 0 <= d < |s.drains| ==> forall id :: id in s.drains[d].awaiting ==> id < |s.links|)
  }

  /** The log tells exactly who began and who settled, and a beginning is preceded by the scope's settlements. */
  ghost predicate LogInv(s: State) {
    && (forall q :: 0 <= q < |s.log| ==> s.log[q].id < |s.links|)
    && (forall i :: 0 <= i < |s.links| ==> (BegunAt(s, i) <==> Began(i) in s.log))
    && (forall i :: 0 <= i < |s.links| ==> (SettledAt(s, i) <==> Ended(i) in s.log))
    && (forall q, i :: 0 <= q < |s.log| && s.log[q].Began? && 0 <= i < s.log[q].id && SameScope(s, i, s.log[q].id) ==>
          Ended(i) in s.log[..q])
    && (forall q :: 0 <= q < |s.log| && s.log[q].Ended? ==> Began(s.log[q].id) in s.log[..q])
  }

  ghost predicate Inv(s: State) {
    SerialInv(s) && WaitInv(s) && ChainsInv(s) && PendingInv(s) && LogInv(s)
  }

  /** Points only move forward, scopes and numbers stay: what the invariants need to know of most steps. */
  ghost predicate Advances(s: State, t: State) {
    && |t.links| == |s.links|
    && (forall i :: 0 <= i < |s.links| ==>
          && t.links[i].command == s.links[i].command
          && (BegunAt(s, i) ==> BegunAt(t, i)) && (SettledAt(s, i) ==> SettledAt(t, i))
          && (t.links[i].point.Waiting? ==> t.links[i].point == s.links[i].point))
  }

  ghost predicate SameMarks(s: State, t: State) {
    && t.log == s.log
    && |t.links| == |s.links|
    && (forall i :: 0 <= i < |s.links| ==> BegunAt(s, i) == BegunAt(t, i) && SettledAt(s, i) == SettledAt(t, i))
  }

  /** A step that begins nothing keeps the order of executions. */
  lemma {:induction false} AdvanceKeepsOrder(s: State, t: State)
    requires SerialInv(s) && WaitInv(s) && Advances(s, t)
    requires forall i :: 0 <= i < |s.links| && BegunAt(t, i) ==> BegunAt(s, i)
    ensures SerialInv(t) && WaitInv(t)
  {
    forall i, j | 0 <= i < j < |t.links| && SameScope(t, i, j) && BegunAt(t, j)
      ensures SettledAt(t, i)
    {
      assert SameScope(s, i, j) && SettledAt(s, i);
    }
    forall j | 0 <= j < |t.links| && t.links[j].point.Waiting? && t.links[j].point.after.Some?
      ensures var p := t.links[j].point.after.value; p < j && SameScope(t, p, j) && IsPredecessor(t, p, j)
    {
      var p := t.links[j].point.after.value;
      assert SameScope(s, p, j) && IsPredecessor(s, p, j);
      forall k | p < k < j ensures !SameScope(t, p, k) { assert !SameScope(s, p, k); }
    }
    forall j, i | 0 <= i < j < |t.links| && t.links[j].point.Waiting? && t.links[j].point.after.None? && SameScope(t, i, j)
      ensures SettledAt(t, i)
    {
      assert SameScope(s, i, j) && SettledAt(s, i);
    }
  }

  lemma AdvanceKeepsChains(s: State, t: State)
    requires ChainsInv(s) && Advances(s, t) && t.scopeChains == s.scopeChains
    ensures ChainsInv(t)
  {
    forall scope | scope in t.scopeChains
      ensures var tail := t.scopeChains[scope];
              tail < |t.links| && ScopeAt(t, tail) == scope && IsPredecessor(t, tail, |t.links|)
    {
      var tail := s.scopeChains[scope];
      forall k | tail < k < |t.links| ensures !SameScope(t, tail, k) { assert !SameScope(s, tail, k); }
    }
  }

  /** A command whose turn has come: everything before it in its scope has settled. */
  lemma ItsTurn(s: State, id: nat)
    requires SerialInv(s) && WaitInv(s) && Enabled(s, DoBegin(id))
    ensures forall i :: 0 <= i < id && SameScope(s, i, id) ==> SettledAt(s, i)
  {
    match s.links[id].point.after
    case None =>
    case Some(p) =>
      forall i | 0 <= i < id && SameScope(s, i, id)
        ensures SettledAt(s, i)
      {
        assert SameScope(s, p, i);
        if i < p {
          assert SameScope(s, i, p) && BegunAt(s, p);
        }
      }
  }

  lemma BeginKeepsOrder(s: State, id: nat)
    requires SerialInv(s) && WaitInv(s) && Enabled(s, DoBegin(id))
    ensures SerialInv(Begin(s, id)) && WaitInv(Begin(s, id))
  {
    var t := Begin(s, id);
    ItsTurn(s, id);
    forall i, j | 0 <= i < j < |t.links| && SameScope(t, i, j) && BegunAt(t, j)
      ensures SettledAt(t, i)
    {
      assert SameScope(s, i, j);
      if j != id { assert BegunAt(s, j) && SettledAt(s, i); }
    }
    forall j | 0 <= j < |t.links| && t.links[j].point.Waiting? && t.links[j].point.after.Some?
      ensures var p := t.links[j].point.after.value; p < j && SameScope(t, p, j) && IsPredecessor(t, p, j)
    {
      var p := t.links[j].point.after.value;
      assert SameScope(s, p, j) && IsPredecessor(s, p, j);
      forall k | p < k < j ensures !SameScope(t, p, k) { assert !SameScope(s, p, k); }
    }
    forall j, i | 0 <= i < j < |t.links| && t.links[j].point.Waiting? && t.links[j].point.after.None? && SameScope(t, i, j)
      ensures SettledAt(t, i)
    {
      assert SameScope(s, i, j) && SettledAt(s, i);
    }
  }

  lemma JoinKeepsOldLinks(s: State, i: nat)
    requires i < |s.dispatching|
    ensures var t := JoinChain(s, i);
            && (forall k, j :: 0 <= k < |s.links| && 0 <= j < |s.links| ==> SameScope(t, k, j) == SameScope(s, k, j))
            && (forall k :: 0 <= k < |s.links| ==>
                  && t.links[k] == s.links[k] && ScopeAt(t, k) == ScopeAt(s, k)
                  && SettledAt(t, k) == SettledAt(s, k) && BegunAt(t, k) == BegunAt(s, k))
            && (forall p, j :: 0 <= p < j <= |s.links| ==> IsPredecessor(t, p, j) == IsPredecessor(s, p, j))
  {
  }

  lemma JoinKeepsSerial(s: State, i: nat)
    requires SerialInv(s) && i < |s.dispatching|
    ensures SerialInv(JoinChain(s, i))
  {
    JoinKeepsOldLinks(s, i);
  }

  lemma JoinKeepsWaits(s: State, i: nat)
    requires WaitInv(s) && ChainsInv(s) && i < |s.dispatching|
    ensures WaitInv(JoinChain(s, i))
  {
    var t, id := JoinChain(s, i), |s.links|;
    JoinKeepsOldLinks(s, i);
    var scope := ScopeAt(t, id);
    if scope in s.scopeChains {
      assert IsPredecessor(t, s.scopeChains[scope], id) && SameScope(t, s.scopeChains[scope], id);
    }
  }

  lemma JoinKeepsChains(s: State, i: nat)
    requires ChainsInv(s) && i < |s.dispatching|
    ensures ChainsInv(JoinChain(s, i))
  {
    var t, id := JoinChain(s, i), |s.links|;
    JoinKeepsOldLinks(s, i);
    forall scope | scope in t.scopeChains && scope != ScopeAt(t, id)
      ensures IsPredecessor(t, t.scopeChains[scope], |t.links|)
    {
      var tail := s.scopeChains[scope];
      assert IsPredecessor(t, tail, id);
    }
  }

  lemma SweepKeepsChains(s: State, id: nat)
    requires SerialInv(s) && WaitInv(s) && ChainsInv(s) && Enabled(s, DoSweep(id))
    ensures ChainsInv(Sweep(s, id))
  {
    var t := Sweep(s, id);
    forall scope | scope in t.scopeChains
      ensures var tail := t.scopeChains[scope];
              tail < |t.links| && ScopeAt(t, tail) == scope && IsPredecessor(t, tail, |t.links|)
    {
      var tail := s.scopeChains[scope];
      forall k | tail < k < |t.links| ensures !SameScope(t, tail, k) { assert !SameScope(s, tail, k); }
    }
    forall i | 0 <= i < |t.links| && ScopeAt(t, i) !in t.scopeChains
      ensures SettledAt(t, i)
    {
      if ScopeAt(s, i) in s.scopeChains {
        assert SameScope(s, id, i) && s.scopeChains[ScopeAt(s, i)] == id;
        if i < id { assert SameScope(s, i, id) && BegunAt(s, id); }
      }
    }
  }

  // ---- The log ----

  lemma QuietKeepsLog(s: State, t: State)
    requires LogInv(s) && SameMarks(s, t)
    requires forall i :: 0 <= i < |s.links| ==> t.links[i].command == s.links[i].command
    ensures LogInv(t)
  {
  }

  lemma JoinKeepsLog(s: State, i: nat)
    requires LogInv(s) && i < |s.dispatching|
    ensures LogInv(JoinChain(s, i))
  {
  }

  /** Adding a mark to the log keeps what earlier marks were preceded by. */
  lemma MarkKeepsPrefixes(log: seq<Mark>, mark: Mark)
    ensures forall q :: 0 <= q <= |log| ==> (log + [mark])[..q] == log[..q]
    ensures forall m :: m in log + [mark] <==> m in log || m == mark
  {
  }

  lemma {:induction false} BeginKeepsLog(s: State, id: nat)
    requires SerialInv(s) && WaitInv(s) && LogInv(s) && Enabled(s, DoBegin(id))
    ensures LogInv(Begin(s, id))
  {
    var t := Begin(s, id);
    ItsTurn(s, id);
    MarkKeepsPrefixes(s.log, Began(id));
    assert forall i :: 0 <= i < |s.links| ==> SettledAt(t, i) == SettledAt(s, i);
    forall q, i | 0 <= q < |t.log| && t.log[q].Began? && 0 <= i < t.log[q].id && SameScope(t, i, t.log[q].id)
      ensures Ended(i) in t.log[..q]
    {
      assert SameScope(s, i, t.log[q].id);
      if q == |s.log| { assert SettledAt(s, i) && t.log[..q] == s.log; }
    }
  }

  lemma {:induction false} SettleKeepsLog(s: State, id: nat)
    requires LogInv(s) && id < |s.links| && BegunAt(s, id)
    ensures LogInv(Settle(s, id))
  {
    var t := Settle(s, id);
    MarkKeepsPrefixes(s.log, Ended(id));
    forall q, i | 0 <= q < |t.log| && t.log[q].Began? && 0 <= i < t.log[q].id && SameScope(t, i, t.log[q].id)
      ensures Ended(i) in t.log[..q]
    {
      assert SameScope(s, i, s.log[q].id);
    }
  }

  // ---- All invariants, every step ----

  /** What a step may do to the links, for the purposes of the invariants. */
  ghost predicate Shaped(s: State, t: State) {
    Advances(s, t) && forall i :: 0 <= i < |s.links| && BegunAt(t, i) ==> BegunAt(s, i)
  }

  /** A command that has begun moves on to another point of its execution. */
  lemma MoveShape(s: State, t: State, id: nat)
    requires id < |s.links| && BegunAt(s, id) && |t.links| == |s.links|
    requires t.links[id].command == s.links[id].command && HasBegun(t.links[id].point)
    requires SettledAt(s, id) ==> HasSettled(t.links[id].point)
    requires forall i :: 0 <= i < |s.links| && i != id ==> t.links[i] == s.links[i]
    ensures Shaped(s, t)
    ensures t.log == s.log && SettledAt(t, id) == SettledAt(s, id) ==> SameMarks(s, t)
  {
  }

  predicate IsMove(a: Action) {
    a.DoMarkStarted? || a.DoAnnounce? || a.DoHandlerEnds? || a.DoTimeOut? || a.DoMarkTerminal?
  }

  lemma ShapeOfMove(s: State, a: Action)
    requires Enabled(s, a) && IsMove(a)
    ensures Shaped(s, Step(s, a)) && SameMarks(s, Step(s, a)) && Step(s, a).scopeChains == s.scopeChains
  {
    MoveShape(s, Step(s, a), a.id);
  }

  lemma ShapeOfSettle(s: State, a: Action)
    requires Enabled(s, a) && (a.DoSettle? || a.DoThrow?)
    ensures Shaped(s, Step(s, a)) && Step(s, a).scopeChains == s.scopeChains
  {
    MoveShape(s, Step(s, a), a.id);
  }

  lemma ShapeOfSweep(s: State, a: Action)
    requires Enabled(s, a) && a.DoSweep?
    ensures Shaped(s, Step(s, a)) && SameMarks(s, Step(s, a))
  {
  }

  predicate IsQuiet(a: Action) {
    a.DoDispatch? || a.DoRecordAccepted? || a.DoDispatchFails? || a.DoDrain? || a.DoContinueDrain? ||
    a.DoShutdown? || a.DoHandlerReturns?
  }

  lemma ShapeOfQuiet(s: State, a: Action)
    requires Enabled(s, a) && IsQuiet(a)
    ensures Shaped(s, Step(s, a)) && SameMarks(s, Step(s, a)) && Step(s, a).scopeChains == s.scopeChains
  {
  }

  lemma PendingNext(s: State, a: Action)
    requires PendingInv(s)
    ensures PendingInv(Next(s, a))
  {
  }

  lemma ShapeNext(s: State, a: Action)
    requires SerialInv(s) && WaitInv(s) && ChainsInv(s) && LogInv(s)
    requires Enabled(s, a) && !a.DoJoinChain? && !a.DoBegin?
    ensures var t := Step(s, a); SerialInv(t) && WaitInv(t) && ChainsInv(t) && LogInv(t)
  {
    var t := Step(s, a);
    if IsQuiet(a) {
      ShapeOfQuiet(s, a);
      AdvanceKeepsOrder(s, t);
      AdvanceKeepsChains(s, t);
      QuietKeepsLog(s, t);
    } else if a.DoSweep? {
      ShapeOfSweep(s, a);
      AdvanceKeepsOrder(s, t);
      SweepKeepsChains(s, a.id);
      QuietKeepsLog(s, t);
    } else if a.DoSettle? || a.DoThrow? {
      ShapeOfSettle(s, a);
      AdvanceKeepsOrder(s, t);
      AdvanceKeepsChains(s, t);
      SettleKeepsLog(s, a.id);
    } else {
      ShapeOfMove(s, a);
      AdvanceKeepsOrder(s, t);
      AdvanceKeepsChains(s, t);
      QuietKeepsLog(s, t);
    }
  }

  lemma JoinNext(s: State, i: nat)
    requires SerialInv(s) && WaitInv(s) && ChainsInv(s) && LogInv(s) && i < |s.dispatching|
    ensures var t := JoinChain(s, i); SerialInv(t) && WaitInv(t) && ChainsInv(t) && LogInv(t)
  {
    JoinKeepsSerial(s, i);
    JoinKeepsWaits(s, i);
    JoinKeepsChains(s, i);
    JoinKeepsLog(s, i);
  }

  lemma ShapeOfBegin(s: State, id: nat)
    requires Enabled(s, DoBegin(id))
    ensures Advances(s, Begin(s, id)) && Begin(s, id).scopeChains == s.scopeChains
  {
  }

  lemma BeginNext(s: State, id: nat)
    requires SerialInv(s) && WaitInv(s) && ChainsInv(s) && LogInv(s) && Enabled(s, DoBegin(id))
    ensures var t := Begin(s, id); SerialInv(t) && WaitInv(t) && ChainsInv(t) && LogInv(t)
  {
    BeginKeepsOrder(s, id);
    BeginKeepsLog(s, id);
    ShapeOfBegin(s, id);
    AdvanceKeepsChains(s, Begin(s, id));
  }

  lemma InvNext(s: State, a: Action)
    requires Inv(s)
    ensures Inv(Next(s, a))
  {
    PendingNext(s, a);
    if !Enabled(s, a) {
    } else if a.DoJoinChain? {
      JoinNext(s, a.i);
    } else if a.DoBegin? {
      BeginNext(s, a.id);
    } else {
      ShapeNext(s, a);
    }
  }

  lemma {:induction false} InvFrom(s: State, actions: seq<Action>)
    requires Inv(s)
    ensures Inv(RunFrom(s, actions))
  {
    if actions == [] {
    } else {
      InvFrom(s, actions[..|actions| - 1]);
      InvNext(RunFrom(s, actions[..|actions| - 1]), actions[|actions| - 1]);
    }
  }

  lemma Reached(actions: seq<Action>) returns (s: State)
    ensures s == RunFrom(INITIAL, actions) && Inv(s)
  {
    InvFrom(INITIAL, actions);
    s := RunFrom(INITIAL, actions);
  }

  /**
   * Two commands of one scope never overlap: when the later one in chain order begins, the earlier one has
   * begun and settled before.
   */
  lemma {:induction false} ScopesSerialise(actions: seq<Action>, first: nat, second: nat, q: nat)
    requires var s := RunFrom(INITIAL, actions);
             && first < second < |s.links| && Scope(s.links[first].command) == Scope(s.links[second].command)
             && q < |s.log| && s.log[q] == Began(second)
    ensures var log := RunFrom(INITIAL, actions).log;
            exists b, e :: 0 <= b < e < q && log[b] == Began(first) && log[e] == Ended(first)
  {
    var s := Reached(actions);
    assert SameScope(s, first, s.log[q].id);
    IntervalBefore(s, first, q);
  }

  lemma {:induction false} IntervalBefore(s: State, first: nat, q: nat)
    requires LogInv(s) && q <= |s.log| && Ended(first) in s.log[..q]
    ensures exists b, e :: 0 <= b < e < q && s.log[b] == Began(first) && s.log[e] == Ended(first)
  {
    var e :| 0 <= e < q && s.log[..q][e] == Ended(first);
    assert s.log[e].Ended?;
    var b :| 0 <= b < e && s.log[..e][b] == Began(first);
    assert s.log[b] == Began(first) && s.log[e] == Ended(first);
  }

  predicate UniqueMarks(log: seq<Mark>) {
    forall q, r :: 0 <= q < r < |log| ==> log[q] != log[r]
  }

  lemma LogStep(s: State, a: Action)
    requires LogInv(s)
    ensures var log := Next(s, a).log; log == s.log || exists mark :: mark !in s.log && log == s.log + [mark]
  {
  }

  /** Every command has one interval: it begins at most once and settles at most once. */
  lemma {:induction false} MarksAreUnique(actions: seq<Action>)
    ensures UniqueMarks(RunFrom(INITIAL, actions).log)
  {
    if actions == [] {
    } else {
      var s := Reached(actions[..|actions| - 1]);
      MarksAreUnique(actions[..|actions| - 1]);
      LogStep(s, actions[|actions| - 1]);
    }
  }

  /** A scope missing from the map has no unsettled execution, so forgetting it is safe. */
  lemma ForgottenScopesAreSettled(actions: seq<Action>, id: nat)
    requires var s := RunFrom(INITIAL, actions); id < |s.links| && Scope(s.links[id].command) !in s.scopeChains
    ensures HasSettled(RunFrom(INITIAL, actions).links[id].point)
  {
    var s := Reached(actions);
    assert ScopeAt(s, id) !in s.scopeChains;
  }

  /** drain() resolves only in a state in which every command that ever joined a chain has settled. */
  lemma DrainWaitsForEverything(actions: seq<Action>, a: Action, d: nat)
    requires var s := RunFrom(INITIAL, actions); d < |s.drains| ==> !s.drains[d].resolved
    requires var t := RunFrom(INITIAL, actions + [a]); d < |t.drains| && t.drains[d].resolved
    ensures var t := RunFrom(INITIAL, actions + [a]);
            t.pending == {} && forall i :: 0 <= i < |t.links| ==> HasSettled(t.links[i].point)
  {
    var s := Reached(actions);
    var t := Reached(actions + [a]);
    assert (actions + [a])[..|actions|] == actions;
    ResolvedOnEmpty(s, a, d);
    forall i | 0 <= i < |t.links| ensures HasSettled(t.links[i].point) {
      assert i !in t.pending;
    }
  }

  lemma ResolvedOnEmpty(s: State, a: Action, d: nat)
    requires d < |s.drains| ==> !s.drains[d].resolved
    requires var t := Next(s, a); d < |t.drains| && t.drains[d].resolved
    ensures Next(s, a).pending == {}
  {
  }

  // ---- One link at a time ----

  /** The steps of one command, once it is in its chain. */
  predicate IsLinkStep(a: Action) {
    IsMove(a) || a.DoBegin? || a.DoHandlerReturns? || a.DoSettle? || a.DoThrow? || a.DoSweep?
  }

  lemma OnlyItsLink(s: State, a: Action)
    requires IsLinkStep(a) && Enabled(s, a)
    ensures a.id < |s.links| && |Step(s, a).links| == |s.links|
    ensures Step(s, a).links == s.links[a.id := Step(s, a).links[a.id]]
  {
  }

  /** The other steps add a waiting link at most, and at most abort some. */
  lemma LinksElsewhere(s: State, a: Action)
    requires !IsLinkStep(a) && Enabled(s, a)
    ensures var t := Step(s, a);
            && |s.links| <= |t.links|
            && (forall i :: 0 <= i < |s.links| ==>
                  t.links[i] == s.links[i] || t.links[i] == s.links[i].(aborted := true))
            && (forall i :: |s.links| <= i < |t.links| ==>
                  t.links[i].point.Waiting? && t.links[i].status.IsAccepted? && !t.links[i].running && !t.links[i].timedOut)
  {
  }

  // ---- Handlers ----

  /** A handler at work outside its execution's handling point is one that timed out. */
  predicate HandlerOk(link: Link) {
    && (link.point.Handling? ==> !link.timedOut)
    && (link.running && !link.point.Handling? ==> link.timedOut)
    && (link.timedOut ==> link.point.Closing? || link.point.Closed? || HasSettled(link.point))
  }

  ghost predicate HandlerInv(s: State) {
    forall i :: 0 <= i < |s.links| ==> HandlerOk(s.links[i])
  }

  lemma HandlerLink(s: State, a: Action)
    requires IsLinkStep(a) && Enabled(s, a) && HandlerOk(s.links[a.id])
    ensures HandlerOk(Step(s, a).links[a.id])
  {
  }

  lemma HandlerNext(s: State, a: Action)
    requires HandlerInv(s)
    ensures HandlerInv(Next(s, a))
  {
    if Enabled(s, a) {
      if IsLinkStep(a) {
        OnlyItsLink(s, a);
        HandlerLink(s, a);
      } else {
        LinksElsewhere(s, a);
      }
    }
  }

  lemma {:induction false} HandlerFrom(actions: seq<Action>)
    ensures HandlerInv(RunFrom(INITIAL, actions))
  {
    if actions == [] {
    } else {
      HandlerFrom(actions[..|actions| - 1]);
      HandlerNext(RunFrom(INITIAL, actions[..|actions| - 1]), actions[|actions| - 1]);
    }
  }

  /** Two handlers of one scope are at work together only when the earlier one has timed out. */
  lemma {:induction false} HandlersOverlapOnlyAfterTimeout(actions: seq<Action>, first: nat, second: nat)
    requires var s := RunFrom(INITIAL, actions);
             && first < second < |s.links| && Scope(s.links[first].command) == Scope(s.links[second].command)
             && s.links[first].running && s.links[second].running
    ensures RunFrom(INITIAL, actions).links[first].timedOut
  {
    var s := Reached(actions);
    HandlerFrom(actions);
    assert SameScope(s, first, second) && BegunAt(s, second);
  }

  /** The turns that take a command from its chain to its handler. */
  function StartHandling(s: State, id: nat): State
    requires Enabled(s, DoBegin(id))
  {
    Next(Next(Begin(s, id), DoMarkStarted(id)), DoAnnounce(id))
  }

  /**
   * When a later command of the scope reaches its handler, the two handlers are at work together if and only if
   * the earlier one has timed out and not returned since.
   */
  lemma {:induction false} HandlersOverlapIff(actions: seq<Action>, first: nat, second: nat)
    requires var s := RunFrom(INITIAL, actions);
             && first < second && Enabled(s, DoBegin(second))
             && Scope(s.links[first].command) == Scope(s.links[second].command)
    ensures var s := RunFrom(INITIAL, actions);
            var t := StartHandling(s, second);
            (t.links[first].running && t.links[second].running) <==> (s.links[first].timedOut && s.links[first].running)
  {
    var s := Reached(actions);
    HandlerFrom(actions);
    ItsTurn(s, second);
    assert SameScope(s, first, second) && SettledAt(s, first);
    var t := StartHandling(s, second);
    assert t.links[second].running && t.links[first] == s.links[first];
  }

  lemma RunSnoc(actions: seq<Action>, a: Action)
    ensures RunFrom(INITIAL, actions + [a]) == Next(RunFrom(INITIAL, actions), a)
  {
  }

  lemma DispatchOne(actions: seq<Action>, command: Command) returns (more: seq<Action>)
    requires var s := RunFrom(INITIAL, actions); s.dispatching == [] && !s.shuttingDown
    ensures var s := RunFrom(INITIAL, actions);
            RunFrom(INITIAL, more) == JoinChain(s.(dispatching := [Dispatching(command, true)]), 0)
  {
    RunSnoc(actions, DoDispatch(command));
    RunSnoc(actions + [DoDispatch(command)], DoRecordAccepted(0));
    more := actions + [DoDispatch(command)] + [DoRecordAccepted(0)] + [DoJoinChain(0)];
    RunSnoc(actions + [DoDispatch(command)] + [DoRecordAccepted(0)], DoJoinChain(0));
    assert RecordAccepted(Dispatch(RunFrom(INITIAL, actions), command), 0).dispatching == [Dispatching(command, true)];
  }

  lemma HandleOne(actions: seq<Action>, id: nat) returns (more: seq<Action>)
    requires Enabled(RunFrom(INITIAL, actions), DoBegin(id))
    ensures var s, t := RunFrom(INITIAL, actions), RunFrom(INITIAL, more);
            && t.links == s.links[id := s.links[id].(point := Handling, status := IsStarted, running := true)]
            && t.dispatching == s.dispatching && t.shuttingDown == s.shuttingDown
  {
    RunSnoc(actions, DoBegin(id));
    RunSnoc(actions + [DoBegin(id)], DoMarkStarted(id));
    more := actions + [DoBegin(id)] + [DoMarkStarted(id)] + [DoAnnounce(id)];
    RunSnoc(actions + [DoBegin(id)] + [DoMarkStarted(id)], DoAnnounce(id));
  }

  lemma {:induction false} TimeOutOne(actions: seq<Action>, id: nat) returns (more: seq<Action>)
    requires var s := RunFrom(INITIAL, actions); id < |s.links| && s.links[id].point.Handling?
    ensures var s, t := RunFrom(INITIAL, actions), RunFrom(INITIAL, more);
            t.links == s.links[id := s.links[id].(point := Settled, status := IsFailed, timedOut := true)]
  {
    RunSnoc(actions, DoTimeOut(id));
    RunSnoc(actions + [DoTimeOut(id)], DoMarkTerminal(id));
    more := actions + [DoTimeOut(id)] + [DoMarkTerminal(id)] + [DoSettle(id)];
    RunSnoc(actions + [DoTimeOut(id)] + [DoMarkTerminal(id)], DoSettle(id));
  }

  /** And then they can be: two prompts to one session at work at once, the first past its timeout. */
  lemma TimedOutHandlersDoOverlap() returns (actions: seq<Action>)
    ensures var s := RunFrom(INITIAL, actions);
            && |s.links| == 2 && Scope(s.links[0].command) == Scope(s.links[1].command)
            && s.links[0].running && s.links[1].running
  {
    actions := DispatchOne([], SessionSendPrompt("s"));
    actions := DispatchOne(actions, SessionSendPrompt("s"));
    actions := HandleOne(actions, 0);
    actions := TimeOutOne(actions, 0);
    actions := HandleOne(actions, 1);
  }

  // ---- Progress ----

  /** The commands' own steps: everything but dispatches, drains and shutdown. */
  predicate IsOwn(a: Action) {
    IsMove(a) || a.DoBegin? || a.DoSettle? || a.DoThrow? || a.DoSweep?
  }

  function Remaining(point: Point): nat {
    match point
    case Waiting(_) => 7
    case Marking => 6
    case Announcing => 5
    case Handling => 4
    case Closing(_) => 3
    case Closed => 2
    case Settled => 1
    case Swept => 0
  }

  function Work(links: seq<Link>): nat {
    if links == [] then 0 else Work(links[..|links| - 1]) + Remaining(links[|links| - 1].point)
  }

  lemma {:induction false} WorkAfterUpdate(links: seq<Link>, i: nat, link: Link)
    requires i < |links|
    ensures Work(links[i := link]) == Work(links) - Remaining(links[i].point) + Remaining(link.point)
  {
    var n := |links| - 1;
    if i == n {
      assert links[i := link][..n] == links[..n];
    } else {
      WorkAfterUpdate(links[..n], i, link);
      assert links[i := link][..n] == links[..n][i := link];
    }
  }

  /** A step of some command can always be taken until all of them are forgotten: chains never deadlock. */
  lemma ChainsNeverDeadlock(actions: seq<Action>)
    requires RunFrom(INITIAL, actions).pending != {}
    ensures exists a :: IsOwn(a) && Enabled(RunFrom(INITIAL, actions), a)
  {
    var s := Reached(actions);
    var id: nat :| id in s.pending;
    var a := StepOf(s, id);
  }

  lemma {:induction false} StepOf(s: State, id: nat) returns (a: Action)
    requires WaitInv(s) && id < |s.links| && !s.links[id].point.Swept?
    ensures IsOwn(a) && Enabled(s, a)
  {
    match s.links[id].point {
      case Waiting(after) =>
        if after.Some? && !SettledAt(s, after.value) {
          a := StepOf(s, after.value);
        } else {
          a := DoBegin(id);
        }
      case Marking => a := DoMarkStarted(id);
      case Announcing => a := DoAnnounce(id);
      case Handling => a := DoHandlerEnds(id, false);
      case Closing(_) => a := DoMarkTerminal(id);
      case Closed => a := DoSettle(id);
      case Settled => a := DoSweep(id);
    }
  }

  lemma MoveMovesOn(s: State, a: Action)
    requires IsMove(a) && Enabled(s, a)
    ensures Remaining(Step(s, a).links[a.id].point) < Remaining(s.links[a.id].point)
  {
  }

  lemma OwnStepMovesOn(s: State, a: Action)
    requires IsOwn(a) && Enabled(s, a)
    ensures Remaining(Step(s, a).links[a.id].point) < Remaining(s.links[a.id].point)
  {
    if IsMove(a) { MoveMovesOn(s, a); }
  }

  /** And there are only so many of them. */
  lemma OwnStepsRunOut(s: State, a: Action)
    requires IsOwn(a) && Enabled(s, a)
    ensures Work(Step(s, a).links) < Work(s.links)
  {
    OnlyItsLink(s, a);
    OwnStepMovesOn(s, a);
    WorkAfterUpdate(s.links, a.id, Step(s, a).links[a.id]);
  }

  lemma {:induction false} RunSplit(s: State, first: seq<Action>, second: seq<Action>)
    ensures RunFrom(s, first + second) == RunFrom(RunFrom(s, first), second)
  {
    if second == [] {
      assert first + second == first;
    } else {
      assert (first + second)[..|first + second| - 1] == first + second[..|second| - 1];
      RunSplit(s, first, second[..|second| - 1]);
    }
  }

  ghost predicate IsOwnRun(s: State, steps: seq<Action>) {
    forall i :: 0 <= i < |steps| ==> IsOwn(steps[i]) && Enabled(RunFrom(s, steps[..i]), steps[i])
  }

  lemma {:induction false} OwnRunPrefix(s: State, steps: seq<Action>)
    requires IsOwnRun(s, steps) && steps != []
    ensures var n := |steps| - 1;
            IsOwnRun(s, steps[..n]) && IsOwn(steps[n]) && Enabled(RunFrom(s, steps[..n]), steps[n])
  {
    var n := |steps| - 1;
    assert forall i :: 0 <= i < n ==> steps[..n][i] == steps[i] && steps[..n][..i] == steps[..i];
  }

  lemma {:induction false} OwnRunsAreBounded(s: State, steps: seq<Action>)
    requires IsOwnRun(s, steps)
    ensures |steps| + Work(RunFrom(s, steps).links) <= Work(s.links)
  {
    if steps == [] {
    } else {
      var init := steps[..|steps| - 1];
      OwnRunPrefix(s, steps);
      OwnRunsAreBounded(s, init);
      OwnStepsRunOut(RunFrom(s, init), steps[|steps| - 1]);
    }
  }

  /** Every maximal run of the commands' own steps is short, ends with nothing pending, and lets every drain resolve. */
  lemma {:induction false} OwnRunsEndDrained(actions: seq<Action>, steps: seq<Action>, d: nat)
    requires IsOwnRun(RunFrom(INITIAL, actions), steps)
    requires forall a :: IsOwn(a) ==> !Enabled(RunFrom(RunFrom(INITIAL, actions), steps), a)
    ensures var s, t := RunFrom(INITIAL, actions), RunFrom(RunFrom(INITIAL, actions), steps);
            && |steps| <= Work(s.links) && t.pending == {}
            && (d < |t.drains| && !t.drains[d].resolved ==>
                  Enabled(t, DoContinueDrain(d)) && ContinueDrain(t, d).drains[d].resolved)
  {
    OwnRunsAreBounded(RunFrom(INITIAL, actions), steps);
    RunSplit(INITIAL, actions, steps);
    var t := Reached(actions + steps);
    if t.pending != {} { ChainsNeverDeadlock(actions + steps); }
    forall i: nat | i < |t.links| ensures t.links[i].point.Swept? { assert i !in t.pending; }
  }

  // ---- Shutdown ----

  predicate AllSwept(s: State) {
    forall i :: 0 <= i < |s.links| ==> s.links[i].point.Swept?
  }

  predicate AtRest(s: State) {
    s.shuttingDown && s.dispatching == [] && AllSwept(s)
  }

  lemma RestNext(s: State, a: Action)
    requires AtRest(s)
    ensures AtRest(Next(s, a)) && Next(s, a).log == s.log
  {
  }

  lemma {:induction false} RestFrom(s: State, actions: seq<Action>)
    requires AtRest(s)
    ensures AtRest(RunFrom(s, actions)) && RunFrom(s, actions).log == s.log
  {
    if actions == [] {
    } else {
      RestFrom(s, actions[..|actions| - 1]);
      RestNext(RunFrom(s, actions[..|actions| - 1]), actions[|actions| - 1]);
    }
  }

  lemma RunOfOne(s: State, a: Action)
    ensures RunFrom(s, [a]) == Next(s, a)
  {
  }

  lemma RunOfTwo(s: State, a: Action, b: Action)
    ensures RunFrom(s, [a, b]) == Next(Next(s, a), b)
  {
    assert [a, b][..1] == [a];
    RunOfOne(s, a);
  }

  lemma RunOfThree(s: State, a: Action, b: Action, c: Action)
    ensures RunFrom(s, [a, b, c]) == Next(Next(Next(s, a), b), c)
  {
    assert [a, b, c][..2] == [a, b];
    RunOfTwo(s, a, b);
  }

  lemma LateDispatchJoins(s: State)
    requires Inv(s) && AllSwept(s) && s.dispatching != []
    ensures var t := Next(Next(s, DoRecordAccepted(0)), DoJoinChain(0));
            && t.log == s.log && |t.links| == |s.links| + 1 && !t.links[|s.links|].aborted
            && Enabled(t, DoBegin(|s.links|))
  {
    var s1 := Next(s, DoRecordAccepted(0));
    assert s1.dispatching[0].recorded && s1.links == s.links && s1.scopeChains == s.scopeChains;
    var s2 := Next(s1, DoJoinChain(0));
    var scope := Scope(s1.dispatching[0].command);
    assert scope in s.scopeChains ==>
             s.scopeChains[scope] < |s.links| && s2.links[s.scopeChains[scope]] == s.links[s.scopeChains[scope]];
  }

  /** A dispatch that was awaiting persistence when shutdown drained the queue starts its command afterwards. */
  lemma LateDispatchBegins(s: State) returns (more: seq<Action>)
    requires Inv(s) && AllSwept(s) && s.dispatching != []
    ensures var t := RunFrom(s, more);
            t.log == s.log + [Began(|s.links|)] && |t.links| == |s.links| + 1 && !t.links[|s.links|].aborted
  {
    more := [DoRecordAccepted(0), DoJoinChain(0), DoBegin(|s.links|)];
    RunOfThree(s, more[0], more[1], more[2]);
    LateDispatchJoins(s);
  }

  /**
   * Once shutdown has drained the queue, no command begins any more, if and only if no dispatch was still
   * awaiting its persistence then.
   */
  lemma ShutdownIsFinalIff(actions: seq<Action>)
    requires var s := RunFrom(INITIAL, actions); s.shuttingDown && s.pending == {}
    ensures var s := RunFrom(INITIAL, actions);
            (forall more :: RunFrom(s, more).log == s.log) <==> s.dispatching == []
  {
    var s := Reached(actions);
    assert AllSwept(s) by {
      forall i: nat | i < |s.links| ensures s.links[i].point.Swept? { assert i !in s.pending; }
    }
    if s.dispatching == [] {
      forall more ensures RunFrom(s, more).log == s.log { RestFrom(s, more); }
    } else {
      var more := LateDispatchBegins(s);
      assert RunFrom(s, more).log != s.log;
    }
  }

  /** The status column follows the execution: it is terminal only once the handler's result is known. */
  predicate StatusOk(link: Link) {
    match link.point
    case Waiting(_) => link.status.IsAccepted?
    case Marking => link.status.IsAccepted?
    case Announcing => link.status.IsStarted?
    case Handling => link.status.IsStarted?
    case Closing(_) => link.status.IsStarted?
    case Closed => link.status.IsSucceeded? || link.status.IsFailed?
    case _ => true
  }

  ghost predicate StatusInv(s: State) {
    forall i :: 0 <= i < |s.links| ==> StatusOk(s.links[i])
  }

  lemma StatusLink(s: State, a: Action)
    requires IsLinkStep(a) && Enabled(s, a) && StatusOk(s.links[a.id])
    ensures StatusOk(Step(s, a).links[a.id])
  {
  }

  lemma StatusNext(s: State, a: Action)
    requires StatusInv(s)
    ensures StatusInv(Next(s, a))
  {
    if Enabled(s, a) {
      if IsLinkStep(a) {
        OnlyItsLink(s, a);
        StatusLink(s, a);
      } else {
        LinksElsewhere(s, a);
      }
    }
  }

  lemma {:induction false} StatusFrom(actions: seq<Action>)
    ensures StatusInv(RunFrom(INITIAL, actions))
  {
    if actions == [] {
    } else {
      StatusFrom(actions[..|actions| - 1]);
      StatusNext(RunFrom(INITIAL, actions[..|actions| - 1]), actions[|actions| - 1]);
    }
  }

  predicate IsDoomed(link: Link) {
    link.aborted && link.point != Closing(true) && !link.status.IsSucceeded?
  }

  lemma DoomedNext(s: State, a: Action, id: nat)
    requires id < |s.links| && IsDoomed(s.links[id])
    ensures id < |Next(s, a).links| && IsDoomed(Next(s, a).links[id])
  {
  }

  lemma {:induction false} DoomedFrom(s: State, actions: seq<Action>, id: nat)
    requires id < |s.links| && IsDoomed(s.links[id])
    ensures id < |RunFrom(s, actions).links| && IsDoomed(RunFrom(s, actions).links[id])
  {
    if actions == [] {
    } else {
      DoomedFrom(s, actions[..|actions| - 1], id);
      DoomedNext(RunFrom(s, actions[..|actions| - 1]), actions[|actions| - 1], id);
    }
  }

  predicate HandlerMayStillReturn(point: Point) {
    point.Waiting? || point.Marking? || point.Announcing? || point.Handling?
  }

  /**
   * A command caught by a shutdown before its handler had returned never succeeds, whatever happens later;
   * waiting commands still run through their chain, and fail.
   */
  lemma {:induction false} ShutdownFailsTheUnfinished(actions: seq<Action>, more: seq<Action>, id: nat)
    requires var s := RunFrom(INITIAL, actions);
             id < |s.links| && HandlerMayStillReturn(s.links[id].point)
    ensures var t := RunFrom(Shutdown(RunFrom(INITIAL, actions)), more);
            id < |t.links| && !t.links[id].status.IsSucceeded?
  {
    var s := Reached(actions);
    StatusFrom(actions);
    assert id in s.controllers;
    DoomedFrom(Shutdown(s), more, id);
  }
}
