/** What each event changes in a snapshot, place by place: which rows and sessions, which fields, and nothing else. */
module ReducerTheorems {
  import opened Wrappers
  import opened Sequences
  import opened SnapshotReducer

  // ---- Merging, field by field ----

  /** A present field of a patch is taken, an absent one keeps what was there. */
  predicate Takes<T(==)>(field: Option<T>, before: T, after: T) {
    (field.Some? ==> after == field.value) && (field.None? ==> after == before)
  }

  /** `{...under, ...over}`, key by key. */
  ghost predicate Overlays(under: Record, over: Record, result: Record) {
    forall key ::
      && (key in result <==> key in under || key in over)
      && (key in over ==> result[key] == over[key])
      && (key in under && key !in over ==> result[key] == under[key])
  }

  ghost predicate TakesRecord(field: Option<Record>, before: Record, after: Record) {
    (field.Some? ==> Overlays(before, field.value, after)) && (field.None? ==> after == before)
  }

  /** A patch of the display leaves a warning and a reason that it does not name. */
  ghost predicate TakesDisplay(field: Option<Display>, before: Display, after: Display) {
    match field
    case None => after == before
    case Some(patch) =>
      && after.statusLabel == patch.statusLabel && after.sortPriority == patch.sortPriority && after.alert == patch.alert
      && after.warning == (if patch.warning.Some? then patch.warning else before.warning)
      && after.reason == (if patch.reason.Some? then patch.reason else before.reason)
  }

  ghost predicate TakesRowPatch(patch: RowPatch, before: Row, after: Row) {
    && Takes(patch.id, before.id, after.id) && Takes(patch.projectId, before.projectId, after.projectId)
    && Takes(patch.projectLabel, before.projectLabel, after.projectLabel)
    && Takes(patch.branch, before.branch, after.branch) && Takes(patch.path, before.path, after.path)
    && TakesRecord(patch.worktree, before.worktree, after.worktree)
    && (patch.terminal.Keep? ==> after.terminal == before.terminal)
    && (patch.terminal.Clear? ==> after.terminal.None?)
    && (patch.terminal.Put? ==>
          after.terminal.Some? &&
          Overlays(if before.terminal.Some? then before.terminal.value else map[], patch.terminal.value, after.terminal.value))
    && (patch.agent.Keep? ==> after.agent == before.agent) && (patch.agent.Clear? ==> after.agent.None?)
    && (patch.agent.Put? ==> after.agent == Some(patch.agent.value))
    && TakesDisplay(patch.display, before.display, after.display)
    && after.recovery.None?
  }

  ghost predicate TakesSessionPatch(patch: SessionPatch, before: Session, after: Session) {
    && Takes(patch.id, before.id, after.id) && Takes(patch.projectId, before.projectId, after.projectId)
    && Takes(patch.worktreeId, before.worktreeId, after.worktreeId)
    && Takes(patch.createdAt, before.createdAt, after.createdAt)
    && Takes(patch.updatedAt, before.updatedAt, after.updatedAt)
    && TakesRecord(patch.harness, before.harness, after.harness)
    && TakesRecord(patch.terminal, before.terminal, after.terminal)
    && TakesRecord(patch.status, before.status, after.status)
    && Takes(patch.title, before.title, after.title) && Takes(patch.tags, before.tags, after.tags)
  }

  /** The status line of an agent: label, rank, whether it alerts, and what else it has to say. */
  ghost predicate ShowsAgent(agent: Option<Agent>, before: Display, after: Display) {
    match agent
    case None =>
      var shown := Display("no agent", 70, false, None, Some("No harness run is associated with this worktree."));
      TakesDisplay(Some(shown), before, after)
    case Some(a) =>
      && after.alert == (a.state.NeedsAttention? || a.state.Stuck?)
      && after.warning == (if a.state.Stuck? then Some(true) else before.warning)
      && after.reason == (if a.state.NeedsAttention? || a.state.Stuck? then Some(a.reason) else before.reason)
      && (a.state.NeedsAttention? ==> after.statusLabel == "needs attention" && after.sortPriority == 10)
      && (a.state.Stuck? ==> after.statusLabel == "stuck" && after.sortPriority == 20)
      && (a.state.Working? ==> after.statusLabel == "working" && after.sortPriority == 30)
      && (a.state.Starting? ==> after.statusLabel == "starting" && after.sortPriority == 35)
      && (a.state.Idle? ==> after.statusLabel == "idle" && after.sortPriority == 40)
      && (a.state.UnknownState? ==> after.statusLabel == "unknown" && after.sortPriority == 50)
      && (a.state.Exited? ==> after.statusLabel == "exited" && after.sortPriority == 60)
  }

  /** An agent event sets the agent and its status line, and leaves every other field but `recovery` alone. */
  ghost predicate TakesAgent(agent: Option<Agent>, before: Row, after: Row) {
    && after == before.(agent := agent, display := after.display, recovery := None)
    && ShowsAgent(agent, before.display, after.display)
  }

  lemma RowPatchIsTaken(row: Row, patch: RowPatch)
    ensures TakesRowPatch(patch, row, MergeRowPatch(row, patch))
  {
  }

  lemma AgentIsTaken(row: Row, agent: Option<Agent>)
    ensures TakesAgent(agent, row, MergeRowPatch(row, RowPatchForAgentState(agent)))
  {
  }

  lemma SessionPatchIsTaken(session: Session, patch: SessionPatch)
    ensures TakesSessionPatch(patch, session, MergeSessionPatch(session, patch))
  {
  }

  // ---- Filters ----

  lemma {:induction false} RowsAreLeft(rows: seq<Row>, worktreeId: string, kept: Row -> bool) returns (at: seq<nat>)
    requires forall row :: kept(row) <==> row.id != worktreeId
    ensures LeavesExactly(at, rows, RemoveRows(rows, worktreeId), kept)
  {
    if rows == [] {
      at := [];
    } else {
      var tail := RowsAreLeft(rows[1..], worktreeId, kept);
      at := LeavesMore(rows[0], rows[1..], tail, RemoveRows(rows[1..], worktreeId), kept);
      assert [rows[0]] + rows[1..] == rows;
    }
  }

  lemma {:induction false} SessionsAreLeft(sessions: seq<Session>, filter: SessionFilter, kept: Session -> bool)
    returns (at: seq<nat>)
    requires forall session :: kept(session) == !filter.Matches(session)
    ensures LeavesExactly(at, sessions, RemoveSessions(sessions, filter), kept)
  {
    if sessions == [] {
      at := [];
    } else {
      var tail := SessionsAreLeft(sessions[1..], filter, kept);
      at := LeavesMore(sessions[0], sessions[1..], tail, RemoveSessions(sessions[1..], filter), kept);
      assert [sessions[0]] + sessions[1..] == sessions;
    }
  }

  // ---- What an event does ----

  /** The rows with this id are changed as told, where they are; the others stay as and where they are. */
  ghost predicate ChangesRows(before: seq<Row>, after: seq<Row>, id: string, changed: (Row, Row) -> bool) {
    && |after| == |before|
    && forall i :: 0 <= i < |before| ==> if before[i].id == id then changed(before[i], after[i]) else after[i] == before[i]
  }

  ghost predicate ChangesSessions(before: seq<Session>, after: seq<Session>, id: string, changed: (Session, Session) -> bool) {
    && |after| == |before|
    && forall i :: 0 <= i < |before| ==> if before[i].id == id then changed(before[i], after[i]) else after[i] == before[i]
  }

  /** The rows after any event; `at` are the places of those that a removal leaves. */
  lemma {:induction false} RowsAfterEvent(snapshot: Snapshot, event: Event) returns (at: seq<nat>)
    ensures var before, after := snapshot.rows, ApplyEvent(snapshot, event).snapshot.rows;
            && (event.WorktreeAdded? ==> after == before + [event.row])
            && (event.WorktreeUpdated? ==>
                  ChangesRows(before, after, event.worktreeId, (was, now) => TakesRowPatch(event.patch, was, now)))
            && (event.AgentStateChanged? ==>
                  ChangesRows(before, after, event.worktreeId, (was, now) => TakesAgent(event.agent, was, now)))
            && (event.WorktreeRemoved? ==> LeavesExactly(at, before, after, (row: Row) => row.id != event.worktreeId))
            && (!event.WorktreeAdded? && !event.WorktreeUpdated? && !event.AgentStateChanged? && !event.WorktreeRemoved? ==>
                  after == before)
  {
    at := [];
    match event
    case WorktreeUpdated(id, patch) =>
      forall i | 0 <= i < |snapshot.rows|
        ensures TakesRowPatch(patch, snapshot.rows[i], MergeRowPatch(snapshot.rows[i], patch))
      {
        RowPatchIsTaken(snapshot.rows[i], patch);
      }
    case AgentStateChanged(id, agent) =>
      var patch := RowPatchForAgentState(agent);
      forall i | 0 <= i < |snapshot.rows|
        ensures TakesAgent(agent, snapshot.rows[i], MergeRowPatch(snapshot.rows[i], patch))
      {
        AgentIsTaken(snapshot.rows[i], agent);
      }
    case WorktreeRemoved(id) => at := RowsAreLeft(snapshot.rows, id, (row: Row) => row.id != id);
    case _ =>
  }

  /** The sessions after any event: created ones are put in place of their namesakes or at the end. */
  lemma {:induction false} SessionsAfterEvent(snapshot: Snapshot, event: Event) returns (at: seq<nat>)
    ensures var before, after := snapshot.sessions, ApplyEvent(snapshot, event).snapshot.sessions;
            && (event.SessionCreated? ==>
                  if exists i :: 0 <= i < |before| && before[i].id == event.session.id then
                    ChangesSessions(before, after, event.session.id, (was, now) => now == event.session)
                  else after == before + [event.session])
            && (event.SessionUpdated? ==>
                  ChangesSessions(before, after, event.sessionId,
                                  (was, now) => TakesSessionPatch(event.sessionPatch, was, now)))
            && (event.SessionRemoved? ==>
                  LeavesExactly(at, before, after, (session: Session) => session.id != event.sessionId))
            && (event.WorktreeRemoved? ==>
                  LeavesExactly(at, before, after, (session: Session) => session.worktreeId != event.worktreeId))
            && (!event.SessionCreated? && !event.SessionUpdated? && !event.SessionRemoved? && !event.WorktreeRemoved? ==>
                  after == before)
  {
    at := [];
    match event
    case SessionUpdated(id, patch) =>
      forall i | 0 <= i < |snapshot.sessions|
        ensures TakesSessionPatch(patch, snapshot.sessions[i], MergeSessionPatch(snapshot.sessions[i], patch))
      {
        SessionPatchIsTaken(snapshot.sessions[i], patch);
      }
    case SessionRemoved(id) =>
      at := SessionsAreLeft(snapshot.sessions, WithId(id), (session: Session) => session.id != id);
    case WorktreeRemoved(id) =>
      at := SessionsAreLeft(snapshot.sessions, OfWorktree(id), (session: Session) => session.worktreeId != id);
    case _ =>
  }

  /** Everything else: provider health, the notice of a failed command, and which events ask for a fresh snapshot. */
  lemma RestAfterEvent(snapshot: Snapshot, event: Event)
    ensures var application := ApplyEvent(snapshot, event);
            && application.snapshot.rest == snapshot.rest
            && (forall provider ::
                  if event.ProviderHealthChanged? && provider == event.provider then
                    provider in application.snapshot.providerHealth &&
                    application.snapshot.providerHealth[provider] == event.health
                  else
                    (provider in application.snapshot.providerHealth <==> provider in snapshot.providerHealth) &&
                    (provider in snapshot.providerHealth ==>
                       application.snapshot.providerHealth[provider] == snapshot.providerHealth[provider]))
            && (application.needsSnapshotRefresh <==> event.ProviderHealthChanged? || event.RefreshWorthy?)
            && application.notices == (if event.CommandFailed? then [event.error] else [])
  {
  }
}
