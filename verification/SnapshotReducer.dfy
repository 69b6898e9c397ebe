/** The pure reducer that folds observer events into the last loaded snapshot. */
module SnapshotReducer {
  import opened Wrappers
  import opened SafeErrors

  /** Own properties of a nested record; `{...a, ...b}` is `a + b`. */
  type Record = map<string, string>

  datatype AgentState = NeedsAttention | Stuck | Working | Starting | Idle | Exited | UnknownState

  datatype Agent = Agent(harness: string, state: AgentState, reason: string, details: Record)

  datatype Display = Display(
    statusLabel: string,
    sortPriority: int,
    alert: bool,
    warning: Option<bool>,
    reason: Option<string>)

  datatype Row = Row(
    id: string,
    projectId: string,
    projectLabel: string,
    branch: string,
    path: string,
    worktree: Record,
    terminal: Option<Record>,
    agent: Option<Agent>,
    recovery: Option<Record>,
    display: Display)

  datatype Session = Session(
    id: string,
    projectId: string,
    worktreeId: string,
    createdAt: string,
    updatedAt: string,
    harness: Record,
    terminal: Record,
    status: Record,
    title: string,
    tags: seq<string>)

  datatype Snapshot = Snapshot(
    rows: seq<Row>,
    sessions: seq<Session>,
    providerHealth: map<string, Record>,
    rest: Record)

  /** A key of a patch: missing, present as `undefined`, or present with a value. */
  datatype Patch<T> = Keep | Clear | Put(value: T)

  datatype RowPatch = RowPatch(
    id: Option<string>,
    projectId: Option<string>,
    projectLabel: Option<string>,
    branch: Option<string>,
    path: Option<string>,
    worktree: Option<Record>,
    terminal: Patch<Record>,
    agent: Patch<Agent>,
    display: Option<Display>)

  datatype SessionPatch = SessionPatch(
    id: Option<string>,
    projectId: Option<string>,
    worktreeId: Option<string>,
    createdAt: Option<string>,
    updatedAt: Option<string>,
    harness: Option<Record>,
    terminal: Option<Record>,
    status: Option<Record>,
    title: Option<string>,
    tags: Option<seq<string>>)

  datatype Event =
    | WorktreeAdded(row: Row)
    | WorktreeUpdated(worktreeId: string, patch: RowPatch)
    | WorktreeRemoved(worktreeId: string)
    | AgentStateChanged(worktreeId: string, agent: Option<Agent>)
    | SessionCreated(session: Session)
    | SessionUpdated(sessionId: string, sessionPatch: SessionPatch)
    | SessionRemoved(sessionId: string)
    | ProviderHealthChanged(provider: string, health: Record)
    | CommandFailed(error: SafeError)
    | RefreshWorthy(kind: RefreshKind)
    | OtherEvent(kindName: string)

  /** The event types that change nothing locally but ask for a fresh snapshot. */
  datatype RefreshKind = ObserverReconciled | ProjectUpdated | HookIngested | SpoolDrained

  datatype Application = Application(snapshot: Snapshot, needsSnapshotRefresh: bool, notices: seq<SafeError>)

  function MergeDisplay(display: Display, patch: Display): Display {
    patch.(warning := patch.warning.OrElse(display.warning), reason := patch.reason.OrElse(display.reason))
  }

  /** The rebuilt row has no `recovery`: the source never copies that field. */
  function MergeRowPatch(row: Row, patch: RowPatch): Row {
    Row(
      patch.id.Or(row.id),
      patch.projectId.Or(row.projectId),
      patch.projectLabel.Or(row.projectLabel),
      patch.branch.Or(row.branch),
      patch.path.Or(row.path),
      if patch.worktree.Some? then row.worktree + patch.worktree.value else row.worktree,
      match patch.terminal
        case Keep => row.terminal
        case Clear => None
        case Put(terminal) => Some(row.terminal.Or(map[]) + terminal),
      match patch.agent
        case Keep => row.agent
        case Clear => None
        case Put(agent) => Some(agent),
      None,
      if patch.display.Some? then MergeDisplay(row.display, patch.display.value) else row.display)
  }

  function DisplayForAgent(agent: Agent): Display {
    match agent.state
    case NeedsAttention => Display("needs attention", 10, true, None, Some(agent.reason))
    case Stuck => Display("stuck", 20, true, Some(true), Some(agent.reason))
    case Working => Display("working", 30, false, None, None)
    case Starting => Display("starting", 35, false, None, None)
    case Idle => Display("idle", 40, false, None, None)
    case Exited => Display("exited", 60, false, None, None)
    case UnknownState => Display("unknown", 50, false, None, None)
  }

  const NO_AGENT_DISPLAY :=
    Display("no agent", 70, false, None, Some("No harness run is associated with this worktree."))

  const EMPTY_ROW_PATCH := RowPatch(None, None, None, None, None, None, Keep, Keep, None)

  function RowPatchForAgentState(agent: Option<Agent>): RowPatch {
    match agent
    case None => EMPTY_ROW_PATCH.(agent := Clear, display := Some(NO_AGENT_DISPLAY))
    case Some(a) => EMPTY_ROW_PATCH.(agent := Put(a), display := Some(DisplayForAgent(a)))
  }

  function MergeSessionPatch(session: Session, patch: SessionPatch): Session {
    Session(
      patch.id.Or(session.id),
      patch.projectId.Or(session.projectId),
      patch.worktreeId.Or(session.worktreeId),
      patch.createdAt.Or(session.createdAt),
      patch.updatedAt.Or(session.updatedAt),
      session.harness + patch.harness.Or(map[]),
      session.terminal + patch.terminal.Or(map[]),
      session.status + patch.status.Or(map[]),
      patch.title.Or(session.title),
      patch.tags.Or(session.tags))
  }

  function PatchRows(rows: seq<Row>, worktreeId: string, patch: RowPatch): (r: seq<Row>)
    ensures |r| == |rows|
  {
    seq(|rows|, i requires 0 <= i < |rows| =>
      if rows[i].id == worktreeId then MergeRowPatch(rows[i], patch) else rows[i])
  }

  function PatchSessions(sessions: seq<Session>, sessionId: string, patch: SessionPatch): (r: seq<Session>)
    ensures |r| == |sessions|
  {
    seq(|sessions|, i requires 0 <= i < |sessions| =>
      if sessions[i].id == sessionId then MergeSessionPatch(sessions[i], patch) else sessions[i])
  }

  function RemoveRows(rows: seq<Row>, worktreeId: string): seq<Row> {
    if rows == [] then []
    else if rows[0].id == worktreeId then RemoveRows(rows[1..], worktreeId)
    else [rows[0]] + RemoveRows(rows[1..], worktreeId)
  }

  /** The two filters over sessions: by worktree and by identity. */
  datatype SessionFilter = OfWorktree(id: string) | WithId(id: string) {
    predicate Matches(session: Session) {
      if OfWorktree? then session.worktreeId == id else session.id == id
    }
  }

  function RemoveSessions(sessions: seq<Session>, doomed: SessionFilter): seq<Session> {
    if sessions == [] then []
    else if doomed.Matches(sessions[0]) then RemoveSessions(sessions[1..], doomed)
    else [sessions[0]] + RemoveSessions(sessions[1..], doomed)
  }

  predicate HasSession(sessions: seq<Session>, id: string) {
    exists i :: 0 <= i < |sessions| && sessions[i].id == id
  }

  function UpsertSession(sessions: seq<Session>, session: Session): seq<Session> {
    if !HasSession(sessions, session.id) then sessions + [session]
    else
      seq(|sessions|, i requires 0 <= i < |sessions| =>
        if sessions[i].id == session.id then session else sessions[i])
  }

  function ApplyEvent(snapshot: Snapshot, event: Event): Application {
    match event
    case WorktreeAdded(row) => Application(snapshot.(rows := snapshot.rows + [row]), false, [])
    case WorktreeUpdated(id, patch) =>
      Application(snapshot.(rows := PatchRows(snapshot.rows, id, patch)), false, [])
    case WorktreeRemoved(id) =>
      Application(
        snapshot.(rows := RemoveRows(snapshot.rows, id),
                  sessions := RemoveSessions(snapshot.sessions, OfWorktree(id))),
        false, [])
    case AgentStateChanged(id, agent) =>
      Application(snapshot.(rows := PatchRows(snapshot.rows, id, RowPatchForAgentState(agent))), false, [])
    case SessionCreated(session) =>
      Application(snapshot.(sessions := UpsertSession(snapshot.sessions, session)), false, [])
    case SessionUpdated(id, patch) =>
      Application(snapshot.(sessions := PatchSessions(snapshot.sessions, id, patch)), false, [])
    case SessionRemoved(id) =>
      Application(
        snapshot.(sessions := RemoveSessions(snapshot.sessions, WithId(id))), false, [])
    case ProviderHealthChanged(provider, health) =>
      Application(snapshot.(providerHealth := snapshot.providerHealth[provider := health]), true, [])
    case CommandFailed(error) => Application(snapshot, false, [error])
    case RefreshWorthy(_) => Application(snapshot, true, [])
    case OtherEvent(_) => Application(snapshot, false, [])
  }

  /** Reducing a whole stretch of the event stream, oldest first. */
  function ApplyEvents(snapshot: Snapshot, events: seq<Event>): Snapshot {
    if events == [] then snapshot
    else ApplyEvent(ApplyEvents(snapshot, events[..|events| - 1]), events[|events| - 1]).snapshot
  }

  lemma ApplyEventsOne(snapshot: Snapshot, events: seq<Event>, event: Event)
    ensures ApplyEvents(snapshot, events + [event]) == ApplyEvent(ApplyEvents(snapshot, events), event).snapshot
  {
  }

  // ---- Redelivery ----

  lemma MergeRowPatchTwice(row: Row, patch: RowPatch)
    ensures MergeRowPatch(MergeRowPatch(row, patch), patch) == MergeRowPatch(row, patch)
  {
    if patch.worktree.Some? {
      MergeTwice(row.worktree, patch.worktree.value);
    }
    if patch.terminal.Put? {
      MergeTwice(row.terminal.Or(map[]), patch.terminal.value);
    }
  }

  lemma MergeSessionPatchTwice(session: Session, patch: SessionPatch)
    ensures MergeSessionPatch(MergeSessionPatch(session, patch), patch) == MergeSessionPatch(session, patch)
  {
  }

  lemma MergeTwice(a: Record, b: Record)
    ensures (a + b) + b == a + b
  {
  }

  lemma PatchRowsTwice(rows: seq<Row>, id: string, patch: RowPatch)
    ensures PatchRows(PatchRows(rows, id, patch), id, patch) == PatchRows(rows, id, patch)
  {
    forall i | 0 <= i < |rows|
      ensures PatchRows(PatchRows(rows, id, patch), id, patch)[i] == PatchRows(rows, id, patch)[i]
    {
      MergeRowPatchTwice(rows[i], patch);
    }
  }

  lemma PatchSessionsTwice(sessions: seq<Session>, id: string, patch: SessionPatch)
    ensures PatchSessions(PatchSessions(sessions, id, patch), id, patch) == PatchSessions(sessions, id, patch)
  {
    forall i | 0 <= i < |sessions|
      ensures PatchSessions(PatchSessions(sessions, id, patch), id, patch)[i] == PatchSessions(sessions, id, patch)[i]
    {
      MergeSessionPatchTwice(sessions[i], patch);
    }
  }

  lemma {:induction false} RemoveRowsTwice(rows: seq<Row>, id: string)
    ensures RemoveRows(RemoveRows(rows, id), id) == RemoveRows(rows, id)
  {
    if rows == [] {
    } else {
      RemoveRowsTwice(rows[1..], id);
      if rows[0].id != id {
        var tail := RemoveRows(rows[1..], id);
        assert ([rows[0]] + tail)[1..] == tail;
      }
    }
  }

  lemma {:induction false} RemoveSessionsTwice(sessions: seq<Session>, doomed: SessionFilter)
    ensures RemoveSessions(RemoveSessions(sessions, doomed), doomed) == RemoveSessions(sessions, doomed)
  {
    if sessions == [] {
    } else {
      RemoveSessionsTwice(sessions[1..], doomed);
      if !doomed.Matches(sessions[0]) {
        var tail := RemoveSessions(sessions[1..], doomed);
        assert ([sessions[0]] + tail)[1..] == tail;
      }
    }
  }

  lemma UpsertSessionTwice(sessions: seq<Session>, session: Session)
    ensures UpsertSession(UpsertSession(sessions, session), session) == UpsertSession(sessions, session)
  {
    var once := UpsertSession(sessions, session);
    if !HasSession(sessions, session.id) {
      assert once[|sessions|].id == session.id;
    } else {
      var i :| 0 <= i < |sessions| && sessions[i].id == session.id;
      assert once[i].id == session.id;
    }
    assert HasSession(once, session.id);
    assert forall j :: 0 <= j < |once| && once[j].id == session.id ==> once[j] == session;
  }

  /** Main result: a second delivery changes the snapshot exactly for `worktree.added`. */
  lemma RedeliveryIsIdempotentUnlessAdded(snapshot: Snapshot, event: Event)
    ensures ApplyEvent(ApplyEvent(snapshot, event).snapshot, event).snapshot == ApplyEvent(snapshot, event).snapshot
      <==> !event.WorktreeAdded?
  {
    match event
    case WorktreeAdded(row) =>
      var once := ApplyEvent(snapshot, event).snapshot;
      assert |ApplyEvent(once, event).snapshot.rows| == |once.rows| + 1;
    case WorktreeUpdated(id, patch) => PatchRowsTwice(snapshot.rows, id, patch);
    case WorktreeRemoved(id) =>
      RemoveRowsTwice(snapshot.rows, id);
      RemoveSessionsTwice(snapshot.sessions, OfWorktree(id));
    case AgentStateChanged(id, agent) => PatchRowsTwice(snapshot.rows, id, RowPatchForAgentState(agent));
    case SessionCreated(session) => UpsertSessionTwice(snapshot.sessions, session);
    case SessionUpdated(id, patch) => PatchSessionsTwice(snapshot.sessions, id, patch);
    case SessionRemoved(id) => RemoveSessionsTwice(snapshot.sessions, WithId(id));
    case ProviderHealthChanged(_, _) =>
    case CommandFailed(_) =>
    case RefreshWorthy(_) =>
    case OtherEvent(_) =>
  }

  // ---- What merging loses and what it keeps ----

  /** A patch that names no field still changes a row, exactly when the row offered a recovery action. */
  lemma EmptyPatchKeepsRowIffNoRecovery(row: Row)
    ensures MergeRowPatch(row, EMPTY_ROW_PATCH) == row <==> row.recovery.None?
  {
  }

  /**
   * After an agent-state event the shown display is the one the new state calls for
   * exactly when no `warning` and no `reason` is left over from the previous state.
   */
  lemma AgentDisplayIsFreshIff(row: Row, agent: Agent)
    ensures MergeRowPatch(row, RowPatchForAgentState(Some(agent))).display == DisplayForAgent(agent)
      <==> && (agent.state.Stuck? || row.display.warning.None?)
           && (agent.state.Stuck? || agent.state.NeedsAttention? || row.display.reason.None?)
  {
  }
}
