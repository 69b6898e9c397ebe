/** Which commands serialise with each other. */
module CommandScope {
  import opened Wrappers

  datatype Command =
    | TerminalFocus(focusSession: Option<string>, focusWorktree: Option<string>)
    | TerminalClose(closeSession: Option<string>, closeWorktree: Option<string>)
    | SessionClose(sessionId: string)
    | SessionRemove(sessionId: string)
    | SessionSendPrompt(sessionId: string)
    | SessionRename(sessionId: string)
    | WorktreeRemove(worktreeId: string)
    | SessionStartAgent(worktreeId: string)
    | SessionResumeAgent(worktreeId: string)
    | WorktreeCreate(projectId: string)
    | SessionCreate(projectId: string)
    | ObserverReconcile
    | ProjectAdd
    | ProjectRemove
    | HooksInstall

  function TerminalScope(sessionId: Option<string>, worktreeId: Option<string>): string {
    if sessionId.Some? then "session:" + sessionId.value
    else if worktreeId.Some? then "worktree:" + worktreeId.value
    else "global"
  }

  /** The key of the chain a command joins. */
  function Scope(command: Command): string {
    match command
    case TerminalFocus(session, worktree) => TerminalScope(session, worktree)
    case TerminalClose(session, worktree) => TerminalScope(session, worktree)
    case SessionClose(id) => "session:" + id
    case SessionRemove(id) => "session:" + id
    case SessionSendPrompt(id) => "session:" + id
    case SessionRename(id) => "session:" + id
    case WorktreeRemove(id) => "worktree:" + id
    case SessionStartAgent(id) => "worktree:" + id
    case SessionResumeAgent(id) => "worktree:" + id
    case WorktreeCreate(id) => "project:" + id
    case SessionCreate(id) => "project:" + id
    case ObserverReconcile => "global"
    case ProjectAdd => "global"
    case ProjectRemove => "global"
    case HooksInstall => "global"
  }

  datatype Target = Session(id: string) | Worktree(id: string) | Project(id: string) | Everything

  /** The narrowest thing a command names. */
  function TargetOf(command: Command): Target {
    match command
    case TerminalFocus(session, worktree) =>
      if session.Some? then Session(session.value) else if worktree.Some? then Worktree(worktree.value) else Everything
    case TerminalClose(session, worktree) =>
      if session.Some? then Session(session.value) else if worktree.Some? then Worktree(worktree.value) else Everything
    case SessionClose(id) => Session(id)
    case SessionRemove(id) => Session(id)
    case SessionSendPrompt(id) => Session(id)
    case SessionRename(id) => Session(id)
    case WorktreeRemove(id) => Worktree(id)
    case SessionStartAgent(id) => Worktree(id)
    case SessionResumeAgent(id) => Worktree(id)
    case WorktreeCreate(id) => Project(id)
    case SessionCreate(id) => Project(id)
    case _ => Everything
  }

  function Label(target: Target): string {
    match target
    case Session(id) => "session:" + id
    case Worktree(id) => "worktree:" + id
    case Project(id) => "project:" + id
    case Everything => "global"
  }

  lemma LabelIsInjective(a: Target, b: Target)
    requires Label(a) == Label(b)
    ensures a == b
  {
    assert Label(a)[0] == Label(b)[0];
    match a
    case Session(id) => assert Label(a)[8..] == id && Label(b)[8..] == b.id;
    case Worktree(id) => assert Label(a)[9..] == id && Label(b)[9..] == b.id;
    case Project(id) => assert Label(a)[8..] == id && Label(b)[8..] == b.id;
    case Everything =>
  }

  /**
   * Two commands share a chain exactly when they name the same thing: chains of different kinds never
   * meet, so a session command does not wait for a command on that session's worktree or project.
   */
  lemma ShareAChainIffSameTarget(a: Command, b: Command)
    ensures Scope(a) == Scope(b) <==> TargetOf(a) == TargetOf(b)
  {
    assert Scope(a) == Label(TargetOf(a)) && Scope(b) == Label(TargetOf(b));
    if Scope(a) == Scope(b) {
      LabelIsInjective(TargetOf(a), TargetOf(b));
    }
  }
}
