/** Connection states shown to the user, and the three ways the runtime computes the next one. */
module ClientConnection {
  import opened SafeErrors

  datatype Connection =
    | Idle
    | Loading(since: int)
    | Connected(since: int)
    | DisplayOnly(since: int, lastError: SafeError)
    | Reconnecting(since: int, lastError: SafeError)
    | Halted(since: int, lastError: SafeError)

  function ConnectedState(previous: Connection, now: int): Connection {
    if previous.Connected? then previous else Connected(now)
  }

  /** `since` survives re-entering the same failure state, so downtime accumulates over retries. */
  function FailureState(previous: Connection, error: SafeError, hasSnapshot: bool, now: int): Connection {
    if hasSnapshot then
      DisplayOnly(if previous.DisplayOnly? then previous.since else now, error)
    else
      Reconnecting(if previous.Reconnecting? then previous.since else now, error)
  }

  function HaltedState(error: SafeError, now: int): Connection {
    Halted(now, error)
  }

  /** The state after a streak of failures, one error and one clock reading each. */
  function AfterFailures(start: Connection, errors: seq<(SafeError, int)>, hasSnapshot: bool): Connection {
    if errors == [] then start
    else
      var last := errors[|errors| - 1];
      FailureState(AfterFailures(start, errors[..|errors| - 1], hasSnapshot), last.0, hasSnapshot, last.1)
  }

  /** Downtime is measured from the first failure of a streak, while the error shown is the latest one. */
  lemma {:induction false} DowntimeAccumulates(start: Connection, errors: seq<(SafeError, int)>, hasSnapshot: bool)
    requires errors != []
    requires !start.DisplayOnly? && !start.Reconnecting?
    ensures AfterFailures(start, errors, hasSnapshot) ==
            if hasSnapshot then DisplayOnly(errors[0].1, errors[|errors| - 1].0)
            else Reconnecting(errors[0].1, errors[|errors| - 1].0)
  {
    if |errors| > 1 {
      DowntimeAccumulates(start, errors[..|errors| - 1], hasSnapshot);
    } else {
      assert AfterFailures(start, errors[..0], hasSnapshot) == start;
    }
  }
}
