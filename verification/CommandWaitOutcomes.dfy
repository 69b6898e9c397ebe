/** What a waiter is told, from what the executor and the two ends of the socket did. */
module CommandWaitOutcomes {
  import opened Wrappers
  import opened CommandModel
  import opened EventBus
  import W = CommandWait
  import opened CommandWaitTheorems

  /** The run takes this step at some point at which it is possible. */
  predicate Did(commandId: string, actions: seq<W.Action>, a: W.Action) {
    actions != [] &&
    var init, last := actions[..|actions| - 1], actions[|actions| - 1];
    Did(commandId, init, a) || (last == a && W.Enabled(W.Run(commandId, init), a))
  }

  /** What has been `persisted` of the end, and which ends the stream has come to. */
  predicate TellsHistory(s: W.State, succeeded: bool, failed: bool, noticed: bool, closed: bool) {
    && (s.record == Some(IsSucceeded) <==> succeeded) && (s.record == Some(IsFailed) <==> failed)
    && (noticed ==> s.stream.queue.None? && !s.stream.open)
    && (closed ==> s.stream.wire == [] && !s.stream.open)
  }

  lemma {:induction false} HistoryNext(s: W.State, a: W.Action, succeeded: bool, failed: bool, noticed: bool, closed: bool)
    requires Inv(s) && TellsHistory(s, succeeded, failed, noticed, closed)
    ensures TellsHistory(W.Next(s, a),
                         succeeded || (a == W.DoPersist(true) && W.Enabled(s, a)),
                         failed || (a == W.DoPersist(false) && W.Enabled(s, a)),
                         noticed || (a == W.DoServerNotices && W.Enabled(s, a)),
                         closed || (a == W.DoClose && W.Enabled(s, a)))
  {
  }

  lemma {:induction false} HistoryFrom(commandId: string, actions: seq<W.Action>)
    ensures TellsHistory(W.Run(commandId, actions),
                         Did(commandId, actions, W.DoPersist(true)), Did(commandId, actions, W.DoPersist(false)),
                         Did(commandId, actions, W.DoServerNotices), Did(commandId, actions, W.DoClose))
  {
    if actions == [] {
    } else {
      var init, a := actions[..|actions| - 1], actions[|actions| - 1];
      HistoryFrom(commandId, init);
      RunInv(commandId, init);
      HistoryNext(W.Run(commandId, init), a,
                  Did(commandId, init, W.DoPersist(true)), Did(commandId, init, W.DoPersist(false)),
                  Did(commandId, init, W.DoServerNotices), Did(commandId, init, W.DoClose));
    }
  }

  /** The record says succeeded or failed exactly as the executor persisted it, and so does every answer. */
  lemma {:induction false} AnswerIsTheOutcome(commandId: string, actions: seq<W.Action>)
    ensures var s := W.Run(commandId, actions);
            && (s.record == Some(IsSucceeded) <==> Did(commandId, actions, W.DoPersist(true)))
            && (s.record == Some(IsFailed) <==> Did(commandId, actions, W.DoPersist(false)))
            && (s.client.Answered? ==>
                  if s.client.status.IsSucceeded? then Did(commandId, actions, W.DoPersist(true))
                  else Did(commandId, actions, W.DoPersist(false)))
  {
    HistoryFrom(commandId, actions);
    RunInv(commandId, actions);
  }

  /** A stream that either end has left stays left: nothing is queued for it, nothing is read from it. */
  lemma {:induction false} LeftStreamsStayLeft(commandId: string, actions: seq<W.Action>)
    ensures var stream := W.Run(commandId, actions).stream;
            && (Did(commandId, actions, W.DoServerNotices) ==> stream.queue.None? && !stream.open)
            && (Did(commandId, actions, W.DoClose) ==> stream.wire == [] && !stream.open)
  {
    HistoryFrom(commandId, actions);
  }

  /** The waiter fails for the reason that there is: of its own timeout, of a failed call, or of a stream that is over. */
  lemma {:induction false} ErrorIsHonest(s: W.State, a: W.Action)
    requires !s.client.Failed? && W.Next(s, a).client.Failed?
    ensures var error := W.Next(s, a).client.error;
            && (error.TimedOut? <==> a.DoTimeOut?)
            && (error.SubscribeFailed? <==> a.DoSubscribeFails?)
            && (error.RequestFailed? <==> a.DoRequestFails?)
            && (error.StreamClosed? <==> a.DoReceive?)
  {
  }

  /** Each criterion of a filter that is given must hold of an event, a time only if the event has one. */
  lemma MatchesIff(event: Event, filter: Option<Filter>)
    ensures Matches(event, filter) <==>
              filter.None? ||
              (&& (filter.value.kinds.None? ||
                   exists i :: 0 <= i < |filter.value.kinds.value| && filter.value.kinds.value[i] == event.kind)
               && (filter.value.commandId.None? || event.commandId == filter.value.commandId)
               && (filter.value.traceId.None? || event.traceId == filter.value.traceId)
               && (filter.value.since.None? || event.timestamp.None? || filter.value.since.value <= event.timestamp.value))
  {
  }
}
