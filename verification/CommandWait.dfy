/**
 * Waiting for a command: the executor persists and then publishes its end, while a waiter on the other side
 * of a socket subscribes, gets the record, listens, and gets it again.
 */
module CommandWait {
  import opened Wrappers
  import opened CommandModel
  import opened EventBus

  /** `Persisted` lies between the terminal status write and the publish; an exception there ends in `Threw`. */
  datatype Executor = Working | Persisted | Published | Threw

  datatype Message = Ack | Carried(event: Event)

  datatype Reply = Unserved | Served(record: Option<Status>)

  datatype Why = AfterAck | AfterEvent | AfterClose

  datatype WaitError = StreamClosed | RequestFailed | SubscribeFailed | TimedOut

  datatype Client =
    | Subscribing
    | Getting(why: Why, reply: Reply)
    | Listening
    | Answered(status: Status)
    | Failed(error: WaitError)

  /** The subscription: its server side, its wire and whether its socket is still open. */
  datatype Stream = Stream(registered: bool, queue: Option<seq<Event>>, wire: seq<Message>, open: bool)

  datatype State = State(
    commandId: string,
    record: Option<Status>,
    executor: Executor,
    stream: Stream,
    client: Client,
    early: bool,      // history: the end was already published when the server registered the subscriber
    heard: nat)       // history: matching events the client has read

  function Initial(commandId: string): State {
    State.State(commandId, None, Working, Stream(false, None, [], true), Subscribing, false, 0)
  }

  predicate IsTerminal(status: Status) {
    status.IsSucceeded? || status.IsFailed?
  }

  predicate IsOver(record: Option<Status>) {
    record.Some? && IsTerminal(record.value)
  }

  predicate IsDone(client: Client) {
    client.Answered? || client.Failed?
  }

  function WaitFilter(commandId: string): Option<Filter> {
    Some(Filter(Some([CommandSucceeded, CommandFailed]), Some(commandId), None, None))
  }

  /** The client's own look at an event: this command has ended. */
  predicate TellsTheEnd(event: Event, commandId: string) {
    (event.kind.CommandSucceeded? || event.kind.CommandFailed?) && event.commandId == Some(commandId)
  }

  /** publish(): the event reaches the subscriber's queue if there is one and its filter lets it through. */
  function Publish(s: State, event: Event): State {
    if s.stream.queue.Some? && Matches(event, WaitFilter(s.commandId)) then
      s.(stream := s.stream.(queue := Some(s.stream.queue.value + [event])))
    else s
  }

  /** The server's turn on a subscribe request: acknowledge and register, with no await in between. */
  function Register(s: State): State {
    s.(stream := s.stream.(registered := true, queue := Some([]), wire := s.stream.wire + [Ack]),
       early := s.executor.Published?)
  }

  function Forward(s: State): State
    requires s.stream.queue.Some? && s.stream.queue.value != []
  {
    var queue := s.stream.queue.value;
    s.(stream := s.stream.(queue := Some(queue[1..]), wire := s.stream.wire + [Carried(queue[0])]))
  }

  /** command.get has answered. */
  function Receive(s: State): State
    requires s.client.Getting? && s.client.reply.Served?
  {
    var record := s.client.reply.record;
    if IsOver(record) then s.(client := Answered(record.value))
    else if s.client.why.AfterClose? then s.(client := Failed(StreamClosed))
    else s.(client := Listening)
  }

  function ReadEvent(s: State): State
    requires s.stream.wire != [] && s.stream.wire[0].Carried?
  {
    var event := s.stream.wire[0].event;
    var t := s.(stream := s.stream.(wire := s.stream.wire[1..]));
    if TellsTheEnd(event, s.commandId) then t.(client := Getting(AfterEvent, Unserved), heard := s.heard + 1) else t
  }

  datatype Action =
    | DoAccept
    | DoStart
    | DoPersist(ok: bool)
    | DoPublish(event: Event)
    | DoThrow
    | DoPublishOther(event: Event)
    | DoRegister
    | DoForward
    | DoReadAck
    | DoServeGet
    | DoReceive
    | DoReadEvent
    | DoReadEnd
    | DoSubscribeFails
    | DoRequestFails
    | DoTimeOut
    | DoBreak(kept: nat)
    | DoServerNotices
    | DoClose

  predicate Enabled(s: State, a: Action) {
    match a
    case DoAccept => s.record.None?
    case DoStart => s.record == Some(IsAccepted) && s.executor.Working?
    case DoPersist(_) => s.record == Some(IsStarted) && s.executor.Working?
    case DoPublish(event) => s.executor.Persisted? && TellsTheEnd(event, s.commandId)
    case DoThrow => s.executor.Working? || s.executor.Persisted?
    case DoPublishOther(event) => !TellsTheEnd(event, s.commandId)
    case DoRegister => !s.stream.registered && s.stream.open
    case DoForward => s.stream.open && s.stream.queue.Some? && s.stream.queue.value != []
    case DoReadAck => s.client.Subscribing? && s.stream.wire != [] && s.stream.wire[0].Ack?
    case DoServeGet => s.client.Getting? && s.client.reply.Unserved?
    case DoReceive => s.client.Getting? && s.client.reply.Served?
    case DoReadEvent => s.client.Listening? && s.stream.wire != [] && s.stream.wire[0].Carried?
    case DoReadEnd => s.client.Listening? && s.stream.wire == [] && !s.stream.open
    case DoSubscribeFails => s.client.Subscribing?
    case DoRequestFails => s.client.Getting? || (s.client.Listening? && !s.stream.open)
    case DoTimeOut => !IsDone(s.client)
    case DoBreak(kept) => s.stream.open && kept <= |s.stream.wire|
    case DoServerNotices => !s.stream.open
    case DoClose => IsDone(s.client) && s.stream.open
  }

  function Step(s: State, a: Action): State
    requires Enabled(s, a)
  {
    match a
    case DoAccept => s.(record := Some(IsAccepted))
    case DoStart => s.(record := Some(IsStarted))
    case DoPersist(ok) => s.(record := Some(if ok then IsSucceeded else IsFailed), executor := Persisted)
    case DoPublish(event) => Publish(s.(executor := Published), event)
    case DoThrow => s.(executor := Threw)
    case DoPublishOther(event) => Publish(s, event)
    case DoRegister => Register(s)
    case DoForward => Forward(s)
    case DoReadAck => s.(stream := s.stream.(wire := s.stream.wire[1..]), client := Getting(AfterAck, Unserved))
    case DoServeGet => s.(client := s.client.(reply := Served(s.record)))
    case DoReceive => Receive(s)
    case DoReadEvent => ReadEvent(s)
    case DoReadEnd => s.(client := Getting(AfterClose, Unserved))
    case DoSubscribeFails => s.(client := Failed(SubscribeFailed))
    case DoRequestFails => s.(client := Failed(RequestFailed))
    case DoTimeOut => s.(client := Failed(TimedOut))
    case DoBreak(kept) => s.(stream := s.stream.(open := false, wire := s.stream.wire[..kept]))
    case DoServerNotices => s.(stream := s.stream.(queue := None))
    case DoClose => s.(stream := s.stream.(open := false, wire := []))
  }

  function Next(s: State, a: Action): State {
    if Enabled(s, a) then Step(s, a) else s
  }

  function RunFrom(s: State, actions: seq<Action>): State {
    if actions == [] then s
    else Next(RunFrom(s, actions[..|actions| - 1]), actions[|actions| - 1])
  }

  function Run(commandId: string, actions: seq<Action>): State {
    RunFrom(Initial(commandId), actions)
  }
}

/** A waiter cannot sleep through the end of its command, and what it returns is what was persisted. */
module CommandWaitTheorems {
  import opened Wrappers
  import opened CommandModel
  import opened EventBus
  import W = CommandWait

  /** The bus filter of a waiter lets through exactly the events the waiter acts on. */
  lemma FilterIsExactIff(event: Event, commandId: string)
    ensures Matches(event, W.WaitFilter(commandId)) <==> W.TellsTheEnd(event, commandId)
  {
  }

  // ---- Invariants ----

  ghost predicate ExecutorInv(s: W.State) {
    && (s.executor.Working? ==> !W.IsOver(s.record))
    && (s.executor.Persisted? || s.executor.Published? ==> W.IsOver(s.record))
    && (s.early ==> s.executor.Published?)
  }

  function Queued(s: W.State): seq<Event> {
    if s.stream.queue.Some? then s.stream.queue.value else []
  }

  /** At most one event is ever under way, only after the publish, and all of them tell of this command's end. */
  ghost predicate TransitInv(s: W.State) {
    && (!s.stream.registered ==> s.stream.queue.None? && s.stream.wire == [])
    && (forall i :: 0 <= i < |Queued(s)| ==> W.TellsTheEnd(Queued(s)[i], s.commandId))
    && (forall i :: 0 <= i < |s.stream.wire| ==>
          if s.stream.wire[i].Ack? then i == 0 && (s.client.Subscribing? || s.client.Failed?)
          else W.TellsTheEnd(s.stream.wire[i].event, s.commandId))
    && s.heard + |Queued(s)| + Carried(s.stream.wire) <= (if s.executor.Published? then 1 else 0)
    && (s.stream.open && s.stream.registered ==> s.stream.queue.Some?)
  }

  function Carried(wire: seq<W.Message>): nat {
    if wire == [] then 0 else if wire[0].Ack? then |wire| - 1 else |wire|
  }

  /** While the stream is open the published end has been heard, is under way, or was known at registration. */
  ghost predicate StreamInv(s: W.State) {
    && (s.stream.open && s.client.Subscribing? && s.stream.registered ==> s.stream.wire != [] && s.stream.wire[0].Ack?)
    && (s.stream.open && s.stream.registered && s.executor.Published? && s.heard == 0 && !s.early ==>
          |Queued(s)| + Carried(s.stream.wire) == 1)
  }

  ghost predicate ClientInv(s: W.State) {
    && (!s.client.Subscribing? && !s.client.Failed? ==> s.stream.registered)
    && (s.client.Getting? && s.client.reply.Served? && W.IsOver(s.client.reply.record) ==> s.client.reply.record == s.record)
    && (s.client.Getting? && s.client.reply.Served? && !W.IsOver(s.client.reply.record) ==>
          !s.early && !s.client.why.AfterEvent?)
    && (s.client.Getting? && s.client.why.AfterEvent? ==> s.executor.Published?)
    && (s.client.Getting? && s.client.why.AfterAck? ==> s.heard == 0)
    && (s.client.Getting? && s.client.why.AfterClose? ==> s.heard == 0 && !s.stream.open && s.stream.wire == [])
    && (s.client.Listening? ==> !s.early && s.heard == 0)
    && (s.client.Subscribing? ==> s.heard == 0)
    && (s.client.Answered? ==> Some(s.client.status) == s.record && W.IsOver(s.record))
  }

  ghost predicate Inv(s: W.State) {
    ExecutorInv(s) && TransitInv(s) && StreamInv(s) && ClientInv(s)
  }

  predicate IsExecutors(a: W.Action) {
    a.DoAccept? || a.DoStart? || a.DoPersist? || a.DoPublish? || a.DoThrow? || a.DoPublishOther?
  }

  predicate IsStreams(a: W.Action) {
    a.DoRegister? || a.DoForward? || a.DoBreak? || a.DoServerNotices? || a.DoClose?
  }

  lemma ExecutorStep(s: W.State, a: W.Action)
    requires Inv(s) && IsExecutors(a) && W.Enabled(s, a)
    ensures Inv(W.Step(s, a))
  {
    if a.DoPublish? || a.DoPublishOther? { FilterIsExactIff(a.event, s.commandId); }
  }

  lemma StreamStep(s: W.State, a: W.Action)
    requires Inv(s) && IsStreams(a) && W.Enabled(s, a)
    ensures Inv(W.Step(s, a))
  {
  }

  lemma ClientStep(s: W.State, a: W.Action)
    requires Inv(s) && !IsExecutors(a) && !IsStreams(a) && W.Enabled(s, a)
    ensures Inv(W.Step(s, a))
  {
  }

  lemma {:induction false} RunInv(commandId: string, actions: seq<W.Action>)
    ensures Inv(W.Run(commandId, actions)) && W.Run(commandId, actions).commandId == commandId
  {
    if actions == [] {
    } else {
      RunInv(commandId, actions[..|actions| - 1]);
      var s, a := W.Run(commandId, actions[..|actions| - 1]), actions[|actions| - 1];
      if W.Enabled(s, a) {
        if IsExecutors(a) { ExecutorStep(s, a); } else if IsStreams(a) { StreamStep(s, a); } else { ClientStep(s, a); }
      }
    }
  }

  // ---- Results ----

  /** The waiter is listening and nothing is under way to it on a stream that is still open. */
  predicate IsAsleep(s: W.State) {
    s.client.Listening? && s.stream.open && Queued(s) == [] && s.stream.wire == []
  }

  /**
   * A waiter asleep means that its command's end has not been published, in every interleaving; if the command
   * is over, its publish is still to come or an exception took its place.
   */
  lemma NeverSleepsThroughTheEnd(commandId: string, actions: seq<W.Action>)
    requires IsAsleep(W.Run(commandId, actions))
    ensures var s := W.Run(commandId, actions);
            !s.executor.Published? && (W.IsOver(s.record) ==> s.executor.Persisted? || s.executor.Threw?)
  {
    RunInv(commandId, actions);
  }

  /** The answer is the persisted record, and it is a terminal one. */
  lemma AnswerIsThePersistedRecord(commandId: string, actions: seq<W.Action>)
    requires W.Run(commandId, actions).client.Answered?
    ensures var s := W.Run(commandId, actions); s.record == Some(s.client.status) && W.IsTerminal(s.client.status)
  {
    RunInv(commandId, actions);
  }

  /** A terminal record is never written again, so an answer stays right. */
  lemma EndIsFinal(s: W.State, a: W.Action)
    requires Inv(s) && W.IsOver(s.record)
    ensures W.Next(s, a).record == s.record
  {
  }

  /** One terminal event is all a waiter hears, and the get that follows it always answers. */
  lemma OneEventSuffices(commandId: string, actions: seq<W.Action>)
    ensures var s := W.Run(commandId, actions);
            && s.heard <= 1
            && (s.heard == 1 ==> !s.client.Subscribing? && !s.client.Listening?)
            && (s.client.Getting? && s.client.why.AfterEvent? && s.client.reply.Served? ==> W.Receive(s).client.Answered?)
  {
    RunInv(commandId, actions);
  }

  /** Steps of the subscription, the server's replies and the client, other than failures. */
  predicate IsOwn(a: W.Action) {
    a.DoRegister? || a.DoForward? || a.DoReadAck? || a.DoServeGet? || a.DoReceive? || a.DoReadEvent? || a.DoReadEnd? ||
    a.DoSubscribeFails?
  }

  function ClientRank(client: W.Client): nat {
    match client
    case Subscribing => 9
    case Getting(why, reply) =>
      (if why.AfterAck? then 7 else 4) + if reply.Unserved? then 1 else 0
    case Listening => 6
    case _ => 0
  }

  function Effort(s: W.State): nat {
    ClientRank(s.client) + (if s.stream.registered then 0 else 2) + 2 * |Queued(s)| + |s.stream.wire|
  }

  /** Unless it is asleep, a waiter that has no result yet can take a step of its own... */
  lemma MovesUnlessAsleepIff(commandId: string, actions: seq<W.Action>)
    requires !W.IsDone(W.Run(commandId, actions).client)
    ensures var s := W.Run(commandId, actions); (exists a :: IsOwn(a) && W.Enabled(s, a)) <==> !IsAsleep(s)
  {
    RunInv(commandId, actions);
    var s := W.Run(commandId, actions);
    if IsAsleep(s) {
      assert s.stream.registered;
    } else {
      match s.client {
        case Subscribing => assert W.Enabled(s, W.DoSubscribeFails);
        case Getting(_, Unserved) => assert W.Enabled(s, W.DoServeGet);
        case Getting(_, Served(_)) => assert W.Enabled(s, W.DoReceive);
        case Listening =>
          if s.stream.wire != [] {
            assert W.Enabled(s, W.DoReadEvent);
          } else if s.stream.open {
            assert W.Enabled(s, W.DoForward);
          } else {
            assert W.Enabled(s, W.DoReadEnd);
          }
      }
    }
  }

  /** ...and there are only so many of those, so once the end is published the waiter reaches a result. */
  lemma EffortRunsOut(commandId: string, actions: seq<W.Action>, a: W.Action)
    requires IsOwn(a) && W.Enabled(W.Run(commandId, actions), a)
    ensures Effort(W.Step(W.Run(commandId, actions), a)) < Effort(W.Run(commandId, actions))
  {
    RunInv(commandId, actions);
  }

  lemma {:induction false} RunSplit(s: W.State, first: seq<W.Action>, second: seq<W.Action>)
    ensures W.RunFrom(s, first + second) == W.RunFrom(W.RunFrom(s, first), second)
  {
    if second == [] {
      assert first + second == first;
    } else {
      assert (first + second)[..|first + second| - 1] == first + second[..|second| - 1];
      RunSplit(s, first, second[..|second| - 1]);
    }
  }

  /** A run of own steps only. */
  ghost predicate IsOwnRun(s: W.State, steps: seq<W.Action>) {
    forall i :: 0 <= i < |steps| ==> IsOwn(steps[i]) && W.Enabled(W.RunFrom(s, steps[..i]), steps[i])
  }

  lemma {:induction false} OwnRunPrefix(s: W.State, steps: seq<W.Action>)
    requires IsOwnRun(s, steps) && steps != []
    ensures var n := |steps| - 1;
            IsOwnRun(s, steps[..n]) && IsOwn(steps[n]) && W.Enabled(W.RunFrom(s, steps[..n]), steps[n])
  {
    var n := |steps| - 1;
    assert forall i :: 0 <= i < n ==> steps[..n][i] == steps[i] && steps[..n][..i] == steps[..i];
  }

  lemma OwnStepKeepsExecutor(s: W.State, a: W.Action)
    requires IsOwn(a)
    ensures W.Next(s, a).executor == s.executor
  {
  }

  lemma {:induction false} OwnRunsAreBounded(commandId: string, actions: seq<W.Action>, steps: seq<W.Action>)
    requires IsOwnRun(W.Run(commandId, actions), steps)
    ensures var s, t := W.Run(commandId, actions), W.RunFrom(W.Run(commandId, actions), steps);
            |steps| + Effort(t) <= Effort(s) && t.executor == s.executor
  {
    var s := W.Run(commandId, actions);
    if steps == [] {
    } else {
      var n := |steps| - 1;
      OwnRunPrefix(s, steps);
      OwnRunsAreBounded(commandId, actions, steps[..n]);
      RunSplit(W.Initial(commandId), actions, steps[..n]);
      var t := W.RunFrom(s, steps[..n]);
      OwnStepKeepsExecutor(t, steps[n]);
      EffortRunsOut(commandId, actions + steps[..n], steps[n]);
      assert W.RunFrom(s, steps) == W.Next(t, steps[n]);
    }
  }

  /**
   * Every maximal run of own steps is short and ends with a result or asleep; once the end was published when it
   * began it ends with a result.
   */
  lemma {:induction false} OwnRunsEnd(commandId: string, actions: seq<W.Action>, steps: seq<W.Action>)
    requires IsOwnRun(W.Run(commandId, actions), steps)
    requires forall a :: IsOwn(a) ==> !W.Enabled(W.RunFrom(W.Run(commandId, actions), steps), a)
    ensures var s, t := W.Run(commandId, actions), W.RunFrom(W.Run(commandId, actions), steps);
            && |steps| <= Effort(s)
            && (W.IsDone(t.client) || IsAsleep(t))
            && (s.executor.Published? ==> W.IsDone(t.client))
  {
    OwnRunsAreBounded(commandId, actions, steps);
    RunSplit(W.Initial(commandId), actions, steps);
    var t := W.RunFrom(W.Run(commandId, actions), steps);
    if !W.IsDone(t.client) {
      MovesUnlessAsleepIff(commandId, actions + steps);
      NeverSleepsThroughTheEnd(commandId, actions + steps);
    }
  }

  /** Publishes that do not tell of this command's end give the waiter nothing to do. */
  lemma OtherEventsAreNotHeard(s: W.State, event: Event)
    requires !W.TellsTheEnd(event, s.commandId)
    ensures W.Next(s, W.DoPublishOther(event)) == s
  {
  }

  /** The stream-closed error is given only after the stream ended and a get since then found the command unfinished. */
  lemma StreamClosedIsHonest(commandId: string, actions: seq<W.Action>, a: W.Action)
    requires var s := W.Run(commandId, actions); !s.client.Failed? && W.Next(s, a).client == W.Failed(W.StreamClosed)
    ensures var s := W.Run(commandId, actions);
            && !s.stream.open && s.heard == 0
            && s.client.Getting? && s.client.why.AfterClose? && s.client.reply.Served? && !W.IsOver(s.client.reply.record)
  {
    RunInv(commandId, actions);
  }

  /** A waiter that subscribed and looked while its command was at work goes to sleep. */
  lemma FallAsleep(commandId: string) returns (actions: seq<W.Action>)
    ensures var s := W.Run(commandId, actions); IsAsleep(s) && s.record == Some(IsStarted) && s.executor.Working?
  {
    actions := Grow(commandId, [], W.DoAccept);
    actions := Grow(commandId, actions, W.DoStart);
    actions := Grow(commandId, actions, W.DoRegister);
    actions := Grow(commandId, actions, W.DoReadAck);
    var s := W.Run(commandId, actions);
    assert s.client == W.Getting(W.AfterAck, W.Unserved) && s.stream == W.Stream(true, Some([]), [], true);
    actions := Grow(commandId, actions, W.DoServeGet);
    actions := Grow(commandId, actions, W.DoReceive);
  }

  /**
   * What the protocol does not cover: an executor that throws between writing the end and publishing it
   * leaves a waiter asleep although its command is over; only its own timeout or the stream's end wake it.
   */
  lemma LostPublishLeavesAWaiterAsleep(commandId: string) returns (actions: seq<W.Action>)
    ensures var s := W.Run(commandId, actions); IsAsleep(s) && W.IsOver(s.record) && s.executor.Threw?
  {
    actions := FallAsleep(commandId);
    actions := Grow(commandId, actions, W.DoPersist(true));
    actions := Grow(commandId, actions, W.DoThrow);
  }

  /** Steps that break the stream or give up the wait. */
  predicate IsFailure(a: W.Action) {
    a.DoBreak? || a.DoTimeOut? || a.DoSubscribeFails? || a.DoRequestFails?
  }

  predicate IsUndisturbed(actions: seq<W.Action>) {
    forall i :: 0 <= i < |actions| ==> !IsFailure(actions[i])
  }

  lemma ForgottenStep(s: W.State, a: W.Action)
    requires Inv(s) && IsAsleep(s) && W.IsOver(s.record) && s.executor.Threw? && !IsFailure(a)
    ensures W.Next(s, a) == s
  {
    if a.DoPublishOther? && W.Enabled(s, a) { OtherEventsAreNotHeard(s, a.event); }
  }

  lemma {:induction false} ForgottenFor(s: W.State, more: seq<W.Action>)
    requires Inv(s) && IsAsleep(s) && W.IsOver(s.record) && s.executor.Threw? && IsUndisturbed(more)
    ensures W.RunFrom(s, more) == s
  {
    if more == [] {
    } else {
      var n := |more| - 1;
      assert forall i :: 0 <= i < n ==> more[..n][i] == more[i];
      ForgottenFor(s, more[..n]);
      ForgottenStep(s, more[n]);
    }
  }

  /**
   * A waiter asleep over a finished command sleeps on for good, unless its stream breaks or it gives up, if and
   * only if the executor threw between writing the end and publishing it.
   */
  lemma {:induction false} SleepsForGoodIff(commandId: string, actions: seq<W.Action>)
    requires var s := W.Run(commandId, actions); IsAsleep(s) && W.IsOver(s.record)
    ensures var s := W.Run(commandId, actions);
            (forall more :: IsUndisturbed(more) ==> IsAsleep(W.RunFrom(s, more))) <==> s.executor.Threw?
  {
    RunInv(commandId, actions);
    var s := W.Run(commandId, actions);
    if s.executor.Threw? {
      forall more | IsUndisturbed(more) ensures IsAsleep(W.RunFrom(s, more)) { ForgottenFor(s, more); }
    } else {
      var event := Event(CommandSucceeded, Some(commandId), None, None);
      FilterIsExactIff(event, commandId);
      var more := [W.DoPublish(event)];
      assert more[..0] == [] && W.RunFrom(s, []) == s;
      assert W.RunFrom(s, more) == W.Next(s, W.DoPublish(event));
      assert IsUndisturbed(more) && !IsAsleep(W.RunFrom(s, more));
    }
  }

  lemma Grow(commandId: string, actions: seq<W.Action>, a: W.Action) returns (more: seq<W.Action>)
    ensures W.Run(commandId, more) == W.Next(W.Run(commandId, actions), a)
  {
    more := actions + [a];
    assert more[..|actions|] == actions;
  }
}
