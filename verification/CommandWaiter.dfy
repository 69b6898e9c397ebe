/**
 * One subscription of a waiter as the two ends hold it: what routeSubscriptionRequest and streamEvents change on
 * the server, and what commandWaitEffect and its recursion change in the client.
 */
module CommandWaiter {
  import opened Wrappers
  import opened CommandModel
  import opened EventBus
  import W = CommandWait

  /** streamEvents forwards as long as the socket is open and its subscriber has events. */
  function ForwardAll(s: W.State): W.State
    decreases if s.stream.queue.Some? then |s.stream.queue.value| else 0
  {
    if W.Enabled(s, W.DoForward) then ForwardAll(W.Forward(s)) else s
  }

  /** awaitCommandTerminalRecord reads on until an event tells the end or nothing has arrived. */
  function ReadAll(s: W.State): W.State
    decreases |s.stream.wire|
  {
    if W.Enabled(s, W.DoReadEvent) then ReadAll(W.ReadEvent(s)) else s
  }

  function Carriers(events: seq<Event>): (r: seq<W.Message>)
    ensures |r| == |events|
  {
    seq(|events|, i requires 0 <= i < |events| => W.Carried(events[i]))
  }

  class Session {
    const commandId: string
    var record: Option<Status>
    var executor: W.Executor
    var registered: bool
    var queue: Option<seq<Event>>
    var wire: seq<W.Message>
    var open: bool
    var client: W.Client
    ghost var early: bool
    ghost var heard: nat

    ghost function Model(): W.State
      reads this
    {
      W.State.State(commandId, record, executor, W.Stream(registered, queue, wire, open), client, early, heard)
    }

    constructor (commandId: string)
      ensures this.commandId == commandId && Model() == W.Initial(commandId)
    {
      this.commandId := commandId;
      record, executor, client := None, W.Working, W.Subscribing;
      registered, queue, wire, open := false, None, [], true;
      early, heard := false, 0;
    }

    /** The executor writes the terminal status, and only later publishes it. */
    method PersistEnd(ok: bool)
      requires W.Enabled(Model(), W.DoPersist(ok))
      modifies `record, `executor
      ensures Model() == W.Step(old(Model()), W.DoPersist(ok))
    {
      record := Some(if ok then IsSucceeded else IsFailed);
      executor := W.Persisted;
    }

    method PublishEnd(event: Event)
      requires W.Enabled(Model(), W.DoPublish(event))
      modifies `executor, `queue
      ensures Model() == W.Step(old(Model()), W.DoPublish(event))
    {
      executor := W.Published;
      if queue.Some? && Matches(event, W.WaitFilter(commandId)) {
        queue := Some(queue.value + [event]);
      }
    }

    /** routeSubscriptionRequest: the acknowledgement is sent and the subscriber registered in one turn. */
    method RouteSubscription()
      requires W.Enabled(Model(), W.DoRegister)
      modifies `registered, `queue, `wire, `early
      ensures Model() == W.Step(old(Model()), W.DoRegister)
    {
      wire := wire + [W.Ack];
      registered, queue := true, Some([]);
      early := executor.Published?;
    }

    /** The loop of streamEvents until its next wait. */
    method StreamEvents()
      modifies `queue, `wire
      ensures Model() == ForwardAll(old(Model()))
      ensures old(open && queue.Some?) ==> queue == Some([]) && wire == old(wire) + Carriers(old(queue.value))
      ensures !old(open && queue.Some?) ==> queue == old(queue) && wire == old(wire)
    {
      ghost var sent: seq<Event> := [];
      while open && queue.Some? && queue.value != []
        invariant ForwardAll(Model()) == ForwardAll(old(Model()))
        invariant queue.Some? == old(queue.Some?)
        invariant queue.Some? ==> sent + queue.value == old(queue.value)
        invariant wire == old(wire) + Carriers(sent) && (!open || queue.None? ==> sent == [])
        decreases if queue.Some? then |queue.value| else 0
      {
        sent := sent + [queue.value[0]];
        wire := wire + [W.Carried(queue.value[0])];
        queue := Some(queue.value[1..]);
      }
    }

    /** readSubscriptionAck, after which the first command.get is sent. */
    method ReadAck()
      requires W.Enabled(Model(), W.DoReadAck)
      modifies `wire, `client
      ensures Model() == W.Step(old(Model()), W.DoReadAck)
    {
      wire := wire[1..];
      client := W.Getting(W.AfterAck, W.Unserved);
    }

    /** command.get on the server: the record as it is now. */
    method ServeGet()
      requires W.Enabled(Model(), W.DoServeGet)
      modifies `client
      ensures Model() == W.Step(old(Model()), W.DoServeGet)
    {
      client := client.(reply := W.Served(record));
    }

    /** The reply to command.get: answer, give up, or listen (again). */
    method ReceiveRecord()
      requires W.Enabled(Model(), W.DoReceive)
      modifies `client
      ensures Model() == W.Step(old(Model()), W.DoReceive)
    {
      var found := client.reply.record;
      if found.Some? && (found.value.IsSucceeded? || found.value.IsFailed?) {
        client := W.Answered(found.value);
      } else if client.why.AfterClose? {
        client := W.Failed(W.StreamClosed);
      } else {
        client := W.Listening;
      }
    }

    /** The next event of the stream: one that tells the end sends the client to look the record up. */
    method ReadOne()
      requires client.Listening? && wire != [] && wire[0].Carried?
      modifies `wire, `client, `heard
      ensures Model() == W.ReadEvent(old(Model()))
      ensures wire == old(wire)[1..]
      ensures if W.TellsTheEnd(old(wire)[0].event, commandId) then
                client == W.Getting(W.AfterEvent, W.Unserved) && heard == old(heard) + 1
              else client == old(client) && heard == old(heard)
    {
      var event := wire[0].event;
      wire := wire[1..];
      if (event.kind.CommandSucceeded? || event.kind.CommandFailed?) && event.commandId == Some(commandId) {
        client := W.Getting(W.AfterEvent, W.Unserved);
        heard := heard + 1;
      }
    }

    /**
     * awaitCommandTerminalRecord over everything that has arrived. A listening client reads up to the first event
     * that tells the end, which sends it to look the record up; without one it reads everything and listens on.
     * `read` counts the messages it took off the wire.
     */
    method ReadEvents() returns (ghost read: nat)
      modifies `wire, `client, `heard
      ensures Model() == ReadAll(old(Model()))
      ensures read <= |old(wire)| && wire == old(wire)[read..]
      ensures forall i :: 0 <= i < read ==> old(wire)[i].Carried?
      ensures forall i :: 0 <= i < read - 1 ==> !W.TellsTheEnd(old(wire)[i].event, commandId)
      ensures old(client.Listening?) && read > 0 && W.TellsTheEnd(old(wire)[read - 1].event, commandId) ==>
                client == W.Getting(W.AfterEvent, W.Unserved) && heard == old(heard) + 1
      ensures !(read > 0 && W.TellsTheEnd(old(wire)[read - 1].event, commandId)) ==>
                client == old(client) && heard == old(heard)
      ensures client.Listening? ==> wire == [] || wire[0].Ack?
      ensures !old(client.Listening?) ==> read == 0
    {
      read := 0;
      while client.Listening? && wire != [] && wire[0].Carried?
        invariant ReadAll(Model()) == ReadAll(old(Model()))
        invariant read <= |old(wire)| && wire == old(wire)[read..]
        invariant forall i :: 0 <= i < read ==> old(wire)[i].Carried?
        invariant forall i :: 0 <= i < read - 1 ==> !W.TellsTheEnd(old(wire)[i].event, commandId)
        invariant if read > 0 && W.TellsTheEnd(old(wire)[read - 1].event, commandId) then
                    client == W.Getting(W.AfterEvent, W.Unserved) && heard == old(heard) + 1
                  else client == old(client) && heard == old(heard)
        invariant !old(client.Listening?) ==> read == 0
        decreases |wire|
      {
        ReadOne();
        read := read + 1;
      }
    }

    /** The stream is over without a word: the record is looked up once more. */
    method ReadEnd()
      requires W.Enabled(Model(), W.DoReadEnd)
      modifies `client
      ensures Model() == W.Step(old(Model()), W.DoReadEnd)
    {
      client := W.Getting(W.AfterClose, W.Unserved);
    }

    /** Effect.ensuring: with a result of either kind the subscription is closed. */
    method CloseSubscription()
      requires W.Enabled(Model(), W.DoClose)
      modifies `open, `wire
      ensures Model() == W.Step(old(Model()), W.DoClose)
    {
      open, wire := false, [];
    }
  }

  // ---- The two loops are runs of the protocol ----

  lemma {:induction false} ForwardingIsARun(commandId: string, actions: seq<W.Action>) returns (more: seq<W.Action>)
    ensures W.Run(commandId, more) == ForwardAll(W.Run(commandId, actions))
    decreases var s := W.Run(commandId, actions); if s.stream.queue.Some? then |s.stream.queue.value| else 0
  {
    var s := W.Run(commandId, actions);
    more := actions;
    if W.Enabled(s, W.DoForward) {
      var next := actions + [W.DoForward];
      assert next[..|actions|] == actions;
      more := ForwardingIsARun(commandId, next);
    }
  }

  lemma {:induction false} ReadingIsARun(commandId: string, actions: seq<W.Action>) returns (more: seq<W.Action>)
    ensures W.Run(commandId, more) == ReadAll(W.Run(commandId, actions))
    decreases |W.Run(commandId, actions).stream.wire|
  {
    var s := W.Run(commandId, actions);
    more := actions;
    if W.Enabled(s, W.DoReadEvent) {
      var next := actions + [W.DoReadEvent];
      assert next[..|actions|] == actions;
      more := ReadingIsARun(commandId, next);
    }
  }
}
