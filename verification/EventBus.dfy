/** The observer's event bus: publishing offers an event to the queue of every matching subscriber. */
module EventBus {
  import opened Wrappers

  datatype Kind = CommandAccepted | CommandStarted | CommandSucceeded | CommandFailed | OtherKind(name: string)

  datatype Event = Event(kind: Kind, commandId: Option<string>, traceId: Option<string>, timestamp: Option<int>)

  datatype Filter = Filter(
    kinds: Option<seq<Kind>>, commandId: Option<string>, traceId: Option<string>, since: Option<int>)

  /** An event without a timestamp passes any `since`. */
  predicate Matches(event: Event, filter: Option<Filter>) {
    if filter.None? then true
    else
      var f := filter.value;
      if f.kinds.Some? && event.kind !in f.kinds.value then false
      else if f.commandId.Some? && event.commandId != f.commandId then false
      else if f.traceId.Some? && event.traceId != f.traceId then false
      else if f.since.Some? && event.timestamp.Some? then event.timestamp.value >= f.since.value
      else true
  }

  class Subscriber {
    const filter: Option<Filter>
    var queue: seq<Event>
    var active: bool

    constructor (filter: Option<Filter>)
      ensures this.filter == filter && queue == [] && active
    {
      this.filter := filter;
      queue, active := [], true;
    }

    /** next(): the oldest queued event, or the end of the stream once closed. None is also given while it would wait. */
    method Take() returns (event: Option<Event>)
      modifies `queue
      ensures event.None? <==> !active || old(queue) == []
      ensures event.None? ==> queue == old(queue)
      ensures event.Some? ==> [event.value] + queue == old(queue)
    {
      if !active || queue == [] {
        return None;
      }
      event := Some(queue[0]);
      queue := queue[1..];
    }
  }

  class Bus {
    var subscribers: set<Subscriber>

    constructor ()
      ensures subscribers == {}
    {
      subscribers := {};
    }

    /** Every subscriber on the bus is active: return() clears both at once. */
    ghost predicate Valid()
      reads this, subscribers
    {
      forall s :: s in subscribers ==> s.active
    }

    method Subscribe(filter: Option<Filter>) returns (subscriber: Subscriber)
      requires Valid()
      modifies this
      ensures Valid() && fresh(subscriber) && subscribers == old(subscribers) + {subscriber}
      ensures subscriber.filter == filter && subscriber.queue == []
    {
      subscriber := new Subscriber(filter);
      subscribers := subscribers + {subscriber};
    }

    /** return(): the subscriber leaves the bus and its stream is over. */
    method Release(subscriber: Subscriber)
      requires Valid()
      modifies this, subscriber
      ensures Valid() && subscribers == old(subscribers) - {subscriber}
      ensures !subscriber.active && subscriber.queue == old(subscriber.queue)
    {
      subscriber.active := false;
      subscribers := subscribers - {subscriber};
    }

    /** Offers the event to everyone it is meant for, and to nobody twice. */
    method Publish(event: Event)
      requires Valid()
      modifies subscribers
      ensures Valid()
      ensures forall s :: s in subscribers ==>
        s.queue == old(s.queue) + if Matches(event, s.filter) then [event] else []
    {
      var left := subscribers;
      while left != {}
        invariant left <= subscribers && Valid()
        invariant forall s :: s in subscribers ==>
          s.queue == if s in left then old(s.queue) else old(s.queue) + if Matches(event, s.filter) then [event] else []
        decreases |left|
      {
        var s :| s in left;
        if s.active && Matches(event, s.filter) {
          s.queue := s.queue + [event];
        }
        left := left - {s};
      }
    }
  }
}
