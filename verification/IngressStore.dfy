/** The observer's store as hook ingestion sees it: an event log, a dedupe table, and transactions over both. */
module IngressStore {
  import opened Wrappers

  datatype DedupeKind = HookKey | ReportKey

  datatype DedupeKey = DedupeKey(kind: DedupeKind, id: string)

  datatype RowKind = HookIngested(hookId: string) | OtherEvent(name: string)

  datatype EventRow = EventRow(eventId: string, kind: RowKind)

  datatype Tables = Tables(events: seq<EventRow>, dedupe: map<DedupeKey, string>)

  const EMPTY_TABLES := Tables([], map[])

  /** The statement of a transaction that fails, if one does. A duplicate event id fails of itself. */
  datatype Fault = NoFault | AtBegin | AtClaim | AtInsert | AtCommit

  datatype Outcome = Rejected | Ingested(deduped: bool)

  predicate HasEventId(events: seq<EventRow>, eventId: string) {
    exists i :: 0 <= i < |events| && events[i].eventId == eventId
  }

  predicate IsClaimed(t: Tables, hookId: string) {
    DedupeKey(HookKey, hookId) in t.dedupe
  }

  /** What recording a hook event once means for the tables: nothing, or both rows together. */
  function RecordHook(t: Tables, hookId: string, eventId: string, fault: Fault): (Outcome, Tables) {
    if fault.AtBegin? || fault.AtClaim? || fault.AtCommit? then (Rejected, t)
    else if IsClaimed(t, hookId) then (Ingested(true), t)
    else if fault.AtInsert? || HasEventId(t.events, eventId) then (Rejected, t)
    else
      (Ingested(false),
       Tables(t.events + [EventRow(eventId, HookIngested(hookId))], t.dedupe[DedupeKey(HookKey, hookId) := eventId]))
  }

  /** recordEvent(): events that are not hook ingestions. */
  function RecordOther(t: Tables, name: string, eventId: string): Tables {
    if HasEventId(t.events, eventId) then t else t.(events := t.events + [EventRow(eventId, OtherEvent(name))])
  }

  function RowsFor(events: seq<EventRow>, hookId: string): nat {
    if events == [] then 0
    else RowsFor(events[..|events| - 1], hookId) + if events[|events| - 1].kind == HookIngested(hookId) then 1 else 0
  }

  /** Every hook id has exactly one row if it is claimed, and none otherwise. */
  ghost predicate IsConsistent(t: Tables) {
    forall hookId :: RowsFor(t.events, hookId) == if IsClaimed(t, hookId) then 1 else 0
  }

  /** Whatever fails and whatever id the row gets, recording a hook leaves at most one row for each hook id. */
  lemma RecordHookKeepsTablesConsistent(t: Tables, hookId: string, eventId: string, fault: Fault)
    requires IsConsistent(t)
    ensures IsConsistent(RecordHook(t, hookId, eventId, fault).1)
  {
  }

  /** A recording is rejected exactly if a statement that it runs fails, and then nothing of it is left. */
  lemma RejectedIff(t: Tables, hookId: string, eventId: string, fault: Fault)
    ensures var (outcome, after) := RecordHook(t, hookId, eventId, fault);
            && (outcome.Rejected? <==>
                  || fault == AtBegin || fault == AtClaim || fault == AtCommit
                  || (!IsClaimed(t, hookId) && (fault == AtInsert || HasEventId(t.events, eventId))))
            && (outcome.Rejected? ==> after == t)
            && (outcome == Ingested(true) ==> after == t && IsClaimed(t, hookId))
            && (outcome == Ingested(false) ==>
                  && !IsClaimed(t, hookId) && IsClaimed(after, hookId)
                  && after.events == t.events + [EventRow(eventId, HookIngested(hookId))])
  {
  }

  /** Any other event gets its row, unless its id is taken. */
  lemma OtherEventIsRecordedIff(t: Tables, name: string, eventId: string)
    ensures RecordOther(t, name, eventId).dedupe == t.dedupe
    ensures RecordOther(t, name, eventId).events ==
            if exists i :: 0 <= i < |t.events| && t.events[i].eventId == eventId then t.events
            else t.events + [EventRow(eventId, OtherEvent(name))]
  {
  }

  lemma RecordOtherKeepsTablesConsistent(t: Tables, name: string, eventId: string)
    requires IsConsistent(t)
    ensures IsConsistent(RecordOther(t, name, eventId))
  {
  }

  /** An event that comes without an id is given one by the observer, anew for every delivery. */
  function EffectiveHookId(given: Option<string>, generated: string): string {
    if given.Some? then given.value else generated
  }

  function RecordDelivery(t: Tables, given: Option<string>, generated: string, eventId: string): Tables {
    RecordHook(t, EffectiveHookId(given, generated), eventId, NoFault).1
  }

  /** A second delivery of a new event is recorded again exactly when the event carries no id of its own. */
  lemma SecondDeliveryRecordsAgainIff(
    t: Tables, given: Option<string>, generated1: string, generated2: string, eventId1: string, eventId2: string)
    requires generated1 != generated2 && !IsClaimed(t, generated2)
    requires eventId1 != eventId2 && !HasEventId(t.events, eventId1) && !HasEventId(t.events, eventId2)
    requires !IsClaimed(t, EffectiveHookId(given, generated1))
    ensures var once := RecordDelivery(t, given, generated1, eventId1);
            |once.events| == |t.events| + 1 &&
            (|RecordDelivery(once, given, generated2, eventId2).events| == |t.events| + 2 <==> given.None?)
  {
  }

  /** The database handle: the tables, the image a transaction can be rolled back to, and the last failure. */
  class Sqlite {
    var tables: Tables
    var saved: Option<Tables>
    var failed: bool

    constructor ()
      ensures tables == EMPTY_TABLES && saved.None? && !failed
    {
      tables, saved, failed := EMPTY_TABLES, None, false;
    }

    method Begin()
      requires saved.None?
      modifies `saved
      ensures saved == Some(tables)
    {
      saved := Some(tables);
    }

    method Commit()
      requires saved.Some?
      modifies `saved
      ensures saved.None?
    {
      saved := None;
    }

    method Rollback()
      requires saved.Some?
      modifies `saved, `tables
      ensures saved.None? && tables == old(saved.value)
    {
      tables := saved.value;
      saved := None;
    }

    /** INSERT OR IGNORE: whether a row was added tells whether the key was free. */
    method ClaimDedupeKey(key: DedupeKey, eventId: string) returns (claimed: bool)
      requires saved.Some?
      modifies `tables
      ensures claimed == (key !in old(tables.dedupe))
      ensures tables == if claimed then old(tables).(dedupe := old(tables.dedupe)[key := eventId]) else old(tables)
    {
      claimed := key !in tables.dedupe;
      if claimed {
        tables := tables.(dedupe := tables.dedupe[key := eventId]);
      }
    }

    /** INSERT into the event log, whose id is a primary key. */
    method InsertEvent(row: EventRow) returns (ok: bool)
      requires saved.Some?
      modifies `tables
      ensures ok == !HasEventId(old(tables.events), row.eventId)
      ensures tables == if ok then old(tables).(events := old(tables.events) + [row]) else old(tables)
    {
      ok := !HasEventId(tables.events, row.eventId);
      if ok {
        tables := tables.(events := tables.events + [row]);
      }
    }

    method FailTransaction() returns (outcome: Outcome)
      requires saved.Some?
      modifies this
      ensures tables == old(saved.value) && saved.None? && failed && outcome == Rejected
    {
      Rollback();
      failed := true;
      outcome := Rejected;
    }

    /** Claim and insert in one transaction; an exception at any statement leaves the tables as they were. */
    method RecordEventWithIngressDedupe(hookId: string, eventId: string, fault: Fault) returns (outcome: Outcome)
      requires saved.None?
      modifies this
      ensures saved.None?
      ensures (outcome, tables) == RecordHook(old(tables), hookId, eventId, fault)
      ensures failed == (old(failed) || outcome.Rejected?)
    {
      if fault.AtBegin? {
        failed := true;
        return Rejected;
      }
      Begin();
      if fault.AtClaim? {
        outcome := FailTransaction();
        return;
      }
      var claimed := ClaimDedupeKey(DedupeKey(HookKey, hookId), eventId);
      if claimed {
        var ok := false;
        if !fault.AtInsert? {
          ok := InsertEvent(EventRow(eventId, HookIngested(hookId)));
        }
        if !ok {
          outcome := FailTransaction();
          return;
        }
      }
      if fault.AtCommit? {
        outcome := FailTransaction();
        return;
      }
      Commit();
      outcome := Ingested(!claimed);
    }
  }
}
