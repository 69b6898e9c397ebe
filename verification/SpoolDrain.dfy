/** drainProviderIngressSpool(): one pass over the spool directory, in order, undisturbed by others. */
module SpoolDrain {
  import opened Wrappers
  import opened IngressStore
  import opened HookModel

  /** The directory: a file's record, or None for one that does not parse. */
  type Files = map<string, Option<SpoolRecord>>

  /** What the environment decides for one path: the id its row would get and which statement fails, if any. */
  datatype Turn = Turn(path: string, eventId: string, fault: Fault)

  datatype Pass = Pass(files: Files, tables: Tables, drained: nat, failed: nat)

  predicate IsReadable(files: Files, path: string) {
    path in files && files[path].Some?
  }

  function DrainOne(pass: Pass, turn: Turn): Pass {
    if !IsReadable(pass.files, turn.path) then pass.(failed := pass.failed + 1)
    else
      var record := pass.files[turn.path].value;
      var (outcome, tables) := RecordHook(pass.tables, record.hookId, turn.eventId, turn.fault);
      if outcome.Ingested? then
        pass.(files := pass.files - {turn.path}, tables := tables, drained := pass.drained + 1)
      else
        pass.(files := pass.files[turn.path := Some(record.(attempts := record.attempts + 1))], tables := tables,
              failed := pass.failed + 1)
  }

  function DrainAll(files: Files, tables: Tables, turns: seq<Turn>): Pass {
    if turns == [] then Pass(files, tables, 0, 0)
    else DrainOne(DrainAll(files, tables, turns[..|turns| - 1]), turns[|turns| - 1])
  }

  class Drainer {
    const store: Sqlite
    var files: Files
    var drained: nat
    var failed: nat

    constructor (store: Sqlite, files: Files)
      ensures this.store == store && this.files == files && drained == 0 && failed == 0
    {
      this.store, this.files := store, files;
      drained, failed := 0, 0;
    }

    method UpdateFailedRecord(path: string, record: SpoolRecord)
      modifies `files
      ensures files == old(files)[path := Some(record.(attempts := record.attempts + 1))]
    {
      files := files[path := Some(record.(attempts := record.attempts + 1))];
    }

    /** The loop over the listed paths; unreadable files are counted and left for diagnosis. */
    method Drain(turns: seq<Turn>)
      requires store.saved.None?
      modifies this, store
      ensures Pass(files, store.tables, drained, failed) == DrainAll(old(files), old(store.tables), turns)
      ensures store.saved.None?
    {
      drained, failed := 0, 0;
      for k := 0 to |turns|
        invariant Pass(files, store.tables, drained, failed) == DrainAll(old(files), old(store.tables), turns[..k])
        invariant store.saved.None?
      {
        assert turns[..k + 1][..k] == turns[..k];
        var path := turns[k].path;
        if path !in files || files[path].None? {
          failed := failed + 1;
          continue;
        }
        var record := files[path].value;
        var outcome := store.RecordEventWithIngressDedupe(record.hookId, turns[k].eventId, turns[k].fault);
        if outcome.Ingested? {
          files := files - {path};
          drained := drained + 1;
        } else {
          UpdateFailedRecord(path, record);
          failed := failed + 1;
        }
      }
      assert turns[..|turns|] == turns;
    }
  }

  // ---- What a pass achieves ----

  predicate Visits(turns: seq<Turn>, path: string) {
    exists k :: 0 <= k < |turns| && turns[k].path == path
  }

  /** A listing names every file once. */
  predicate IsListing(turns: seq<Turn>) {
    forall j, k :: 0 <= j < k < |turns| ==> turns[j].path != turns[k].path
  }

  lemma VisitsLast(turns: seq<Turn>, path: string)
    requires turns != []
    ensures Visits(turns, path) <==> Visits(turns[..|turns| - 1], path) || turns[|turns| - 1].path == path
  {
  }

  lemma RecordHookOnlyAdds(t: Tables, hookId: string, eventId: string, fault: Fault)
    ensures var r := RecordHook(t, hookId, eventId, fault);
            && (forall h :: IsClaimed(t, h) ==> IsClaimed(r.1, h))
            && (r.0.Ingested? ==> IsClaimed(r.1, hookId))
  {
  }

  /**
   * The fate of every file: one the pass does not visit, or cannot read, is untouched; a readable one it visits is
   * either gone with its hook in the log, or still there with one more attempt.
   */
  lemma {:induction false} EveryFileIsAccountedFor(files: Files, tables: Tables, turns: seq<Turn>, path: string)
    requires IsListing(turns)
    ensures var pass := DrainAll(files, tables, turns);
            && pass.drained + pass.failed == |turns|
            && (forall h :: IsClaimed(tables, h) ==> IsClaimed(pass.tables, h))
            && (!Visits(turns, path) || !IsReadable(files, path) ==>
                  (path in pass.files <==> path in files) && (path in files ==> pass.files[path] == files[path]))
            && (Visits(turns, path) && IsReadable(files, path) ==>
                  if path in pass.files then
                    pass.files[path] == Some(files[path].value.(attempts := files[path].value.attempts + 1))
                  else IsClaimed(pass.tables, files[path].value.hookId))
  {
    if turns == [] {
    } else {
      var n := |turns| - 1;
      var before, turn := DrainAll(files, tables, turns[..n]), turns[n];
      EveryFileIsAccountedFor(files, tables, turns[..n], path);
      VisitsLast(turns, path);
      if IsReadable(before.files, turn.path) {
        RecordHookOnlyAdds(before.tables, before.files[turn.path].value.hookId, turn.eventId, turn.fault);
      }
      if turn.path == path {
        assert !Visits(turns[..n], path);
      }
    }
  }

  /** The row ids of a pass are new and distinct, and nothing fails. */
  predicate IsUndisturbed(tables: Tables, turns: seq<Turn>) {
    && (forall k :: 0 <= k < |turns| ==> turns[k].fault.NoFault? && !HasEventId(tables.events, turns[k].eventId))
    && (forall j, k :: 0 <= j < k < |turns| ==> turns[j].eventId != turns[k].eventId)
  }

  lemma {:induction false} RowIdsOfAPass(files: Files, tables: Tables, turns: seq<Turn>, eventId: string)
    requires !HasEventId(tables.events, eventId) && forall k :: 0 <= k < |turns| ==> turns[k].eventId != eventId
    ensures !HasEventId(DrainAll(files, tables, turns).tables.events, eventId)
  {
    if turns == [] {
    } else {
      var before := DrainAll(files, tables, turns[..|turns| - 1]);
      RowIdsOfAPass(files, tables, turns[..|turns| - 1], eventId);
      assert forall i :: 0 <= i < |before.tables.events| ==> before.tables.events[i].eventId != eventId;
    }
  }

  /** An undisturbed pass empties the spool of everything readable it visits, and every such hook is in the log. */
  lemma {:induction false} UndisturbedPassDelivers(files: Files, tables: Tables, turns: seq<Turn>, path: string)
    requires IsListing(turns) && IsUndisturbed(tables, turns) && Visits(turns, path) && IsReadable(files, path)
    ensures var pass := DrainAll(files, tables, turns);
            path !in pass.files && IsClaimed(pass.tables, files[path].value.hookId)
  {
    var n := |turns| - 1;
    var before, turn := DrainAll(files, tables, turns[..n]), turns[n];
    VisitsLast(turns, path);
    EveryFileIsAccountedFor(files, tables, turns, path);
    if turn.path == path {
      assert !Visits(turns[..n], path);
      EveryFileIsAccountedFor(files, tables, turns[..n], path);
      RowIdsOfAPass(files, tables, turns[..n], turn.eventId);
    } else {
      UndisturbedPassDelivers(files, tables, turns[..n], path);
    }
  }
}
