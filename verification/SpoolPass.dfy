/** An undisturbed pass over the spool is a run of the transition system in which passes may disturb each other. */
module SpoolPass {
  import opened Wrappers
  import opened IngressStore
  import opened HookModel
  import SpoolDrain
  import HookTheorems

  function Contents(files: map<string, File>): SpoolDrain.Files {
    map path | path in files :: files[path].content
  }

  /** Drain `d` and what it works on, as a pass. */
  function PassOf(s: State, d: nat): SpoolDrain.Pass
    requires d < |s.drains|
  {
    SpoolDrain.Pass(Contents(s.disk.files), s.store, s.drains[d].drained, s.drains[d].failed)
  }

  function Paths(turns: seq<SpoolDrain.Turn>): seq<string> {
    if turns == [] then [] else Paths(turns[..|turns| - 1]) + [turns[|turns| - 1].path]
  }

  predicate IsAt(s: State, d: nat, path: string) {
    d < |s.drains| && s.drains[d].point.Looking? && s.drains[d].todo != [] && s.drains[d].todo[0] == path
  }

  lemma {:induction false} Then(s: State, actions: seq<Action>, a: Action) returns (more: seq<Action>)
    ensures RunFrom(s, more) == Next(RunFrom(s, actions), a)
  {
    more := actions + [a];
    HookTheorems.RunSplit(s, actions, [a]);
    HookTheorems.RunOne(RunFrom(s, actions), a);
  }

  /** The drain reads a record, and its ingest() call runs to its answer. */
  lemma {:induction false} RecordIsIngested(s: State, d: nat, turn: SpoolDrain.Turn) returns (actions: seq<Action>)
    requires IsAt(s, d, turn.path) && SpoolDrain.IsReadable(Contents(s.disk.files), turn.path)
    ensures var t, record := RunFrom(s, actions), s.disk.files[turn.path].content.value;
            var (outcome, tables) := RecordHook(s.store, record.hookId, turn.eventId, turn.fault);
            && t.store == tables && t.disk == s.disk && |t.requests| == |s.requests| + 1
            && t.drains == s.drains[d := s.drains[d].(point := Ingesting(record, |s.requests|))]
            && t.requests[|s.requests|].phase == Replied(outcome.Ingested?)
  {
    var r := |s.requests|;
    actions := Then(s, [], DoReadFile(d));
    actions := Then(s, actions, DoIngest(r, turn.eventId, turn.fault));
    var t := RunFrom(s, actions);
    if t.requests[r].phase.Committed? {
      actions := Then(s, actions, DoPublish(r));
    }
  }

  /** What becomes of a record's file and of the counters once its ingest() call is answered. */
  function Finish(pass: SpoolDrain.Pass, path: string, record: SpoolRecord, accepted: bool): SpoolDrain.Pass {
    if accepted then pass.(files := pass.files - {path}, drained := pass.drained + 1)
    else
      pass.(files := pass.files[path := Some(record.(attempts := record.attempts + 1))], failed := pass.failed + 1)
  }

  lemma DrainOneFinishes(pass: SpoolDrain.Pass, turn: SpoolDrain.Turn)
    requires SpoolDrain.IsReadable(pass.files, turn.path)
    ensures var record := pass.files[turn.path].value;
            var (outcome, tables) := RecordHook(pass.tables, record.hookId, turn.eventId, turn.fault);
            SpoolDrain.DrainOne(pass, turn) == Finish(pass.(tables := tables), turn.path, record, outcome.Ingested?)
  {
  }

  predicate IsAsked(s: State, d: nat, path: string, accepted: bool) {
    && d < |s.drains| && s.drains[d].point.Ingesting? && s.drains[d].todo != [] && s.drains[d].todo[0] == path
    && s.drains[d].point.request < |s.requests| && path in s.disk.files
    && s.requests[s.drains[d].point.request].phase == Replied(accepted)
  }

  /** Drain `d` has gone on to its next path. */
  predicate HasMovedOn(s: State, t: State, d: nat)
    requires d < |s.drains| && s.drains[d].todo != []
  {
    |t.drains| == |s.drains| && t.drains[d].point.Looking? && t.drains[d].todo == s.drains[d].todo[1..]
  }

  predicate IsFinished(s: State, t: State, d: nat, accepted: bool)
    requires d < |s.drains| && !s.drains[d].point.Looking? && s.drains[d].todo != []
  {
    HasMovedOn(s, t, d) && PassOf(t, d) == Finish(PassOf(s, d), s.drains[d].todo[0], s.drains[d].point.record, accepted)
  }

  lemma {:induction false} UnlinkFinishes(s: State, d: nat)
    requires d < |s.drains| && s.drains[d].point.Unlinking? && s.drains[d].todo != [] && s.drains[d].todo[0] in s.disk.files
    ensures IsFinished(s, Next(s, DoUnlink(d, true)), d, true)
  {
    assert Contents(Next(s, DoUnlink(d, true)).disk.files) == Contents(s.disk.files) - {s.drains[d].todo[0]};
  }

  lemma {:induction false} UpdateFinishes(s: State, d: nat)
    requires d < |s.drains| && s.drains[d].point.Truncating? && s.drains[d].todo != [] && s.drains[d].todo[0] in s.disk.files
    ensures IsFinished(s, Next(Next(s, DoTruncate(d)), DoRewrite(d)), d, false)
  {
    var path, record := s.drains[d].todo[0], s.drains[d].point.record;
    assert Contents(Next(Next(s, DoTruncate(d)), DoRewrite(d)).disk.files) ==
           Contents(s.disk.files)[path := Some(record.(attempts := record.attempts + 1))];
  }

  lemma AnswerIsNoted(s: State, d: nat, path: string, accepted: bool)
    requires IsAsked(s, d, path, accepted)
    ensures var record := s.drains[d].point.record;
            Next(s, DoDrainAnswered(d)) == s.(drains := s.drains[d := s.drains[d].(point :=
              if accepted then Unlinking(record) else Truncating(record, true))])
  {
  }

  /** An accepted record's file is unlinked; a rejected one's is written again with one more attempt. */
  lemma {:induction false} RecordIsFinished(s: State, d: nat, path: string, accepted: bool) returns (actions: seq<Action>)
    requires IsAsked(s, d, path, accepted)
    ensures IsFinished(s, RunFrom(s, actions), d, accepted)
  {
    AnswerIsNoted(s, d, path, accepted);
    var u := Next(s, DoDrainAnswered(d));
    actions := Then(s, [], DoDrainAnswered(d));
    if accepted {
      UnlinkFinishes(u, d);
      actions := Then(s, actions, DoUnlink(d, true));
    } else {
      UpdateFinishes(u, d);
      actions := Then(s, actions, DoTruncate(d));
      actions := Then(s, actions, DoRewrite(d));
    }
  }

  lemma {:induction false} ReadableTurnIsARun(s: State, d: nat, turn: SpoolDrain.Turn) returns (actions: seq<Action>)
    requires IsAt(s, d, turn.path) && SpoolDrain.IsReadable(Contents(s.disk.files), turn.path)
    ensures HasMovedOn(s, RunFrom(s, actions), d)
    ensures PassOf(RunFrom(s, actions), d) == SpoolDrain.DrainOne(PassOf(s, d), turn)
  {
    var ingest := RecordIsIngested(s, d, turn);
    var u := RunFrom(s, ingest);
    var finish := RecordIsFinished(u, d, turn.path, u.requests[|s.requests|].phase.accepted);
    actions := ingest + finish;
    HookTheorems.RunSplit(s, ingest, finish);
    DrainOneFinishes(PassOf(s, d), turn);
  }

  lemma {:induction false} TurnIsARun(s: State, d: nat, turn: SpoolDrain.Turn) returns (actions: seq<Action>)
    requires IsAt(s, d, turn.path)
    ensures HasMovedOn(s, RunFrom(s, actions), d)
    ensures PassOf(RunFrom(s, actions), d) == SpoolDrain.DrainOne(PassOf(s, d), turn)
  {
    if SpoolDrain.IsReadable(Contents(s.disk.files), turn.path) {
      actions := ReadableTurnIsARun(s, d, turn);
    } else {
      actions := Then(s, [], DoReadFile(d));
    }
  }

  lemma {:induction false} TurnsAreARun(s: State, d: nat, turns: seq<SpoolDrain.Turn>, rest: seq<string>)
    returns (actions: seq<Action>)
    requires d < |s.drains| && s.drains[d] == Drain(Paths(turns) + rest, Looking, 0, 0)
    ensures var t := RunFrom(s, actions);
            && d < |t.drains| && t.drains[d].point.Looking? && t.drains[d].todo == rest
            && PassOf(t, d) == SpoolDrain.DrainAll(Contents(s.disk.files), s.store, turns)
  {
    if turns == [] {
      actions := [];
    } else {
      var init, last := turns[..|turns| - 1], turns[|turns| - 1];
      assert Paths(turns) + rest == Paths(init) + ([last.path] + rest);
      var before := TurnsAreARun(s, d, init, [last.path] + rest);
      var turn := TurnIsARun(RunFrom(s, before), d, last);
      actions := before + turn;
      HookTheorems.RunSplit(s, before, turn);
    }
  }

  /**
   * From any state, an undisturbed pass over the files that are there is a run: what Drainer.Drain does to the files,
   * the tables and the counters is what the steps of one drain do, with the same failures of the store.
   */
  lemma {:induction false} PassIsARun(s: State, turns: seq<SpoolDrain.Turn>) returns (actions: seq<Action>)
    requires Enabled(s, DoDrain(Paths(turns)))
    ensures var t, d := RunFrom(s, actions), |s.drains|;
            && d < |t.drains| && t.drains[d].todo == []
            && PassOf(t, d) == SpoolDrain.DrainAll(Contents(s.disk.files), s.store, turns)
  {
    var begin := Then(s, [], DoDrain(Paths(turns)));
    assert Paths(turns) + [] == Paths(turns);
    var pass := TurnsAreARun(RunFrom(s, begin), |s.drains|, turns, []);
    actions := begin + pass;
    HookTheorems.RunSplit(s, begin, pass);
  }

  /** An ingested record whose file cannot be unlinked is written again with one more attempt, like a rejected one. */
  lemma {:induction false} FailedUnlinkIsUpdated(s: State, d: nat)
    requires d < |s.drains| && s.drains[d].point.Unlinking? && s.drains[d].todo != [] && s.drains[d].todo[0] in s.disk.files
    ensures IsFinished(s, Next(Next(Next(s, DoUnlink(d, false)), DoTruncate(d)), DoRewrite(d)), d, false)
  {
    var u := Next(s, DoUnlink(d, false));
    assert u == s.(drains := s.drains[d := s.drains[d].(point := Truncating(s.drains[d].point.record, false))]);
    UpdateFinishes(u, d);
  }
}
