/** The table of provider observations and the coalescing of unchanged ones. */
module Observations {
  import opened Wrappers
  import opened StablePayload

  datatype Entity = Entity(provider: string, providerType: string, entityKind: string, entityKey: string)

  /** Times are points on one line; ids are given by their rank in the order of the id column. */
  datatype Input = Input(
    id: int, entity: Entity, payload: Json, observedAt: int, expiresAt: Option<int>, coalesceUnchanged: bool)

  datatype Row = Row(id: int, entity: Entity, payload: Json, observedAt: int, expiresAt: Option<int>)

  predicate IsLater(a: Row, b: Row) {
    a.observedAt > b.observedAt || (a.observedAt == b.observedAt && a.id > b.id)
  }

  /** ORDER BY observed_at DESC, id DESC LIMIT 1 over the entity's rows: the index of the row it yields. */
  function LatestIndex(rows: seq<Row>, entity: Entity): (r: Option<nat>)
    ensures r.Some? ==> r.value < |rows| && rows[r.value].entity == entity
  {
    if rows == [] then None
    else
      var n := |rows| - 1;
      var best := LatestIndex(rows[..n], entity);
      if rows[n].entity == entity && (best.None? || IsLater(rows[n], rows[best.value])) then Some(n) else best
  }

  predicate IsUnchanged(row: Row, input: Input) {
    StableKey(row.payload) == StableKey(input.payload)
  }

  function RowOf(input: Input): Row {
    Row(input.id, input.entity, input.payload, input.observedAt, input.expiresAt)
  }

  /** UPDATE ... WHERE id: the row keeps its id and entity. */
  function Refresh(row: Row, input: Input): Row {
    row.(payload := input.payload, observedAt := input.observedAt, expiresAt := input.expiresAt)
  }

  function WithoutId(rows: seq<Row>, id: int): seq<Row> {
    if rows == [] then []
    else
      var n := |rows| - 1;
      WithoutId(rows[..n], id) + if rows[n].id == id then [] else [rows[n]]
  }

  function RecordInput(rows: seq<Row>, input: Input): seq<Row> {
    var latest := LatestIndex(rows, input.entity);
    if input.coalesceUnchanged && latest.Some? && IsUnchanged(rows[latest.value], input) then
      rows[latest.value := Refresh(rows[latest.value], input)]
    else WithoutId(rows, input.id) + [RowOf(input)]
  }

  function RecordAll(inputs: seq<Input>): seq<Row> {
    if inputs == [] then [] else RecordInput(RecordAll(inputs[..|inputs| - 1]), inputs[|inputs| - 1])
  }

  /** Rows to forget: those that expired, and of those without expiry the ones observed before a legacy limit. */
  predicate IsPruned(row: Row, expiresBefore: int, legacyBefore: Option<int>) {
    if row.expiresAt.Some? then row.expiresAt.value <= expiresBefore
    else legacyBefore.Some? && row.observedAt < legacyBefore.value
  }

  function Prune(rows: seq<Row>, expiresBefore: int, legacyBefore: Option<int>): seq<Row> {
    if rows == [] then []
    else
      var n := |rows| - 1;
      Prune(rows[..n], expiresBefore, legacyBefore) + if IsPruned(rows[n], expiresBefore, legacyBefore) then [] else [rows[n]]
  }

  function DeleteExpired(rows: seq<Row>, expiresBefore: int): seq<Row> {
    if rows == [] then []
    else
      var n := |rows| - 1;
      DeleteExpired(rows[..n], expiresBefore) +
      if rows[n].expiresAt.Some? && rows[n].expiresAt.value <= expiresBefore then [] else [rows[n]]
  }

  function DeleteLegacy(rows: seq<Row>, observedBefore: int): seq<Row> {
    if rows == [] then []
    else
      var n := |rows| - 1;
      DeleteLegacy(rows[..n], observedBefore) +
      if rows[n].expiresAt.None? && rows[n].observedAt < observedBefore then [] else [rows[n]]
  }

  lemma {:induction false} TwoDeletesAreOnePrune(rows: seq<Row>, expiresBefore: int, legacyBefore: Option<int>)
    ensures Prune(rows, expiresBefore, legacyBefore) ==
            if legacyBefore.Some? then DeleteLegacy(DeleteExpired(rows, expiresBefore), legacyBefore.value)
            else DeleteExpired(rows, expiresBefore)
  {
    if rows == [] {
    } else {
      var n := |rows| - 1;
      TwoDeletesAreOnePrune(rows[..n], expiresBefore, legacyBefore);
      var before := DeleteExpired(rows[..n], expiresBefore);
      var after := DeleteExpired(rows, expiresBefore);
      assert after == before || after == before + [rows[n]];
      assert (before + [rows[n]])[..|before|] == before;
    }
  }

  class ObservationTable {
    var rows: seq<Row>

    constructor ()
      ensures rows == []
    {
      rows := [];
    }

    /** insertProviderObservation(): the row that now holds the input is returned. */
    method Insert(input: Input) returns (row: Row)
      modifies this
      ensures rows == RecordInput(old(rows), input)
      ensures row in rows && row.payload == input.payload && row.observedAt == input.observedAt
    {
      if input.coalesceUnchanged {
        var latest := LatestIndex(rows, input.entity);
        if latest.Some? && IsUnchanged(rows[latest.value], input) {
          row := Refresh(rows[latest.value], input);
          rows := rows[latest.value := row];
          assert rows[latest.value] == row;
          return;
        }
      }
      row := RowOf(input);
      rows := WithoutId(rows, input.id) + [row];
    }

    /** pruneExpiredProviderObservations(): two deletes, whose changes are added up. */
    method PruneExpired(expiresBefore: int, legacyBefore: Option<int>) returns (changes: int)
      modifies this
      ensures rows == Prune(old(rows), expiresBefore, legacyBefore)
      ensures changes == old(|rows|) - |rows|
    {
      TwoDeletesAreOnePrune(rows, expiresBefore, legacyBefore);
      var kept := DeleteExpired(rows, expiresBefore);
      changes := |rows| - |kept|;
      rows := kept;
      if legacyBefore.Some? {
        kept := DeleteLegacy(rows, legacyBefore.value);
        changes := changes + |rows| - |kept|;
        rows := kept;
      }
    }
  }
}

/** A coalesced history is the run-length compression of the append-only one. */
module ObservationTheorems {
  import opened Wrappers
  import opened StablePayload
  import opened Observations
  import opened Sequences

  // ---- One entity's part of the table and of the inputs ----

  function RowsOf(rows: seq<Row>, entity: Entity): seq<Row> {
    if rows == [] then []
    else
      var n := |rows| - 1;
      RowsOf(rows[..n], entity) + if rows[n].entity == entity then [rows[n]] else []
  }

  /** The append-only history of an entity. */
  function History(inputs: seq<Input>, entity: Entity): seq<Input> {
    if inputs == [] then []
    else
      var n := |inputs| - 1;
      History(inputs[..n], entity) + if inputs[n].entity == entity then [inputs[n]] else []
  }

  // ---- Run-length compression, stated by its cut points ----

  predicate SameKey(a: Input, b: Input) {
    StableKey(a.payload) == StableKey(b.payload)
  }

  /** A run of inputs and the row that stands for it: named after the first, holding what the last brought. */
  predicate StandsFor(row: Row, first: Input, last: Input) {
    row == Row(first.id, first.entity, last.payload, last.observedAt, last.expiresAt)
  }

  /** A stretch of the history, from `start` up to but not including `end`. */
  datatype Run = Run(start: nat, end: nat)

  ghost predicate IsRun(row: Row, history: seq<Input>, run: Run) {
    && run.start < run.end <= |history|
    && StandsFor(row, history[run.start], history[run.end - 1])
    && (forall j :: run.start <= j < run.end ==> SameKey(history[run.start], history[j]))
  }

  /** Two runs meet at a change. */
  ghost predicate Meet(history: seq<Input>, a: Run, b: Run) {
    a.end == b.start && 0 < b.start < |history| && !SameKey(history[b.start - 1], history[b.start])
  }

  ghost predicate IsCompression(rows: seq<Row>, history: seq<Input>, runs: seq<Run>) {
    && |runs| == |rows|
    && (if runs == [] then history == [] else runs[0].start == 0 && runs[|runs| - 1].end == |history|)
    && (forall k :: 0 <= k < |rows| ==> IsRun(rows[k], history, runs[k]))
    && (forall j, k :: 0 <= j && k == j + 1 && k < |runs| ==> Meet(history, runs[j], runs[k]))
  }

  ghost predicate Compresses(rows: seq<Row>, history: seq<Input>) {
    exists runs :: IsCompression(rows, history, runs)
  }

  lemma RunOfLonger(row: Row, history: seq<Input>, run: Run, input: Input)
    requires IsRun(row, history, run)
    ensures IsRun(row, history + [input], run)
  {
  }

  lemma ExtendRun(row: Row, history: seq<Input>, run: Run, input: Input)
    requires IsRun(row, history, run) && run.end == |history|
    requires StableKey(row.payload) == StableKey(input.payload)
    ensures IsRun(Refresh(row, input), history + [input], run.(end := |history| + 1))
  {
  }

  lemma ExtendLastRun(rows: seq<Row>, history: seq<Input>, runs: seq<Run>, input: Input)
    requires IsCompression(rows, history, runs) && rows != []
    requires StableKey(rows[|rows| - 1].payload) == StableKey(input.payload)
    ensures Compresses(rows[|rows| - 1 := Refresh(rows[|rows| - 1], input)], history + [input])
  {
    var m := |rows| - 1;
    var rows', h, r := rows[m := Refresh(rows[m], input)], history + [input], runs[m := runs[m].(end := |history| + 1)];
    ExtendRun(rows[m], history, runs[m], input);
    forall k | 0 <= k < |rows'| ensures IsRun(rows'[k], h, r[k]) {
      if k < m { RunOfLonger(rows[k], history, runs[k], input); }
    }
    forall j, k | 0 <= j && k == j + 1 && k < |r| ensures Meet(h, r[j], r[k]) {
      assert Meet(history, runs[j], runs[k]);
    }
    assert IsCompression(rows', h, r);
  }

  lemma BeginNewRun(rows: seq<Row>, history: seq<Input>, runs: seq<Run>, input: Input)
    requires IsCompression(rows, history, runs)
    requires rows != [] ==> StableKey(rows[|rows| - 1].payload) != StableKey(input.payload)
    ensures Compresses(rows + [RowOf(input)], history + [input])
  {
    var m := |rows|;
    var rows', h, r := rows + [RowOf(input)], history + [input], runs + [Run(|history|, |history| + 1)];
    forall k | 0 <= k < |rows'| ensures IsRun(rows'[k], h, r[k]) {
      if k < m { RunOfLonger(rows[k], history, runs[k], input); }
    }
    forall j, k | 0 <= j && k == j + 1 && k < |r| ensures Meet(h, r[j], r[k]) {
      if k < m {
        assert Meet(history, runs[j], runs[k]);
      } else {
        assert IsRun(rows[j], history, runs[j]);
      }
    }
    assert IsCompression(rows', h, r);
  }

  // ---- The table, seen by one entity ----

  lemma {:induction false} RowsOfAppend(rows: seq<Row>, row: Row, entity: Entity)
    ensures RowsOf(rows + [row], entity) ==
            if row.entity == entity then RowsOf(rows, entity) + [row] else RowsOf(rows, entity)
  {
  }

  lemma {:induction false} NothingToDelete(rows: seq<Row>, id: int)
    requires forall i :: 0 <= i < |rows| ==> rows[i].id != id
    ensures WithoutId(rows, id) == rows
  {
    if rows == [] {
    } else {
      NothingToDelete(rows[..|rows| - 1], id);
    }
  }

  /** Replacing a row of another entity goes unnoticed. */
  lemma {:induction false} RowsOfOtherUpdate(rows: seq<Row>, i: nat, row: Row, entity: Entity)
    requires i < |rows| && rows[i].entity != entity && row.entity != entity
    ensures RowsOf(rows[i := row], entity) == RowsOf(rows, entity)
  {
    var n := |rows| - 1;
    if i == n {
      assert rows[i := row][..n] == rows[..n];
    } else {
      assert rows[i := row][..n] == rows[..n][i := row];
      RowsOfOtherUpdate(rows[..n], i, row, entity);
    }
  }

  lemma OrderedPrefix(rows: seq<Row>, row: Row)
    requires AreInOrder(rows + [row])
    ensures AreInOrder(rows) && (rows != [] ==> IsLater(row, rows[|rows| - 1]))
  {
    var all := rows + [row];
    assert forall k :: 0 <= k < |rows| ==> rows[k] == all[k];
    assert rows != [] ==> IsLater(all[|rows|], all[|rows| - 1]);
  }

  /** Among rows inserted in the order of the query, the latest is the one inserted last. */
  lemma {:induction false} LatestIsLast(rows: seq<Row>, entity: Entity)
    requires AreInOrder(RowsOf(rows, entity))
    ensures var latest, own := LatestIndex(rows, entity), RowsOf(rows, entity);
            && (latest.None? <==> own == [])
            && (latest.Some? ==> rows[latest.value] == own[|own| - 1])
            && (latest.Some? ==> IsNewest(rows, latest.value, entity))
  {
    if rows == [] {
    } else {
      var n := |rows| - 1;
      var own, before := RowsOf(rows, entity), RowsOf(rows[..n], entity);
      if rows[n].entity == entity {
        assert own == before + [rows[n]];
        OrderedPrefix(before, rows[n]);
        LatestIsLast(rows[..n], entity);
        assert LatestIndex(rows, entity) == Some(n);
      } else {
        assert own == before;
        LatestIsLast(rows[..n], entity);
      }
    }
  }

  /** No later row of the table belongs to the entity. */
  predicate IsNewest(rows: seq<Row>, i: nat, entity: Entity) {
    forall j :: i < j < |rows| ==> rows[j].entity != entity
  }

  /** Replacing one of an entity's rows replaces it at its place among them. */
  lemma {:induction false} RowsOfUpdate(rows: seq<Row>, i: nat, row: Row, entity: Entity)
    requires i < |rows| && rows[i].entity == entity && row.entity == entity
    ensures var own, k := RowsOf(rows, entity), |RowsOf(rows[..i], entity)|;
            && k < |own| && own[k] == rows[i] && RowsOf(rows[i := row], entity) == own[k := row]
            && (IsNewest(rows, i, entity) <==> k == |own| - 1)
  {
    var n := |rows| - 1;
    if i == n {
      assert rows[i := row][..n] == rows[..n];
    } else {
      assert rows[i := row][..n] == rows[..n][i := row] && rows[..n][..i] == rows[..i];
      RowsOfUpdate(rows[..n], i, row, entity);
      assert IsNewest(rows, i, entity) <==> IsNewest(rows[..n], i, entity) && rows[n].entity != entity;
    }
  }

  predicate AreInOrder(rows: seq<Row>) {
    forall j, k :: 0 <= j < k < |rows| ==> IsLater(rows[k], rows[j])
  }

  // ---- The main result ----

  /** The input that began the last run of a history. */
  function FirstOfRun(history: seq<Input>): Input
    requires history != []
  {
    var n := |history| - 1;
    if n == 0 || !SameKey(history[n - 1], history[n]) then history[n] else FirstOfRun(history[..n])
  }

  /**
   * The next input is not earlier than the last one; if it has the same time and begins a new run, its row comes
   * after that of the run before in the order of ids.
   */
  predicate Follows(history: seq<Input>, input: Input) {
    history != [] ==>
      var last := history[|history| - 1];
      || last.observedAt < input.observedAt
      || (last.observedAt == input.observedAt && (SameKey(last, input) || FirstOfRun(history).id < input.id))
  }

  predicate InOrder(history: seq<Input>) {
    history != [] ==> InOrder(history[..|history| - 1]) && Follows(history[..|history| - 1], history[|history| - 1])
  }

  /** Row ids are given out once; this entity's inputs ask for coalescing and follow each other in order. */
  predicate IsOrderly(inputs: seq<Input>, entity: Entity) {
    && (forall i, j :: 0 <= i < j < |inputs| ==> inputs[i].id != inputs[j].id)
    && (forall i :: 0 <= i < |inputs| && inputs[i].entity == entity ==> inputs[i].coalesceUnchanged)
    && InOrder(History(inputs, entity))
  }

  /** Inputs with increasing times are in order, whatever their ids. */
  lemma {:induction false} IncreasingTimesAreInOrder(history: seq<Input>)
    requires forall j, k :: 0 <= j < k < |history| ==> history[j].observedAt < history[k].observedAt
    ensures InOrder(history)
  {
    if history == [] {
    } else {
      IncreasingTimesAreInOrder(history[..|history| - 1]);
    }
  }

  ghost predicate HasId(inputs: seq<Input>, id: int) {
    exists i :: 0 <= i < |inputs| && inputs[i].id == id
  }

  /** What holds of the table on the way: ids and times come from the inputs, in order. */
  ghost predicate TableInv(rows: seq<Row>, inputs: seq<Input>, entity: Entity) {
    var own := RowsOf(rows, entity);
    && HaveOldIds(rows, inputs)
    && AreInOrder(own)
    && Compresses(own, History(inputs, entity))
  }

  lemma {:induction false} HistoryOfAppend(inputs: seq<Input>, input: Input, entity: Entity)
    ensures History(inputs + [input], entity) ==
            if input.entity == entity then History(inputs, entity) + [input] else History(inputs, entity)
  {
  }

  lemma OldIdsStayOld(inputs: seq<Input>, input: Input, entity: Entity, id: int)
    requires IsOrderly(inputs + [input], entity) && HasId(inputs, id)
    ensures id != input.id && HasId(inputs + [input], id)
  {
    var all := inputs + [input];
    var i :| 0 <= i < |inputs| && inputs[i].id == id;
    assert all[i].id == id && all[|inputs|] == input;
  }

  ghost predicate HaveOldIds(rows: seq<Row>, inputs: seq<Input>) {
    forall k :: 0 <= k < |rows| ==> HasId(inputs, rows[k].id)
  }

  /** A new row id deletes nothing, and the ids in the table stay ids of inputs. */
  lemma NewIdDeletesNothing(rows: seq<Row>, inputs: seq<Input>, input: Input, entity: Entity)
    requires IsOrderly(inputs + [input], entity) && HaveOldIds(rows, inputs)
    ensures WithoutId(rows, input.id) == rows && HaveOldIds(rows, inputs + [input])
  {
    forall k | 0 <= k < |rows| ensures rows[k].id != input.id && HasId(inputs + [input], rows[k].id) {
      OldIdsStayOld(inputs, input, entity, rows[k].id);
    }
    NothingToDelete(rows, input.id);
  }

  lemma {:induction false} FirstOfRunIsItsStart(rows: seq<Row>, history: seq<Input>, runs: seq<Run>)
    requires IsCompression(rows, history, runs) && rows != []
    ensures history != [] && FirstOfRun(history) == history[runs[|rows| - 1].start]
  {
    var m := |rows| - 1;
    assert IsRun(rows[m], history, runs[m]);
    assert m > 0 ==> Meet(history, runs[m - 1], runs[m]);
    RunStart(history, runs[m].start);
  }

  lemma {:induction false} RunStart(history: seq<Input>, start: nat)
    requires start < |history| && forall j :: start <= j < |history| ==> SameKey(history[start], history[j])
    requires start > 0 ==> !SameKey(history[start - 1], history[start])
    ensures FirstOfRun(history) == history[start]
  {
    var n := |history| - 1;
    if start < n {
      assert SameKey(history[start], history[n - 1]) && SameKey(history[start], history[n]);
      RunStart(history[..n], start);
    }
  }

  /** Where the next input stands to the entity's last row: refreshed by it, or before its row. */
  ghost predicate ComesAfter(own: seq<Row>, input: Input) {
    own != [] ==>
      var last := own[|own| - 1];
      && last.observedAt <= input.observedAt
      && (IsUnchanged(last, input) || IsLater(RowOf(input), last))
  }

  lemma {:induction false} NextComesAfter(own: seq<Row>, history: seq<Input>, input: Input)
    requires Compresses(own, history) && Follows(history, input)
    ensures ComesAfter(own, input)
  {
    if own != [] {
      var runs :| IsCompression(own, history, runs);
      FirstOfRunIsItsStart(own, history, runs);
      assert IsRun(own[|own| - 1], history, runs[|own| - 1]);
    }
  }

  lemma {:induction false} OrderAfterAppend(rows: seq<Row>, row: Row)
    requires AreInOrder(rows) && (rows != [] ==> IsLater(row, rows[|rows| - 1]))
    ensures AreInOrder(rows + [row])
  {
  }

  lemma {:induction false} OrderAfterRefresh(rows: seq<Row>, row: Row)
    requires AreInOrder(rows) && rows != []
    requires row.id == rows[|rows| - 1].id && row.observedAt >= rows[|rows| - 1].observedAt
    ensures AreInOrder(rows[|rows| - 1 := row])
  {
  }

  /** The entity's own rows after an input that is unchanged: the last one is refreshed. */
  lemma {:induction false} OwnUnchangedInput(own: seq<Row>, history: seq<Input>, input: Input)
    requires own != [] && IsUnchanged(own[|own| - 1], input) && AreInOrder(own) && Compresses(own, history)
    requires own[|own| - 1].observedAt <= input.observedAt
    ensures var after := own[|own| - 1 := Refresh(own[|own| - 1], input)];
            AreInOrder(after) && Compresses(after, history + [input])
  {
    var runs :| IsCompression(own, history, runs);
    ExtendLastRun(own, history, runs, input);
    OrderAfterRefresh(own, Refresh(own[|own| - 1], input));
  }

  /** And after one that is new or has changed: there is one more. */
  lemma {:induction false} OwnNewInput(own: seq<Row>, history: seq<Input>, input: Input)
    requires AreInOrder(own) && Compresses(own, history)
    requires own != [] ==> !IsUnchanged(own[|own| - 1], input) && IsLater(RowOf(input), own[|own| - 1])
    ensures AreInOrder(own + [RowOf(input)]) && Compresses(own + [RowOf(input)], history + [input])
  {
    var runs :| IsCompression(own, history, runs);
    BeginNewRun(own, history, runs, input);
    OrderAfterAppend(own, RowOf(input));
  }

  /** What an input does to its entity's rows. */
  lemma OwnRowsAfter(rows: seq<Row>, input: Input, entity: Entity)
    requires input.entity == entity && input.coalesceUnchanged && WithoutId(rows, input.id) == rows
    requires AreInOrder(RowsOf(rows, entity))
    ensures var own, after := RowsOf(rows, entity), RowsOf(RecordInput(rows, input), entity);
            if own != [] && IsUnchanged(own[|own| - 1], input) then after == own[|own| - 1 := Refresh(own[|own| - 1], input)]
            else after == own + [RowOf(input)]
  {
    LatestIsLast(rows, entity);
    var latest := LatestIndex(rows, entity);
    if latest.Some? && IsUnchanged(rows[latest.value], input) {
      RowsOfUpdate(rows, latest.value, Refresh(rows[latest.value], input), entity);
    } else {
      RowsOfAppend(rows, RowOf(input), entity);
    }
  }

  /** What it does to another entity's: nothing. */
  lemma OtherRowsAfter(rows: seq<Row>, input: Input, entity: Entity)
    requires input.entity != entity && WithoutId(rows, input.id) == rows
    ensures RowsOf(RecordInput(rows, input), entity) == RowsOf(rows, entity)
  {
    var latest := LatestIndex(rows, input.entity);
    if input.coalesceUnchanged && latest.Some? && IsUnchanged(rows[latest.value], input) {
      RowsOfOtherUpdate(rows, latest.value, Refresh(rows[latest.value], input), entity);
    } else {
      RowsOfAppend(rows, RowOf(input), entity);
    }
  }

  lemma IdsAfter(rows: seq<Row>, inputs: seq<Input>, input: Input)
    requires HaveOldIds(rows, inputs + [input]) && WithoutId(rows, input.id) == rows
    ensures HaveOldIds(RecordInput(rows, input), inputs + [input])
  {
    assert (inputs + [input])[|inputs|].id == input.id;
    assert HasId(inputs + [input], input.id);
  }

  lemma OneOwnInput(rows: seq<Row>, history: seq<Input>, input: Input, entity: Entity)
    requires input.entity == entity && input.coalesceUnchanged && WithoutId(rows, input.id) == rows
    requires AreInOrder(RowsOf(rows, entity)) && Compresses(RowsOf(rows, entity), history)
    requires ComesAfter(RowsOf(rows, entity), input)
    ensures var after := RowsOf(RecordInput(rows, input), entity);
            AreInOrder(after) && Compresses(after, history + [input])
  {
    var own := RowsOf(rows, entity);
    OwnRowsAfter(rows, input, entity);
    if own != [] && IsUnchanged(own[|own| - 1], input) {
      OwnUnchangedInput(own, history, input);
    } else {
      OwnNewInput(own, history, input);
    }
  }

  lemma OneInput(rows: seq<Row>, inputs: seq<Input>, input: Input, entity: Entity)
    requires IsOrderly(inputs + [input], entity) && TableInv(rows, inputs, entity)
    ensures TableInv(RecordInput(rows, input), inputs + [input], entity)
  {
    var history := History(inputs, entity);
    NewIdDeletesNothing(rows, inputs, input, entity);
    IdsAfter(rows, inputs, input);
    HistoryOfAppend(inputs, input, entity);
    if input.entity == entity {
      assert (inputs + [input])[|inputs|] == input;
      assert (history + [input])[..|history|] == history;
      NextComesAfter(RowsOf(rows, entity), history, input);
      OneOwnInput(rows, history, input, entity);
    } else {
      OtherRowsAfter(rows, input, entity);
    }
  }

  lemma {:induction false} OrderlyPrefix(inputs: seq<Input>, entity: Entity)
    requires IsOrderly(inputs, entity) && inputs != []
    ensures IsOrderly(inputs[..|inputs| - 1], entity)
  {
    var init, last := inputs[..|inputs| - 1], inputs[|inputs| - 1];
    assert init + [last] == inputs;
    HistoryOfAppend(init, last, entity);
    var history := History(init, entity);
    assert (history + [last])[..|history|] == history;
  }

  lemma {:induction false} RunTableInv(inputs: seq<Input>, entity: Entity)
    requires IsOrderly(inputs, entity)
    ensures TableInv(RecordAll(inputs), inputs, entity)
  {
    if inputs == [] {
      assert IsCompression([], [], []);
    } else {
      var n := |inputs| - 1;
      assert inputs[..n] + [inputs[n]] == inputs;
      OrderlyPrefix(inputs, entity);
      RunTableInv(inputs[..n], entity);
      OneInput(RecordAll(inputs[..n]), inputs[..n], inputs[n], entity);
    }
  }

  /**
   * However the inputs of other entities are interleaved, and at whatever times these come, an entity's rows are the
   * run-length compression of its inputs: one row for each maximal run of stably equal payloads, in order, holding
   * the run's last payload and times.
   */
  lemma HistoryIsCompressed(inputs: seq<Input>, entity: Entity)
    requires IsOrderly(inputs, entity)
    ensures Compresses(RowsOf(RecordAll(inputs), entity), History(inputs, entity))
  {
    RunTableInv(inputs, entity);
  }

  /** The latest row of an entity is always its last input. */
  lemma LatestRowIsLastInput(inputs: seq<Input>, entity: Entity)
    requires IsOrderly(inputs, entity) && History(inputs, entity) != []
    ensures var rows, history := RecordAll(inputs), History(inputs, entity);
            var latest, last := LatestIndex(rows, entity), history[|history| - 1];
            && latest.Some? && rows[latest.value].payload == last.payload
            && rows[latest.value].observedAt == last.observedAt && rows[latest.value].expiresAt == last.expiresAt
  {
    RunTableInv(inputs, entity);
    var rows, history := RecordAll(inputs), History(inputs, entity);
    var own := RowsOf(rows, entity);
    var runs :| IsCompression(own, history, runs);
    assert own != [];
    LatestIsLast(rows, entity);
    assert IsRun(own[|own| - 1], history, runs[|own| - 1]);
  }

  /** There is one compression of a history, so the rows are determined by it. */
  lemma CompressionIsUnique(a: seq<Row>, b: seq<Row>, history: seq<Input>)
    requires Compresses(a, history) && Compresses(b, history)
    ensures a == b
  {
    var c :| IsCompression(a, history, c);
    var d :| IsCompression(b, history, d);
    if |a| <= |b| {
      ShorterIsPrefix(a, b, history, c, d);
    } else {
      ShorterIsPrefix(b, a, history, d, c);
    }
  }

  lemma ShorterIsPrefix(a: seq<Row>, b: seq<Row>, history: seq<Input>, c: seq<Run>, d: seq<Run>)
    requires IsCompression(a, history, c) && IsCompression(b, history, d) && |a| <= |b|
    ensures a == b
  {
    forall k | 0 <= k < |a| ensures c[k] == d[k] && a[k] == b[k] {
      RunsAgree(a, b, history, c, d, k);
      assert IsRun(a[k], history, c[k]) && IsRun(b[k], history, d[k]);
    }
    assert |a| < |b| ==> IsRun(b[|a|], history, d[|a|]);
    assert 0 < |a| < |b| ==> Meet(history, d[|a| - 1], d[|a|]);
  }

  lemma {:induction false} RunsAgree(a: seq<Row>, b: seq<Row>, history: seq<Input>, c: seq<Run>, d: seq<Run>, k: nat)
    requires IsCompression(a, history, c) && IsCompression(b, history, d) && k < |a| && k < |b|
    ensures c[k] == d[k]
  {
    if k > 0 {
      RunsAgree(a, b, history, c, d, k - 1);
      assert Meet(history, c[k - 1], c[k]) && Meet(history, d[k - 1], d[k]);
    }
    assert c[k].start == d[k].start;
    RunIsNotLonger(a, b, history, c, d, k);
    RunIsNotLonger(b, a, history, d, c, k);
  }

  /** A run ends at the end of the history or at a change, which a longer run with the same start would contain. */
  lemma {:induction false} RunIsNotLonger(a: seq<Row>, b: seq<Row>, history: seq<Input>, c: seq<Run>, d: seq<Run>, k: nat)
    requires IsCompression(a, history, c) && IsCompression(b, history, d) && k < |a| && k < |b|
    requires c[k].start == d[k].start
    ensures d[k].end <= c[k].end
  {
    assert IsRun(a[k], history, c[k]) && IsRun(b[k], history, d[k]);
    forall e | d[k].start < e < d[k].end ensures SameKey(history[e - 1], history[e]) {
      assert SameKey(history[d[k].start], history[e - 1]) && SameKey(history[d[k].start], history[e]);
    }
    if k + 1 < |a| {
      assert Meet(history, c[k], c[k + 1]);
    }
  }

  // ---- Exactly when an input is compressed ----

  lemma {:induction false} LatestExists(rows: seq<Row>, entity: Entity)
    requires RowsOf(rows, entity) != []
    ensures LatestIndex(rows, entity).Some?
  {
    var n := |rows| - 1;
    if rows[n].entity != entity { LatestExists(rows[..n], entity); }
  }

  /**
   * The row that is found serves the input as the row of the last run would: for an unchanged input it is that
   * row, or both rows already hold what they would be refreshed with; for a changed one it is not refreshed either.
   */
  predicate Serves(own: seq<Row>, found: Row, isLast: bool, input: Input)
    requires own != []
  {
    var last := own[|own| - 1];
    if IsUnchanged(last, input) then
      IsUnchanged(found, input) && (isLast || (Refresh(found, input) == found && Refresh(last, input) == last))
    else !IsUnchanged(found, input)
  }

  /** The row that the query finds serves the input. */
  predicate FindsItsRun(rows: seq<Row>, input: Input)
    requires RowsOf(rows, input.entity) != [] && LatestIndex(rows, input.entity).Some?
  {
    var found := LatestIndex(rows, input.entity).value;
    Serves(RowsOf(rows, input.entity), rows[found], IsNewest(rows, found, input.entity), input)
  }

  /** What an input does to its entity's rows, whatever their order. */
  lemma OwnRowsInAnyOrder(rows: seq<Row>, input: Input) returns (k: nat)
    requires input.coalesceUnchanged && WithoutId(rows, input.id) == rows
    requires RowsOf(rows, input.entity) != [] && LatestIndex(rows, input.entity).Some?
    ensures var own, after := RowsOf(rows, input.entity), RowsOf(RecordInput(rows, input), input.entity);
            var found := LatestIndex(rows, input.entity).value;
            && k < |own| && own[k] == rows[found] && (IsNewest(rows, found, input.entity) <==> k == |own| - 1)
            && after == if IsUnchanged(own[k], input) then own[k := Refresh(own[k], input)] else own + [RowOf(input)]
  {
    var found := LatestIndex(rows, input.entity).value;
    k := |RowsOf(rows[..found], input.entity)|;
    RowsOfUpdate(rows, found, Refresh(rows[found], input), input.entity);
    RowsOfAppend(rows, RowOf(input), input.entity);
  }

  /** The rows that compress the history with one more input. */
  function CompressedWith(own: seq<Row>, input: Input): seq<Row> {
    if own != [] && IsUnchanged(own[|own| - 1], input) then own[|own| - 1 := Refresh(own[|own| - 1], input)]
    else own + [RowOf(input)]
  }

  lemma {:induction false} OnlyThoseCompress(own: seq<Row>, history: seq<Input>, input: Input, after: seq<Row>)
    requires Compresses(own, history)
    ensures Compresses(after, history + [input]) <==> after == CompressedWith(own, input)
  {
    var runs :| IsCompression(own, history, runs);
    if own != [] && IsUnchanged(own[|own| - 1], input) {
      ExtendLastRun(own, history, runs, input);
    } else {
      BeginNewRun(own, history, runs, input);
    }
    if Compresses(after, history + [input]) { CompressionIsUnique(after, CompressedWith(own, input), history + [input]); }
  }

  lemma SameUpdate(own: seq<Row>, k: nat, input: Input)
    requires k < |own|
    ensures var last := own[|own| - 1];
            own[k := Refresh(own[k], input)] == own[|own| - 1 := Refresh(last, input)] <==>
              k == |own| - 1 || (Refresh(own[k], input) == own[k] && Refresh(last, input) == last)
  {
    var m := |own| - 1;
    var a, b := own[k := Refresh(own[k], input)], own[m := Refresh(own[m], input)];
    if a == b && k != m { assert a[k] == b[k] && a[m] == b[m]; }
    if Refresh(own[k], input) == own[k] && Refresh(own[m], input) == own[m] { assert a == own && b == own; }
  }

  lemma {:induction false} UpdateCompressesIff(own: seq<Row>, history: seq<Input>, k: nat, input: Input, after: seq<Row>)
    requires k < |own| && Compresses(own, history)
    requires after == if IsUnchanged(own[k], input) then own[k := Refresh(own[k], input)] else own + [RowOf(input)]
    ensures Compresses(after, history + [input]) <==> Serves(own, own[k], k == |own| - 1, input)
  {
    OnlyThoseCompress(own, history, input, after);
    SameUpdate(own, k, input);
    assert |own + [RowOf(input)]| == |own| + 1;
  }

  /**
   * Whatever the times and ids: an input turns the compression of its entity's history into that of the longer
   * history if and only if the query finds its run.
   */
  lemma {:induction false} InputIsCompressedIff(rows: seq<Row>, history: seq<Input>, input: Input)
    requires input.coalesceUnchanged && WithoutId(rows, input.id) == rows
    requires RowsOf(rows, input.entity) != [] && Compresses(RowsOf(rows, input.entity), history)
    ensures LatestIndex(rows, input.entity).Some?
    ensures Compresses(RowsOf(RecordInput(rows, input), input.entity), history + [input]) <==> FindsItsRun(rows, input)
  {
    var own, after := RowsOf(rows, input.entity), RowsOf(RecordInput(rows, input), input.entity);
    LatestExists(rows, input.entity);
    var k := OwnRowsInAnyOrder(rows, input);
    UpdateCompressesIff(own, history, k, input, after);
  }

  /** So equal times can void the result: the unlucky order of two ids hides the newer row, and equal neighbours stay apart. */
  lemma {:induction false} TiesAreNotCompressed(entity: Entity)
    ensures var inputs := [Input(2, entity, Number(1), 10, None, true), Input(1, entity, Number(2), 10, None, true),
                           Input(3, entity, Number(2), 11, None, true)];
            !Compresses(RowsOf(RecordAll(inputs), entity), History(inputs, entity))
  {
    var inputs := [Input(2, entity, Number(1), 10, None, true), Input(1, entity, Number(2), 10, None, true),
                   Input(3, entity, Number(2), 11, None, true)];
    var rows := TiedRows(entity, inputs);
    TiedHistory(entity, inputs);
    var merged := [rows[0], Refresh(rows[1], inputs[2])];
    var runs := [Run(0, 1), Run(1, 3)];
    assert IsRun(merged[0], inputs, runs[0]) && IsRun(merged[1], inputs, runs[1]) && Meet(inputs, runs[0], runs[1]);
    assert IsCompression(merged, inputs, runs);
    if Compresses(rows, inputs) {
      CompressionIsUnique(rows, merged, inputs);
      assert false;
    }
  }

  lemma {:induction false} TiedRows(entity: Entity, inputs: seq<Input>) returns (rows: seq<Row>)
    requires inputs == [Input(2, entity, Number(1), 10, None, true), Input(1, entity, Number(2), 10, None, true),
                        Input(3, entity, Number(2), 11, None, true)]
    ensures rows == RowsOf(RecordAll(inputs), entity) == [RowOf(inputs[0]), RowOf(inputs[1]), RowOf(inputs[2])]
  {
    var r1, r2, r3 := RowOf(inputs[0]), RowOf(inputs[1]), RowOf(inputs[2]);
    rows := [r1, r2, r3];
    TiedTable(entity, inputs);
    RowsOfAppend([], r1, entity);
    RowsOfAppend([r1], r2, entity);
    RowsOfAppend([r1, r2], r3, entity);
    assert [r1, r2] + [r3] == rows && [r1] + [r2] == [r1, r2] && [] + [r1] == [r1];
  }

  lemma {:induction false} TiedTable(entity: Entity, inputs: seq<Input>)
    requires inputs == [Input(2, entity, Number(1), 10, None, true), Input(1, entity, Number(2), 10, None, true),
                        Input(3, entity, Number(2), 11, None, true)]
    ensures RecordAll(inputs) == [RowOf(inputs[0]), RowOf(inputs[1]), RowOf(inputs[2])]
  {
    TiedPair(entity, inputs[..2]);
    var r1, r2 := RowOf(inputs[0]), RowOf(inputs[1]);
    assert inputs == inputs[..2] + [inputs[2]] && [r1, r2][..1] == [r1];
    assert LatestIndex([r1, r2], entity) == Some(0);
    ChangedInputIsAdded([r1, r2], inputs[2], 0);
    RecordOneMore(inputs[..2], inputs[2]);
  }

  lemma RecordOneMore(inputs: seq<Input>, input: Input)
    ensures RecordAll(inputs + [input]) == RecordInput(RecordAll(inputs), input)
  {
  }

  lemma {:induction false} ChangedInputIsAdded(rows: seq<Row>, input: Input, found: nat)
    requires LatestIndex(rows, input.entity) == Some(found)
    requires rows[found].payload == Number(1) && input.payload == Number(2)
    requires forall i :: 0 <= i < |rows| ==> rows[i].id != input.id
    ensures RecordInput(rows, input) == rows + [RowOf(input)]
  {
    NothingToDelete(rows, input.id);
  }

  lemma {:induction false} TiedPair(entity: Entity, inputs: seq<Input>)
    requires inputs == [Input(2, entity, Number(1), 10, None, true), Input(1, entity, Number(2), 10, None, true)]
    ensures RecordAll(inputs) == [RowOf(inputs[0]), RowOf(inputs[1])]
  {
    var r1 := RowOf(inputs[0]);
    assert inputs == [] + [inputs[0]] + [inputs[1]] && [r1][..0] == [];
    RecordOneMore([], inputs[0]);
    assert LatestIndex([r1], entity) == Some(0);
    ChangedInputIsAdded([r1], inputs[1], 0);
    RecordOneMore([inputs[0]], inputs[1]);
  }

  lemma {:induction false} TiedHistory(entity: Entity, inputs: seq<Input>)
    requires |inputs| == 3 && forall i :: 0 <= i < 3 ==> inputs[i].entity == entity
    ensures History(inputs, entity) == inputs
  {
    HistoryOfAppend([], inputs[0], entity);
    assert [] + [inputs[0]] == inputs[..1] && inputs[..1] + [inputs[1]] == inputs[..2] && inputs[..2] + [inputs[2]] == inputs;
    HistoryOfAppend(inputs[..1], inputs[1], entity);
    HistoryOfAppend(inputs[..2], inputs[2], entity);
  }

  // ---- The table as a whole ----

  /** The query finds a row of the entity if there is one, and none of the entity's comes after it. */
  lemma {:induction false} LatestIsTheLatest(rows: seq<Row>, entity: Entity)
    ensures var latest := LatestIndex(rows, entity);
            && (latest.None? <==> forall i :: 0 <= i < |rows| ==> rows[i].entity != entity)
            && (latest.Some? ==> forall i :: 0 <= i < |rows| && rows[i].entity == entity ==>
                  var row, found := rows[i], rows[latest.value];
                  row.observedAt < found.observedAt || (row.observedAt == found.observedAt && row.id <= found.id))
  {
    if rows == [] {
    } else {
      var n := |rows| - 1;
      LatestIsTheLatest(rows[..n], entity);
      assert forall i :: 0 <= i < n ==> rows[..n][i] == rows[i];
    }
  }

  lemma {:induction false} OthersStay(rows: seq<Row>, id: int, kept: Row -> bool) returns (at: seq<nat>)
    requires forall row :: kept(row) <==> row.id != id
    ensures LeavesExactly(at, rows, WithoutId(rows, id), kept)
  {
    if rows == [] {
      at := [];
    } else {
      var n := |rows| - 1;
      var init := OthersStay(rows[..n], id, kept);
      at := LeavesOneMore(rows[..n], rows[n], init, WithoutId(rows[..n], id), kept);
      assert rows[..n] + [rows[n]] == rows;
    }
  }

  /**
   * An input that coalesces with the latest row of its entity renews that row, which keeps its id and its place;
   * any other is inserted with all that it says, and takes the place of a row with its id, and of no other.
   */
  lemma {:induction false} InputIsRecorded(rows: seq<Row>, input: Input) returns (at: seq<nat>)
    ensures var after, latest := RecordInput(rows, input), LatestIndex(rows, input.entity);
            if input.coalesceUnchanged && latest.Some? && StableKey(rows[latest.value].payload) == StableKey(input.payload) then
              && |after| == |rows| && (forall i :: 0 <= i < |rows| && i != latest.value ==> after[i] == rows[i])
              && after[latest.value] ==
                 Row(rows[latest.value].id, input.entity, input.payload, input.observedAt, input.expiresAt)
            else
              && after != []
              && after[|after| - 1] == Row(input.id, input.entity, input.payload, input.observedAt, input.expiresAt)
              && LeavesExactly(at, rows, after[..|after| - 1], (row: Row) => row.id != input.id)
  {
    at := OthersStay(rows, input.id, (row: Row) => row.id != input.id);
    assert (WithoutId(rows, input.id) + [RowOf(input)])[..|WithoutId(rows, input.id)|] == WithoutId(rows, input.id);
  }

  /** The row has not expired by then; without expiry, it is not from before the legacy limit. */
  predicate Survives(row: Row, expiresBefore: int, legacyBefore: Option<int>) {
    match row.expiresAt
    case Some(expiry) => expiresBefore < expiry
    case None => legacyBefore.None? || legacyBefore.value <= row.observedAt
  }

  lemma {:induction false} PruneLeaves(rows: seq<Row>, expiresBefore: int, legacyBefore: Option<int>, kept: Row -> bool)
    returns (at: seq<nat>)
    requires forall row :: kept(row) <==> !IsPruned(row, expiresBefore, legacyBefore)
    ensures LeavesExactly(at, rows, Prune(rows, expiresBefore, legacyBefore), kept)
  {
    if rows == [] {
      at := [];
    } else {
      var init, last := rows[..|rows| - 1], rows[|rows| - 1];
      at := PruneLeaves(init, expiresBefore, legacyBefore, kept);
      var left := Prune(init, expiresBefore, legacyBefore);
      assert Prune(rows, expiresBefore, legacyBefore) == if kept(last) then left + [last] else left;
      at := LeavesOneMore(init, last, at, left, kept);
      assert init + [last] == rows;
    }
  }

  /** Pruning forgets exactly the rows that do not survive. */
  lemma {:induction false} PruningForgetsExactly(rows: seq<Row>, expiresBefore: int, legacyBefore: Option<int>)
    returns (at: seq<nat>)
    ensures LeavesExactly(at, rows, Prune(rows, expiresBefore, legacyBefore),
                          (row: Row) => Survives(row, expiresBefore, legacyBefore))
  {
    var kept := (row: Row) => Survives(row, expiresBefore, legacyBefore);
    assert forall row :: kept(row) <==> !IsPruned(row, expiresBefore, legacyBefore);
    at := PruneLeaves(rows, expiresBefore, legacyBefore, kept);
  }
}
