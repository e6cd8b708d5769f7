/**
 The planning of sheet writes as it runs, and a sheet that takes the writes exactly as planned.
 */
module SheetPlanner {
  import opened Wrappers
  import opened SheetProjection
  import opened SheetPlan
  import opened SheetReadback

  /** The row indexes by id, for rows with distinct ids. */
  ghost predicate IndexesById(indexes: map<string, nat>, before: seq<Record>)
    requires forall i :: 0 <= i < |before| ==> |before[i].cells| > 0
  {
    forall i :: 0 <= i < |before| && before[i].cells[ID] != "" ==>
      before[i].cells[ID] in indexes && indexes[before[i].cells[ID]] == before[i].index
  }

  /** The index of every id, or the discovery that two rows share one. */
  method IndexIds(sheet: Sheet, before: seq<Record>) returns (r: Result<map<string, nat>, Refusal>)
    requires RecordsFit(sheet, before)
    ensures r.Success? ==> DistinctIds(RowsOf(sheet, before)) && IndexesById(r.value, before)
    ensures r.Failure? ==> !DistinctIds(RowsOf(sheet, before)) && r.error == DuplicateIds
  {
    var indexes: map<string, nat> := map[];
    ghost var rows := RowsOf(sheet, before);
    for k: nat := 0 to |before|
      invariant forall id :: id in indexes ==> id != "" && exists i :: 0 <= i < k && rows[i][ID] == id
      invariant DistinctIds(rows[..k]) && IndexesById(indexes, before[..k])
    {
      var id := before[k].cells[ID];
      if id != "" && id in indexes {
        ghost var i :| 0 <= i < k && rows[i][ID] == id;
        assert rows[k][ID] == id;
        return Failure(DuplicateIds);
      }
      if id != "" {
        indexes := indexes[id := before[k].index];
      }
      assert rows[k][ID] == id;
    }
    assert rows[..|before|] == rows && before[..|before|] == before;
    r := Success(indexes);
  }

  method CollectStale(sheet: Sheet, before: seq<Record>, signals: seq<Signal>) returns (stale: seq<nat>)
    requires RecordsFit(sheet, before)
    ensures stale == StaleIndexes(sheet, before, signals)
  {
    var batchIds := set s | s in signals :: s.id;
    stale := [];
    for k: nat := 0 to |before|
      invariant stale == StaleIndexes(sheet, before[..k], signals)
    {
      assert before[..k + 1][..k] == before[..k];
      var r := before[k];
      if sheet.owner(r.cells[METADATA]).Owned? && r.cells[ID] !in batchIds {
        stale := stale + [r.index];
      }
    }
    assert before[..|before|] == before;
  }

  /** The first record at the index. */
  function RecordAt(before: seq<Record>, index: nat): (r: Record)
    requires exists i :: 0 <= i < |before| && before[i].index == index
    ensures r in before && r.index == index
  {
    if before[0].index == index then before[0] else RecordAt(before[1..], index)
  }

  lemma KeptNext(sheet: Sheet, before: seq<Record>, projected: seq<Row>, signals: seq<Signal>, k: nat)
    requires RecordsFit(sheet, before) && |projected| == |before| && RowsFit(sheet, projected) && k < |before|
    ensures KeptUpdates(sheet, before[..k + 1], projected[..k + 1], signals)
         == KeptUpdates(sheet, before[..k], projected[..k], signals)
            + (if projected[k][ID] != "" && !Stale(sheet, before[k], signals)
                  && !RowsEqual(sheet, before[k].cells, projected[k])
               then [Update(before[k].index, projected[k])] else [])
  {
    assert before[..k + 1][..k] == before[..k] && projected[..k + 1][..k] == projected[..k];
  }

  method PlanKept(sheet: Sheet, before: seq<Record>, projected: seq<Row>, signals: seq<Signal>,
                  indexes: map<string, nat>, stale: seq<nat>) returns (updates: seq<Update>)
    requires RecordsFit(sheet, before) && DistinctIndexes(before) && IndexesById(indexes, before)
    requires |projected| == |before| && RowsFit(sheet, projected)
    requires forall i :: 0 <= i < |before| ==> projected[i][ID] == before[i].cells[ID]
    requires stale == StaleIndexes(sheet, before, signals)
    ensures updates == KeptUpdates(sheet, before, projected, signals)
  {
    StaleIndexesFacts(sheet, before, signals);
    updates := [];
    for k: nat := 0 to |before|
      invariant updates == KeptUpdates(sheet, before[..k], projected[..k], signals)
    {
      KeptNext(sheet, before, projected, signals, k);
      var row := projected[k];
      if row[ID] == "" {
        continue;
      }
      var index := indexes[row[ID]];
      if index in stale {
        continue;
      }
      var current := RecordAt(before, index);
      assert current == before[k];
      if !RowsEqual(sheet, current.cells, row) {
        updates := updates + [Update(index, row)];
      }
    }
    assert before[..|before|] == before && projected[..|before|] == projected;
  }

  /** New rows take the stale indexes one by one, then the indexes below the sheet. */
  method PlanAdded(stale: seq<nat>, next: nat, added: seq<Row>) returns (updates: seq<Update>, reusable: seq<nat>)
    ensures updates == AddedUpdates(stale, next, added)
    ensures reusable == Leftover(stale, |added|)
  {
    updates, reusable := [], stale;
    var nextIndex := next;
    for k: nat := 0 to |added|
      invariant reusable == Leftover(stale, k)
      invariant nextIndex == if k < |stale| then next else next + (k - |stale|)
      invariant updates == AddedUpdates(stale, next, added[..k])
    {
      if reusable != [] {
        updates := updates + [Update(reusable[0], added[k])];
        reusable := reusable[1..];
      } else {
        updates := updates + [Update(nextIndex, added[k])];
        nextIndex := nextIndex + 1;
      }
    }
    assert added[..|added|] == added;
  }

  method PlanClears(sheet: Sheet, indexes: seq<nat>) returns (updates: seq<Update>)
    ensures updates == ClearUpdates(sheet, indexes)
  {
    updates := [];
    for k: nat := 0 to |indexes|
      invariant updates == ClearUpdates(sheet, indexes[..k])
    {
      updates := updates + [Update(indexes[k], Blank(sheet))];
    }
    assert indexes[..|indexes|] == indexes;
  }

  /** The planning half of `project_with_table`. */
  method PlanProjection(sheet: Sheet, before: seq<Record>, signals: seq<Signal>, date: string)
    returns (r: Result<seq<Update>, Refusal>)
    requires RecordsFit(sheet, before) && DistinctIndexes(before)
    requires SignalsFit(sheet, signals) && ContentBound(signals)
    ensures r == Plan(sheet, before, signals, date)
  {
    var indexed := IndexIds(sheet, before);
    if indexed.Failure? {
      return Failure(indexed.error);
    }
    var rows := RowsOf(sheet, before);
    var projection := ProjectSignals(sheet, rows, signals, date);
    assert PadAll(sheet, rows) == rows;
    if projection.Failure? {
      return Failure(projection.error);
    }
    var projected := projection.value;
    PlannedFacts(sheet, before, projected, signals, date);
    var stale := CollectStale(sheet, before, signals);
    var kept := PlanKept(sheet, before, projected[..|before|], signals, indexed.value, stale);
    var added, reusable := PlanAdded(stale, NextIndex(before), projected[|before|..]);
    var cleared := PlanClears(sheet, reusable);
    r := Success(kept + added + cleared);
  }

  // ---------------------------------------------------------------- the readback

  /** The test after a write: the records by id, then the cleared indexes. */
  method CheckReadback(sheet: Sheet, updates: seq<Update>, after: seq<Record>) returns (confirmed: bool)
    requires RecordsFit(sheet, after)
    ensures confirmed <==> Readback(sheet, updates, after)
  {
    var rows := RowsOf(sheet, after);
    var byId := IndexRows(rows);
    for k: nat := 0 to |updates|
      invariant Readback(sheet, updates[..k], after)
    {
      var u := updates[k];
      assert u in updates && updates[..k + 1] == updates[..k] + [u];
      if NamesRow(u) {
        if u.row[ID] !in byId || !RowsEqual(sheet, after[byId[u.row[ID]]].cells, u.row) {
          return false;
        }
      } else if exists r :: r in after && r.index == u.index {
        return false;
      }
    }
    assert updates[..|updates|] == updates;
    return true;
  }

  // ---------------------------------------------------------------- a sheet that stores cells exactly

  function Unwritten(before: seq<Record>, updates: seq<Update>): (kept: seq<Record>)
    ensures forall r :: r in kept <==> r in before && !Targeted(updates, r.index)
    ensures |kept| <= |before|
  {
    if before == [] then []
    else
      var n := |before| - 1;
      assert before == before[..n] + [before[n]];
      Unwritten(before[..n], updates) + (if Targeted(updates, before[n].index) then [] else [before[n]])
  }

  function WrittenRecords(updates: seq<Update>): (written: seq<Record>)
    requires forall u :: u in updates ==> |u.row| > 0
    ensures forall r :: r in written <==> exists u :: u in updates && u.row[ID] != "" && r == Record(u.index, u.row)
  {
    if updates == [] then []
    else
      var n := |updates| - 1;
      assert updates == updates[..n] + [updates[n]];
      WrittenRecords(updates[..n])
      + (if updates[n].row[ID] != "" then [Record(updates[n].index, updates[n].row)] else [])
  }

  lemma {:induction false} UnwrittenAreDistinct(before: seq<Record>, updates: seq<Update>)
    requires DistinctIndexes(before)
    ensures DistinctIndexes(Unwritten(before, updates))
  {
    if before != [] {
      var n := |before| - 1;
      UnwrittenAreDistinct(before[..n], updates);
      var init := Unwritten(before[..n], updates);
      assert forall k :: 0 <= k < |init| ==> init[k] in init;
    }
  }

  lemma {:induction false} WrittenAreDistinct(updates: seq<Update>)
    requires forall u :: u in updates ==> |u.row| > 0
    requires DistinctTargets(updates)
    ensures DistinctIndexes(WrittenRecords(updates))
  {
    if updates != [] {
      var n := |updates| - 1;
      WrittenAreDistinct(updates[..n]);
      var init := WrittenRecords(updates[..n]);
      forall k | 0 <= k < |init| ensures init[k].index != updates[n].index {
        assert init[k] in init;
        var u :| u in updates[..n] && u.row[ID] != "" && init[k] == Record(u.index, u.row);
      }
    }
  }

  /** Writing the planned cells exactly puts every row in its place. */
  lemma ExactWriteIsInPlace(sheet: Sheet, before: seq<Record>, updates: seq<Update>)
    requires RecordsFit(sheet, before) && DistinctIndexes(before) && DistinctTargets(updates)
    requires forall u :: u in updates ==> |u.row| == sheet.Width() && |u.row| > 0
    ensures Reflects(sheet, before, updates, Unwritten(before, updates) + WrittenRecords(updates))
  {
    var kept, written := Unwritten(before, updates), WrittenRecords(updates);
    var after := kept + written;
    UnwrittenAreDistinct(before, updates);
    WrittenAreDistinct(updates);
    assert forall r :: r in after <==> r in kept || r in written;
    forall i | 0 <= i < |after| ensures |after[i].cells| == sheet.Width() {
      assert after[i] in after;
    }
    forall i, j | 0 <= i < |kept| && 0 <= j < |written| ensures kept[i].index != written[j].index {
      assert kept[i] in kept && written[j] in written;
    }
    forall u | u in updates && NamesRow(u) ensures exists r :: r in after && Shows(sheet, r, u) {
      var r := Record(u.index, u.row);
      assert r in written && Shows(sheet, r, u);
    }
    forall r | r in written ensures exists u :: u in updates && NamesRow(u) && Shows(sheet, r, u) {
      var u :| u in updates && u.row[ID] != "" && r == Record(u.index, u.row);
      assert Shows(sheet, r, u);
    }
  }

  /** So every plan that is not refused has a confirmed write. */
  lemma EveryPlanCanBeWritten(sheet: Sheet, before: seq<Record>, signals: seq<Signal>, date: string)
    returns (after: seq<Record>)
    requires Faithful(sheet) && RecordsFit(sheet, before) && DistinctIndexes(before)
    requires SignalsFit(sheet, signals) && ContentBound(signals)
    requires Plan(sheet, before, signals, date).Success?
    ensures Confirmed(sheet, before, Plan(sheet, before, signals, date).value, after)
  {
    var projected := Project(sheet, RowsOf(sheet, before), signals, date).value;
    assert Planned(sheet, before, projected, signals, date);
    PlannedFacts(sheet, before, projected, signals, date);
    var updates := Updates(sheet, before, projected, signals);
    PlannedIndexesAreDistinct(sheet, before, projected, signals);
    PlanHasPlannedIds(sheet, before, projected, signals, date);
    forall u | u in updates ensures |u.row| == sheet.Width() && |u.row| > 0 {
      PlannedRowFits(sheet, before, projected, signals, date, u);
    }
    after := Unwritten(before, updates) + WrittenRecords(updates);
    ExactWriteIsInPlace(sheet, before, updates);
    InPlaceIsConfirmed(sheet, before, updates, after);
  }

  lemma PlannedRowFits(sheet: Sheet, before: seq<Record>, projected: seq<Row>, signals: seq<Signal>, date: string,
                       u: Update)
    requires Planned(sheet, before, projected, signals, date)
    requires RowsFit(sheet, projected) && |projected| >= |before| && u in Updates(sheet, before, projected, signals)
    ensures |u.row| == sheet.Width()
  {
    UpdateKinds(sheet, before, projected, signals, u);
    forall i | 0 <= i < |projected| ensures |projected[i]| == sheet.Width() {
      ProjectedRowFits(sheet, before, projected, signals, date, i);
    }
  }
}
