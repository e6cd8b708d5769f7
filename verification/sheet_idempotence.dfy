/**
 Planning the same batch again plans nothing on a sheet whose rows are the planned ones, wherever they
 stand, and otherwise the rows of before.
 */
module SheetIdempotence {
  import opened Wrappers
  import opened SheetProjection
  import opened SheetPlan

  /** Every planned row is on the sheet, up to the sheet's coercions, and the rest is as it was. */
  predicate Arranged(sheet: Sheet, before: seq<Record>, updates: seq<Update>, after: seq<Record>) {
    && RecordsFit(sheet, after) && DistinctIds(RowsOf(sheet, after))
    && (forall u :: u in updates && NamesRow(u) ==> exists r :: r in after && RowsEqual(sheet, r.cells, u.row))
    && (forall r :: r in before && !Targeted(updates, r.index) ==> r in after)
    && (forall r :: r in after ==>
          (r in before && !Targeted(updates, r.index))
          || exists u :: u in updates && NamesRow(u) && RowsEqual(sheet, r.cells, u.row))
  }

  /** The record is the sheet's copy of the i-th projected row. */
  predicate ShownAs(sheet: Sheet, before: seq<Record>, projected: seq<Row>, signals: seq<Signal>, r: Record, i: nat)
    requires RecordsFit(sheet, before)
  {
    && i < |projected| && |projected[i]| == sheet.Width() && RowsEqual(sheet, r.cells, projected[i])
    && projected[i][ID] != "" && (i < |before| ==> !Stale(sheet, before[i], signals))
  }

  /** A row without an id that nobody owns: the projection never looks at it. */
  predicate Bystander(sheet: Sheet, r: Record)
    requires |r.cells| == sheet.Width()
  {
    r.cells[ID] == "" && sheet.owner(r.cells[METADATA]) == NotOwned
  }

  lemma AddedPositionIsTargeted(sheet: Sheet, before: seq<Record>, projected: seq<Row>, signals: seq<Signal>,
                                index: nat)
    requires RecordsFit(sheet, before) && DistinctIndexes(before)
    requires RowsFit(sheet, projected) && |projected| >= |before|
    requires index in StaleIndexes(sheet, before, signals)
    ensures Targeted(Updates(sheet, before, projected, signals), index)
  {
    var stale := StaleIndexes(sheet, before, signals);
    var k :| 0 <= k < |stale| && stale[k] == index;
    var u := Update(stale[k], if k < |projected| - |before| then projected[|before| + k] else Blank(sheet));
    if k < |projected| - |before| {
      assert u == Update(Slot(stale, NextIndex(before), (|before| + k) - |before|), projected[|before| + k]);
    }
    UpdateKinds(sheet, before, projected, signals, u);
    assert u.index == index;
  }

  lemma ChangedRowIsTargeted(sheet: Sheet, before: seq<Record>, projected: seq<Row>, signals: seq<Signal>, i: nat)
    requires RecordsFit(sheet, before) && DistinctIndexes(before) && i < |before|
    requires RowsFit(sheet, projected) && |projected| >= |before|
    ensures projected[i][ID] != "" && !Stale(sheet, before[i], signals) &&
              !RowsEqual(sheet, before[i].cells, projected[i]) ==>
              Targeted(Updates(sheet, before, projected, signals), before[i].index)
  {
    var u := Update(before[i].index, projected[i]);
    UpdateKinds(sheet, before, projected, signals, u);
    if RewritesKept(sheet, before, projected, signals, u, i) {
      assert u.index == before[i].index;
    }
  }

  /** A row that was not written is no stale row, and shows its projected row if it has an id. */
  lemma UntargetedRecord(sheet: Sheet, before: seq<Record>, projected: seq<Row>, signals: seq<Signal>, date: string,
                         i: nat)
    requires Planned(sheet, before, projected, signals, date) && i < |before|
    requires RowsFit(sheet, projected) && |projected| >= |before|
    requires !Targeted(Updates(sheet, before, projected, signals), before[i].index)
    ensures Bystander(sheet, before[i]) || ShownAs(sheet, before, projected, signals, before[i], i)
  {
    PlannedFacts(sheet, before, projected, signals, date);
    StaleIndexesFacts(sheet, before, signals);
    ProjectedRowFits(sheet, before, projected, signals, date, i);
    if Stale(sheet, before[i], signals) {
      AddedPositionIsTargeted(sheet, before, projected, signals, before[i].index);
    }
    ChangedRowIsTargeted(sheet, before, projected, signals, i);
  }

  lemma WrittenRecord(sheet: Sheet, before: seq<Record>, projected: seq<Row>, signals: seq<Signal>, date: string,
                      u: Update, r: Record)
    requires Planned(sheet, before, projected, signals, date)
    requires RowsFit(sheet, projected) && |projected| >= |before| && u in Updates(sheet, before, projected, signals)
    requires NamesRow(u) && RowsEqual(sheet, r.cells, u.row)
    ensures exists i: nat :: ShownAs(sheet, before, projected, signals, r, i)
  {
    var i := PlaceOf(sheet, before, projected, signals, u);
    ProjectedRowFits(sheet, before, projected, signals, date, i);
    assert ShownAs(sheet, before, projected, signals, r, i);
  }

  /** The place of a planned row in the projection, and the index it is written at. */
  lemma PlaceOf(sheet: Sheet, before: seq<Record>, projected: seq<Row>, signals: seq<Signal>, u: Update)
    returns (i: nat)
    requires RecordsFit(sheet, before) && DistinctIndexes(before)
    requires RowsFit(sheet, projected) && |projected| >= |before|
    requires u in Updates(sheet, before, projected, signals) && NamesRow(u)
    ensures i < |projected| && u.row == projected[i] && (i < |before| ==> !Stale(sheet, before[i], signals))
    ensures u.index == if i < |before| then before[i].index
                       else Slot(StaleIndexes(sheet, before, signals), NextIndex(before), i - |before|)
  {
    UpdateKinds(sheet, before, projected, signals, u);
    if k :| 0 <= k < |before| && RewritesKept(sheet, before, projected, signals, u, k) {
      i := k;
    } else {
      i :| |before| <= i < |projected|
           && u == Update(Slot(StaleIndexes(sheet, before, signals), NextIndex(before), i - |before|), projected[i]);
    }
  }

  predicate Written(sheet: Sheet, before: seq<Record>, projected: seq<Row>, signals: seq<Signal>, date: string,
                    after: seq<Record>) {
    && Planned(sheet, before, projected, signals, date)
    && RowsFit(sheet, projected) && |projected| >= |before|
    && Arranged(sheet, before, Updates(sheet, before, projected, signals), after)
  }

  lemma AfterRecord(sheet: Sheet, before: seq<Record>, projected: seq<Row>, signals: seq<Signal>, date: string,
                    after: seq<Record>, r: Record)
    requires Written(sheet, before, projected, signals, date, after) && r in after
    ensures |r.cells| == sheet.Width()
    ensures Bystander(sheet, r) || exists i: nat :: ShownAs(sheet, before, projected, signals, r, i)
  {
    var updates := Updates(sheet, before, projected, signals);
    if r in before && !Targeted(updates, r.index) {
      var i :| 0 <= i < |before| && before[i] == r;
      UntargetedRecord(sheet, before, projected, signals, date, i);
    } else {
      var u :| u in updates && NamesRow(u) && RowsEqual(sheet, r.cells, u.row);
      WrittenRecord(sheet, before, projected, signals, date, u, r);
    }
  }

  lemma WrittenRowIsShown(sheet: Sheet, before: seq<Record>, updates: seq<Update>, after: seq<Record>, u: Update)
    returns (r: Record)
    requires Faithful(sheet) && Arranged(sheet, before, updates, after)
    requires u in updates && NamesRow(u) && |u.row| == sheet.Width()
    ensures r in after && |r.cells| == sheet.Width() && r.cells[ID] == u.row[ID]
    ensures RowsEqual(sheet, r.cells, u.row)
  {
    r :| r in after && RowsEqual(sheet, r.cells, u.row);
    EqualRowsShareIdentity(sheet, u.row, r.cells);
  }

  lemma AddedRowIsPlanned(sheet: Sheet, before: seq<Record>, projected: seq<Row>, signals: seq<Signal>, i: nat)
    returns (u: Update)
    requires RecordsFit(sheet, before) && DistinctIndexes(before)
    requires RowsFit(sheet, projected) && |before| <= i < |projected|
    ensures u in Updates(sheet, before, projected, signals) && u.row == projected[i]
  {
    u := Update(Slot(StaleIndexes(sheet, before, signals), NextIndex(before), i - |before|), projected[i]);
    UpdateKinds(sheet, before, projected, signals, u);
  }

  /** The row of a signal of today, on the sheet and in the projection. */
  lemma ShownRow(sheet: Sheet, before: seq<Record>, projected: seq<Row>, signals: seq<Signal>, date: string,
                 after: seq<Record>, s: Signal) returns (r: Record, i: nat)
    requires Faithful(sheet) && Written(sheet, before, projected, signals, date, after)
    requires s in signals && s.date == date
    ensures r in after && |r.cells| == sheet.Width() && r.cells[ID] == s.id
    ensures i < |projected| && projected[i][ID] == s.id && RowsEqual(sheet, r.cells, projected[i])
  {
    PlannedFacts(sheet, before, projected, signals, date);
    var updates := Updates(sheet, before, projected, signals);
    i :| 0 <= i < |projected| && projected[i][ID] == s.id;
    ProjectedRowFits(sheet, before, projected, signals, date, i);
    if i >= |before| {
      var u := AddedRowIsPlanned(sheet, before, projected, signals, i);
      r := WrittenRowIsShown(sheet, before, updates, after, u);
    } else if Targeted(updates, before[i].index) {
      TargetedKeptRow(sheet, before, projected, signals, date, s, i);
      r := WrittenRowIsShown(sheet, before, updates, after, Update(before[i].index, projected[i]));
    } else {
      r := before[i];
      ChangedRowIsTargeted(sheet, before, projected, signals, i);
      assert r in before && r in after;
    }
  }

  /** Every signal of today has a row on the sheet. */
  lemma EverySignalIsShown(sheet: Sheet, before: seq<Record>, projected: seq<Row>, signals: seq<Signal>, date: string,
                           after: seq<Record>, s: Signal)
    requires Faithful(sheet) && Written(sheet, before, projected, signals, date, after)
    requires s in signals && s.date == date
    ensures exists r :: r in after && |r.cells| == sheet.Width() && r.cells[ID] == s.id
  {
    var r, i := ShownRow(sheet, before, projected, signals, date, after, s);
  }

  lemma NonStaleTarget(sheet: Sheet, before: seq<Record>, projected: seq<Row>, signals: seq<Signal>, u: Update, i: nat)
    requires RecordsFit(sheet, before) && DistinctIndexes(before)
    requires RowsFit(sheet, projected) && |projected| >= |before| && i < |before|
    requires u in Updates(sheet, before, projected, signals) && u.index == before[i].index
    requires !Stale(sheet, before[i], signals)
    ensures u == Update(before[i].index, projected[i])
  {
    var stale := StaleIndexes(sheet, before, signals);
    StaleIndexesFacts(sheet, before, signals);
    UpdateKinds(sheet, before, projected, signals, u);
    assert before[i].index !in stale && before[i].index < NextIndex(before);
    assert forall k :: 0 <= k < |stale| ==> stale[k] in stale;
    if k :| 0 <= k < |before| && RewritesKept(sheet, before, projected, signals, u, k) {
      assert k == i;
    }
  }

  /** A row that a signal of today bears is written only to renew it. */
  lemma TargetedKeptRow(sheet: Sheet, before: seq<Record>, projected: seq<Row>, signals: seq<Signal>, date: string,
                        s: Signal, i: nat)
    requires Planned(sheet, before, projected, signals, date)
    requires RowsFit(sheet, projected) && |projected| >= |before| && i < |before|
    requires s in signals && projected[i][ID] == s.id
    requires Targeted(Updates(sheet, before, projected, signals), before[i].index)
    ensures Update(before[i].index, projected[i]) in Updates(sheet, before, projected, signals)
  {
    PlannedFacts(sheet, before, projected, signals, date);
    assert !Stale(sheet, before[i], signals);
    var u :| u in Updates(sheet, before, projected, signals) && u.index == before[i].index;
    NonStaleTarget(sheet, before, projected, signals, u, i);
  }

  // ---------------------------------------------------------------- the second plan

  lemma BystanderIsSettled(sheet: Sheet, signals: seq<Signal>, date: string, r: Record)
    requires SignalsFit(sheet, signals) && |r.cells| == sheet.Width() && Bystander(sheet, r)
    requires forall s :: s in signals ==> s.id != ""
    ensures Settled(sheet, signals, date, r.cells) && !Stale(sheet, r, signals)
  {
  }

  lemma ShownIsSettled(sheet: Sheet, before: seq<Record>, projected: seq<Row>, signals: seq<Signal>, date: string,
                       r: Record, i: nat)
    requires Faithful(sheet) && Planned(sheet, before, projected, signals, date)
    requires |r.cells| == sheet.Width() && ShownAs(sheet, before, projected, signals, r, i)
    ensures Settled(sheet, signals, date, r.cells) && !Stale(sheet, r, signals)
  {
    ProjectedIsSettled(sheet, before, projected, signals, date, i);
    SettledStaysSettled(sheet, signals, date, projected[i], r.cells);
    EqualRowsShareIdentity(sheet, projected[i], r.cells);
    ProjectedIsNotStale(sheet, before, projected, signals, date, i);
  }

  lemma AfterIsSettled(sheet: Sheet, before: seq<Record>, projected: seq<Row>, signals: seq<Signal>, date: string,
                       after: seq<Record>, r: Record)
    requires Faithful(sheet) && Written(sheet, before, projected, signals, date, after) && r in after
    requires |r.cells| == sheet.Width()
    ensures Settled(sheet, signals, date, r.cells) && !Stale(sheet, r, signals)
  {
    PlannedFacts(sheet, before, projected, signals, date);
    AfterRecord(sheet, before, projected, signals, date, after, r);
    if Bystander(sheet, r) {
      BystanderIsSettled(sheet, signals, date, r);
    } else {
      var i: nat :| ShownAs(sheet, before, projected, signals, r, i);
      ShownIsSettled(sheet, before, projected, signals, date, r, i);
    }
  }

  lemma ProjectedIsNotStale(sheet: Sheet, before: seq<Record>, projected: seq<Row>, signals: seq<Signal>, date: string,
                            i: nat)
    requires Planned(sheet, before, projected, signals, date) && i < |projected| && |projected[i]| == sheet.Width()
    requires i < |before| ==> !Stale(sheet, before[i], signals)
    ensures sheet.owner(projected[i][METADATA]).Owned? ==> exists s :: s in signals && s.id == projected[i][ID]
  {
    PlannedFacts(sheet, before, projected, signals, date);
    if i < |before| {
      assert KeptRow(sheet, signals, date, RowsOf(sheet, before)[i], projected[i]);
    } else {
      assert AddedRow(sheet, RowsOf(sheet, before), signals, date, projected[i]);
    }
  }

  /** A sheet where every signal has its settled row is projected onto itself, row for row. */
  lemma SettledSheetKeepsRows(sheet: Sheet, after: seq<Record>, signals: seq<Signal>, date: string)
    requires RecordsFit(sheet, after) && DistinctIds(RowsOf(sheet, after))
    requires SignalsFit(sheet, signals) && ContentBound(signals)
    requires forall s :: s in signals ==> TargetOf(sheet, s).Success?
    requires forall s, t :: s in signals && t in signals && s.date == t.date == date && s.id == t.id ==>
               s.hash == t.hash
    requires forall s :: s in signals && s.date == date ==>
               exists r :: r in after && |r.cells| > 0 && r.cells[ID] == s.id
    requires forall i :: 0 <= i < |after| ==> Settled(sheet, signals, date, after[i].cells)
    ensures Project(sheet, RowsOf(sheet, after), signals, date).Success?
    ensures var again := Project(sheet, RowsOf(sheet, after), signals, date).value;
            |again| == |after| && forall i :: 0 <= i < |after| ==> RowsEqual(sheet, after[i].cells, again[i])
  {
    var rows := RowsOf(sheet, after);
    assert Consistent(sheet, rows, signals, date);
    RefusedExactly(sheet, rows, signals, date);
    ProjectIsProjection(sheet, rows, signals, date);
    var again := Project(sheet, rows, signals, date).value;
    if |again| > |after| {
      NothingIsAdded(sheet, after, signals, date, again[|after|]);
    }
    forall i | 0 <= i < |after| ensures RowsEqual(sheet, after[i].cells, again[i]) {
      assert KeptRow(sheet, signals, date, rows[i], again[i]);
    }
  }

  lemma NothingIsAdded(sheet: Sheet, after: seq<Record>, signals: seq<Signal>, date: string, now: Row)
    requires RecordsFit(sheet, after) && SignalsFit(sheet, signals)
    requires forall s :: s in signals && s.date == date ==>
               exists r :: r in after && |r.cells| > 0 && r.cells[ID] == s.id
    ensures !AddedRow(sheet, RowsOf(sheet, after), signals, date, now)
  {
    var rows := RowsOf(sheet, after);
    forall s | s in signals && Names(s, now, date) ensures exists i :: 0 <= i < |rows| && rows[i][ID] == s.id {
      var r :| r in after && |r.cells| > 0 && r.cells[ID] == s.id;
      var i :| 0 <= i < |after| && after[i] == r;
      assert rows[i][ID] == s.id;
    }
  }

  lemma {:induction false} NoKeptUpdates(sheet: Sheet, after: seq<Record>, again: seq<Row>, signals: seq<Signal>)
    requires RecordsFit(sheet, after) && |again| == |after| && RowsFit(sheet, again)
    requires forall i :: 0 <= i < |after| ==> RowsEqual(sheet, after[i].cells, again[i])
    ensures KeptUpdates(sheet, after, again, signals) == []
  {
    if after != [] {
      NoKeptUpdates(sheet, after[..|after| - 1], again[..|after| - 1], signals);
    }
  }

  lemma {:induction false} NoStaleRows(sheet: Sheet, after: seq<Record>, signals: seq<Signal>)
    requires RecordsFit(sheet, after)
    requires forall i :: 0 <= i < |after| ==> !Stale(sheet, after[i], signals)
    ensures StaleIndexes(sheet, after, signals) == []
  {
    if after != [] {
      NoStaleRows(sheet, after[..|after| - 1], signals);
    }
  }

  /** Then planning the same batch for the same day plans no write at all. */
  lemma ArrangedPlansNothing(sheet: Sheet, before: seq<Record>, signals: seq<Signal>, date: string, after: seq<Record>)
    requires Faithful(sheet) && RecordsFit(sheet, before) && DistinctIndexes(before)
    requires SignalsFit(sheet, signals) && ContentBound(signals)
    requires Plan(sheet, before, signals, date).Success?
    requires Arranged(sheet, before, Plan(sheet, before, signals, date).value, after)
    ensures Plan(sheet, after, signals, date) == Success([])
  {
    var projected := Project(sheet, RowsOf(sheet, before), signals, date).value;
    assert Planned(sheet, before, projected, signals, date);
    PlannedFacts(sheet, before, projected, signals, date);
    forall i | 0 <= i < |after|
      ensures Settled(sheet, signals, date, after[i].cells) && !Stale(sheet, after[i], signals)
    {
      AfterIsSettled(sheet, before, projected, signals, date, after, after[i]);
    }
    forall s | s in signals && s.date == date ensures exists r :: r in after && |r.cells| > 0 && r.cells[ID] == s.id {
      EverySignalIsShown(sheet, before, projected, signals, date, after, s);
    }
    SettledSheetKeepsRows(sheet, after, signals, date);
    var again := Project(sheet, RowsOf(sheet, after), signals, date).value;
    NoKeptUpdates(sheet, after, again, signals);
    NoStaleRows(sheet, after, signals);
    assert again[..|after|] == again && again[|after|..] == [];
    assert Updates(sheet, after, again, signals) == [];
  }
}
