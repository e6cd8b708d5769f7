/**
 The plan of sheet writes that makes the manual-entry sheet show a projection: which row index gets
 which cells, which stale rows are reused or cleared, and why planning again after a successful write
 plans nothing.
 */
module SheetPlan {
  import opened Wrappers
  import opened SheetProjection

  /** A row as the sheet returns it. Wholly blank rows are not returned. */
  datatype Record = Record(index: nat, cells: Row)

  datatype Update = Update(index: nat, row: Row)

  predicate RecordsFit(sheet: Sheet, before: seq<Record>) {
    forall i :: 0 <= i < |before| ==> |before[i].cells| == sheet.Width()
  }

  predicate DistinctIndexes(before: seq<Record>) {
    forall i, j :: 0 <= i < j < |before| ==> before[i].index != before[j].index
  }

  function RowsOf(sheet: Sheet, before: seq<Record>): (rows: seq<Row>)
    requires RecordsFit(sheet, before)
    ensures |rows| == |before| && RowsFit(sheet, rows)
    ensures forall i :: 0 <= i < |rows| ==> rows[i] == before[i].cells
  {
    seq(|before|, i requires 0 <= i < |before| => before[i].cells)
  }

  /** Equal up to what the sheet does to a cell when it is written. */
  predicate RowsEqual(sheet: Sheet, left: Row, right: Row) {
    |left| == |right| && forall j: nat :: j < |left| ==> sheet.normal(j, left[j]) == sheet.normal(j, right[j])
  }

  /** Ids and exit names are compared as they are, and equal metadata cells declare the same owner. */
  ghost predicate Faithful(sheet: Sheet) {
    && (forall c :: sheet.normal(ID, c) == c)
    && (forall c :: sheet.normal(MANAGEMENT_EXIT, c) == c)
    && (forall c, d :: sheet.normal(METADATA, c) == sheet.normal(METADATA, d) ==> sheet.owner(c) == sheet.owner(d))
  }

  /** Cartographer owns the row, and the batch does not speak of it. */
  predicate Stale(sheet: Sheet, r: Record, signals: seq<Signal>)
    requires |r.cells| == sheet.Width()
  {
    sheet.owner(r.cells[METADATA]).Owned? && !exists s :: s in signals && s.id == r.cells[ID]
  }

  function StaleIndexes(sheet: Sheet, before: seq<Record>, signals: seq<Signal>): seq<nat>
    requires RecordsFit(sheet, before)
  {
    if before == [] then []
    else
      var last := before[|before| - 1];
      StaleIndexes(sheet, before[..|before| - 1], signals) + (if Stale(sheet, last, signals) then [last.index] else [])
  }

  /** The first index below all rows; the header is row 1. */
  function NextIndex(before: seq<Record>): (next: nat)
    ensures before == [] ==> next == 2
    ensures before != [] ==> exists i :: 0 <= i < |before| && before[i].index == next - 1
    ensures forall i :: 0 <= i < |before| ==> before[i].index < next
  {
    if before == [] then 2
    else if |before| == 1 then before[0].index + 1
    else
      var rest := NextIndex(before[..|before| - 1]);
      var last := before[|before| - 1].index + 1;
      assert forall i :: 0 <= i < |before| - 1 ==> before[..|before| - 1][i] == before[i];
      if rest >= last then rest else last
  }

  /** Kept rows are written only where the projection differs from what the sheet shows. */
  function KeptUpdates(sheet: Sheet, before: seq<Record>, projected: seq<Row>, signals: seq<Signal>): seq<Update>
    requires RecordsFit(sheet, before) && |projected| == |before| && RowsFit(sheet, projected)
  {
    if before == [] then []
    else
      var n := |before| - 1;
      KeptUpdates(sheet, before[..n], projected[..n], signals)
      + (if projected[n][ID] != "" && !Stale(sheet, before[n], signals)
            && !RowsEqual(sheet, before[n].cells, projected[n])
         then [Update(before[n].index, projected[n])] else [])
  }

  /** New rows go to the stale rows first, then below the sheet. */
  function Slot(stale: seq<nat>, next: nat, k: nat): nat {
    if k < |stale| then stale[k] else next + (k - |stale|)
  }

  function AddedUpdates(stale: seq<nat>, next: nat, added: seq<Row>): (updates: seq<Update>)
    ensures |updates| == |added|
  {
    seq(|added|, k requires 0 <= k < |added| => Update(Slot(stale, next, k), added[k]))
  }

  function Blank(sheet: Sheet): (row: Row)
    ensures |row| == sheet.Width() && row[ID] == ""
  {
    seq(sheet.Width(), _ => "")
  }

  function ClearUpdates(sheet: Sheet, indexes: seq<nat>): (updates: seq<Update>)
    ensures |updates| == |indexes|
  {
    seq(|indexes|, k requires 0 <= k < |indexes| => Update(indexes[k], Blank(sheet)))
  }

  function Leftover(stale: seq<nat>, added: nat): seq<nat> {
    if added < |stale| then stale[added..] else []
  }

  /** The plan for a projection of the sheet. */
  function Updates(sheet: Sheet, before: seq<Record>, projected: seq<Row>, signals: seq<Signal>): seq<Update>
    requires RecordsFit(sheet, before) && RowsFit(sheet, projected) && |projected| >= |before|
  {
    var stale, added := StaleIndexes(sheet, before, signals), projected[|before|..];
    KeptUpdates(sheet, before, projected[..|before|], signals)
    + AddedUpdates(stale, NextIndex(before), added)
    + ClearUpdates(sheet, Leftover(stale, |added|))
  }

  function Plan(sheet: Sheet, before: seq<Record>, signals: seq<Signal>, date: string): Result<seq<Update>, Refusal>
    requires RecordsFit(sheet, before) && SignalsFit(sheet, signals)
  {
    var rows := RowsOf(sheet, before);
    if !DistinctIds(rows) then Failure(DuplicateIds)
    else
      match Project(sheet, rows, signals, date)
      case Failure(e) => Failure(e)
      case Success(projected) => Success(Updates(sheet, before, projected, signals))
  }

  // ---------------------------------------------------------------- the planned indexes

  /** The stale indexes are those of the stale rows. */
  lemma {:induction false} StaleIndexesMembers(sheet: Sheet, before: seq<Record>, signals: seq<Signal>, x: nat)
    requires RecordsFit(sheet, before)
    ensures x in StaleIndexes(sheet, before, signals) <==>
            exists i :: 0 <= i < |before| && before[i].index == x && Stale(sheet, before[i], signals)
  {
    if before != [] {
      var n := |before| - 1;
      StaleIndexesMembers(sheet, before[..n], signals, x);
      assert forall i :: 0 <= i < n ==> before[..n][i] == before[i];
      if x in StaleIndexes(sheet, before[..n], signals) {
        var i :| 0 <= i < n && before[..n][i].index == x && Stale(sheet, before[..n][i], signals);
        assert before[i].index == x;
      }
    }
  }

  lemma {:induction false} StaleIndexesDistinct(sheet: Sheet, before: seq<Record>, signals: seq<Signal>)
    requires RecordsFit(sheet, before) && DistinctIndexes(before)
    ensures var stale := StaleIndexes(sheet, before, signals);
            forall i, j :: 0 <= i < j < |stale| ==> stale[i] != stale[j]
  {
    if before != [] {
      var n := |before| - 1;
      var init := StaleIndexes(sheet, before[..n], signals);
      StaleIndexesDistinct(sheet, before[..n], signals);
      StaleIndexesMembers(sheet, before[..n], signals, before[n].index);
      assert before[n].index !in init;
      assert forall k :: 0 <= k < |init| ==> init[k] in init;
    }
  }

  lemma StaleIndexesFacts(sheet: Sheet, before: seq<Record>, signals: seq<Signal>)
    requires RecordsFit(sheet, before) && DistinctIndexes(before)
    ensures var stale := StaleIndexes(sheet, before, signals);
            && (forall i :: 0 <= i < |before| ==> (before[i].index in stale <==> Stale(sheet, before[i], signals)))
            && (forall x :: x in stale ==> exists i :: 0 <= i < |before| && before[i].index == x)
            && (forall i, j :: 0 <= i < j < |stale| ==> stale[i] != stale[j])
  {
    StaleIndexesDistinct(sheet, before, signals);
    forall x ensures x in StaleIndexes(sheet, before, signals) <==>
                     exists i :: 0 <= i < |before| && before[i].index == x && Stale(sheet, before[i], signals)
    {
      StaleIndexesMembers(sheet, before, signals, x);
    }
  }

  predicate DistinctTargets(updates: seq<Update>) {
    forall i, j :: 0 <= i < j < |updates| ==> updates[i].index != updates[j].index
  }

  /** A kept row is written at its own index, because the projection changed it. */
  predicate RewritesKept(sheet: Sheet, before: seq<Record>, projected: seq<Row>, signals: seq<Signal>, u: Update,
                         i: nat)
    requires RecordsFit(sheet, before) && RowsFit(sheet, projected) && i < |before| <= |projected|
  {
    && u == Update(before[i].index, projected[i])
    && projected[i][ID] != "" && !Stale(sheet, before[i], signals) && !RowsEqual(sheet, before[i].cells, projected[i])
  }

  lemma RewritesKeptPrefix(sheet: Sheet, before: seq<Record>, projected: seq<Row>, signals: seq<Signal>, n: nat)
    requires RecordsFit(sheet, before) && |projected| == |before| && RowsFit(sheet, projected) && n <= |before|
    ensures forall u, i: nat :: i < n ==>
              (RewritesKept(sheet, before[..n], projected[..n], signals, u, i) <==>
               RewritesKept(sheet, before, projected, signals, u, i))
  {
  }

  lemma {:induction false} KeptUpdatesFacts(sheet: Sheet, before: seq<Record>, projected: seq<Row>,
                                            signals: seq<Signal>)
    requires RecordsFit(sheet, before) && DistinctIndexes(before)
    requires |projected| == |before| && RowsFit(sheet, projected)
    ensures var kept := KeptUpdates(sheet, before, projected, signals);
            && DistinctTargets(kept)
            && (forall u :: u in kept ==>
               exists i: nat :: i < |before| && RewritesKept(sheet, before, projected, signals, u, i))
            && (forall i: nat, u :: i < |before| && RewritesKept(sheet, before, projected, signals, u, i) ==> u in kept)
  {
    if before != [] {
      var n := |before| - 1;
      var init := KeptUpdates(sheet, before[..n], projected[..n], signals);
      KeptUpdatesFacts(sheet, before[..n], projected[..n], signals);
      RewritesKeptPrefix(sheet, before, projected, signals, n);
      var last := Update(before[n].index, projected[n]);
      assert KeptUpdates(sheet, before, projected, signals)
          == init + (if RewritesKept(sheet, before, projected, signals, last, n) then [last] else []);
      assert forall k :: 0 <= k < |init| ==> init[k] in init;
    }
  }

  /** A row from the n-th on goes to its slot. */
  predicate PlacesNew(stale: seq<nat>, next: nat, projected: seq<Row>, n: nat, u: Update)
    requires n <= |projected|
  {
    exists k :: n <= k < |projected| && u == Update(Slot(stale, next, k - n), projected[k])
  }

  /** A stale row that no new row goes to is blanked. */
  predicate Clears(sheet: Sheet, stale: seq<nat>, added: nat, u: Update) {
    exists k :: added <= k < |stale| && u == Update(stale[k], Blank(sheet))
  }

  /** What an update does: rewrite a kept row, place a new one, or clear a stale one. */
  lemma UpdateKinds(sheet: Sheet, before: seq<Record>, projected: seq<Row>, signals: seq<Signal>, u: Update)
    requires RecordsFit(sheet, before) && DistinctIndexes(before)
    requires RowsFit(sheet, projected) && |projected| >= |before|
    ensures u in Updates(sheet, before, projected, signals) <==>
            || (exists i :: 0 <= i < |before| && RewritesKept(sheet, before, projected, signals, u, i))
            || PlacesNew(StaleIndexes(sheet, before, signals), NextIndex(before), projected, |before|, u)
            || Clears(sheet, StaleIndexes(sheet, before, signals), |projected| - |before|, u)
  {
    UpdateParts(sheet, before, projected, signals, u);
    KeptMembers(sheet, before, projected, signals, u);
    AddedMembers(StaleIndexes(sheet, before, signals), NextIndex(before), projected, |before|, u);
    ClearMembers(sheet, StaleIndexes(sheet, before, signals), |projected| - |before|, u);
  }

  lemma UpdateParts(sheet: Sheet, before: seq<Record>, projected: seq<Row>, signals: seq<Signal>, u: Update)
    requires RecordsFit(sheet, before) && RowsFit(sheet, projected) && |projected| >= |before|
    ensures var n, stale := |before|, StaleIndexes(sheet, before, signals);
            u in Updates(sheet, before, projected, signals) <==>
            || u in KeptUpdates(sheet, before, projected[..n], signals)
            || u in AddedUpdates(stale, NextIndex(before), projected[n..])
            || u in ClearUpdates(sheet, Leftover(stale, |projected| - n))
  {
  }

  lemma KeptMembers(sheet: Sheet, before: seq<Record>, projected: seq<Row>, signals: seq<Signal>, u: Update)
    requires RecordsFit(sheet, before) && DistinctIndexes(before)
    requires RowsFit(sheet, projected) && |projected| >= |before|
    ensures u in KeptUpdates(sheet, before, projected[..|before|], signals) <==>
            exists i :: 0 <= i < |before| && RewritesKept(sheet, before, projected, signals, u, i)
  {
    var head := projected[..|before|];
    KeptUpdatesFacts(sheet, before, head, signals);
    if u in KeptUpdates(sheet, before, head, signals) {
      var i :| 0 <= i < |before| && RewritesKept(sheet, before, head, signals, u, i);
      assert RewritesKept(sheet, before, projected, signals, u, i);
    }
    if exists i :: 0 <= i < |before| && RewritesKept(sheet, before, projected, signals, u, i) {
      var i :| 0 <= i < |before| && RewritesKept(sheet, before, projected, signals, u, i);
      assert RewritesKept(sheet, before, head, signals, u, i);
    }
  }

  lemma AddedMembers(stale: seq<nat>, next: nat, projected: seq<Row>, n: nat, u: Update)
    requires n <= |projected|
    ensures u in AddedUpdates(stale, next, projected[n..]) <==>
            PlacesNew(stale, next, projected, n, u)
  {
    var updates := AddedUpdates(stale, next, projected[n..]);
    if u in updates {
      var i :| 0 <= i < |updates| && updates[i] == u;
      assert u == Update(Slot(stale, next, (n + i) - n), projected[n + i]);
    }
    forall k | n <= k < |projected| && u == Update(Slot(stale, next, k - n), projected[k]) ensures u in updates {
      assert updates[k - n] == u;
    }
  }

  lemma ClearMembers(sheet: Sheet, stale: seq<nat>, added: nat, u: Update)
    ensures u in ClearUpdates(sheet, Leftover(stale, added)) <==> Clears(sheet, stale, added, u)
  {
    var rest := Leftover(stale, added);
    var updates := ClearUpdates(sheet, rest);
    if u in updates {
      var i :| 0 <= i < |updates| && updates[i] == u;
      assert rest[i] == stale[added + i];
    }
    forall k | added <= k < |stale| && u == Update(stale[k], Blank(sheet)) ensures u in updates {
      assert rest[k - added] == stale[k];
      assert updates[k - added] == u;
    }
  }

  lemma DistinctJoin(left: seq<Update>, right: seq<Update>)
    requires DistinctTargets(left) && DistinctTargets(right)
    requires forall u, v :: u in left && v in right ==> u.index != v.index
    ensures DistinctTargets(left + right)
  {
  }

  /** No row index is planned twice. */
  lemma PlannedIndexesAreDistinct(sheet: Sheet, before: seq<Record>, projected: seq<Row>, signals: seq<Signal>)
    requires RecordsFit(sheet, before) && DistinctIndexes(before)
    requires RowsFit(sheet, projected) && |projected| >= |before|
    ensures DistinctTargets(Updates(sheet, before, projected, signals))
  {
    var n := |before|;
    var stale, added, next := StaleIndexes(sheet, before, signals), projected[n..], NextIndex(before);
    var kept := KeptUpdates(sheet, before, projected[..n], signals);
    var placed, cleared := AddedUpdates(stale, next, added), ClearUpdates(sheet, Leftover(stale, |added|));
    StaleIndexesFacts(sheet, before, signals);
    KeptUpdatesFacts(sheet, before, projected[..n], signals);
    SlotsAreDistinct(stale, next, added);
    assert forall x :: x in stale ==> x < next;
    forall u, v | u in placed && v in cleared ensures u.index != v.index {
      AddedMembers(stale, next, added, 0, u);
      ClearMembers(sheet, stale, |added|, v);
      assert added[0..] == added;
    }
    DistinctJoin(placed, cleared);
    forall u, v | u in kept && v in placed + cleared ensures u.index != v.index {
      KeptMembers(sheet, before, projected, signals, u);
      AddedMembers(stale, next, added, 0, v);
      ClearMembers(sheet, stale, |added|, v);
      assert added[0..] == added;
      assert u.index < next && u.index !in stale;
    }
    DistinctJoin(kept, placed + cleared);
    assert kept + (placed + cleared) == kept + placed + cleared;
  }

  lemma SlotsAreDistinct(stale: seq<nat>, next: nat, added: seq<Row>)
    requires forall x :: x in stale ==> x < next
    requires forall i, j :: 0 <= i < j < |stale| ==> stale[i] != stale[j]
    ensures DistinctTargets(AddedUpdates(stale, next, added))
  {
    assert forall i :: 0 <= i < |stale| ==> stale[i] in stale;
  }

  // ---------------------------------------------------------------- what is never written

  /** The facts of a plan that was not refused. */
  predicate Planned(sheet: Sheet, before: seq<Record>, projected: seq<Row>, signals: seq<Signal>, date: string) {
    && RecordsFit(sheet, before) && DistinctIndexes(before)
    && SignalsFit(sheet, signals) && ContentBound(signals)
    && DistinctIds(RowsOf(sheet, before))
    && Project(sheet, RowsOf(sheet, before), signals, date) == Success(projected)
  }

  lemma PlannedFacts(sheet: Sheet, before: seq<Record>, projected: seq<Row>, signals: seq<Signal>, date: string)
    requires Planned(sheet, before, projected, signals, date)
    ensures RowsFit(sheet, projected) && Projects(sheet, RowsOf(sheet, before), signals, date, projected)
    ensures Plan(sheet, before, signals, date) == Success(Updates(sheet, before, projected, signals))
    ensures (forall s :: s in signals ==> TargetOf(sheet, s).Success? && s.id != "") && HashesTell(signals)
    ensures Consistent(sheet, RowsOf(sheet, before), signals, date)
    ensures forall i :: 0 <= i < |before| ==> projected[i][ID] == before[i].cells[ID]
  {
    ProjectIsProjection(sheet, RowsOf(sheet, before), signals, date);
    RefusedExactly(sheet, RowsOf(sheet, before), signals, date);
    ProjectsKeepsIds(sheet, RowsOf(sheet, before), signals, date, projected);
  }

  predicate OwnedAt(sheet: Sheet, before: seq<Record>, index: nat)
    requires RecordsFit(sheet, before)
  {
    exists i :: 0 <= i < |before| && before[i].index == index && sheet.owner(before[i].cells[METADATA]).Owned?
  }

  lemma RewrittenRowsAreOwned(sheet: Sheet, signals: seq<Signal>, date: string, was: Row, now: Row)
    requires |was| == sheet.Width() && SignalsFit(sheet, signals)
    requires KeptRow(sheet, signals, date, was, now) && !RowsEqual(sheet, was, now)
    ensures sheet.owner(was[METADATA]).Owned?
    ensures exists s :: s in signals && Names(s, was, date)
    ensures |now| == sheet.Width() && forall j: nat :: j < |now| && KeptColumn(sheet, j) ==> now[j] == was[j]
  {
  }

  /** An update that does not rewrite a kept row goes to a stale row or below the sheet. */
  lemma WhereUpdatesGo(sheet: Sheet, before: seq<Record>, projected: seq<Row>, signals: seq<Signal>, u: Update)
    requires RecordsFit(sheet, before) && DistinctIndexes(before)
    requires RowsFit(sheet, projected) && |projected| >= |before| && u in Updates(sheet, before, projected, signals)
    ensures (exists i :: 0 <= i < |before| && RewritesKept(sheet, before, projected, signals, u, i))
            || u.index in StaleIndexes(sheet, before, signals) || u.index >= NextIndex(before)
  {
    UpdateKinds(sheet, before, projected, signals, u);
  }

  /** Every write goes to a row that Cartographer owns, or below the whole sheet. */
  lemma ForeignRowsAreNeverWritten(sheet: Sheet, before: seq<Record>, projected: seq<Row>, signals: seq<Signal>,
                                   date: string, u: Update)
    requires Planned(sheet, before, projected, signals, date)
    requires RowsFit(sheet, projected) && |projected| >= |before| && u in Updates(sheet, before, projected, signals)
    ensures OwnedAt(sheet, before, u.index) || forall i :: 0 <= i < |before| ==> before[i].index < u.index
  {
    PlannedFacts(sheet, before, projected, signals, date);
    WhereUpdatesGo(sheet, before, projected, signals, u);
    StaleIndexesFacts(sheet, before, signals);
    if i :| 0 <= i < |before| && RewritesKept(sheet, before, projected, signals, u, i) {
      assert KeptRow(sheet, signals, date, RowsOf(sheet, before)[i], projected[i]);
      RewrittenRowsAreOwned(sheet, signals, date, before[i].cells, projected[i]);
    } else if u.index in StaleIndexes(sheet, before, signals) {
      var i :| 0 <= i < |before| && before[i].index == u.index;
      assert Stale(sheet, before[i], signals);
    }
  }

  /**
   A write to an existing row either replaces a stale row, or renews the row of its own signal of
   today and leaves the cells of the human and the runtime alone.
   */
  lemma KeptCellsAreNeverChanged(sheet: Sheet, before: seq<Record>, projected: seq<Row>, signals: seq<Signal>,
                                 date: string, u: Update, i: nat)
    requires Planned(sheet, before, projected, signals, date)
    requires RowsFit(sheet, projected) && |projected| >= |before| && u in Updates(sheet, before, projected, signals)
    requires i < |before| && before[i].index == u.index
    ensures Stale(sheet, before[i], signals)
            || (|u.row| == sheet.Width() && u.row[ID] == before[i].cells[ID]
                && (exists s :: s in signals && Names(s, before[i].cells, date))
                && forall j: nat :: j < |u.row| && KeptColumn(sheet, j) ==> u.row[j] == before[i].cells[j])
  {
    PlannedFacts(sheet, before, projected, signals, date);
    UpdateKinds(sheet, before, projected, signals, u);
    StaleIndexesFacts(sheet, before, signals);
    if k :| 0 <= k < |before| && RewritesKept(sheet, before, projected, signals, u, k) {
      assert k == i;
      assert KeptRow(sheet, signals, date, RowsOf(sheet, before)[i], projected[i]);
      RewrittenRowsAreOwned(sheet, signals, date, before[i].cells, projected[i]);
    }
  }

  // ---------------------------------------------------------------- after a successful write

  predicate Targeted(updates: seq<Update>, index: nat) {
    exists u :: u in updates && u.index == index
  }

  /** The update writes a row, not the blank cells of a cleared one. */
  predicate NamesRow(u: Update) { |u.row| > 0 && u.row[ID] != "" }

  /**
   The sheet after a write that put every row in its place: every planned row is there up to the sheet's own coercions,
   cleared rows are gone, and every other row is as it was.
   */
  predicate Reflects(sheet: Sheet, before: seq<Record>, updates: seq<Update>, after: seq<Record>) {
    && RecordsFit(sheet, after) && DistinctIndexes(after)
    && (forall u :: u in updates && NamesRow(u) ==> exists r :: r in after && Shows(sheet, r, u))
    && (forall r :: r in before && !Targeted(updates, r.index) ==> r in after)
    && (forall r :: r in after ==>
          (r in before && !Targeted(updates, r.index))
          || exists u :: u in updates && NamesRow(u) && Shows(sheet, r, u))
  }

  predicate Shows(sheet: Sheet, r: Record, u: Update) {
    r.index == u.index && RowsEqual(sheet, r.cells, u.row)
  }

  /** Every signal that names the row today owns it and would leave it as it is. */
  predicate Settled(sheet: Sheet, signals: seq<Signal>, date: string, row: Row)
    requires |row| == sheet.Width() && SignalsFit(sheet, signals)
  {
    forall s :: s in signals && Names(s, row, date) ==>
      sheet.owner(row[METADATA]) == Owned(s.hash) && RowsEqual(sheet, row, Preserved(sheet, TargetRow(sheet, s), row))
  }

  lemma SettledForOne(sheet: Sheet, s: Signal, row: Row, shown: Row)
    requires Faithful(sheet) && WellFormed(sheet, s) && |row| == sheet.Width() && RowsEqual(sheet, row, shown)
    requires RowsEqual(sheet, row, Preserved(sheet, TargetRow(sheet, s), row))
    ensures RowsEqual(sheet, shown, Preserved(sheet, TargetRow(sheet, s), shown))
  {
    var target := TargetRow(sheet, s);
    var kept, again := Preserved(sheet, target, row), Preserved(sheet, target, shown);
    forall j: nat | j < sheet.Width() ensures sheet.normal(j, shown[j]) == sheet.normal(j, again[j]) {
      assert sheet.normal(j, row[j]) == sheet.normal(j, kept[j]);
      assert sheet.normal(j, row[j]) == sheet.normal(j, shown[j]);
      if sheet.named && j == MANAGEMENT_SPEC {
        assert row[MANAGEMENT_EXIT] == shown[MANAGEMENT_EXIT] by {
          var k := MANAGEMENT_EXIT;
          assert sheet.normal(k, row[k]) == sheet.normal(k, shown[k]);
        }
      }
    }
  }

  lemma EqualRowsShareIdentity(sheet: Sheet, row: Row, shown: Row)
    requires Faithful(sheet) && |row| == sheet.Width() && RowsEqual(sheet, row, shown)
    ensures |shown| == |row| && row[ID] == shown[ID] && sheet.owner(row[METADATA]) == sheet.owner(shown[METADATA])
  {
    assert sheet.normal(ID, row[ID]) == sheet.normal(ID, shown[ID]);
    assert sheet.normal(METADATA, row[METADATA]) == sheet.normal(METADATA, shown[METADATA]);
  }

  lemma SettledStaysSettled(sheet: Sheet, signals: seq<Signal>, date: string, row: Row, shown: Row)
    requires Faithful(sheet) && |row| == |shown| == sheet.Width() && SignalsFit(sheet, signals)
    requires Settled(sheet, signals, date, row) && RowsEqual(sheet, row, shown)
    ensures Settled(sheet, signals, date, shown)
  {
    EqualRowsShareIdentity(sheet, row, shown);
    forall s | s in signals && Names(s, shown, date)
      ensures RowsEqual(sheet, shown, Preserved(sheet, TargetRow(sheet, s), shown))
    {
      assert Names(s, row, date);
      SettledForOne(sheet, s, row, shown);
    }
  }

  lemma ProjectedRowFits(sheet: Sheet, before: seq<Record>, projected: seq<Row>, signals: seq<Signal>, date: string,
                         i: nat)
    requires Planned(sheet, before, projected, signals, date) && i < |projected|
    ensures |projected[i]| == sheet.Width()
  {
    PlannedFacts(sheet, before, projected, signals, date);
    var rows := RowsOf(sheet, before);
    if i < |before| {
      assert KeptRow(sheet, signals, date, rows[i], projected[i]);
    } else {
      assert AddedRow(sheet, rows, signals, date, projected[i]);
    }
  }

  lemma KeptIsFixed(sheet: Sheet, signals: seq<Signal>, s: Signal, date: string, was: Row, now: Row)
    requires |was| >= sheet.Width() && |now| >= sheet.Width() && SignalsFit(sheet, signals) && HashesTell(signals)
    requires KeptRow(sheet, signals, date, was, now) && s in signals && Names(s, was, date)
    requires sheet.owner(was[METADATA]) == Owned(s.hash)
    ensures sheet.owner(now[METADATA]) == Owned(s.hash) && now == Preserved(sheet, TargetRow(sheet, s), now)
  {
    var t :| t in signals && Names(t, was, date) && sheet.owner(was[METADATA]) == Owned(t.hash)
             && now == Preserved(sheet, TargetRow(sheet, t), was);
    assert t == s;
    PreservedTwice(sheet, TargetRow(sheet, s), was);
  }

  lemma AddedIsFixed(sheet: Sheet, rows: seq<Row>, signals: seq<Signal>, s: Signal, date: string, now: Row)
    requires RowsFit(sheet, rows) && |now| >= sheet.Width() && SignalsFit(sheet, signals) && HashesTell(signals)
    requires AddedRow(sheet, rows, signals, date, now) && s in signals && Names(s, now, date)
    requires TargetOf(sheet, s).Success? && Consistent(sheet, rows, signals, date)
    ensures sheet.owner(now[METADATA]) == Owned(s.hash) && now == Preserved(sheet, TargetRow(sheet, s), now)
  {
    var t :| t in signals && Names(t, now, date) && now == TargetRow(sheet, t)
             && forall i :: 0 <= i < |rows| ==> rows[i][ID] != t.id;
    assert t.hash == s.hash;
    assert t == s;
    TargetKeepsItself(sheet, s);
  }

  /** The projection is settled: every signal of today has already had its way. */
  lemma ProjectedIsSettled(sheet: Sheet, before: seq<Record>, projected: seq<Row>, signals: seq<Signal>, date: string,
                           i: nat)
    requires Planned(sheet, before, projected, signals, date) && i < |projected| && |projected[i]| == sheet.Width()
    ensures Settled(sheet, signals, date, projected[i])
  {
    PlannedFacts(sheet, before, projected, signals, date);
    var rows := RowsOf(sheet, before);
    forall s | s in signals && Names(s, projected[i], date)
      ensures sheet.owner(projected[i][METADATA]) == Owned(s.hash)
              && Preserved(sheet, TargetRow(sheet, s), projected[i]) == projected[i]
    {
      if i < |before| {
        assert KeptRow(sheet, signals, date, rows[i], projected[i]);
        assert Names(s, rows[i], date);
        KeptIsFixed(sheet, signals, s, date, rows[i], projected[i]);
      } else {
        assert AddedRow(sheet, rows, signals, date, projected[i]);
        AddedIsFixed(sheet, rows, signals, s, date, projected[i]);
      }
    }
  }
}
