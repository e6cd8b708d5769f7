/**
 The readback that confirms a write, and what it is worth: a sheet that passes it, and whose other rows
 are as they were, plans nothing for the same batch, even if written rows changed places.
 */
module SheetReadback {
  import opened Wrappers
  import opened SheetProjection
  import opened SheetPlan
  import opened SheetIdempotence

  /** The last record of every written id shows its row, and the cleared indexes are gone. */
  predicate Readback(sheet: Sheet, updates: seq<Update>, after: seq<Record>)
    requires RecordsFit(sheet, after)
  {
    && (forall u :: u in updates && NamesRow(u) ==>
          var found := FindRow(RowsOf(sheet, after), u.row[ID]);
          found.Some? && RowsEqual(sheet, after[found.value].cells, u.row))
    && (forall u, r :: u in updates && !NamesRow(u) && r in after ==> r.index != u.index)
  }

  /** The rows that were not written are as they were. */
  predicate UntouchedStay(before: seq<Record>, updates: seq<Update>, after: seq<Record>) {
    && (forall r :: r in before && !Targeted(updates, r.index) ==> r in after)
    && (forall r :: r in after && !Targeted(updates, r.index) ==> r in before)
  }

  predicate Confirmed(sheet: Sheet, before: seq<Record>, updates: seq<Update>, after: seq<Record>) {
    && RecordsFit(sheet, after) && DistinctIndexes(after)
    && Readback(sheet, updates, after) && UntouchedStay(before, updates, after)
  }

  // ---------------------------------------------------------------- the ids of a plan

  /** No two planned rows share an id, and a row of before that bears one is among those written. */
  predicate PlannedIds(before: seq<Record>, updates: seq<Update>)
    requires forall i :: 0 <= i < |before| ==> |before[i].cells| > 0
  {
    && (forall u, v :: u in updates && v in updates && NamesRow(u) && NamesRow(v) && u.row[ID] == v.row[ID] ==> u == v)
    && (forall u, i :: u in updates && NamesRow(u) && 0 <= i < |before| && before[i].cells[ID] == u.row[ID] ==>
          Targeted(updates, before[i].index))
  }

  lemma SameIdSameUpdate(sheet: Sheet, before: seq<Record>, projected: seq<Row>, signals: seq<Signal>, u: Update,
                         v: Update)
    requires RecordsFit(sheet, before) && DistinctIndexes(before)
    requires RowsFit(sheet, projected) && |projected| >= |before| && DistinctIds(projected)
    requires u in Updates(sheet, before, projected, signals) && v in Updates(sheet, before, projected, signals)
    requires NamesRow(u) && NamesRow(v) && u.row[ID] == v.row[ID]
    ensures u == v
  {
    var i := PlaceOf(sheet, before, projected, signals, u);
    var j := PlaceOf(sheet, before, projected, signals, v);
    assert i == j;
  }

  lemma BearerIsRewritten(sheet: Sheet, before: seq<Record>, projected: seq<Row>, signals: seq<Signal>, u: Update,
                          i: nat)
    requires RecordsFit(sheet, before) && DistinctIndexes(before)
    requires RowsFit(sheet, projected) && |projected| >= |before| && DistinctIds(projected)
    requires u in Updates(sheet, before, projected, signals) && NamesRow(u)
    requires i < |before| && projected[i][ID] == u.row[ID]
    ensures u.index == before[i].index
  {
    var k := PlaceOf(sheet, before, projected, signals, u);
    assert k == i;
  }

  lemma PlanHasPlannedIds(sheet: Sheet, before: seq<Record>, projected: seq<Row>, signals: seq<Signal>, date: string)
    requires Planned(sheet, before, projected, signals, date)
    ensures RowsFit(sheet, projected) && |projected| >= |before|
    ensures PlannedIds(before, Updates(sheet, before, projected, signals))
  {
    PlannedFacts(sheet, before, projected, signals, date);
    var updates := Updates(sheet, before, projected, signals);
    forall u, v | u in updates && v in updates && NamesRow(u) && NamesRow(v) && u.row[ID] == v.row[ID] ensures u == v {
      SameIdSameUpdate(sheet, before, projected, signals, u, v);
    }
    forall u, i | u in updates && NamesRow(u) && 0 <= i < |before| && before[i].cells[ID] == u.row[ID]
      ensures Targeted(updates, before[i].index)
    {
      BearerIsRewritten(sheet, before, projected, signals, u, i);
    }
  }

  // ---------------------------------------------------------------- a passed readback

  lemma {:induction false} InjectiveCard<S, T>(m: map<S, T>, range: set<T>)
    requires forall x :: x in m ==> m[x] in range
    requires forall x, y :: x in m && y in m && m[x] == m[y] ==> x == y
    ensures |m.Keys| <= |range|
    decreases |m.Keys|
  {
    if m.Keys != {} {
      var x :| x in m.Keys;
      var rest := map y | y in m && y != x :: m[y];
      assert rest.Keys == m.Keys - {x};
      InjectiveCard(rest, range - {m[x]});
    }
  }

  function NamedRows(updates: seq<Update>): set<Update> { set u | u in updates && NamesRow(u) }

  function WrittenPlaces(updates: seq<Update>, after: seq<Record>): set<nat> {
    set k: nat | k < |after| && Targeted(updates, after[k].index)
  }

  ghost function WriterOf(updates: seq<Update>, index: nat): (u: Update)
    requires Targeted(updates, index)
    ensures u in updates && u.index == index
  {
    var u :| u in updates && u.index == index;
    u
  }

  /** The places of the written rows: as many as rows were written at most. */
  lemma FewWrittenPlaces(sheet: Sheet, updates: seq<Update>, after: seq<Record>)
    requires RecordsFit(sheet, after) && DistinctIndexes(after) && Readback(sheet, updates, after)
    ensures |WrittenPlaces(updates, after)| <= |NamedRows(updates)|
  {
    var places := WrittenPlaces(updates, after);
    var writer := map k | k in places :: WriterOf(updates, after[k].index);
    forall k | k in writer ensures writer[k] in NamedRows(updates) {
      assert after[k] in after;
    }
    InjectiveCard(writer, NamedRows(updates));
    assert writer.Keys == places;
  }

  function FoundAt(sheet: Sheet, updates: seq<Update>, after: seq<Record>, u: Update): (k: nat)
    requires RecordsFit(sheet, after) && Readback(sheet, updates, after) && u in NamedRows(updates)
    ensures k < |after| && RowsEqual(sheet, after[k].cells, u.row) && after[k].cells[ID] == u.row[ID]
  {
    FindRow(RowsOf(sheet, after), u.row[ID]).value
  }

  lemma BearerIsTargeted(before: seq<Record>, updates: seq<Update>, u: Update, r: Record)
    requires forall i :: 0 <= i < |before| ==> |before[i].cells| > 0
    requires PlannedIds(before, updates) && u in updates && NamesRow(u)
    ensures r in before && r.cells[ID] == u.row[ID] ==> Targeted(updates, r.index)
  {
    if r in before && r.cells[ID] == u.row[ID] {
      var i :| 0 <= i < |before| && before[i] == r;
      assert before[i].cells[ID] == u.row[ID];
    }
  }

  lemma FoundIsWritten(sheet: Sheet, before: seq<Record>, updates: seq<Update>, after: seq<Record>, u: Update)
    requires RecordsFit(sheet, before) && Confirmed(sheet, before, updates, after)
    requires PlannedIds(before, updates) && u in NamedRows(updates)
    ensures FoundAt(sheet, updates, after, u) in WrittenPlaces(updates, after)
  {
    var k := FoundAt(sheet, updates, after, u);
    assert after[k] in after;
    BearerIsTargeted(before, updates, u, after[k]);
  }

  function FoundPlaces(sheet: Sheet, updates: seq<Update>, after: seq<Record>): set<nat>
    requires RecordsFit(sheet, after) && Readback(sheet, updates, after)
  {
    set u | u in NamedRows(updates) :: FoundAt(sheet, updates, after, u)
  }

  lemma ManyFoundPlaces(sheet: Sheet, before: seq<Record>, updates: seq<Update>, after: seq<Record>)
    requires RecordsFit(sheet, before) && RecordsFit(sheet, after) && Readback(sheet, updates, after)
    requires PlannedIds(before, updates)
    ensures |NamedRows(updates)| <= |FoundPlaces(sheet, updates, after)|
  {
    var foundAt := map u | u in NamedRows(updates) :: FoundAt(sheet, updates, after, u);
    InjectiveCard(foundAt, FoundPlaces(sheet, updates, after));
    assert foundAt.Keys == NamedRows(updates);
  }

  /** Every written place shows exactly the row that was found there. */
  lemma EveryPlaceIsFound(sheet: Sheet, before: seq<Record>, updates: seq<Update>, after: seq<Record>, k: nat)
    returns (u: Update)
    requires RecordsFit(sheet, before) && Confirmed(sheet, before, updates, after)
    requires PlannedIds(before, updates) && k in WrittenPlaces(updates, after)
    ensures u in NamedRows(updates) && FoundAt(sheet, updates, after, u) == k
  {
    forall u | u in NamedRows(updates) ensures FoundAt(sheet, updates, after, u) in WrittenPlaces(updates, after) {
      FoundIsWritten(sheet, before, updates, after, u);
    }
    ManyFoundPlaces(sheet, before, updates, after);
    FewWrittenPlaces(sheet, updates, after);
    SubsetOfSameSize(FoundPlaces(sheet, updates, after), WrittenPlaces(updates, after));
    u :| u in NamedRows(updates) && FoundAt(sheet, updates, after, u) == k;
  }

  lemma SubsetOfSameSize(part: set<nat>, whole: set<nat>)
    requires part <= whole && |whole| <= |part|
    ensures part == whole
  {
    assert |whole| == |part| + |whole - part|;
    assert whole == part + (whole - part);
  }

  /** Two places never share an id: not written ones, not untouched ones, and not one of each. */
  lemma SameIdSamePlace(sheet: Sheet, before: seq<Record>, updates: seq<Update>, after: seq<Record>, j: nat, k: nat)
    requires RecordsFit(sheet, before) && DistinctIds(RowsOf(sheet, before))
    requires Confirmed(sheet, before, updates, after) && PlannedIds(before, updates)
    requires j < |after| && k < |after| && after[j].cells[ID] == after[k].cells[ID] != ""
    ensures j == k
  {
    var written := WrittenPlaces(updates, after);
    assert after[j] in after && after[k] in after;
    if j in written {
      var u := EveryPlaceIsFound(sheet, before, updates, after, j);
      BearerIsTargeted(before, updates, u, after[k]);
      var v := EveryPlaceIsFound(sheet, before, updates, after, k);
    } else if k in written {
      var v := EveryPlaceIsFound(sheet, before, updates, after, k);
      BearerIsTargeted(before, updates, v, after[j]);
    } else {
      SameIdSameRecord(sheet, before, after[j], after[k]);
    }
  }

  lemma SameIdSameRecord(sheet: Sheet, before: seq<Record>, r: Record, q: Record)
    requires RecordsFit(sheet, before) && DistinctIds(RowsOf(sheet, before))
    requires r in before && q in before && r.cells[ID] == q.cells[ID] != ""
    ensures r == q
  {
    var i :| 0 <= i < |before| && before[i] == r;
    var j :| 0 <= j < |before| && before[j] == q;
    assert RowsOf(sheet, before)[i][ID] == RowsOf(sheet, before)[j][ID];
  }

  /** A confirmed sheet shows the planned rows, each once, and nothing else that is new. */
  lemma ConfirmedIsArranged(sheet: Sheet, before: seq<Record>, updates: seq<Update>, after: seq<Record>)
    requires RecordsFit(sheet, before) && DistinctIds(RowsOf(sheet, before))
    requires Confirmed(sheet, before, updates, after) && PlannedIds(before, updates)
    ensures Arranged(sheet, before, updates, after)
  {
    forall j, k | 0 <= j < k < |after| && after[j].cells[ID] == after[k].cells[ID] ensures after[j].cells[ID] == "" {
      if after[j].cells[ID] != "" {
        SameIdSamePlace(sheet, before, updates, after, j, k);
      }
    }
    forall u | u in updates && NamesRow(u) ensures exists r :: r in after && RowsEqual(sheet, r.cells, u.row) {
      assert after[FoundAt(sheet, updates, after, u)] in after;
    }
    forall r | r in after && Targeted(updates, r.index)
      ensures exists u :: u in updates && NamesRow(u) && RowsEqual(sheet, r.cells, u.row)
    {
      var k :| 0 <= k < |after| && after[k] == r;
      var u := EveryPlaceIsFound(sheet, before, updates, after, k);
    }
  }

  /** After a confirmed write, planning the same batch for the same day plans no write at all. */
  lemma SecondPlanIsEmpty(sheet: Sheet, before: seq<Record>, signals: seq<Signal>, date: string, after: seq<Record>)
    requires Faithful(sheet) && RecordsFit(sheet, before) && DistinctIndexes(before)
    requires SignalsFit(sheet, signals) && ContentBound(signals)
    requires Plan(sheet, before, signals, date).Success?
    requires Confirmed(sheet, before, Plan(sheet, before, signals, date).value, after)
    ensures Plan(sheet, after, signals, date) == Success([])
  {
    var projected := ConfirmedIsWritten(sheet, before, signals, date, after);
    PlannedFacts(sheet, before, projected, signals, date);
    ArrangedPlansNothing(sheet, before, signals, date, after);
  }

  /** The sheet shows the wanted cells in the columns `first..last`, up to its own coercions. */
  predicate ShowsCells(sheet: Sheet, shown: Row, wanted: Row, first: nat, last: nat)
    requires first <= last < |shown| && last < |wanted|
  {
    forall j :: first <= j <= last ==> sheet.normal(j, shown[j]) == sheet.normal(j, wanted[j])
  }

  /** The row shows the signal's own cells, and otherwise what the earlier row with its id showed. */
  predicate ShowsRetry(sheet: Sheet, s: Signal, was: Row, shown: Row)
    requires |s.base| == 22 && |shown| == |was| == sheet.Width()
  {
    && ShowsCells(sheet, shown, s.base, 0, 0) && ShowsCells(sheet, shown, s.base, 3, 11)
    && ShowsCells(sheet, shown, s.base, 16, 17) && ShowsCells(sheet, shown, s.base, 19, 21)
    && ShowsCells(sheet, shown, was, 1, 2) && ShowsCells(sheet, shown, was, 12, 15)
    && (if sheet.named
        then
          && ShowsCells(sheet, shown, was, 22, 23)
          && sheet.normal(18, shown[18]) == sheet.normal(18, if was[22] != "" then "" else was[18])
        else sheet.normal(18, shown[18]) == sheet.normal(18, s.base[18]))
  }

  /** The row shows what the signal says, and nothing of any earlier row. */
  predicate ShowsNew(sheet: Sheet, s: Signal, shown: Row)
    requires |s.base| == 22 && |shown| == sheet.Width()
  {
    && ShowsCells(sheet, shown, s.base, 0, 17) && ShowsCells(sheet, shown, s.base, 19, 21)
    && (if sheet.named
        then
          && sheet.normal(18, shown[18]) == sheet.normal(18, if s.managementExit != "" then "" else s.base[18])
          && sheet.normal(22, shown[22]) == sheet.normal(22, s.managementExit)
          && sheet.normal(23, shown[23]) == sheet.normal(23, s.compareExits)
        else sheet.normal(18, shown[18]) == sheet.normal(18, s.base[18]))
  }

  lemma RenewedIsShown(sheet: Sheet, s: Signal, was: Row, shown: Row)
    requires WellFormed(sheet, s) && |shown| == |was| == sheet.Width()
    requires RowsEqual(sheet, shown, Preserved(sheet, TargetRow(sheet, s), was))
    ensures ShowsRetry(sheet, s, was, shown)
  {
    NewColumns(sheet, s);
  }

  lemma AddedIsShown(sheet: Sheet, s: Signal, shown: Row)
    requires WellFormed(sheet, s) && |shown| == sheet.Width() && RowsEqual(sheet, shown, TargetRow(sheet, s))
    ensures ShowsNew(sheet, s, shown)
  {
  }

  lemma KeptIsShown(sheet: Sheet, before: seq<Record>, projected: seq<Row>, signals: seq<Signal>, date: string,
                    s: Signal, i: nat, shown: Row)
    requires Planned(sheet, before, projected, signals, date)
    requires s in signals && s.date == date && |shown| == sheet.Width()
    requires i < |before| <= |projected| && before[i].cells[ID] == s.id && RowsEqual(sheet, shown, projected[i])
    ensures ShowsRetry(sheet, s, before[i].cells, shown)
  {
    PlannedFacts(sheet, before, projected, signals, date);
    var was := RowsOf(sheet, before)[i];
    assert Names(s, was, date);
    assert KeptRow(sheet, signals, date, was, projected[i]);
    var t :| t in signals && Names(t, was, date) && sheet.owner(was[METADATA]) == Owned(t.hash)
             && projected[i] == Preserved(sheet, TargetRow(sheet, t), was);
    assert t.hash == s.hash;
    RenewedIsShown(sheet, s, was, shown);
  }

  lemma NewIsShown(sheet: Sheet, before: seq<Record>, projected: seq<Row>, signals: seq<Signal>, date: string,
                   s: Signal, i: nat, shown: Row)
    requires Planned(sheet, before, projected, signals, date)
    requires s in signals && s.date == date && |shown| == sheet.Width()
    requires |before| <= i < |projected| && |projected[i]| > 0
    requires projected[i][ID] == s.id && RowsEqual(sheet, shown, projected[i])
    ensures ShowsNew(sheet, s, shown)
    ensures forall k :: 0 <= k < |before| ==> before[k].cells[ID] != s.id
  {
    PlannedFacts(sheet, before, projected, signals, date);
    var rows := RowsOf(sheet, before);
    assert AddedRow(sheet, rows, signals, date, projected[i]);
    var t :| t in signals && Names(t, projected[i], date) && projected[i] == TargetRow(sheet, t)
             && forall k :: 0 <= k < |rows| ==> rows[k][ID] != t.id;
    assert t.hash == s.hash;
    AddedIsShown(sheet, s, shown);
    assert forall k :: 0 <= k < |before| ==> rows[k] == before[k].cells;
  }

  lemma WrittenSignalIsShown(sheet: Sheet, before: seq<Record>, projected: seq<Row>, signals: seq<Signal>,
                             date: string, after: seq<Record>, s: Signal) returns (r: Record)
    requires Faithful(sheet) && Written(sheet, before, projected, signals, date, after)
    requires s in signals && s.date == date
    ensures r in after && |r.cells| == sheet.Width() && r.cells[ID] == s.id
    ensures forall was :: was in before && was.cells[ID] == s.id ==> ShowsRetry(sheet, s, was.cells, r.cells)
    ensures (forall was :: was in before ==> was.cells[ID] != s.id) ==> ShowsNew(sheet, s, r.cells)
  {
    var i: nat;
    r, i := ShownRow(sheet, before, projected, signals, date, after, s);
    PlannedFacts(sheet, before, projected, signals, date);
    if i < |before| {
      KeptIsShown(sheet, before, projected, signals, date, s, i, r.cells);
      assert before[i] in before;
      forall was | was in before && was.cells[ID] == s.id ensures was == before[i] {
        SameIdSameRecord(sheet, before, was, before[i]);
      }
    } else {
      NewIsShown(sheet, before, projected, signals, date, s, i, r.cells);
    }
  }

  /** A confirmed write arranges the planned rows. */
  lemma ConfirmedIsWritten(sheet: Sheet, before: seq<Record>, signals: seq<Signal>, date: string, after: seq<Record>)
    returns (projected: seq<Row>)
    requires RecordsFit(sheet, before) && DistinctIndexes(before)
    requires SignalsFit(sheet, signals) && ContentBound(signals)
    requires Plan(sheet, before, signals, date).Success?
    requires Confirmed(sheet, before, Plan(sheet, before, signals, date).value, after)
    ensures Written(sheet, before, projected, signals, date, after)
  {
    projected := Project(sheet, RowsOf(sheet, before), signals, date).value;
    assert Planned(sheet, before, projected, signals, date);
    PlannedFacts(sheet, before, projected, signals, date);
    PlanHasPlannedIds(sheet, before, projected, signals, date);
    ConfirmedIsArranged(sheet, before, Updates(sheet, before, projected, signals), after);
  }

  /**
   After a confirmed write every signal of today has a row that shows its own cells: renewed over the
   row that bore its id before, whatever had been typed there, or new.
   */
  lemma SignalsAreShown(sheet: Sheet, before: seq<Record>, signals: seq<Signal>, date: string, after: seq<Record>,
                        s: Signal) returns (r: Record)
    requires Faithful(sheet) && RecordsFit(sheet, before) && DistinctIndexes(before)
    requires SignalsFit(sheet, signals) && ContentBound(signals)
    requires Plan(sheet, before, signals, date).Success?
    requires Confirmed(sheet, before, Plan(sheet, before, signals, date).value, after)
    requires s in signals && s.date == date
    ensures r in after && |r.cells| == sheet.Width() && r.cells[ID] == s.id
    ensures forall was :: was in before && was.cells[ID] == s.id ==> ShowsRetry(sheet, s, was.cells, r.cells)
    ensures (forall was :: was in before ==> was.cells[ID] != s.id) ==> ShowsNew(sheet, s, r.cells)
  {
    var projected := ConfirmedIsWritten(sheet, before, signals, date, after);
    r := WrittenSignalIsShown(sheet, before, projected, signals, date, after, s);
  }

  lemma ForeignRowIsUntargeted(sheet: Sheet, before: seq<Record>, projected: seq<Row>, signals: seq<Signal>,
                               date: string, i: nat)
    requires Planned(sheet, before, projected, signals, date)
    requires RowsFit(sheet, projected) && |projected| >= |before| && i < |before|
    requires sheet.owner(before[i].cells[METADATA]) == NotOwned
    ensures !Targeted(Updates(sheet, before, projected, signals), before[i].index)
  {
    forall u | u in Updates(sheet, before, projected, signals) ensures u.index != before[i].index {
      ForeignRowsAreNeverWritten(sheet, before, projected, signals, date, u);
    }
  }

  /**
   After a confirmed write no row of Cartographer's is left over from an earlier batch, and every row of
   anybody else is where it was.
   */
  lemma OwnedRowsAreTheBatchs(sheet: Sheet, before: seq<Record>, signals: seq<Signal>, date: string,
                              after: seq<Record>)
    requires Faithful(sheet) && RecordsFit(sheet, before) && DistinctIndexes(before)
    requires SignalsFit(sheet, signals) && ContentBound(signals)
    requires Plan(sheet, before, signals, date).Success?
    requires Confirmed(sheet, before, Plan(sheet, before, signals, date).value, after)
    ensures forall r :: r in after && sheet.owner(r.cells[METADATA]) != NotOwned ==>
              exists s :: s in signals && s.id == r.cells[ID]
    ensures forall r :: r in before && sheet.owner(r.cells[METADATA]) == NotOwned ==> r in after
  {
    var projected := ConfirmedIsWritten(sheet, before, signals, date, after);
    PlannedFacts(sheet, before, projected, signals, date);
    forall r | r in after && sheet.owner(r.cells[METADATA]) != NotOwned
      ensures exists s :: s in signals && s.id == r.cells[ID]
    {
      AfterIsSettled(sheet, before, projected, signals, date, after, r);
    }
    forall r | r in before && sheet.owner(r.cells[METADATA]) == NotOwned ensures r in after {
      var i :| 0 <= i < |before| && before[i] == r;
      ForeignRowIsUntargeted(sheet, before, projected, signals, date, i);
    }
  }

  // ---------------------------------------------------------------- a write that put every row in its place

  /** No two records of such a sheet share an id. */
  lemma InPlaceIdsAreDistinct(sheet: Sheet, before: seq<Record>, updates: seq<Update>, after: seq<Record>, r: Record,
                              q: Record)
    requires Faithful(sheet) && RecordsFit(sheet, before) && DistinctIds(RowsOf(sheet, before))
    requires PlannedIds(before, updates) && Reflects(sheet, before, updates, after)
    requires r in after && q in after && |r.cells| == |q.cells| == sheet.Width() && r.cells[ID] == q.cells[ID] != ""
    ensures r.index == q.index
  {
    if r in before && !Targeted(updates, r.index) {
      if q in before && !Targeted(updates, q.index) {
        SameIdSameRecord(sheet, before, r, q);
      } else {
        var v := WriterShown(sheet, before, updates, after, q);
        BearerIsTargeted(before, updates, v, r);
      }
    } else {
      var u := WriterShown(sheet, before, updates, after, r);
      BearerIsTargeted(before, updates, u, q);
      var v := WriterShown(sheet, before, updates, after, q);
    }
  }

  lemma WriterShown(sheet: Sheet, before: seq<Record>, updates: seq<Update>, after: seq<Record>, r: Record)
    returns (u: Update)
    requires Faithful(sheet) && Reflects(sheet, before, updates, after) && r in after && |r.cells| == sheet.Width()
    requires !(r in before && !Targeted(updates, r.index))
    ensures u in updates && NamesRow(u) && u.index == r.index && u.row[ID] == r.cells[ID]
  {
    u :| u in updates && NamesRow(u) && Shows(sheet, r, u);
    EqualRowsShareIdentity(sheet, r.cells, u.row);
  }

  lemma LastIsFound(sheet: Sheet, after: seq<Record>, r: Record) returns (k: nat)
    requires RecordsFit(sheet, after) && r in after
    ensures k < |after| && after[k].cells[ID] == r.cells[ID] && FindRow(RowsOf(sheet, after), r.cells[ID]) == Some(k)
  {
    var p :| 0 <= p < |after| && after[p] == r;
    assert RowsOf(sheet, after)[p][ID] == r.cells[ID];
    k := FindRow(RowsOf(sheet, after), r.cells[ID]).value;
  }

  lemma InPlaceShows(sheet: Sheet, before: seq<Record>, updates: seq<Update>, after: seq<Record>, u: Update)
    requires Faithful(sheet) && RecordsFit(sheet, before) && DistinctIds(RowsOf(sheet, before))
    requires PlannedIds(before, updates) && Reflects(sheet, before, updates, after)
    requires u in updates && NamesRow(u) && |u.row| == sheet.Width()
    ensures var found := FindRow(RowsOf(sheet, after), u.row[ID]);
            found.Some? && RowsEqual(sheet, after[found.value].cells, u.row)
  {
    var r :| r in after && Shows(sheet, r, u);
    EqualRowsShareIdentity(sheet, u.row, r.cells);
    var k := LastIsFound(sheet, after, r);
    assert after[k] in after;
    InPlaceIdsAreDistinct(sheet, before, updates, after, r, after[k]);
    assert after[k] == r;
  }

  lemma SameIndexSameUpdate(updates: seq<Update>, u: Update, v: Update)
    requires DistinctTargets(updates) && u in updates && v in updates
    ensures u.index == v.index ==> u == v
  {
    var i :| 0 <= i < |updates| && updates[i] == u;
    var j :| 0 <= j < |updates| && updates[j] == v;
  }

  lemma ClearedAreGone(sheet: Sheet, before: seq<Record>, updates: seq<Update>, after: seq<Record>, u: Update,
                       r: Record)
    requires Reflects(sheet, before, updates, after) && DistinctTargets(updates)
    requires u in updates && !NamesRow(u) && r in after
    ensures r.index != u.index
  {
    if !(r in before && !Targeted(updates, r.index)) {
      var v :| v in updates && NamesRow(v) && Shows(sheet, r, v);
      SameIndexSameUpdate(updates, u, v);
    }
  }

  /** A write that put every row in its place passes the readback. */
  lemma InPlaceIsConfirmed(sheet: Sheet, before: seq<Record>, updates: seq<Update>, after: seq<Record>)
    requires Faithful(sheet) && RecordsFit(sheet, before) && DistinctIds(RowsOf(sheet, before))
    requires PlannedIds(before, updates) && DistinctTargets(updates)
    requires forall u :: u in updates ==> |u.row| == sheet.Width()
    requires Reflects(sheet, before, updates, after)
    ensures Confirmed(sheet, before, updates, after)
  {
    forall u | u in updates && NamesRow(u)
      ensures var found := FindRow(RowsOf(sheet, after), u.row[ID]);
              found.Some? && RowsEqual(sheet, after[found.value].cells, u.row)
    {
      InPlaceShows(sheet, before, updates, after, u);
    }
    forall u, r | u in updates && !NamesRow(u) && r in after ensures r.index != u.index {
      ClearedAreGone(sheet, before, updates, after, u, r);
    }
  }
}
