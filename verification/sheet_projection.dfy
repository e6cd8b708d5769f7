/**
 The projection of a batch of Cartographer signals onto the rows of the manual-entry sheet: rows the
 batch does not name are kept, named rows keep what belongs to the human and the runtime, and new
 signals are added at the end.
 */
module SheetProjection {
  import opened Wrappers

  type Cell = string
  type Row = seq<Cell>
  type Hash = string

  const ID := 0
  const ENABLED := 1
  const MODE := 2
  const MANAGEMENT_SPEC := 18
  const METADATA := 19
  const MANAGEMENT_EXIT := 22

  datatype Owner = NotOwned | Owned(hash: Hash)

  /**
   The sheet's header contract (with or without the named-exit columns), the normal form under which a
   cell is compared with what the sheet made of it, and the ownership a metadata cell declares.
   */
  datatype Sheet = Sheet(named: bool, normal: (nat, Cell) -> Cell, owner: Cell -> Owner)
  {
    function Width(): nat { if named then 24 else 22 }
  }

  /** A signal with its 22 projected cells and the exits that its profile's defaults name. */
  datatype Signal = Signal(
    authentic: bool,
    id: string,
    hash: Hash,
    date: string,
    base: Row,
    managementExit: string,
    compareExits: string)

  datatype Refusal =
    | NotContentBound
    | CompareWithoutExit
    | NamedExitsNeedColumns
    | ForeignRow
    | HashMismatch
    | DuplicateIds

  /** What the row builder makes of every authentic signal; a forged one's cells are never looked at. */
  predicate WellFormed(sheet: Sheet, s: Signal) {
    && |s.base| == 22 && s.base[ID] == s.id && (s.authentic ==> s.id != "")
    && sheet.owner(s.base[METADATA]) == Owned(s.hash)
  }

  /** The hash of an authentic signal stands for its whole content; a forged one may repeat any hash. */
  predicate ContentBound(signals: seq<Signal>) {
    forall s, t :: s in signals && t in signals && s.authentic && t.authentic && s.hash == t.hash ==> s == t
  }

  predicate HashesTell(signals: seq<Signal>) {
    forall s, t :: s in signals && t in signals && s.hash == t.hash ==> s == t
  }

  function TargetOf(sheet: Sheet, s: Signal): Result<Row, Refusal>
    requires WellFormed(sheet, s)
  {
    if !s.authentic then Failure(NotContentBound)
    else if s.compareExits != "" && s.managementExit == "" then Failure(CompareWithoutExit)
    else if s.managementExit != "" && !sheet.named then Failure(NamedExitsNeedColumns)
    else Success(TargetRow(sheet, s))
  }

  /** A signal is usable when it is authentic, names a comparison only beside an exit, and its exit has a column. */
  lemma UsableExactly(sheet: Sheet, s: Signal)
    requires WellFormed(sheet, s)
    ensures TargetOf(sheet, s) == Success(TargetRow(sheet, s)) <==>
            s.authentic && (s.managementExit == "" ==> s.compareExits == "") && (s.managementExit != "" ==> sheet.named)
    ensures TargetOf(sheet, s).Success? ==> TargetOf(sheet, s) == Success(TargetRow(sheet, s))
  {
  }

  function TargetRow(sheet: Sheet, s: Signal): (row: Row)
    requires WellFormed(sheet, s)
    ensures |row| == sheet.Width() && row[ID] == s.id && row[METADATA] == s.base[METADATA]
  {
    if !sheet.named then s.base
    else (if s.managementExit != "" then s.base[MANAGEMENT_SPEC := ""] else s.base) + [s.managementExit, s.compareExits]
  }

  /** Columns that a retry leaves to the human or the runtime. */
  predicate KeptColumn(sheet: Sheet, j: nat) {
    j == ENABLED || j == MODE || 12 <= j < 16 || (sheet.named && j >= MANAGEMENT_EXIT)
  }

  function PreservedCell(sheet: Sheet, target: Row, existing: Row, j: nat): Cell
    requires j < sheet.Width() == |target| <= |existing|
  {
    if KeptColumn(sheet, j) then existing[j]
    else if sheet.named && j == MANAGEMENT_SPEC then
      if existing[MANAGEMENT_EXIT] != "" then "" else existing[MANAGEMENT_SPEC]
    else target[j]
  }

  function Preserved(sheet: Sheet, target: Row, existing: Row): (row: Row)
    requires sheet.Width() == |target| <= |existing|
    ensures |row| == |target|
    ensures forall j: nat :: j < |row| && KeptColumn(sheet, j) ==> row[j] == existing[j]
    ensures forall j: nat :: j < |row| && !KeptColumn(sheet, j) && !(sheet.named && j == MANAGEMENT_SPEC) ==>
              row[j] == target[j]
    ensures sheet.named ==>
              row[MANAGEMENT_SPEC] == if existing[MANAGEMENT_EXIT] != "" then "" else existing[MANAGEMENT_SPEC]
  {
    seq(sheet.Width(), j requires 0 <= j < sheet.Width() => PreservedCell(sheet, target, existing, j))
  }

  /** Equal in the columns `first..last`. */
  predicate SameCells(left: Row, right: Row, first: nat, last: nat)
    requires first <= last < |left| && last < |right|
  {
    left[first..last + 1] == right[first..last + 1]
  }

  /**
   A retry, column by column: the signal writes its own cells again; the human's switches and the
   runtime's writebacks stay; with named exits the human's choice stays and silences the old spec.
   */
  lemma RetryColumns(sheet: Sheet, s: Signal, existing: Row)
    requires WellFormed(sheet, s) && |existing| >= sheet.Width()
    ensures var row := Preserved(sheet, TargetRow(sheet, s), existing);
            && |row| == (if sheet.named then 24 else 22)
            && SameCells(row, s.base, 0, 0) && SameCells(row, s.base, 3, 11)
            && SameCells(row, s.base, 16, 17) && SameCells(row, s.base, 19, 21)
            && SameCells(row, existing, 1, 2) && SameCells(row, existing, 12, 15)
            && (sheet.named ==> SameCells(row, existing, 22, 23))
            && row[18] == (if !sheet.named then s.base[18] else if existing[22] != "" then "" else existing[18])
  {
  }

  /** A new row, column by column: the signal's cells, where a named exit takes the place of the old spec. */
  lemma NewColumns(sheet: Sheet, s: Signal)
    requires WellFormed(sheet, s)
    ensures var row := TargetRow(sheet, s);
            && |row| == (if sheet.named then 24 else 22)
            && SameCells(row, s.base, 0, 17) && SameCells(row, s.base, 19, 21)
            && row[18] == (if sheet.named && s.managementExit != "" then "" else s.base[18])
            && (sheet.named ==> row[22] == s.managementExit && row[23] == s.compareExits)
  {
  }

  lemma PreservedTwice(sheet: Sheet, target: Row, existing: Row)
    requires sheet.Width() == |target| <= |existing|
    ensures Preserved(sheet, target, Preserved(sheet, target, existing)) == Preserved(sheet, target, existing)
  {
  }

  /** A row keeps what its own signal would have written, when that signal named the exits. */
  lemma TargetKeepsItself(sheet: Sheet, s: Signal)
    requires WellFormed(sheet, s) && TargetOf(sheet, s).Success?
    ensures Preserved(sheet, TargetRow(sheet, s), TargetRow(sheet, s)) == TargetRow(sheet, s)
  {
  }

  // ---------------------------------------------------------------- the projection

  predicate RowsFit(sheet: Sheet, rows: seq<Row>) {
    forall i :: 0 <= i < |rows| ==> |rows[i]| >= sheet.Width()
  }

  predicate SignalsFit(sheet: Sheet, signals: seq<Signal>) {
    forall s :: s in signals ==> WellFormed(sheet, s)
  }

  /** Short rows are padded with blank cells. */
  function Padded(sheet: Sheet, row: Row): (padded: Row)
    ensures |padded| >= sheet.Width() && row <= padded
    ensures |row| >= sheet.Width() ==> padded == row
  {
    row + seq(if |row| < sheet.Width() then sheet.Width() - |row| else 0, _ => "")
  }

  function PadAll(sheet: Sheet, rows: seq<Row>): (padded: seq<Row>)
    ensures |padded| == |rows| && RowsFit(sheet, padded)
    ensures forall i :: 0 <= i < |rows| ==> padded[i] == Padded(sheet, rows[i])
  {
    seq(|rows|, i requires 0 <= i < |rows| => Padded(sheet, rows[i]))
  }

  /** The last row with the id. */
  function FindRow(rows: seq<Row>, id: string): (found: Option<nat>)
    requires forall i :: 0 <= i < |rows| ==> |rows[i]| > 0
    ensures found.Some? ==> found.value < |rows| && rows[found.value][ID] == id
    ensures found.Some? ==> forall i :: found.value < i < |rows| ==> rows[i][ID] != id
    ensures found.None? ==> forall i :: 0 <= i < |rows| ==> rows[i][ID] != id
  {
    if rows == [] then None
    else if rows[|rows| - 1][ID] == id then Some(|rows| - 1)
    else FindRow(rows[..|rows| - 1], id)
  }

  /** One signal of the batch. */
  function Place(sheet: Sheet, rows: seq<Row>, s: Signal, date: string): (r: Result<seq<Row>, Refusal>)
    requires RowsFit(sheet, rows) && WellFormed(sheet, s)
    ensures r.Success? ==> RowsFit(sheet, r.value) && |r.value| >= |rows|
  {
    match TargetOf(sheet, s)
    case Failure(e) => Failure(e)
    case Success(target) =>
      if s.date != date then Success(rows)
      else
        match FindRow(rows, s.id)
        case None => Success(rows + [target])
        case Some(i) =>
          match sheet.owner(rows[i][METADATA])
          case NotOwned => Failure(ForeignRow)
          case Owned(hash) =>
            if hash != s.hash then Failure(HashMismatch) else Success(rows[i := Preserved(sheet, target, rows[i])])
  }

  function Project(sheet: Sheet, rows: seq<Row>, signals: seq<Signal>, date: string): (r: Result<seq<Row>, Refusal>)
    requires RowsFit(sheet, rows) && SignalsFit(sheet, signals)
    ensures r.Success? ==> RowsFit(sheet, r.value) && |r.value| >= |rows|
  {
    if signals == [] then Success(rows)
    else
      match Project(sheet, rows, signals[..|signals| - 1], date)
      case Failure(e) => Failure(e)
      case Success(placed) => Place(sheet, placed, signals[|signals| - 1], date)
  }

  // ---------------------------------------------------------------- what the projection is

  /** The signal that names the row today. */
  predicate Names(s: Signal, row: Row, date: string) {
    |row| > 0 && s.date == date && s.id == row[ID]
  }

  predicate Untouched(signals: seq<Signal>, row: Row, date: string) {
    forall s :: s in signals ==> !Names(s, row, date)
  }

  /** A kept row: as it was, or renewed by the signal that names it and already owned it. */
  predicate KeptRow(sheet: Sheet, signals: seq<Signal>, date: string, was: Row, now: Row)
    requires |was| >= sheet.Width() && SignalsFit(sheet, signals)
  {
    || (now == was && Untouched(signals, was, date))
    || (exists s :: s in signals && Names(s, was, date) && sheet.owner(was[METADATA]) == Owned(s.hash)
                    && now == Preserved(sheet, TargetRow(sheet, s), was))
  }

  /** An added row: the target of a signal of today that no existing row bears. */
  predicate AddedRow(sheet: Sheet, rows: seq<Row>, signals: seq<Signal>, date: string, now: Row)
    requires RowsFit(sheet, rows) && SignalsFit(sheet, signals)
  {
    exists s :: s in signals && Names(s, now, date) && now == TargetRow(sheet, s)
                && forall i :: 0 <= i < |rows| ==> rows[i][ID] != s.id
  }

  predicate DistinctIds(rows: seq<Row>)
    requires forall i :: 0 <= i < |rows| ==> |rows[i]| > 0
  {
    forall i, j :: 0 <= i < j < |rows| && rows[i][ID] == rows[j][ID] ==> rows[i][ID] == ""
  }

  /** The whole projected sheet, stated row by row. */
  predicate Projects(sheet: Sheet, rows: seq<Row>, signals: seq<Signal>, date: string, out: seq<Row>)
    requires RowsFit(sheet, rows) && SignalsFit(sheet, signals) && RowsFit(sheet, out)
  {
    && |out| >= |rows|
    && (forall i :: 0 <= i < |rows| ==> KeptRow(sheet, signals, date, rows[i], out[i]))
    && (forall i :: |rows| <= i < |out| ==> AddedRow(sheet, rows, signals, date, out[i]))
    && (forall s :: s in signals && s.date == date ==> exists i :: 0 <= i < |out| && out[i][ID] == s.id)
    && DistinctIds(out)
  }

  lemma KeptRowGrows(sheet: Sheet, signals: seq<Signal>, s: Signal, date: string, was: Row, now: Row)
    requires |was| >= sheet.Width() && SignalsFit(sheet, signals + [s])
    requires KeptRow(sheet, signals, date, was, now) && !Names(s, was, date)
    ensures KeptRow(sheet, signals + [s], date, was, now)
  {
    if exists t :: t in signals && Names(t, was, date) && sheet.owner(was[METADATA]) == Owned(t.hash)
                   && now == Preserved(sheet, TargetRow(sheet, t), was) {
      var t :| t in signals && Names(t, was, date) && sheet.owner(was[METADATA]) == Owned(t.hash)
               && now == Preserved(sheet, TargetRow(sheet, t), was);
      assert t in signals + [s];
    }
  }

  lemma AddedRowGrows(sheet: Sheet, rows: seq<Row>, signals: seq<Signal>, s: Signal, date: string, now: Row)
    requires RowsFit(sheet, rows) && SignalsFit(sheet, signals + [s]) && AddedRow(sheet, rows, signals, date, now)
    ensures AddedRow(sheet, rows, signals + [s], date, now)
  {
    var t :| t in signals && Names(t, now, date) && now == TargetRow(sheet, t)
             && forall i :: 0 <= i < |rows| ==> rows[i][ID] != t.id;
    assert t in signals + [s];
  }

  /** A renewed row is renewed again by the same signal, to the same row. */
  lemma KeptRowRenewed(sheet: Sheet, signals: seq<Signal>, s: Signal, date: string, was: Row, now: Row)
    requires |was| >= sheet.Width() && |now| >= sheet.Width() && SignalsFit(sheet, signals + [s]) &&
               HashesTell(signals + [s])
    requires KeptRow(sheet, signals, date, was, now) && Names(s, was, date)
    requires sheet.owner(now[METADATA]) == Owned(s.hash)
    ensures KeptRow(sheet, signals + [s], date, was, Preserved(sheet, TargetRow(sheet, s), now))
  {
    var again := Preserved(sheet, TargetRow(sheet, s), now);
    assert s in signals + [s];
    if now != was {
      var t :| t in signals && Names(t, was, date) && sheet.owner(was[METADATA]) == Owned(t.hash)
               && now == Preserved(sheet, TargetRow(sheet, t), was);
      assert t in signals + [s];
      assert t.hash == s.hash;
      PreservedTwice(sheet, TargetRow(sheet, s), was);
    }
  }

  lemma AddedRowRenewed(sheet: Sheet, rows: seq<Row>, signals: seq<Signal>, s: Signal, date: string, now: Row)
    requires RowsFit(sheet, rows) && SignalsFit(sheet, signals + [s]) && HashesTell(signals + [s])
    requires TargetOf(sheet, s).Success? && |now| >= sheet.Width()
    requires AddedRow(sheet, rows, signals, date, now) && sheet.owner(now[METADATA]) == Owned(s.hash)
    ensures Preserved(sheet, TargetRow(sheet, s), now) == now
  {
    var t :| t in signals && Names(t, now, date) && now == TargetRow(sheet, t)
             && forall i :: 0 <= i < |rows| ==> rows[i][ID] != t.id;
    assert s in signals + [s] && t in signals + [s];
    assert t.hash == s.hash;
    TargetKeepsItself(sheet, s);
  }

  lemma KeptRowKeepsId(sheet: Sheet, signals: seq<Signal>, date: string, was: Row, now: Row)
    requires |was| >= sheet.Width() && SignalsFit(sheet, signals) && KeptRow(sheet, signals, date, was, now)
    ensures |now| >= sheet.Width() && now[ID] == was[ID]
  {
  }

  lemma ProjectsKeepsIds(sheet: Sheet, rows: seq<Row>, signals: seq<Signal>, date: string, out: seq<Row>)
    requires RowsFit(sheet, rows) && SignalsFit(sheet, signals) && RowsFit(sheet, out)
    requires Projects(sheet, rows, signals, date, out)
    ensures forall i :: 0 <= i < |rows| ==> out[i][ID] == rows[i][ID]
  {
    forall i | 0 <= i < |rows| ensures out[i][ID] == rows[i][ID] {
      KeptRowKeepsId(sheet, signals, date, rows[i], out[i]);
    }
  }

  lemma PlacedKeptRow(sheet: Sheet, rows: seq<Row>, signals: seq<Signal>, s: Signal, date: string, placed: seq<Row>,
                      i: nat)
    requires RowsFit(sheet, rows) && RowsFit(sheet, placed) && i < |rows| <= |placed|
    requires SignalsFit(sheet, signals + [s]) && HashesTell(signals + [s])
    requires s in signals + [s] && SignalsFit(sheet, signals) && DistinctIds(placed)
    requires KeptRow(sheet, signals, date, rows[i], placed[i]) && Place(sheet, placed, s, date).Success?
    ensures KeptRow(sheet, signals + [s], date, rows[i], Place(sheet, placed, s, date).value[i])
  {
    KeptRowKeepsId(sheet, signals, date, rows[i], placed[i]);
    if s.date == date && FindRow(placed, s.id) == Some(i) {
      KeptRowRenewed(sheet, signals, s, date, rows[i], placed[i]);
    } else {
      KeptRowGrows(sheet, signals, s, date, rows[i], placed[i]);
    }
  }

  lemma PlacedAddedRow(sheet: Sheet, rows: seq<Row>, signals: seq<Signal>, s: Signal, date: string, placed: seq<Row>,
                       i: nat)
    requires RowsFit(sheet, rows) && RowsFit(sheet, placed) && i < |placed|
    requires SignalsFit(sheet, signals + [s]) && HashesTell(signals + [s])
    requires s in signals + [s] && SignalsFit(sheet, signals)
    requires AddedRow(sheet, rows, signals, date, placed[i]) && Place(sheet, placed, s, date).Success?
    ensures AddedRow(sheet, rows, signals + [s], date, Place(sheet, placed, s, date).value[i])
  {
    AddedRowGrows(sheet, rows, signals, s, date, placed[i]);
    if s.date == date && FindRow(placed, s.id) == Some(i) {
      AddedRowRenewed(sheet, rows, signals, s, date, placed[i]);
    }
  }

  lemma PlaceShape(sheet: Sheet, placed: seq<Row>, s: Signal, date: string)
    requires RowsFit(sheet, placed) && WellFormed(sheet, s) && DistinctIds(placed)
    requires Place(sheet, placed, s, date).Success?
    ensures var out := Place(sheet, placed, s, date).value;
            && RowsFit(sheet, out) && DistinctIds(out)
            && (forall i :: 0 <= i < |placed| ==> out[i][ID] == placed[i][ID])
            && (s.date == date ==> exists i :: 0 <= i < |out| && out[i][ID] == s.id)
            && (|out| == |placed| || (|out| == |placed| + 1 && s.date == date && FindRow(placed, s.id).None?
                                      && out[|placed|] == TargetRow(sheet, s)))
  {
    var out := Place(sheet, placed, s, date).value;
    if s.date == date {
      var found := FindRow(placed, s.id);
      assert out[if found.Some? then found.value else |placed|][ID] == s.id;
    }
  }

  /** Placing one more signal carries the row-by-row description on. */
  lemma PlaceProjects(sheet: Sheet, rows: seq<Row>, signals: seq<Signal>, s: Signal, date: string, placed: seq<Row>)
    requires RowsFit(sheet, rows) && RowsFit(sheet, placed)
    requires SignalsFit(sheet, signals + [s]) && HashesTell(signals + [s])
    requires s in signals + [s] && SignalsFit(sheet, signals)
    requires Projects(sheet, rows, signals, date, placed) && Place(sheet, placed, s, date).Success?
    ensures Projects(sheet, rows, signals + [s], date, Place(sheet, placed, s, date).value)
  {
    var all, out := signals + [s], Place(sheet, placed, s, date).value;
    PlaceShape(sheet, placed, s, date);
    forall i | 0 <= i < |rows| ensures KeptRow(sheet, all, date, rows[i], out[i]) {
      PlacedKeptRow(sheet, rows, signals, s, date, placed, i);
    }
    forall i | |rows| <= i < |out| ensures AddedRow(sheet, rows, all, date, out[i]) {
      if i < |placed| {
        PlacedAddedRow(sheet, rows, signals, s, date, placed, i);
      } else {
        ProjectsKeepsIds(sheet, rows, signals, date, placed);
        assert Names(s, out[i], date);
      }
    }
    forall t | t in all && t.date == date ensures exists i :: 0 <= i < |out| && out[i][ID] == t.id {
      if t in signals {
        var i :| 0 <= i < |placed| && placed[i][ID] == t.id;
        assert out[i][ID] == t.id;
      }
    }
  }

  /** A projection that is not refused had only usable signals. */
  lemma {:induction false} ProjectedAreUsable(sheet: Sheet, rows: seq<Row>, signals: seq<Signal>, date: string)
    requires RowsFit(sheet, rows) && SignalsFit(sheet, signals) && Project(sheet, rows, signals, date).Success?
    ensures forall s :: s in signals ==> TargetOf(sheet, s).Success?
  {
    if signals != [] {
      var n := |signals| - 1;
      assert signals == signals[..n] + [signals[n]];
      ProjectedAreUsable(sheet, rows, signals[..n], date);
    }
  }

  /** A projection that is not refused is the sheet described row by row. */
  lemma {:induction false} ProjectIsProjection(sheet: Sheet, rows: seq<Row>, signals: seq<Signal>, date: string)
    requires RowsFit(sheet, rows) && DistinctIds(rows) && SignalsFit(sheet, signals) && ContentBound(signals)
    ensures var r := Project(sheet, rows, signals, date);
            r.Success? ==> Projects(sheet, rows, signals, date, r.value)
  {
    if signals != [] && Project(sheet, rows, signals, date).Success? {
      var n := |signals| - 1;
      assert signals == signals[..n] + [signals[n]];
      ProjectIsProjection(sheet, rows, signals[..n], date);
      ProjectedAreUsable(sheet, rows, signals, date);
      PlaceProjects(sheet, rows, signals[..n], signals[n], date, Project(sheet, rows, signals[..n], date).value);
    }
  }

  // ---------------------------------------------------------------- when it is refused

  /** Every signal of today finds its row absent, or owned by the very same signal. */
  predicate Consistent(sheet: Sheet, rows: seq<Row>, signals: seq<Signal>, date: string)
    requires RowsFit(sheet, rows)
  {
    && (forall s, i :: s in signals && 0 <= i < |rows| && Names(s, rows[i], date) ==>
          sheet.owner(rows[i][METADATA]) == Owned(s.hash))
    && (forall s, t :: s in signals && t in signals && s.date == t.date == date && s.id == t.id ==> s.hash == t.hash)
  }

  /** The signal agrees with the rows and with the earlier signals. */
  predicate Agrees(sheet: Sheet, rows: seq<Row>, signals: seq<Signal>, s: Signal, date: string)
    requires RowsFit(sheet, rows)
  {
    s.date == date ==>
      && (forall i :: 0 <= i < |rows| && Names(s, rows[i], date) ==> sheet.owner(rows[i][METADATA]) == Owned(s.hash))
      && (forall t :: t in signals && t.date == date && t.id == s.id ==> t.hash == s.hash)
  }

  lemma ConsistentSnoc(sheet: Sheet, rows: seq<Row>, signals: seq<Signal>, s: Signal, date: string)
    requires RowsFit(sheet, rows)
    ensures Consistent(sheet, rows, signals + [s], date) <==>
            Consistent(sheet, rows, signals, date) && Agrees(sheet, rows, signals, s, date)
  {
    var all := signals + [s];
    assert forall t :: t in all <==> t in signals || t == s;
  }

  lemma UntouchedAgrees(sheet: Sheet, rows: seq<Row>, signals: seq<Signal>, s: Signal, date: string, k: nat)
    requires RowsFit(sheet, rows) && DistinctIds(rows) && k < |rows| && s.id != ""
    requires Names(s, rows[k], date) && Untouched(signals, rows[k], date)
    ensures sheet.owner(rows[k][METADATA]) == Owned(s.hash) <==> Agrees(sheet, rows, signals, s, date)
  {
    assert forall t :: t in signals && t.date == date && t.id == s.id ==> Names(t, rows[k], date);
  }

  lemma HeldAgrees(sheet: Sheet, rows: seq<Row>, signals: seq<Signal>, s: Signal, t: Signal, date: string)
    requires RowsFit(sheet, rows) && Consistent(sheet, rows, signals, date)
    requires t in signals && s.date == t.date == date && s.id == t.id
    ensures t.hash == s.hash <==> Agrees(sheet, rows, signals, s, date)
  {
    assert forall i :: 0 <= i < |rows| && Names(s, rows[i], date) ==> Names(t, rows[i], date);
  }

  /** The signal of today that an added or renewed row belongs to. */
  lemma Holder(sheet: Sheet, rows: seq<Row>, signals: seq<Signal>, date: string, placed: seq<Row>, k: nat)
    returns (t: Signal)
    requires RowsFit(sheet, rows) && RowsFit(sheet, placed) && SignalsFit(sheet, signals) && k < |placed|
    requires k < |rows| ==> KeptRow(sheet, signals, date, rows[k], placed[k])
                            && !(placed[k] == rows[k] && Untouched(signals, rows[k], date))
    requires k >= |rows| ==> AddedRow(sheet, rows, signals, date, placed[k])
    ensures t in signals && t.date == date && t.id == placed[k][ID]
    ensures sheet.owner(placed[k][METADATA]) == Owned(t.hash)
  {
    if k < |rows| {
      t :| t in signals && Names(t, rows[k], date) && sheet.owner(rows[k][METADATA]) == Owned(t.hash)
           && placed[k] == Preserved(sheet, TargetRow(sheet, t), rows[k]);
    } else {
      t :| t in signals && Names(t, placed[k], date) && placed[k] == TargetRow(sheet, t)
           && forall i :: 0 <= i < |rows| ==> rows[i][ID] != t.id;
    }
  }

  lemma FoundAgrees(sheet: Sheet, rows: seq<Row>, signals: seq<Signal>, s: Signal, date: string, placed: seq<Row>,
                    k: nat)
    requires RowsFit(sheet, rows) && RowsFit(sheet, placed) && DistinctIds(rows)
    requires SignalsFit(sheet, signals) && WellFormed(sheet, s) && Consistent(sheet, rows, signals, date)
    requires k < |placed| && Names(s, placed[k], date)
    requires k < |rows| ==> KeptRow(sheet, signals, date, rows[k], placed[k])
    requires k >= |rows| ==> AddedRow(sheet, rows, signals, date, placed[k])
    requires s.id != ""
    ensures sheet.owner(placed[k][METADATA]) == Owned(s.hash) <==> Agrees(sheet, rows, signals, s, date)
  {
    if k < |rows| && placed[k] == rows[k] && Untouched(signals, rows[k], date) {
      UntouchedAgrees(sheet, rows, signals, s, date, k);
    } else {
      var t := Holder(sheet, rows, signals, date, placed, k);
      HeldAgrees(sheet, rows, signals, s, t, date);
    }
  }

  lemma AbsentAgrees(sheet: Sheet, rows: seq<Row>, signals: seq<Signal>, s: Signal, date: string, placed: seq<Row>)
    requires RowsFit(sheet, rows) && RowsFit(sheet, placed) && SignalsFit(sheet, signals)
    requires Projects(sheet, rows, signals, date, placed)
    requires forall i :: 0 <= i < |placed| ==> placed[i][ID] != s.id
    ensures Agrees(sheet, rows, signals, s, date)
  {
    ProjectsKeepsIds(sheet, rows, signals, date, placed);
    assert forall i :: 0 <= i < |rows| ==> placed[i][ID] != s.id;
  }

  lemma PlaceFoundExactly(sheet: Sheet, rows: seq<Row>, signals: seq<Signal>, s: Signal, date: string, placed: seq<Row>)
    requires RowsFit(sheet, rows) && RowsFit(sheet, placed) && DistinctIds(rows)
    requires SignalsFit(sheet, signals) && WellFormed(sheet, s) && s.date == date
    requires Projects(sheet, rows, signals, date, placed) && Consistent(sheet, rows, signals, date)
    requires FindRow(placed, s.id).Some? && s.id != ""
    ensures sheet.owner(placed[FindRow(placed, s.id).value][METADATA]) == Owned(s.hash) <==>
            Agrees(sheet, rows, signals, s, date)
  {
    FoundAgrees(sheet, rows, signals, s, date, placed, FindRow(placed, s.id).value);
  }

  /** A signal is placed exactly when its target is usable and its row, if it has one, is its own. */
  lemma PlaceSucceeds(sheet: Sheet, placed: seq<Row>, s: Signal, date: string)
    requires RowsFit(sheet, placed) && WellFormed(sheet, s)
    ensures var found := FindRow(placed, s.id);
            Place(sheet, placed, s, date).Success? <==>
            TargetOf(sheet, s).Success?
            && (s.date == date && found.Some? ==> sheet.owner(placed[found.value][METADATA]) == Owned(s.hash))
  {
  }

  lemma PlaceExactly(sheet: Sheet, rows: seq<Row>, signals: seq<Signal>, s: Signal, date: string, placed: seq<Row>)
    requires RowsFit(sheet, rows) && RowsFit(sheet, placed) && DistinctIds(rows)
    requires SignalsFit(sheet, signals) && WellFormed(sheet, s)
    requires Projects(sheet, rows, signals, date, placed) && Consistent(sheet, rows, signals, date)
    ensures Place(sheet, placed, s, date).Success? <==>
            TargetOf(sheet, s).Success? && Agrees(sheet, rows, signals, s, date)
  {
    PlaceSucceeds(sheet, placed, s, date);
    if TargetOf(sheet, s).Success? && s.date == date {
      if FindRow(placed, s.id).Some? {
        PlaceFoundExactly(sheet, rows, signals, s, date, placed);
      } else {
        AbsentAgrees(sheet, rows, signals, s, date, placed);
      }
    }
  }

  /** A batch is refused exactly when a signal is unusable, meets a foreign row, or clashes with another. */
  lemma {:induction false} RefusedExactly(sheet: Sheet, rows: seq<Row>, signals: seq<Signal>, date: string)
    requires RowsFit(sheet, rows) && DistinctIds(rows) && SignalsFit(sheet, signals) && ContentBound(signals)
    ensures Project(sheet, rows, signals, date).Success? <==>
            (forall s :: s in signals ==> TargetOf(sheet, s).Success?) && Consistent(sheet, rows, signals, date)
  {
    if signals != [] {
      var n := |signals| - 1;
      var init, s := signals[..n], signals[n];
      assert signals == init + [s];
      RefusedExactly(sheet, rows, init, date);
      ProjectIsProjection(sheet, rows, init, date);
      ConsistentSnoc(sheet, rows, init, s, date);
      if Project(sheet, rows, init, date).Success? {
        PlaceExactly(sheet, rows, init, s, date, Project(sheet, rows, init, date).value);
      }
    }
  }

  // ---------------------------------------------------------------- as the source runs it

  /** The row indexes by id that the projection carries along: the last row of each id. */
  ghost predicate IndexesRows(byId: map<string, nat>, rows: seq<Row>)
    requires forall i :: 0 <= i < |rows| ==> |rows[i]| > 0
  {
    forall id :: id != "" ==> FindRow(rows, id) == if id in byId then Some(byId[id]) else None
  }

  lemma {:induction false} FindRowAfter(rows: seq<Row>, k: nat, row: Row, id: string)
    requires forall i :: 0 <= i < |rows| ==> |rows[i]| > 0
    requires k < |rows| && |row| > 0 && row[ID] == rows[k][ID]
    ensures FindRow(rows[k := row], id) == FindRow(rows, id)
  {
    if k < |rows| - 1 {
      assert rows[k := row][..|rows| - 1] == rows[..|rows| - 1][k := row];
      FindRowAfter(rows[..|rows| - 1], k, row, id);
    } else {
      assert rows[k := row][..|rows| - 1] == rows[..|rows| - 1];
    }
  }

  method IndexRows(rows: seq<Row>) returns (byId: map<string, nat>)
    requires forall i :: 0 <= i < |rows| ==> |rows[i]| > 0
    ensures IndexesRows(byId, rows)
  {
    byId := map[];
    for k: nat := 0 to |rows|
      invariant IndexesRows(byId, rows[..k])
    {
      assert rows[..k + 1][..k] == rows[..k];
      if rows[k][ID] != "" {
        byId := byId[rows[k][ID] := k];
      }
    }
    assert rows[..|rows|] == rows;
  }

  /** One signal, placed through the index of the rows by id. */
  method PlaceSignal(sheet: Sheet, rows: seq<Row>, byId: map<string, nat>, s: Signal, date: string)
    returns (r: Result<seq<Row>, Refusal>, index: map<string, nat>)
    requires RowsFit(sheet, rows) && WellFormed(sheet, s) && IndexesRows(byId, rows)
    ensures r == Place(sheet, rows, s, date)
    ensures r.Success? ==> IndexesRows(index, r.value)
  {
    index := byId;
    var target := TargetOf(sheet, s);
    if target.Failure? {
      return Failure(target.error), index;
    }
    if s.date != date {
      return Success(rows), index;
    }
    if s.id !in byId {
      index := byId[s.id := |rows|];
      ghost var longer := rows + [target.value];
      assert longer[..|longer| - 1] == rows;
      return Success(rows + [target.value]), index;
    }
    var k := byId[s.id];
    var existing := rows[k];
    match sheet.owner(existing[METADATA]) {
      case NotOwned =>
        return Failure(ForeignRow), index;
      case Owned(hash) =>
        if hash != s.hash {
          return Failure(HashMismatch), index;
        }
    }
    var preserved := Preserved(sheet, target.value, existing);
    forall id ensures FindRow(rows[k := preserved], id) == FindRow(rows, id) {
      FindRowAfter(rows, k, preserved, id);
    }
    return Success(rows[k := preserved]), index;
  }

  /** `project_signals`, signal by signal. */
  method ProjectSignals(sheet: Sheet, existing: seq<Row>, signals: seq<Signal>, date: string)
    returns (r: Result<seq<Row>, Refusal>)
    requires SignalsFit(sheet, signals)
    ensures r == Project(sheet, PadAll(sheet, existing), signals, date)
  {
    var rows := PadAll(sheet, existing);
    var output := rows;
    var byId := IndexRows(output);
    for k := 0 to |signals|
      invariant RowsFit(sheet, output) && IndexesRows(byId, output)
      invariant Project(sheet, rows, signals[..k], date) == Success(output)
    {
      assert signals[..k + 1][..k] == signals[..k];
      Failing(sheet, rows, signals, date, k + 1);
      r, byId := PlaceSignal(sheet, output, byId, signals[k], date);
      if r.Failure? {
        return;
      }
      output := r.value;
    }
    assert signals[..|signals|] == signals;
    r := Success(output);
  }

  /** Once refused, the batch stays refused. */
  lemma {:induction false} Failing(sheet: Sheet, rows: seq<Row>, signals: seq<Signal>, date: string, k: nat)
    requires RowsFit(sheet, rows) && SignalsFit(sheet, signals) && k <= |signals|
    ensures Project(sheet, rows, signals[..k], date).Failure? ==>
              Project(sheet, rows, signals, date) == Project(sheet, rows, signals[..k], date)
    decreases |signals| - k
  {
    if k < |signals| {
      assert signals[..k + 1][..k] == signals[..k];
      Failing(sheet, rows, signals, date, k + 1);
    } else {
      assert signals[..k] == signals;
    }
  }
}
