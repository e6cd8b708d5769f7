/**
 The compilation of sheet rows into an active plan, and the coverage summary that decides whether the
 plan may be released.
 */
module PlanCoverage {
  import opened Wrappers

  datatype Row = Row(id: string, enabled: bool)

  /** What compiling a row by itself comes to. A compiled row keeps its id and its enabled flag. */
  datatype Verdict = Compiled | Gated | Rejected

  type Compiler = Row -> Verdict

  datatype Deployment = Deployment(id: string, enabled: bool)

  datatype Cause = DuplicateId | PolicyGate | Invalid

  datatype Suppression = Suppression(id: Option<string>, cause: Cause)

  datatype Rows = Rows(deployments: seq<Deployment>, suppressed: seq<Suppression>)

  predicate Seen(rows: seq<Row>, id: string) { exists r :: r in rows && r.id == id }

  /** The row after the earlier ones: the first of its id is compiled, a later one is a duplicate. */
  function Treat(compile: Compiler, earlier: seq<Row>, row: Row, so: Rows): Rows {
    if Seen(earlier, row.id) then so.(suppressed := so.suppressed + [Suppression(Some(row.id), DuplicateId)])
    else
      match compile(row)
      case Compiled => so.(deployments := so.deployments + [Deployment(row.id, row.enabled)])
      case Gated => so.(suppressed := so.suppressed + [Suppression(Some(row.id), PolicyGate)])
      case Rejected => so.(suppressed := so.suppressed + [Suppression(Some(row.id), Invalid)])
  }

  function CompileRows(compile: Compiler, rows: seq<Row>, prior: seq<Suppression>): Rows {
    if rows == [] then Rows([], prior)
    else
      var n := |rows| - 1;
      Treat(compile, rows[..n], rows[n], CompileRows(compile, rows[..n], prior))
  }

  lemma SeenNext(rows: seq<Row>, k: nat)
    requires k < |rows|
    ensures forall id :: Seen(rows[..k + 1], id) <==> Seen(rows[..k], id) || id == rows[k].id
  {
    assert rows[..k + 1] == rows[..k] + [rows[k]];
    assert rows[k] in rows[..k + 1];
    assert forall r :: r in rows[..k] ==> r in rows[..k + 1];
  }

  lemma CompileNext(compile: Compiler, rows: seq<Row>, prior: seq<Suppression>, k: nat)
    requires k < |rows|
    ensures CompileRows(compile, rows[..k + 1], prior)
         == Treat(compile, rows[..k], rows[k], CompileRows(compile, rows[..k], prior))
  {
    assert rows[..k + 1][..k] == rows[..k];
  }

  method CompileRowsInOrder(compile: Compiler, rows: seq<Row>, prior: seq<Suppression>) returns (r: Rows)
    ensures r == CompileRows(compile, rows, prior)
  {
    var deployments: seq<Deployment> := [];
    var suppressed := prior;
    var seen: set<string> := {};
    for k := 0 to |rows|
      invariant Rows(deployments, suppressed) == CompileRows(compile, rows[..k], prior)
      invariant forall id :: id in seen <==> Seen(rows[..k], id)
    {
      var row := rows[k];
      SeenNext(rows, k);
      CompileNext(compile, rows, prior, k);
      if row.id in seen {
        suppressed := suppressed + [Suppression(Some(row.id), DuplicateId)];
        continue;
      }
      seen := seen + {row.id};
      match compile(row) {
        case Compiled => deployments := deployments + [Deployment(row.id, row.enabled)];
        case Gated => suppressed := suppressed + [Suppression(Some(row.id), PolicyGate)];
        case Rejected => suppressed := suppressed + [Suppression(Some(row.id), Invalid)];
      }
    }
    assert rows[..|rows|] == rows;
    r := Rows(deployments, suppressed);
  }

  // ---------------------------------------------------------------- every row is accounted for

  function RowIds(rows: seq<Row>): (ids: multiset<Option<string>>) {
    if rows == [] then multiset{} else RowIds(rows[..|rows| - 1]) + multiset{Some(rows[|rows| - 1].id)}
  }

  function DeploymentIds(deployments: seq<Deployment>): multiset<Option<string>> {
    if deployments == [] then multiset{}
    else DeploymentIds(deployments[..|deployments| - 1]) + multiset{Some(deployments[|deployments| - 1].id)}
  }

  function SuppressedIds(suppressed: seq<Suppression>): multiset<Option<string>> {
    if suppressed == [] then multiset{}
    else SuppressedIds(suppressed[..|suppressed| - 1]) + multiset{suppressed[|suppressed| - 1].id}
  }

  lemma TreatConserves(compile: Compiler, earlier: seq<Row>, row: Row, so: Rows)
    ensures var r := Treat(compile, earlier, row, so);
            && DeploymentIds(r.deployments) + SuppressedIds(r.suppressed)
               == DeploymentIds(so.deployments) + SuppressedIds(so.suppressed) + multiset{Some(row.id)}
            && |r.deployments| + |r.suppressed| == |so.deployments| + |so.suppressed| + 1
  {
    var r := Treat(compile, earlier, row, so);
    if r.deployments != so.deployments {
      assert r.deployments[..|r.deployments| - 1] == so.deployments;
    } else {
      assert r.suppressed[..|r.suppressed| - 1] == so.suppressed;
    }
  }

  /** Each row becomes exactly one deployment or one suppression, and nothing else appears. */
  lemma {:induction false} RowsAreConserved(compile: Compiler, rows: seq<Row>, prior: seq<Suppression>)
    ensures var r := CompileRows(compile, rows, prior);
            && DeploymentIds(r.deployments) + SuppressedIds(r.suppressed) == SuppressedIds(prior) + RowIds(rows)
            && |r.deployments| + |r.suppressed| == |prior| + |rows|
  {
    if rows != [] {
      var n := |rows| - 1;
      RowsAreConserved(compile, rows[..n], prior);
      TreatConserves(compile, rows[..n], rows[n], CompileRows(compile, rows[..n], prior));
    }
  }

  /** The row that decides what becomes of an id: the first that bears it. */
  function FirstRow(rows: seq<Row>, id: string): (first: Option<Row>)
    ensures first.Some? <==> Seen(rows, id)
    ensures first.Some? ==> first.value in rows && first.value.id == id
  {
    if rows == [] then None
    else
      var n := |rows| - 1;
      assert rows == rows[..n] + [rows[n]];
      var earlier := FirstRow(rows[..n], id);
      assert forall r :: r in rows[..n] ==> r in rows;
      if earlier.Some? then earlier
      else if rows[n].id == id then Some(rows[n])
      else None
  }

  predicate GatedIn(suppressed: seq<Suppression>, id: string) {
    Suppression(Some(id), PolicyGate) in suppressed
  }

  /** An id is deployed, gated or neither as its first row says. */
  lemma {:induction false} FirstRowDecides(compile: Compiler, rows: seq<Row>, prior: seq<Suppression>, id: string)
    ensures var r := CompileRows(compile, rows, prior);
            var first := FirstRow(rows, id);
            && (forall d :: d in r.deployments && d.id == id ==>
                  first.Some? && compile(first.value) == Compiled && d == Deployment(id, first.value.enabled))
            && (first.Some? && compile(first.value) == Compiled ==>
               Deployment(id, first.value.enabled) in r.deployments)
            && (GatedIn(r.suppressed, id) <==>
                GatedIn(prior, id) || (first.Some? && compile(first.value) == Gated))
  {
    if rows != [] {
      FirstRowDecides(compile, rows[..|rows| - 1], prior, id);
    }
  }

  // ---------------------------------------------------------------- the coverage summary

  datatype Coverage = Coverage(
    missing: set<string>,
    intentional: set<string>,
    unexpected: set<string>,
    gap: int,
    unexpectedLoss: nat,
    releaseSafe: bool)

  function IdSet(ids: seq<string>): set<string> { set id | id in ids }

  function Cover(expected: seq<string>, loaded: set<string>, gated: set<string>): Coverage {
    var missing := IdSet(expected) - loaded;
    var intentional := missing * gated;
    var unexpected := missing - intentional;
    var gap := |expected| - (|loaded| + |intentional| + |unexpected|);
    Coverage(missing, intentional, unexpected, gap,
             |unexpected| + (if gap < 0 then -gap else gap),
             unexpected == {} && gap == 0)
  }

  predicate PairwiseDistinct(ids: seq<string>) {
    forall i, j :: 0 <= i < j < |ids| ==> ids[i] != ids[j]
  }

  /** How many entries repeat an earlier one. */
  function Repeats(ids: seq<string>): nat {
    if ids == [] then 0
    else
      var n := |ids| - 1;
      Repeats(ids[..n]) + (if ids[n] in ids[..n] then 1 else 0)
  }

  lemma {:induction false} RepeatsAreTheSurplus(ids: seq<string>)
    ensures |IdSet(ids)| + Repeats(ids) == |ids|
    ensures Repeats(ids) == 0 <==> PairwiseDistinct(ids)
  {
    if ids != [] {
      var n := |ids| - 1;
      RepeatsAreTheSurplus(ids[..n]);
      assert ids == ids[..n] + [ids[n]];
      assert IdSet(ids) == IdSet(ids[..n]) + {ids[n]};
      DistinctSnoc(ids[..n], ids[n]);
    }
  }

  lemma DistinctSnoc(ids: seq<string>, id: string)
    ensures PairwiseDistinct(ids + [id]) <==> PairwiseDistinct(ids) && id !in ids
  {
    var all := ids + [id];
    if PairwiseDistinct(all) {
      forall k | 0 <= k < |ids| ensures ids[k] != id && all[k] == ids[k] {
        assert all[k] != all[|ids|];
      }
    }
  }

  /** The gap is what the expected ids count beyond the ids there are, expected or loaded. */
  lemma GapExactly(expected: seq<string>, loaded: set<string>, gated: set<string>)
    ensures Cover(expected, loaded, gated).gap == |expected| - |IdSet(expected) + loaded|
    ensures Cover(expected, loaded, gated).unexpected == {} <==>
              forall id :: id in expected ==> id in loaded || id in gated
  {
    var c := Cover(expected, loaded, gated);
    assert c.intentional + c.unexpected == c.missing;
    assert loaded + c.missing == IdSet(expected) + loaded;
    assert |loaded + c.missing| == |loaded| + |c.missing|;
    if c.unexpected == {} {
      forall id | id in expected ensures id in loaded || id in gated {
        assert id !in c.unexpected;
      }
    } else {
      var id :| id in c.unexpected;
      assert id in expected && id !in loaded && id !in gated;
    }
  }

  /** With nothing loaded that was not expected, the gap counts the repeated ids. */
  lemma GapCountsRepeats(expected: seq<string>, loaded: set<string>, gated: set<string>)
    requires loaded <= IdSet(expected)
    ensures Cover(expected, loaded, gated).gap == Repeats(expected)
  {
    GapExactly(expected, loaded, gated);
    RepeatsAreTheSurplus(expected);
    assert IdSet(expected) + loaded == IdSet(expected);
  }

  /** Then a plan is safe exactly when the expected ids are distinct and each is loaded or gated. */
  lemma ReleaseSafeExactly(expected: seq<string>, loaded: set<string>, gated: set<string>)
    requires loaded <= IdSet(expected)
    ensures Cover(expected, loaded, gated).releaseSafe <==>
            PairwiseDistinct(expected) && forall id :: id in expected ==> id in loaded || id in gated
  {
    GapExactly(expected, loaded, gated);
    GapCountsRepeats(expected, loaded, gated);
    RepeatsAreTheSurplus(expected);
  }

  /** Ids loaded unasked can hide repeated ones: a safe plan's ids are distinct only without them. */
  lemma SafePlansAreDistinctExactly(expected: seq<string>, loaded: set<string>, gated: set<string>)
    requires Cover(expected, loaded, gated).releaseSafe
    ensures PairwiseDistinct(expected) <==> loaded <= IdSet(expected)
  {
    GapExactly(expected, loaded, gated);
    RepeatsAreTheSurplus(expected);
    var unasked := loaded - IdSet(expected);
    assert IdSet(expected) + loaded == IdSet(expected) + unasked;
    assert |IdSet(expected) + unasked| == |IdSet(expected)| + |unasked|;
    if unasked == {} {
      forall id | id in loaded ensures id in IdSet(expected) {
        assert id !in unasked;
      }
    }
  }

  lemma UnaskedDeploymentHidesRepeat()
    ensures Cover(["a", "a"], {"a", "b"}, {}).releaseSafe && !PairwiseDistinct(["a", "a"])
  {
    GapExactly(["a", "a"], {"a", "b"}, {});
    assert IdSet(["a", "a"]) + {"a", "b"} == {"a", "b"};
    assert ["a", "a"][0] == ["a", "a"][1];
  }

  /** `require_release_safe_coverage`: the number of lost rows where the plan is refused. */
  function RequireReleaseSafe(coverage: Option<Coverage>): Result<(), nat> {
    if coverage.None? then Failure(0)
    else if !coverage.value.releaseSafe || coverage.value.unexpectedLoss != 0 then
      Failure(coverage.value.unexpectedLoss)
    else Success(())
  }

  /** The two tests of the gate agree on every summary that the compiler writes. */
  lemma GateAgrees(expected: seq<string>, loaded: set<string>, gated: set<string>)
    ensures var c := Cover(expected, loaded, gated);
            && (c.releaseSafe <==> c.unexpectedLoss == 0)
            && (RequireReleaseSafe(Some(c)).Success? <==> c.releaseSafe)
  {
    var lost := Cover(expected, loaded, gated).unexpected;
    assert |lost| == 0 <==> lost == {};
  }

  // ---------------------------------------------------------------- the whole compilation

  function EnabledIds(rows: seq<Row>): (ids: seq<string>)
    ensures forall id :: id in ids <==> exists r :: r in rows && r.enabled && r.id == id
  {
    if rows == [] then []
    else
      var n := |rows| - 1;
      assert rows == rows[..n] + [rows[n]];
      EnabledIds(rows[..n]) + (if rows[n].enabled then [rows[n].id] else [])
  }

  function LoadedIds(deployments: seq<Deployment>): set<string> {
    set d | d in deployments && d.enabled :: d.id
  }

  function GatedIds(suppressed: seq<Suppression>): set<string> {
    set s | s in suppressed && s.id.Some? && s.cause == PolicyGate :: s.id.value
  }

  function CoverageOf(r: Rows, expected: seq<string>): Coverage {
    Cover(expected, LoadedIds(r.deployments), GatedIds(r.suppressed))
  }

  lemma LoadedExactly(compile: Compiler, rows: seq<Row>, prior: seq<Suppression>, id: string)
    ensures var r := CompileRows(compile, rows, prior);
            var first := FirstRow(rows, id);
            && (id in LoadedIds(r.deployments) <==>
               first.Some? && first.value.enabled && compile(first.value) == Compiled)
            && (id in GatedIds(r.suppressed) <==> GatedIn(prior, id) || (first.Some? && compile(first.value) == Gated))
  {
    FirstRowDecides(compile, rows, prior, id);
    var r := CompileRows(compile, rows, prior);
    if id in GatedIds(r.suppressed) {
      var s :| s in r.suppressed && s.id.Some? && s.cause == PolicyGate && s.id.value == id;
      assert s == Suppression(Some(id), PolicyGate);
    }
  }

  /** The id's first row loads it or a gate suppresses it. */
  predicate LoadedOrGated(compile: Compiler, rows: seq<Row>, prior: seq<Suppression>, id: string) {
    var first := FirstRow(rows, id);
    || GatedIn(prior, id)
    || (first.Some? && (compile(first.value) == Gated || (first.value.enabled && compile(first.value) == Compiled)))
  }

  /**
   When every enabled row is expected, a plan is safe exactly when the expected ids are distinct and
   each is loaded by its first row or gated.
   */
  lemma ReleaseSafeRowByRow(compile: Compiler, rows: seq<Row>, prior: seq<Suppression>, expected: seq<string>)
    requires forall id :: id in EnabledIds(rows) ==> id in expected
    ensures CoverageOf(CompileRows(compile, rows, prior), expected).releaseSafe <==>
            PairwiseDistinct(expected) && forall id :: id in expected ==> LoadedOrGated(compile, rows, prior, id)
  {
    var r := CompileRows(compile, rows, prior);
    var loaded, gated := LoadedIds(r.deployments), GatedIds(r.suppressed);
    forall id | id in loaded ensures id in IdSet(expected) {
      LoadedExactly(compile, rows, prior, id);
      assert id in EnabledIds(rows);
    }
    ReleaseSafeExactly(expected, loaded, gated);
    forall id | id in expected
      ensures id in loaded || id in gated <==> LoadedOrGated(compile, rows, prior, id)
    {
      LoadedExactly(compile, rows, prior, id);
    }
  }

  predicate Expects(rows: seq<Row>, override: Option<seq<string>>) {
    override.None? || forall id :: id in EnabledIds(rows) ==> id in override.value
  }

  /**
   The whole compilation: every row is accounted for, and when all enabled rows are expected the plan
   passes the gate exactly when the expected ids are distinct and none of them was lost.
   */
  method CompilePlan(compile: Compiler, rows: seq<Row>, prior: seq<Suppression>, override: Option<seq<string>>)
    returns (r: Rows, coverage: Coverage)
    ensures r == CompileRows(compile, rows, prior)
    ensures |r.deployments| + |r.suppressed| == |prior| + |rows|
    ensures coverage == CoverageOf(r, if override.Some? then override.value else EnabledIds(rows))
    ensures Expects(rows, override) ==>
              var expected := if override.Some? then override.value else EnabledIds(rows);
              (RequireReleaseSafe(Some(coverage)).Success? <==>
               PairwiseDistinct(expected) && forall id :: id in expected ==> LoadedOrGated(compile, rows, prior, id))
  {
    r := CompileRowsInOrder(compile, rows, prior);
    var expected := if override.Some? then override.value else EnabledIds(rows);
    coverage := CoverageOf(r, expected);
    RowsAreConserved(compile, rows, prior);
    GateAgrees(expected, LoadedIds(r.deployments), GatedIds(r.suppressed));
    if Expects(rows, override) {
      ReleaseSafeRowByRow(compile, rows, prior, expected);
    }
  }
}
