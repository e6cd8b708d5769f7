/**
 At-most-once by signal. An attempt id names a signal together with the plan and session it occurred
 in, so one signal can have several attempts: exactly how often the signal is then replayed.
 */
module AttemptSignals {
  import opened Wrappers
  import opened AttemptRecovery

  /** The signal behind an attempt. */
  type SignalOf = AttemptId -> nat

  /** How often a signal was replayed, under any of its attempts. */
  function SignalReplays(replays: seq<AttemptId>, signalOf: SignalOf, signal: nat): nat {
    if replays == [] then 0
    else
      var n := |replays| - 1;
      SignalReplays(replays[..n], signalOf, signal) + (if signalOf(replays[n]) == signal then 1 else 0)
  }

  /** The signal's attempts that were replayed. */
  function ReplayedAttempts(replays: seq<AttemptId>, signalOf: SignalOf, signal: nat): set<AttemptId> {
    set id | id in replays && signalOf(id) == signal
  }

  lemma {:induction false} DistinctReplays(replays: seq<AttemptId>, signalOf: SignalOf, signal: nat)
    requires forall id :: Times(replays, id) <= 1
    ensures SignalReplays(replays, signalOf, signal) == |ReplayedAttempts(replays, signalOf, signal)|
  {
    if replays != [] {
      var n := |replays| - 1;
      assert replays == replays[..n] + [replays[n]];
      assert forall id :: Times(replays, id) == Times(replays[..n], id) + (if id == replays[n] then 1 else 0);
      DistinctReplays(replays[..n], signalOf, signal);
      assert replays[n] !in replays[..n] by {
        assert Times(replays, replays[n]) <= 1;
      }
      var before := ReplayedAttempts(replays[..n], signalOf, signal);
      assert ReplayedAttempts(replays, signalOf, signal)
          == if signalOf(replays[n]) == signal then before + {replays[n]} else before;
    }
  }

  /** Over every run a signal is replayed exactly as often as it has different attempts that were replayed. */
  lemma SignalReplaysExactly(episodes: seq<Episode>, signalOf: SignalOf, signal: nat)
    ensures var replays := AfterAll(World([], []), episodes).replays;
            SignalReplays(replays, signalOf, signal) == |ReplayedAttempts(replays, signalOf, signal)|
  {
    var w := AfterAll(World([], []), episodes);
    forall id ensures Times(w.replays, id) <= 1 {
      EveryRunIsDisciplined(episodes, id);
    }
    DistinctReplays(w.replays, signalOf, signal);
  }

  /** The log has start rows of one attempt of the signal at most. */
  ghost predicate OneAttempt(log: seq<Event>, signalOf: SignalOf, signal: nat) {
    forall a, b :: HasStartRow(log, a) && HasStartRow(log, b) && signalOf(a) == signalOf(b) == signal ==> a == b
  }

  lemma ReplayedHasStartRow(w: World, id: AttemptId)
    requires Disciplined(w, id) && id in w.replays
    ensures HasStartRow(w.log, id)
  {
    assert Times(w.replays, id) >= 1;
    var j :| 0 <= j < |w.log| && w.log[j] == RecoveryMarker(id);
    var i := StartBefore(w.log, j, id);
    assert w.log[i] in w.log;
  }

  lemma SmallSet(ids: set<AttemptId>)
    ensures |ids| <= 1 <==> forall a, b :: a in ids && b in ids ==> a == b
  {
    if ids != {} {
      var a :| a in ids;
      var rest := ids - {a};
      assert |rest| == |ids| - 1;
      if rest != {} {
        var b :| b in rest;
        assert |rest| > 0;
      } else {
        assert ids == {a};
      }
    }
  }

  /** A signal that keeps one attempt, whatever the restarts, is replayed at most once. */
  lemma SignalAtMostOnce(episodes: seq<Episode>, signalOf: SignalOf, signal: nat)
    requires OneAttempt(AfterAll(World([], []), episodes).log, signalOf, signal)
    ensures SignalReplays(AfterAll(World([], []), episodes).replays, signalOf, signal) <= 1
  {
    var w := AfterAll(World([], []), episodes);
    var ids := ReplayedAttempts(w.replays, signalOf, signal);
    SignalReplaysExactly(episodes, signalOf, signal);
    forall a, b | a in ids && b in ids ensures a == b {
      EveryRunIsDisciplined(episodes, a);
      EveryRunIsDisciplined(episodes, b);
      ReplayedHasStartRow(w, a);
      ReplayedHasStartRow(w, b);
    }
    SmallSet(ids);
  }

  // ---------------------------------------------------------------- a signal under two attempts

  const CONTEXT := Context(0, Some(0), Some(100), Some(10), Long)

  const FIRST := AttemptStarted(0, CONTEXT)

  const SECOND := AttemptStarted(1, CONTEXT)

  /** The plan has changed: the replay of attempt 0 writes the signal as attempt 1. */
  const CHANGED_PLAN :=
    Environment(20, map[0 := true], Some({}), {}, id => NoFault, id => if id == 0 then [SECOND] else [], id => false)

  lemma StartTells(id: AttemptId, context: Context)
    ensures var log := [AttemptStarted(id, context)];
            StartOrder(log) == [id] && !Resolved(log, id) && PendingOf(log, id) == Pending(id, context, false, None)
  {
    var log := [AttemptStarted(id, context)];
    assert StartOrder(log[..0]) == [];
    assert ContextOf(log[..0], id) == None && LatestPlan(log[..0], id) == None;
  }

  lemma OneStart(id: AttemptId, context: Context)
    ensures UnresolvedAttempts([AttemptStarted(id, context)]) == [Pending(id, context, false, None)]
  {
    var log := [AttemptStarted(id, context)];
    StartTells(id, context);
    var ids := [id];
    assert ids[..0] == [];
    assert Unresolved(log, ids[..0]) == [];
    assert Unresolved(log, ids) == Unresolved(log, ids[..0]) + [PendingOf(log, id)];
  }

  lemma SinglePending(p: Pending, env: Environment)
    ensures CloseAll([p], env) == CloseFromLedger(p, env)
    ensures RecoverAll([p], env) == RecoverOrCensor(p, env)
    ensures Remaining([p], env) == if Remains(p, env) then [p] else []
  {
    var none := [p][..0];
    assert none == [];
    assert CloseAll(none, env) == [] && RecoverAll(none, env) == [] && Remaining(none, env) == [];
  }

  lemma FirstPending(p: Pending)
    requires p == Pending(0, CONTEXT, false, None)
    ensures Remains(p, CHANGED_PLAN) && RecoverOrCensor(p, CHANGED_PLAN) == MarkedReplay(0, CHANGED_PLAN)
  {
  }

  lemma FirstEffects()
    ensures Effects([FIRST], CHANGED_PLAN) == [Append(RecoveryMarker(0)), Replay(0, [SECOND])]
  {
    OneStart(0, CONTEXT);
    var p := Pending(0, CONTEXT, false, None);
    SinglePending(p, CHANGED_PLAN);
    FirstPending(p);
  }

  lemma TwoEffects(w: World, first: Effect, second: Effect)
    ensures ApplyAll(w, [first, second]) == Apply(Apply(w, first), second)
  {
    var all := [first, second];
    assert all[..1] == [first] && [first][..0] == [];
    assert ApplyAll(w, [first]) == Apply(w, first);
  }

  lemma MarkerIsNew(w: World)
    requires w == World([FIRST], [])
    ensures Apply(w, Append(RecoveryMarker(0))) == World([FIRST, RecoveryMarker(0)], [])
  {
  }

  lemma RestartOfTwo(w: World, env: Environment, first: Effect, second: Effect)
    requires Effects(Window(w.log, 9), env) == [first, second]
    ensures After(w, Restart(9, env, 2)) == Apply(Apply(w, first), second)
  {
    TwoEffects(w, first, second);
  }

  lemma ReplayIsNew(w: World)
    requires w == World([FIRST, RecoveryMarker(0)], [])
    ensures Apply(w, Replay(0, [SECOND])) == World([FIRST, RecoveryMarker(0), SECOND], [0])
  {
    SecondIsNew(w.log);
  }

  /** The first restart marks and replays attempt 0, which starts attempt 1, and dies. */
  lemma FirstRestart(w: World)
    requires w == World([FIRST], [])
    ensures After(w, Restart(9, CHANGED_PLAN, 2)) == World([FIRST, RecoveryMarker(0), SECOND], [0])
  {
    FirstEffects();
    MarkerIsNew(w);
    ReplayIsNew(Apply(w, Append(RecoveryMarker(0))));
    RestartOfTwo(w, CHANGED_PLAN, Append(RecoveryMarker(0)), Replay(0, [SECOND]));
  }

  lemma SecondIsNew(log: seq<Event>)
    requires log == [FIRST, RecoveryMarker(0)]
    ensures WriteAll(log, [SECOND]) == log + [SECOND]
  {
    assert [SECOND][..0] == [];
    assert !Repeats(log, SECOND);
  }

  lemma SecondPending(log: seq<Event>)
    requires log == [FIRST, RecoveryMarker(0), SECOND]
    ensures 1 in StartOrder(log) && !Resolved(log, 1) && PendingOf(log, 1) == Pending(1, CONTEXT, false, None)
  {
    StartOrderFacts(log);
    assert log[2] in log && IsStart(SECOND);
    assert Started(log, 1);
    assert log[..2] == [FIRST, RecoveryMarker(0)];
    NothingAboutSecond(log[..2]);
    assert ContextOf(log, 1) == Some(CONTEXT) && LatestPlan(log, 1) == LatestPlan(log[..2], 1);
  }

  lemma NothingAboutSecond(log: seq<Event>)
    requires log == [FIRST, RecoveryMarker(0)]
    ensures LatestPlan(log, 1) == None
  {
    assert log[..1] == [FIRST] && [FIRST][..0] == [];
    assert LatestPlan([FIRST], 1) == None;
  }

  lemma {:induction false} ReplaysAdd(w: World, effects: seq<Effect>)
    ensures ApplyAll(w, effects).replays == w.replays + Replayed(effects)
  {
    if effects != [] {
      ReplaysAdd(w, effects[..|effects| - 1]);
    }
  }

  /** A full restart replays an attempt once more exactly when it may be replayed. */
  lemma FullRestart(w: World, env: Environment, id: AttemptId)
    ensures var window := Window(w.log, 9);
            var after := After(w, Restart(9, env, |Effects(window, env)|));
            && Times(after.replays, id) == Times(w.replays, id) + (if HasReplay(Effects(window, env), id) then 1 else 0)
            && forall e :: e in w.log && e.RecoveryMarker? ==> Marked(after.log, e.attempt)
  {
    var effects := Effects(Window(w.log, 9), env);
    EffectsFacts(Window(w.log, 9), env);
    ReplaysAdd(w, effects);
    TimesReplayed(effects, id);
    assert multiset(w.replays + Replayed(effects)) == multiset(w.replays) + multiset(Replayed(effects));
    forall e | e in w.log && e.RecoveryMarker? ensures Marked(ApplyAll(w, effects).log, e.attempt) {
      WrittenStays(w, effects, e);
    }
  }

  lemma SecondMayBeReplayed(p: Pending)
    requires p == Pending(1, CONTEXT, false, None)
    ensures MayReplay(p, CHANGED_PLAN)
  {
  }

  /** The next restart leaves attempt 0 alone, and replays the signal a second time as attempt 1. */
  lemma ChangedPlanReplaysAgain()
    ensures var first := After(World([FIRST], []), Restart(9, CHANGED_PLAN, 2));
            var w := After(first, Restart(9, CHANGED_PLAN, |Effects(Window(first.log, 9), CHANGED_PLAN)|));
            Times(w.replays, 0) == 1 && Times(w.replays, 1) == 1
  {
    var first := After(World([FIRST], []), Restart(9, CHANGED_PLAN, 2));
    FirstRestart(World([FIRST], []));
    assert Window(first.log, 9) == first.log;
    SecondPending(first.log);
    SecondMayBeReplayed(PendingOf(first.log, 1));
    ReplayedExactly(first.log, CHANGED_PLAN, 1);
    ReplayedExactly(first.log, CHANGED_PLAN, 0);
    assert first.log[1] == RecoveryMarker(0);
    FullRestart(first, CHANGED_PLAN, 0);
    FullRestart(first, CHANGED_PLAN, 1);
  }
}
