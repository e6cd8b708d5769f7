/**
 More about whole runs of sessions, restarts and crashes: what a suffix of the log tells, what becomes
 of a marked attempt, and what at-most-once means for the signal behind the attempts.
 */
module AttemptRuns {
  import opened Wrappers
  import opened AttemptRecovery

  // ---------------------------------------------------------------- the start comes first

  /** Written after the log, every row about an attempt comes after a start of it. */
  predicate Opens(log: seq<Event>, events: seq<Event>) {
    forall k :: 0 <= k < |events| && !events[k].Unrelated? && !IsStart(events[k]) ==>
      Started(log + events[..k], events[k].attempt)
  }

  /** Every row about the attempt comes after a start of it. */
  predicate Opened(log: seq<Event>, id: AttemptId) {
    forall j :: 0 <= j < |log| && Concerns(log[j], id) && !IsStart(log[j]) ==> Started(log[..j], id)
  }

  lemma {:induction false} OpenedStartsFirst(log: seq<Event>, id: AttemptId)
    requires Opened(log, id)
    ensures StartsFirst(log, id)
  {
    if log != [] {
      var n := |log| - 1;
      assert forall j :: 0 <= j < n ==> log[..n][..j] == log[..j];
      OpenedStartsFirst(log[..n], id);
      if Concerns(log[n], id) && !IsStart(log[n]) {
        var start :| start in log[..n] && IsStart(start) && start.attempt == id;
        assert start in Mine(log[..n], id);
      }
    }
  }

  lemma WriteOpened(log: seq<Event>, e: Event, id: AttemptId)
    requires Opened(log, id) && (Concerns(e, id) && !IsStart(e) ==> Started(log, id))
    ensures Opened(Write(log, e), id)
  {
    assert (log + [e])[..|log|] == log;
    assert forall j :: 0 <= j < |log| ==> (log + [e])[..j] == log[..j];
  }

  lemma {:induction false} StartsAreWritten(log: seq<Event>, events: seq<Event>, id: AttemptId)
    requires Started(log + events, id)
    ensures Started(WriteAll(log, events), id)
  {
    if events == [] {
      assert log + events == log;
    } else {
      var n := |events| - 1;
      var before := WriteAll(log, events[..n]);
      assert log + events == (log + events[..n]) + [events[n]];
      if Started(log + events[..n], id) {
        StartsAreWritten(log, events[..n], id);
        var start :| start in before && IsStart(start) && start.attempt == id;
        assert start in Write(before, events[n]);
      } else {
        NewStartIsWritten(before, events[n], id);
      }
    }
  }

  lemma NewStartIsWritten(log: seq<Event>, e: Event, id: AttemptId)
    ensures IsStart(e) && e.attempt == id ==> Started(Write(log, e), id)
  {
    if IsStart(e) && e.attempt == id && !Repeats(log, e) {
      assert e in Write(log, e);
    }
  }

  lemma {:induction false} WriteAllOpened(log: seq<Event>, events: seq<Event>, id: AttemptId)
    requires Opened(log, id) && Opens(log, events)
    ensures Opened(WriteAll(log, events), id)
  {
    if events != [] {
      var n := |events| - 1;
      assert forall k :: 0 <= k < n ==> events[..n][..k] == events[..k];
      WriteAllOpened(log, events[..n], id);
      if Concerns(events[n], id) && !IsStart(events[n]) {
        StartsAreWritten(log, events[..n], id);
      }
      WriteOpened(WriteAll(log, events[..n]), events[n], id);
    }
  }

  lemma StartedInMore(log: seq<Event>, more: seq<Event>, id: AttemptId)
    requires Started(log, id) && forall e :: e in log ==> e in more
    ensures Started(more, id)
  {
    var start :| start in log && IsStart(start) && start.attempt == id;
    assert start in more;
  }

  lemma OpensMore(log: seq<Event>, more: seq<Event>, events: seq<Event>)
    requires Opens(log, events) && forall e :: e in log ==> e in more
    ensures Opens(more, events)
  {
    forall k | 0 <= k < |events| && !events[k].Unrelated? && !IsStart(events[k])
      ensures Started(more + events[..k], events[k].attempt)
    {
      StartedInMore(log + events[..k], more + events[..k], events[k].attempt);
    }
  }

  // ---------------------------------------------------------------- a restart writes about started attempts

  /** The effect is about the pending attempt, and a replay emits what its environment says. */
  predicate About(e: Effect, p: Pending, env: Environment) {
    match e
    case Append(event) => !event.Unrelated? && event.attempt == p.id
    case Replay(id, emits) => id == p.id && emits == env.replayEmits(id)
  }

  predicate AllAbout(effects: seq<Effect>, pending: seq<Pending>, env: Environment) {
    forall e :: e in effects ==> exists p :: p in pending && About(e, p, env)
  }

  lemma {:induction false} CloseAllAbout(pending: seq<Pending>, env: Environment)
    ensures AllAbout(CloseAll(pending, env), pending, env)
  {
    if pending != [] {
      var n := |pending| - 1;
      CloseAllAbout(pending[..n], env);
      assert pending == pending[..n] + [pending[n]];
      assert forall e :: e in CloseFromLedger(pending[n], env) ==> About(e, pending[n], env);
    }
  }

  lemma OneRecoveryAbout(p: Pending, env: Environment)
    ensures forall e :: e in RecoverOrCensor(p, env) ==> About(e, p, env)
  {
    assert forall e :: e in MarkedReplay(p.id, env) ==> About(e, p, env);
  }

  lemma {:induction false} RecoverAllAbout(remaining: seq<Pending>, env: Environment)
    ensures AllAbout(RecoverAll(remaining, env), remaining, env)
  {
    if remaining != [] {
      var n := |remaining| - 1;
      RecoverAllAbout(remaining[..n], env);
      OneRecoveryAbout(remaining[n], env);
      assert remaining == remaining[..n] + [remaining[n]];
    }
  }

  lemma EffectsAbout(window: seq<Event>, env: Environment)
    ensures AllAbout(Effects(window, env), UnresolvedAttempts(window), env)
  {
    var pending := UnresolvedAttempts(window);
    CloseAllAbout(pending, env);
    RemainingFacts(pending, env);
    RecoverAllAbout(Remaining(pending, env), env);
  }

  lemma {:induction false} ApplyAllOpened(w: World, effects: seq<Effect>, id: AttemptId)
    requires Opened(w.log, id)
    requires forall e :: e in effects && e.Append? && Concerns(e.event, id) ==> Started(w.log, id)
    requires forall e :: e in effects && e.Replay? ==> Opens(w.log, e.emits)
    ensures Opened(ApplyAll(w, effects).log, id)
    ensures forall e :: e in w.log ==> e in ApplyAll(w, effects).log
  {
    if effects != [] {
      var n := |effects| - 1;
      assert effects == effects[..n] + [effects[n]];
      ApplyAllOpened(w, effects[..n], id);
      var before := ApplyAll(w, effects[..n]);
      ApplyOnlyAdds(before, effects[n]);
      match effects[n]
      case Append(event) =>
        if Concerns(event, id) {
          StartedInMore(w.log, before.log, id);
        }
        WriteOpened(before.log, event, id);
      case Replay(_, emits) =>
        OpensMore(w.log, before.log, emits);
        WriteAllOpened(before.log, emits, id);
    }
  }

  // ---------------------------------------------------------------- the suffix law over runs

  /** Sessions and replays write the start of an attempt before anything else about it. */
  ghost predicate Proper(w: World, e: Episode) {
    match e
    case Session(events) => Opens(w.log, events)
    case Restart(limit, env, budget) => forall id: AttemptId :: Opens(w.log, env.replayEmits(id))
  }

  ghost predicate ProperRun(w: World, episodes: seq<Episode>) {
    forall k :: 0 <= k < |episodes| ==> Proper(AfterAll(w, episodes[..k]), episodes[k])
  }

  lemma RestartOpened(w: World, limit: nat, env: Environment, budget: nat, id: AttemptId)
    requires Opened(w.log, id) && forall other: AttemptId :: Opens(w.log, env.replayEmits(other))
    ensures Opened(After(w, Restart(limit, env, budget)).log, id)
  {
    var window := Window(w.log, limit);
    var effects := Effects(window, env);
    var done := Take(effects, budget);
    EffectsAbout(window, env);
    PendingFacts(window);
    WindowSplits(w.log, limit);
    assert forall e :: e in done ==> e in effects;
    forall e | e in done && e.Append? && Concerns(e.event, id) ensures Started(w.log, id) {
      var p :| p in UnresolvedAttempts(window) && About(e, p, env);
      StartOrderFacts(window);
      StartedInMore(window, w.log, id);
    }
    ApplyAllOpened(w, done, id);
  }

  lemma {:induction false} RunOpened(w: World, episodes: seq<Episode>, id: AttemptId)
    requires Opened(w.log, id) && ProperRun(w, episodes)
    ensures Opened(AfterAll(w, episodes).log, id)
  {
    if episodes != [] {
      var n := |episodes| - 1;
      assert forall k :: 0 <= k < n ==> episodes[..n][..k] == episodes[..k];
      RunOpened(w, episodes[..n], id);
      var before := AfterAll(w, episodes[..n]);
      assert Proper(before, episodes[n]);
      match episodes[n]
      case Session(events) => WriteAllOpened(before.log, events, id);
      case Restart(limit, env, budget) => RestartOpened(before, limit, env, budget, id);
    }
  }

  /**
   In every log that sessions, restarts and crashes lead to, a suffix that holds the attempt's first
   start classifies the attempt as the whole log does.
   */
  lemma SuffixLaw(episodes: seq<Episode>, limit: nat, id: AttemptId)
    requires ProperRun(World([], []), episodes)
    requires !Started(Dropped(AfterAll(World([], []), episodes).log, limit), id)
    ensures var log := AfterAll(World([], []), episodes).log;
            && (id in StartOrder(Window(log, limit)) <==> id in StartOrder(log))
            && (Resolved(Window(log, limit), id) <==> Resolved(log, id))
            && (id in StartOrder(log) ==> PendingOf(Window(log, limit), id) == PendingOf(log, id))
  {
    var log := AfterAll(World([], []), episodes).log;
    RunOpened(World([], []), episodes, id);
    OpenedStartsFirst(log, id);
    SuffixClassifiesAlike(log, limit, id);
  }

  /** The order of writing is needed: an outcome written before the start is lost to the suffix. */
  lemma OutcomeBeforeStartIsLost(outcome: OutcomeKind, context: Context, id: AttemptId)
    ensures var log := [AttemptOutcome(id, outcome), AttemptStarted(id, context)];
            && !Started(Dropped(log, 1), id) && Resolved(log, id) && !Resolved(Window(log, 1), id)
  {
    var log := [AttemptOutcome(id, outcome), AttemptStarted(id, context)];
    assert log[0] in log;
    assert Window(log, 1) == [log[1]];
  }

  // ---------------------------------------------------------------- a marked attempt

  /** A marked attempt is always closed: by its plan, or by being censored. */
  lemma MarkedIsClosed(p: Pending, env: Environment)
    requires p.marked
    ensures !Deferred(p, env) && FirstWord(p, env).AttemptOutcome?
  {
  }

  /** A restart that is not cut short and still reads the start row resolves an attempt that was marked. */
  lemma RestartResolvesMarked(w: World, limit: nat, env: Environment, id: AttemptId)
    requires Lawful(w.log, id) && Marked(w.log, id) && HasStartRow(Window(w.log, limit), id)
    ensures Resolved(After(w, Restart(limit, env, |Effects(Window(w.log, limit), env)|)).log, id)
  {
    var window := Window(w.log, limit);
    var effects := Effects(window, env);
    WindowSplits(w.log, limit);
    StartRowShowsMarker(Dropped(w.log, limit), window, id);
    StartRowStarts(window, id);
    if Resolved(w.log, id) {
      ResolvedStays(w, effects, id);
    } else {
      assert forall e :: e in window ==> e in w.log;
      var outcome := MarkedIsClosedInWindow(window, env, id);
      WrittenStays(w, effects, outcome);
    }
  }

  lemma ResolvedStays(w: World, effects: seq<Effect>, id: AttemptId)
    requires Resolved(w.log, id)
    ensures Resolved(ApplyAll(w, effects).log, id)
  {
    var o :| o in w.log && o.AttemptOutcome? && o.attempt == id;
    WrittenStays(w, effects, o);
  }

  lemma MarkedIsClosedInWindow(window: seq<Event>, env: Environment, id: AttemptId) returns (outcome: Event)
    requires id in StartOrder(window) && Marked(window, id) && !Resolved(window, id)
    ensures Append(outcome) in Effects(window, env) && outcome.AttemptOutcome? && outcome.attempt == id
  {
    PendingFacts(window);
    var p := PendingOf(window, id);
    assert p in UnresolvedAttempts(window);
    MarkedIsClosed(p, env);
    FirstWordIsWritten(window, env, p);
    outcome := FirstWord(p, env);
  }

  lemma StartRowStarts(window: seq<Event>, id: AttemptId)
    requires HasStartRow(window, id)
    ensures id in StartOrder(window)
  {
    StartOrderFacts(window);
    var start :| start in window && IsStartRow(start, id);
    assert IsStart(start);
  }

  /**
   Two restarts that are not cut short resolve every attempt the first of them found and did not defer,
   if the second still reads its start row; anything may be written in between.
   */
  lemma SecondRestartResolves(w: World, limit: nat, env: Environment, p: Pending, between: seq<RuntimeEvent>,
                              again: nat, later: Environment)
    requires Lawful(w.log, p.id) && p in UnresolvedAttempts(Window(w.log, limit)) && !Deferred(p, env)
    requires var first := After(w, Restart(limit, env, |Effects(Window(w.log, limit), env)|));
             HasStartRow(Window(After(first, Session(between)).log, again), p.id)
    ensures var first := After(w, Restart(limit, env, |Effects(Window(w.log, limit), env)|));
            var second := After(first, Session(between));
            Resolved(After(second, Restart(again, later, |Effects(Window(second.log, again), later)|)).log, p.id)
  {
    var effects := Effects(Window(w.log, limit), env);
    var first := After(w, Restart(limit, env, |effects|));
    var second := After(first, Session(between));
    RestartSettles(w, limit, env, p);
    EffectsMarkStarted(w.log, limit, env, p.id);
    ApplyAllKeeps(w, effects, p.id);
    WriteAllKeeps(first.log, between, p.id);
    if Resolved(first.log, p.id) {
      var o :| o in first.log && o.AttemptOutcome? && o.attempt == p.id;
      assert o in second.log;
      ResolvedStays(second, Effects(Window(second.log, again), later), p.id);
    } else {
      RestartResolvesMarked(second, again, later, p.id);
    }
  }
}
