/**
 What one complete restart makes of each attempt it finds unresolved, from the facts alone: which of
 them are closed and how, which wait, and which are replayed; and what those facts are in the log.
 */
module AttemptOutcomes {
  import opened Wrappers
  import opened AttemptRecovery
  import opened AttemptRuns

  // ---------------------------------------------------------------- the facts in the log

  /** The plan that counts is the last one persisted for the attempt. */
  lemma {:induction false} PlanIsTheLast(events: seq<Event>, id: AttemptId)
    ensures match LatestPlan(events, id)
            case None => forall approved :: TradePlan(id, approved) !in events
            case Some(approved) =>
              exists k :: 0 <= k < |events| && events[k] == TradePlan(id, approved)
                          && forall j :: k < j < |events| ==> !(events[j].TradePlan? && events[j].attempt == id)
  {
    if events != [] {
      var n := |events| - 1;
      assert events == events[..n] + [events[n]];
      PlanIsTheLast(events[..n], id);
      if !(events[n].TradePlan? && events[n].attempt == id) && LatestPlan(events[..n], id).Some? {
        var approved := LatestPlan(events[..n], id).value;
        var k :| 0 <= k < n && events[..n][k] == TradePlan(id, approved)
                 && forall j :: k < j < n ==> !(events[..n][j].TradePlan? && events[..n][j].attempt == id);
        assert events[k] == TradePlan(id, approved);
        assert forall j :: k < j < n ==> events[j] == events[..n][j];
      }
    }
  }

  predicate IsDecisionOf(e: Event, id: AttemptId) { e.SignalDecision? && e.attempt == id }

  /** The last start row of the attempt gives its context, whatever decision rows there are. */
  lemma {:induction false} ContextIsTheStartRows(events: seq<Event>, id: AttemptId, k: nat)
    requires k < |events| && IsStartRow(events[k], id)
    requires forall j :: k < j < |events| ==> !IsStartRow(events[j], id)
    ensures ContextOf(events, id) == Some(events[k].context)
  {
    var n := |events| - 1;
    if k < n {
      ContextIsTheStartRows(events[..n], id, k);
    }
  }

  /** Without a start row the first decision row does, and it knows no validity. */
  lemma {:induction false} ContextIsTheFirstDecisions(events: seq<Event>, id: AttemptId, k: nat)
    requires !HasStartRow(events, id)
    requires k < |events| && IsDecisionOf(events[k], id)
    requires forall j :: 0 <= j < k ==> !IsDecisionOf(events[j], id)
    ensures ContextOf(events, id) ==
            Some(Context(events[k].deployment, None, None, events[k].signalAt, events[k].direction))
  {
    var n := |events| - 1;
    assert events[n] in events && !IsStartRow(events[n], id);
    assert forall e :: e in events[..n] ==> e in events;
    if k < n {
      ContextIsTheFirstDecisions(events[..n], id, k);
    } else {
      assert forall e :: e in events[..n] ==> !(IsStart(e) && e.attempt == id) by {
        assert forall e :: e in events[..n] ==> exists j :: 0 <= j < n && events[j] == e;
      }
      assert !Started(events[..n], id);
      StartOrderFacts(events[..n]);
    }
  }

  /** Attempts are taken in the order in which they first started. */
  lemma {:induction false} OrderIsByFirstStart(events: seq<Event>, i: nat, j: nat) returns (k: nat)
    requires i < j < |StartOrder(events)|
    ensures k < |events| && Started(events[..k], StartOrder(events)[i]) && !Started(events[..k], StartOrder(events)[j])
  {
    var n := |events| - 1;
    var before := StartOrder(events[..n]);
    StartOrderFacts(events[..n]);
    if j < |before| {
      k := OrderIsByFirstStart(events[..n], i, j);
      assert events[..n][..k] == events[..k];
    } else {
      k := n;
      assert before[i] in before;
      assert StartOrder(events)[j] !in before;
    }
  }

  /** Both rows are the attempt's start row, its outcome, or its marker. */
  predicate SameRecord(prior: Event, e: Event) {
    match (prior, e)
    case (AttemptStarted(a, _), AttemptStarted(b, _)) => a == b
    case (AttemptOutcome(a, _), AttemptOutcome(b, _)) => a == b
    case (RecoveryMarker(a), RecoveryMarker(b)) => a == b
    case _ => false
  }

  /** A row is dropped exactly when its record is there, and decisions, plans and other rows never are. */
  lemma WriteExactly(log: seq<Event>, e: Event)
    ensures Write(log, e) == if exists prior :: prior in log && SameRecord(prior, e) then log else log + [e]
  {
  }

  // ---------------------------------------------------------------- what a restart owes an attempt

  /** Nothing but the time stands between the attempt and its replay. */
  predicate Replayable(p: Pending, env: Environment) {
    && p.plan.None? && !p.marked
    && p.context.deployment !in env.consumedRetries
    && p.context.deployment in env.deployments && env.deployments[p.context.deployment]
    && env.recentTrades.Some? && p.context.deployment !in env.recentTrades.value
    && p.context.validAfter.Some? && p.context.validThrough.Some?
  }

  /** Its validity has not begun. */
  predicate Waits(p: Pending, env: Environment) {
    Replayable(p, env) && env.now < p.context.validAfter.value
  }

  /** Its validity lasts, and its signal is at most a minute old. */
  predicate InTime(p: Pending, env: Environment) {
    && Replayable(p, env)
    && p.context.validAfter.value <= env.now <= p.context.validThrough.value
    && p.context.signalAt.Some? && env.now <= p.context.signalAt.value + 60
  }

  /** The row that closes an attempt. */
  function Closing(id: AttemptId, outcome: OutcomeKind): seq<Effect> { [Append(AttemptOutcome(id, outcome))] }

  /** Everything a restart does about one unresolved attempt. */
  function Owed(p: Pending, env: Environment): seq<Effect> {
    if p.plan == Some(true) then Closing(p.id, Execution)
    else if p.plan == Some(false) then Closing(p.id, Blocked)
    else if Waits(p, env) then []
    else if !InTime(p, env) || p.context.direction.MissingDirection? then Closing(p.id, InfrastructureCensored)
    else if p.context.direction.UnknownDirection? then Closing(p.id, FailureOutcome)
    else
      match env.markerFault(p.id)
      case RaisedBefore => Closing(p.id, FailureOutcome)
      case RaisedAfter => [Append(RecoveryMarker(p.id))] + Closing(p.id, FailureOutcome)
      case NoFault =>
        [Append(RecoveryMarker(p.id)), Replay(p.id, env.replayEmits(p.id))]
        + (if env.replayRaises(p.id) then Closing(p.id, FailureOutcome) else [])
  }

  predicate EffectOf(e: Effect, id: AttemptId) {
    match e
    case Append(event) => Concerns(event, id)
    case Replay(replayed, _) => replayed == id
  }

  /** The effects about one attempt, in order. */
  function Own(effects: seq<Effect>, id: AttemptId): seq<Effect> {
    if effects == [] then []
    else
      var n := |effects| - 1;
      Own(effects[..n], id) + (if EffectOf(effects[n], id) then [effects[n]] else [])
  }

  lemma {:induction false} OwnJoin(left: seq<Effect>, right: seq<Effect>, id: AttemptId)
    ensures Own(left + right, id) == Own(left, id) + Own(right, id)
  {
    if right == [] {
      assert left + right == left;
    } else {
      var n := |right| - 1;
      assert (left + right)[..|left + right| - 1] == left + right[..n];
      OwnJoin(left, right[..n], id);
    }
  }

  lemma {:induction false} OwnAll(effects: seq<Effect>, id: AttemptId)
    ensures (forall e :: e in effects ==> EffectOf(e, id)) ==> Own(effects, id) == effects
    ensures (forall e :: e in effects ==> !EffectOf(e, id)) ==> Own(effects, id) == []
  {
    if effects != [] {
      var n := |effects| - 1;
      assert effects == effects[..n] + [effects[n]];
      OwnAll(effects[..n], id);
    }
  }

  /** A group is about its own attempt alone. */
  lemma GroupIsOwn(group: seq<Effect>, p: Pending, env: Environment, id: AttemptId)
    requires forall e :: e in group ==> About(e, p, env)
    ensures Own(group, id) == if p.id == id then group else []
  {
    assert forall e :: e in group ==> (EffectOf(e, id) <==> p.id == id);
    OwnAll(group, id);
  }

  lemma CloseIsOwn(p: Pending, env: Environment, id: AttemptId)
    ensures Own(CloseFromLedger(p, env), id) == if p.id == id then CloseFromLedger(p, env) else []
  {
    assert forall e :: e in CloseFromLedger(p, env) ==> About(e, p, env);
    GroupIsOwn(CloseFromLedger(p, env), p, env, id);
  }

  lemma {:induction false} OwnClosed(pending: seq<Pending>, env: Environment, id: AttemptId)
    requires DistinctIds(pending)
    ensures forall p :: p in pending && p.id == id ==> Own(CloseAll(pending, env), id) == CloseFromLedger(p, env)
    ensures (forall p :: p in pending ==> p.id != id) ==> Own(CloseAll(pending, env), id) == []
  {
    if pending != [] {
      var n := |pending| - 1;
      assert pending == pending[..n] + [pending[n]];
      OwnClosed(pending[..n], env, id);
      CloseIsOwn(pending[n], env, id);
      OwnJoin(CloseAll(pending[..n], env), CloseFromLedger(pending[n], env), id);
    }
  }

  lemma {:induction false} OwnRecovered(remaining: seq<Pending>, env: Environment, id: AttemptId)
    requires DistinctIds(remaining)
    ensures forall p :: p in remaining && p.id == id ==> Own(RecoverAll(remaining, env), id) == RecoverOrCensor(p, env)
    ensures (forall p :: p in remaining ==> p.id != id) ==> Own(RecoverAll(remaining, env), id) == []
  {
    if remaining != [] {
      var n := |remaining| - 1;
      assert remaining == remaining[..n] + [remaining[n]];
      OwnRecovered(remaining[..n], env, id);
      OneRecoveryAbout(remaining[n], env);
      GroupIsOwn(RecoverOrCensor(remaining[n], env), remaining[n], env, id);
      OwnJoin(RecoverAll(remaining[..n], env), RecoverOrCensor(remaining[n], env), id);
    }
  }

  /** What an attempt is owed is its closure by the ledger, or failing that its recovery. */
  lemma OwedIsDone(p: Pending, env: Environment)
    ensures Owed(p, env) == if Remains(p, env) then RecoverOrCensor(p, env) else CloseFromLedger(p, env)
  {
  }

  /** A restart does for every attempt exactly what its facts call for, and nothing about any other. */
  lemma RestartDoesWhatIsOwed(window: seq<Event>, env: Environment, id: AttemptId)
    ensures Own(Effects(window, env), id) ==
            if id in StartOrder(window) && !Resolved(window, id) then Owed(PendingOf(window, id), env) else []
  {
    var pending := UnresolvedAttempts(window);
    var remaining := Remaining(pending, env);
    PendingFacts(window);
    RemainingFacts(pending, env);
    OwnJoin(CloseAll(pending, env), RecoverAll(remaining, env), id);
    OwnClosed(pending, env, id);
    OwnRecovered(remaining, env, id);
    if id in StartOrder(window) && !Resolved(window, id) {
      var p := PendingOf(window, id);
      assert p in pending && p.id == id;
      OwedIsDone(p, env);
      assert p in remaining <==> Remains(p, env);
    }
  }

  /** Only an attempt that waits for its validity is left for a later restart. */
  lemma DeferredExactly(p: Pending, env: Environment)
    ensures Deferred(p, env) <==> Waits(p, env)
  {
  }

  // ---------------------------------------------------------------- what a persisted plan becomes

  lemma {:induction false} ApplyAllJoin(w: World, left: seq<Effect>, right: seq<Effect>)
    ensures ApplyAll(w, left + right) == ApplyAll(ApplyAll(w, left), right)
  {
    if right == [] {
      assert left + right == left;
    } else {
      var n := |right| - 1;
      assert (left + right)[..|left + right| - 1] == left + right[..n];
      ApplyAllJoin(w, left, right[..n]);
    }
  }

  /** Closing rows write the first of them about an attempt that has none yet. */
  lemma {:induction false} ClosedAs(w: World, effects: seq<Effect>, row: Event)
    requires forall e :: e in effects ==> e.Append? && e.event.AttemptOutcome?
    requires row.AttemptOutcome? && !Resolved(w.log, row.attempt)
    ensures Own(effects, row.attempt) == [] ==> !Resolved(ApplyAll(w, effects).log, row.attempt)
    ensures Own(effects, row.attempt) == [Append(row)] ==> row in ApplyAll(w, effects).log
  {
    if effects != [] {
      var n := |effects| - 1;
      var before := ApplyAll(w, effects[..n]);
      assert effects == effects[..n] + [effects[n]];
      ClosedAs(w, effects[..n], row);
      assert effects[n] in effects;
      if EffectOf(effects[n], row.attempt) && Own(effects, row.attempt) == [Append(row)] {
        assert |Own(effects, row.attempt)| == |Own(effects[..n], row.attempt)| + 1;
        assert effects[n] == Own(effects, row.attempt)[0];
        assert Write(before.log, row) == before.log + [row];
      }
    }
  }

  /**
   After a complete restart an unresolved attempt with a persisted plan is closed by that plan: as an
   execution if it was approved, and as blocked if it was not.
   */
  lemma PlanDecidesOutcome(w: World, limit: nat, env: Environment, id: AttemptId)
    requires var window := Window(w.log, limit);
             id in StartOrder(window) && !Resolved(w.log, id) && LatestPlan(window, id).Some?
    ensures var window := Window(w.log, limit);
            var outcome := if LatestPlan(window, id).value then Execution else Blocked;
            AttemptOutcome(id, outcome) in After(w, Restart(limit, env, |Effects(window, env)|)).log
  {
    var window := Window(w.log, limit);
    var row := AttemptOutcome(id, if LatestPlan(window, id).value then Execution else Blocked);
    var pending := UnresolvedAttempts(window);
    var closing, rest := CloseAll(pending, env), RecoverAll(Remaining(pending, env), env);
    WindowSplits(w.log, limit);
    assert forall e :: e in window ==> e in w.log;
    PendingFacts(window);
    assert PendingOf(window, id) in pending;
    ClosingNeverReplays(pending, env);
    OwnClosed(pending, env, id);
    ClosedAs(w, closing, row);
    ApplyAllJoin(w, closing, rest);
    WrittenStays(ApplyAll(w, closing), rest, row);
  }

  // ---------------------------------------------------------------- an attempt that waits

  /** Nothing among the rows is about the attempt. */
  predicate Spares(events: seq<Event>, id: AttemptId) {
    forall e :: e in events ==> !Concerns(e, id)
  }

  lemma {:induction false} OthersLeaveItAlone(w: World, effects: seq<Effect>, id: AttemptId)
    requires Own(effects, id) == []
    requires forall e :: e in effects && e.Replay? ==> Spares(e.emits, id)
    ensures Mine(ApplyAll(w, effects).log, id) == Mine(w.log, id)
  {
    if effects != [] {
      var n := |effects| - 1;
      var before := ApplyAll(w, effects[..n]);
      assert effects == effects[..n] + [effects[n]];
      OthersLeaveItAlone(w, effects[..n], id);
      match effects[n]
      case Append(event) =>
        WriteLeavesItAlone(before.log, event, id);
      case Replay(_, emits) =>
        assert effects[n] in effects;
        WritesLeaveItAlone(before.log, emits, id);
    }
  }

  lemma WriteLeavesItAlone(log: seq<Event>, e: Event, id: AttemptId)
    requires !Concerns(e, id)
    ensures Mine(Write(log, e), id) == Mine(log, id)
  {
    MineAppend(log, [e], id);
    assert [e][..0] == [];
  }

  lemma {:induction false} WritesLeaveItAlone(log: seq<Event>, events: seq<Event>, id: AttemptId)
    requires Spares(events, id)
    ensures Mine(WriteAll(log, events), id) == Mine(log, id)
  {
    if events != [] {
      var n := |events| - 1;
      WritesLeaveItAlone(log, events[..n], id);
      WriteLeavesItAlone(WriteAll(log, events[..n]), events[n], id);
    }
  }

  lemma {:induction false} OwnOfPart(effects: seq<Effect>, k: nat, id: AttemptId)
    requires k <= |effects| && Own(effects, id) == []
    ensures Own(effects[..k], id) == []
  {
    if k < |effects| {
      var n := |effects| - 1;
      assert effects[..n][..k] == effects[..k];
      OwnOfPart(effects[..n], k, id);
    } else {
      assert effects[..k] == effects;
    }
  }

  lemma EmitsAreReplays(window: seq<Event>, env: Environment, e: Effect)
    requires e in Effects(window, env) && e.Replay?
    ensures e.emits == env.replayEmits(e.id)
  {
    EffectsAbout(window, env);
  }

  /**
   A restart leaves an attempt that waits for its validity, and one that it does not find unresolved,
   without any row of its own, however far it comes, unless a replay of another attempt writes one.
   */
  lemma WaitingIsUntouched(w: World, limit: nat, env: Environment, budget: nat, id: AttemptId)
    requires var window := Window(w.log, limit);
             id !in StartOrder(window) || Resolved(window, id) || Waits(PendingOf(window, id), env)
    requires forall other: AttemptId :: Spares(env.replayEmits(other), id)
    ensures Mine(After(w, Restart(limit, env, budget)).log, id) == Mine(w.log, id)
    ensures Times(After(w, Restart(limit, env, budget)).replays, id) == Times(w.replays, id)
  {
    var effects := Effects(Window(w.log, limit), env);
    RestartDoesWhatIsOwed(Window(w.log, limit), env, id);
    assert Own(effects, id) == [];
    forall e | e in effects && e.Replay? ensures Spares(e.emits, id) {
      EmitsAreReplays(Window(w.log, limit), env, e);
    }
    CutShortLeavesItAlone(w, effects, budget, id);
  }

  lemma CutShortLeavesItAlone(w: World, effects: seq<Effect>, budget: nat, id: AttemptId)
    requires Own(effects, id) == [] && forall e :: e in effects && e.Replay? ==> Spares(e.emits, id)
    ensures var after := ApplyAll(w, Take(effects, budget));
            Mine(after.log, id) == Mine(w.log, id) && Times(after.replays, id) == Times(w.replays, id)
  {
    var done := Take(effects, budget);
    assert done == effects[..|done|];
    OwnOfPart(effects, |done|, id);
    assert forall e :: e in done ==> e in effects;
    OthersLeaveItAlone(w, done, id);
    ReplaysElsewhere(w, done, id);
  }

  lemma {:induction false} ReplaysElsewhere(w: World, effects: seq<Effect>, id: AttemptId)
    requires Own(effects, id) == []
    ensures Times(ApplyAll(w, effects).replays, id) == Times(w.replays, id)
  {
    if effects != [] {
      ReplaysElsewhere(w, effects[..|effects| - 1], id);
    }
  }
}
