/**
 Startup recovery of interrupted signal attempts from a durable, append-only log, over any number of
 restarts and crashes.
 */
module AttemptRecovery {
  import opened Wrappers

  type AttemptId = nat
  type DeploymentId = nat

  datatype Direction = MissingDirection | UnknownDirection | Long | Short

  /** The start facts of an attempt. Instants are whole seconds. */
  datatype Context = Context(
    deployment: DeploymentId,
    validAfter: Option<int>,
    validThrough: Option<int>,
    signalAt: Option<int>,
    direction: Direction)

  datatype OutcomeKind = Execution | Blocked | FailureOutcome | InfrastructureCensored

  /**
   The rows the recovery query selects. A decision row carries no validity. `Unrelated` stands for the
   selected rows that recovery does not read; rows of other types are not selected and not modelled.
   */
  datatype Event =
    | SignalDecision(attempt: AttemptId, deployment: DeploymentId, signalAt: Option<int>, direction: Direction)
    | AttemptStarted(attempt: AttemptId, context: Context)
    | AttemptOutcome(attempt: AttemptId, outcome: OutcomeKind)
    | RecoveryMarker(attempt: AttemptId)
    | TradePlan(attempt: AttemptId, approved: bool)
    | Unrelated

  /** What the rest of the runtime writes: only the recovery itself writes its markers. */
  type RuntimeEvent = e: Event | !e.RecoveryMarker? witness Unrelated

  predicate IsStart(e: Event) { e.SignalDecision? || e.AttemptStarted? }

  predicate Concerns(e: Event, id: AttemptId) { !e.Unrelated? && e.attempt == id }

  // ---------------------------------------------------------------- reading the log

  /** The events of one attempt, in order. */
  function Mine(events: seq<Event>, id: AttemptId): (mine: seq<Event>)
    ensures forall e :: e in mine ==> e in events && Concerns(e, id)
    ensures forall e :: e in events && Concerns(e, id) ==> e in mine
  {
    if events == [] then []
    else
      var n := |events| - 1;
      assert events == events[..n] + [events[n]];
      Mine(events[..n], id) + (if Concerns(events[n], id) then [events[n]] else [])
  }

  predicate Started(events: seq<Event>, id: AttemptId) {
    exists e :: e in events && IsStart(e) && e.attempt == id
  }

  predicate Resolved(events: seq<Event>, id: AttemptId) {
    exists e :: e in events && e.AttemptOutcome? && e.attempt == id
  }

  predicate Marked(events: seq<Event>, id: AttemptId) {
    RecoveryMarker(id) in events
  }

  /** The latest persisted plan of the attempt, as its approval. */
  function LatestPlan(events: seq<Event>, id: AttemptId): Option<bool> {
    if events == [] then None
    else
      var last := events[|events| - 1];
      if last.TradePlan? && last.attempt == id then Some(last.approved)
      else LatestPlan(events[..|events| - 1], id)
  }

  /** The last dedicated start row wins; before one, the first decision row counts. */
  function ContextOf(events: seq<Event>, id: AttemptId): Option<Context> {
    if events == [] then None
    else
      var before := ContextOf(events[..|events| - 1], id);
      match events[|events| - 1]
      case AttemptStarted(attempt, context) => if attempt == id then Some(context) else before
      case SignalDecision(attempt, deployment, signalAt, direction) =>
        if attempt == id && before.None? then Some(Context(deployment, None, None, signalAt, direction)) else before
      case _ => before
  }

  /** Attempt ids in the order of their first start. */
  function StartOrder(events: seq<Event>): seq<AttemptId> {
    if events == [] then []
    else
      var before := StartOrder(events[..|events| - 1]);
      var last := events[|events| - 1];
      if IsStart(last) && last.attempt !in before then before + [last.attempt] else before
  }

  datatype Pending = Pending(id: AttemptId, context: Context, marked: bool, plan: Option<bool>)

  lemma {:induction false} StartOrderFacts(events: seq<Event>)
    ensures forall id :: id in StartOrder(events) <==> Started(events, id)
    ensures forall id :: id in StartOrder(events) <==> ContextOf(events, id).Some?
    ensures forall i, j :: 0 <= i < j < |StartOrder(events)| ==> StartOrder(events)[i] != StartOrder(events)[j]
  {
    if events != [] {
      var n := |events| - 1;
      StartOrderFacts(events[..n]);
      assert events == events[..n] + [events[n]];
      forall id ensures id in StartOrder(events) <==> Started(events, id) {
        if Started(events, id) {
          var e :| e in events && IsStart(e) && e.attempt == id;
          assert e in events[..n] || e == events[n];
        }
        if id in StartOrder(events) && id !in StartOrder(events[..n]) {
          assert events[n] in events;
        }
      }
    }
  }

  function PendingOf(events: seq<Event>, id: AttemptId): Pending
    requires id in StartOrder(events)
  {
    StartOrderFacts(events);
    Pending(id, ContextOf(events, id).value, Marked(events, id), LatestPlan(events, id))
  }

  /** The started and unresolved attempts among `ids`, which are starts of `events`. */
  function Unresolved(events: seq<Event>, ids: seq<AttemptId>): seq<Pending>
    requires forall id :: id in ids ==> id in StartOrder(events)
  {
    if ids == [] then []
    else
      var n := |ids| - 1;
      Unresolved(events, ids[..n]) + (if Resolved(events, ids[n]) then [] else [PendingOf(events, ids[n])])
  }

  /** `unresolved_attempts`. */
  function UnresolvedAttempts(events: seq<Event>): seq<Pending> {
    Unresolved(events, StartOrder(events))
  }

  // ---------------------------------------------------------------- loading only a suffix

  function Dropped(log: seq<Event>, limit: nat): seq<Event> {
    if |log| <= limit then [] else log[..|log| - limit]
  }

  /** The newest `limit` events, oldest first. */
  function Window(log: seq<Event>, limit: nat): seq<Event> {
    if |log| <= limit then log else log[|log| - limit..]
  }

  lemma WindowSplits(log: seq<Event>, limit: nat)
    ensures log == Dropped(log, limit) + Window(log, limit)
  {
  }

  /** Nothing about the attempt was cut off. */
  predicate Covers(log: seq<Event>, limit: nat, id: AttemptId) {
    Mine(Dropped(log, limit), id) == []
  }

  /** The log tells of the attempt's start before anything else about it. */
  predicate StartsFirst(log: seq<Event>, id: AttemptId) {
    Mine(log, id) == [] || IsStart(Mine(log, id)[0])
  }

  lemma {:induction false} MineAppend(left: seq<Event>, right: seq<Event>, id: AttemptId)
    ensures Mine(left + right, id) == Mine(left, id) + Mine(right, id)
  {
    if right == [] {
      assert left + right == left;
    } else {
      var n := |right| - 1;
      assert (left + right)[..|left + right| - 1] == left + right[..n];
      MineAppend(left, right[..n], id);
    }
  }

  lemma HeadOfSum(left: seq<Event>, right: seq<Event>)
    ensures left != [] ==> left + right != [] && (left + right)[0] in left
  {
  }

  /** A suffix that still contains the attempt's first start has lost nothing about it. */
  lemma FirstStartCovers(log: seq<Event>, limit: nat, id: AttemptId)
    requires StartsFirst(log, id) && !Started(Dropped(log, limit), id)
    ensures Covers(log, limit, id)
  {
    WindowSplits(log, limit);
    MineAppend(Dropped(log, limit), Window(log, limit), id);
    HeadOfSum(Mine(Dropped(log, limit), id), Mine(Window(log, limit), id));
  }

  lemma {:induction false} PrefixIrrelevant(left: seq<Event>, right: seq<Event>, id: AttemptId)
    requires Mine(left, id) == []
    ensures Started(left + right, id) <==> Started(right, id)
    ensures Resolved(left + right, id) <==> Resolved(right, id)
    ensures Marked(left + right, id) <==> Marked(right, id)
    ensures LatestPlan(left + right, id) == LatestPlan(right, id)
    ensures ContextOf(left + right, id) == ContextOf(right, id)
  {
    assert forall e :: e in left + right <==> e in left || e in right;
    assert forall e :: e in left ==> !Concerns(e, id);
    if right == [] {
      assert left + right == left;
      UnconcernedLog(left, id);
    } else {
      var n := |right| - 1;
      assert (left + right)[..|left + right| - 1] == left + right[..n];
      PrefixIrrelevant(left, right[..n], id);
    }
  }

  lemma {:induction false} UnconcernedLog(events: seq<Event>, id: AttemptId)
    requires Mine(events, id) == []
    ensures LatestPlan(events, id) == None && ContextOf(events, id) == None
  {
    if events != [] {
      var n := |events| - 1;
      assert events[n] in events;
      assert Mine(events[..n], id) == [];
      UnconcernedLog(events[..n], id);
    }
  }

  /**
   Reading a suffix that contains the attempt's first start gives the whole log's classification:
   pending or not, recovery already attempted or not, and the same context and plan.
   */
  lemma SuffixClassifiesAlike(log: seq<Event>, limit: nat, id: AttemptId)
    requires StartsFirst(log, id) && !Started(Dropped(log, limit), id)
    ensures id in StartOrder(Window(log, limit)) <==> id in StartOrder(log)
    ensures Resolved(Window(log, limit), id) <==> Resolved(log, id)
    ensures id in StartOrder(log) ==> PendingOf(Window(log, limit), id) == PendingOf(log, id)
  {
    FirstStartCovers(log, limit, id);
    WindowSplits(log, limit);
    PrefixIrrelevant(Dropped(log, limit), Window(log, limit), id);
    StartOrderFacts(log);
    StartOrderFacts(Window(log, limit));
  }

  // ---------------------------------------------------------------- one restart

  const FRESHNESS_SECONDS := 60

  /** How writing the recovery marker may end: an exception may come before or after the row is there. */
  datatype MarkerFault = NoFault | RaisedBefore | RaisedAfter

  /** What a restart finds around the log. No recent trades means that reading them failed. */
  datatype Environment = Environment(
    now: int,
    deployments: map<DeploymentId, bool>,
    recentTrades: Option<set<DeploymentId>>,
    consumedRetries: set<DeploymentId>,
    markerFault: AttemptId -> MarkerFault,
    replayEmits: AttemptId -> seq<RuntimeEvent>,
    replayRaises: AttemptId -> bool)

  datatype Action = CensorAction | Defer | ReplayAction

  /** `recovery_action`, for a known deployment that is or is not shadow-only. */
  function RecoveryAction(p: Pending, now: int, shadowOnly: bool, hasExistingEntry: bool): Action {
    var c := p.context;
    if p.marked || !shadowOnly || hasExistingEntry then CensorAction
    else if c.validAfter.None? || c.validThrough.None? then CensorAction
    else if now < c.validAfter.value then Defer
    else if now > c.validThrough.value || c.signalAt.None? then CensorAction
    else if now - c.signalAt.value > FRESHNESS_SECONDS then CensorAction
    else ReplayAction
  }

  datatype Effect = Append(event: Event) | Replay(id: AttemptId, emits: seq<RuntimeEvent>)

  function Censor(id: AttemptId): seq<Effect> { [Append(AttemptOutcome(id, InfrastructureCensored))] }

  /** A persisted plan or a consumed retry closes an attempt before anything else is looked at. */
  function CloseFromLedger(p: Pending, env: Environment): seq<Effect> {
    if p.plan.Some? then [Append(AttemptOutcome(p.id, if p.plan.value then Execution else Blocked))]
    else if p.context.deployment in env.consumedRetries then Censor(p.id)
    else []
  }

  function ReplayFailed(id: AttemptId): Effect { Append(AttemptOutcome(id, FailureOutcome)) }

  /** The marker is written before the replay; an exception in either is recorded as the outcome. */
  function MarkedReplay(id: AttemptId, env: Environment): seq<Effect> {
    var marker := Append(RecoveryMarker(id));
    match env.markerFault(id)
    case RaisedBefore => [ReplayFailed(id)]
    case RaisedAfter => [marker, ReplayFailed(id)]
    case NoFault =>
      [marker, Replay(id, env.replayEmits(id))] + (if env.replayRaises(id) then [ReplayFailed(id)] else [])
  }

  function Recover(p: Pending, env: Environment): seq<Effect>
    requires env.recentTrades.Some?
  {
    var d := p.context.deployment;
    if d !in env.deployments then Censor(p.id)
    else
      match RecoveryAction(p, env.now, env.deployments[d], d in env.recentTrades.value)
      case Defer => []
      case CensorAction => Censor(p.id)
      case ReplayAction =>
        match p.context.direction
        case MissingDirection => Censor(p.id)
        case UnknownDirection => [Append(AttemptOutcome(p.id, FailureOutcome))]
        case _ => MarkedReplay(p.id, env)
  }

  predicate Remains(p: Pending, env: Environment) { CloseFromLedger(p, env) == [] }

  function Remaining(pending: seq<Pending>, env: Environment): seq<Pending> {
    if pending == [] then []
    else Remaining(pending[..|pending| - 1], env)
         + (if Remains(pending[|pending| - 1], env) then [pending[|pending| - 1]] else [])
  }

  function CloseAll(pending: seq<Pending>, env: Environment): seq<Effect> {
    if pending == [] then []
    else CloseAll(pending[..|pending| - 1], env) + CloseFromLedger(pending[|pending| - 1], env)
  }

  /** Without the recent trades no attempt may be replayed. */
  function RecoverOrCensor(p: Pending, env: Environment): seq<Effect> {
    if env.recentTrades.None? then Censor(p.id) else Recover(p, env)
  }

  function RecoverAll(remaining: seq<Pending>, env: Environment): seq<Effect> {
    if remaining == [] then []
    else RecoverAll(remaining[..|remaining| - 1], env) + RecoverOrCensor(remaining[|remaining| - 1], env)
  }

  /** Everything a restart would do if it ran to its end, in order. */
  function Effects(window: seq<Event>, env: Environment): seq<Effect> {
    var pending := UnresolvedAttempts(window);
    CloseAll(pending, env) + RecoverAll(Remaining(pending, env), env)
  }

  // ---------------------------------------------------------------- the world over restarts

  /** The durable log, and every replay that was ever started. */
  datatype World = World(log: seq<Event>, replays: seq<AttemptId>)

  predicate IsStartRow(e: Event, id: AttemptId) { e.AttemptStarted? && e.attempt == id }

  /** Start rows, markers and outcomes are idempotency records: the repository keeps one of each per attempt. */
  predicate Repeats(log: seq<Event>, e: Event) {
    match e
    case AttemptStarted(id, _) => exists prior :: prior in log && IsStartRow(prior, id)
    case AttemptOutcome(id, _) => Resolved(log, id)
    case RecoveryMarker(id) => Marked(log, id)
    case _ => false
  }

  function Write(log: seq<Event>, e: Event): seq<Event> {
    if Repeats(log, e) then log else log + [e]
  }

  function WriteAll(log: seq<Event>, events: seq<Event>): seq<Event> {
    if events == [] then log else Write(WriteAll(log, events[..|events| - 1]), events[|events| - 1])
  }

  function Apply(w: World, e: Effect): World {
    match e
    case Append(event) => w.(log := Write(w.log, event))
    case Replay(id, emits) => World(WriteAll(w.log, emits), w.replays + [id])
  }

  function ApplyAll(w: World, effects: seq<Effect>): World {
    if effects == [] then w
    else Apply(ApplyAll(w, effects[..|effects| - 1]), effects[|effects| - 1])
  }

  function Take(effects: seq<Effect>, budget: nat): seq<Effect> {
    if |effects| <= budget then effects else effects[..budget]
  }

  /** The process between restarts writes what it likes; a restart stops after `budget` effects. */
  datatype Episode =
    | Session(events: seq<RuntimeEvent>)
    | Restart(limit: nat, env: Environment, budget: nat)

  function After(w: World, e: Episode): World {
    match e
    case Session(events) => w.(log := WriteAll(w.log, events))
    case Restart(limit, env, budget) => ApplyAll(w, Take(Effects(Window(w.log, limit), env), budget))
  }

  function AfterAll(w: World, episodes: seq<Episode>): World {
    if episodes == [] then w
    else After(AfterAll(w, episodes[..|episodes| - 1]), episodes[|episodes| - 1])
  }
  // ---------------------------------------------------------------- what a restart does

  function Replayed(effects: seq<Effect>): seq<AttemptId> {
    if effects == [] then []
    else
      var last := effects[|effects| - 1];
      Replayed(effects[..|effects| - 1]) + (if last.Replay? then [last.id] else [])
  }

  /** Every replay comes straight after its own marker. */
  predicate MarkerBeforeReplay(effects: seq<Effect>) {
    forall k :: 0 <= k < |effects| && effects[k].Replay? ==>
      k > 0 && effects[k - 1] == Append(RecoveryMarker(effects[k].id))
  }

  /** No attempt is replayed at two places. */
  predicate ReplaysOnce(effects: seq<Effect>) {
    forall j, k :: 0 <= j < k < |effects| && effects[j].Replay? && effects[k].Replay? ==> effects[j].id != effects[k].id
  }

  predicate HasReplay(effects: seq<Effect>, id: AttemptId) {
    exists e :: e in effects && e.Replay? && e.id == id
  }

  /** When an unresolved attempt is replayed: the promise of the recovery, stated of the facts it reads. */
  predicate MayReplay(p: Pending, env: Environment) {
    var c := p.context;
    && !p.marked && p.plan.None?
    && c.deployment !in env.consumedRetries
    && env.recentTrades.Some? && c.deployment !in env.recentTrades.value
    && c.deployment in env.deployments && env.deployments[c.deployment]
    && c.validAfter.Some? && c.validThrough.Some? && c.validAfter.value <= env.now <= c.validThrough.value
    && c.signalAt.Some? && env.now <= c.signalAt.value + FRESHNESS_SECONDS
    && (c.direction.Long? || c.direction.Short?)
    && env.markerFault(p.id).NoFault?
  }

  predicate DistinctIds(pending: seq<Pending>) {
    forall i, j :: 0 <= i < j < |pending| ==> pending[i].id != pending[j].id
  }

  lemma {:induction false} UnresolvedFacts(events: seq<Event>, ids: seq<AttemptId>)
    requires forall id :: id in ids ==> id in StartOrder(events)
    requires forall i, j :: 0 <= i < j < |ids| ==> ids[i] != ids[j]
    ensures DistinctIds(Unresolved(events, ids))
    ensures forall p :: p in Unresolved(events, ids) <==>
                        p.id in ids && !Resolved(events, p.id) && p == PendingOf(events, p.id)
  {
    if ids != [] {
      var n := |ids| - 1;
      UnresolvedFacts(events, ids[..n]);
      assert ids == ids[..n] + [ids[n]];
      var init := Unresolved(events, ids[..n]);
      assert forall k :: 0 <= k < |init| ==> init[k] in init && init[k].id in ids[..n];
      assert ids[n] !in ids[..n];
    }
  }

  lemma PendingFacts(events: seq<Event>)
    ensures DistinctIds(UnresolvedAttempts(events))
    ensures forall p :: p in UnresolvedAttempts(events) <==>
                        p.id in StartOrder(events) && !Resolved(events, p.id) && p == PendingOf(events, p.id)
  {
    StartOrderFacts(events);
    UnresolvedFacts(events, StartOrder(events));
  }

  lemma {:induction false} RemainingFacts(pending: seq<Pending>, env: Environment)
    ensures forall p :: p in Remaining(pending, env) <==> p in pending && Remains(p, env)
    ensures DistinctIds(pending) ==> DistinctIds(Remaining(pending, env))
  {
    if pending != [] {
      var n := |pending| - 1;
      RemainingFacts(pending[..n], env);
      assert pending == pending[..n] + [pending[n]];
      var before := Remaining(pending[..n], env);
      assert forall k :: 0 <= k < |before| ==> before[k] in before && before[k] in pending[..n];
    }
  }

  lemma {:induction false} ClosingNeverReplays(pending: seq<Pending>, env: Environment)
    ensures forall e :: e in CloseAll(pending, env) ==> e.Append? && e.event.AttemptOutcome?
  {
    if pending != [] {
      ClosingNeverReplays(pending[..|pending| - 1], env);
    }
  }

  lemma AppendsAreDisciplined(effects: seq<Effect>)
    requires forall e :: e in effects ==> e.Append?
    ensures MarkerBeforeReplay(effects) && ReplaysOnce(effects)
  {
    assert forall k :: 0 <= k < |effects| ==> effects[k] in effects;
  }

  predicate MarksAttempt(e: Effect) { e.Append? && e.event.RecoveryMarker? }

  lemma OneRecovery(p: Pending, env: Environment)
    requires Remains(p, env)
    ensures HasReplay(RecoverOrCensor(p, env), p.id) <==> MayReplay(p, env)
    ensures forall e :: e in RecoverOrCensor(p, env) && e.Replay? ==> e.id == p.id
    ensures forall e :: e in RecoverOrCensor(p, env) && MarksAttempt(e) ==>
                          e.event.attempt == p.id && p.context.validAfter.Some?
    ensures MarkerBeforeReplay(RecoverOrCensor(p, env)) && ReplaysOnce(RecoverOrCensor(p, env))
  {
    var group := RecoverOrCensor(p, env);
    if MayReplay(p, env) {
      assert group[1] == Replay(p.id, env.replayEmits(p.id));
    }
  }

  lemma {:induction false} RecoveryFacts(remaining: seq<Pending>, env: Environment)
    requires DistinctIds(remaining) && forall p :: p in remaining ==> Remains(p, env)
    ensures forall e :: e in RecoverAll(remaining, env) && e.Replay? ==>
                        exists p :: p in remaining && p.id == e.id && MayReplay(p, env)
    ensures forall e :: e in RecoverAll(remaining, env) && MarksAttempt(e) ==>
                        exists p :: p in remaining && p.id == e.event.attempt && p.context.validAfter.Some?
    ensures forall p :: p in remaining && MayReplay(p, env) ==> HasReplay(RecoverAll(remaining, env), p.id)
    ensures MarkerBeforeReplay(RecoverAll(remaining, env)) && ReplaysOnce(RecoverAll(remaining, env))
  {
    if remaining != [] {
      var n := |remaining| - 1;
      var before, p := RecoverAll(remaining[..n], env), remaining[n];
      var group := RecoverOrCensor(p, env);
      RecoveryFacts(remaining[..n], env);
      OneRecovery(p, env);
      assert remaining == remaining[..n] + [p];
      JoinGroups(before, group);
      forall q | q in remaining && MayReplay(q, env) ensures HasReplay(before + group, q.id) {
        if q == p {
          var e :| e in group && e.Replay? && e.id == q.id;
          assert e in before + group;
        } else {
          var e :| e in before && e.Replay? && e.id == q.id;
          assert e in before + group;
        }
      }
    }
  }

  lemma JoinGroups(before: seq<Effect>, group: seq<Effect>)
    requires MarkerBeforeReplay(before) && MarkerBeforeReplay(group)
    requires ReplaysOnce(before) && ReplaysOnce(group)
    requires forall e, f :: e in before && f in group && e.Replay? && f.Replay? ==> e.id != f.id
    ensures MarkerBeforeReplay(before + group) && ReplaysOnce(before + group)
  {
  }

  lemma EffectsFacts(window: seq<Event>, env: Environment)
    ensures MarkerBeforeReplay(Effects(window, env)) && ReplaysOnce(Effects(window, env))
    ensures forall e :: e in Effects(window, env) && e.Replay? ==>
                        exists p :: p in UnresolvedAttempts(window) && p.id == e.id && MayReplay(p, env)
    ensures forall e :: e in Effects(window, env) && MarksAttempt(e) ==>
                        exists p :: p in UnresolvedAttempts(window) && p.id == e.event.attempt &&
                          p.context.validAfter.Some?
    ensures forall p :: p in UnresolvedAttempts(window) && MayReplay(p, env) ==> HasReplay(Effects(window, env), p.id)
  {
    var pending := UnresolvedAttempts(window);
    var remaining := Remaining(pending, env);
    PendingFacts(window);
    RemainingFacts(pending, env);
    ClosingNeverReplays(pending, env);
    RecoveryFacts(remaining, env);
    AppendsAreDisciplined(CloseAll(pending, env));
    JoinGroups(CloseAll(pending, env), RecoverAll(remaining, env));
    forall p | p in pending && MayReplay(p, env) ensures HasReplay(Effects(window, env), p.id) {
      assert p in remaining;
      var e :| e in RecoverAll(remaining, env) && e.Replay? && e.id == p.id;
      assert e in Effects(window, env);
    }
  }

  /** A restart replays an attempt exactly when it is started, unresolved, and may be replayed. */
  lemma ReplayedExactly(window: seq<Event>, env: Environment, id: AttemptId)
    ensures HasReplay(Effects(window, env), id) <==>
            id in StartOrder(window) && !Resolved(window, id) && MayReplay(PendingOf(window, id), env)
  {
    EffectsFacts(window, env);
    PendingFacts(window);
    if id in StartOrder(window) && !Resolved(window, id) && MayReplay(PendingOf(window, id), env) {
      assert PendingOf(window, id) in UnresolvedAttempts(window);
    }
  }

  // ---------------------------------------------------------------- the log over any run

  /** What the repository and the recovery keep of an attempt's rows. */
  predicate Lawful(log: seq<Event>, id: AttemptId) {
    && (forall i, j :: 0 <= i < j < |log| && IsStartRow(log[i], id) ==> !IsStartRow(log[j], id))
    && (forall i, j :: 0 <= i < j < |log| && IsOutcomeOf(log[i], id) ==> !IsOutcomeOf(log[j], id))
    && MarkersFollow(log, id)
  }

  predicate IsOutcomeOf(e: Event, id: AttemptId) { e.AttemptOutcome? && e.attempt == id }

  predicate HasStartRow(log: seq<Event>, id: AttemptId) { exists e :: e in log && IsStartRow(e, id) }

  /** A marker comes after the attempt's start row. */
  predicate MarkersFollow(log: seq<Event>, id: AttemptId) {
    forall j :: 0 <= j < |log| && log[j] == RecoveryMarker(id) ==> HasStartRow(log[..j], id)
  }

  lemma MarkersFollowOn(log: seq<Event>, e: Event, id: AttemptId)
    requires MarkersFollow(log, id) && (e == RecoveryMarker(id) ==> HasStartRow(log, id))
    ensures MarkersFollow(log + [e], id)
  {
    assert (log + [e])[..|log|] == log;
    forall j | 0 <= j < |log| && log[j] == RecoveryMarker(id) ensures HasStartRow((log + [e])[..j], id) {
      assert (log + [e])[..j] == log[..j];
    }
  }

  lemma WriteKeeps(log: seq<Event>, e: Event, id: AttemptId)
    requires Lawful(log, id) && (e == RecoveryMarker(id) ==> HasStartRow(log, id))
    ensures Lawful(Write(log, e), id)
    ensures forall prior :: prior in log ==> prior in Write(log, e)
  {
    MarkersFollowOn(log, e, id);
    assert forall i :: 0 <= i < |log| ==> log[i] in log;
  }

  lemma {:induction false} WriteAllKeeps(log: seq<Event>, events: seq<RuntimeEvent>, id: AttemptId)
    requires Lawful(log, id)
    ensures Lawful(WriteAll(log, events), id)
    ensures forall prior :: prior in log ==> prior in WriteAll(log, events)
  {
    if events != [] {
      var n := |events| - 1;
      WriteAllKeeps(log, events[..n], id);
      WriteKeeps(WriteAll(log, events[..n]), events[n], id);
    }
  }

  /** Only attempts with a start row in the log are marked. */
  predicate MarksStarted(effects: seq<Effect>, log: seq<Event>, id: AttemptId) {
    Append(RecoveryMarker(id)) in effects ==> HasStartRow(log, id)
  }

  lemma {:induction false} ApplyAllKeeps(w: World, effects: seq<Effect>, id: AttemptId)
    requires Lawful(w.log, id) && MarksStarted(effects, w.log, id)
    ensures Lawful(ApplyAll(w, effects).log, id)
    ensures forall prior :: prior in w.log ==> prior in ApplyAll(w, effects).log
    ensures ApplyAll(w, effects).replays == w.replays + Replayed(effects)
    ensures Append(RecoveryMarker(id)) in effects ==> Marked(ApplyAll(w, effects).log, id)
  {
    if effects != [] {
      var n := |effects| - 1;
      assert effects == effects[..n] + [effects[n]];
      ApplyAllKeeps(w, effects[..n], id);
      var before := ApplyAll(w, effects[..n]);
      match effects[n]
      case Append(event) =>
        WriteKeeps(before.log, event, id);
      case Replay(_, emits) => WriteAllKeeps(before.log, emits, id);
    }
  }

  // ---------------------------------------------------------------- at most once

  /** How often an attempt was replayed. */
  function Times(ids: seq<AttemptId>, id: AttemptId): nat { multiset(ids)[id] }

  lemma HasReplaySnoc(before: seq<Effect>, last: Effect, id: AttemptId)
    ensures HasReplay(before + [last], id) <==> HasReplay(before, id) || (last.Replay? && last.id == id)
  {
    var all := before + [last];
    assert forall e :: e in all <==> e in before || e == last;
    if HasReplay(before, id) {
      var e :| e in before && e.Replay? && e.id == id;
      assert e in all;
    }
  }

  lemma LaterReplayIsNew(effects: seq<Effect>, n: nat)
    requires ReplaysOnce(effects) && n < |effects| && effects[n].Replay?
    ensures !HasReplay(effects[..n], effects[n].id)
  {
    forall e | e in effects[..n] && e.Replay? ensures e.id != effects[n].id {
      var j :| 0 <= j < n && effects[j] == e;
    }
  }

  lemma {:induction false} TimesReplayed(effects: seq<Effect>, id: AttemptId)
    requires ReplaysOnce(effects)
    ensures Times(Replayed(effects), id) == if HasReplay(effects, id) then 1 else 0
  {
    if effects != [] {
      var n := |effects| - 1;
      TimesReplayed(effects[..n], id);
      assert effects == effects[..n] + [effects[n]];
      HasReplaySnoc(effects[..n], effects[n], id);
      if effects[n].Replay? {
        LaterReplayIsNew(effects, n);
      }
    }
  }

  /** The durable discipline: a lawful log, at most one replay, and none without its marker. */
  predicate Disciplined(w: World, id: AttemptId) {
    Lawful(w.log, id) && Times(w.replays, id) <= 1 && (Times(w.replays, id) == 1 ==> Marked(w.log, id))
  }

  /** Only a start row gives an attempt its validity. */
  lemma {:induction false} ValidityComesFromStartRow(events: seq<Event>, id: AttemptId)
    requires ContextOf(events, id).Some? && ContextOf(events, id).value.validAfter.Some?
    ensures HasStartRow(events, id)
  {
    var n := |events| - 1;
    assert events == events[..n] + [events[n]];
    if !IsStartRow(events[n], id) {
      ValidityComesFromStartRow(events[..n], id);
    }
  }

  lemma PendingValidity(window: seq<Event>, id: AttemptId)
    requires id in StartOrder(window) && PendingOf(window, id).context.validAfter.Some?
    ensures HasStartRow(window, id)
  {
    StartOrderFacts(window);
    ValidityComesFromStartRow(window, id);
  }

  lemma StartBefore(log: seq<Event>, j: nat, id: AttemptId) returns (i: nat)
    requires MarkersFollow(log, id) && j < |log| && log[j] == RecoveryMarker(id)
    ensures i < j && IsStartRow(log[i], id)
  {
    assert HasStartRow(log[..j], id);
    var start :| start in log[..j] && IsStartRow(start, id);
    i :| 0 <= i < j && log[..j][i] == start;
  }

  lemma OneStartRow(log: seq<Event>, i: nat, k: nat, id: AttemptId)
    requires Lawful(log, id) && i < |log| && k < |log| && IsStartRow(log[i], id) && IsStartRow(log[k], id)
    ensures i == k
  {
  }

  /** A suffix that shows the one start row also shows the marker, which came after it. */
  lemma StartRowShowsMarker(lost: seq<Event>, shown: seq<Event>, id: AttemptId)
    requires Lawful(lost + shown, id) && Marked(lost + shown, id) && HasStartRow(shown, id)
    ensures Marked(shown, id)
  {
    var j :| 0 <= j < |lost + shown| && (lost + shown)[j] == RecoveryMarker(id);
    var i := StartBefore(lost + shown, j, id);
    var start :| start in shown && IsStartRow(start, id);
    var k :| 0 <= k < |shown| && shown[k] == start;
    OneStartRow(lost + shown, i, |lost| + k, id);
    assert shown[j - |lost|] == RecoveryMarker(id);
  }

  /** However little of the log a restart reads, it never replays an attempt that carries its marker. */
  lemma MarkedIsNeverReplayed(log: seq<Event>, limit: nat, env: Environment, id: AttemptId)
    requires Lawful(log, id) && Marked(log, id)
    ensures !HasReplay(Effects(Window(log, limit), env), id)
  {
    WindowSplits(log, limit);
    MarkedSuffixIsNeverReplayed(Dropped(log, limit), Window(log, limit), env, id);
  }

  lemma MarkedSuffixIsNeverReplayed(lost: seq<Event>, shown: seq<Event>, env: Environment, id: AttemptId)
    requires Lawful(lost + shown, id) && Marked(lost + shown, id)
    ensures !HasReplay(Effects(shown, env), id)
  {
    ReplayedExactly(shown, env, id);
    if HasReplay(Effects(shown, env), id) {
      PendingValidity(shown, id);
      StartRowShowsMarker(lost, shown, id);
    }
  }

  lemma EffectsMarkStarted(log: seq<Event>, limit: nat, env: Environment, id: AttemptId)
    ensures MarksStarted(Effects(Window(log, limit), env), log, id)
  {
    WindowSplits(log, limit);
    MarkedInWindow(Window(log, limit), env, id);
    assert forall e :: e in Window(log, limit) ==> e in log;
  }

  lemma MarkedInWindow(window: seq<Event>, env: Environment, id: AttemptId)
    ensures MarksStarted(Effects(window, env), window, id)
  {
    var marker := Append(RecoveryMarker(id));
    EffectsFacts(window, env);
    PendingFacts(window);
    if marker in Effects(window, env) {
      assert MarksAttempt(marker);
      var p :| p in UnresolvedAttempts(window) && p.id == id && p.context.validAfter.Some?;
      PendingValidity(window, id);
    }
  }

  /** A restart cut short anywhere has marked whatever it replayed. */
  lemma CutShortIsMarked(effects: seq<Effect>, budget: nat, id: AttemptId)
    requires MarkerBeforeReplay(effects) && HasReplay(Take(effects, budget), id)
    ensures HasReplay(effects, id) && Append(RecoveryMarker(id)) in Take(effects, budget)
  {
    var done := Take(effects, budget);
    var k :| 0 <= k < |done| && done[k].Replay? && done[k].id == id;
    assert effects[k] in effects;
    assert done[k - 1] == effects[k - 1] == Append(RecoveryMarker(id));
  }

  lemma RestartKeepsDiscipline(w: World, limit: nat, env: Environment, budget: nat, id: AttemptId)
    requires Disciplined(w, id)
    ensures Disciplined(After(w, Restart(limit, env, budget)), id)
  {
    var effects := Effects(Window(w.log, limit), env);
    var done := Take(effects, budget);
    EffectsFacts(Window(w.log, limit), env);
    EffectsMarkStarted(w.log, limit, env, id);
    assert forall e :: e in done ==> e in effects;
    ApplyAllKeeps(w, done, id);
    TimesReplayed(done, id);
    assert multiset(w.replays + Replayed(done)) == multiset(w.replays) + multiset(Replayed(done));
    if HasReplay(done, id) {
      CutShortIsMarked(effects, budget, id);
      if Marked(w.log, id) {
        MarkedIsNeverReplayed(w.log, limit, env, id);
      }
    }
  }

  /**
   Over any number of sessions, restarts and crashes, and however little of the log each restart reads:
   an attempt is replayed at most once and never without its marker, and has at most one outcome.
   */
  lemma {:induction false} AtMostOnce(w: World, episodes: seq<Episode>, id: AttemptId)
    requires Disciplined(w, id)
    ensures Disciplined(AfterAll(w, episodes), id)
  {
    if episodes != [] {
      var n := |episodes| - 1;
      AtMostOnce(w, episodes[..n], id);
      var before := AfterAll(w, episodes[..n]);
      match episodes[n]
      case Session(events) => WriteAllKeeps(before.log, events, id);
      case Restart(limit, env, budget) => RestartKeepsDiscipline(before, limit, env, budget, id);
    }
  }

  /** From an empty log every run keeps the discipline of every attempt. */
  lemma EveryRunIsDisciplined(episodes: seq<Episode>, id: AttemptId)
    ensures Disciplined(AfterAll(World([], []), episodes), id)
  {
    AtMostOnce(World([], []), episodes, id);
  }

  // ---------------------------------------------------------------- what a restart leaves behind

  /** A written outcome or marker is there afterwards, itself or as the row it repeats. */
  lemma {:induction false} WrittenStays(w: World, effects: seq<Effect>, e: Event)
    requires e.AttemptOutcome? || e.RecoveryMarker?
    ensures (Append(e) in effects || e in w.log) && e.AttemptOutcome? ==> Resolved(ApplyAll(w, effects).log, e.attempt)
    ensures (Append(e) in effects || e in w.log) && e.RecoveryMarker? ==> Marked(ApplyAll(w, effects).log, e.attempt)
    ensures forall prior :: prior in w.log ==> prior in ApplyAll(w, effects).log
  {
    if effects != [] {
      var n := |effects| - 1;
      assert effects == effects[..n] + [effects[n]];
      WrittenStays(w, effects[..n], e);
      var before := ApplyAll(w, effects[..n]);
      ApplyOnlyAdds(before, effects[n]);
    }
  }

  lemma {:induction false} WriteAllOnlyAdds(log: seq<Event>, events: seq<Event>)
    ensures forall prior :: prior in log ==> prior in WriteAll(log, events)
  {
    if events != [] {
      WriteAllOnlyAdds(log, events[..|events| - 1]);
    }
  }

  lemma ApplyOnlyAdds(w: World, e: Effect)
    ensures forall prior :: prior in w.log ==> prior in Apply(w, e).log
  {
    if e.Replay? {
      WriteAllOnlyAdds(w.log, e.emits);
    }
  }

  lemma {:induction false} GroupIsPart(remaining: seq<Pending>, env: Environment, p: Pending, e: Effect)
    requires p in remaining && e in RecoverOrCensor(p, env)
    ensures e in RecoverAll(remaining, env)
  {
    var n := |remaining| - 1;
    assert remaining == remaining[..n] + [remaining[n]];
    if p != remaining[n] {
      GroupIsPart(remaining[..n], env, p, e);
    }
  }

  lemma {:induction false} ClosureIsPart(pending: seq<Pending>, env: Environment, p: Pending, e: Effect)
    requires p in pending && e in CloseFromLedger(p, env)
    ensures e in CloseAll(pending, env)
  {
    var n := |pending| - 1;
    assert pending == pending[..n] + [pending[n]];
    if p != pending[n] {
      ClosureIsPart(pending[..n], env, p, e);
    }
  }

  /** Only an attempt whose validity has not begun is left for a later restart. */
  predicate Deferred(p: Pending, env: Environment) {
    && Remains(p, env) && env.recentTrades.Some?
    && p.context.deployment in env.deployments
    && var d := p.context.deployment;
       RecoveryAction(p, env.now, env.deployments[d], d in env.recentTrades.value) == Defer
  }

  /** What a restart writes first about such an attempt: its outcome or its marker. */
  function FirstWord(p: Pending, env: Environment): (e: Event)
    requires !Deferred(p, env)
    ensures e.AttemptOutcome? || e.RecoveryMarker?
    ensures e.attempt == p.id
    ensures Remains(p, env) ==> Append(e) in RecoverOrCensor(p, env)
    ensures !Remains(p, env) ==> Append(e) in CloseFromLedger(p, env)
  {
    var group := if Remains(p, env) then RecoverOrCensor(p, env) else CloseFromLedger(p, env);
    assert group[0] in group;
    group[0].event
  }

  lemma FirstWordIsWritten(window: seq<Event>, env: Environment, p: Pending)
    requires p in UnresolvedAttempts(window) && !Deferred(p, env)
    ensures Append(FirstWord(p, env)) in Effects(window, env)
  {
    var pending := UnresolvedAttempts(window);
    var word := Append(FirstWord(p, env));
    RemainingFacts(pending, env);
    if Remains(p, env) {
      GroupIsPart(Remaining(pending, env), env, p, word);
    } else {
      ClosureIsPart(pending, env, p, word);
    }
  }

  /** A restart that is not cut short resolves, marks or defers every attempt it found unresolved. */
  lemma RestartSettles(w: World, limit: nat, env: Environment, p: Pending)
    requires p in UnresolvedAttempts(Window(w.log, limit)) && !Deferred(p, env)
    ensures var after := After(w, Restart(limit, env, |Effects(Window(w.log, limit), env)|));
            Resolved(after.log, p.id) || Marked(after.log, p.id)
  {
    var window := Window(w.log, limit);
    FirstWordIsWritten(window, env, p);
    WrittenStays(w, Effects(window, env), FirstWord(p, env));
  }

  // ---------------------------------------------------------------- as the source runs it

  /** The tables that one pass over the events fills. */
  datatype Tables = Tables(
    order: seq<AttemptId>,
    starts: map<AttemptId, Context>,
    outcomes: set<AttemptId>,
    plans: map<AttemptId, bool>,
    recoveries: set<AttemptId>)

  ghost predicate StartsOf(t: Tables, events: seq<Event>) {
    && t.order == StartOrder(events)
    && (forall id :: id in t.order <==> id in t.starts)
    && (forall id :: id in t.starts ==> ContextOf(events, id) == Some(t.starts[id]))
  }

  ghost predicate MarksOf(t: Tables, events: seq<Event>) {
    && (forall id :: id in t.outcomes <==> Resolved(events, id))
    && (forall id :: LatestPlan(events, id) == if id in t.plans then Some(t.plans[id]) else None)
    && (forall id :: id in t.recoveries <==> Marked(events, id))
  }

  function Noted(t: Tables, e: Event): Tables {
    match e
    case SignalDecision(id, deployment, signalAt, direction) =>
      if id in t.starts then t
      else t.(order := t.order + [id], starts := t.starts[id := Context(deployment, None, None, signalAt, direction)])
    case AttemptStarted(id, context) =>
      t.(order := if id in t.starts then t.order else t.order + [id], starts := t.starts[id := context])
    case AttemptOutcome(id, _) => t.(outcomes := t.outcomes + {id})
    case RecoveryMarker(id) => t.(recoveries := t.recoveries + {id})
    case TradePlan(id, approved) => t.(plans := t.plans[id := approved])
    case Unrelated => t
  }

  lemma StartsNoted(t: Tables, seen: seq<Event>, e: Event)
    requires StartsOf(t, seen)
    ensures StartsOf(Noted(t, e), seen + [e])
  {
    assert (seen + [e])[..|seen|] == seen;
    StartOrderFacts(seen);
    forall id ensures id !in t.starts ==> ContextOf(seen, id).None? {
    }
  }

  lemma MarksNoted(t: Tables, seen: seq<Event>, e: Event)
    requires MarksOf(t, seen)
    ensures MarksOf(Noted(t, e), seen + [e])
  {
    assert (seen + [e])[..|seen|] == seen;
    assert forall prior :: prior in seen + [e] <==> prior in seen || prior == e;
  }

  method FillTables(events: seq<Event>) returns (t: Tables)
    ensures StartsOf(t, events) && MarksOf(t, events)
  {
    t := Tables([], map[], {}, map[], {});
    for k := 0 to |events|
      invariant StartsOf(t, events[..k]) && MarksOf(t, events[..k])
    {
      StartsNoted(t, events[..k], events[k]);
      MarksNoted(t, events[..k], events[k]);
      assert events[..k + 1] == events[..k] + [events[k]];
      t := Noted(t, events[k]);
    }
    assert events[..|events|] == events;
  }

  /** `unresolved_attempts`: the tables give the unresolved attempts in start order. */
  method CollectUnresolved(events: seq<Event>) returns (pending: seq<Pending>)
    ensures pending == UnresolvedAttempts(events)
  {
    var t := FillTables(events);
    pending := [];
    for k := 0 to |t.order|
      invariant forall id :: id in t.order[..k] ==> id in StartOrder(events)
      invariant pending == Unresolved(events, t.order[..k])
    {
      var id := t.order[k];
      assert id in t.order;
      assert t.order[..k + 1][..k] == t.order[..k];
      if id !in t.outcomes {
        var plan := if id in t.plans then Some(t.plans[id]) else None;
        pending := pending + [Pending(id, t.starts[id], id in t.recoveries, plan)];
      }
    }
    assert t.order[..|t.order|] == t.order;
  }

  /** A running process: its world, and how many more effects it lives for. */
  datatype Alive = Alive(world: World, budget: nat)

  function Live(s: Alive, e: Effect): Alive {
    if s.budget == 0 then s else Alive(Apply(s.world, e), s.budget - 1)
  }

  function LiveAll(s: Alive, effects: seq<Effect>): Alive {
    if effects == [] then s else Live(LiveAll(s, effects[..|effects| - 1]), effects[|effects| - 1])
  }

  lemma {:induction false} LiveAllJoin(s: Alive, left: seq<Effect>, right: seq<Effect>)
    ensures LiveAll(s, left + right) == LiveAll(LiveAll(s, left), right)
  {
    if right == [] {
      assert left + right == left;
    } else {
      var n := |right| - 1;
      assert (left + right)[..|left + right| - 1] == left + right[..n];
      LiveAllJoin(s, left, right[..n]);
    }
  }

  lemma LiveAllOne(s: Alive, e: Effect)
    ensures LiveAll(s, [e]) == Live(s, e)
  {
    assert [e][..0] == [];
    assert LiveAll(s, []) == s;
  }

  /** Living through the effects is applying as many of them as the budget allows. */
  lemma {:induction false} LiveAllTakes(s: Alive, effects: seq<Effect>)
    ensures LiveAll(s, effects).world == ApplyAll(s.world, Take(effects, s.budget))
    ensures LiveAll(s, effects).budget == if |effects| < s.budget then s.budget - |effects| else 0
  {
    if effects != [] {
      var n := |effects| - 1;
      LiveAllTakes(s, effects[..n]);
      if n >= s.budget {
        assert Take(effects, s.budget) == Take(effects[..n], s.budget);
      }
    }
  }

  lemma CloseNext(s: Alive, pending: seq<Pending>, k: nat, env: Environment)
    requires k < |pending|
    ensures LiveAll(s, CloseAll(pending[..k + 1], env))
         == LiveAll(LiveAll(s, CloseAll(pending[..k], env)), CloseFromLedger(pending[k], env))
    ensures Remaining(pending[..k + 1], env)
         == Remaining(pending[..k], env) + (if Remains(pending[k], env) then [pending[k]] else [])
  {
    assert pending[..k + 1][..k] == pending[..k];
    LiveAllJoin(s, CloseAll(pending[..k], env), CloseFromLedger(pending[k], env));
  }

  lemma RecoverNext(s: Alive, remaining: seq<Pending>, k: nat, env: Environment)
    requires k < |remaining|
    ensures LiveAll(s, RecoverAll(remaining[..k + 1], env))
         == LiveAll(LiveAll(s, RecoverAll(remaining[..k], env)), RecoverOrCensor(remaining[k], env))
  {
    assert remaining[..k + 1][..k] == remaining[..k];
    LiveAllJoin(s, RecoverAll(remaining[..k], env), RecoverOrCensor(remaining[k], env));
  }

  /** The repository's append: a repeated start row, marker or outcome is dropped. */
  method AppendRow(log: seq<Event>, e: Event) returns (after: seq<Event>)
    ensures after == Write(log, e)
  {
    if e.AttemptStarted? || e.AttemptOutcome? || e.RecoveryMarker? {
      for k := 0 to |log|
        invariant !Repeats(log[..k], e)
      {
        assert log[..k + 1] == log[..k] + [log[k]];
        if SameRecord(log[k], e) {
          assert log[k] in log;
          return log;
        }
      }
      assert log[..|log|] == log;
    }
    return log + [e];
  }

  predicate SameRecord(prior: Event, e: Event) {
    || (e.AttemptStarted? && prior.AttemptStarted? && prior.attempt == e.attempt)
    || (e.AttemptOutcome? && prior.AttemptOutcome? && prior.attempt == e.attempt)
    || (e.RecoveryMarker? && prior.RecoveryMarker? && prior.attempt == e.attempt)
  }

  method AppendRows(log: seq<Event>, events: seq<Event>) returns (after: seq<Event>)
    ensures after == WriteAll(log, events)
  {
    after := log;
    for k := 0 to |events|
      invariant after == WriteAll(log, events[..k])
    {
      assert events[..k + 1][..k] == events[..k];
      after := AppendRow(after, events[k]);
    }
    assert events[..|events|] == events;
  }

  /** A process with its durable log; it dies after `budget` more writes or replays. */
  class Process {
    var log: seq<Event>
    var replays: seq<AttemptId>
    var budget: nat

    ghost function State(): Alive reads this { Alive(World(log, replays), budget) }

    constructor (log: seq<Event>, replays: seq<AttemptId>, budget: nat)
      ensures State() == Alive(World(log, replays), budget)
    {
      this.log, this.replays, this.budget := log, replays, budget;
    }

    method Emit(e: Effect)
      modifies this
      ensures State() == LiveAll(old(State()), [e])
    {
      LiveAllOne(State(), e);
      if budget > 0 {
        match e {
          case Append(event) =>
            log := AppendRow(log, event);
          case Replay(id, emits) =>
            log := AppendRows(log, emits);
            replays := replays + [id];
        }
        budget := budget - 1;
      }
    }

    method CloseOne(p: Pending, env: Environment) returns (closed: bool)
      modifies this
      ensures State() == LiveAll(old(State()), CloseFromLedger(p, env))
      ensures closed <==> !Remains(p, env)
    {
      if p.plan.Some? {
        Emit(Append(AttemptOutcome(p.id, if p.plan.value then Execution else Blocked)));
        return true;
      }
      if p.context.deployment in env.consumedRetries {
        Emit(Append(AttemptOutcome(p.id, InfrastructureCensored)));
        return true;
      }
      return false;
    }

    /** Close what the ledger already decides; the rest stays for recovery. */
    method CloseDecided(pending: seq<Pending>, env: Environment) returns (remaining: seq<Pending>)
      modifies this
      ensures State() == LiveAll(old(State()), CloseAll(pending, env))
      ensures remaining == Remaining(pending, env)
    {
      remaining := [];
      ghost var first := State();
      var k := 0;
      while k < |pending|
        invariant k <= |pending|
        invariant State() == LiveAll(first, CloseAll(pending[..k], env))
        invariant remaining == Remaining(pending[..k], env)
      {
        var p := pending[k];
        CloseNext(first, pending, k, env);
        var closed := CloseOne(p, env);
        if !closed {
          remaining := remaining + [p];
        }
        k := k + 1;
      }
      assert pending[..k] == pending;
    }

    method RecoverOne(p: Pending, env: Environment)
      requires env.recentTrades.Some?
      modifies this
      ensures State() == LiveAll(old(State()), Recover(p, env))
    {
      var d := p.context.deployment;
      if d !in env.deployments {
        Emit(Append(AttemptOutcome(p.id, InfrastructureCensored)));
        return;
      }
      var action := RecoveryAction(p, env.now, env.deployments[d], d in env.recentTrades.value);
      if action == Defer {
        return;
      }
      if action == CensorAction || p.context.direction == MissingDirection {
        Emit(Append(AttemptOutcome(p.id, InfrastructureCensored)));
        return;
      }
      if p.context.direction == UnknownDirection {
        Emit(Append(AttemptOutcome(p.id, FailureOutcome)));
        return;
      }
      MarkAndReplay(p.id, env);
    }

    /** The marker and the replay, under the exception handler that records a failure. */
    method MarkAndReplay(id: AttemptId, env: Environment)
      modifies this
      ensures State() == LiveAll(old(State()), MarkedReplay(id, env))
    {
      ghost var first := State();
      var marker, failure := Append(RecoveryMarker(id)), ReplayFailed(id);
      if env.markerFault(id) == RaisedBefore {
        Emit(failure);
        return;
      }
      Emit(marker);
      if env.markerFault(id) == RaisedAfter {
        LiveAllJoin(first, [marker], [failure]);
        Emit(failure);
        assert MarkedReplay(id, env) == [marker] + [failure];
        return;
      }
      var replay := Replay(id, env.replayEmits(id));
      LiveAllJoin(first, [marker], [replay]);
      Emit(replay);
      if env.replayRaises(id) {
        LiveAllJoin(first, [marker] + [replay], [failure]);
        Emit(failure);
        assert MarkedReplay(id, env) == [marker] + [replay] + [failure];
      } else {
        assert MarkedReplay(id, env) == [marker] + [replay];
      }
    }

    method RecoverEach(remaining: seq<Pending>, env: Environment)
      modifies this
      ensures State() == LiveAll(old(State()), RecoverAll(remaining, env))
    {
      ghost var first := State();
      var k := 0;
      while k < |remaining|
        invariant k <= |remaining|
        invariant State() == LiveAll(first, RecoverAll(remaining[..k], env))
      {
        var p := remaining[k];
        RecoverNext(first, remaining, k, env);
        if env.recentTrades.None? {
          Emit(Append(AttemptOutcome(p.id, InfrastructureCensored)));
        } else {
          RecoverOne(p, env);
        }
        k := k + 1;
      }
      assert remaining[..k] == remaining;
    }

    /** `reconcile_cartographer_attempts`: exactly the effects of a restart, cut short at the crash. */
    method ReconcileAttempts(limit: nat, env: Environment)
      modifies this
      ensures State().world == After(old(State()).world, Restart(limit, env, old(budget)))
    {
      ghost var first := State();
      var window := Window(log, limit);
      var pending := CollectUnresolved(window);
      var remaining := CloseDecided(pending, env);
      LiveAllJoin(first, CloseAll(pending, env), RecoverAll(remaining, env));
      RecoverEach(remaining, env);
      LiveAllTakes(first, Effects(window, env));
    }
  }
}
