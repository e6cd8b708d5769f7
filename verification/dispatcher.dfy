/**
 Per-symbol serial dispatch of broker-affecting work, with coalescing by key.

 `Lane` is one symbol's queue, pending keys and worker as a value, with its history; the class
 holds those entries as the dispatcher does, and every operation moves them by a lane function.
 */
module Dispatcher {
  import opened Wrappers

  /** A unit of work: the coalescing key and the runner it stands for. */
  datatype Task = Task(key: string, runner: nat)

  /** What a queue holds: work, or the stop sentinel. */
  datatype Item = Work(task: Task) | Sentinel

  datatype Lane = Lane(
    queue: seq<Item>,
    pending: set<string>,
    inFlight: Option<Task>,
    workerDone: bool,
    accepted: seq<Task>,
    started: seq<Task>,
    beforeStop: Option<seq<Task>>)

  const FRESH_LANE := Lane([], {}, None, false, [], [], None)

  function SubmitLane(l: Lane, task: Task): Lane {
    if task.key in l.pending then l
    else l.(queue := l.queue + [Work(task)], pending := l.pending + {task.key}, accepted := l.accepted + [task])
  }

  function StopLane(l: Lane): Lane {
    l.(queue := l.queue + [Sentinel], beforeStop := if l.beforeStop.Some? then l.beforeStop else Some(l.accepted))
  }

  predicate WorkerIdle(l: Lane) { !l.workerDone && l.inFlight.None? }

  /** The worker takes the next item: a task it starts to run, or the sentinel that ends it. */
  function TakeLane(l: Lane): Lane {
    if !WorkerIdle(l) || l.queue == [] then l
    else match l.queue[0]
         case Work(task) => l.(queue := l.queue[1..], inFlight := Some(task), started := l.started + [task])
         case Sentinel => l.(queue := l.queue[1..], workerDone := true)
  }

  /** The runner ended, normally or by an exception: either way the key is free again. */
  function FinishLane(l: Lane): Lane {
    match l.inFlight
    case None => l
    case Some(task) => l.(inFlight := None, pending := l.pending - {task.key})
  }

  // ---------------------------------------------------------------- interleavings

  datatype LaneEvent = SubmitTask(task: Task) | StopRequested | WorkerTakes | RunnerEnds(failed: bool)

  function StepLane(l: Lane, e: LaneEvent): Lane {
    match e
    case SubmitTask(task) => SubmitLane(l, task)
    case StopRequested => StopLane(l)
    case WorkerTakes => TakeLane(l)
    case RunnerEnds(_) => FinishLane(l)
  }

  function RunLane(events: seq<LaneEvent>): Lane {
    if events == [] then FRESH_LANE
    else StepLane(RunLane(events[..|events| - 1]), events[|events| - 1])
  }

  function TaskOf(item: Item): seq<Task> {
    if item.Work? then [item.task] else []
  }

  /** The tasks of a queue, sentinels dropped. */
  function Tasks(queue: seq<Item>): seq<Task> {
    if queue == [] then [] else TaskOf(queue[0]) + Tasks(queue[1..])
  }

  /** The tasks ahead of the first sentinel. */
  function TasksBeforeStop(queue: seq<Item>): seq<Task> {
    if queue == [] || queue[0].Sentinel? then [] else [queue[0].task] + TasksBeforeStop(queue[1..])
  }

  /** What has been accepted and not finished: the one in flight, then the queue. */
  function Outstanding(l: Lane): seq<Task> {
    (if l.inFlight.Some? then [l.inFlight.value] else []) + Tasks(l.queue)
  }

  predicate DistinctKeys(tasks: seq<Task>) {
    forall i, j :: 0 <= i < j < |tasks| ==> tasks[i].key != tasks[j].key
  }

  predicate KeysAre(tasks: seq<Task>, keys: set<string>) {
    && (forall t :: t in tasks ==> t.key in keys)
    && (forall k :: k in keys ==> exists i :: 0 <= i < |tasks| && tasks[i].key == k)
  }

  /** The pending keys are those of the outstanding tasks, each once. */
  predicate KeysInvariant(l: Lane) {
    DistinctKeys(Outstanding(l)) && KeysAre(Outstanding(l), l.pending)
  }

  /** Acceptance order, one task in flight, and what the first stop fixed. */
  predicate OrderInvariant(l: Lane) {
    && l.accepted == l.started + Tasks(l.queue)
    && (l.inFlight.Some? ==> !l.workerDone)
    && (l.beforeStop.None? ==> !l.workerDone && Sentinel !in l.queue)
    && (l.beforeStop.Some? && !l.workerDone ==>
       Sentinel in l.queue && l.beforeStop.value == l.started + TasksBeforeStop(l.queue))
    && (l.workerDone ==> l.beforeStop == Some(l.started))
  }

  /** What every interleaving keeps of a lane. */
  predicate LaneInvariant(l: Lane) {
    KeysInvariant(l) && OrderInvariant(l)
  }

  lemma {:induction false} TasksAppend(queue: seq<Item>, item: Item)
    ensures Tasks(queue + [item]) == Tasks(queue) + TaskOf(item)
  {
    if queue == [] {
      assert [item][1..] == [];
    } else {
      var rest := queue[1..];
      assert (queue + [item])[1..] == rest + [item];
      TasksAppend(rest, item);
      assert Tasks(queue + [item]) == TaskOf(queue[0]) + Tasks(rest + [item]);
      assert TaskOf(queue[0]) + (Tasks(rest) + TaskOf(item)) == (TaskOf(queue[0]) + Tasks(rest)) + TaskOf(item);
    }
  }

  lemma {:induction false} TasksBeforeStopAppend(queue: seq<Item>, item: Item)
    ensures Sentinel in queue ==> TasksBeforeStop(queue + [item]) == TasksBeforeStop(queue)
    ensures Sentinel !in queue && item.Sentinel? ==> TasksBeforeStop(queue + [item]) == Tasks(queue)
  {
    if queue != [] {
      assert (queue + [item])[1..] == queue[1..] + [item];
      TasksBeforeStopAppend(queue[1..], item);
    }
  }

  /** Adding a task under a new key at the end. */
  lemma KeysAppend(tasks: seq<Task>, keys: set<string>, task: Task)
    requires DistinctKeys(tasks) && KeysAre(tasks, keys) && task.key !in keys
    ensures DistinctKeys(tasks + [task]) && KeysAre(tasks + [task], keys + {task.key})
  {
    var more := tasks + [task];
    forall i, j | 0 <= i < j < |more| ensures more[i].key != more[j].key {
      if j == |tasks| {
        assert tasks[i] in tasks;
      }
    }
    forall k | k in keys + {task.key} ensures exists i :: 0 <= i < |more| && more[i].key == k {
      if k == task.key {
        assert more[|tasks|].key == k;
      } else {
        var i :| 0 <= i < |tasks| && tasks[i].key == k;
        assert more[i].key == k;
      }
    }
  }

  /** Taking the first task away, with its key. */
  lemma KeysDropFirst(tasks: seq<Task>, keys: set<string>)
    requires tasks != [] && DistinctKeys(tasks) && KeysAre(tasks, keys)
    ensures DistinctKeys(tasks[1..]) && KeysAre(tasks[1..], keys - {tasks[0].key})
  {
    var rest := tasks[1..];
    forall t | t in rest ensures t.key in keys - {tasks[0].key} {
      var i :| 0 <= i < |rest| && rest[i] == t;
      assert tasks[i + 1] == t && tasks[0].key != tasks[i + 1].key;
    }
    forall k | k in keys - {tasks[0].key} ensures exists i :: 0 <= i < |rest| && rest[i].key == k {
      var i :| 0 <= i < |tasks| && tasks[i].key == k;
      assert rest[i - 1].key == k;
    }
  }

  lemma SubmitKeeps(l: Lane, task: Task)
    requires LaneInvariant(l)
    ensures LaneInvariant(SubmitLane(l, task))
  {
    if task.key !in l.pending {
      TasksAppend(l.queue, Work(task));
      TasksBeforeStopAppend(l.queue, Work(task));
      assert Outstanding(SubmitLane(l, task)) == Outstanding(l) + [task];
      KeysAppend(Outstanding(l), l.pending, task);
      assert KeysInvariant(SubmitLane(l, task));
      SubmitKeepsOrder(l, task);
    }
  }

  lemma SubmitKeepsOrder(l: Lane, task: Task)
    requires OrderInvariant(l) && task.key !in l.pending
    ensures OrderInvariant(SubmitLane(l, task))
  {
    TasksAppend(l.queue, Work(task));
    TasksBeforeStopAppend(l.queue, Work(task));
    assert forall item :: item in l.queue ==> item in l.queue + [Work(task)];
  }

  lemma StopKeeps(l: Lane)
    requires LaneInvariant(l)
    ensures LaneInvariant(StopLane(l))
  {
    TasksAppend(l.queue, Sentinel);
    TasksBeforeStopAppend(l.queue, Sentinel);
    assert Outstanding(StopLane(l)) == Outstanding(l);
  }

  lemma TakeKeeps(l: Lane)
    requires LaneInvariant(l)
    ensures LaneInvariant(TakeLane(l))
  {
    if WorkerIdle(l) && l.queue != [] {
      assert Outstanding(TakeLane(l)) == Outstanding(l);
      assert KeysInvariant(TakeLane(l));
      if l.queue[0].Work? {
        TakeWorkKeepsOrder(l);
      } else {
        TakeSentinelKeepsOrder(l);
      }
    }
  }

  lemma MoveBoundary(left: seq<Task>, task: Task, right: seq<Task>)
    ensures left + ([task] + right) == (left + [task]) + right
  {
  }

  lemma TakeWorkKeepsOrder(l: Lane)
    requires OrderInvariant(l) && WorkerIdle(l) && l.queue != [] && l.queue[0].Work?
    ensures OrderInvariant(TakeLane(l))
  {
    var rest := l.queue[1..];
    assert l.queue == [l.queue[0]] + rest;
    MoveBoundary(l.started, l.queue[0].task, Tasks(rest));
    MoveBoundary(l.started, l.queue[0].task, TasksBeforeStop(rest));
    assert Sentinel in rest <==> Sentinel in l.queue;
  }

  lemma TakeSentinelKeepsOrder(l: Lane)
    requires OrderInvariant(l) && WorkerIdle(l) && l.queue != [] && l.queue[0].Sentinel?
    ensures OrderInvariant(TakeLane(l))
  {
    assert l.queue[0] in l.queue;
    assert l.beforeStop.value == l.started + [] == l.started;
    assert Tasks(l.queue) == [] + Tasks(l.queue[1..]) == Tasks(l.queue[1..]);
  }

  lemma FinishKeeps(l: Lane)
    requires LaneInvariant(l)
    ensures LaneInvariant(FinishLane(l))
  {
    if l.inFlight.Some? {
      assert Outstanding(FinishLane(l)) == Outstanding(l)[1..];
      KeysDropFirst(Outstanding(l), l.pending);
    }
  }

  /** Every interleaving of submissions, stops, dequeues and ending or failing runners keeps the lane. */
  lemma {:induction false} EveryInterleavingKeeps(events: seq<LaneEvent>)
    ensures LaneInvariant(RunLane(events))
  {
    if events != [] {
      var last := |events| - 1;
      EveryInterleavingKeeps(events[..last]);
      var l := RunLane(events[..last]);
      match events[last]
      case SubmitTask(task) => SubmitKeeps(l, task);
      case StopRequested => StopKeeps(l);
      case WorkerTakes => TakeKeeps(l);
      case RunnerEnds(_) => FinishKeeps(l);
    }
  }

  /** The pending keys are exactly those queued or in flight, each once. */
  lemma PendingIsOutstanding(events: seq<LaneEvent>, key: string)
    ensures var l := RunLane(events);
            && DistinctKeys(Outstanding(l))
            && (key in l.pending <==> exists i :: 0 <= i < |Outstanding(l)| && Outstanding(l)[i].key == key)
  {
    EveryInterleavingKeeps(events);
  }

  /**
   Started tasks are a prefix of the accepted ones, so each runs at most once and in acceptance order;
   and a worker that has ended has run exactly the tasks accepted before the first stop.
   */
  lemma RunsInAcceptanceOrder(events: seq<LaneEvent>)
    ensures var l := RunLane(events);
            && l.started <= l.accepted
            && (l.workerDone ==> l.inFlight.None? && l.beforeStop == Some(l.started))
            && (l.beforeStop.Some? ==> l.started <= l.beforeStop.value <= l.accepted)
  {
    EveryInterleavingKeeps(events);
    var l := RunLane(events);
    if l.beforeStop.Some? && !l.workerDone {
      TasksBeforeStopIsPrefix(l.queue);
    }
  }

  lemma {:induction false} TasksBeforeStopIsPrefix(queue: seq<Item>)
    ensures TasksBeforeStop(queue) <= Tasks(queue)
  {
    if queue != [] && queue[0].Work? {
      TasksBeforeStopIsPrefix(queue[1..]);
    }
  }

  /**
   In every interleaving a task joins the end of what is outstanding unless a task with its key is queued
   or running, in which case nothing changes.
   */
  lemma AcceptedExactly(events: seq<LaneEvent>, task: Task)
    ensures var l, after := RunLane(events), RunLane(events + [SubmitTask(task)]);
            if exists other :: other in Outstanding(l) && other.key == task.key then after == l
            else after.accepted == l.accepted + [task] && Outstanding(after) == Outstanding(l) + [task]
  {
    var l, longer := RunLane(events), events + [SubmitTask(task)];
    assert longer[..|events|] == events;
    EveryInterleavingKeeps(events);
    TasksAppend(l.queue, Work(task));
    if task.key in l.pending {
      var i :| 0 <= i < |Outstanding(l)| && Outstanding(l)[i].key == task.key;
      assert Outstanding(l)[i] in Outstanding(l);
    }
  }

  // ---------------------------------------------------------------- after a stop

  /** The worker moves: it takes an item, or its runner ends. */
  predicate Progress(l: Lane, e: LaneEvent) {
    (e.WorkerTakes? && WorkerIdle(l) && l.queue != []) || (e.RunnerEnds? && l.inFlight.Some?)
  }

  /** How often the worker still moves before it has ended: twice a task, and once for the sentinel. */
  function MovesLeft(l: Lane): nat {
    if l.workerDone then 0 else 2 * |TasksBeforeStop(l.queue)| + (if l.inFlight.Some? then 1 else 0) + 1
  }

  /** Each move is one less, and nothing that is submitted or stopped in between adds any. */
  lemma StepMoves(l: Lane, e: LaneEvent)
    requires LaneInvariant(l) && l.beforeStop.Some?
    ensures LaneInvariant(StepLane(l, e)) && StepLane(l, e).beforeStop == l.beforeStop
    ensures MovesLeft(StepLane(l, e)) + (if Progress(l, e) then 1 else 0) == MovesLeft(l)
  {
    match e
    case SubmitTask(task) =>
      SubmitKeeps(l, task);
      TasksBeforeStopAppend(l.queue, Work(task));
    case StopRequested =>
      StopKeeps(l);
      TasksBeforeStopAppend(l.queue, Sentinel);
    case WorkerTakes => TakeKeeps(l);
    case RunnerEnds(_) => FinishKeeps(l);
  }

  function LaneAfter(l: Lane, events: seq<LaneEvent>): Lane {
    if events == [] then l else StepLane(LaneAfter(l, events[..|events| - 1]), events[|events| - 1])
  }

  function Moves(l: Lane, events: seq<LaneEvent>): nat {
    if events == [] then 0
    else
      var n := |events| - 1;
      Moves(l, events[..n]) + (if Progress(LaneAfter(l, events[..n]), events[n]) then 1 else 0)
  }

  lemma {:induction false} MovesCountDown(l: Lane, events: seq<LaneEvent>)
    requires LaneInvariant(l) && l.beforeStop.Some?
    ensures var after := LaneAfter(l, events);
            && LaneInvariant(after) && after.beforeStop == l.beforeStop
            && MovesLeft(after) + Moves(l, events) == MovesLeft(l)
  {
    if events != [] {
      var n := |events| - 1;
      MovesCountDown(l, events[..n]);
      StepMoves(LaneAfter(l, events[..n]), events[n]);
    }
  }

  /**
   After a stop, whatever is submitted meanwhile: the worker has ended exactly when it has made the
   moves that were left, and then it has run exactly the tasks accepted before the stop.
   */
  lemma StopDrains(l: Lane, events: seq<LaneEvent>)
    requires LaneInvariant(l) && l.beforeStop.Some?
    ensures Moves(l, events) <= MovesLeft(l)
    ensures LaneAfter(l, events).workerDone <==> Moves(l, events) == MovesLeft(l)
    ensures LaneAfter(l, events).workerDone ==> Some(LaneAfter(l, events).started) == l.beforeStop
  {
    MovesCountDown(l, events);
  }

  /** Until then the worker can always move. */
  lemma StopNeverStalls(l: Lane)
    requires LaneInvariant(l) && l.beforeStop.Some? && !l.workerDone
    ensures Progress(l, WorkerTakes) || Progress(l, RunnerEnds(false))
  {
    assert Sentinel in l.queue;
  }

  // ---------------------------------------------------------------- the dispatcher

  /**
   One symbol's entries of the dispatcher: its queue, pending keys, identities and worker. It starts
   fresh and moves only by the lane functions, so its lane is always one of some interleaving.
   */
  class SymbolDispatcher {
    var queue: seq<Item>
    var pendingKeys: set<string>
    var pendingIdentities: map<string, string>
    var inFlight: Option<Task>
    var workerDone: bool
    /** The lane these fields show, with its history. */
    ghost var lane: Lane

    ghost predicate Valid()
      reads this
    {
      && lane.queue == queue && lane.pending == pendingKeys
      && lane.inFlight == inFlight && lane.workerDone == workerDone
      && pendingIdentities.Keys <= pendingKeys
    }

    constructor Start()
      ensures Valid() && lane == FRESH_LANE && pendingIdentities == map[]
    {
      queue, pendingKeys, pendingIdentities, inFlight, workerDone := [], {}, map[], None, false;
      lane := FRESH_LANE;
    }

    /** Accept a task unless its key is already queued or in flight. */
    method Submit(task: Task, identity: Option<string>) returns (enqueued: bool)
      requires Valid()
      modifies this
      ensures Valid() && lane == StepLane(old(lane), SubmitTask(task))
      ensures enqueued <==> task.key !in old(pendingKeys)
      ensures pendingIdentities == if enqueued && identity.Some? then old(pendingIdentities)[task.key := identity.value]
                                   else old(pendingIdentities)
    {
      if task.key in pendingKeys {
        return false;
      }
      pendingKeys := pendingKeys + {task.key};
      if identity.Some? {
        pendingIdentities := pendingIdentities[task.key := identity.value];
      }
      queue := queue + [Work(task)];
      lane := SubmitLane(lane, task);
      return true;
    }

    /** The worker's `queue.get()`; nothing happens while it runs a task, on an empty queue, or after its end. */
    method WorkerTake() returns (task: Option<Task>)
      requires Valid()
      modifies this
      ensures Valid() && lane == StepLane(old(lane), WorkerTakes)
      ensures task.Some? <==> old(WorkerIdle(lane)) && old(queue) != [] && old(queue)[0].Work?
      ensures task.Some? ==> inFlight == task == Some(old(queue)[0].task)
      ensures pendingIdentities == old(pendingIdentities)
    {
      if workerDone || inFlight.Some? || queue == [] {
        return None;
      }
      var item := queue[0];
      queue := queue[1..];
      if item.Work? {
        inFlight := Some(item.task);
      } else {
        workerDone := true;
      }
      task := inFlight;
      lane := TakeLane(lane);
    }

    /** The `finally` after a runner: its key and identity are free again whether it failed or not. */
    method WorkerFinish(failed: bool)
      requires Valid() && inFlight.Some?
      modifies this
      ensures Valid() && lane == StepLane(old(lane), RunnerEnds(failed))
      ensures pendingIdentities == old(pendingIdentities) - {old(inFlight).value.key}
    {
      var key := inFlight.value.key;
      pendingKeys := pendingKeys - {key};
      pendingIdentities := pendingIdentities - {key};
      inFlight := None;
      lane := FinishLane(lane);
    }

    /** Put a sentinel at the end of the queue. */
    method Stop()
      requires Valid()
      modifies this
      ensures Valid() && lane == StepLane(old(lane), StopRequested)
      ensures pendingIdentities == old(pendingIdentities)
    {
      queue := queue + [Sentinel];
      lane := StopLane(lane);
    }
  }
}
