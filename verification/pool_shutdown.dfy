/**
 Shutting the warm-worker pool down while prewarms and turns are in progress
 (engine/src/codex_exec.rs).

 The system interleaves atomic steps of any number of tasks: one step per section under the pool
 lock, one per process event, one per notification. An action whose guard fails changes nothing, so
 a run is any sequence of actions. Process ids are never reused.
 */
module PoolShutdown {
  import opened Wrappers
  import opened WorkerPool

  /** A call of `spawn_initialized_codex_worker`. */
  datatype Stage = Forking | Initializing(worker: Worker) | Initialized(worker: Worker) | Failed

  datatype Task =
    | Prewarming(stage: Stage)     // holds a reserved slot
    | Discarding(worker: Worker)   // surplus worker to stop; the notification is still owed
    | OwesNotify
    | ColdStarting(stage: Stage)   // a turn that found no warm worker
    | Rejected(worker: Worker)     // registration refused; the worker is to be stopped
    | Running(worker: Worker)      // a turn
    | Stopped(worker: Worker)      // its group is stopped; still to unregister

  datatype Shutdown =
    | NotStarted
    | ParkedOnSpawn
    | SpawnWoken
    | Taking
    | Stopping(groups: set<nat>, held: seq<Worker>)
    | CheckActive
    | ParkedOnActive
    | Done

  datatype Sys = Sys(
    pool: Pool,
    tasks: map<nat, Task>,
    live: set<nat>,          // pids of live worker leaders
    nextPid: nat,
    nextTask: nat,
    shutdown: Shutdown)

  datatype Action =
    | PrewarmReserve
    | Fork(t: nat)
    | ForkFails(t: nat)
    | Initialize(t: nat, ok: bool)
    | PrewarmSettles(t: nat)
    | StopDiscarded(t: nat)
    | NotifySpawnFinished(t: nat)
    | StartTurn(warmCompatible: bool)
    | ColdRegister(t: nat)
    | CancelStart(t: nat)
    | StopRejected(t: nat)
    | TurnEnds(t: nat)
    | UnregisterTurn(t: nat)
    | WorkerDies(pid: nat)
    | ShutdownLatch
    | ShutdownBudgetExpires
    | ShutdownTake
    | ShutdownStopGroup(group: nat)
    | ShutdownStopWorker
    | ShutdownChecksActive

  const INITIAL := Sys(EMPTY_POOL, map[], {}, 0, 0, NotStarted)

  // ---------------------------------------------------------------------------------------------
  // Steps
  // ---------------------------------------------------------------------------------------------

  function StageWorker(s: Stage): Option<Worker> {
    match s
    case Initializing(w) => Some(w)
    case Initialized(w) => Some(w)
    case _ => None
  }

  function WorkerOf(task: Task): Option<Worker> {
    match task
    case Prewarming(stage) => StageWorker(stage)
    case ColdStarting(stage) => StageWorker(stage)
    case OwesNotify => None
    case _ => Some(task.worker)
  }

  predicate Spawns(task: Task) {
    task.Prewarming? || task.ColdStarting?
  }

  function AddTask(s: Sys, task: Task): Sys {
    s.(tasks := s.tasks[s.nextTask := task], nextTask := s.nextTask + 1)
  }

  function RemoveTask(s: Sys, t: nat): Sys {
    s.(tasks := s.tasks - {t})
  }

  function Kill(s: Sys, pid: nat): Sys {
    s.(live := s.live - {pid})
  }

  function ReserveStep(s: Sys): Sys {
    if CanReserve(s.pool) then AddTask(s.(pool := Reserve(s.pool)), Prewarming(Forking)) else s
  }

  function WithStage(task: Task, stage: Stage): Task
    requires Spawns(task)
  {
    if task.Prewarming? then Prewarming(stage) else ColdStarting(stage)
  }

  function ForkStep(s: Sys, t: nat): Sys {
    if t in s.tasks && Spawns(s.tasks[t]) && s.tasks[t].stage.Forking? then
      var w := Worker(s.nextPid, s.nextPid);
      s.(tasks := s.tasks[t := WithStage(s.tasks[t], Initializing(w))],
         live := s.live + {s.nextPid},
         nextPid := s.nextPid + 1)
    else s
  }

  function ForkFailsStep(s: Sys, t: nat): Sys {
    if t in s.tasks && Spawns(s.tasks[t]) && s.tasks[t].stage.Forking? then
      s.(tasks := s.tasks[t := WithStage(s.tasks[t], Failed)])
    else s
  }

  /** A worker that does not initialise in time is stopped by the call that spawned it. */
  function InitializeStep(s: Sys, t: nat, ok: bool): Sys {
    if t in s.tasks && Spawns(s.tasks[t]) && s.tasks[t].stage.Initializing? then
      var w := s.tasks[t].stage.worker;
      if ok then s.(tasks := s.tasks[t := WithStage(s.tasks[t], Initialized(w))])
      else Kill(s.(tasks := s.tasks[t := WithStage(s.tasks[t], Failed)]), w.pid)
    else s
  }

  function PrewarmSettlesStep(s: Sys, t: nat): Sys {
    if t in s.tasks && s.tasks[t].Prewarming? && (s.tasks[t].stage.Initialized? || s.tasks[t].stage.Failed?) then
      var (pool, discard) := FinishPrewarm(s.pool, StageWorker(s.tasks[t].stage));
      var task := if discard.Some? then Discarding(discard.value) else OwesNotify;
      s.(pool := pool, tasks := s.tasks[t := task])
    else s
  }

  function StopDiscardedStep(s: Sys, t: nat): Sys {
    if t in s.tasks && s.tasks[t].Discarding? then
      Kill(s.(tasks := s.tasks[t := OwesNotify]), s.tasks[t].worker.pid)
    else s
  }

  /** `notify_waiters` wakes whoever is parked now and leaves no permit behind. */
  function NotifyStep(s: Sys, t: nat): Sys {
    if t in s.tasks && s.tasks[t].OwesNotify? then
      RemoveTask(s, t).(shutdown := if s.shutdown.ParkedOnSpawn? then SpawnWoken else s.shutdown)
    else s
  }

  function StartTurnStep(s: Sys, warmCompatible: bool): Sys {
    var (pool, leased) := if warmCompatible then Lease(s.pool, s.live) else (s.pool, None);
    AddTask(s.(pool := pool), if leased.Some? then Running(leased.value) else ColdStarting(Forking))
  }

  function ColdRegisterStep(s: Sys, t: nat): Sys {
    if t in s.tasks && s.tasks[t].ColdStarting? && s.tasks[t].stage.Initialized? then
      var w := s.tasks[t].stage.worker;
      s.(pool := Register(s.pool, w),
         tasks := s.tasks[t := if s.pool.shuttingDown then Rejected(w) else Running(w)])
    else if t in s.tasks && s.tasks[t].ColdStarting? && s.tasks[t].stage.Failed? then RemoveTask(s, t)
    else s
  }

  /** Dropping the start of a cold turn drops the child handle, which kills the leader. */
  function CancelStartStep(s: Sys, t: nat): Sys {
    if t in s.tasks && s.tasks[t].ColdStarting? then
      var s' := RemoveTask(s, t);
      match StageWorker(s.tasks[t].stage)
      case Some(w) => Kill(s', w.pid)
      case None => s'
    else s
  }

  function StopRejectedStep(s: Sys, t: nat): Sys {
    if t in s.tasks && s.tasks[t].Rejected? then Kill(RemoveTask(s, t), s.tasks[t].worker.pid) else s
  }

  function TurnEndsStep(s: Sys, t: nat): Sys {
    if t in s.tasks && s.tasks[t].Running? then
      Kill(s.(tasks := s.tasks[t := Stopped(s.tasks[t].worker)]), s.tasks[t].worker.pid)
    else s
  }

  function UnregisterStep(s: Sys, t: nat): Sys {
    if t in s.tasks && s.tasks[t].Stopped? then
      RemoveTask(s, t).(
        pool := Unregister(s.pool, s.tasks[t].worker.pid),
        shutdown := if s.shutdown.ParkedOnActive? then CheckActive else s.shutdown)
    else s
  }

  /** The waiter is armed in the same section that finds a spawn outstanding. */
  function LatchStep(s: Sys): Sys {
    if s.shutdown.NotStarted? || s.shutdown.SpawnWoken? then
      s.(pool := Latch(s.pool), shutdown := if s.pool.spawning == 0 then Taking else ParkedOnSpawn)
    else s
  }

  function BudgetStep(s: Sys): Sys {
    if s.shutdown.ParkedOnSpawn? then s.(shutdown := Taking)
    else if s.shutdown.ParkedOnActive? then s.(shutdown := Done)
    else s
  }

  function TakeStep(s: Sys): Sys {
    if s.shutdown.Taking? then
      s.(pool := s.pool.(workers := []), shutdown := Stopping(s.pool.active.Values, s.pool.workers))
    else s
  }

  function StopGroupStep(s: Sys, group: nat): Sys {
    if s.shutdown.Stopping? && group in s.shutdown.groups then
      Kill(s, group).(shutdown := Stopping(s.shutdown.groups - {group}, s.shutdown.held))
    else s
  }

  /** The held workers are stopped after the groups; then shutdown looks at the active map. */
  function StopWorkerStep(s: Sys): Sys {
    if s.shutdown.Stopping? && s.shutdown.groups == {} then
      if s.shutdown.held == [] then s.(shutdown := CheckActive)
      else Kill(s, s.shutdown.held[0].pid).(shutdown := Stopping({}, s.shutdown.held[1..]))
    else s
  }

  function CheckActiveStep(s: Sys): Sys {
    if s.shutdown.CheckActive? then
      s.(shutdown := if s.pool.active == map[] then Done else ParkedOnActive)
    else s
  }

  function Step(s: Sys, a: Action): Sys {
    match a
    case PrewarmReserve => ReserveStep(s)
    case Fork(t) => ForkStep(s, t)
    case ForkFails(t) => ForkFailsStep(s, t)
    case Initialize(t, ok) => InitializeStep(s, t, ok)
    case PrewarmSettles(t) => PrewarmSettlesStep(s, t)
    case StopDiscarded(t) => StopDiscardedStep(s, t)
    case NotifySpawnFinished(t) => NotifyStep(s, t)
    case StartTurn(warmCompatible) => StartTurnStep(s, warmCompatible)
    case ColdRegister(t) => ColdRegisterStep(s, t)
    case CancelStart(t) => CancelStartStep(s, t)
    case StopRejected(t) => StopRejectedStep(s, t)
    case TurnEnds(t) => TurnEndsStep(s, t)
    case UnregisterTurn(t) => UnregisterStep(s, t)
    case WorkerDies(pid) => Kill(s, pid)
    case ShutdownLatch => LatchStep(s)
    case ShutdownBudgetExpires => BudgetStep(s)
    case ShutdownTake => TakeStep(s)
    case ShutdownStopGroup(group) => StopGroupStep(s, group)
    case ShutdownStopWorker => StopWorkerStep(s)
    case ShutdownChecksActive => CheckActiveStep(s)
  }

  predicate IsPrewarmAction(a: Action) {
    a.PrewarmReserve? || a.Fork? || a.ForkFails? || a.Initialize? || a.PrewarmSettles? || a.StopDiscarded?
    || a.NotifySpawnFinished?
  }

  predicate IsShutdownAction(a: Action) {
    a.ShutdownLatch? || a.ShutdownBudgetExpires? || a.ShutdownTake?
    || a.ShutdownStopGroup? || a.ShutdownStopWorker? || a.ShutdownChecksActive?
  }

  function RunFrom(s: Sys, actions: seq<Action>): Sys
    decreases |actions|
  {
    if actions == [] then s else RunFrom(Step(s, actions[0]), actions[1..])
  }

  // ---------------------------------------------------------------------------------------------
  // Invariant
  // ---------------------------------------------------------------------------------------------

  ghost predicate Holds(s: Sys, t: nat, pid: nat) {
    t in s.tasks && WorkerOf(s.tasks[t]).Some? && WorkerOf(s.tasks[t]).value.pid == pid
  }

  ghost predicate InPool(s: Sys, pid: nat) {
    exists i :: 0 <= i < |s.pool.workers| && s.pool.workers[i].pid == pid
  }

  ghost predicate HeldByShutdown(s: Sys, pid: nat) {
    s.shutdown.Stopping? && exists i :: 0 <= i < |s.shutdown.held| && s.shutdown.held[i].pid == pid
  }

  ghost predicate HeldByTask(s: Sys, pid: nat) {
    exists t: nat :: Holds(s, t, pid)
  }

  ghost predicate HasTurn(s: Sys, t: nat, pid: nat) {
    Holds(s, t, pid) && (s.tasks[t].Running? || s.tasks[t].Stopped?)
  }

  /** Prewarms that hold a reserved slot. */
  ghost function InFlight(tasks: map<nat, Task>): set<nat> {
    set t | t in tasks && tasks[t].Prewarming?
  }

  /** Ids are in range and no process is held twice. */
  ghost predicate Distinct(s: Sys) {
    && (forall t: nat :: t in s.tasks ==> t < s.nextTask)
    && (forall pid: nat :: pid in s.live ==> pid < s.nextPid)
    && (forall i :: 0 <= i < |s.pool.workers| ==> s.pool.workers[i].pid < s.nextPid)
    && (forall t: nat, pid: nat :: Holds(s, t, pid) ==> pid < s.nextPid && !InPool(s, pid))
    && (forall t: nat, u: nat, pid: nat :: Holds(s, t, pid) && Holds(s, u, pid) ==> t == u)
    && (forall i, j :: 0 <= i < j < |s.pool.workers| ==> s.pool.workers[i].pid != s.pool.workers[j].pid)
    && (forall i :: 0 <= i < |s.pool.workers| ==> s.pool.workers[i].pgid == s.pool.workers[i].pid)
    && (forall t: nat :: t in s.tasks && WorkerOf(s.tasks[t]).Some? ==>
          WorkerOf(s.tasks[t]).value.pgid == WorkerOf(s.tasks[t]).value.pid)
  }

  ghost predicate Bounded(s: Sys) {
    && s.pool.spawning == |InFlight(s.tasks)|
    && |s.pool.workers| + s.pool.spawning <= CONSOLE_WARM_POOL_TARGET
  }

  /** Every live leader has an owner, and the active map lists the turns exactly. */
  ghost predicate Owned(s: Sys) {
    && (forall pid: nat :: pid in s.live ==> InPool(s, pid) || HeldByTask(s, pid) || HeldByShutdown(s, pid))
    && (forall pid: nat :: pid in s.pool.active ==> s.pool.active[pid] == pid && exists t: nat :: HasTurn(s, t, pid))
    && (forall t: nat, pid: nat :: HasTurn(s, t, pid) ==> pid in s.pool.active)
    && (forall t: nat, pid: nat :: Holds(s, t, pid) && s.tasks[t].Stopped? ==> pid !in s.live)
  }

  ghost predicate Latched(s: Sys) {
    !s.shutdown.NotStarted? ==> s.pool.shuttingDown
  }

  ghost predicate OwesSpawnNotice(s: Sys, t: nat) {
    t in s.tasks && (s.tasks[t].Prewarming? || s.tasks[t].Discarding? || s.tasks[t].OwesNotify?)
  }

  /** A parked shutdown has a debtor. */
  ghost predicate Waited(s: Sys) {
    && (s.shutdown.ParkedOnSpawn? ==>
          exists t: nat :: OwesSpawnNotice(s, t))
    && (s.shutdown.ParkedOnActive? ==> s.pool.active != map[])
  }

  /** After the workers were taken, nothing active is alive except groups still to be stopped. */
  ghost predicate Cleared(s: Sys) {
    (s.shutdown.Stopping? || s.shutdown.CheckActive? || s.shutdown.ParkedOnActive? || s.shutdown.Done?) ==>
      && s.pool.workers == []
      && forall pid: nat :: pid in s.live && pid in s.pool.active ==>
           s.shutdown.Stopping? && pid in s.shutdown.groups
  }

  ghost predicate Inv(s: Sys) {
    Distinct(s) && Bounded(s) && Owned(s) && Latched(s) && Waited(s) && Cleared(s)
  }

  // ---------------------------------------------------------------------------------------------
  // Preservation
  // ---------------------------------------------------------------------------------------------

  ghost predicate SameElsewhere(s: Sys, s': Sys, t: nat) {
    && (forall u: nat :: u != t ==> (u in s.tasks <==> u in s'.tasks))
    && (forall u: nat :: u != t && u in s.tasks ==> s'.tasks[u] == s.tasks[u])
  }

  ghost function WorkerAt(s: Sys, t: nat): Option<Worker> {
    if t in s.tasks then WorkerOf(s.tasks[t]) else None
  }

  ghost predicate PrewarmAt(s: Sys, t: nat) {
    t in s.tasks && s.tasks[t].Prewarming?
  }

  ghost predicate TurnAt(s: Sys, t: nat) {
    t in s.tasks && (s.tasks[t].Running? || s.tasks[t].Stopped?)
  }

  lemma InFlightElsewhere(s: Sys, s': Sys, t: nat)
    requires SameElsewhere(s, s', t)
    ensures |InFlight(s'.tasks)| + (if PrewarmAt(s, t) then 1 else 0)
         == |InFlight(s.tasks)| + (if PrewarmAt(s', t) then 1 else 0)
  {
    assert InFlight(s.tasks) - {t} == InFlight(s'.tasks) - {t};
    assert PrewarmAt(s, t) <==> t in InFlight(s.tasks);
    assert PrewarmAt(s', t) <==> t in InFlight(s'.tasks);
    hide InFlight, PrewarmAt, SameElsewhere;
    SameButOne(InFlight(s.tasks), InFlight(s'.tasks), t);
  }

  lemma SameButOne(a: set<nat>, b: set<nat>, t: nat)
    requires a - {t} == b - {t}
    ensures |b| + (if t in a then 1 else 0) == |a| + (if t in b then 1 else 0)
  {
    assert |a - {t}| == |a| - (if t in a then 1 else 0);
    assert |b - {t}| == |b| - (if t in b then 1 else 0);
  }

  /** Facts about other tasks carry over. */
  lemma Elsewhere(s: Sys, s': Sys, t: nat)
    requires SameElsewhere(s, s', t)
    ensures forall u: nat, pid: nat {:trigger Holds(s, u, pid)} {:trigger Holds(s', u, pid)} ::
              u != t ==> (Holds(s, u, pid) <==> Holds(s', u, pid))
    ensures forall u: nat, pid: nat {:trigger HasTurn(s, u, pid)} {:trigger HasTurn(s', u, pid)} ::
              u != t ==> (HasTurn(s, u, pid) <==> HasTurn(s', u, pid))
    ensures forall u: nat {:trigger OwesSpawnNotice(s, u)} {:trigger OwesSpawnNotice(s', u)} ::
              u != t ==> (OwesSpawnNotice(s, u) <==> OwesSpawnNotice(s', u))
    ensures s.pool.workers == s'.pool.workers ==>
              forall pid: nat {:trigger InPool(s, pid)} {:trigger InPool(s', pid)} ::
                InPool(s, pid) <==> InPool(s', pid)
    ensures |InFlight(s'.tasks)| + (if PrewarmAt(s, t) then 1 else 0)
         == |InFlight(s.tasks)| + (if PrewarmAt(s', t) then 1 else 0)
  {
    InFlightElsewhere(s, s', t);
    hide InFlight;
  }

  /** A step that touches one task, gives it no new worker, and leaves the pool's workers alone. */
  ghost predicate Moves(s: Sys, s': Sys, t: nat) {
    var before, after := WorkerAt(s, t), WorkerAt(s', t);
    && SameElsewhere(s, s', t)
    && (t in s'.tasks ==> t < s'.nextTask)
    && s.nextTask <= s'.nextTask && s'.nextPid == s.nextPid
    && s'.live <= s.live
    && (after == before || after == None)
    && (after == None && before.Some? ==> before.value.pid !in s'.live)
    && (t in s'.tasks && s'.tasks[t].Stopped? ==> after.value.pid !in s'.live)
    && s'.pool.workers == s.pool.workers
    && s'.pool.shuttingDown == s.pool.shuttingDown
    && s'.pool.spawning + (if PrewarmAt(s, t) then 1 else 0) == s.pool.spawning + (if PrewarmAt(s', t) then 1 else 0)
    && |s'.pool.workers| + s'.pool.spawning <= CONSOLE_WARM_POOL_TARGET
    && s'.pool.active == (
         if TurnAt(s', t) && !TurnAt(s, t) then s.pool.active[after.value.pid := after.value.pgid]
         else if TurnAt(s, t) && !TurnAt(s', t) then s.pool.active - {before.value.pid}
         else s.pool.active)
    && (TurnAt(s', t) && !TurnAt(s, t) ==> !s.pool.shuttingDown)
    && (s'.shutdown == s.shutdown
        || (s.shutdown.ParkedOnSpawn? && s'.shutdown.SpawnWoken?)
        || (s.shutdown.ParkedOnActive? && s'.shutdown.CheckActive?))
    && (OwesSpawnNotice(s, t) && !OwesSpawnNotice(s', t) ==> !s'.shutdown.ParkedOnSpawn?)
    && (TurnAt(s, t) && !TurnAt(s', t) ==> !s'.shutdown.ParkedOnActive?)
  }

  lemma MoveDistinct(s: Sys, s': Sys, t: nat)
    requires Inv(s) && Moves(s, s', t)
    ensures Distinct(s')
  {
    hide Bounded, Owned, Latched, Waited, Cleared, CONSOLE_WARM_POOL_TARGET;
    Elsewhere(s, s', t);
    assert forall pid: nat {:trigger Holds(s', t, pid)} :: Holds(s', t, pid) ==> Holds(s, t, pid);
  }

  lemma MoveKeepsOwners(s: Sys, s': Sys, t: nat, pid: nat)
    requires Inv(s) && Moves(s, s', t) && pid in s'.live
    ensures InPool(s', pid) || HeldByTask(s', pid) || HeldByShutdown(s', pid)
  {
    Elsewhere(s, s', t);
    hide Distinct, Bounded, Latched, Waited, Cleared, CONSOLE_WARM_POOL_TARGET;
    assert InPool(s, pid) || HeldByTask(s, pid) || HeldByShutdown(s, pid);
    if HeldByTask(s, pid) {
      var u: nat :| Holds(s, u, pid);
      assert Holds(s', u, pid);
    }
  }

  lemma MoveKeepsActive(s: Sys, s': Sys, t: nat, pid: nat)
    requires Inv(s) && Moves(s, s', t) && pid in s'.pool.active
    ensures s'.pool.active[pid] == pid && exists u: nat :: HasTurn(s', u, pid)
  {
    Elsewhere(s, s', t);
    hide Bounded, Latched, Waited, Cleared, CONSOLE_WARM_POOL_TARGET, InPool, HeldByTask, HeldByShutdown;
    if TurnAt(s', t) && pid == WorkerAt(s', t).value.pid {
      assert Holds(s, t, pid);
      assert HasTurn(s', t, pid);
    } else {
      var u: nat :| HasTurn(s, u, pid);
      assert HasTurn(s', u, pid);
    }
  }

  lemma MoveKeepsTurns(s: Sys, s': Sys, t: nat, u: nat, pid: nat)
    requires Inv(s) && Moves(s, s', t) && HasTurn(s', u, pid)
    ensures pid in s'.pool.active
  {
    Elsewhere(s, s', t);
    hide Bounded, Latched, Waited, Cleared, CONSOLE_WARM_POOL_TARGET, InPool, HeldByTask, HeldByShutdown;
    if u != t {
      assert HasTurn(s, u, pid);
      if TurnAt(s, t) {
        assert Holds(s, t, WorkerAt(s, t).value.pid);
      }
    } else {
      assert Holds(s, t, pid);
      if TurnAt(s, t) {
        assert HasTurn(s, t, pid);
      }
    }
  }

  lemma MoveKeepsStopped(s: Sys, s': Sys, t: nat, u: nat, pid: nat)
    requires Inv(s) && Moves(s, s', t) && Holds(s', u, pid) && s'.tasks[u].Stopped?
    ensures pid !in s'.live
  {
    Elsewhere(s, s', t);
    hide Distinct, Bounded, Latched, Waited, Cleared, CONSOLE_WARM_POOL_TARGET, InPool, HeldByTask, HeldByShutdown;
    if u != t {
      assert Holds(s, u, pid);
    }
  }

  lemma MoveOwned(s: Sys, s': Sys, t: nat)
    requires Inv(s) && Moves(s, s', t)
    ensures Owned(s')
  {
    hide Inv, Moves, InPool, HeldByTask, HeldByShutdown, HasTurn;
    forall pid: nat | pid in s'.live
      ensures InPool(s', pid) || HeldByTask(s', pid) || HeldByShutdown(s', pid)
    {
      MoveKeepsOwners(s, s', t, pid);
    }
    forall pid: nat | pid in s'.pool.active
      ensures s'.pool.active[pid] == pid && exists u: nat :: HasTurn(s', u, pid)
    {
      MoveKeepsActive(s, s', t, pid);
    }
    forall u: nat, pid: nat | HasTurn(s', u, pid)
      ensures pid in s'.pool.active
    {
      MoveKeepsTurns(s, s', t, u, pid);
    }
    forall u: nat, pid: nat | Holds(s', u, pid) && s'.tasks[u].Stopped?
      ensures pid !in s'.live
    {
      MoveKeepsStopped(s, s', t, u, pid);
    }
  }

  lemma MoveRest(s: Sys, s': Sys, t: nat)
    requires Inv(s) && Moves(s, s', t)
    ensures Bounded(s') && Latched(s') && Waited(s') && Cleared(s')
  {
    hide Distinct, Owned;
    Elsewhere(s, s', t);
  }

  lemma InvMove(s: Sys, s': Sys, t: nat)
    requires Inv(s) && Moves(s, s', t)
    ensures Inv(s')
  {
    hide Distinct, Bounded, Owned, Latched, Waited, Cleared, Moves;
    MoveDistinct(s, s', t);
    MoveOwned(s, s', t);
    MoveRest(s, s', t);
  }

  /** What a fork changes: task t alone now holds the fresh process. */
  lemma ForkFacts(s: Sys, t: nat)
    requires ForkStep(s, t) != s
    ensures var s' := ForkStep(s, t);
            && SameElsewhere(s, s', t) && t in s.tasks
            && s'.pool == s.pool && s'.nextTask == s.nextTask && s'.nextPid == s.nextPid + 1
            && s'.shutdown == s.shutdown && s'.live == s.live + {s.nextPid}
            && WorkerAt(s', t) == Some(Worker(s.nextPid, s.nextPid)) && WorkerAt(s, t) == None
            && PrewarmAt(s', t) == PrewarmAt(s, t) && !TurnAt(s, t) && !TurnAt(s', t)
            && OwesSpawnNotice(s', t) == OwesSpawnNotice(s, t)
            && Holds(s', t, s.nextPid)
  {
  }

  lemma ForkDistinct(s: Sys, t: nat)
    requires Inv(s) && ForkStep(s, t) != s
    ensures Distinct(ForkStep(s, t))
  {
    hide ForkStep, Bounded, Owned, Latched, Waited, Cleared;
    var s' := ForkStep(s, t);
    ForkFacts(s, t);
    Elsewhere(s, s', t);
    assert forall pid: nat {:trigger Holds(s', t, pid)} :: Holds(s', t, pid) <==> pid == s.nextPid;
  }

  lemma ForkOwned(s: Sys, t: nat)
    requires Inv(s) && ForkStep(s, t) != s
    ensures Owned(ForkStep(s, t))
  {
    hide ForkStep, Bounded, Latched, Waited, Cleared;
    var s' := ForkStep(s, t);
    ForkFacts(s, t);
    Elsewhere(s, s', t);
    assert forall pid: nat {:trigger Holds(s', t, pid)} :: Holds(s', t, pid) <==> pid == s.nextPid;
    assert forall pid: nat {:trigger HasTurn(s', t, pid)} {:trigger HasTurn(s, t, pid)} ::
        !HasTurn(s', t, pid) && !HasTurn(s, t, pid);
  }

  lemma InvFork(s: Sys, t: nat)
    requires Inv(s)
    ensures Inv(ForkStep(s, t))
  {
    var s' := ForkStep(s, t);
    if s' != s {
      hide ForkStep, Distinct, Owned;
      ForkFacts(s, t);
      ForkDistinct(s, t);
      ForkOwned(s, t);
      Elsewhere(s, s', t);
      assert Waited(s');
      assert s.nextPid !in s.pool.active by { FreshPidIsIdle(s); }
    }
  }

  lemma FreshPidIsIdle(s: Sys)
    requires Distinct(s) && Owned(s)
    ensures forall pid: nat :: pid in s.pool.active ==> pid < s.nextPid
  {
    forall pid: nat | pid in s.pool.active ensures pid < s.nextPid {
      var t: nat :| HasTurn(s, t, pid);
      assert Holds(s, t, pid);
    }
  }

  // The steps that only move a task along.

  lemma InvReserve(s: Sys)
    requires Inv(s)
    ensures Inv(ReserveStep(s))
  {
    if CanReserve(s.pool) {
      InvMove(s, ReserveStep(s), s.nextTask);
    }
  }

  lemma InvForkFails(s: Sys, t: nat)
    requires Inv(s)
    ensures Inv(ForkFailsStep(s, t))
  {
    if ForkFailsStep(s, t) != s {
      InvMove(s, ForkFailsStep(s, t), t);
    }
  }

  lemma InvInitialize(s: Sys, t: nat, ok: bool)
    requires Inv(s)
    ensures Inv(InitializeStep(s, t, ok))
  {
    if InitializeStep(s, t, ok) != s {
      InvMove(s, InitializeStep(s, t, ok), t);
    }
  }

  lemma InvStopDiscarded(s: Sys, t: nat)
    requires Inv(s)
    ensures Inv(StopDiscardedStep(s, t))
  {
    if StopDiscardedStep(s, t) != s {
      InvMove(s, StopDiscardedStep(s, t), t);
    }
  }

  lemma InvNotify(s: Sys, t: nat)
    requires Inv(s)
    ensures Inv(NotifyStep(s, t))
  {
    if NotifyStep(s, t) != s {
      InvMove(s, NotifyStep(s, t), t);
    }
  }

  lemma InvColdRegister(s: Sys, t: nat)
    requires Inv(s)
    ensures Inv(ColdRegisterStep(s, t))
  {
    if ColdRegisterStep(s, t) != s {
      InvMove(s, ColdRegisterStep(s, t), t);
    }
  }

  lemma InvCancelStart(s: Sys, t: nat)
    requires Inv(s)
    ensures Inv(CancelStartStep(s, t))
  {
    hide Owned, Waited, Cleared;
    if CancelStartStep(s, t) != s {
      InvMove(s, CancelStartStep(s, t), t);
    }
  }

  lemma InvStopRejected(s: Sys, t: nat)
    requires Inv(s)
    ensures Inv(StopRejectedStep(s, t))
  {
    if StopRejectedStep(s, t) != s {
      InvMove(s, StopRejectedStep(s, t), t);
    }
  }

  lemma InvTurnEnds(s: Sys, t: nat)
    requires Inv(s)
    ensures Inv(TurnEndsStep(s, t))
  {
    if TurnEndsStep(s, t) != s {
      InvMove(s, TurnEndsStep(s, t), t);
    }
  }

  lemma InvUnregister(s: Sys, t: nat)
    requires Inv(s)
    ensures Inv(UnregisterStep(s, t))
  {
    if UnregisterStep(s, t) != s {
      InvMove(s, UnregisterStep(s, t), t);
    }
  }

  // A prewarm reports, a turn starts.

  lemma PrewarmHoldsSlot(s: Sys, t: nat)
    requires Bounded(s) && PrewarmAt(s, t)
    ensures s.pool.spawning >= 1 && |s.pool.workers| < CONSOLE_WARM_POOL_TARGET
  {
    assert InFlight(s.tasks) - {t} < InFlight(s.tasks);
    assert |InFlight(s.tasks)| >= 1;
  }

  /** The task's worker joins the pool; the task keeps only its debt. */
  ghost predicate Pools(s: Sys, s': Sys, t: nat) {
    && PrewarmAt(s, t) && s.tasks[t].stage.Initialized?
    && s' == s.(
         pool := s.pool.(
           workers := s.pool.workers + [s.tasks[t].stage.worker],
           spawning := SaturatingDecrement(s.pool.spawning)),
         tasks := s.tasks[t := OwesNotify])
  }

  lemma InvPooled(s: Sys, s': Sys, t: nat)
    requires Inv(s) && Pools(s, s', t)
    requires !s.pool.shuttingDown
    ensures Inv(s')
  {
    var w := s.tasks[t].stage.worker;
    PooledFacts(s, s', t);
    PooledDistinct(s, s', t);
    PooledOwned(s, s', t);
    hide Distinct, Owned;
    Elsewhere(s, s', t);
    PrewarmHoldsSlot(s, t);
    assert OwesSpawnNotice(s', t);
  }

  lemma PooledFacts(s: Sys, s': Sys, t: nat)
    requires Pools(s, s', t)
    ensures Holds(s, t, s.tasks[t].stage.worker.pid)
    ensures forall pid: nat {:trigger Holds(s, t, pid)} :: Holds(s, t, pid) ==> pid == s.tasks[t].stage.worker.pid
    ensures forall pid: nat {:trigger Holds(s', t, pid)} :: !Holds(s', t, pid)
    ensures forall pid: nat {:trigger HasTurn(s, t, pid)} :: !HasTurn(s, t, pid)
    ensures forall pid: nat {:trigger HasTurn(s', t, pid)} :: !HasTurn(s', t, pid)
    ensures forall pid: nat {:trigger InPool(s, pid)} {:trigger InPool(s', pid)} ::
              InPool(s', pid) <==> InPool(s, pid) || pid == s.tasks[t].stage.worker.pid
  {
    forall pid: nat
      ensures InPool(s', pid) <==> InPool(s, pid) || pid == s.tasks[t].stage.worker.pid
    {
      var n := |s.pool.workers|;
      assert s'.pool.workers[n] == s.tasks[t].stage.worker;
      assert forall i :: 0 <= i < n ==> s'.pool.workers[i] == s.pool.workers[i];
    }
  }

  lemma PooledDistinct(s: Sys, s': Sys, t: nat)
    requires Inv(s) && Pools(s, s', t)
    ensures Distinct(s')
  {
    hide Bounded, Owned, Latched, Waited, Cleared;
    PooledFacts(s, s', t);
    Elsewhere(s, s', t);
    var pid := s.tasks[t].stage.worker.pid;
    assert !InPool(s, pid);
    assert forall i :: 0 <= i < |s.pool.workers| ==> InPool(s, s.pool.workers[i].pid);
  }

  lemma PooledOwned(s: Sys, s': Sys, t: nat)
    requires Inv(s) && Pools(s, s', t)
    ensures Owned(s')
  {
    hide Bounded, Distinct, Latched, Waited, Cleared;
    PooledFacts(s, s', t);
    Elsewhere(s, s', t);
  }

  lemma InvPrewarmSettles(s: Sys, t: nat)
    requires Inv(s)
    ensures Inv(PrewarmSettlesStep(s, t))
  {
    var s' := PrewarmSettlesStep(s, t);
    if s' != s {
      PrewarmHoldsSlot(s, t);
      if s.tasks[t].stage.Initialized? && !s.pool.shuttingDown {
        InvPooled(s, s', t);
      } else {
        InvMove(s, s', t);
      }
    }
  }

  /** Dead workers at the back of the pool are dropped. */
  lemma InvDrop(s: Sys, rest: seq<Worker>)
    requires Inv(s) && rest <= s.pool.workers
    requires forall i :: |rest| <= i < |s.pool.workers| ==> s.pool.workers[i].pid !in s.live
    ensures Inv(s.(pool := s.pool.(workers := rest)))
  {
    var s' := s.(pool := s.pool.(workers := rest));
    Elsewhere(s, s', s.nextTask);
    assert forall t: nat, pid: nat {:trigger Holds(s', t, pid)} {:trigger Holds(s, t, pid)} ::
        Holds(s', t, pid) <==> Holds(s, t, pid);
    assert forall t: nat, pid: nat {:trigger HasTurn(s', t, pid)} {:trigger HasTurn(s, t, pid)} ::
        HasTurn(s', t, pid) <==> HasTurn(s, t, pid);
    assert forall i :: 0 <= i < |rest| ==> rest[i] == s.pool.workers[i];
    assert forall pid: nat {:trigger InPool(s', pid)} :: InPool(s', pid) ==> InPool(s, pid);
    forall pid: nat | InPool(s, pid) && pid in s.live ensures InPool(s', pid) {
      var i :| 0 <= i < |s.pool.workers| && s.pool.workers[i].pid == pid;
      assert rest[i].pid == pid;
    }
  }

  /** The last worker of the pool goes to a new turn. */
  ghost predicate Leases(s: Sys, s': Sys, w: Worker) {
    && s.pool.workers != [] && s.pool.workers[|s.pool.workers| - 1] == w
    && !s.pool.shuttingDown
    && s' == AddTask(
         s.(pool := s.pool.(workers := s.pool.workers[..|s.pool.workers| - 1], active := s.pool.active[w.pid := w.pgid])),
         Running(w))
  }

  lemma LeaseFacts(s: Sys, s': Sys, w: Worker)
    requires Inv(s) && Leases(s, s', w)
    ensures InPool(s, w.pid) && !InPool(s', w.pid) && w.pgid == w.pid
    ensures forall pid: nat {:trigger InPool(s, pid)} {:trigger InPool(s', pid)} ::
              InPool(s, pid) <==> InPool(s', pid) || pid == w.pid
    ensures SameElsewhere(s, s', s.nextTask) && s.nextTask !in s.tasks
    ensures Holds(s', s.nextTask, w.pid) && HasTurn(s', s.nextTask, w.pid)
    ensures forall pid: nat {:trigger Holds(s', s.nextTask, pid)} :: Holds(s', s.nextTask, pid) ==> pid == w.pid
    ensures forall pid: nat {:trigger HasTurn(s', s.nextTask, pid)} :: HasTurn(s', s.nextTask, pid) ==> pid == w.pid
  {
    hide Bounded, Owned, Latched, Waited, Cleared, Holds;
    var n := |s.pool.workers| - 1;
    assert forall i :: 0 <= i < n ==> s'.pool.workers[i] == s.pool.workers[i];
    assert forall i :: 0 <= i < n ==> s.pool.workers[i].pid != w.pid;
    forall pid: nat
      ensures InPool(s, pid) <==> InPool(s', pid) || pid == w.pid
    {
      assert forall i :: 0 <= i <= n ==> i < n || s.pool.workers[i] == w;
    }
    LeaseHolds(s, s', w);
  }

  lemma LeaseHolds(s: Sys, s': Sys, w: Worker)
    requires Leases(s, s', w)
    ensures Holds(s', s.nextTask, w.pid) && HasTurn(s', s.nextTask, w.pid)
    ensures forall pid: nat {:trigger Holds(s', s.nextTask, pid)} :: Holds(s', s.nextTask, pid) ==> pid == w.pid
    ensures forall pid: nat {:trigger HasTurn(s', s.nextTask, pid)} :: HasTurn(s', s.nextTask, pid) ==> pid == w.pid
  {
  }

  lemma LeaseDistinct(s: Sys, s': Sys, w: Worker)
    requires Inv(s) && Leases(s, s', w)
    ensures Distinct(s')
  {
    hide Bounded, Owned, Latched, Waited, Cleared;
    LeaseFacts(s, s', w);
    Elsewhere(s, s', s.nextTask);
    assert forall i :: 0 <= i < |s'.pool.workers| ==> s'.pool.workers[i] == s.pool.workers[i];
  }

  lemma LeaseOwned(s: Sys, s': Sys, w: Worker)
    requires Inv(s) && Leases(s, s', w)
    ensures Owned(s')
  {
    LeaseFacts(s, s', w);
    hide Bounded, Distinct, Latched, Waited, Cleared;
    Elsewhere(s, s', s.nextTask);
  }

  lemma InvLease(s: Sys, s': Sys, w: Worker)
    requires Inv(s) && Leases(s, s', w)
    ensures Inv(s')
  {
    LeaseDistinct(s, s', w);
    LeaseOwned(s, s', w);
    LeaseFacts(s, s', w);
    hide Distinct, Owned;
    Elsewhere(s, s', s.nextTask);
  }

  lemma InvStartTurn(s: Sys, warmCompatible: bool)
    requires Inv(s)
    ensures Inv(StartTurnStep(s, warmCompatible))
  {
    if warmCompatible && !s.pool.shuttingDown {
      hide Inv;
      InvWarmStart(s);
    } else {
      InvColdStart(s);
    }
  }

  /** The pool after the dead workers behind the leased one were dropped. */
  ghost function Popped(s: Sys): Sys {
    var (rest, leased) := PopAlive(s.pool.workers, s.live);
    s.(pool := s.pool.(workers := if leased.Some? then rest + [leased.value] else rest))
  }

  lemma InvWarmStart(s: Sys)
    requires Inv(s) && !s.pool.shuttingDown
    ensures Inv(StartTurnStep(s, true))
  {
    hide Inv, Leases, PopAlive;
    var (rest, leased) := PopAlive(s.pool.workers, s.live);
    PopAliveMeaning(s.pool.workers, s.live);
    assert Popped(s).pool.workers <= s.pool.workers;
    InvDrop(s, Popped(s).pool.workers);
    WarmStartCases(s);
    if leased.Some? {
      InvLease(Popped(s), StartTurnStep(s, true), leased.value);
    } else {
      InvColdStart(Popped(s));
    }
  }

  lemma WarmStartCases(s: Sys)
    requires !s.pool.shuttingDown
    ensures var leased := PopAlive(s.pool.workers, s.live).1;
      if leased.Some? then Leases(Popped(s), StartTurnStep(s, true), leased.value)
      else StartTurnStep(s, true) == AddTask(Popped(s), ColdStarting(Forking))
  {
    var (rest, leased) := PopAlive(s.pool.workers, s.live);
    hide PopAlive;
    if leased.Some? {
      assert Popped(s).pool.workers[..|rest|] == rest;
    }
  }

  lemma InvColdStart(s: Sys)
    requires Inv(s)
    ensures Inv(AddTask(s, ColdStarting(Forking)))
  {
    NewTaskIsNew(s);
    InvMove(s, AddTask(s, ColdStarting(Forking)), s.nextTask);
  }

  lemma NewTaskIsNew(s: Sys)
    requires Inv(s)
    ensures s.nextTask !in s.tasks
  {
  }

  // Process deaths and the shutdown task.

  /** A step that leaves tasks alone and adds no owner. */
  lemma InvNoTask(s: Sys, s': Sys)
    requires Inv(s)
    requires s'.tasks == s.tasks && s'.nextTask == s.nextTask && s'.nextPid == s.nextPid
    requires s'.live <= s.live
    requires s'.pool.spawning == s.pool.spawning && s'.pool.active == s.pool.active
    requires s'.pool.workers == s.pool.workers || s'.pool.workers == []
    requires forall pid: nat :: pid in s'.live && InPool(s, pid) ==> InPool(s', pid) || HeldByShutdown(s', pid)
    requires forall pid: nat :: pid in s'.live && HeldByShutdown(s, pid) ==> HeldByShutdown(s', pid)
    requires Latched(s') && Waited(s') && Cleared(s')
    ensures Inv(s')
  {
    Elsewhere(s, s', s.nextTask);
    assert forall t: nat, pid: nat {:trigger Holds(s', t, pid)} {:trigger Holds(s, t, pid)} ::
        Holds(s', t, pid) <==> Holds(s, t, pid);
    assert forall t: nat, pid: nat {:trigger HasTurn(s', t, pid)} {:trigger HasTurn(s, t, pid)} ::
        HasTurn(s', t, pid) <==> HasTurn(s, t, pid);
    hide Latched, Waited, Cleared;
  }

  lemma InvKill(s: Sys, pid: nat)
    requires Inv(s)
    ensures Inv(Kill(s, pid))
  {
    var s' := Kill(s, pid);
    assert forall t: nat {:trigger OwesSpawnNotice(s, t)} :: OwesSpawnNotice(s, t) ==> OwesSpawnNotice(s', t);
    InvNoTask(s, s');
  }

  lemma InvLatch(s: Sys)
    requires Inv(s)
    ensures Inv(LatchStep(s))
  {
    var s' := LatchStep(s);
    if s' != s {
      if s'.shutdown.ParkedOnSpawn? {
        assert InFlight(s.tasks) != {};
        var t :| t in InFlight(s.tasks);
        assert OwesSpawnNotice(s', t);
      }
      InvNoTask(s, s');
    }
  }

  lemma InvBudget(s: Sys)
    requires Inv(s)
    ensures Inv(BudgetStep(s))
  {
    if BudgetStep(s) != s {
      InvNoTask(s, BudgetStep(s));
    }
  }

  lemma InvTake(s: Sys)
    requires Inv(s)
    ensures Inv(TakeStep(s))
  {
    var s' := TakeStep(s);
    if s' != s {
      forall pid: nat | pid in s.pool.active ensures pid in s.pool.active.Values {
        assert s.pool.active[pid] == pid;
      }
      InvNoTask(s, s');
    }
  }

  lemma InvStopGroup(s: Sys, group: nat)
    requires Inv(s)
    ensures Inv(StopGroupStep(s, group))
  {
    if StopGroupStep(s, group) != s {
      InvNoTask(s, StopGroupStep(s, group));
    }
  }

  lemma InvStopWorker(s: Sys)
    requires Inv(s)
    ensures Inv(StopWorkerStep(s))
  {
    var s' := StopWorkerStep(s);
    if s' != s {
      forall pid: nat | pid in s'.live && HeldByShutdown(s, pid) ensures HeldByShutdown(s', pid) {
        var held := s.shutdown.held;
        var i :| 0 <= i < |held| && held[i].pid == pid;
        assert held[1..][i - 1] == held[i];
      }
      InvNoTask(s, s');
    }
  }

  lemma InvCheckActive(s: Sys)
    requires Inv(s)
    ensures Inv(CheckActiveStep(s))
  {
    if CheckActiveStep(s) != s {
      InvNoTask(s, CheckActiveStep(s));
    }
  }

  lemma InvPrewarmStep(s: Sys, a: Action)
    requires Inv(s) && IsPrewarmAction(a)
    ensures Inv(Step(s, a))
  {
    hide Inv, ReserveStep, ForkStep, ForkFailsStep, InitializeStep, PrewarmSettlesStep, StopDiscardedStep, NotifyStep;
    match a
    case PrewarmReserve => InvReserve(s);
    case Fork(t) => InvFork(s, t);
    case ForkFails(t) => InvForkFails(s, t);
    case Initialize(t, ok) => InvInitialize(s, t, ok);
    case PrewarmSettles(t) => InvPrewarmSettles(s, t);
    case StopDiscarded(t) => InvStopDiscarded(s, t);
    case NotifySpawnFinished(t) => InvNotify(s, t);
  }

  lemma InvTurnStep(s: Sys, a: Action)
    requires Inv(s) && !IsPrewarmAction(a) && !IsShutdownAction(a)
    ensures Inv(Step(s, a))
  {
    hide Inv, StartTurnStep, ColdRegisterStep, CancelStartStep, StopRejectedStep, TurnEndsStep, UnregisterStep, Kill;
    match a
    case StartTurn(warmCompatible) => InvStartTurn(s, warmCompatible);
    case ColdRegister(t) => InvColdRegister(s, t);
    case CancelStart(t) => InvCancelStart(s, t);
    case StopRejected(t) => InvStopRejected(s, t);
    case TurnEnds(t) => InvTurnEnds(s, t);
    case UnregisterTurn(t) => InvUnregister(s, t);
    case WorkerDies(pid) => InvKill(s, pid);
  }

  lemma InvShutdownStep(s: Sys, a: Action)
    requires Inv(s) && IsShutdownAction(a)
    ensures Inv(Step(s, a))
  {
    hide Inv, LatchStep, BudgetStep, TakeStep, StopGroupStep, StopWorkerStep, CheckActiveStep;
    match a
    case ShutdownLatch => InvLatch(s);
    case ShutdownBudgetExpires => InvBudget(s);
    case ShutdownTake => InvTake(s);
    case ShutdownStopGroup(group) => InvStopGroup(s, group);
    case ShutdownStopWorker => InvStopWorker(s);
    case ShutdownChecksActive => InvCheckActive(s);
  }

  lemma InvStep(s: Sys, a: Action)
    requires Inv(s)
    ensures Inv(Step(s, a))
  {
    hide Inv, Step;
    if IsPrewarmAction(a) {
      InvPrewarmStep(s, a);
    } else if IsShutdownAction(a) {
      InvShutdownStep(s, a);
    } else {
      InvTurnStep(s, a);
    }
  }

  lemma {:induction false} InvRunFrom(s: Sys, actions: seq<Action>)
    requires Inv(s)
    ensures Inv(RunFrom(s, actions))
    decreases |actions|
  {
    if actions != [] {
      hide Inv, Step;
      InvStep(s, actions[0]);
      InvRunFrom(Step(s, actions[0]), actions[1..]);
    }
  }

  lemma InvRun(actions: seq<Action>)
    ensures Inv(RunFrom(INITIAL, actions))
  {
    assert InFlight(INITIAL.tasks) == {};
    InvRunFrom(INITIAL, actions);
  }

  // ---------------------------------------------------------------------------------------------
  // What tasks get done
  // ---------------------------------------------------------------------------------------------

  /** The steps of a prewarm in which nothing fails. */
  predicate IsPrewarmStep(a: Action, t: nat) {
    a == Fork(t) || a == Initialize(t, true) || a == PrewarmSettles(t)
  }

  /** The worker a prewarm has, or will fork next. */
  function WorkerDue(s: Sys, t: nat): Worker
    requires PrewarmAt(s, t)
  {
    GetOr(StageWorker(s.tasks[t].stage), Worker(s.nextPid, s.nextPid))
  }

  lemma ForkKeepsWorkerDue(s: Sys, t: nat)
    requires PrewarmAt(s, t) && s.tasks[t].stage.Forking?
    ensures var s' := ForkStep(s, t);
      && s'.pool == s.pool && PrewarmAt(s', t) && s'.tasks[t].stage.Initializing?
      && WorkerDue(s', t) == WorkerDue(s, t) && s'.live == s.live + {WorkerDue(s, t).pid}
  {
  }

  lemma InitializeKeepsWorkerDue(s: Sys, t: nat)
    requires PrewarmAt(s, t) && s.tasks[t].stage.Initializing?
    ensures var s' := InitializeStep(s, t, true);
      && s'.pool == s.pool && PrewarmAt(s', t) && s'.tasks[t].stage.Initialized?
      && WorkerDue(s', t) == WorkerDue(s, t) && s'.live == s.live
  {
  }

  lemma ReportDelivers(s: Sys, t: nat)
    requires Bounded(s) && PrewarmAt(s, t) && s.tasks[t].stage.Initialized? && !s.pool.shuttingDown
    ensures var s' := PrewarmSettlesStep(s, t);
      && s.pool.spawning > 0
      && s'.pool == s.pool.(workers := s.pool.workers + [WorkerDue(s, t)], spawning := s.pool.spawning - 1)
      && s'.live == s.live
  {
    PrewarmHoldsSlot(s, t);
  }

  lemma RunFromCons(s: Sys, a: Action, rest: seq<Action>)
    ensures RunFrom(s, [a] + rest) == RunFrom(Step(s, a), rest)
  {
    assert ([a] + rest)[1..] == rest;
  }

  /**
   Before shutdown a prewarm that does not fail puts its worker into the pool by its own steps, from
   every reachable state, and leaves the rest of the pool as it is, active turns included.
   */
  lemma {:induction false} PrewarmDelivers(s: Sys, t: nat) returns (actions: seq<Action>)
    requires Inv(s) && PrewarmAt(s, t) && !s.tasks[t].stage.Failed? && !s.pool.shuttingDown
    ensures forall i :: 0 <= i < |actions| ==> IsPrewarmStep(actions[i], t)
    ensures s.pool.spawning > 0
    ensures RunFrom(s, actions).pool
         == s.pool.(workers := s.pool.workers + [WorkerDue(s, t)], spawning := s.pool.spawning - 1)
    decreases match s.tasks[t].stage case Forking => 3 case Initializing(_) => 2 case _ => 1
  {
    var a := match s.tasks[t].stage
      case Forking => Fork(t)
      case Initializing(_) => Initialize(t, true)
      case _ => PrewarmSettles(t);
    if s.tasks[t].stage.Initialized? {
      ReportDelivers(s, t);
      actions := [a];
      RunFromCons(s, a, []);
      assert [a] + [] == [a];
    } else {
      if s.tasks[t].stage.Forking? {
        ForkKeepsWorkerDue(s, t);
      } else {
        InitializeKeepsWorkerDue(s, t);
      }
      InvStep(s, a);
      hide Inv, ForkStep, InitializeStep, WorkerDue;
      var rest := PrewarmDelivers(Step(s, a), t);
      actions := [a] + rest;
      RunFromCons(s, a, rest);
    }
  }

  lemma ReserveStarts(s: Sys)
    requires !s.pool.shuttingDown && |s.pool.workers| + s.pool.spawning < CONSOLE_WARM_POOL_TARGET
    ensures var s' := ReserveStep(s);
      && s'.pool == s.pool.(spawning := s.pool.spawning + 1)
      && PrewarmAt(s', s.nextTask) && s'.tasks[s.nextTask].stage == Forking
      && WorkerDue(s', s.nextTask) == Worker(s.nextPid, s.nextPid)
  {
  }

  /**
   From every reachable state before shutdown whose pool is below its target, whatever turns are active:
   a prewarm's own steps put one more worker into the pool.
   */
  lemma PrewarmFillsPool(actions: seq<Action>) returns (more: seq<Action>)
    requires var p := RunFrom(INITIAL, actions).pool;
      !p.shuttingDown && |p.workers| + p.spawning < CONSOLE_WARM_POOL_TARGET
    ensures var s := RunFrom(INITIAL, actions);
      && RunFrom(s, more).pool == s.pool.(workers := s.pool.workers + [Worker(s.nextPid, s.nextPid)])
      && forall i :: 0 <= i < |more| ==> more[i] == PrewarmReserve || IsPrewarmStep(more[i], s.nextTask)
  {
    InvRun(actions);
    var s := RunFrom(INITIAL, actions);
    ReserveStarts(s);
    InvStep(s, PrewarmReserve);
    hide Inv, RunFrom, WorkerDue, ReserveStep, IsPrewarmStep;
    var rest := PrewarmDelivers(Step(s, PrewarmReserve), s.nextTask);
    more := [PrewarmReserve] + rest;
    RunFromCons(s, PrewarmReserve, rest);
  }

  /** A worker that dies on its own is never leased again, and a start that fails leaves no task. */
  lemma DeadAndFailedStartsGo(s: Sys, t: nat, pid: nat)
    ensures var s' := Step(s, WorkerDies(pid)); pid !in s'.live && s'.pool == s.pool && s'.tasks == s.tasks
    ensures t in s.tasks && s.tasks[t] == ColdStarting(Failed) ==>
              Step(s, ColdRegister(t)) == s.(tasks := s.tasks - {t})
  {
  }

  /** A cold turn that is cancelled leaves neither its task nor its worker behind. */
  lemma CancelledStartLeavesNothing(s: Sys, t: nat)
    requires t in s.tasks && s.tasks[t].ColdStarting?
    ensures var s' := Step(s, CancelStart(t));
      && t !in s'.tasks && s'.pool == s.pool
      && (StageWorker(s.tasks[t].stage).Some? ==> StageWorker(s.tasks[t].stage).value.pid !in s'.live)
  {
  }

  /** A turn that may use the pool leases its most recent live worker; without one it starts cold. */
  lemma TurnLeasesExactly(s: Sys)
    requires !s.pool.shuttingDown
    ensures var s' := Step(s, StartTurn(true));
      && s.nextTask in s'.tasks
      && if exists w | w in s.pool.workers :: w.pid in s.live then
           exists i | 0 <= i < |s.pool.workers| ::
             var w := s.pool.workers[i];
             && s'.tasks[s.nextTask] == Running(w) && w.pid in s.live
             && s'.pool == s.pool.(workers := s.pool.workers[..i], active := s.pool.active[w.pid := w.pgid])
         else s'.tasks[s.nextTask] == ColdStarting(Forking) && s'.pool == s.pool.(workers := [])
  {
    LeaseExactly(s.pool, s.live);
    var (after, worker) := Lease(s.pool, s.live);
    hide Lease;
    assert worker.None? ==> after == s.pool.(workers := []);
    assert worker.Some? <==> exists w | w in s.pool.workers :: w.pid in s.live;
  }

  /** A cold turn runs, registered, unless shutdown has begun when it wants to register: then it is rejected. */
  lemma ColdTurnRunsExactly(s: Sys, t: nat)
    requires t in s.tasks && s.tasks[t] == ColdStarting(Forking)
    ensures var s' := RunFrom(s, [Fork(t), Initialize(t, true), ColdRegister(t)]);
      var w := Worker(s.nextPid, s.nextPid);
      && t in s'.tasks && w.pid in s'.live
      && (if s.pool.shuttingDown then s'.tasks[t] == Rejected(w) && s'.pool == s.pool
          else s'.tasks[t] == Running(w) && s'.pool == s.pool.(active := s.pool.active[w.pid := w.pgid]))
  {
    var s1 := ForkStep(s, t);
    var s2 := InitializeStep(s1, t, true);
    RunFromCons(s, Fork(t), [Initialize(t, true), ColdRegister(t)]);
    RunFromCons(s1, Initialize(t, true), [ColdRegister(t)]);
    RunFromCons(s2, ColdRegister(t), []);
    assert [Fork(t)] + [Initialize(t, true), ColdRegister(t)] == [Fork(t), Initialize(t, true), ColdRegister(t)];
    assert [Initialize(t, true)] + [ColdRegister(t)] == [Initialize(t, true), ColdRegister(t)];
    assert [ColdRegister(t)] + [] == [ColdRegister(t)];
    hide RunFrom;
  }

  // ---------------------------------------------------------------------------------------------
  // Results
  // ---------------------------------------------------------------------------------------------

  /** A slot for every warm or spawning worker, never more than the target. */
  lemma PoolBound(actions: seq<Action>)
    ensures var s := RunFrom(INITIAL, actions);
            && |s.pool.workers| + s.pool.spawning <= CONSOLE_WARM_POOL_TARGET
            && s.pool.spawning == |InFlight(s.tasks)|
  {
    InvRun(actions);
  }

  /**
   When a prewarm reports, the saturating decrement is exact, and a worker that did spawn is
   discarded exactly when shutdown has begun.
   */
  lemma SettlingIsExact(actions: seq<Action>, t: nat)
    requires PrewarmAt(RunFrom(INITIAL, actions), t)
    ensures var s := RunFrom(INITIAL, actions);
            var result := StageWorker(s.tasks[t].stage);
            && SaturatingDecrement(s.pool.spawning) == s.pool.spawning - 1
            && (FinishPrewarm(s.pool, result).1.Some? <==> result.Some? && s.pool.shuttingDown)
  {
    InvRun(actions);
    PrewarmHoldsSlot(RunFrom(INITIAL, actions), t);
  }

  /** Whenever shutdown is parked, some task still owes the notification it waits for. */
  lemma NoLostWakeup(actions: seq<Action>)
    ensures var s := RunFrom(INITIAL, actions);
            && (s.shutdown.ParkedOnSpawn? ==> exists t: nat :: OwesSpawnNotice(s, t))
            && (s.shutdown.ParkedOnActive? ==> exists t: nat, pid: nat :: HasTurn(s, t, pid))
  {
    InvRun(actions);
    var s := RunFrom(INITIAL, actions);
    if s.shutdown.ParkedOnActive? {
      var pid: nat :| pid in s.pool.active;
      assert exists t: nat :: HasTurn(s, t, pid);
    }
  }

  /** The action is a step of task t. */
  predicate ActsFor(a: Action, t: nat) {
    match a
    case ForkFails(u) => u == t
    case Initialize(u, _) => u == t
    case PrewarmSettles(u) => u == t
    case StopDiscarded(u) => u == t
    case NotifySpawnFinished(u) => u == t
    case ColdRegister(u) => u == t
    case CancelStart(u) => u == t
    case StopRejected(u) => u == t
    case TurnEnds(u) => u == t
    case UnregisterTurn(u) => u == t
    case _ => false
  }

  /** Such a task can always pay on its own, and paying wakes shutdown. */
  lemma SpawnDebtorPays(s: Sys, t: nat) returns (actions: seq<Action>)
    requires OwesSpawnNotice(s, t) && s.shutdown.ParkedOnSpawn?
    ensures forall i :: 0 <= i < |actions| ==> ActsFor(actions[i], t)
    ensures RunFrom(s, actions).shutdown.SpawnWoken?
    decreases match s.tasks[t]
              case Prewarming(Forking) => 4
              case Prewarming(Initializing(_)) => 4
              case Prewarming(_) => 3
              case Discarding(_) => 2
              case _ => 1
  {
    var task := s.tasks[t];
    var a := match task
      case Prewarming(Forking) => ForkFails(t)
      case Prewarming(Initializing(_)) => Initialize(t, true)
      case Prewarming(_) => PrewarmSettles(t)
      case Discarding(_) => StopDiscarded(t)
      case _ => NotifySpawnFinished(t);
    var s' := Step(s, a);
    if task.OwesNotify? {
      actions := [a];
      assert RunFrom(s', []) == s';
    } else {
      var rest := SpawnDebtorPays(s', t);
      actions := [a] + rest;
      assert actions[1..] == rest;
    }
  }

  lemma ActiveDebtorPays(s: Sys, t: nat, pid: nat) returns (actions: seq<Action>)
    requires HasTurn(s, t, pid) && s.shutdown.ParkedOnActive?
    ensures forall i :: 0 <= i < |actions| ==> ActsFor(actions[i], t)
    ensures RunFrom(s, actions).shutdown.CheckActive?
  {
    if s.tasks[t].Running? {
      var s1 := Step(s, TurnEnds(t));
      actions := [TurnEnds(t), UnregisterTurn(t)];
      assert s1.tasks[t].Stopped? && s1.shutdown.ParkedOnActive?;
      assert actions[1..] == [UnregisterTurn(t)] && actions[1..][1..] == [];
      assert RunFrom(s, actions) == RunFrom(s1, [UnregisterTurn(t)])
          == RunFrom(Step(s1, UnregisterTurn(t)), []);
    } else {
      actions := [UnregisterTurn(t)];
      assert actions[1..] == [];
    }
  }

  /** Every live worker leader is in the pool, held by a task, or held by shutdown. */
  lemma NobodyIsOrphaned(actions: seq<Action>, pid: nat)
    requires pid in RunFrom(INITIAL, actions).live
    ensures var s := RunFrom(INITIAL, actions);
            InPool(s, pid) || HeldByTask(s, pid) || HeldByShutdown(s, pid)
  {
    InvRun(actions);
  }

  /** After the latch nothing enters the pool or the active map, whatever happens. */
  lemma LatchedStep(s: Sys, a: Action)
    requires s.pool.shuttingDown
    ensures var s' := Step(s, a);
            && s'.pool.shuttingDown
            && s'.pool.workers <= s.pool.workers
            && s'.pool.active.Keys <= s.pool.active.Keys
  {
  }

  lemma {:induction false} NothingEntersAfterLatch(s: Sys, actions: seq<Action>)
    requires s.pool.shuttingDown
    ensures var s' := RunFrom(s, actions);
            && s'.pool.shuttingDown
            && s'.pool.workers <= s.pool.workers
            && s'.pool.active.Keys <= s.pool.active.Keys
    decreases |actions|
  {
    if actions != [] {
      LatchedStep(s, actions[0]);
      hide Step;
      NothingEntersAfterLatch(Step(s, actions[0]), actions[1..]);
    }
  }

  /** Task t holds the process, and after the latch it can only stop it. */
  ghost predicate Doomed(s: Sys, t: nat, pid: nat) {
    Holds(s, t, pid) && !s.tasks[t].Running? && !s.tasks[t].Stopped?
  }

  /**
   When shutdown is done, whether its waits were answered or its budget ran out, the pool is empty,
   no active group is alive, and every worker still alive is in the hands of a task that must stop
   it.
   */
  lemma DoneLeavesOnlyDoomedWorkers(actions: seq<Action>)
    requires RunFrom(INITIAL, actions).shutdown.Done?
    ensures var s := RunFrom(INITIAL, actions);
            && s.pool.shuttingDown && s.pool.workers == []
            && (forall pid: nat :: pid in s.live ==> pid !in s.pool.active && exists t: nat :: Doomed(s, t, pid))
            && (s.tasks == map[] ==> s.live == {})
  {
    InvRun(actions);
    var s := RunFrom(INITIAL, actions);
    forall pid: nat | pid in s.live
      ensures pid !in s.pool.active && exists t: nat :: Doomed(s, t, pid)
    {
      var t: nat :| Holds(s, t, pid);
      assert HasTurn(s, t, pid) ==> pid in s.pool.active;
      assert Doomed(s, t, pid);
    }
  }

  /** A doomed worker stays with its task until it is dead. */
  lemma DoomedStaysDoomed(s: Sys, a: Action, t: nat, pid: nat)
    requires Inv(s) && s.pool.shuttingDown && Doomed(s, t, pid)
    ensures var s' := Step(s, a); pid !in s'.live || Doomed(s', t, pid)
  {
    hide Bounded, Owned, Latched, Waited, Cleared;
    assert t < s.nextTask;
  }

  /** How many steps a task may still take before it stops the worker it holds. */
  function StepsToStop(task: Task): nat {
    match task
    case Prewarming(Initializing(_)) => 3
    case Prewarming(_) => 2
    case ColdStarting(Initializing(_)) => 3
    case ColdStarting(_) => 2
    case _ => 1
  }

  /** After the latch every step of the task itself stops the doomed worker or comes closer to it. */
  lemma DoomedStepsStop(s: Sys, a: Action, t: nat, pid: nat)
    requires s.pool.shuttingDown && Doomed(s, t, pid) && ActsFor(a, t) && Step(s, a) != s
    ensures var s' := Step(s, a);
            pid !in s'.live || (Doomed(s', t, pid) && StepsToStop(s'.tasks[t]) < StepsToStop(s.tasks[t]))
  {
  }

  /** And the task always has such a step, so it reaches the stop by its own steps alone. */
  lemma DoomedDies(s: Sys, t: nat, pid: nat) returns (actions: seq<Action>)
    requires s.pool.shuttingDown && Doomed(s, t, pid)
    ensures forall i :: 0 <= i < |actions| ==> ActsFor(actions[i], t)
    ensures pid !in RunFrom(s, actions).live
    decreases StepsToStop(s.tasks[t])
  {
    var a := match s.tasks[t]
      case Prewarming(Initializing(_)) => Initialize(t, true)
      case Prewarming(_) => PrewarmSettles(t)
      case Discarding(_) => StopDiscarded(t)
      case ColdStarting(Initializing(_)) => Initialize(t, true)
      case ColdStarting(_) => ColdRegister(t)
      case _ => StopRejected(t);
    var s' := Step(s, a);
    assert s'.pool.shuttingDown && s' != s;
    DoomedStepsStop(s, a, t, pid);
    if pid !in s'.live {
      actions := [a];
      assert RunFrom(s', []) == s';
    } else {
      hide Step, Doomed, ActsFor;
      var rest := DoomedDies(s', t, pid);
      actions := [a] + rest;
      assert actions[1..] == rest;
    }
  }

  /** The budget can run out while a spawn is in flight; its worker is then stopped by its task. */
  lemma BudgetExpiresDuringSpawn()
    ensures var s := RunFrom(INITIAL, [PrewarmReserve, Fork(0), ShutdownLatch, ShutdownBudgetExpires, ShutdownTake,
                                       ShutdownStopWorker, ShutdownChecksActive]);
            && s == Sys(Pool([], 1, map[], true), map[0 := Prewarming(Initializing(Worker(0, 0)))], {0}, 1, 1, Done)
            && Doomed(s, 0, 0)
            && RunFrom(s, [Initialize(0, true), PrewarmSettles(0), StopDiscarded(0)]).live == {}
  {
    var w := Worker(0, 0);
    var all := [PrewarmReserve, Fork(0), ShutdownLatch, ShutdownBudgetExpires, ShutdownTake, ShutdownStopWorker,
                ShutdownChecksActive];
    var s1 := Sys(Pool([], 1, map[], false), map[0 := Prewarming(Forking)], {}, 0, 1, NotStarted);
    Next(INITIAL, all, s1);
    var s2 := s1.(tasks := map[0 := Prewarming(Initializing(w))], live := {0}, nextPid := 1);
    Next(s1, all[1..], s2);
    var s3 := s2.(pool := Pool([], 1, map[], true), shutdown := ParkedOnSpawn);
    Next(s2, all[2..], s3);
    Next(s3, all[3..], s3.(shutdown := Taking));
    Next(s3.(shutdown := Taking), all[4..], s3.(shutdown := Stopping({}, [])));
    Next(s3.(shutdown := Stopping({}, [])), all[5..], s3.(shutdown := CheckActive));
    var s7 := s3.(shutdown := Done);
    Next(s3.(shutdown := CheckActive), all[6..], s7);
    assert Holds(s7, 0, 0);
    LateWorkerIsStopped(s7);
    hide RunFrom;
  }

  lemma LateWorkerIsStopped(s7: Sys)
    requires s7 == Sys(Pool([], 1, map[], true), map[0 := Prewarming(Initializing(Worker(0, 0)))], {0}, 1, 1, Done)
    ensures RunFrom(s7, [Initialize(0, true), PrewarmSettles(0), StopDiscarded(0)]).live == {}
  {
    var w := Worker(0, 0);
    var last := [Initialize(0, true), PrewarmSettles(0), StopDiscarded(0)];
    var s8 := s7.(tasks := map[0 := Prewarming(Initialized(w))]);
    Next(s7, last, s8);
    var s9 := s8.(tasks := map[0 := Discarding(w)], pool := Pool([], 0, map[], true));
    Next(s8, last[1..], s9);
    Next(s9, last[2..], s9.(tasks := map[0 := OwesNotify], live := {}));
  }

  lemma Next(s: Sys, actions: seq<Action>, s': Sys)
    requires actions != [] && Step(s, actions[0]) == s'
    ensures RunFrom(s, actions) == RunFrom(s', actions[1..])
  {
  }

  // Shutdown terminates.

  ghost function Debtors(s: Sys): set<nat> {
    set t | t in s.tasks && OwesSpawnNotice(s, t)
  }

  /** How far shutdown still has to go: a phase, and a count within it. */
  ghost function Remaining(s: Sys): (nat, nat) {
    Rank(s.shutdown, |Debtors(s)|, |s.pool.active|)
  }

  ghost function Rank(x: Shutdown, debtors: nat, active: nat): (nat, nat) {
    match x
    case NotStarted => (5, 0)
    case SpawnWoken => (4, 2 * debtors + 1)
    case ParkedOnSpawn => (4, 2 * debtors)
    case Taking => (3, 0)
    case Stopping(groups, held) => (2, |groups| + |held|)
    case CheckActive => (1, 2 * active + 1)
    case ParkedOnActive => (1, 2 * active)
    case Done => (0, 0)
  }

  ghost predicate Less(a: (nat, nat), b: (nat, nat)) {
    a.0 < b.0 || (a.0 == b.0 && a.1 < b.1)
  }

  lemma NoNewDebtor(s: Sys, a: Action, u: nat)
    requires s.pool.shuttingDown && OwesSpawnNotice(Step(s, a), u)
    ensures OwesSpawnNotice(s, u)
  {
  }

  lemma SpawnWakeIsPaid(s: Sys, a: Action)
    requires s.shutdown.ParkedOnSpawn? && Step(s, a).shutdown.SpawnWoken?
    ensures a.NotifySpawnFinished? && OwesSpawnNotice(s, a.t) && !OwesSpawnNotice(Step(s, a), a.t)
  {
  }

  lemma DebtorsShrink(s: Sys, a: Action)
    requires s.pool.shuttingDown
    ensures var s' := Step(s, a);
            && |Debtors(s')| <= |Debtors(s)|
            && (s.shutdown.ParkedOnSpawn? && s'.shutdown.SpawnWoken? ==> |Debtors(s')| < |Debtors(s)|)
  {
    hide Step;
    var s' := Step(s, a);
    forall u: nat | u in Debtors(s') ensures u in Debtors(s) {
      NoNewDebtor(s, a, u);
    }
    SubsetSize(Debtors(s'), Debtors(s));
    if s.shutdown.ParkedOnSpawn? && s'.shutdown.SpawnWoken? {
      SpawnWakeIsPaid(s, a);
      SubsetSize(Debtors(s'), Debtors(s) - {a.t});
    }
  }

  lemma {:induction false} SubsetSize<T>(a: set<T>, b: set<T>)
    requires a <= b
    ensures |a| <= |b|
  {
    if a != {} {
      var x :| x in a;
      SubsetSize(a - {x}, b - {x});
    }
  }

  lemma ActiveWakeIsPaid(s: Sys, a: Action) returns (pid: nat)
    requires Owned(s) && s.shutdown.ParkedOnActive? && Step(s, a).shutdown.CheckActive?
    ensures pid in s.pool.active && Step(s, a).pool.active.Keys == s.pool.active.Keys - {pid}
  {
    hide FinishPrewarm, Lease, Register, Latch;
    assert a.UnregisterTurn?;
    pid := s.tasks[a.t].worker.pid;
    assert HasTurn(s, a.t, pid);
  }

  lemma ActiveShrinks(s: Sys, a: Action)
    requires Inv(s) && s.pool.shuttingDown
    ensures var s' := Step(s, a);
            && |s'.pool.active| <= |s.pool.active|
            && (s.shutdown.ParkedOnActive? && s'.shutdown.CheckActive? ==> |s'.pool.active| < |s.pool.active|)
  {
    LatchedStep(s, a);
    assert Owned(s);
    hide Inv, Owned, Step;
    var s' := Step(s, a);
    SubsetSize(s'.pool.active.Keys, s.pool.active.Keys);
    if s.shutdown.ParkedOnActive? && s'.shutdown.CheckActive? {
      var pid := ActiveWakeIsPaid(s, a);
      SubsetSize(s'.pool.active.Keys, s.pool.active.Keys - {pid});
    }
  }

  /** The only ways the shutdown task's state can change. */
  ghost predicate ShutdownMove(x: Shutdown, y: Shutdown) {
    match x
    case NotStarted => y.Taking? || y.ParkedOnSpawn?
    case SpawnWoken => y.Taking? || y.ParkedOnSpawn?
    case ParkedOnSpawn => y.SpawnWoken? || y.Taking?
    case Taking => y.Stopping?
    case Stopping(groups, held) =>
      || y.CheckActive?
      || (y.Stopping? && |y.groups| + |y.held| < |groups| + |held|)
    case CheckActive => y.Done? || y.ParkedOnActive?
    case ParkedOnActive => y.CheckActive? || y.Done?
    case Done => false
  }

  lemma ShutdownMoves(s: Sys, a: Action)
    ensures var s' := Step(s, a); s'.shutdown == s.shutdown || ShutdownMove(s.shutdown, s'.shutdown)
  {
    hide FinishPrewarm, Lease, Register, Unregister, Latch, StageWorker, WithStage;
    match a
    case NotifySpawnFinished(_) =>
    case UnregisterTurn(_) =>
    case ShutdownLatch =>
    case ShutdownBudgetExpires =>
    case ShutdownTake =>
    case ShutdownStopGroup(group) => GroupStops(s, group);
    case ShutdownStopWorker => WorkerStops(s);
    case ShutdownChecksActive =>
    case _ => TaskStepsKeepShutdown(s, a);
  }

  lemma GroupStops(s: Sys, group: nat)
    ensures var s' := Step(s, ShutdownStopGroup(group));
      s'.shutdown == s.shutdown || ShutdownMove(s.shutdown, s'.shutdown)
  {
    if s.shutdown.Stopping? {
      assert group in s.shutdown.groups ==> |s.shutdown.groups - {group}| < |s.shutdown.groups|;
    }
  }

  lemma WorkerStops(s: Sys)
    ensures var s' := Step(s, ShutdownStopWorker);
      s'.shutdown == s.shutdown || ShutdownMove(s.shutdown, s'.shutdown)
  {
  }

  lemma TaskStepsKeepShutdown(s: Sys, a: Action)
    requires !a.NotifySpawnFinished? && !a.UnregisterTurn?
    requires !a.ShutdownLatch? && !a.ShutdownBudgetExpires? && !a.ShutdownTake?
    requires !a.ShutdownStopGroup? && !a.ShutdownStopWorker? && !a.ShutdownChecksActive?
    ensures Step(s, a).shutdown == s.shutdown
  {
    hide FinishPrewarm, Lease, Register, StageWorker, WithStage;
  }

  lemma RankDrops(x: Shutdown, debtors: nat, active: nat, y: Shutdown, debtors': nat, active': nat)
    requires debtors' <= debtors && active' <= active
    requires x.ParkedOnSpawn? && y.SpawnWoken? ==> debtors' < debtors
    requires x.ParkedOnActive? && y.CheckActive? ==> active' < active
    requires y == x || ShutdownMove(x, y)
    ensures !Less(Rank(x, debtors, active), Rank(y, debtors', active'))
    ensures y == x || Less(Rank(y, debtors', active'), Rank(x, debtors, active))
  {
  }

  /**
   Once begun, shutdown only gets closer to done: every change of its state decreases what remains,
   and no step of anyone else increases it.
   */
  lemma ShutdownOnlyAdvances(s: Sys, a: Action)
    requires Inv(s) && !s.shutdown.NotStarted?
    ensures var s' := Step(s, a);
            && !Less(Remaining(s), Remaining(s'))
            && (s'.shutdown == s.shutdown || Less(Remaining(s'), Remaining(s)))
  {
    assert s.pool.shuttingDown;
    hide Inv, Debtors, Step, Rank, Less, ShutdownMove;
    DebtorsShrink(s, a);
    ActiveShrinks(s, a);
    ShutdownMoves(s, a);
    var s' := Step(s, a);
    RankDrops(s.shutdown, |Debtors(s)|, |s.pool.active|, s'.shutdown, |Debtors(s')|, |s'.pool.active|);
  }

  /** A step of shutdown itself; its budget is its own. */
  /**
   Shutdown waits for what it must: it goes on past a spawn only when none is in flight or its budget has
   run out, and is done only when no turn is active or its budget has run out.
   */
  lemma ShutdownWaitsExactly(s: Sys, a: Action)
    requires Inv(s) && Step(s, a).shutdown != s.shutdown && !a.ShutdownBudgetExpires?
    ensures Step(s, a).shutdown.Taking? ==> InFlight(s.tasks) == {}
    ensures Step(s, a).shutdown.Done? ==> s.pool.active == map[] && Step(s, a).pool.active == map[]
  {
    assert s.pool.spawning == 0 <==> InFlight(s.tasks) == {};
    hide Inv, InFlight, LatchStep, CheckActiveStep;
    if IsShutdownAction(a) {
      LatchWaits(s);
      CheckWaits(s);
    } else if a.NotifySpawnFinished? || a.UnregisterTurn? {
      WakeUps(s, a.t);
      hide NotifyStep, UnregisterStep;
    } else {
      hide Step;
      TaskStepsKeepShutdown(s, a);
    }
  }

  lemma WakeUps(s: Sys, t: nat)
    ensures NotifyStep(s, t).shutdown == s.shutdown || NotifyStep(s, t).shutdown.SpawnWoken?
    ensures UnregisterStep(s, t).shutdown == s.shutdown || UnregisterStep(s, t).shutdown.CheckActive?
  {
  }

  lemma LatchWaits(s: Sys)
    ensures LatchStep(s).shutdown.Taking? && !s.shutdown.Taking? ==> s.pool.spawning == 0
    ensures LatchStep(s).shutdown.Done? ==> LatchStep(s) == s
  {
  }

  lemma CheckWaits(s: Sys)
    ensures CheckActiveStep(s).shutdown.Done? && !s.shutdown.Done? ==>
              s.pool.active == map[] && CheckActiveStep(s).pool == s.pool
    ensures CheckActiveStep(s).shutdown.Taking? ==> CheckActiveStep(s) == s
  {
  }

  /** And it is never stuck: until it is done it has a step of its own, waiting included. */
  lemma ShutdownNeverStuck(s: Sys)
    requires !s.shutdown.Done?
    ensures exists a: Action :: IsShutdownAction(a) && Step(s, a).shutdown != s.shutdown
  {
    var a := match s.shutdown
      case NotStarted => ShutdownLatch
      case SpawnWoken => ShutdownLatch
      case ParkedOnSpawn => ShutdownBudgetExpires
      case Taking => ShutdownTake
      case Stopping(groups, held) =>
        if groups == {} then ShutdownStopWorker else (var g :| g in groups; ShutdownStopGroup(g))
      case CheckActive => ShutdownChecksActive
      case ParkedOnActive => ShutdownBudgetExpires;
    if s.shutdown.Stopping? && s.shutdown.groups == {} && s.shutdown.held != [] {
      assert |s.shutdown.held[1..]| < |s.shutdown.held|;
    }
    assert IsShutdownAction(a) && Step(s, a).shutdown != s.shutdown;
  }
}
