/**
 The warm-worker pool of the Codex console (engine/src/codex_exec.rs).

 Every function of this module is one section the code runs while it holds the pool lock; the
 class holds the pool's fields and its methods are those sections.
 */
module WorkerPool {
  import opened Wrappers

  const CONSOLE_WARM_POOL_TARGET: nat := 1

  /** A provider process, leader of its own process group. */
  datatype Worker = Worker(pid: nat, pgid: nat)

  datatype Pool = Pool(
    workers: seq<Worker>,
    spawning: nat,
    active: map<nat, nat>,     // pid to process group
    shuttingDown: bool)

  const EMPTY_POOL := Pool([], 0, map[], false)

  // ---------------------------------------------------------------------------------------------
  // Sections under the lock
  // ---------------------------------------------------------------------------------------------

  predicate CanReserve(p: Pool) {
    !p.shuttingDown && |p.workers| + p.spawning < CONSOLE_WARM_POOL_TARGET
  }

  function Reserve(p: Pool): Pool {
    if CanReserve(p) then p.(spawning := p.spawning + 1) else p
  }

  function SaturatingDecrement(n: nat): nat {
    if n == 0 then 0 else n - 1
  }

  predicate Keeps(p: Pool) {
    !p.shuttingDown && |p.workers| < CONSOLE_WARM_POOL_TARGET
  }

  /** The pool after a prewarm reports; a worker it does not keep is the caller's to stop. */
  function FinishPrewarm(p: Pool, result: Option<Worker>): (Pool, Option<Worker>) {
    var p := p.(spawning := SaturatingDecrement(p.spawning));
    match result
    case None => (p, None)
    case Some(worker) =>
      if Keeps(p) then (p.(workers := p.workers + [worker]), None) else (p, Some(worker))
  }

  /** Pops from the back until a live worker turns up. */
  function PopAlive(workers: seq<Worker>, alive: set<nat>): (seq<Worker>, Option<Worker>) {
    if workers == [] then ([], None)
    else
      var n := |workers| - 1;
      if workers[n].pid in alive then (workers[..n], Some(workers[n])) else PopAlive(workers[..n], alive)
  }

  function Lease(p: Pool, alive: set<nat>): (Pool, Option<Worker>) {
    if p.shuttingDown then (p, None)
    else
      var (rest, worker) := PopAlive(p.workers, alive);
      var p := p.(workers := rest);
      match worker
      case None => (p, None)
      case Some(w) => (p.(active := p.active[w.pid := w.pgid]), Some(w))
  }

  function Register(p: Pool, w: Worker): Pool {
    if p.shuttingDown then p else p.(active := p.active[w.pid := w.pgid])
  }

  function Unregister(p: Pool, pid: nat): Pool {
    p.(active := p.active - {pid})
  }

  function Latch(p: Pool): Pool {
    p.(shuttingDown := true)
  }

  // ---------------------------------------------------------------------------------------------
  // What the sections mean
  // ---------------------------------------------------------------------------------------------

  /** A lease takes the most recent live worker; only dead ones behind it are dropped. */
  lemma {:induction false} PopAliveMeaning(workers: seq<Worker>, alive: set<nat>)
    ensures var (rest, worker) := PopAlive(workers, alive);
            && rest <= workers
            && (forall i :: |rest| < i < |workers| ==> workers[i].pid !in alive)
            && (worker.None? ==> rest == [] && (workers != [] ==> workers[0].pid !in alive))
            && (worker.Some? ==>
                  |rest| < |workers| && workers[|rest|] == worker.value && worker.value.pid in alive)
  {
    if workers != [] && workers[|workers| - 1].pid !in alive {
      PopAliveMeaning(workers[..|workers| - 1], alive);
      var (rest, worker) := PopAlive(workers, alive);
      assert forall i :: 0 <= i < |workers| - 1 ==> workers[..|workers| - 1][i] == workers[i];
    }
  }

  /** A lease hands out the most recent worker alive, if the pool is open and has one, and notes its group. */
  lemma LeaseExactly(p: Pool, alive: set<nat>)
    ensures var (after, worker) := Lease(p, alive);
      && (worker.Some? <==> !p.shuttingDown && exists w | w in p.workers :: w.pid in alive)
      && (worker.Some? ==>
            exists i | 0 <= i < |p.workers| ::
              && worker.value == p.workers[i] && p.workers[i].pid in alive
              && (forall j | i < j < |p.workers| :: p.workers[j].pid !in alive)
              && after == p.(workers := p.workers[..i], active := p.active[worker.value.pid := worker.value.pgid]))
      && (worker.None? ==> after == if p.shuttingDown then p else p.(workers := []))
  {
    PopAliveMeaning(p.workers, alive);
    var (rest, worker) := PopAlive(p.workers, alive);
    hide PopAlive;
    assert rest == p.workers[..|rest|];
    assert worker.Some? ==> worker.value in p.workers;
  }

  // ---------------------------------------------------------------------------------------------
  // The code
  // ---------------------------------------------------------------------------------------------

  class CodexConsoleWorkerPool {
    var workers: seq<Worker>
    var spawning: nat
    var activeProcessGroups: map<nat, nat>
    var shuttingDown: bool

    constructor ()
      ensures State() == EMPTY_POOL
    {
      workers, spawning, activeProcessGroups, shuttingDown := [], 0, map[], false;
    }

    function State(): Pool
      reads this
    {
      Pool(workers, spawning, activeProcessGroups, shuttingDown)
    }

    method ReserveSpawnSlot() returns (reserved: bool)
      modifies this
      ensures reserved <==> !old(shuttingDown) && |old(workers)| + old(spawning) < CONSOLE_WARM_POOL_TARGET
      ensures spawning == old(spawning) + if reserved then 1 else 0
      ensures State() == Reserve(old(State()))
    {
      if shuttingDown || |workers| + spawning >= CONSOLE_WARM_POOL_TARGET {
        return false;
      }
      spawning := spawning + 1;
      return true;
    }

    method SettlePrewarm(result: Option<Worker>) returns (discard: Option<Worker>)
      modifies this
      ensures (State(), discard) == FinishPrewarm(old(State()), result)
      ensures discard == if old(shuttingDown) || |old(workers)| >= CONSOLE_WARM_POOL_TARGET then result else None
      ensures workers == old(workers) + if result.Some? && discard.None? then [result.value] else []
      ensures spawning == (if old(spawning) > 0 then old(spawning) - 1 else 0)
    {
      spawning := if spawning == 0 then 0 else spawning - 1;
      discard := None;
      if result.Some? {
        if !shuttingDown && |workers| < CONSOLE_WARM_POOL_TARGET {
          workers := workers + [result.value];
        } else {
          discard := result;
        }
      }
    }

    method LeaseWarmWorker(alive: set<nat>) returns (leased: Option<Worker>)
      modifies this
      ensures (State(), leased) == Lease(old(State()), alive)
      ensures leased.Some? <==> !old(shuttingDown) && exists w | w in old(workers) :: w.pid in alive
    {
      LeaseExactly(State(), alive);
      if shuttingDown {
        return None;
      }
      while workers != []
        invariant PopAlive(workers, alive) == PopAlive(old(workers), alive)
        invariant spawning == old(spawning) && activeProcessGroups == old(activeProcessGroups)
        invariant !shuttingDown && !old(shuttingDown)
        decreases |workers|
      {
        var worker := workers[|workers| - 1];
        workers := workers[..|workers| - 1];
        if worker.pid in alive {
          activeProcessGroups := activeProcessGroups[worker.pid := worker.pgid];
          return Some(worker);
        }
      }
      leased := None;
    }

    method RegisterActiveWorker(worker: Worker) returns (accepted: bool)
      modifies this
      ensures accepted == !old(shuttingDown)
      ensures State() == Register(old(State()), worker)
      ensures accepted ==> activeProcessGroups == old(activeProcessGroups)[worker.pid := worker.pgid]
    {
      if shuttingDown {
        return false;
      }
      activeProcessGroups := activeProcessGroups[worker.pid := worker.pgid];
      return true;
    }

    method UnregisterActiveWorker(pid: nat)
      modifies this
      ensures State() == Unregister(old(State()), pid)
      ensures activeProcessGroups == old(activeProcessGroups) - {pid} && workers == old(workers)
    {
      activeProcessGroups := activeProcessGroups - {pid};
    }

    /** First section of shutdown: set the latch and see whether a spawn is outstanding. */
    method LatchShutdown() returns (settled: bool)
      modifies this
      ensures State() == Latch(old(State()))
      ensures settled == (old(spawning) == 0)
    {
      shuttingDown := true;
      settled := spawning == 0;
    }

    /** Second section: take the warm workers and note the active groups. */
    method TakeForShutdown() returns (taken: seq<Worker>, groups: set<nat>)
      modifies this
      ensures taken == old(workers) && groups == old(activeProcessGroups).Values
      ensures State() == old(State()).(workers := [])
    {
      taken, groups := workers, activeProcessGroups.Values;
      workers := [];
    }
  }
}
