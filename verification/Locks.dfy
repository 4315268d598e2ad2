/**
 The gateway's mutexes and the wait for a turn's runner. Every goroutine is a program of lock
 operations read off the source; because each one waits only upwards in one order of the
 locks, no set of goroutines can wait in a circle, and somebody can always go on.
 */
module Locks {

  // RunnerExit(t) is what stop() waits for: the runner of turn t holds it until it closes done.
  // HeartbeatExit(r) is what a handler waits for before it leaves: the heartbeat of response r
  // holds it until it stops, and writes to the response in between.
  datatype Lock =
    | RegistryLock
    | SessionLock(key: string)
    | StoreLock
    | TurnLock(turn: nat)
    | FacadeLock(facade: nat)
    | WireLock(response: nat)
    | RunnerExit(turn: nat)
    | HeartbeatExit(response: nat)

  function Rank(l: Lock): nat {
    match l
    case RegistryLock => 0
    case SessionLock(_) => 1
    case WireLock(_) => 3
    case _ => 2
  }

  // Only Acquire waits; Try takes a free lock or goes on without it.
  datatype Program =
    | Done
    | Acquire(lock: Lock, next: Program)
    | Try(lock: Lock, taken: Program, missed: Program)
    | Release(lock: Lock, next: Program)

  datatype Thread = Thread(held: set<Lock>, program: Program)

  /** Waits only for locks above all it holds, releases only what it holds, and ends with nothing. */
  ghost predicate Disciplined(held: set<Lock>, p: Program)
    decreases p
  {
    match p
    case Done => held == {}
    case Acquire(l, next) => (forall h | h in held :: Rank(h) < Rank(l)) && Disciplined(held + {l}, next)
    case Try(l, taken, missed) => l !in held && Disciplined(held + {l}, taken) && Disciplined(held, missed)
    case Release(l, next) => l in held && Disciplined(held - {l}, next)
  }

  predicate Held(threads: seq<Thread>, l: Lock) {
    exists i | 0 <= i < |threads| :: l in threads[i].held
  }

  predicate CanStep(threads: seq<Thread>, i: nat)
    requires i < |threads|
  {
    match threads[i].program
    case Done => false
    case Acquire(l, _) => !Held(threads, l)
    case _ => true
  }

  function StepOne(threads: seq<Thread>, i: nat): Thread
    requires i < |threads| && CanStep(threads, i)
  {
    var t := threads[i];
    match t.program
    case Acquire(l, next) => Thread(t.held + {l}, next)
    case Try(l, taken, missed) => if Held(threads, l) then Thread(t.held, missed) else Thread(t.held + {l}, taken)
    case Release(l, next) => Thread(t.held - {l}, next)
  }

  /** Everyone keeps the discipline, and no lock is held twice. */
  ghost predicate Sound(threads: seq<Thread>) {
    && (forall i | 0 <= i < |threads| :: Disciplined(threads[i].held, threads[i].program))
    && (forall i, j | 0 <= i < j < |threads| :: threads[i].held !! threads[j].held)
  }

  lemma StepKeepsSound(threads: seq<Thread>, i: nat)
    requires Sound(threads) && i < |threads| && CanStep(threads, i)
    ensures Sound(threads[i := StepOne(threads, i)])
  {
    var l := threads[i].program.lock;
    forall j | 0 <= j < |threads| && j != i && !Held(threads, l)
      ensures l !in threads[j].held
    {
    }
  }

  /** A new goroutine may start at any time, a runner holding only its own exit. */
  lemma SpawnKeepsSound(threads: seq<Thread>, t: Thread)
    requires Sound(threads) && Disciplined(t.held, t.program) && forall l | l in t.held :: !Held(threads, l)
    ensures Sound(threads + [t])
  {
    forall i | 0 <= i < |threads|
      ensures threads[i].held !! t.held
    {
      assert forall l | l in threads[i].held :: Held(threads, l);
    }
  }

  predicate WaitsFor(threads: seq<Thread>, i: nat, j: nat)
    requires i < |threads| && j < |threads|
  {
    threads[i].program.Acquire? && threads[i].program.lock in threads[j].held
  }

  /** Along a chain of waits the awaited locks rise, so a chain never closes into a circle. */
  lemma {:induction false} WaitsRise(threads: seq<Thread>, chain: seq<nat>)
    requires Sound(threads) && |chain| >= 2 && forall k | 0 <= k < |chain| :: chain[k] < |threads|
    requires forall k | 0 <= k < |chain| - 1 :: WaitsFor(threads, chain[k], chain[k + 1])
    ensures threads[chain[0]].program.Acquire?
    ensures threads[chain[|chain| - 1]].program.Acquire? ==>
      Rank(threads[chain[0]].program.lock) < Rank(threads[chain[|chain| - 1]].program.lock)
    ensures chain[0] != chain[|chain| - 1]
  {
    var n := |chain| - 1;
    assert WaitsFor(threads, chain[n - 1], chain[n]);
    assert Disciplined(threads[chain[n]].held, threads[chain[n]].program);
    if n > 1 {
      assert forall k | 0 <= k < n - 1 :: WaitsFor(threads, chain[..n][k], chain[..n][k + 1]) by {
        forall k | 0 <= k < n - 1
          ensures WaitsFor(threads, chain[..n][k], chain[..n][k + 1])
        {
          assert WaitsFor(threads, chain[k], chain[k + 1]);
        }
      }
      WaitsRise(threads, chain[..n]);
    }
    assert WaitsFor(threads, chain[0], chain[1]);
  }

  /** Whoever holds a lock that somebody waits for can step or waits for a higher one. */
  lemma {:induction false} SomebodyCanStep(threads: seq<Thread>, i: nat) returns (j: nat)
    requires Sound(threads) && i < |threads| && threads[i].program != Done
    ensures j < |threads| && CanStep(threads, j)
    decreases if threads[i].program.Acquire? then 4 - Rank(threads[i].program.lock) else 0
  {
    if CanStep(threads, i) {
      j := i;
    } else {
      var holder :| 0 <= holder < |threads| && threads[i].program.lock in threads[holder].held;
      assert Disciplined(threads[holder].held, threads[holder].program);
      j := SomebodyCanStep(threads, holder);
    }
  }

  /** No reachable circle of waits, and no deadlock: while a goroutine is unfinished, one can step. */
  lemma DeadlockFree(threads: seq<Thread>)
    requires Sound(threads) && exists i | 0 <= i < |threads| :: threads[i].program != Done
    ensures exists j | 0 <= j < |threads| :: CanStep(threads, j)
  {
    var i :| 0 <= i < |threads| && threads[i].program != Done;
    var j := SomebodyCanStep(threads, i);
  }

  // The goroutines of the gateway.

  /** Short critical sections and waits for runners, one after the other. */
  function Sections(leaves: seq<Lock>, next: Program): Program {
    if leaves == [] then next else Acquire(leaves[0], Release(leaves[0], Sections(leaves[1..], next)))
  }

  predicate Leaves(leaves: seq<Lock>) {
    forall l | l in leaves :: Rank(l) >= 2
  }

  lemma {:induction false} SectionsAreDisciplined(held: set<Lock>, leaves: seq<Lock>, next: Program)
    requires (forall h, l | h in held && l in leaves :: Rank(h) < Rank(l)) && Disciplined(held, next)
    ensures Disciplined(held, Sections(leaves, next))
    decreases |leaves|
  {
    if leaves != [] {
      var l := leaves[0];
      assert l in leaves;
      assert held + {l} - {l} == held;
      SectionsAreDisciplined(held, leaves[1..], next);
    }
  }

  /** A chat request: look up and lock the session, work under its lock, stop its heartbeat, unlock. */
  function Handler(key: string, leaves: seq<Lock>, streamed: bool, response: nat): Program {
    var work := leaves + (if streamed then [HeartbeatExit(response)] else []);
    Acquire(RegistryLock, Acquire(SessionLock(key),
      Release(RegistryLock, Sections(work, Release(SessionLock(key), Done)))))
  }

  /** The watcher of a cancelled turn. */
  function Watcher(key: string, leaves: seq<Lock>): Program {
    Acquire(SessionLock(key), Sections(leaves, Release(SessionLock(key), Done)))
  }

  /** An MCP call, a facade abort: sections only. */
  function Caller(leaves: seq<Lock>): Program {
    Sections(leaves, Done)
  }

  /** A turn's runner takes no lock; leaving, it lets the waiters go. */
  function Runner(turn: nat): Program {
    Release(RunnerExit(turn), Done)
  }

  /** The heartbeat of a streamed response: any number of ticks, each under the wire's lock. */
  function Heartbeat(response: nat, ticks: nat): Program {
    Sections(seq(ticks, _ => WireLock(response)), Release(HeartbeatExit(response), Done))
  }

  /** Stopping sessions already locked. */
  function StopAll(keys: seq<string>, leaves: seq<Lock>): Program {
    if keys == [] then Done else Sections(leaves, Release(SessionLock(keys[0]), StopAll(keys[1..], leaves)))
  }

  /** The janitor: under the registry lock try every session, then stop the ones it got. */
  function Janitor(keys: seq<string>, got: seq<string>, leaves: seq<Lock>): Program {
    if keys == [] then Release(RegistryLock, StopAll(got, leaves))
    else Try(SessionLock(keys[0]), Janitor(keys[1..], got + [keys[0]], leaves), Janitor(keys[1..], got, leaves))
  }

  /** Shutdown: take the sessions out under the registry lock, then lock and stop each. */
  function CloseAll(keys: seq<string>, leaves: seq<Lock>): Program {
    if keys == [] then Done
    else Acquire(SessionLock(keys[0]), Sections(leaves, Release(SessionLock(keys[0]), CloseAll(keys[1..], leaves))))
  }

  function SessionLocks(keys: seq<string>): set<Lock> {
    set k | k in keys :: SessionLock(k)
  }

  ghost predicate Distinct(keys: seq<string>) {
    forall a, b :: 0 <= a < b < |keys| ==> keys[a] != keys[b]
  }

  lemma {:induction false} StopAllIsDisciplined(keys: seq<string>, leaves: seq<Lock>)
    requires Leaves(leaves) && Distinct(keys)
    ensures Disciplined(SessionLocks(keys), StopAll(keys, leaves))
    decreases |keys|
  {
    if keys != [] {
      StopAllIsDisciplined(keys[1..], leaves);
      assert keys == [keys[0]] + keys[1..];
      assert SessionLocks(keys) - {SessionLock(keys[0])} == SessionLocks(keys[1..]);
      SectionsAreDisciplined(SessionLocks(keys), leaves, Release(SessionLock(keys[0]), StopAll(keys[1..], leaves)));
    }
  }

  lemma {:induction false} JanitorIsDisciplined(keys: seq<string>, got: seq<string>, leaves: seq<Lock>)
    requires Leaves(leaves) && Distinct(keys) && Distinct(got) && forall k | k in keys :: k !in got
    ensures Disciplined(SessionLocks(got) + {RegistryLock}, Janitor(keys, got, leaves))
    decreases |keys|
  {
    if keys == [] {
      StopAllIsDisciplined(got, leaves);
      assert SessionLocks(got) + {RegistryLock} - {RegistryLock} == SessionLocks(got);
    } else {
      var more := got + [keys[0]];
      assert keys[0] in keys && keys == [keys[0]] + keys[1..];
      assert SessionLocks(more) == SessionLocks(got) + {SessionLock(keys[0])};
      assert SessionLocks(got) + {RegistryLock} + {SessionLock(keys[0])} == SessionLocks(more) + {RegistryLock};
      JanitorIsDisciplined(keys[1..], more, leaves);
      JanitorIsDisciplined(keys[1..], got, leaves);
    }
  }

  lemma {:induction false} CloseAllIsDisciplined(keys: seq<string>, leaves: seq<Lock>)
    requires Leaves(leaves)
    ensures Disciplined({}, CloseAll(keys, leaves))
    decreases |keys|
  {
    if keys != [] {
      CloseAllIsDisciplined(keys[1..], leaves);
      WorkIsDisciplined(keys[0], leaves, CloseAll(keys[1..], leaves));
      assert {} + {SessionLock(keys[0])} == {SessionLock(keys[0])};
    }
  }

  lemma WorkIsDisciplined(key: string, leaves: seq<Lock>, next: Program)
    requires Leaves(leaves) && Disciplined({}, next)
    ensures Disciplined({SessionLock(key)}, Sections(leaves, Release(SessionLock(key), next)))
  {
    assert {SessionLock(key)} - {SessionLock(key)} == {};
    SectionsAreDisciplined({SessionLock(key)}, leaves, Release(SessionLock(key), next));
  }

  lemma HandlerIsDisciplined(key: string, leaves: seq<Lock>, streamed: bool, response: nat)
    requires Leaves(leaves)
    ensures Disciplined({}, Handler(key, leaves, streamed, response))
  {
    var work := leaves + (if streamed then [HeartbeatExit(response)] else []);
    assert Leaves(work);
    WorkIsDisciplined(key, work, Done);
    assert {} + {RegistryLock} + {SessionLock(key)} - {RegistryLock} == {SessionLock(key)};
  }

  lemma WatcherIsDisciplined(key: string, leaves: seq<Lock>)
    requires Leaves(leaves)
    ensures Disciplined({}, Watcher(key, leaves))
  {
    WorkIsDisciplined(key, leaves, Done);
    assert {} + {SessionLock(key)} == {SessionLock(key)};
  }

  lemma CallsAndRunnersAreDisciplined(leaves: seq<Lock>, turn: nat)
    requires Leaves(leaves)
    ensures Disciplined({}, Caller(leaves))
    ensures Disciplined({RunnerExit(turn)}, Runner(turn))
  {
    SectionsAreDisciplined({}, leaves, Done);
    assert {RunnerExit(turn)} - {RunnerExit(turn)} == {};
  }

  lemma StoppersAreDisciplined(keys: seq<string>, leaves: seq<Lock>)
    requires Leaves(leaves) && Distinct(keys)
    ensures Disciplined({}, Acquire(RegistryLock, Janitor(keys, [], leaves)))
    ensures Disciplined({}, Acquire(RegistryLock, Release(RegistryLock, CloseAll(keys, leaves))))
  {
    JanitorIsDisciplined(keys, [], leaves);
    assert SessionLocks([]) + {RegistryLock} == {} + {RegistryLock};
    CloseAllIsDisciplined(keys, leaves);
    assert {} + {RegistryLock} - {RegistryLock} == {};
  }

  lemma HeartbeatIsDisciplined(response: nat, ticks: nat)
    ensures Disciplined({HeartbeatExit(response)}, Heartbeat(response, ticks))
  {
    var exit := HeartbeatExit(response);
    assert {exit} - {exit} == {};
    SectionsAreDisciplined({exit}, seq(ticks, _ => WireLock(response)), Release(exit, Done));
  }

  /** Every goroutine the gateway starts keeps the discipline, whatever short sections its work needs. */
  lemma GoroutinesAreDisciplined(key: string, keys: seq<string>, leaves: seq<Lock>, streamed: bool,
                                 turn: nat, response: nat, ticks: nat)
    requires Leaves(leaves) && Distinct(keys)
    ensures Disciplined({}, Handler(key, leaves, streamed, response))
    ensures Disciplined({HeartbeatExit(response)}, Heartbeat(response, ticks))
    ensures Disciplined({}, Watcher(key, leaves))
    ensures Disciplined({}, Caller(leaves))
    ensures Disciplined({RunnerExit(turn)}, Runner(turn))
    ensures Disciplined({}, Acquire(RegistryLock, Janitor(keys, [], leaves)))
    ensures Disciplined({}, Acquire(RegistryLock, Release(RegistryLock, CloseAll(keys, leaves))))
  {
    hide Disciplined;
    HandlerIsDisciplined(key, leaves, streamed, response);
    HeartbeatIsDisciplined(response, ticks);
    WatcherIsDisciplined(key, leaves);
    CallsAndRunnersAreDisciplined(leaves, turn);
    StoppersAreDisciplined(keys, leaves);
  }
}
