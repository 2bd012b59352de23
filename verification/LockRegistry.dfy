/** The per-session locks (app/services/chat_service.py): lazily created, counted, and removed with their last user.
    Tasks interleave at every point where acquire may suspend or be cancelled. Each task enters, waits or gets the
    lock, and ends by releasing it or by being cancelled while it waits; the registry keeps an entry for a session
    only while some task needs it. */
module LockRegistry {

  // Lock objects are numbered as they are created; locked holds those that are taken.
  datatype Registry = Registry(locks: map<string, nat>, users: map<string, nat>, locked: set<nat>, nextLock: nat)

  // A task prepares one turn: it waits for its session's lock, holds it, and has released it, once.
  datatype Task = Fresh | Waiting(session: string, lock: nat) | Holding(session: string, lock: nat) | Released

  datatype World = World(registry: Registry, tasks: seq<Task>)

  datatype Event =
    | Arrive
    | Enter(task: nat, session: string)
    | Grant(task: nat)
    | Cancel(task: nat)
    | ReleaseTurn(task: nat)

  const EMPTY_REGISTRY := Registry(map[], map[], {}, 0)

  // ---------------------------------------------------------------- the registry's steps

  // acquire, up to the point where it waits: the entry exists and the caller is counted.
  function Entered(r: Registry, session: string): Registry {
    var counted := r.(users := r.users[session := (if session in r.users then r.users[session] else 0) + 1]);
    if session in r.locks then counted
    else counted.(locks := r.locks[session := r.nextLock], nextLock := r.nextLock + 1)
  }

  // _retire
  function Retired(r: Registry, session: string): Registry {
    if session !in r.users || session !in r.locks then r
    else if r.users[session] <= 1 then r.(users := r.users - {session}, locks := r.locks - {session})
    else r.(users := r.users[session := r.users[session] - 1])
  }

  // release: the lock in the table is unlocked, whichever it is.
  function Unlocked(r: Registry, session: string): Registry {
    if session in r.locks then Retired(r.(locked := r.locked - {r.locks[session]}), session) else r
  }

  // ---------------------------------------------------------------- interleaving

  function Next(w: World, e: Event): World {
    match e
    case Arrive => w.(tasks := w.tasks + [Fresh])
    case Enter(t, session) =>
      if t < |w.tasks| && w.tasks[t].Fresh? then
        var r := Entered(w.registry, session);
        World(r, w.tasks[t := Waiting(session, r.locks[session])])
      else w
    case Grant(t) =>
      if t < |w.tasks| && w.tasks[t].Waiting? && w.tasks[t].lock !in w.registry.locked then
        World(w.registry.(locked := w.registry.locked + {w.tasks[t].lock}),
              w.tasks[t := Holding(w.tasks[t].session, w.tasks[t].lock)])
      else w
    case Cancel(t) =>
      if t < |w.tasks| && w.tasks[t].Waiting? then
        World(Retired(w.registry, w.tasks[t].session), w.tasks[t := Released])
      else w
    case ReleaseTurn(t) =>
      if t < |w.tasks| && w.tasks[t].Holding? then
        World(Unlocked(w.registry, w.tasks[t].session), w.tasks[t := Released])
      else w
  }

  function Run(w: World, events: seq<Event>): World {
    if events == [] then w else Next(Run(w, events[..|events| - 1]), events[|events| - 1])
  }

  // ---------------------------------------------------------------- invariant

  predicate IsOn(task: Task, session: string) {
    (task.Waiting? || task.Holding?) && task.session == session
  }

  function CountOn(tasks: seq<Task>, session: string): nat {
    if tasks == [] then 0
    else CountOn(tasks[..|tasks| - 1], session) + if IsOn(tasks[|tasks| - 1], session) then 1 else 0
  }

  // The count is the number of tasks that hold the lock or wait for it.
  ghost predicate Counted(r: Registry, tasks: seq<Task>) {
    && r.locks.Keys == r.users.Keys
    && forall s :: if s in r.users then r.users[s] == CountOn(tasks, s) > 0 else CountOn(tasks, s) == 0
  }

  // All of them refer to the lock in the table.
  ghost predicate OneLock(r: Registry, tasks: seq<Task>) {
    forall t :: 0 <= t < |tasks| && (tasks[t].Waiting? || tasks[t].Holding?) ==>
      tasks[t].session in r.locks && tasks[t].lock == r.locks[tasks[t].session]
  }

  ghost predicate LocksApart(r: Registry) {
    && (forall s :: s in r.locks ==> r.locks[s] < r.nextLock)
    && (forall s, u :: s in r.locks && u in r.locks && s != u ==> r.locks[s] != r.locks[u])
    && (forall l :: l in r.locked ==> l < r.nextLock)
  }

  // A lock is taken exactly while a task holds it, and by one task only.
  ghost predicate HeldOnce(r: Registry, tasks: seq<Task>) {
    && (forall t :: 0 <= t < |tasks| && tasks[t].Holding? ==> tasks[t].lock in r.locked)
    && (forall l :: l in r.locked ==> IsHeld(tasks, l))
    && (forall t, u :: 0 <= t < u < |tasks| && tasks[t].Holding? && tasks[u].Holding? ==>
        tasks[t].lock != tasks[u].lock)
  }

  ghost predicate IsHeld(tasks: seq<Task>, l: nat) {
    exists t :: 0 <= t < |tasks| && tasks[t].Holding? && tasks[t].lock == l
  }

  ghost predicate Inv(w: World) {
    Counted(w.registry, w.tasks) && OneLock(w.registry, w.tasks) && LocksApart(w.registry)
        && HeldOnce(w.registry, w.tasks)
  }

  lemma InitialInv()
    ensures Inv(World(EMPTY_REGISTRY, []))
  {
  }

  lemma {:induction false} CountAfter(tasks: seq<Task>, t: nat, task: Task, s: string)
    requires t < |tasks|
    ensures CountOn(tasks[t := task], s)
            == CountOn(tasks, s) - (if IsOn(tasks[t], s) then 1 else 0) + (if IsOn(task, s) then 1 else 0)
  {
    var n := |tasks| - 1;
    if t < n {
      CountAfter(tasks[..n], t, task, s);
      assert tasks[t := task][..n] == tasks[..n][t := task];
    } else {
      assert tasks[t := task][..n] == tasks[..n];
    }
  }

  lemma {:induction false} CountPositive(tasks: seq<Task>, t: nat, s: string)
    requires t < |tasks| && IsOn(tasks[t], s)
    ensures CountOn(tasks, s) > 0
  {
    if t < |tasks| - 1 {
      CountPositive(tasks[..|tasks| - 1], t, s);
    }
  }

  lemma {:induction false} CountTwo(tasks: seq<Task>, t: nat, u: nat, s: string)
    requires t < |tasks| && u < |tasks| && t != u && IsOn(tasks[t], s) && IsOn(tasks[u], s)
    ensures CountOn(tasks, s) > 1
  {
    CountAfter(tasks, t, Released, s);
    CountPositive(tasks[t := Released], u, s);
  }

  // ---------------------------------------------------------------- every step

  lemma ArriveKeepsInv(w: World)
    requires Inv(w)
    ensures Inv(Next(w, Arrive))
  {
    var tasks := w.tasks + [Fresh];
    assert tasks[..|w.tasks|] == w.tasks;
    forall l | l in w.registry.locked ensures IsHeld(tasks, l) {
      var t :| 0 <= t < |w.tasks| && w.tasks[t].Holding? && w.tasks[t].lock == l;
      assert tasks[t] == w.tasks[t];
    }
  }

  lemma EnterKeepsInv(w: World, t: nat, session: string)
    requires Inv(w) && t < |w.tasks| && w.tasks[t].Fresh?
    ensures Inv(Next(w, Enter(t, session)))
  {
    var w' := Next(w, Enter(t, session));
    forall s
      ensures if s in w'.registry.users then w'.registry.users[s] == CountOn(w'.tasks, s) > 0
              else CountOn(w'.tasks, s) == 0
    {
      CountAfter(w.tasks, t, w'.tasks[t], s);
    }
    HeldElsewhere(w, w'.tasks, t);
  }

  // Changing a task that holds nothing, into one that holds nothing, leaves the holders alone.
  lemma HeldElsewhere(w: World, tasks: seq<Task>, t: nat)
    requires HeldOnce(w.registry, w.tasks) && t < |w.tasks| == |tasks| && !w.tasks[t].Holding? && !tasks[t].Holding?
    requires forall u :: 0 <= u < |tasks| && u != t ==> tasks[u] == w.tasks[u]
    ensures HeldOnce(w.registry, tasks)
  {
    forall l | l in w.registry.locked ensures IsHeld(tasks, l) {
      var u :| 0 <= u < |w.tasks| && w.tasks[u].Holding? && w.tasks[u].lock == l;
      assert tasks[u] == w.tasks[u];
    }
  }

  lemma GrantKeepsInv(w: World, t: nat)
    requires Inv(w) && t < |w.tasks| && w.tasks[t].Waiting? && w.tasks[t].lock !in w.registry.locked
    ensures Inv(Next(w, Grant(t)))
  {
    var w' := Next(w, Grant(t));
    forall s ensures CountOn(w'.tasks, s) == CountOn(w.tasks, s) {
      CountAfter(w.tasks, t, w'.tasks[t], s);
    }
    forall l | l in w'.registry.locked ensures IsHeld(w'.tasks, l) {
      if l == w.tasks[t].lock {
        assert w'.tasks[t].Holding?;
      } else {
        var u :| 0 <= u < |w.tasks| && w.tasks[u].Holding? && w.tasks[u].lock == l;
        assert w'.tasks[u] == w.tasks[u];
      }
    }
  }

  lemma RetireKeepsCounts(r: Registry, tasks: seq<Task>, t: nat, session: string)
    requires Counted(r, tasks) && t < |tasks| && IsOn(tasks[t], session)
    ensures Counted(Retired(r, session), tasks[t := Released])
  {
    CountPositive(tasks, t, session);
    var r' := Retired(r, session);
    forall s
      ensures if s in r'.users then r'.users[s] == CountOn(tasks[t := Released], s) > 0
              else CountOn(tasks[t := Released], s) == 0
    {
      CountAfter(tasks, t, Released, s);
    }
  }

  // The entry goes only with its last user.
  lemma RetireKeepsOneLock(r: Registry, tasks: seq<Task>, t: nat, session: string)
    requires Counted(r, tasks) && OneLock(r, tasks) && t < |tasks| && IsOn(tasks[t], session)
    ensures OneLock(Retired(r, session), tasks[t := Released])
  {
    var r', tasks' := Retired(r, session), tasks[t := Released];
    forall u | 0 <= u < |tasks'| && (tasks'[u].Waiting? || tasks'[u].Holding?)
      ensures tasks'[u].session in r'.locks && tasks'[u].lock == r'.locks[tasks'[u].session]
    {
      assert tasks'[u] == tasks[u] && u != t;
      if tasks[u].session == session {
        CountTwo(tasks, t, u, session);
      }
    }
  }

  lemma CancelKeepsInv(w: World, t: nat)
    requires Inv(w) && t < |w.tasks| && w.tasks[t].Waiting?
    ensures Inv(Next(w, Cancel(t)))
  {
    var w' := Next(w, Cancel(t));
    RetireKeepsCounts(w.registry, w.tasks, t, w.tasks[t].session);
    RetireKeepsOneLock(w.registry, w.tasks, t, w.tasks[t].session);
    HeldElsewhere(w, w'.tasks, t);
  }

  // release unlocks the very lock its caller holds, which is locked.
  lemma ReleaseIsLegal(w: World, t: nat)
    requires Inv(w) && t < |w.tasks| && w.tasks[t].Holding?
    ensures w.tasks[t].session in w.registry.locks && w.registry.locks[w.tasks[t].session] == w.tasks[t].lock
    ensures w.tasks[t].lock in w.registry.locked
  {
  }

  lemma ReleaseKeepsInv(w: World, t: nat)
    requires Inv(w) && t < |w.tasks| && w.tasks[t].Holding?
    ensures Inv(Next(w, ReleaseTurn(t)))
  {
    var session, lock := w.tasks[t].session, w.tasks[t].lock;
    ReleaseIsLegal(w, t);
    var freed := w.registry.(locked := w.registry.locked - {lock});
    RetireKeepsCounts(freed, w.tasks, t, session);
    RetireKeepsOneLock(freed, w.tasks, t, session);
    var tasks := w.tasks[t := Released];
    forall l | l in freed.locked ensures IsHeld(tasks, l) {
      var u :| 0 <= u < |w.tasks| && w.tasks[u].Holding? && w.tasks[u].lock == l;
      assert u != t && tasks[u] == w.tasks[u];
    }
    forall u | 0 <= u < |tasks| && tasks[u].Holding? ensures tasks[u].lock in freed.locked {
      assert tasks[u] == w.tasks[u];
    }
  }

  lemma StepKeepsInv(w: World, e: Event)
    requires Inv(w)
    ensures Inv(Next(w, e))
  {
    match e
    case Arrive => ArriveKeepsInv(w);
    case Enter(t, session) => if t < |w.tasks| && w.tasks[t].Fresh? { EnterKeepsInv(w, t, session); }
    case Grant(t) =>
      if t < |w.tasks| && w.tasks[t].Waiting? && w.tasks[t].lock !in w.registry.locked { GrantKeepsInv(w, t); }
    case Cancel(t) => if t < |w.tasks| && w.tasks[t].Waiting? { CancelKeepsInv(w, t); }
    case ReleaseTurn(t) => if t < |w.tasks| && w.tasks[t].Holding? { ReleaseKeepsInv(w, t); }
  }

  lemma {:induction false} RunKeepsInv(w: World, events: seq<Event>)
    requires Inv(w)
    ensures Inv(Run(w, events))
  {
    if events != [] {
      RunKeepsInv(w, events[..|events| - 1]);
      StepKeepsInv(Run(w, events[..|events| - 1]), events[|events| - 1]);
    }
  }

  // Main result, for every run of acquiring, cancelled waiting and releasing: a session's lock has at most one holder,
  // and everyone who waits for the session waits for that holder's lock; when nobody holds it, any waiter can get it.
  lemma MutualExclusion(events: seq<Event>, t: nat, u: nat)
    requires var tasks := Run(World(EMPTY_REGISTRY, []), events).tasks;
             t < |tasks| && u < |tasks| && t != u && tasks[t].Holding? && IsOn(tasks[u], tasks[t].session)
    ensures var tasks := Run(World(EMPTY_REGISTRY, []), events).tasks;
            tasks[u].Waiting? && tasks[u].lock == tasks[t].lock
  {
    InitialInv();
    RunKeepsInv(World(EMPTY_REGISTRY, []), events);
  }

  lemma NoLockIsLost(events: seq<Event>, t: nat)
    requires var tasks := Run(World(EMPTY_REGISTRY, []), events).tasks; t < |tasks| && tasks[t].Waiting?
    ensures var w := Run(World(EMPTY_REGISTRY, []), events);
            Next(w, Grant(t)).tasks[t].Holding?
            || exists u :: 0 <= u < |w.tasks| && w.tasks[u].Holding? && w.tasks[u].lock == w.tasks[t].lock
  {
    InitialInv();
    RunKeepsInv(World(EMPTY_REGISTRY, []), events);
    var w := Run(World(EMPTY_REGISTRY, []), events);
    if w.tasks[t].lock in w.registry.locked {
      assert IsHeld(w.tasks, w.tasks[t].lock);
    }
  }

  // Once every task has come to its end the registry is empty again.
  lemma NothingLeftBehind(w: World)
    requires Inv(w) && forall t :: 0 <= t < |w.tasks| ==> w.tasks[t].Fresh? || w.tasks[t].Released?
    ensures w.registry.locks == map[] && w.registry.users == map[] && w.registry.locked == {}
  {
    forall s ensures s !in w.registry.users {
      CountOfNone(w.tasks, s);
    }
    assert w.registry.users.Keys == {};
    assert w.registry.locks.Keys == {};
  }

  lemma {:induction false} CountOfNone(tasks: seq<Task>, s: string)
    requires forall t :: 0 <= t < |tasks| ==> !IsOn(tasks[t], s)
    ensures CountOn(tasks, s) == 0
  {
    if tasks != [] {
      CountOfNone(tasks[..|tasks| - 1], s);
    }
  }

  // ---------------------------------------------------------------- what the steps bring about

  // The count of one session changes, and its entry exists while the count is positive.
  ghost predicate Recounts(r: Registry, r': Registry, session: string, n: nat) {
    && r'.users == (if n > 0 then r.users[session := n] else r.users - {session})
    && (if n > 0 then session in r'.locks && r'.locks - {session} == r.locks - {session}
        else r'.locks == r.locks - {session})
  }

  // Who enters waits for the session's lock, which is a new one only if nobody else uses the session.
  lemma EnteringCounts(w: World, t: nat, session: string)
    requires Inv(w) && t < |w.tasks| && w.tasks[t].Fresh?
    ensures var w' := Next(w, Enter(t, session));
            && Recounts(w.registry, w'.registry, session, CountOn(w.tasks, session) + 1)
            && w'.tasks == w.tasks[t := Waiting(session, w'.registry.locks[session])]
            && w'.registry.locked == w.registry.locked
  {
    var r, r' := w.registry, Entered(w.registry, session);
    assert r'.locks - {session} == r.locks - {session};
  }

  lemma EnteredLock(w: World, t: nat, session: string)
    requires Inv(w) && t < |w.tasks| && w.tasks[t].Fresh?
    ensures var locks := Next(w, Enter(t, session)).registry.locks;
            && session in locks
            && (if CountOn(w.tasks, session) > 0
                then session in w.registry.locks && locks[session] == w.registry.locks[session]
                else locks[session] !in w.registry.locks.Values && locks[session] !in w.registry.locked)
  {
  }

  // Who is cancelled while it waits is counted out and unlocks nothing.
  lemma CancellingCounts(w: World, t: nat)
    requires Inv(w) && t < |w.tasks| && w.tasks[t].Waiting?
    ensures var w', session := Next(w, Cancel(t)), w.tasks[t].session;
            && w'.tasks == w.tasks[t := Released] && w'.registry.locked == w.registry.locked
            && Recounts(w.registry, w'.registry, session, CountOn(w.tasks, session) - 1)
  {
    CountPositive(w.tasks, t, w.tasks[t].session);
  }

  lemma ReleasingCounts(w: World, t: nat)
    requires Inv(w) && t < |w.tasks| && w.tasks[t].Holding?
    ensures var w', session := Next(w, ReleaseTurn(t)), w.tasks[t].session;
            && w'.tasks == w.tasks[t := Released] && w'.registry.locked == w.registry.locked - {w.tasks[t].lock}
            && Recounts(w.registry, w'.registry, session, CountOn(w.tasks, session) - 1)
  {
    CountPositive(w.tasks, t, w.tasks[t].session);
    ReleaseIsLegal(w, t);
  }

  // When the holder releases, any task that waits for the session can have the lock next.
  lemma ReleaseHandsOver(w: World, t: nat, u: nat)
    requires Inv(w) && t < |w.tasks| && w.tasks[t].Holding?
    requires u < |w.tasks| && w.tasks[u].Waiting? && w.tasks[u].session == w.tasks[t].session
    ensures var w' := Next(Next(w, ReleaseTurn(t)), Grant(u));
            && w'.tasks == w.tasks[t := Released][u := Holding(w.tasks[u].session, w.tasks[t].lock)]
            && w'.registry.locked == w.registry.locked
  {
    ReleasingCounts(w, t);
  }

  // A turn that nobody disturbs leaves the registry as it was, but for the number of the next lock.
  lemma UndisturbedTurn(w: World, t: nat, session: string)
    requires Inv(w) && t < |w.tasks| && w.tasks[t].Fresh? && CountOn(w.tasks, session) == 0
    ensures var w' := Next(Next(Next(w, Enter(t, session)), Grant(t)), ReleaseTurn(t));
            && w'.tasks == w.tasks[t := Released]
            && w'.registry == w.registry.(nextLock := w.registry.nextLock + 1)
  {
    EnteringCounts(w, t, session);
    var entered := Next(w, Enter(t, session));
    assert entered.registry.users[session] == 1 && entered.registry.locks[session] == w.registry.nextLock;
    var held := Next(entered, Grant(t));
    assert held.tasks == w.tasks[t := Holding(session, w.registry.nextLock)];
    var done := Next(held, ReleaseTurn(t));
    assert done.registry.locks == w.registry.locks && done.registry.users == w.registry.users;
    assert done.registry.locked == w.registry.locked;
  }

  // ---------------------------------------------------------------- the registry as an object

  class SessionLockRegistry {
    var locks: map<string, nat>
    var users: map<string, nat>
    var locked: set<nat>
    var nextLock: nat

    constructor ()
      ensures View() == EMPTY_REGISTRY
    {
      locks, users, locked, nextLock := map[], map[], {}, 0;
    }

    function View(): Registry
      reads this
    {
      Registry(locks, users, locked, nextLock)
    }

    // acquire, up to its await.
    method Enter(session: string) returns (lock: nat)
      modifies this
      ensures View() == Entered(old(View()), session) && session in locks && lock == locks[session]
      ensures users == old(users)[session := (if session in old(users) then old(users)[session] else 0) + 1]
      ensures session in old(locks) ==> locks == old(locks)
      ensures session !in old(locks) ==> locks == old(locks)[session := old(nextLock)]
      ensures locked == old(locked) && old(nextLock) <= nextLock && (session !in old(locks) ==> lock < nextLock)
    {
      if session !in locks {
        locks := locks[session := nextLock];
        nextLock := nextLock + 1;
      }
      users := users[session := (if session in users then users[session] else 0) + 1];
      return locks[session];
    }

    // The await of acquire: the lock is taken if it is free.
    method TryLock(lock: nat) returns (ok: bool)
      modifies this`locked
      ensures ok <==> lock !in old(locked)
      ensures locked == old(locked) + {lock}
    {
      ok := lock !in locked;
      locked := locked + {lock};
    }

    method Retire(session: string)
      requires session in users && session in locks
      modifies this`users, this`locks
      ensures View() == Retired(old(View()), session)
      ensures old(users)[session] <= 1 ==> users == old(users) - {session} && locks == old(locks) - {session}
      ensures old(users)[session] > 1 ==>
                users == old(users)[session := old(users)[session] - 1] && locks == old(locks)
    {
      if users[session] <= 1 {
        users := users - {session};
        locks := locks - {session};
      } else {
        users := users[session := users[session] - 1];
      }
    }

    method Release(session: string)
      requires session in users && session in locks
      modifies this
      ensures View() == Unlocked(old(View()), session)
      ensures locked == old(locked) - {old(locks)[session]} && nextLock == old(nextLock)
    {
      locked := locked - {locks[session]};
      Retire(session);
    }
  }

  class PreparedTurn {
    const lockKey: string
    var released: bool

    constructor (lockKey: string)
      ensures this.lockKey == lockKey && !released
    {
      this.lockKey, released := lockKey, false;
    }

    // release_turn: the lock is released the first time and never again.
    method ReleaseTurn(registry: SessionLockRegistry)
      requires !released ==> lockKey in registry.users && lockKey in registry.locks
      modifies this, registry
      ensures released
      ensures registry.View() == if old(released) then old(registry.View()) else Unlocked(old(registry.View()), lockKey)
    {
      if released {
        return;
      }
      released := true;
      registry.Release(lockKey);
    }
  }
}
