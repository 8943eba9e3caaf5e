/**
 * Deadlock freedom of the vault's locks.
 *
 * Every call takes its locks in nested scopes.  The read-write locks are fair: whoever asks
 * joins a queue, and only the head of the queue may take the lock, so a waiting writer also
 * holds up the readers behind it.  Any number of calls run at once, new ones may start at any
 * time, and the scheduler may run any of them.
 */
module Locks {

  datatype Lock = PolicyLock | LeasesLock | SessionsLock | DekLock | StoreLock | AuditLock

  datatype Mode = Read | Write

  datatype Action = Acquire(lock: Lock, mode: Mode) | Release(lock: Lock)

  /** Lock scopes one after the other, each held while the scopes inside it run. */
  datatype Scopes = Done | Scope(lock: Lock, mode: Mode, inside: Scopes, next: Scopes)

  /** The order in which nested locks are taken. */
  function Rank(l: Lock): (r: nat)
    ensures r < 6
  {
    match l
    case PolicyLock => 0
    case LeasesLock => 1
    case SessionsLock => 2
    case DekLock => 3
    case StoreLock => 4
    case AuditLock => 5
  }

  // ---- What each call locks ----

  /** A lock taken and released with nothing inside. */
  function Brief(l: Lock, m: Mode, next: Scopes): Scopes {
    Scope(l, m, Done, next)
  }

  function Times(n: nat, l: Lock, next: Scopes): Scopes {
    if n == 0 then next else Brief(l, Write, Times(n - 1, l, next))
  }

  /** The vault calls, with what their branches and loops depend on. */
  datatype Call =
    | Initialize
    | RequestLease(policyDenies: bool)
    | AccessSecret
    | RevokeLease
    | RevokeAllForAgent(flipped: nat)
    | StoreSecret
    | ListSecrets
    | RenewLease(inSession: bool)
    | DeleteSecret(flipped: nat)
    | RotateDek(secrets: nat)
    | GcLeases
    | CreateSession
    | ValidateSession
    | RevokeSession(flipped: nat)
    | RequestLeaseScoped(toolDenied: bool, policyDenies: bool)
    | GcSessions

  function RequestScopes(policyDenies: bool, next: Scopes): Scopes {
    if policyDenies then Scope(PolicyLock, Read, Brief(AuditLock, Write, Done), Done)
    else Brief(PolicyLock, Read, Brief(LeasesLock, Read, Brief(StoreLock, Write, Brief(AuditLock, Write,
           Brief(LeasesLock, Write, next)))))
  }

  /** The lock scopes of a call that runs to its end; an early return stops after some of them. */
  function ScopesOf(c: Call): Scopes {
    var audit := Brief(AuditLock, Write, Done);
    match c
    case Initialize => Brief(DekLock, Write, Done)
    case RequestLease(denied) => RequestScopes(denied, Done)
    case AccessSecret => Brief(LeasesLock, Write, Brief(StoreLock, Write, Brief(DekLock, Read, audit)))
    case RevokeLease => Brief(LeasesLock, Write, audit)
    case RevokeAllForAgent(n) => Scope(LeasesLock, Write, Times(n, AuditLock, Done), Done)
    case StoreSecret => Brief(DekLock, Read, Brief(StoreLock, Write, audit))
    case ListSecrets => Brief(StoreLock, Write, Done)
    case RenewLease(inSession) =>
      Scope(LeasesLock, Write, if inSession then Brief(SessionsLock, Read, Done) else Done, audit)
    case DeleteSecret(n) => Scope(LeasesLock, Write, Times(n, AuditLock, Done), Brief(StoreLock, Write, audit))
    case RotateDek(n) =>
      Brief(DekLock, Read, Brief(StoreLock, Write,
        Times(n, StoreLock, Brief(StoreLock, Write, Brief(DekLock, Write, audit)))))
    case GcLeases => Brief(LeasesLock, Write, Done)
    case CreateSession => Brief(SessionsLock, Write, audit)
    case ValidateSession => Brief(SessionsLock, Read, Done)
    case RevokeSession(n) => Brief(SessionsLock, Write, Scope(LeasesLock, Write, Times(n, AuditLock, Done), audit))
    case RequestLeaseScoped(toolDenied, denied) =>
      if toolDenied then Scope(SessionsLock, Read, audit, Done)
      else Brief(SessionsLock, Read, RequestScopes(denied, Brief(LeasesLock, Write, Brief(SessionsLock, Write, Done))))
    case GcSessions => Brief(SessionsLock, Write, Done)
  }

  /** The first `k` scopes. */
  function Stopped(p: Scopes, k: nat): Scopes {
    if k == 0 || p.Done? then Done else Scope(p.lock, p.mode, p.inside, Stopped(p.next, k - 1))
  }

  /** Each lock ranks above `floor`, and everything inside its scope ranks above it. */
  predicate Nested(p: Scopes, floor: int) {
    p.Done? || (Rank(p.lock) > floor && Nested(p.inside, Rank(p.lock)) && Nested(p.next, floor))
  }

  function Actions(p: Scopes): seq<Action> {
    if p.Done? then []
    else [Acquire(p.lock, p.mode)] + Actions(p.inside) + [Release(p.lock)] + Actions(p.next)
  }

  lemma {:induction false} TimesNested(n: nat, l: Lock, next: Scopes, floor: int)
    requires Rank(l) > floor && Nested(next, floor)
    ensures Nested(Times(n, l, next), floor)
  {
    if n > 0 {
      TimesNested(n - 1, l, next, floor);
    }
  }

  lemma {:induction false} StoppedNested(p: Scopes, k: nat, floor: int)
    requires Nested(p, floor)
    ensures Nested(Stopped(p, k), floor)
  {
    if k != 0 && !p.Done? {
      StoppedNested(p.next, k - 1, floor);
    }
  }

  /** Every vault call takes its locks in rank order. */
  lemma CallsNested(c: Call)
    ensures Nested(ScopesOf(c), -1)
  {
    var audit := Brief(AuditLock, Write, Done);
    match c
    case RevokeAllForAgent(n) => TimesNested(n, AuditLock, Done, 1);
    case DeleteSecret(n) => TimesNested(n, AuditLock, Done, 1);
    case RevokeSession(n) => TimesNested(n, AuditLock, Done, 1);
    case RotateDek(n) => TimesNested(n, StoreLock, Brief(StoreLock, Write, Brief(DekLock, Write, audit)), -1);
    case _ =>
  }

  // ---- The concurrent system ----

  datatype Thread = Thread(todo: seq<Action>, held: map<Lock, Mode>)

  datatype System = System(threads: map<nat, Thread>, queues: map<Lock, seq<nat>>)

  function Queue(s: System, l: Lock): seq<nat> {
    if l in s.queues then s.queues[l] else []
  }

  predicate Wants(s: System, tid: nat, l: Lock) {
    tid in s.threads && s.threads[tid].todo != [] && s.threads[tid].todo[0].Acquire? && s.threads[tid].todo[0].lock == l
  }

  /** A writer needs the lock to itself; a reader tolerates other readers. */
  predicate Compatible(s: System, l: Lock, m: Mode) {
    forall k | k in s.threads && l in s.threads[k].held :: m == Read && s.threads[k].held[l] == Read
  }

  datatype Label = Spawn(tid: nat, call: Call, stop: nat) | Arrive(tid: nat) | Take(tid: nat) | Drop(tid: nat)

  ghost predicate Enabled(s: System, a: Label) {
    match a
    case Spawn(tid, call, stop) => tid !in s.threads
    case Arrive(tid) =>
      tid in s.threads && s.threads[tid].todo != [] && s.threads[tid].todo[0].Acquire?
      && tid !in Queue(s, s.threads[tid].todo[0].lock)
    case Take(tid) =>
      tid in s.threads && s.threads[tid].todo != [] && s.threads[tid].todo[0].Acquire?
      && var l := s.threads[tid].todo[0].lock;
         Queue(s, l) != [] && Queue(s, l)[0] == tid && Compatible(s, l, s.threads[tid].todo[0].mode)
    case Drop(tid) =>
      tid in s.threads && s.threads[tid].todo != [] && s.threads[tid].todo[0].Release?
  }

  ghost function Next(s: System, a: Label): System
    requires Enabled(s, a)
  {
    match a
    case Spawn(tid, call, stop) =>
      s.(threads := s.threads[tid := Thread(Actions(Stopped(ScopesOf(call), stop)), map[])])
    case Arrive(tid) =>
      var l := s.threads[tid].todo[0].lock;
      s.(queues := s.queues[l := Queue(s, l) + [tid]])
    case Take(tid) =>
      var t := s.threads[tid];
      var l := t.todo[0].lock;
      System(s.threads[tid := Thread(t.todo[1..], t.held[l := t.todo[0].mode])], s.queues[l := Queue(s, l)[1..]])
    case Drop(tid) =>
      var t := s.threads[tid];
      s.(threads := s.threads[tid := Thread(t.todo[1..], t.held - {t.todo[0].lock})])
  }

  /** The head of the queue gets the lock exactly if nobody holds it, or it wants to read and only readers do. */
  lemma TakesIff(s: System, tid: nat)
    ensures Enabled(s, Take(tid)) <==>
      && tid in s.threads && s.threads[tid].todo != [] && s.threads[tid].todo[0].Acquire?
      && var a := s.threads[tid].todo[0];
      && a.lock in s.queues && s.queues[a.lock] != [] && s.queues[a.lock][0] == tid
      && (a.mode == Read ==>
            forall k | k in s.threads && a.lock in s.threads[k].held :: s.threads[k].held[a.lock] == Read)
      && (a.mode == Write ==> forall k | k in s.threads :: a.lock !in s.threads[k].held)
  {
  }

  // ---- The discipline, and that it is kept ----

  /** The rest of a program acquires upward from what it holds, releases what it holds, and ends holding nothing. */
  predicate Ordered(todo: seq<Action>, held: map<Lock, Mode>)
    decreases |todo|
  {
    if todo == [] then held == map[]
    else match todo[0]
      case Acquire(l, m) => (forall h | h in held :: Rank(h) < Rank(l)) && Ordered(todo[1..], held[l := m])
      case Release(l) => l in held && Ordered(todo[1..], held - {l})
  }

  lemma ReleaseFirst(l: Lock, rest: seq<Action>, held: map<Lock, Mode>)
    requires l in held && Ordered(rest, held - {l})
    ensures Ordered([Release(l)] + rest, held)
  {
    assert ([Release(l)] + rest)[1..] == rest;
  }

  lemma AcquireFirst(l: Lock, m: Mode, rest: seq<Action>, held: map<Lock, Mode>)
    requires (forall h | h in held :: Rank(h) < Rank(l)) && Ordered(rest, held[l := m])
    ensures Ordered([Acquire(l, m)] + rest, held)
  {
    assert ([Acquire(l, m)] + rest)[1..] == rest;
  }

  lemma ScopeActions(p: Scopes, rest: seq<Action>)
    requires p.Scope?
    ensures Actions(p) + rest
         == [Acquire(p.lock, p.mode)] + (Actions(p.inside) + ([Release(p.lock)] + (Actions(p.next) + rest)))
  {
  }

  /** Nested scopes leave the locks held around them alone, so they can be put in front of any ordered rest. */
  lemma {:induction false} NestedIsOrdered(p: Scopes, floor: int, rest: seq<Action>, held: map<Lock, Mode>)
    requires Nested(p, floor) && Ordered(rest, held) && forall h | h in held :: Rank(h) <= floor
    ensures Ordered(Actions(p) + rest, held)
  {
    if p.Done? {
      assert Actions(p) + rest == rest;
    } else {
      var l, m := p.lock, p.mode;
      var after, inner := Actions(p.next) + rest, held[l := m];
      ScopeActions(p, rest);
      hide Ordered, Rank, Actions;
      NestedIsOrdered(p.next, floor, rest, held);
      assert inner - {l} == held;
      ReleaseFirst(l, after, inner);
      NestedIsOrdered(p.inside, Rank(l), [Release(l)] + after, inner);
      AcquireFirst(l, m, Actions(p.inside) + ([Release(l)] + after), held);
    }
  }

  ghost predicate ThreadsOk(s: System) {
    forall k | k in s.threads :: Ordered(s.threads[k].todo, s.threads[k].held)
  }

  /** The queue holds, once each, threads that want its lock. */
  ghost predicate QueueOk(s: System, l: Lock) {
    && (forall i | 0 <= i < |Queue(s, l)| :: Wants(s, Queue(s, l)[i], l))
    && (forall i, j | 0 <= i < j < |Queue(s, l)| :: Queue(s, l)[i] != Queue(s, l)[j])
  }

  ghost predicate QueuesOk(s: System) {
    forall l :: QueueOk(s, l)
  }

  /** A lock held for writing is held by one thread only. */
  ghost predicate Exclusive(s: System) {
    forall j, k, l | j in s.threads && k in s.threads && l in s.threads[j].held && l in s.threads[k].held && j != k ::
      s.threads[j].held[l] == Read && s.threads[k].held[l] == Read
  }

  ghost predicate Good(s: System) {
    ThreadsOk(s) && QueuesOk(s) && Exclusive(s)
  }

  lemma ThreadsStep(s: System, a: Label)
    requires ThreadsOk(s) && Enabled(s, a)
    ensures ThreadsOk(Next(s, a))
  {
    match a
    case Spawn(tid, call, stop) =>
      CallsNested(call);
      StoppedNested(ScopesOf(call), stop, -1);
      NestedIsOrdered(Stopped(ScopesOf(call), stop), -1, [], map[]);
      assert Actions(Stopped(ScopesOf(call), stop)) + [] == Actions(Stopped(ScopesOf(call), stop));
    case _ =>
  }

  /** A queue of `s'` that lost nothing but its head and gained nothing but a new waiter stays in order. */
  lemma QueueKept(s: System, s': System, l: Lock)
    requires QueuesOk(s)
    requires Queue(s', l) == Queue(s, l) || (Queue(s, l) != [] && Queue(s', l) == Queue(s, l)[1..])
    requires forall i | 0 <= i < |Queue(s', l)| && Wants(s, Queue(s', l)[i], l) :: Wants(s', Queue(s', l)[i], l)
    ensures QueueOk(s', l)
  {
    hide Wants;
    assert QueueOk(s, l);
  }

  lemma QueuesStep(s: System, a: Label)
    requires QueuesOk(s) && Enabled(s, a)
    ensures QueuesOk(Next(s, a))
  {
    hide ScopesOf, Stopped, Actions, Compatible;
    var s' := Next(s, a);
    forall l ensures QueueOk(s', l) {
      assert QueueOk(s, l);
      if a.Arrive? && l == s.threads[a.tid].todo[0].lock {
        assert Queue(s', l) == Queue(s, l) + [a.tid];
        assert forall k :: Wants(s, k, l) == Wants(s', k, l);
      } else {
        QueueKept(s, s', l);
      }
    }
  }

  lemma ExclusiveStep(s: System, a: Label)
    requires Exclusive(s) && Enabled(s, a)
    ensures Exclusive(Next(s, a))
  {
    hide ScopesOf, Stopped, Actions;
  }

  lemma GoodStep(s: System, a: Label)
    requires Good(s) && Enabled(s, a)
    ensures Good(Next(s, a))
  {
    hide ThreadsOk, QueuesOk, Exclusive, Next;
    ThreadsStep(s, a);
    QueuesStep(s, a);
    ExclusiveStep(s, a);
  }

  // ---- Runs ----

  ghost predicate Possible(s: System, run: seq<Label>)
    decreases |run|
  {
    run == [] || (Enabled(s, run[0]) && Possible(Next(s, run[0]), run[1..]))
  }

  ghost function After(s: System, run: seq<Label>): System
    requires Possible(s, run)
    decreases |run|
  {
    if run == [] then s else After(Next(s, run[0]), run[1..])
  }

  lemma {:induction false} GoodRun(s: System, run: seq<Label>)
    requires Good(s) && Possible(s, run)
    ensures Good(After(s, run))
    decreases |run|
  {
    hide Good, Enabled, Next;
    if run != [] {
      GoodStep(s, run[0]);
      GoodRun(Next(s, run[0]), run[1..]);
    }
  }

  // ---- Progress ----

  /**
   * From an unfinished call one finds a call that can move: itself, the head of the queue it
   * waits in, or, if that lock is taken, whoever holds it, who then waits for a higher one.
   */
  lemma {:induction false} FindStep(s: System, tid: nat) returns (a: Label)
    requires Good(s) && tid in s.threads && s.threads[tid].todo != []
    ensures !a.Spawn? && Enabled(s, a)
    decreases if s.threads[tid].todo[0].Acquire? then 6 - Rank(s.threads[tid].todo[0].lock) else 0
  {
    hide Exclusive;
    var next := s.threads[tid].todo[0];
    if next.Release? {
      return Drop(tid);
    }
    var l := next.lock;
    if tid !in Queue(s, l) {
      return Arrive(tid);
    }
    assert QueueOk(s, l);
    var head := Queue(s, l)[0];
    assert Wants(s, head, l);
    if Compatible(s, l, s.threads[head].todo[0].mode) {
      return Take(head);
    }
    var k :| k in s.threads && l in s.threads[k].held;
    assert Ordered(s.threads[k].todo, s.threads[k].held);
    a := FindStep(s, k);
  }

  /**
   * Deadlock freedom: in every state that any number of concurrent vault calls can reach, if
   * some call is unfinished then some call can take a step.
   */
  lemma DeadlockFree(run: seq<Label>, tid: nat) returns (a: Label)
    requires Possible(System(map[], map[]), run)
    requires tid in After(System(map[], map[]), run).threads && After(System(map[], map[]), run).threads[tid].todo != []
    ensures !a.Spawn? && Enabled(After(System(map[], map[]), run), a)
  {
    var start := System(map[], map[]);
    assert QueuesOk(start);
    GoodRun(start, run);
    a := FindStep(After(start, run), tid);
  }

  /** No two calls are ever inside conflicting scopes of one lock. */
  lemma MutualExclusion(run: seq<Label>, j: nat, k: nat, l: Lock)
    requires Possible(System(map[], map[]), run)
    requires var s := After(System(map[], map[]), run);
      j in s.threads && k in s.threads && j != k && l in s.threads[j].held && l in s.threads[k].held
    ensures var s := After(System(map[], map[]), run); s.threads[j].held[l] == Read && s.threads[k].held[l] == Read
  {
    var start := System(map[], map[]);
    assert QueuesOk(start);
    GoodRun(start, run);
  }

  // ---- Completion ----

  /** Waiting for the lock it wants. */
  predicate Queued(s: System, tid: nat)
    requires tid in s.threads
  {
    var todo := s.threads[tid].todo;
    todo != [] && todo[0].Acquire? && tid in Queue(s, todo[0].lock)
  }

  /** What a call still has to do: two steps to acquire, of which waiting is one. */
  function Weight(s: System, tid: nat): nat
    requires tid in s.threads
  {
    2 * |s.threads[tid].todo| - (if Queued(s, tid) then 1 else 0)
  }

  ghost function Sum(m: map<nat, nat>): nat {
    if m == map[] then 0 else var k :| k in m; m[k] + Sum(m - {k})
  }

  lemma {:induction false} SumWithout(m: map<nat, nat>, k: nat)
    requires k in m
    ensures Sum(m) == m[k] + Sum(m - {k})
    decreases |m|
  {
    var j :| j in m && Sum(m) == m[j] + Sum(m - {j});
    if j != k {
      SumWithout(m - {j}, k);
      SumWithout(m - {k}, j);
      assert m - {j} - {k} == m - {k} - {j};
    }
  }

  /** Less at one place and the same elsewhere sums to less. */
  lemma SumDrops(m: map<nat, nat>, m': map<nat, nat>, k: nat)
    requires m.Keys == m'.Keys && k in m && m'[k] < m[k]
    requires forall j | j in m && j != k :: m'[j] == m[j]
    ensures Sum(m') < Sum(m)
  {
    SumWithout(m, k);
    SumWithout(m', k);
    assert m - {k} == m' - {k};
  }

  ghost function Work(s: System): nat {
    Sum(map tid | tid in s.threads :: Weight(s, tid))
  }

  lemma OthersWait(s: System, a: Label, k: nat)
    requires Good(s) && Enabled(s, a) && !a.Spawn? && k in s.threads && k != a.tid
    ensures k in Next(s, a).threads && Weight(Next(s, a), k) == Weight(s, k)
  {
    hide Exclusive, ThreadsOk, Compatible;
    var s' := Next(s, a);
    assert s'.threads[k] == s.threads[k];
    if !a.Drop? {
      var l := s.threads[a.tid].todo[0].lock;
      var q := Queue(s, l);
      assert a.Take? ==> q == [a.tid] + q[1..];
      assert k in Queue(s', l) <==> k in q;
    }
  }

  lemma MoverWorks(s: System, a: Label)
    requires Good(s) && Enabled(s, a) && !a.Spawn?
    ensures a.tid in Next(s, a).threads && Weight(Next(s, a), a.tid) < Weight(s, a.tid)
  {
    hide Exclusive, ThreadsOk, Compatible, QueuesOk;
    if a.Arrive? {
      var l := s.threads[a.tid].todo[0].lock;
      assert Queue(Next(s, a), l)[|Queue(s, l)|] == a.tid;
    }
  }

  /** Every step of a call leaves less to do. */
  lemma WorkDrops(s: System, a: Label)
    requires Good(s) && Enabled(s, a) && !a.Spawn?
    ensures Work(Next(s, a)) < Work(s)
  {
    var s' := Next(s, a);
    assert s'.threads.Keys == s.threads.Keys;
    hide Next, Weight, Good, Enabled;
    MoverWorks(s, a);
    forall k | k in s.threads && k != a.tid ensures Weight(s', k) == Weight(s, k) {
      OthersWait(s, a, k);
    }
    SumDrops(map tid | tid in s.threads :: Weight(s, tid), map tid | tid in s'.threads :: Weight(s', tid), a.tid);
  }

  ghost predicate NoneStart(run: seq<Label>) {
    forall i | 0 <= i < |run| :: !run[i].Spawn?
  }

  ghost predicate Finished(s: System) {
    forall tid | tid in s.threads :: s.threads[tid].todo == []
  }

  /** Without new calls, no schedule goes on for more steps than there is work. */
  lemma {:induction false} BoundedWork(s: System, run: seq<Label>)
    requires Good(s) && Possible(s, run) && NoneStart(run)
    ensures |run| + Work(After(s, run)) <= Work(s)
    decreases |run|
  {
    hide Good, Enabled, Next, Work;
    if run != [] {
      GoodStep(s, run[0]);
      WorkDrops(s, run[0]);
      BoundedWork(Next(s, run[0]), run[1..]);
    }
  }

  /**
   * From every reachable state, if no new calls start: whatever the scheduler does takes at most
   * `Work` steps, and when nothing can step any more every call has finished.
   */
  lemma EveryCallFinishes(run: seq<Label>, more: seq<Label>)
    requires Possible(System(map[], map[]), run)
    requires var s := After(System(map[], map[]), run); Possible(s, more) && NoneStart(more)
    ensures var s := After(System(map[], map[]), run);
      && |more| <= Work(s)
      && ((forall a: Label :: !a.Spawn? ==> !Enabled(After(s, more), a)) ==> Finished(After(s, more)))
  {
    var start := System(map[], map[]);
    assert QueuesOk(start);
    GoodRun(start, run);
    var s := After(start, run);
    GoodRun(s, more);
    BoundedWork(s, more);
    hide Good, Enabled, Next, Work;
    var end := After(s, more);
    if tid :| tid in end.threads && end.threads[tid].todo != [] {
      var a := FindStep(end, tid);
    }
  }
}
