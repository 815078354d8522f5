/**
 Any number of `connect` tasks of the unified HTTP connector, on any number of
 keys, in every interleaving at their awaits, with failing dials and handshakes
 and with futures dropped while suspended.
 */
module HttpConnector {
  import opened Pool
  import opened ConnectTasks
  import PoolRun

  datatype Protocol = HTTP2 | HTTP11 | Auto

  /** `desk` holds the HTTP/2 pool, whose dead connections are those with an
      error; `used` are all connection identities so far. */
  datatype State = State(desk: Desk, protocol: Protocol, h1: Idles, used: set<Conn>)

  datatype Event =
    | Spawn(t: TaskId, key: Key)
    | Begin(t: TaskId)
    | Dialed(t: TaskId, alpnH2: bool, conn: Conn)
    | DialFailed(t: TaskId)
    | Acquire(t: TaskId)
    | Recheck(t: TaskId)
    | Shaken(t: TaskId, conn: Conn, now: Instant)
    | ShakeFailed(t: TaskId)
    | Cancel(t: TaskId)
    | DropH1(t: TaskId, isOpen: bool, now: Instant)
    | ConnError(conn: Conn)

  function Init(p: Protocol): State {
    State(EMPTY_DESK, p, map[], {})
  }

  predicate Enabled(s: State, e: Event) {
    match e
    case Spawn(t, _) => t !in s.desk.core.tasks
    case Begin(t) => At(s.desk.core, t, Start)
    case Dialed(t, _, c) => At(s.desk.core, t, Dialing) && c !in s.used
    case DialFailed(t) => At(s.desk.core, t, Dialing)
    case Acquire(t) => At(s.desk.core, t, Waiting) && Permits(s.desk.core, s.desk.core.tasks[t].key) > 0
    case Recheck(t) => At(s.desk.core, t, Locked)
    case Shaken(t, c, _) => At(s.desk.core, t, Shaking) && c !in s.used
    case ShakeFailed(t) => At(s.desk.core, t, Shaking)
    case Cancel(t) =>
      At(s.desk.core, t, Dialing) || At(s.desk.core, t, Waiting) || At(s.desk.core, t, Locked) || At(s.desk.core, t, Shaking)
    case DropH1(t, _, _) => t in s.desk.core.tasks && s.desk.core.tasks[t].phase.Done? && s.desk.core.tasks[t].phase.got.H1?
    case ConnError(_) => true
  }

  function Front(m: Idles, k: Key): Option<Conn> {
    var q := QueueOf(m, k);
    if q == [] then None else Some(q[0].conn)
  }

  predicate GoesH2(s: State, alpnH2: bool) {
    s.protocol == HTTP2 || alpnH2
  }

  /** From the first poll to the dial: both pools are consulted without a wait. */
  function BeginTask(s: State, t: TaskId): State
    requires t in s.desk.core.tasks
  {
    var k := s.desk.core.tasks[t].key;
    var d := if s.protocol != HTTP11 then Purge(s.desk, k) else s.desk;
    if s.protocol != HTTP11 && Front(d.pool, k).Some? then
      s.(desk := Move(d, t, Done(H2(Front(d.pool, k).value))))
    else if s.protocol != HTTP2 && Front(s.h1, k).Some? then
      s.(desk := Move(d, t, Done(H1(Front(s.h1, k).value))), h1 := s.h1[k := s.h1[k][1..]])
    else s.(desk := Move(d, t, Dialing))
  }

  function RecheckTask(s: State, t: TaskId): State
    requires t in s.desk.core.tasks
  {
    var k := s.desk.core.tasks[t].key;
    var d := Purge(s.desk, k);
    match Front(d.pool, k)
    case Some(c) => s.(desk := Move(d, t, Done(H2(c))))
    case None => s.(desk := TakeOff(d, t, Shaking))
  }

  function Apply(s: State, e: Event): State
    requires Enabled(s, e)
  {
    match e
    case Spawn(t, k) => s.(desk := s.desk.(core := Spawned(s.desk.core, t, k)))
    case Begin(t) => BeginTask(s, t)
    case Dialed(t, alpn, c) =>
      if GoesH2(s, alpn) then s.(desk := Move(s.desk, t, Waiting))
      else s.(desk := Move(s.desk, t, Done(H1(c))), used := s.used + {c})
    case DialFailed(t) => s.(desk := Move(s.desk, t, Over))
    case Acquire(t) => s.(desk := Move(s.desk, t, Locked))
    case Recheck(t) => RecheckTask(s, t)
    case Shaken(t, c, now) =>
      s.(desk := Land(s.desk, t, c, now, DEFAULT_KEEPALIVE_CONNS), used := s.used + {c})
    case ShakeFailed(t) => s.(desk := Crash(s.desk, t))
    case Cancel(t) =>
      s.(desk := if s.desk.core.tasks[t].phase.Shaking? then Crash(s.desk, t) else Move(s.desk, t, Over))
    case DropH1(t, isOpen, now) =>
      var k, c := s.desk.core.tasks[t].key, s.desk.core.tasks[t].phase.got.conn;
      var s1 := s.(desk := Move(s.desk, t, Over));
      if !isOpen then s1
      else
        var q := QueueOf(s.h1, k);
        s1.(h1 := s.h1[k := Tail(q, EvictedByReturn(|q|, DEFAULT_KEEPALIVE_CONNS)) + [Idle(c, now)]])
    case ConnError(c) => s.(desk := s.desk.(dead := s.desk.dead + {c}))
  }

  ghost predicate Legal(s: State, es: seq<Event>)
    decreases |es|
  {
    es == [] || (Enabled(s, es[0]) && Legal(Apply(s, es[0]), es[1..]))
  }

  ghost function Exec(s: State, es: seq<Event>): State
    requires Legal(s, es)
    decreases |es|
  {
    if es == [] then s else Exec(Apply(s, es[0]), es[1..])
  }

  // ---- The connector as an object ----

  /** The connector with its two pools and its lock map. The tasks are the
      suspended `connect` futures; each method is what one of them does between
      two awaits. */
  class Connector {
    const protocol: Protocol
    const h1Pool: ConnectionPool
    const h2Pool: ConnectionPool
    var connecting: map<Key, int>
    var tasks: map<TaskId, Task>
    var errored: set<Conn>
    var used: set<Conn>
    ghost var books: Books

    constructor (protocol: Protocol)
      ensures Valid() && fresh(h1Pool) && fresh(h2Pool)
      ensures Snapshot() == Init(protocol)
    {
      this.protocol := protocol;
      h1Pool := new ConnectionPool(None);
      h2Pool := new ConnectionPool(None);
      connecting, tasks, errored, used, books := map[], map[], {}, {}, map[];
    }

    ghost predicate Valid()
      reads this
    {
      && h1Pool != h2Pool
      && h1Pool.maxIdle == DEFAULT_KEEPALIVE_CONNS == h2Pool.maxIdle
      && h1Pool.idleDur == None
    }

    ghost function Snapshot(): State
      reads this, h1Pool, h2Pool
    {
      State(Desk(Core(connecting, tasks), h2Pool.idleConns, errored, books), protocol, h1Pool.idleConns, used)
    }

    method TryGet(key: Key) returns (r: Option<Conn>)
      requires Valid()
      modifies this`books, h2Pool
      ensures Snapshot() == old(Snapshot()).(desk := Purge(old(Snapshot().desk), key))
      ensures r == Front(h2Pool.idleConns, key)
    {
      if key !in h2Pool.idleConns {
        return None;
      }
      var conns := h2Pool.idleConns[key];
      var kept := RetainLiving(conns, errored);
      ghost var led := LedgerOf(books, key);
      books := books[key := led.(removed := led.removed + Purged(conns, errored))];
      h2Pool.idleConns := h2Pool.idleConns[key := kept];
      r := if kept == [] then None else Some(kept[0].conn);
    }

    method Begin(t: TaskId, now: Instant)
      requires Valid() && At(Core(connecting, tasks), t, Start)
      modifies this, h1Pool, h2Pool
      ensures Valid() && Snapshot() == Apply(old(Snapshot()), Event.Begin(t))
    {
      var key := tasks[t].key;
      if protocol != HTTP11 {
        var conn := TryGet(key);
        if conn.Some? {
          tasks := tasks[t := Task(key, Done(H2(conn.value)))];
          return;
        }
      }
      if protocol != HTTP2 {
        ghost var before := h1Pool.idleConns;
        var conn := h1Pool.Get(key, now);
        if conn.Some? {
          tasks := tasks[t := Task(key, Done(H1(conn.value)))];
          return;
        }
        assert h1Pool.idleConns == before;
      }
      tasks := tasks[t := Task(key, Dialing)];
    }

    method Dialed(t: TaskId, alpnH2: bool, conn: Conn)
      requires Valid() && At(Core(connecting, tasks), t, Dialing) && conn !in used
      modifies this
      ensures Valid() && Snapshot() == Apply(old(Snapshot()), Event.Dialed(t, alpnH2, conn))
    {
      var key := tasks[t].key;
      if protocol == HTTP2 || alpnH2 {
        if key !in connecting {
          connecting := connecting[key := 1];
        }
        assert connecting[key := connecting[key]] == connecting;
        tasks := tasks[t := Task(key, Waiting)];
      } else {
        used := used + {conn};
        tasks := tasks[t := Task(key, Done(H1(conn)))];
      }
    }

    method Acquire(t: TaskId)
      requires Valid() && EntriesMade(Core(connecting, tasks)) && Enabled(Snapshot(), Event.Acquire(t))
      modifies this
      ensures Valid() && Snapshot() == Apply(old(Snapshot()), Event.Acquire(t))
    {
      var key := tasks[t].key;
      connecting := connecting[key := connecting[key] - 1];
      tasks := tasks[t := Task(key, Locked)];
    }

    /** The end of a task's hold on its lock, by return, error or cancellation. */
    method Unlock(t: TaskId, p: Phase)
      requires t in tasks && Holding(tasks[t].phase) && Finished(p)
      modifies this`connecting, this`tasks
      ensures Core(connecting, tasks) == Goto(old(Core(connecting, tasks)), t, p)
    {
      var key := tasks[t].key;
      connecting := connecting[key := (if key in connecting then connecting[key] else 1) + 1];
      tasks := tasks[t := Task(key, p)];
    }

    method Recheck(t: TaskId)
      requires Valid() && At(Core(connecting, tasks), t, Locked)
      modifies this, h2Pool
      ensures Valid() && Snapshot() == Apply(old(Snapshot()), Event.Recheck(t))
    {
      var key := tasks[t].key;
      var conn := TryGet(key);
      if conn.Some? {
        Unlock(t, Done(H2(conn.value)));
      } else {
        ghost var led := LedgerOf(books, key);
        books := books[key := led.(started := led.started + 1)];
        tasks := tasks[t := Task(key, Shaking)];
      }
    }

    method Shaken(t: TaskId, conn: Conn, now: Instant)
      requires Valid() && At(Core(connecting, tasks), t, Shaking) && conn !in used
      modifies this, h2Pool
      ensures Valid() && Snapshot() == Apply(old(Snapshot()), Event.Shaken(t, conn, now))
    {
      var key := tasks[t].key;
      used := used + {conn};
      ghost var led := LedgerOf(books, key);
      books := books[key := led.(put := led.put + [conn])];
      h2Pool.Put(key, conn, now);
      Unlock(t, Done(H2(conn)));
    }

    method DialFailed(t: TaskId)
      requires Valid() && At(Core(connecting, tasks), t, Dialing)
      modifies this
      ensures Valid() && Snapshot() == Apply(old(Snapshot()), Event.DialFailed(t))
    {
      tasks := tasks[t := Task(tasks[t].key, Over)];
    }

    method ShakeFailed(t: TaskId)
      requires Valid() && At(Core(connecting, tasks), t, Shaking)
      modifies this
      ensures Valid() && Snapshot() == Apply(old(Snapshot()), Event.ShakeFailed(t))
    {
      ghost var led := LedgerOf(books, tasks[t].key);
      books := books[tasks[t].key := led.(failed := led.failed + 1)];
      Unlock(t, Over);
    }

    /** The future is dropped while suspended. */
    method Cancel(t: TaskId)
      requires Valid() && Enabled(Snapshot(), Event.Cancel(t))
      modifies this
      ensures Valid() && Snapshot() == Apply(old(Snapshot()), Event.Cancel(t))
    {
      var key, phase := tasks[t].key, tasks[t].phase;
      if phase.Shaking? {
        ghost var led := LedgerOf(books, key);
        books := books[key := led.(failed := led.failed + 1)];
      }
      if phase.Locked? || phase.Shaking? {
        Unlock(t, Over);
      } else {
        tasks := tasks[t := Task(key, Over)];
      }
    }

    /** The handle of an HTTP/1.1 connection is dropped. */
    method DropH1(t: TaskId, isOpen: bool, now: Instant)
      requires Valid() && t in tasks && tasks[t].phase.Done? && tasks[t].phase.got.H1?
      modifies this, h1Pool
      ensures Valid() && Snapshot() == Apply(old(Snapshot()), Event.DropH1(t, isOpen, now))
    {
      var key, conn := tasks[t].key, tasks[t].phase.got.conn;
      tasks := tasks[t := Task(key, Over)];
      h1Pool.Return(key, conn, isOpen, now);
    }
  }

  // ---- Single flight ----

  lemma BeginKeepsDesk(s: State, t: TaskId)
    requires DeskOk(s.desk) && At(s.desk.core, t, Start)
    ensures DeskOk(BeginTask(s, t).desk)
  {
    var k := s.desk.core.tasks[t].key;
    var d := if s.protocol != HTTP11 then Purge(s.desk, k) else s.desk;
    PurgeKeepsDesk(s.desk, k);
    MoveKeepsDesk(d, t, BeginTask(s, t).desk.core.tasks[t].phase);
  }

  lemma RecheckKeepsDesk(s: State, t: TaskId)
    requires DeskOk(s.desk) && At(s.desk.core, t, Locked)
    ensures DeskOk(RecheckTask(s, t).desk)
  {
    var d := Purge(s.desk, s.desk.core.tasks[t].key);
    PurgeKeepsDesk(s.desk, s.desk.core.tasks[t].key);
    match Front(d.pool, s.desk.core.tasks[t].key)
    case Some(c) => MoveKeepsDesk(d, t, Done(H2(c)));
    case None => TakeOffKeepsDesk(d, t, Shaking);
  }

  lemma DeskStep(s: State, e: Event)
    requires DeskOk(s.desk) && Enabled(s, e)
    ensures DeskOk(Apply(s, e).desk)
  {
    match e
    case Spawn(t, k) => SpawnKeepsDesk(s.desk, t, k);
    case Begin(t) => BeginKeepsDesk(s, t);
    case Dialed(t, alpn, c) => MoveKeepsDesk(s.desk, t, if GoesH2(s, alpn) then Waiting else Done(H1(c)));
    case DialFailed(t) => MoveKeepsDesk(s.desk, t, Over);
    case Acquire(t) => MoveKeepsDesk(s.desk, t, Locked);
    case Recheck(t) => RecheckKeepsDesk(s, t);
    case Shaken(t, c, now) => LandKeepsDesk(s.desk, t, c, now, DEFAULT_KEEPALIVE_CONNS);
    case ShakeFailed(t) => CrashKeepsDesk(s.desk, t);
    case Cancel(t) =>
      if s.desk.core.tasks[t].phase.Shaking? { CrashKeepsDesk(s.desk, t); } else { MoveKeepsDesk(s.desk, t, Over); }
    case DropH1(t, isOpen, now) => MoveKeepsDesk(s.desk, t, Over);
    case ConnError(c) => DeathKeepsDesk(s.desk, c);
  }

  lemma {:induction false} EveryRun(s: State, es: seq<Event>)
    requires DeskOk(s.desk) && Legal(s, es)
    ensures DeskOk(Exec(s, es).desk)
    decreases |es|
  {
    if es != [] {
      DeskStep(s, es[0]);
      EveryRun(Apply(s, es[0]), es[1..]);
    }
  }

  /** In every run, per key: at most one pooled HTTP/2 connection; put =
      removed + pooled, in order, and removed only after an error; handshakes
      never exceed one plus those that failed plus the connections lost; and if
      none failed and none errored, all callers share the one connection. */
  lemma SingleFlight(p: Protocol, es: seq<Event>, k: Key)
    requires Legal(Init(p), es)
    ensures OneConnectionServes(Exec(Init(p), es).desk, k)
  {
    EmptyDeskOk();
    EveryRun(Init(p), es);
    DeskServes(Exec(Init(p), es).desk, k);
  }

  // ---- What each step does, observed from outside ----

  /** The first poll. A pooled HTTP/2 connection without an error is returned at
      once unless the setting is HTTP/1.1, the first one there is; otherwise, unless
      the setting is HTTP/2, the front of the HTTP/1.1 queue; and the task dials
      exactly if it found neither. */
  lemma BeginMeans(s: State, t: TaskId)
    requires Enabled(s, Begin(t))
    ensures var k, s' := s.desk.core.tasks[t].key, Apply(s, Begin(t));
            var q2, q1, p := QueueOf(s.desk.pool, k), QueueOf(s.h1, k), PhaseOf(s'.desk, t);
            var hit2 := s.protocol != HTTP11 && ConnsOf(q2) - s.desk.dead != {};
            var hit1 := !hit2 && s.protocol != HTTP2 && q1 != [];
            && (hit2 ==> p.Done? && p.got.H2? && FirstLiving(q2, s.desk.dead, p.got.conn))
            && (hit1 ==> p == Done(H1(q1[0].conn)) && QueueOf(s'.h1, k) == q1[1..])
            && (p == Dialing <==> !hit2 && !hit1)
            && (!hit1 ==> s'.h1 == s.h1)
  {
    PurgeMeans(s.desk, s.desk.core.tasks[t].key);
  }

  /** It takes no lock, and of the HTTP/2 connections only the errored ones of its
      key leave the pool, if that pool is consulted. */
  lemma BeginLeavesAlone(s: State, t: TaskId)
    requires Enabled(s, Begin(t))
    ensures var k, s' := s.desk.core.tasks[t].key, Apply(s, Begin(t));
            var q := QueueOf(s.desk.pool, k);
            && OnlyTask(s.desk, s'.desk, t) && s'.desk.core.locks == s.desk.core.locks
            && ConnsOf(QueueOf(s'.desk.pool, k)) == (if s.protocol == HTTP11 then ConnsOf(q) else ConnsOf(q) - s.desk.dead)
            && (forall j :: j != k ==> QueueOf(s'.h1, j) == QueueOf(s.h1, j))
  {
    PurgeMeans(s.desk, s.desk.core.tasks[t].key);
    BeginIsMove(s, t);
    BeginQueues(s, t);
    GotoIsOnlyTask(s.desk, t, BeginTask(s, t).desk.core.tasks[t].phase, BeginTask(s, t).desk);
  }

  lemma BeginQueues(s: State, t: TaskId)
    requires At(s.desk.core, t, Start)
    ensures var k, s' := s.desk.core.tasks[t].key, BeginTask(s, t);
            && s'.desk.pool == (if s.protocol == HTTP11 then s.desk.pool else Purge(s.desk, k).pool)
            && s'.desk.dead == s.desk.dead
            && (forall j :: j != k ==> QueueOf(s'.desk.pool, j) == QueueOf(s.desk.pool, j))
            && (forall j :: j != k ==> QueueOf(s'.h1, j) == QueueOf(s.h1, j))
  {
  }

  /** The second check, under the lock. A pooled HTTP/2 connection without an error
      is returned, the first one there is, and the lock given back; a handshake
      begins exactly if there is none. */
  lemma HandsOutHealthy(s: State, t: TaskId)
    requires Enabled(s, Recheck(t))
    ensures var k, s' := s.desk.core.tasks[t].key, Apply(s, Recheck(t));
            var q, p := QueueOf(s.desk.pool, k), PhaseOf(s'.desk, t);
            var hit := ConnsOf(q) - s.desk.dead != {};
            && OnlyTask(s.desk, s'.desk, t) && s'.h1 == s.h1
            && (hit ==> p.Done? && p.got.H2? && FirstLiving(q, s.desk.dead, p.got.conn))
            && (p == Shaking <==> !hit)
            && Permits(s'.desk.core, k) == Permits(s.desk.core, k) + (if hit then 1 else 0)
            && ConnsOf(QueueOf(s'.desk.pool, k)) == ConnsOf(q) - s.desk.dead
  {
    var k := s.desk.core.tasks[t].key;
    PurgeMeans(s.desk, k);
    MoveIsOnlyTask(s.desk, t, RecheckTask(s, t).desk.core.tasks[t].phase);
  }

  /** The steps that touch no pool: a dial sends the task to its key's lock or
      gives it a new HTTP/1.1 connection, the lock's permit is taken, and whatever
      ends a task otherwise gives back a permit it held. */
  lemma PlainStepMeans(s: State, e: Event)
    requires Enabled(s, e) && (e.Dialed? || e.DialFailed? || e.Acquire? || e.ShakeFailed? || e.Cancel?)
    ensures var k, s' := s.desk.core.tasks[e.t].key, Apply(s, e);
            var p, was := PhaseOf(s'.desk, e.t), Holding(s.desk.core.tasks[e.t].phase);
            && OnlyTask(s.desk, s'.desk, e.t) && s'.h1 == s.h1 && s'.desk.pool == s.desk.pool
            && (match e
                case Dialed(_, alpn, c) =>
                  && p == (if s.protocol == HTTP2 || alpn then Waiting else Done(H1(c)))
                  && (p.Waiting? ==> k in s'.desk.core.locks)
                  && Permits(s'.desk.core, k) == Permits(s.desk.core, k)
                case Acquire(_) => p == Locked && Permits(s'.desk.core, k) == Permits(s.desk.core, k) - 1
                case _ => p == Over && Permits(s'.desk.core, k) == Permits(s.desk.core, k) + (if was then 1 else 0))
  {
    MoveIsOnlyTask(s.desk, e.t, Apply(s, e).desk.core.tasks[e.t].phase);
  }

  /** In every run, a completed handshake leaves its connection alone in the pool
      of its key, hands it to the caller and gives back the lock. */
  lemma ShakenMeans(s: State, t: TaskId, c: Conn, now: Instant)
    requires DeskOk(s.desk) && Enabled(s, Shaken(t, c, now))
    ensures var k, s' := s.desk.core.tasks[t].key, Apply(s, Shaken(t, c, now));
            && OnlyTask(s.desk, s'.desk, t) && s'.h1 == s.h1
            && QueueOf(s.desk.pool, k) == [] && QueueOf(s'.desk.pool, k) == [Idle(c, now)]
            && PhaseOf(s'.desk, t) == Done(H2(c)) && Permits(s.desk.core, k) == 0 && Permits(s'.desk.core, k) == 1
  {
    var k := s.desk.core.tasks[t].key;
    assert KeyOk(s.desk, k) && OneHolder(s.desk.core, k);
    FlyersHold(s.desk.core, t);
    assert t in Holders(s.desk.core, k);
  }

  /** An HTTP/1.1 handle dropped open is the newest entry of its key's queue, which
      keeps up to 256; one dropped closed changes no queue. */
  lemma DropH1Means(s: State, t: TaskId, isOpen: bool, now: Instant)
    requires Enabled(s, DropH1(t, isOpen, now))
    ensures var k, c, s' := s.desk.core.tasks[t].key, s.desk.core.tasks[t].phase.got.conn, Apply(s, DropH1(t, isOpen, now));
            var q := QueueOf(s.h1, k);
            && OnlyTask(s.desk, s'.desk, t) && s'.desk.pool == s.desk.pool && PhaseOf(s'.desk, t) == Over
            && s'.desk.core.locks == s.desk.core.locks
            && (isOpen ==> Newest(q, Idle(c, now), if |q| < 256 then |q| + 1 else 256, QueueOf(s'.h1, k)))
            && (!isOpen ==> s'.h1 == s.h1)
            && (forall j :: j != k ==> QueueOf(s'.h1, j) == QueueOf(s.h1, j))
  {
  }

  /** The environment is free: a suspended future may be dropped at any await,
      every dial and handshake may fail, every dial may negotiate `h2` or not, any
      connection may err at any time, and a caller may drop its handle. */
  lemma AnythingMayHappen(s: State, t: TaskId, c: Conn, alpn: bool, now: Instant)
    requires t in s.desk.core.tasks && c !in s.used
    ensures var p := s.desk.core.tasks[t].phase;
            && (p.Dialing? || p.Waiting? || p.Locked? || p.Shaking? ==> Enabled(s, Cancel(t)))
            && (p.Dialing? ==> Enabled(s, DialFailed(t)) && Enabled(s, Dialed(t, alpn, c)))
            && (p.Shaking? ==> Enabled(s, ShakeFailed(t)) && Enabled(s, Shaken(t, c, now)))
            && (p.Done? && p.got.H1? ==> Enabled(s, DropH1(t, alpn, now)))
    ensures forall x :: Enabled(s, ConnError(x)) && Apply(s, ConnError(x)) == s.(desk := s.desk.(dead := s.desk.dead + {x}))
  {
  }

  /** In every run, per key, free permits and holders make one. */
  lemma MutualExclusion(p: Protocol, es: seq<Event>, k: Key)
    requires Legal(Init(p), es)
    ensures var c := Exec(Init(p), es).desk.core;
            Permits(c, k) + |Holders(c, k)| == 1 && |Holders(c, k)| <= 1
  {
    EmptyDeskOk();
    EveryRun(Init(p), es);
    assert OneHolder(Exec(Init(p), es).desk.core, k);
  }

  // ---- Progress ----

  /** Steps taken by a task, as opposed to its creation, a dropped handle or the
      failure of a connection. */
  predicate TaskStep(e: Event) {
    !e.Spawn? && !e.DropH1? && !e.ConnError?
  }

  /** Every step of a task is one move of that task, to a lower phase. */
  lemma StepIsMove(s: State, e: Event)
    requires Enabled(s, e) && (TaskStep(e) || e.DropH1?)
    ensures e.t in s.desk.core.tasks && e.t in Apply(s, e).desk.core.tasks
    ensures var p := Apply(s, e).desk.core.tasks[e.t].phase;
            && Apply(s, e).desk.core == Goto(s.desk.core, e.t, p)
            && !p.LockedDial?
            && (TaskStep(e) ==> Rank(p) < Rank(s.desk.core.tasks[e.t].phase))
            && (e.DropH1? ==> Rank(p) == Rank(s.desk.core.tasks[e.t].phase))
  {
    match e
    case Begin(t) => BeginIsMove(s, t);
    case Recheck(t) => RecheckIsMove(s, t);
    case _ =>
  }

  lemma BeginIsMove(s: State, t: TaskId)
    requires At(s.desk.core, t, Start)
    ensures var p := BeginTask(s, t).desk.core.tasks[t].phase;
            BeginTask(s, t).desk.core == Goto(s.desk.core, t, p) && (p.Done? || p.Dialing?)
  {
  }

  lemma RecheckIsMove(s: State, t: TaskId)
    requires At(s.desk.core, t, Locked)
    ensures var p := RecheckTask(s, t).desk.core.tasks[t].phase;
            RecheckTask(s, t).desk.core == Goto(s.desk.core, t, p) && (p.Done? || p.Shaking?)
  {
  }

  /** Lock-map entries are never removed, so a key's lock is never replaced. */
  lemma LockEntriesStay(s: State, e: Event, k: Key)
    requires Enabled(s, e) && k in s.desk.core.locks
    ensures k in Apply(s, e).desk.core.locks
  {
    if TaskStep(e) || e.DropH1? { StepIsMove(s, e); }
  }

  lemma StepReducesWork(s: State, e: Event)
    requires Enabled(s, e)
    ensures TaskStep(e) ==> |Work(Apply(s, e).desk.core)| < |Work(s.desk.core)|
    ensures e.Spawn? ==> |Work(Apply(s, e).desk.core)| <= |Work(s.desk.core)| + Rank(Start)
    ensures e.DropH1? || e.ConnError? ==> Work(Apply(s, e).desk.core) == Work(s.desk.core)
  {
    if e.Spawn? {
      SpawnAddsWork(s.desk.core, e.t, e.key);
    } else if !e.ConnError? {
      StepIsMove(s, e);
      if TaskStep(e) { GotoReducesWork(s.desk.core, e.t, Apply(s, e).desk.core.tasks[e.t].phase); }
    }
  }

  /** In every run the tasks take at most six steps per task, whatever fails. */
  lemma {:induction false} StepsBounded(s: State, es: seq<Event>)
    requires Legal(s, es)
    ensures Count(es, TaskStep) + |Work(Exec(s, es).desk.core)|
         <= |Work(s.desk.core)| + Rank(Start) * Count(es, (e: Event) => e.Spawn?)
    decreases |es|
  {
    if es != [] {
      StepReducesWork(s, es[0]);
      StepsBounded(Apply(s, es[0]), es[1..]);
    }
  }

  /** With an environment that answers, an unfinished task means that some task
      has a next step: no reachable state is stuck. */
  lemma NeverStuck(p: Protocol, es: seq<Event>, t: TaskId)
    requires Legal(Init(p), es)
    requires var s := Exec(Init(p), es); t in s.desk.core.tasks && !Finished(s.desk.core.tasks[t].phase)
    ensures exists e :: Enabled(Exec(Init(p), es), e) && TaskStep(e) && !e.DialFailed? && !e.ShakeFailed? && !e.Cancel?
  {
    EmptyDeskOk();
    EveryRun(Init(p), es);
    NoLockedDial(Init(p), es);
    var s := Exec(Init(p), es);
    NoDeadlock(s.desk.core, t);
    var u :| CanMove(s.desk.core, u);
    var c := UpperBound(s.used);
    var p := s.desk.core.tasks[u].phase;
    var e := if p.Start? then Begin(u)
             else if p.Dialing? then Dialed(u, true, c)
             else if p.Waiting? then Acquire(u)
             else if p.Locked? then Recheck(u)
             else Shaken(u, c, 0);
    assert Enabled(s, e);
  }

  /** This connector dials before it takes the lock. */
  lemma {:induction false} NoLockedDial(s: State, es: seq<Event>)
    requires Legal(s, es) && forall t :: t in s.desk.core.tasks ==> !s.desk.core.tasks[t].phase.LockedDial?
    ensures forall t :: t in Exec(s, es).desk.core.tasks ==> !Exec(s, es).desk.core.tasks[t].phase.LockedDial?
    decreases |es|
  {
    if es != [] {
      if TaskStep(es[0]) || es[0].DropH1? { StepIsMove(s, es[0]); }
      NoLockedDial(Apply(s, es[0]), es[1..]);
    }
  }

  // ---- Which protocol is served ----

  ghost predicate OnlyH2(s: State) {
    && (forall k :: QueueOf(s.h1, k) == [])
    && (forall t :: t in s.desk.core.tasks && s.desk.core.tasks[t].phase.Done? ==> s.desk.core.tasks[t].phase.got.H2?)
  }

  ghost predicate OnlyH1(s: State) {
    && (forall k :: QueueOf(s.desk.pool, k) == [])
    && (forall t :: t in s.desk.core.tasks && s.desk.core.tasks[t].phase.Done? ==> s.desk.core.tasks[t].phase.got.H1?)
  }

  /** No task of `s` is on the HTTP/2 path. */
  ghost predicate OffH2Path(s: State) {
    forall t :: t in s.desk.core.tasks ==>
      s.desk.core.tasks[t].phase.Start? || s.desk.core.tasks[t].phase.Dialing? || Finished(s.desk.core.tasks[t].phase)
  }

  lemma StepOnlyH2(s: State, e: Event)
    requires OnlyH2(s) && Enabled(s, e) && (e.Dialed? ==> GoesH2(s, e.alpnH2))
    ensures OnlyH2(Apply(s, e)) && Apply(s, e).protocol == s.protocol
  {
    if e.Begin? { BeginOnlyH2(s, e.t); }
  }

  lemma BeginOnlyH2(s: State, t: TaskId)
    requires OnlyH2(s) && At(s.desk.core, t, Start)
    ensures OnlyH2(BeginTask(s, t)) && BeginTask(s, t).protocol == s.protocol
  {
    assert QueueOf(s.h1, s.desk.core.tasks[t].key) == [];
  }

  lemma StepOnlyH1(s: State, e: Event)
    requires OnlyH1(s) && OffH2Path(s) && Enabled(s, e) && (e.Dialed? ==> !GoesH2(s, e.alpnH2))
    ensures OnlyH1(Apply(s, e)) && OffH2Path(Apply(s, e)) && Apply(s, e).protocol == s.protocol
  {
    if e.Begin? { BeginOnlyH1(s, e.t); }
  }

  lemma BeginOnlyH1(s: State, t: TaskId)
    requires OnlyH1(s) && OffH2Path(s) && At(s.desk.core, t, Start)
    ensures OnlyH1(BeginTask(s, t)) && OffH2Path(BeginTask(s, t)) && BeginTask(s, t).protocol == s.protocol
  {
    var s' := BeginTask(s, t);
    forall k ensures QueueOf(s'.desk.pool, k) == [] {
      assert QueueOf(s.desk.pool, k) == [];
    }
  }

  /** `allow(b)`: a dial may yield a transport that negotiated `h2` (b) or not. */
  ghost predicate Offers(es: seq<Event>, allow: bool -> bool) {
    forall i :: 0 <= i < |es| && es[i].Dialed? ==> allow(es[i].alpnH2)
  }

  lemma {:induction false} RunsOnlyH2(s: State, es: seq<Event>, allow: bool -> bool)
    requires OnlyH2(s) && Legal(s, es) && Offers(es, allow)
    requires s.protocol == HTTP2 || !allow(false)
    ensures OnlyH2(Exec(s, es))
    decreases |es|
  {
    if es != [] {
      StepOnlyH2(s, es[0]);
      RunsOnlyH2(Apply(s, es[0]), es[1..], allow);
    }
  }

  lemma {:induction false} RunsOnlyH1(s: State, es: seq<Event>, allow: bool -> bool)
    requires OnlyH1(s) && OffH2Path(s) && Legal(s, es) && Offers(es, allow)
    requires s.protocol != HTTP2 && !allow(true)
    ensures OnlyH1(Exec(s, es))
    decreases |es|
  {
    if es != [] {
      StepOnlyH1(s, es[0]);
      RunsOnlyH1(Apply(s, es[0]), es[1..], allow);
    }
  }

  lemma Cons(s: State, e: Event, es: seq<Event>)
    requires Enabled(s, e) && Legal(Apply(s, e), es)
    ensures Legal(s, [e] + es) && Exec(s, [e] + es) == Exec(Apply(s, e), es)
  {
    assert ([e] + es)[1..] == es;
  }

  /** A first caller whose transport is sent down the HTTP/2 path gets HTTP/2. */
  lemma FirstCallerH2(p: Protocol, k: Key, alpn: bool) returns (es: seq<Event>)
    requires p == HTTP2 || alpn
    ensures Legal(Init(p), es) && !OnlyH1(Exec(Init(p), es))
    ensures forall i :: 0 <= i < |es| && es[i].Dialed? ==> es[i].alpnH2 == alpn
  {
    var s0 := Init(p);
    var s1 := Apply(s0, Spawn(0, k));
    var s2 := Apply(s1, Begin(0));
    assert At(s2.desk.core, 0, Dialing) && s2.used == {} && s2.desk.core.locks == map[];
    var s3 := Apply(s2, Dialed(0, alpn, 0));
    assert At(s3.desk.core, 0, Waiting) && Permits(s3.desk.core, k) == 1;
    es := FinishH2(s3, k);
    Cons(s2, Dialed(0, alpn, 0), es);
    es := [Dialed(0, alpn, 0)] + es;
    Cons(s1, Begin(0), es);
    es := [Begin(0)] + es;
    Cons(s0, Spawn(0, k), es);
    es := [Spawn(0, k)] + es;
  }

  lemma FinishH2(s: State, k: Key) returns (es: seq<Event>)
    requires At(s.desk.core, 0, Waiting) && s.desk.core.tasks[0].key == k && Permits(s.desk.core, k) == 1
    requires QueueOf(s.desk.pool, k) == [] && s.used == {}
    ensures Legal(s, es) && !OnlyH1(Exec(s, es))
    ensures forall i :: 0 <= i < |es| ==> !es[i].Dialed?
  {
    var s1 := Apply(s, Acquire(0));
    assert At(s1.desk.core, 0, Locked) && s1.desk.pool == s.desk.pool && s1.used == {};
    es := FinishLocked(s1, k);
    Cons(s, Acquire(0), es);
    es := [Acquire(0)] + es;
  }

  lemma FinishLocked(s: State, k: Key) returns (es: seq<Event>)
    requires At(s.desk.core, 0, Locked) && s.desk.core.tasks[0].key == k
    requires QueueOf(s.desk.pool, k) == [] && s.used == {}
    ensures Legal(s, es) && !OnlyH1(Exec(s, es))
    ensures forall i :: 0 <= i < |es| ==> !es[i].Dialed?
  {
    var s1 := Apply(s, Recheck(0));
    assert At(s1.desk.core, 0, Shaking) && s1.used == {};
    var s2 := Apply(s1, Shaken(0, 0, 0));
    assert At(s2.desk.core, 0, Done(H2(0)));
    es := [];
    Cons(s1, Shaken(0, 0, 0), es);
    es := [Shaken(0, 0, 0)] + es;
    Cons(s, Recheck(0), es);
    es := [Recheck(0)] + es;
  }

  lemma FirstCallerH1(p: Protocol, k: Key) returns (es: seq<Event>)
    requires p != HTTP2
    ensures Legal(Init(p), es) && !OnlyH2(Exec(Init(p), es))
    ensures forall i :: 0 <= i < |es| && es[i].Dialed? ==> !es[i].alpnH2
  {
    var s0 := Init(p);
    var s1 := Apply(s0, Spawn(0, k));
    var s2 := Apply(s1, Begin(0));
    assert At(s2.desk.core, 0, Dialing) && s2.used == {};
    var s3 := Apply(s2, Dialed(0, false, 0));
    assert At(s3.desk.core, 0, Done(H1(0)));
    es := [];
    Cons(s2, Dialed(0, false, 0), es);
    es := [Dialed(0, false, 0)] + es;
    Cons(s1, Begin(0), es);
    es := [Begin(0)] + es;
    Cons(s0, Spawn(0, k), es);
    es := [Spawn(0, k)] + es;
  }

  /** A connector hands out only HTTP/2 and pools no HTTP/1.1, in every run,
      exactly if it is set to HTTP/2 or its transports always negotiate `h2`. */
  lemma OnlyH2Iff(p: Protocol, k: Key, allow: bool -> bool)
    ensures (forall es :: Legal(Init(p), es) && Offers(es, allow) ==> OnlyH2(Exec(Init(p), es)))
       <==> (p == HTTP2 || !allow(false))
  {
    if p == HTTP2 || !allow(false) {
      forall es | Legal(Init(p), es) && Offers(es, allow) ensures OnlyH2(Exec(Init(p), es)) {
        RunsOnlyH2(Init(p), es, allow);
      }
    } else {
      var es := FirstCallerH1(p, k);
      assert Offers(es, allow);
    }
  }

  /** A connector hands out only HTTP/1.1 and pools no HTTP/2, in every run,
      exactly if it is not set to HTTP/2 and its transports never negotiate `h2`;
      setting it to HTTP/1.1 alone does not achieve this. */
  lemma OnlyH1Iff(p: Protocol, k: Key, allow: bool -> bool)
    requires allow(true) || allow(false)
    ensures (forall es :: Legal(Init(p), es) && Offers(es, allow) ==> OnlyH1(Exec(Init(p), es)))
       <==> (p != HTTP2 && !allow(true))
  {
    if p != HTTP2 && !allow(true) {
      forall es | Legal(Init(p), es) && Offers(es, allow) ensures OnlyH1(Exec(Init(p), es)) {
        RunsOnlyH1(Init(p), es, allow);
      }
    } else {
      var es := FirstCallerH2(p, k, allow(true));
      assert Offers(es, allow);
    }
  }

  // ---- All callers of a key for which nothing goes wrong ----

  /** If no handshake for `k` failed or was dropped midway, none of its
      connections errored and every caller of `k` got HTTP/2, then one handshake
      ran for the key and all callers hold its connection; other keys may fare as
      they like, under any protocol setting. */
  lemma CallersShare(p: Protocol, es: seq<Event>, k: Key)
    requires Legal(Init(p), es)
    requires var d := Exec(Init(p), es).desk; Calm(d, k) && Healthy(d, k) && AllEnded(d, k)
    ensures AllShare(Exec(Init(p), es).desk, k)
  {
    SingleFlight(p, es, k);
    CalmCallersShare(Exec(Init(p), es).desk, k);
  }

  /** For a task of `k` the event is no failure and no dropped future, and a dial
      leads to HTTP/2. */
  predicate Smooth(s: State, e: Event, k: Key)
    requires Enabled(s, e)
  {
    TaskStep(e) && s.desk.core.tasks[e.t].key == k ==>
      !e.DialFailed? && !e.ShakeFailed? && !e.Cancel? && (e.Dialed? ==> GoesH2(s, e.alpnH2))
  }

  ghost predicate SmoothRun(s: State, es: seq<Event>, k: Key)
    requires Legal(s, es)
    decreases |es|
  {
    es != [] ==> Smooth(s, es[0], k) && SmoothRun(Apply(s, es[0]), es[1..], k)
  }

  ghost predicate CalmKey(s: State, k: Key) {
    Calm(s.desk, k) && QueueOf(s.h1, k) == []
  }

  lemma CalmStep(s: State, e: Event, k: Key)
    requires CalmKey(s, k) && Enabled(s, e) && Smooth(s, e, k)
    ensures CalmKey(Apply(s, e), k)
  {
    var s' := Apply(s, e);
    if TaskStep(e) || e.DropH1? {
      StepIsMove(s, e);
      FailuresOf(s, e, k);
      assert e.DropH1? && s.desk.core.tasks[e.t].key == k ==> HasH2(s.desk, e.t, k);
      StepKeepsCalm(s.desk, e.t, s'.desk.core.tasks[e.t].phase, s'.desk, k);
    } else {
      forall t | t in s'.desk.core.tasks && s'.desk.core.tasks[t].key == k && Finished(s'.desk.core.tasks[t].phase)
        ensures HasH2(s'.desk, t, k)
      {
        assert HasH2(s.desk, t, k);
      }
    }
  }

  /** An event that is smooth for `k` records no failure of `k`, pools no
      HTTP/1.1 connection under it and ends its tasks with HTTP/2 only. */
  lemma FailuresOf(s: State, e: Event, k: Key)
    requires Enabled(s, e) && (TaskStep(e) || e.DropH1?) && Smooth(s, e, k) && QueueOf(s.h1, k) == []
    ensures var s' := Apply(s, e);
            && LedgerOf(s'.desk.books, k).failed == LedgerOf(s.desk.books, k).failed
            && (s.desk.core.tasks[e.t].key != k || !e.DropH1? ==> QueueOf(s'.h1, k) == [])
            && e.t in s'.desk.core.tasks
            && (s.desk.core.tasks[e.t].key == k && Finished(s'.desk.core.tasks[e.t].phase) && !e.DropH1? ==>
                  s'.desk.core.tasks[e.t].phase.Done? && s'.desk.core.tasks[e.t].phase.got.H2?)
  {
    var k0 := s.desk.core.tasks[e.t].key;
    PurgeKeepsFailed(s.desk, k0, k);
    match e
    case Begin(t) => BeginIsMove(s, t);
    case Recheck(t) => RecheckIsMove(s, t);
    case _ =>
  }

  lemma {:induction false} SmoothRunIsCalm(s: State, es: seq<Event>, k: Key)
    requires CalmKey(s, k) && Legal(s, es) && SmoothRun(s, es, k)
    ensures CalmKey(Exec(s, es), k)
    decreases |es|
  {
    if es != [] {
      CalmStep(s, es[0], k);
      SmoothRunIsCalm(Apply(s, es[0]), es[1..], k);
    }
  }

  /** Under any setting: if any number of callers of a key all end, their dials
      lead to HTTP/2, none of their dials or handshakes fails, none of their
      futures is dropped and their connection stays healthy, then exactly one
      handshake ran for the key and all of them hold its connection. */
  lemma AllCallersShare(p: Protocol, es: seq<Event>, k: Key)
    requires Legal(Init(p), es) && SmoothRun(Init(p), es, k)
    requires Healthy(Exec(Init(p), es).desk, k) && AllEnded(Exec(Init(p), es).desk, k)
    ensures AllShare(Exec(Init(p), es).desk, k)
  {
    SmoothRunIsCalm(Init(p), es, k);
    CallersShare(p, es, k);
  }

  // ---- Each HTTP/1.1 connection is in one place ----

  predicate HoldsH1(tasks: map<TaskId, Task>, t: TaskId, c: Conn) {
    t in tasks && tasks[t].phase == Done(H1(c))
  }

  /** The handles in `held` are exactly those of the tasks, one task to each. */
  ghost predicate HandlesMatch(tasks: map<TaskId, Task>, held: map<Conn, Key>) {
    && (forall t, c :: HoldsH1(tasks, t, c) ==> c in held && held[c] == tasks[t].key)
    && (forall c :: c in held ==> exists t :: HoldsH1(tasks, t, c))
    && (forall t, u, c :: HoldsH1(tasks, t, c) && HoldsH1(tasks, u, c) ==> t == u)
  }

  /** The idle connections of `v` are those of the HTTP/1.1 pool. */
  ghost predicate PoolMatches(h1: Idles, used: set<Conn>, v: PoolRun.State) {
    && PoolRun.OnePlace(v) && v.alive && v.idleDur == None && v.maxIdle == DEFAULT_KEEPALIVE_CONNS
    && v.idle == h1 && v.origin.Keys <= used
  }

  /** `v` is the connector's HTTP/1.1 pool, with its callers' handles, as one of
      the pools whose runs `PoolRun` describes. */
  ghost predicate Mirrors(s: State, v: PoolRun.State) {
    PoolMatches(s.h1, s.used, v) && HandlesMatch(s.desk.core.tasks, v.held)
  }

  /** A task moves without gaining or losing an HTTP/1.1 handle. */
  lemma MoveKeepsHandles(tasks: map<TaskId, Task>, t: TaskId, k: Key, p: Phase, held: map<Conn, Key>)
    requires HandlesMatch(tasks, held) && !(p.Done? && p.got.H1?)
    requires t in tasks ==> !tasks[t].phase.Done?
    ensures HandlesMatch(tasks[t := Task(k, p)], held)
  {
    var tasks' := tasks[t := Task(k, p)];
    forall c | c in held ensures exists u :: HoldsH1(tasks', u, c) {
      var u :| HoldsH1(tasks, u, c);
      assert HoldsH1(tasks', u, c);
    }
    assert forall u, c :: HoldsH1(tasks', u, c) ==> HoldsH1(tasks, u, c);
  }

  lemma TakeAddsHandle(tasks: map<TaskId, Task>, t: TaskId, c: Conn, held: map<Conn, Key>)
    requires HandlesMatch(tasks, held) && t in tasks && !tasks[t].phase.Done? && c !in held
    ensures HandlesMatch(tasks[t := Task(tasks[t].key, Done(H1(c)))], held[c := tasks[t].key])
  {
    var tasks' := tasks[t := Task(tasks[t].key, Done(H1(c)))];
    assert HoldsH1(tasks', t, c);
    forall c0 | c0 in held ensures exists u :: HoldsH1(tasks', u, c0) {
      var u :| HoldsH1(tasks, u, c0);
      assert HoldsH1(tasks', u, c0);
    }
    assert forall u, c0 :: HoldsH1(tasks', u, c0) ==> (u == t && c0 == c) || (u != t && HoldsH1(tasks, u, c0));
  }

  lemma DropRemovesHandle(tasks: map<TaskId, Task>, t: TaskId, c: Conn, held: map<Conn, Key>)
    requires HandlesMatch(tasks, held) && HoldsH1(tasks, t, c)
    ensures HandlesMatch(tasks[t := Task(tasks[t].key, Over)], held - {c})
  {
    var tasks' := tasks[t := Task(tasks[t].key, Over)];
    forall c0 | c0 in held - {c} ensures exists u :: HoldsH1(tasks', u, c0) {
      var u :| HoldsH1(tasks, u, c0);
      assert HoldsH1(tasks', u, c0);
    }
    assert forall u, c0 :: HoldsH1(tasks', u, c0) ==> u != t && HoldsH1(tasks, u, c0);
  }

  /** A get from a pool without an idle duration pops the front. */
  lemma GetMatches(h1: Idles, used: set<Conn>, v: PoolRun.State, k: Key) returns (v': PoolRun.State)
    requires PoolMatches(h1, used, v) && QueueOf(h1, k) != []
    ensures PoolMatches(h1[k := h1[k][1..]], used, v')
    ensures h1[k][0].conn !in v.held && v'.held == v.held[h1[k][0].conn := k]
  {
    v' := PoolRun.Apply(v, PoolRun.Get(k));
    PoolRun.GetHandsOutOwnKey(v, k);
    PoolRun.OnePlaceStep(v, PoolRun.Get(k));
  }

  lemma LinkMatches(h1: Idles, used: set<Conn>, v: PoolRun.State, k: Key, c: Conn) returns (v': PoolRun.State)
    requires PoolMatches(h1, used, v) && c !in used
    ensures PoolMatches(h1, used + {c}, v') && c !in v.held && v'.held == v.held[c := k]
  {
    v' := PoolRun.Apply(v, PoolRun.Link(k, c));
    PoolRun.OnePlaceStep(v, PoolRun.Link(k, c));
  }

  lemma DropMatches(h1: Idles, used: set<Conn>, v: PoolRun.State, c: Conn, isOpen: bool, now: Instant)
    returns (v': PoolRun.State)
    requires PoolMatches(h1, used, v) && c in v.held
    ensures var q := QueueOf(h1, v.held[c]);
            var n := EvictedByReturn(|q|, DEFAULT_KEEPALIVE_CONNS);
            PoolMatches(if isOpen then h1[v.held[c] := Tail(q, n) + [Idle(c, now)]] else h1, used, v')
    ensures v'.held == v.held - {c}
  {
    var v0 := v.(now := now);
    v' := PoolRun.Apply(v0, PoolRun.Drop(c, isOpen));
    PoolRun.OnePlaceStep(v0, PoolRun.Drop(c, isOpen));
  }

  lemma BeginMirror(s: State, t: TaskId, v: PoolRun.State) returns (v': PoolRun.State)
    requires Mirrors(s, v) && At(s.desk.core, t, Start)
    ensures Mirrors(BeginTask(s, t), v')
  {
    var k, p := s.desk.core.tasks[t].key, BeginTask(s, t).desk.core.tasks[t].phase;
    BeginIsMove(s, t);
    if p.Done? && p.got.H1? {
      v' := GetMatches(s.h1, s.used, v, k);
      TakeAddsHandle(s.desk.core.tasks, t, p.got.conn, v.held);
    } else {
      v' := v;
      MoveKeepsHandles(s.desk.core.tasks, t, k, p, v.held);
    }
  }

  lemma MirrorStep(s: State, e: Event, v: PoolRun.State) returns (v': PoolRun.State)
    requires Mirrors(s, v) && Enabled(s, e)
    ensures Mirrors(Apply(s, e), v')
  {
    v' := v;
    var tasks := s.desk.core.tasks;
    match e
    case Spawn(t, k) => MoveKeepsHandles(tasks, t, k, Start, v.held);
    case Begin(t) => v' := BeginMirror(s, t, v);
    case DropH1(t, isOpen, now) =>
      var c := tasks[t].phase.got.conn;
      assert HoldsH1(tasks, t, c);
      v' := DropMatches(s.h1, s.used, v, c, isOpen, now);
      DropRemovesHandle(tasks, t, c, v.held);
    case Dialed(t, alpn, c) =>
      if GoesH2(s, alpn) {
        MoveKeepsHandles(tasks, t, tasks[t].key, Waiting, v.held);
      } else {
        v' := LinkMatches(s.h1, s.used, v, tasks[t].key, c);
        TakeAddsHandle(tasks, t, c, v.held);
      }
    case ConnError(_) =>
    case _ => OtherMirror(s, e, v);
  }

  /** The remaining steps leave the HTTP/1.1 pool and its handles alone. */
  lemma OtherMirror(s: State, e: Event, v: PoolRun.State)
    requires Mirrors(s, v) && Enabled(s, e) && TaskStep(e) && !e.Begin? && !e.Dialed?
    ensures Mirrors(Apply(s, e), v)
  {
    StepIsMove(s, e);
    var p := Apply(s, e).desk.core.tasks[e.t].phase;
    assert !(p.Done? && p.got.H1?) by {
      if e.Recheck? { HandsOutHealthy(s, e.t); RecheckIsMove(s, e.t); }
    }
    MoveKeepsHandles(s.desk.core.tasks, e.t, s.desk.core.tasks[e.t].key, p, v.held);
  }

  lemma {:induction false} EveryRunMirrors(s: State, es: seq<Event>, v: PoolRun.State) returns (v': PoolRun.State)
    requires Mirrors(s, v) && Legal(s, es)
    ensures Mirrors(Exec(s, es), v')
    decreases |es|
  {
    if es == [] {
      v' := v;
    } else {
      var v1 := MirrorStep(s, es[0], v);
      v' := EveryRunMirrors(Apply(s, es[0]), es[1..], v1);
    }
  }

  /** An HTTP/1.1 connection is held by one caller at most, is not idle while
      held, and is idle in one position of one queue at most. */
  ghost predicate H1Separate(s: State) {
    && (forall t, u, c :: HoldsH1(s.desk.core.tasks, t, c) && HoldsH1(s.desk.core.tasks, u, c) ==> t == u)
    && (forall t, c :: HoldsH1(s.desk.core.tasks, t, c) ==> c !in IdleConns(s.h1))
    && (forall k :: k in s.h1 ==> DistinctConns(s.h1[k]))
    && (forall j, k :: j in s.h1 && k in s.h1 && j != k ==> ConnsOf(s.h1[j]) !! ConnsOf(s.h1[k]))
  }

  /** This holds in every run, and every state of a run is mirrored by a pool in
      which each connection ever linked is idle under its key, held or gone. */
  lemma H1InOnePlace(p: Protocol, es: seq<Event>)
    requires Legal(Init(p), es)
    ensures H1Separate(Exec(Init(p), es)) && exists v :: Mirrors(Exec(Init(p), es), v)
  {
    assert IdleConns(map[]) == {};
    var v0 := PoolRun.Init(None);
    assert Mirrors(Init(p), v0);
    var v := EveryRunMirrors(Init(p), es, v0);
    MirrorSeparates(Exec(Init(p), es), v);
  }

  lemma MirrorSeparates(s: State, v: PoolRun.State)
    requires Mirrors(s, v)
    ensures H1Separate(s)
  {
  }
}
