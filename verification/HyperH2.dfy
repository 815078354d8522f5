/**
 Any number of `connect` tasks of the Hyper HTTP/2 connector, with its limit on
 the senders of one connection, which it enforces through a reference count.
 */
module HyperH2 {
  import opened Pool
  import opened ConnectTasks

  type HandleId = nat

  /** `desk` holds the pool, whose dead connections are those that are not ready
      and never will be again; `strong` is the reference count of each connection,
      `live` the handles the callers hold and `home` the key of each connection. */
  datatype State = State(
    desk: Desk, limit: Option<nat>, maxIdle: nat,
    strong: map<Conn, int>, live: map<HandleId, Conn>, home: map<Conn, Key>)

  datatype Event =
    | Spawn(t: TaskId, key: Key)
    | Begin(t: TaskId, h: HandleId, now: Instant)
    | Acquire(t: TaskId)
    | Recheck(t: TaskId, h: HandleId, now: Instant)
    | DialOk(t: TaskId)
    | Shaken(t: TaskId, conn: Conn, h: HandleId, now: Instant)
    | Failed(t: TaskId)
    | Cancel(t: TaskId)
    | DropHandle(h: HandleId)
    | Die(conn: Conn)

  function Init(limit: Option<nat>, maxIdle: nat): State {
    State(EMPTY_DESK, limit, maxIdle, map[], map[], map[])
  }

  predicate Enabled(s: State, e: Event) {
    match e
    case Spawn(t, _) => t !in s.desk.core.tasks
    case Begin(t, h, _) => At(s.desk.core, t, Start) && h !in s.live
    case Acquire(t) => At(s.desk.core, t, Waiting) && Permits(s.desk.core, s.desk.core.tasks[t].key) > 0
    case Recheck(t, h, _) => At(s.desk.core, t, Locked) && h !in s.live
    case DialOk(t) => At(s.desk.core, t, LockedDial)
    case Shaken(t, c, h, _) => At(s.desk.core, t, Shaking) && c !in s.home && h !in s.live
    case Failed(t) => At(s.desk.core, t, LockedDial) || At(s.desk.core, t, Shaking)
    case Cancel(t) =>
      At(s.desk.core, t, Waiting) || At(s.desk.core, t, Locked) || At(s.desk.core, t, LockedDial) || At(s.desk.core, t, Shaking)
    case DropHandle(h) => h in s.live
    case Die(_) => true
  }

  // ---- The parts of a step ----

  function StrongOf(strong: map<Conn, int>, c: Conn): int {
    if c in strong then strong[c] else 0
  }

  predicate StreamFull(strong: map<Conn, int>, limit: Option<nat>, c: Conn) {
    limit.Some? && StrongOf(strong, c) >= limit.value
  }

  /** The first connection with room for another sender; `|q|` if all are full. */
  function FirstFit(q: Queue, strong: map<Conn, int>, limit: Option<nat>): (i: nat)
    ensures i <= |q|
    ensures forall j :: 0 <= j < i ==> StreamFull(strong, limit, q[j].conn)
    ensures i < |q| ==> !StreamFull(strong, limit, q[i].conn)
  {
    if q == [] || !StreamFull(strong, limit, q[0].conn) then 0 else 1 + FirstFit(q[1..], strong, limit)
  }

  /** The pool's copies of `cs` are dropped. */
  function Unpooled(strong: map<Conn, int>, cs: set<Conn>): map<Conn, int> {
    map c | c in strong :: if c in cs then strong[c] - 1 else strong[c]
  }

  /** `retain` the connections that are ready. */
  function Retain(s: State, k: Key): State {
    if k !in s.desk.pool then s
    else s.(desk := Purge(s.desk, k), strong := Unpooled(s.strong, ConnsOf(s.desk.pool[k]) * s.desk.dead))
  }

  function Fit(s: State, k: Key): nat {
    FirstFit(QueueOf(s.desk.pool, k), s.strong, s.limit)
  }

  /** Entry `i` is stamped anew and the caller gets a clone under handle `h`. */
  function Hand(s: State, k: Key, i: nat, h: HandleId, now: Instant): State
    requires i < |QueueOf(s.desk.pool, k)|
  {
    var q := s.desk.pool[k];
    var c := q[i].conn;
    s.(desk := s.desk.(pool := s.desk.pool[k := q[i := q[i].(idleAt := now)]]),
       strong := s.strong[c := StrongOf(s.strong, c) + 1],
       live := s.live[h := c])
  }

  /** A new connection: one copy in the pool, one for the caller. */
  function PutNew(s: State, t: TaskId, c: Conn, h: HandleId, now: Instant): State
    requires t in s.desk.core.tasks
  {
    var k := s.desk.core.tasks[t].key;
    var q := QueueOf(s.desk.pool, k);
    s.(desk := Land(s.desk, t, c, now, s.maxIdle),
       strong := Unpooled(s.strong, ConnsOf(q[..EvictedByPut(|q|, s.maxIdle)]))[c := 2],
       live := s.live[h := c],
       home := s.home[c := k])
  }

  function DropOne(s: State, h: HandleId): State
    requires h in s.live
  {
    var c := s.live[h];
    s.(live := s.live - {h}, strong := s.strong[c := StrongOf(s.strong, c) - 1])
  }

  predicate HasRoom(s: State, k: Key) {
    Fit(s, k) < |QueueOf(s.desk.pool, k)|
  }

  /** The task returns the first pooled connection with room. */
  function Served(s: State, t: TaskId, h: HandleId, now: Instant): State
    requires t in s.desk.core.tasks && HasRoom(s, s.desk.core.tasks[t].key)
  {
    var k := s.desk.core.tasks[t].key;
    var s1 := Hand(s, k, Fit(s, k), h, now);
    s1.(desk := Move(s1.desk, t, Done(H2(s.desk.pool[k][Fit(s, k)].conn))))
  }

  function BeginTask(s: State, t: TaskId, h: HandleId, now: Instant): State
    requires t in s.desk.core.tasks
  {
    var s1 := Retain(s, s.desk.core.tasks[t].key);
    if HasRoom(s1, s.desk.core.tasks[t].key) then Served(s1, t, h, now)
    else s1.(desk := Move(s1.desk, t, Waiting))
  }

  function RecheckTask(s: State, t: TaskId, h: HandleId, now: Instant): State
    requires t in s.desk.core.tasks
  {
    var s1 := Retain(s, s.desk.core.tasks[t].key);
    if HasRoom(s1, s.desk.core.tasks[t].key) then Served(s1, t, h, now)
    else s1.(desk := TakeOff(s1.desk, t, LockedDial))
  }

  function Apply(s: State, e: Event): State
    requires Enabled(s, e)
  {
    match e
    case Spawn(t, k) => s.(desk := s.desk.(core := Spawned(s.desk.core, t, k)))
    case Begin(t, h, now) => BeginTask(s, t, h, now)
    case Acquire(t) => s.(desk := Move(s.desk, t, Locked))
    case Recheck(t, h, now) => RecheckTask(s, t, h, now)
    case DialOk(t) => s.(desk := Move(s.desk, t, Shaking))
    case Shaken(t, c, h, now) => PutNew(s, t, c, h, now)
    case Failed(t) => s.(desk := Crash(s.desk, t))
    case Cancel(t) =>
      s.(desk := if Flying(s.desk.core.tasks[t].phase) then Crash(s.desk, t) else Move(s.desk, t, Over))
    case DropHandle(h) => DropOne(s, h)
    case Die(c) => s.(desk := s.desk.(dead := s.desk.dead + {c}))
  }

  ghost predicate Legal(s: State, es: seq<Event>)
    decreases |es|
  {
    es == [] || (Enabled(s, es[0]) && Legal(Apply(s, es[0]), es[1..]))
  }

  ghost function Exec(s: State, es: seq<Event>): State
    requires Legal(s, es)
    decreases |es|
  {
    if es == [] then s else Exec(Apply(s, es[0]), es[1..])
  }

  // ---- The connector as an object ----

  /** The connector with its pool and its lock map; each method is what a
      suspended `connect` future does between two awaits. */
  class Connector {
    const limit: Option<nat>
    const pool: ConnectionPool
    var connecting: map<Key, int>
    var tasks: map<TaskId, Task>
    var strong: map<Conn, int>
    var live: map<HandleId, Conn>
    var dead: set<Conn>
    ghost var home: map<Conn, Key>
    ghost var books: Books

    constructor (limit: Option<nat>, maxIdle: Option<nat>)
      ensures fresh(pool) && Snapshot() == Init(limit, EffectiveMaxIdle(maxIdle))
    {
      this.limit := limit;
      pool := new ConnectionPool(maxIdle);
      connecting, tasks, strong, live, dead := map[], map[], map[], map[], {};
      home, books := map[], map[];
    }

    ghost function Snapshot(): State
      reads this, pool
    {
      State(Desk(Core(connecting, tasks), pool.idleConns, dead, books), limit, pool.maxIdle, strong, live, home)
    }

    method RetainReady(key: Key)
      modifies this`strong, this`books, pool
      ensures Snapshot() == Retain(old(Snapshot()), key)
    {
      if key in pool.idleConns {
        var conns := pool.idleConns[key];
        var kept := RetainLiving(conns, dead);
        strong := Unpooled(strong, ConnsOf(conns) * dead);
        ghost var led := LedgerOf(books, key);
        books := books[key := led.(removed := led.removed + Purged(conns, dead))];
        pool.idleConns := pool.idleConns[key := kept];
      }
    }

    method FindRoom(q: Queue) returns (i: nat)
      ensures i == FirstFit(q, strong, limit)
    {
      i := 0;
      while i < |q| && StreamFull(strong, limit, q[i].conn)
        invariant i <= |q| && FirstFit(q, strong, limit) == i + FirstFit(q[i..], strong, limit)
      {
        assert q[i..][1..] == q[i + 1..];
        i := i + 1;
      }
    }

    /** Drops the dead connections, then scans for the first with room. */
    method TryGet(key: Key, h: HandleId, now: Instant) returns (r: Option<Conn>)
      modifies this`strong, this`live, this`books, pool
      ensures var s1 := Retain(old(Snapshot()), key);
              if HasRoom(s1, key) then
                && r == Some(s1.desk.pool[key][Fit(s1, key)].conn)
                && Snapshot() == Hand(s1, key, Fit(s1, key), h, now)
              else r == None && Snapshot() == s1
    {
      RetainReady(key);
      var conns := QueueOf(pool.idleConns, key);
      var i := FindRoom(conns);
      if i == |conns| {
        return None;
      }
      var conn := conns[i].conn;
      pool.idleConns := pool.idleConns[key := conns[i := conns[i].(idleAt := now)]];
      strong := strong[conn := StrongOf(strong, conn) + 1];
      live := live[h := conn];
      return Some(conn);
    }

    method Begin(t: TaskId, h: HandleId, now: Instant)
      requires At(Core(connecting, tasks), t, Start) && h !in live
      modifies this, pool
      ensures Snapshot() == BeginTask(old(Snapshot()), t, h, now)
    {
      var key := tasks[t].key;
      var conn := TryGet(key, h, now);
      if conn.Some? {
        tasks := tasks[t := Task(key, Done(H2(conn.value)))];
        return;
      }
      if key !in connecting {
        connecting := connecting[key := 1];
      }
      assert connecting[key := connecting[key]] == connecting;
      tasks := tasks[t := Task(key, Waiting)];
    }

    method Recheck(t: TaskId, h: HandleId, now: Instant)
      requires At(Core(connecting, tasks), t, Locked) && h !in live
      modifies this, pool
      ensures Snapshot() == RecheckTask(old(Snapshot()), t, h, now)
    {
      var key := tasks[t].key;
      var conn := TryGet(key, h, now);
      if conn.Some? {
        Unlock(t, Done(H2(conn.value)));
      } else {
        ghost var led := LedgerOf(books, key);
        books := books[key := led.(started := led.started + 1)];
        tasks := tasks[t := Task(key, LockedDial)];
      }
    }

    /** The end of a task's hold on its lock. */
    method Unlock(t: TaskId, p: Phase)
      requires t in tasks && Holding(tasks[t].phase) && Finished(p)
      modifies this`connecting, this`tasks
      ensures Core(connecting, tasks) == Goto(old(Core(connecting, tasks)), t, p)
    {
      var key := tasks[t].key;
      connecting := connecting[key := (if key in connecting then connecting[key] else 1) + 1];
      tasks := tasks[t := Task(key, p)];
    }

    method Acquire(t: TaskId)
      requires EntriesMade(Core(connecting, tasks)) && Enabled(Snapshot(), Event.Acquire(t))
      modifies this`connecting, this`tasks
      ensures Snapshot() == Apply(old(Snapshot()), Event.Acquire(t))
    {
      var key := tasks[t].key;
      connecting := connecting[key := connecting[key] - 1];
      tasks := tasks[t := Task(key, Locked)];
    }

    method DialOk(t: TaskId)
      requires At(Core(connecting, tasks), t, LockedDial)
      modifies this`tasks
      ensures Snapshot() == Apply(old(Snapshot()), Event.DialOk(t))
    {
      tasks := tasks[t := Task(tasks[t].key, Shaking)];
    }

    /** The dial or the handshake fails. */
    method Failed(t: TaskId)
      requires Enabled(Snapshot(), Event.Failed(t))
      modifies this`connecting, this`tasks, this`books
      ensures Snapshot() == Apply(old(Snapshot()), Event.Failed(t))
    {
      ghost var led := LedgerOf(books, tasks[t].key);
      books := books[tasks[t].key := led.(failed := led.failed + 1)];
      Unlock(t, Over);
    }

    /** The future is dropped while suspended. */
    method Cancel(t: TaskId)
      requires Enabled(Snapshot(), Event.Cancel(t))
      modifies this`connecting, this`tasks, this`books
      ensures Snapshot() == Apply(old(Snapshot()), Event.Cancel(t))
    {
      if tasks[t].phase.Waiting? {
        tasks := tasks[t := Task(tasks[t].key, Over)];
      } else if tasks[t].phase.Locked? {
        Unlock(t, Over);
      } else {
        Failed(t);
      }
    }

    /** A caller drops its handle. */
    method DropHandle(h: HandleId)
      requires h in live
      modifies this`strong, this`live
      ensures Snapshot() == Apply(old(Snapshot()), Event.DropHandle(h))
    {
      var conn := live[h];
      live := live - {h};
      strong := strong[conn := StrongOf(strong, conn) - 1];
    }

    /** A new connection, counted once for the caller and once for the pool. */
    method Shaken(t: TaskId, conn: Conn, h: HandleId, now: Instant)
      requires At(Core(connecting, tasks), t, Shaking) && conn !in home && h !in live
      modifies this, pool
      ensures Snapshot() == PutNew(old(Snapshot()), t, conn, h, now)
    {
      var key := tasks[t].key;
      var queue := QueueOf(pool.idleConns, key);
      pool.Put(key, conn, now);
      var evicted := |queue| + 1 - |pool.idleConns[key]|;
      assert evicted == EvictedByPut(|queue|, pool.maxIdle);
      strong := Unpooled(strong, ConnsOf(queue[..evicted]))[conn := 2];
      live := live[h := conn];
      home := home[conn := key];
      ghost var led := LedgerOf(books, key);
      books := books[key := led.(put := led.put + [conn])];
      Unlock(t, Done(H2(conn)));
    }
  }

  // ---- The reference count and the limit on senders ----

  ghost function HandlesOf(s: State, c: Conn): set<HandleId> {
    set h | h in s.live && s.live[h] == c
  }

  ghost predicate Pooled(s: State, c: Conn) {
    c in s.home && c in ConnsOf(QueueOf(s.desk.pool, s.home[c]))
  }

  ghost predicate QueueOk(s: State, k: Key) {
    && DistinctConns(QueueOf(s.desk.pool, k))
    && forall c :: c in ConnsOf(QueueOf(s.desk.pool, k)) ==> c in s.home && s.home[c] == k
  }

  /** The senders one connection may have at a time. */
  function SenderCap(limit: nat): nat {
    if limit <= 2 then 1 else limit - 1
  }

  ghost predicate ConnOk(s: State, c: Conn) {
    && (c in s.home <==> c in s.strong)
    && (c !in s.home ==> HandlesOf(s, c) == {})
    && (c in s.home ==> s.strong[c] == |HandlesOf(s, c)| + if Pooled(s, c) then 1 else 0)
    && (s.limit.Some? ==> |HandlesOf(s, c)| <= SenderCap(s.limit.value))
  }

  ghost predicate Counts(s: State) {
    (forall k :: QueueOk(s, k)) && (forall c :: ConnOk(s, c))
  }

  lemma RetainKeepsCounts(s: State, k: Key)
    requires Counts(s)
    ensures Counts(Retain(s, k))
  {
    if k in s.desk.pool {
      var s' := Retain(s, k);
      LivingConns(s.desk.pool[k], s.desk.dead);
      forall k0 ensures QueueOk(s', k0) { assert QueueOk(s, k0); }
      forall c ensures ConnOk(s', c) {
        assert ConnOk(s, c) && QueueOk(s, k);
        assert HandlesOf(s', c) == HandlesOf(s, c);
      }
    }
  }

  /** One more handle to a pooled connection with room keeps it within its cap. */
  lemma HandleAdded(s: State, s': State, c: Conn, h: HandleId)
    requires ConnOk(s, c) && h !in s.live && Pooled(s, c) && Pooled(s', c)
    requires s'.live == s.live[h := c] && s'.limit == s.limit && s'.home == s.home
    requires s'.strong == s.strong[c := StrongOf(s.strong, c) + 1]
    requires !StreamFull(s.strong, s.limit, c)
    ensures ConnOk(s', c)
  {
    assert HandlesOf(s', c) == HandlesOf(s, c) + {h};
  }

  lemma HandKeepsCounts(s: State, k: Key, i: nat, h: HandleId, now: Instant)
    requires Counts(s) && h !in s.live
    requires i < |QueueOf(s.desk.pool, k)| && !StreamFull(s.strong, s.limit, s.desk.pool[k][i].conn)
    ensures Counts(Hand(s, k, i, h, now))
  {
    var s', c := Hand(s, k, i, h, now), s.desk.pool[k][i].conn;
    RestampConns(s.desk.pool[k], i, now);
    assert forall k0 :: ConnsOf(QueueOf(s'.desk.pool, k0)) == ConnsOf(QueueOf(s.desk.pool, k0));
    assert QueueOk(s, k) && c in ConnsOf(s.desk.pool[k]);
    forall k0 ensures QueueOk(s', k0) { assert QueueOk(s, k0); }
    forall c0 ensures ConnOk(s', c0) {
      assert ConnOk(s, c0);
      if c0 == c {
        HandleAdded(s, s', c, h);
      } else {
        assert HandlesOf(s', c0) == HandlesOf(s, c0);
      }
    }
  }

  /** A new connection joins a queue that loses its first `n` entries. */
  lemma InsertKeepsCounts(s: State, k: Key, n: nat, c: Conn, h: HandleId, now: Instant, s': State)
    requires Counts(s) && h !in s.live && c !in s.home && n <= |QueueOf(s.desk.pool, k)|
    requires var q := QueueOf(s.desk.pool, k);
             && s'.desk.pool == s.desk.pool[k := Tail(q, n) + [Idle(c, now)]]
             && s'.strong == Unpooled(s.strong, ConnsOf(q[..n]))[c := 2]
    requires s'.live == s.live[h := c] && s'.home == s.home[c := k] && s'.limit == s.limit
    ensures Counts(s')
  {
    var q := QueueOf(s.desk.pool, k);
    assert QueueOk(s, k);
    ShiftConns(q, n, Idle(c, now));
    forall k0 ensures QueueOk(s', k0) { assert QueueOk(s, k0); }
    forall c0 ensures ConnOk(s', c0) {
      assert ConnOk(s, c0);
      assert HandlesOf(s', c0) == if c0 == c then {h} else HandlesOf(s, c0);
    }
  }

  lemma PutKeepsCounts(s: State, t: TaskId, c: Conn, h: HandleId, now: Instant)
    requires Counts(s) && h !in s.live && c !in s.home && t in s.desk.core.tasks
    ensures Counts(PutNew(s, t, c, h, now))
  {
    var k := s.desk.core.tasks[t].key;
    var n := EvictedByPut(|QueueOf(s.desk.pool, k)|, s.maxIdle);
    InsertKeepsCounts(s, k, n, c, h, now, PutNew(s, t, c, h, now));
  }

  lemma DropKeepsCounts(s: State, h: HandleId)
    requires Counts(s) && h in s.live
    ensures Counts(DropOne(s, h))
  {
    var s', c := DropOne(s, h), s.live[h];
    assert ConnOk(s, c) && h in HandlesOf(s, c);
    forall k ensures QueueOk(s', k) { assert QueueOk(s, k); }
    forall c0 ensures ConnOk(s', c0) {
      assert ConnOk(s, c0);
      assert HandlesOf(s', c0) == HandlesOf(s, c0) - {h};
    }
  }

  /** Only the pool and the handles are counted. */
  lemma SameCounts(s: State, s': State)
    requires Counts(s)
    requires s'.desk.pool == s.desk.pool && s'.strong == s.strong && s'.live == s.live && s'.home == s.home && s'.limit == s.limit
    ensures Counts(s')
  {
    forall k ensures QueueOk(s', k) { assert QueueOk(s, k); }
    forall c ensures ConnOk(s', c) {
      assert ConnOk(s, c);
      assert HandlesOf(s', c) == HandlesOf(s, c);
    }
  }

  lemma ServedKeepsCounts(s: State, t: TaskId, h: HandleId, now: Instant)
    requires Counts(s) && h !in s.live && t in s.desk.core.tasks && HasRoom(s, s.desk.core.tasks[t].key)
    ensures Counts(Served(s, t, h, now))
  {
    var k := s.desk.core.tasks[t].key;
    HandKeepsCounts(s, k, Fit(s, k), h, now);
    SameCounts(Hand(s, k, Fit(s, k), h, now), Served(s, t, h, now));
  }

  lemma CountsStep(s: State, e: Event)
    requires Counts(s) && Enabled(s, e)
    ensures Counts(Apply(s, e))
  {
    match e
    case Begin(t, h, now) =>
      var s1 := Retain(s, s.desk.core.tasks[t].key);
      RetainKeepsCounts(s, s.desk.core.tasks[t].key);
      if HasRoom(s1, s.desk.core.tasks[t].key) { ServedKeepsCounts(s1, t, h, now); } else { SameCounts(s1, Apply(s, e)); }
    case Recheck(t, h, now) =>
      var s1 := Retain(s, s.desk.core.tasks[t].key);
      RetainKeepsCounts(s, s.desk.core.tasks[t].key);
      if HasRoom(s1, s.desk.core.tasks[t].key) { ServedKeepsCounts(s1, t, h, now); } else { SameCounts(s1, Apply(s, e)); }
    case Shaken(t, c, h, now) =>
      PutKeepsCounts(s, t, c, h, now);
    case DropHandle(h) => DropKeepsCounts(s, h);
    case _ => SameCounts(s, Apply(s, e));
  }

  lemma SettingsStay(s: State, e: Event)
    requires Enabled(s, e)
    ensures Apply(s, e).limit == s.limit && Apply(s, e).maxIdle == s.maxIdle
  {
  }

  lemma {:induction false} EveryRunCounts(s: State, es: seq<Event>)
    requires Counts(s) && Legal(s, es)
    ensures Counts(Exec(s, es)) && Exec(s, es).limit == s.limit
    decreases |es|
  {
    if es != [] {
      CountsStep(s, es[0]);
      SettingsStay(s, es[0]);
      EveryRunCounts(Apply(s, es[0]), es[1..]);
    }
  }

  /** In every run a connection's reference count is its callers' handles plus
      one while it is pooled, and with a limit its handles never exceed the
      limit less one, or one. */
  lemma StrongCountAndSenderCap(limit: Option<nat>, maxIdle: nat, es: seq<Event>, c: Conn)
    requires Legal(Init(limit, maxIdle), es) && c in Exec(Init(limit, maxIdle), es).home
    ensures var s := Exec(Init(limit, maxIdle), es);
            && c in s.strong
            && s.strong[c] == |HandlesOf(s, c)| + (if Pooled(s, c) then 1 else 0)
            && (limit.Some? ==> |HandlesOf(s, c)| <= SenderCap(limit.value))
  {
    var s0 := Init(limit, maxIdle);
    forall c0 ensures ConnOk(s0, c0) { assert HandlesOf(s0, c0) == {}; }
    EveryRunCounts(s0, es);
    assert ConnOk(Exec(s0, es), c);
  }

  // ---- Mutual exclusion and progress ----

  /** Steps taken by a task, as opposed to its creation, a dropped handle or the
      death of a connection. */
  predicate TaskStep(e: Event) {
    !e.Spawn? && !e.DropHandle? && !e.Die?
  }

  function PhaseAfter(s: State, e: Event): Phase
    requires Enabled(s, e) && TaskStep(e)
  {
    var k := s.desk.core.tasks[e.t].key;
    match e
    case Begin(_, _, _) => ServedPhase(Retain(s, k), k, Waiting)
    case Acquire(_) => Locked
    case Recheck(_, _, _) => ServedPhase(Retain(s, k), k, LockedDial)
    case DialOk(_) => Shaking
    case Shaken(_, c, _, _) => Done(H2(c))
    case Failed(_) => Over
    case Cancel(_) => Over
  }

  function ServedPhase(s: State, k: Key, otherwise: Phase): Phase {
    if HasRoom(s, k) then Done(H2(s.desk.pool[k][Fit(s, k)].conn)) else otherwise
  }

  /** Every step of a task is one move of that task to a lower phase; a lock is
      entered only with its permit free and a creation only from `Recheck`. */
  lemma StepIsMove(s: State, e: Event)
    requires Enabled(s, e) && TaskStep(e)
    ensures e.t in s.desk.core.tasks && Apply(s, e).desk.core == Goto(s.desk.core, e.t, PhaseAfter(s, e))
    ensures var p, before := PhaseAfter(s, e), s.desk.core.tasks[e.t].phase;
            && Rank(p) < Rank(before) && !p.Dialing?
            && (Holding(p) && !Holding(before) ==> Permits(s.desk.core, s.desk.core.tasks[e.t].key) > 0)
            && (p.Waiting? ==> !Holding(before))
            && (Flying(p) && !Flying(before) ==> e.Recheck?)
  {
  }

  lemma ExclusionStep(s: State, e: Event)
    requires Exclusion(s.desk.core) && Enabled(s, e)
    ensures Exclusion(Apply(s, e).desk.core)
    ensures forall k :: k in s.desk.core.locks ==> k in Apply(s, e).desk.core.locks
  {
    if TaskStep(e) {
      StepIsMove(s, e);
      GotoKeepsExclusion(s.desk.core, e.t, PhaseAfter(s, e));
    } else if e.Spawn? {
      SpawnKeepsExclusion(s.desk.core, e.t, e.key);
    }
  }

  lemma {:induction false} EveryRunExclusion(s: State, es: seq<Event>)
    requires Exclusion(s.desk.core) && Legal(s, es)
    ensures Exclusion(Exec(s, es).desk.core)
    decreases |es|
  {
    if es != [] {
      ExclusionStep(s, es[0]);
      EveryRunExclusion(Apply(s, es[0]), es[1..]);
    }
  }

  lemma InitExclusion()
    ensures Exclusion(NO_TASKS)
  {
    forall k ensures OneHolder(NO_TASKS, k) { assert Holders(NO_TASKS, k) == {}; }
  }

  /** In every run, per key, free permits and holders make one. */
  lemma MutualExclusion(limit: Option<nat>, maxIdle: nat, es: seq<Event>, k: Key)
    requires Legal(Init(limit, maxIdle), es)
    ensures var c := Exec(Init(limit, maxIdle), es).desk.core;
            Permits(c, k) + |Holders(c, k)| == 1 && |Holders(c, k)| <= 1
  {
    InitExclusion();
    EveryRunExclusion(Init(limit, maxIdle), es);
    assert OneHolder(Exec(Init(limit, maxIdle), es).desk.core, k);
  }

  lemma StepReducesWork(s: State, e: Event)
    requires Enabled(s, e)
    ensures TaskStep(e) ==> |Work(Apply(s, e).desk.core)| < |Work(s.desk.core)|
    ensures e.Spawn? ==> |Work(Apply(s, e).desk.core)| <= |Work(s.desk.core)| + Rank(Start)
    ensures e.DropHandle? || e.Die? ==> Apply(s, e).desk.core == s.desk.core
  {
    if TaskStep(e) {
      StepIsMove(s, e);
      GotoReducesWork(s.desk.core, e.t, PhaseAfter(s, e));
    } else if e.Spawn? {
      SpawnAddsWork(s.desk.core, e.t, e.key);
    }
  }

  /** In every run the tasks take at most six steps per task, whatever fails. */
  lemma {:induction false} StepsBounded(s: State, es: seq<Event>)
    requires Legal(s, es)
    ensures Count(es, TaskStep) + |Work(Exec(s, es).desk.core)|
         <= |Work(s.desk.core)| + Rank(Start) * Count(es, (e: Event) => e.Spawn?)
    decreases |es|
  {
    if es != [] {
      StepReducesWork(s, es[0]);
      StepsBounded(Apply(s, es[0]), es[1..]);
    }
  }

  /** This connector dials only under the lock. */
  lemma {:induction false} NoFreeDial(s: State, es: seq<Event>)
    requires Legal(s, es) && forall t :: t in s.desk.core.tasks ==> !s.desk.core.tasks[t].phase.Dialing?
    ensures forall t :: t in Exec(s, es).desk.core.tasks ==> !Exec(s, es).desk.core.tasks[t].phase.Dialing?
    decreases |es|
  {
    if es != [] {
      if TaskStep(es[0]) { StepIsMove(s, es[0]); }
      NoFreeDial(Apply(s, es[0]), es[1..]);
    }
  }

  /** With an environment that answers, no reachable state is stuck. */
  lemma NeverStuck(limit: Option<nat>, maxIdle: nat, es: seq<Event>, t: TaskId)
    requires Legal(Init(limit, maxIdle), es)
    requires var c := Exec(Init(limit, maxIdle), es).desk.core; t in c.tasks && !Finished(c.tasks[t].phase)
    ensures exists e :: Enabled(Exec(Init(limit, maxIdle), es), e) && TaskStep(e) && !e.Failed? && !e.Cancel?
  {
    InitExclusion();
    EveryRunExclusion(Init(limit, maxIdle), es);
    NoFreeDial(Init(limit, maxIdle), es);
    var s := Exec(Init(limit, maxIdle), es);
    NoDeadlock(s.desk.core, t);
    var u :| CanMove(s.desk.core, u);
    var h := UpperBound(s.live.Keys);
    var c := UpperBound(s.home.Keys);
    var p := s.desk.core.tasks[u].phase;
    var e := if p.Start? then Begin(u, h, 0)
             else if p.Waiting? then Acquire(u)
             else if p.Locked? then Recheck(u, h, 0)
             else if p.LockedDial? then DialOk(u)
             else Shaken(u, c, h, 0);
    assert Enabled(s, e);
  }

  // ---- Whom `try_get` serves ----

  /** A connection that could take one more sender. */
  ghost predicate Usable(s: State, k: Key, c: Conn) {
    && c in ConnsOf(QueueOf(s.desk.pool, k)) && c !in s.desk.dead
    && (s.limit.Some? ==> |HandlesOf(s, c)| + 1 < s.limit.value)
  }

  /** After `retain`, what is left is ready, and full exactly if not usable. */
  lemma FullIffNotUsable(s: State, k: Key, c: Conn)
    requires Counts(s)
    ensures var s1 := Retain(s, k);
            && ConnsOf(QueueOf(s1.desk.pool, k)) == ConnsOf(QueueOf(s.desk.pool, k)) - s.desk.dead
            && (c in ConnsOf(QueueOf(s1.desk.pool, k)) ==>
                  (StreamFull(s1.strong, s1.limit, c) <==> !Usable(s, k, c)))
  {
    var s1 := Retain(s, k);
    RetainKeepsCounts(s, k);
    LivingConns(QueueOf(s.desk.pool, k), s.desk.dead);
    assert QueueOk(s1, k) && ConnOk(s1, c);
    assert HandlesOf(s1, c) == HandlesOf(s, c);
  }

  /** The first check and the recheck serve a task exactly if some pooled
      connection is ready and below the limit, and then with such a one. So a new
      connection is begun only when every ready one is full. */
  lemma ServedIffUsable(s: State, k: Key, otherwise: Phase)
    requires Counts(s) && !otherwise.Done?
    ensures var p := ServedPhase(Retain(s, k), k, otherwise);
            && (p.Done? <==> exists c :: Usable(s, k, c))
            && (p.Done? ==> p.got.H2? && Usable(s, k, p.got.conn))
  {
    var s1 := Retain(s, k);
    var q, i := QueueOf(s1.desk.pool, k), Fit(s1, k);
    if i < |q| {
      assert q[i].conn in ConnsOf(q);
      FullIffNotUsable(s, k, q[i].conn);
      assert Usable(s, k, q[i].conn);
    } else {
      forall c ensures !Usable(s, k, c) {
        FullIffNotUsable(s, k, c);
        assert c in ConnsOf(q) ==> StreamFull(s1.strong, s1.limit, c);
      }
    }
  }

  // ---- What each step does, observed from outside ----

  /** `c` is the first connection of `k` that can take one more sender. */
  ghost predicate FirstUsable(s: State, k: Key, c: Conn) {
    var q := QueueOf(s.desk.pool, k);
    && Usable(s, k, c)
    && exists i :: 0 <= i < |q| && q[i].conn == c && forall j :: 0 <= j < i ==> !Usable(s, k, q[j].conn)
  }

  /** The living entries come in the order of the queue. */
  lemma {:induction false} LivingInOrder(q: Queue, dead: set<Conn>, i: nat) returns (x: nat)
    requires i < |Living(q, dead)|
    ensures x < |q| && q[x] == Living(q, dead)[i] && q[x].conn !in dead
    ensures forall y :: 0 <= y < x && q[y].conn !in dead ==> exists j :: 0 <= j < i && Living(q, dead)[j] == q[y]
    decreases |q|
  {
    var rest := Living(q[1..], dead);
    var n := if q[0].conn in dead then 0 else 1;
    if i < n {
      x := 0;
    } else {
      var x' := LivingInOrder(q[1..], dead, i - n);
      x := x' + 1;
      forall y | 0 <= y < x && q[y].conn !in dead ensures exists j :: 0 <= j < i && Living(q, dead)[j] == q[y] {
        if y == 0 {
          assert Living(q, dead)[0] == q[0];
        } else {
          assert q[1..][y - 1] == q[y];
          var j :| 0 <= j < i - n && rest[j] == q[y];
          assert Living(q, dead)[j + n] == q[y];
        }
      }
    }
  }

  lemma FitIsFirstUsable(s: State, k: Key)
    requires Counts(s) && HasRoom(Retain(s, k), k)
    ensures FirstUsable(s, k, QueueOf(Retain(s, k).desk.pool, k)[Fit(Retain(s, k), k)].conn)
  {
    var s1, q := Retain(s, k), QueueOf(s.desk.pool, k);
    var q1, i := QueueOf(s1.desk.pool, k), Fit(s1, k);
    var c := q1[i].conn;
    assert q1 == Living(q, s.desk.dead);
    var x := LivingInOrder(q, s.desk.dead, i);
    assert c in ConnsOf(q1);
    FullIffNotUsable(s, k, c);
    forall y | 0 <= y < x ensures !Usable(s, k, q[y].conn) {
      FullIffNotUsable(s, k, q[y].conn);
      if q[y].conn !in s.desk.dead {
        var j :| 0 <= j < i && q1[j] == q[y];
        assert StreamFull(s1.strong, s1.limit, q1[j].conn) && q1[j].conn in ConnsOf(q1);
      }
    }
  }

  /** The caller has a handle on `c`, whose entry is stamped with the present; the
      other entries that are ready stay as they were, and the rest go. */
  ghost predicate HandedOut(s: State, s': State, k: Key, c: Conn, h: HandleId, now: Instant) {
    && s'.live == s.live[h := c] && StrongOf(s'.strong, c) == StrongOf(s.strong, c) + 1
    && ConnsOf(QueueOf(s'.desk.pool, k)) == ConnsOf(QueueOf(s.desk.pool, k)) - s.desk.dead
    && (forall e :: e in QueueOf(s'.desk.pool, k) ==>
          if e.conn == c then e.idleAt == now else e in QueueOf(s.desk.pool, k))
  }

  lemma {:induction false} LivingEntries(q: Queue, dead: set<Conn>)
    ensures forall e :: e in Living(q, dead) <==> e in q && e.conn !in dead
  {
    if q != [] {
      LivingEntries(q[1..], dead);
      assert q == [q[0]] + q[1..];
    }
  }

  lemma ServedMeans(s: State, t: TaskId, h: HandleId, now: Instant)
    requires Counts(s) && t in s.desk.core.tasks && HasRoom(Retain(s, s.desk.core.tasks[t].key), s.desk.core.tasks[t].key)
    ensures var k := s.desk.core.tasks[t].key;
            var s1 := Retain(s, k);
            HandedOut(s, Served(s1, t, h, now), k, s1.desk.pool[k][Fit(s1, k)].conn, h, now)
  {
    var k := s.desk.core.tasks[t].key;
    var s1, q := Retain(s, k), QueueOf(s.desk.pool, k);
    var q1, i := QueueOf(s1.desk.pool, k), Fit(s1, k);
    var c := q1[i].conn;
    LivingEntries(q, s.desk.dead);
    LivingConns(q, s.desk.dead);
    assert q1 == Living(q, s.desk.dead) && q1[i] in q1;
    assert QueueOk(s, k) && DistinctConns(q1);
    RestampConns(q1, i, now);
    var q' := QueueOf(Served(s1, t, h, now).desk.pool, k);
    assert q' == q1[i := Idle(c, now)];
    forall e | e in q' ensures if e.conn == c then e.idleAt == now else e in q {
      var j :| 0 <= j < |q'| && q'[j] == e;
      if j != i { assert q1[j] == e && e in q1; }
    }
    assert StrongOf(s1.strong, c) == StrongOf(s.strong, c);
  }

  /** Both checks: the task is served if and only if some pooled connection is
      ready and below the limit, and then with the first such; otherwise the first
      check sends it to its key's lock and the second, under the lock, to dial. */
  lemma CheckMeans(s: State, e: Event)
    requires Counts(s) && Enabled(s, e) && (e.Begin? || e.Recheck?)
    ensures var k, s' := s.desk.core.tasks[e.t].key, Apply(s, e);
            var p := PhaseOf(s'.desk, e.t);
            && OnlyTask(s.desk, s'.desk, e.t)
            && (p.Done? <==> exists c :: Usable(s, k, c))
            && (p.Done? ==> p.got.H2? && FirstUsable(s, k, p.got.conn) && HandedOut(s, s', k, p.got.conn, e.h, e.now))
            && (!p.Done? ==> p == (if e.Begin? then Waiting else LockedDial) && s'.live == s.live
                             && ConnsOf(QueueOf(s'.desk.pool, k)) == ConnsOf(QueueOf(s.desk.pool, k)) - s.desk.dead)
  {
    var k := s.desk.core.tasks[e.t].key;
    ServedIffUsable(s, k, if e.Begin? then Waiting else LockedDial);
    CheckLeavesAlone(s, e);
    if HasRoom(Retain(s, k), k) {
      FitIsFirstUsable(s, k);
      ServedMeans(s, e.t, e.h, e.now);
    } else {
      LivingConns(QueueOf(s.desk.pool, k), s.desk.dead);
    }
  }

  lemma CheckLeavesAlone(s: State, e: Event)
    requires Enabled(s, e) && (e.Begin? || e.Recheck?)
    ensures OnlyTask(s.desk, Apply(s, e).desk, e.t) && PhaseOf(Apply(s, e).desk, e.t) == PhaseAfter(s, e)
  {
    StepIsMove(s, e);
    CheckQueues(s, e);
    GotoIsOnlyTask(s.desk, e.t, PhaseAfter(s, e), Apply(s, e).desk);
  }

  lemma CheckQueues(s: State, e: Event)
    requires Enabled(s, e) && (e.Begin? || e.Recheck?)
    ensures Apply(s, e).desk.dead == s.desk.dead
    ensures forall j :: j != s.desk.core.tasks[e.t].key ==> QueueOf(Apply(s, e).desk.pool, j) == QueueOf(s.desk.pool, j)
  {
    var k := s.desk.core.tasks[e.t].key;
    var s1 := Retain(s, k);
    assert s1.desk.dead == s.desk.dead && forall j :: j != k ==> QueueOf(s1.desk.pool, j) == QueueOf(s.desk.pool, j);
  }

  /** The remaining steps of a task: the permit is taken, the dial leads to the
      handshake, and a failure or a dropped future gives back a permit it held. */
  lemma PlainStepMeans(s: State, e: Event)
    requires Enabled(s, e) && (e.Acquire? || e.DialOk? || e.Failed? || e.Cancel?)
    ensures var k, s' := s.desk.core.tasks[e.t].key, Apply(s, e);
            var p, was := PhaseOf(s'.desk, e.t), Holding(s.desk.core.tasks[e.t].phase);
            && OnlyTask(s.desk, s'.desk, e.t) && s'.desk.pool == s.desk.pool
            && s'.live == s.live && s'.strong == s.strong && s'.home == s.home
            && (match e
                case Acquire(_) => p == Locked && Permits(s'.desk.core, k) == Permits(s.desk.core, k) - 1
                case DialOk(_) => p == Shaking && Permits(s'.desk.core, k) == Permits(s.desk.core, k)
                case _ => p == Over && Permits(s'.desk.core, k) == Permits(s.desk.core, k) + (if was then 1 else 0))
  {
    MoveIsOnlyTask(s.desk, e.t, PhaseAfter(s, e));
  }

  /** A completed handshake puts its connection at the back of its key's queue,
      evicting the oldest only above the pool's limit, gives the caller the one
      handle on it and gives back the lock. */
  lemma ShakenMeans(s: State, t: TaskId, c: Conn, h: HandleId, now: Instant)
    requires Enabled(s, Shaken(t, c, h, now))
    ensures var k, s' := s.desk.core.tasks[t].key, Apply(s, Shaken(t, c, h, now));
            var q := QueueOf(s.desk.pool, k);
            && OnlyTask(s.desk, s'.desk, t) && PhaseOf(s'.desk, t) == Done(H2(c))
            && Permits(s'.desk.core, k) == Permits(s.desk.core, k) + 1
            && Newest(q, Idle(c, now), if |q| <= s.maxIdle then |q| + 1 else if s.maxIdle == 0 then 1 else s.maxIdle,
                      QueueOf(s'.desk.pool, k))
            && s'.live == s.live[h := c] && s'.home == s.home[c := k]
  {
  }

  /** A dropped handle is one fewer on its connection and changes nothing else. */
  lemma DropHandleMeans(s: State, h: HandleId)
    requires Enabled(s, DropHandle(h))
    ensures var s' := Apply(s, DropHandle(h));
            && s'.live == s.live - {h} && s'.desk == s.desk && s'.home == s.home
            && (forall c :: StrongOf(s'.strong, c) == StrongOf(s.strong, c) - if c == s.live[h] then 1 else 0)
  {
  }

  /** The environment is free: a suspended future may be dropped at any await,
      every dial and handshake may fail or succeed, any connection may die at any
      time and a caller may drop any handle. */
  lemma AnythingMayHappen(s: State, t: TaskId, c: Conn, h: HandleId, now: Instant)
    requires t in s.desk.core.tasks && c !in s.home && h !in s.live
    ensures var p := s.desk.core.tasks[t].phase;
            && (p.Waiting? || p.Locked? || p.LockedDial? || p.Shaking? ==> Enabled(s, Cancel(t)))
            && (p.LockedDial? ==> Enabled(s, Failed(t)) && Enabled(s, DialOk(t)))
            && (p.Shaking? ==> Enabled(s, Failed(t)) && Enabled(s, Shaken(t, c, h, now)))
    ensures forall x :: x in s.live ==> Enabled(s, DropHandle(x))
    ensures forall x :: Enabled(s, Die(x)) && Apply(s, Die(x)) == s.(desk := s.desk.(dead := s.desk.dead + {x}))
  {
  }

  // ---- How many connections a number of handles can keep pooled ----

  /** The handles callers hold on connections of `k`, pooled or not. */
  ghost function Outstanding(s: State, k: Key): set<HandleId> {
    set h | h in s.live && s.live[h] in s.home && s.home[s.live[h]] == k
  }

  ghost function HandlesIn(s: State, q: Queue): set<HandleId> {
    set h | h in s.live && s.live[h] in ConnsOf(q)
  }

  lemma HandlesInCons(s: State, e: Idle, q: Queue)
    requires e.conn !in ConnsOf(q)
    ensures |HandlesIn(s, [e] + q)| == |HandlesOf(s, e.conn)| + |HandlesIn(s, q)|
  {
    ConsConns(e, q);
    assert HandlesIn(s, [e] + q) == HandlesOf(s, e.conn) + HandlesIn(s, q);
    assert HandlesOf(s, e.conn) !! HandlesIn(s, q);
  }

  lemma OneMoreTimes(n: nat, d: nat)
    ensures (n + 1) * d == d + n * d
  {
  }

  /** A queue of full connections accounts for `d` handles per connection. */
  lemma {:induction false} FullQueueHandles(s: State, q: Queue, d: nat)
    requires DistinctConns(q)
    requires forall i :: 0 <= i < |q| ==> |HandlesOf(s, q[i].conn)| >= d
    ensures |q| * d <= |HandlesIn(s, q)|
  {
    if q != [] {
      assert q == [q[0]] + q[1..];
      ConsConns(q[0], q[1..]);
      HandlesInCons(s, q[0], q[1..]);
      FullQueueHandles(s, q[1..], d);
      OneMoreTimes(|q| - 1, d);
    }
  }

  lemma MissMeansManyHandles(s: State, k: Key, m: nat)
    requires Counts(s) && s.limit == Some(m) && m >= 2 && !HasRoom(s, k)
    ensures |QueueOf(s.desk.pool, k)| * (m - 1) <= |Outstanding(s, k)|
  {
    var q := QueueOf(s.desk.pool, k);
    assert QueueOk(s, k);
    forall i | 0 <= i < |q| ensures |HandlesOf(s, q[i].conn)| >= m - 1 {
      assert StreamFull(s.strong, s.limit, q[i].conn);
      assert ConnOk(s, q[i].conn) && q[i].conn in ConnsOf(q);
    }
    FullQueueHandles(s, q, m - 1);
    SubsetSize(HandlesIn(s, q), Outstanding(s, k));
  }

  lemma TimesMonotone(a: nat, b: nat, d: nat)
    requires a <= b
    ensures a * d <= b * d
  {
    assert b * d == a * d + (b - a) * d;
  }

  lemma DivideBound(l: nat, d: nat, n: nat)
    requires d > 0 && l * d <= n
    ensures l <= n / d
  {
    var q := n / d;
    assert n < (q + 1) * d by {
      assert n == q * d + n % d;
      OneMoreTimes(q, d);
    }
    if q < l { TimesMonotone(q + 1, l, d); }
  }

  ghost predicate Bounded(s: State, k: Key, n: nat) {
    && |QueueOf(s.desk.pool, k)| <= n + 1
    && |QueueOf(s.desk.pool, k)| <= s.maxIdle + 1
    && (Flyers(s.desk.core, k) != {} ==> |QueueOf(s.desk.pool, k)| <= n)
  }

  lemma TryGetLength(s: State, t: TaskId, h: HandleId, now: Instant, k: Key)
    requires t in s.desk.core.tasks
    ensures |QueueOf(Retain(s, s.desk.core.tasks[t].key).desk.pool, k)| <= |QueueOf(s.desk.pool, k)|
    ensures |QueueOf(BeginTask(s, t, h, now).desk.pool, k)| <= |QueueOf(s.desk.pool, k)|
    ensures |QueueOf(RecheckTask(s, t, h, now).desk.pool, k)| <= |QueueOf(s.desk.pool, k)|
  {
    LivingConns(QueueOf(s.desk.pool, k), s.desk.dead);
  }

  /** Only the completion of a handshake lengthens a queue. */
  lemma QueueLength(s: State, e: Event, k: Key)
    requires Enabled(s, e)
    ensures |QueueOf(Apply(s, e).desk.pool, k)| <=
            |QueueOf(s.desk.pool, k)| + if e.Shaken? && s.desk.core.tasks[e.t].key == k then 1 else 0
    ensures |QueueOf(s.desk.pool, k)| <= s.maxIdle + 1 ==> |QueueOf(Apply(s, e).desk.pool, k)| <= s.maxIdle + 1
  {
    if e.Begin? || e.Recheck? {
      TryGetLength(s, e.t, e.h, e.now, k);
    }
  }

  lemma BoundedStep(s: State, e: Event, k: Key, m: nat, n: nat)
    requires Enabled(s, e) && Counts(s) && Exclusion(s.desk.core)
    requires s.limit == Some(m) && m >= 2 && |Outstanding(s, k)| <= n
    requires Bounded(s, k, n / (m - 1))
    ensures Bounded(Apply(s, e), k, n / (m - 1))
  {
    var s' := Apply(s, e);
    SettingsStay(s, e);
    QueueLength(s, e, k);
    if TaskStep(e) {
      StepIsMove(s, e);
      HoldersAfter(s.desk.core, e.t, PhaseAfter(s, e), k);
      if s.desk.core.tasks[e.t].key == k {
        if e.Shaken? {
          FlyersHold(s.desk.core, e.t);
        } else if e.Recheck? {
          RecheckBounded(s, e.t, e.h, e.now, m, n);
        }
      }
    } else {
      assert Flyers(s'.desk.core, k) == Flyers(s.desk.core, k);
    }
  }

  lemma RecheckBounded(s: State, t: TaskId, h: HandleId, now: Instant, m: nat, n: nat)
    requires Counts(s) && Exclusion(s.desk.core) && At(s.desk.core, t, Locked)
    requires s.limit == Some(m) && m >= 2 && |Outstanding(s, s.desk.core.tasks[t].key)| <= n
    ensures var k, s' := s.desk.core.tasks[t].key, RecheckTask(s, t, h, now);
            Flyers(s'.desk.core, k) != {} ==> |QueueOf(s'.desk.pool, k)| <= n / (m - 1)
  {
    var k := s.desk.core.tasks[t].key;
    var s1 := Retain(s, k);
    RetainKeepsCounts(s, k);
    if HasRoom(s1, k) {
      forall u | u in Flyers(Served(s1, t, h, now).desk.core, k) ensures false {
        AtMostOneHolder(s.desk.core, t, u);
      }
    } else {
      MissMeansManyHandles(s1, k, m);
      assert Outstanding(s1, k) == Outstanding(s, k);
      DivideBound(|QueueOf(s1.desk.pool, k)|, m - 1, n);
    }
  }

  /** At most `n` handles of `k` are outstanding in every state of the run. */
  ghost predicate AlwaysAtMost(s: State, es: seq<Event>, k: Key, n: nat)
    requires Legal(s, es)
    decreases |es|
  {
    |Outstanding(s, k)| <= n && (es != [] ==> AlwaysAtMost(Apply(s, es[0]), es[1..], k, n))
  }

  lemma {:induction false} EveryRunBounded(s: State, es: seq<Event>, k: Key, m: nat, n: nat)
    requires Legal(s, es) && AlwaysAtMost(s, es, k, n)
    requires Counts(s) && Exclusion(s.desk.core) && s.limit == Some(m) && m >= 2
    requires Bounded(s, k, n / (m - 1))
    ensures Bounded(Exec(s, es), k, n / (m - 1)) && Exec(s, es).maxIdle == s.maxIdle
    decreases |es|
  {
    if es != [] {
      CountsStep(s, es[0]);
      ExclusionStep(s, es[0]);
      SettingsStay(s, es[0]);
      BoundedStep(s, es[0], k, m, n);
      EveryRunBounded(Apply(s, es[0]), es[1..], k, m, n);
    }
  }

  lemma ShakenLeavesHandle(s: State, e: Event)
    requires Enabled(s, e) && e.Shaken?
    ensures e.h in Outstanding(Apply(s, e), s.desk.core.tasks[e.t].key)
  {
  }

  /** A key none of whose connections ever had a handle has none pooled. */
  lemma {:induction false} NoHandlesNonePooled(s: State, es: seq<Event>, k: Key)
    requires Legal(s, es) && AlwaysAtMost(s, es, k, 0) && QueueOf(s.desk.pool, k) == []
    ensures QueueOf(Exec(s, es).desk.pool, k) == []
    decreases |es|
  {
    if es != [] {
      QueueLength(s, es[0], k);
      if es[0].Shaken? { ShakenLeavesHandle(s, es[0]); }
      NoHandlesNonePooled(Apply(s, es[0]), es[1..], k);
    }
  }

  function Min(a: nat, b: nat): nat { if a < b then a else b }

  /** With a limit of `m >= 2` and never more than `n` handles of a key
      outstanding, the key never has more than `n / (m - 1) + 1` connections
      pooled, nor more than the pool's own limit and one: a new one is begun only
      when all pooled ones are full. */
  lemma PooledConnectionsBound(m: nat, maxIdle: nat, es: seq<Event>, k: Key, n: nat)
    requires m >= 2 && Legal(Init(Some(m), maxIdle), es)
    requires AlwaysAtMost(Init(Some(m), maxIdle), es, k, n)
    ensures |QueueOf(Exec(Init(Some(m), maxIdle), es).desk.pool, k)| <= if n == 0 then 0 else Min(n / (m - 1), maxIdle) + 1
  {
    var s0 := Init(Some(m), maxIdle);
    if n == 0 { NoHandlesNonePooled(s0, es, k); }
    forall c ensures ConnOk(s0, c) { assert HandlesOf(s0, c) == {}; }
    InitExclusion();
    assert Flyers(s0.desk.core, k) == {};
    EveryRunBounded(s0, es, k, m, n);
  }

  // ---- Without a limit: one connection, one dial ----

  lemma RetainKeepsDesk(s: State, k: Key)
    requires DeskOk(s.desk)
    ensures DeskOk(Retain(s, k).desk) && Retain(s, k).desk == Purge(s.desk, k)
    ensures var s1 := Retain(s, k);
            QueueOf(s1.desk.pool, k) != [] ==> QueueOf(s1.desk.pool, k)[0].conn in LedgerOf(s1.desk.books, k).put
  {
    PurgeKeepsDesk(s.desk, k);
  }

  /** Stamping an entry anew changes nothing that the books record. */
  lemma HandKeepsDesk(s: State, k: Key, h: HandleId, now: Instant)
    requires DeskOk(s.desk) && QueueOf(s.desk.pool, k) != []
    ensures DeskOk(Hand(s, k, 0, h, now).desk)
  {
    var d, d' := s.desk, Hand(s, k, 0, h, now).desk;
    forall k0 ensures KeyOk(d', k0) {
      assert KeyOk(d, k0);
      assert ConnSeq(QueueOf(d'.pool, k0)) == ConnSeq(QueueOf(d.pool, k0));
    }
    forall t ensures HandleOk(d', t) { assert HandleOk(d, t); }
  }

  lemma ServedKeepsDesk(s: State, t: TaskId, h: HandleId, now: Instant)
    requires DeskOk(s.desk) && s.limit == None && t in s.desk.core.tasks
    requires HasRoom(s, s.desk.core.tasks[t].key) && !Flying(s.desk.core.tasks[t].phase)
    requires QueueOf(s.desk.pool, s.desk.core.tasks[t].key)[0].conn in LedgerOf(s.desk.books, s.desk.core.tasks[t].key).put
    ensures DeskOk(Served(s, t, h, now).desk)
  {
    var k := s.desk.core.tasks[t].key;
    HandKeepsDesk(s, k, h, now);
    MoveKeepsDesk(Hand(s, k, 0, h, now).desk, t, Done(H2(s.desk.pool[k][0].conn)));
  }

  lemma DeskStep(s: State, e: Event)
    requires DeskOk(s.desk) && s.limit == None && Enabled(s, e)
    ensures DeskOk(Apply(s, e).desk)
  {
    match e
    case Spawn(t, k) => SpawnKeepsDesk(s.desk, t, k);
    case Begin(t, h, now) =>
      var s1 := Retain(s, s.desk.core.tasks[t].key);
      RetainKeepsDesk(s, s.desk.core.tasks[t].key);
      if HasRoom(s1, s.desk.core.tasks[t].key) { ServedKeepsDesk(s1, t, h, now); } else { MoveKeepsDesk(s1.desk, t, Waiting); }
    case Acquire(t) => MoveKeepsDesk(s.desk, t, Locked);
    case Recheck(t, h, now) =>
      var s1 := Retain(s, s.desk.core.tasks[t].key);
      RetainKeepsDesk(s, s.desk.core.tasks[t].key);
      if HasRoom(s1, s.desk.core.tasks[t].key) { ServedKeepsDesk(s1, t, h, now); } else { TakeOffKeepsDesk(s1.desk, t, LockedDial); }
    case DialOk(t) => MoveKeepsDesk(s.desk, t, Shaking);
    case Shaken(t, c, h, now) => LandKeepsDesk(s.desk, t, c, now, s.maxIdle);
    case Failed(t) => CrashKeepsDesk(s.desk, t);
    case Cancel(t) =>
      if Flying(s.desk.core.tasks[t].phase) { CrashKeepsDesk(s.desk, t); } else { MoveKeepsDesk(s.desk, t, Over); }
    case DropHandle(h) =>
    case Die(c) => DeathKeepsDesk(s.desk, c);
  }

  lemma {:induction false} EveryUnlimitedRun(s: State, es: seq<Event>)
    requires DeskOk(s.desk) && s.limit == None && Legal(s, es)
    ensures DeskOk(Exec(s, es).desk)
    decreases |es|
  {
    if es != [] {
      DeskStep(s, es[0]);
      SettingsStay(s, es[0]);
      EveryUnlimitedRun(Apply(s, es[0]), es[1..]);
    }
  }

  /** Without a sender limit, in every run and per key: at most one pooled
      connection, dials never exceed one plus the failed attempts plus the
      connections lost, and with neither there is one dial and one connection
      for all callers. */
  lemma SingleFlight(maxIdle: nat, es: seq<Event>, k: Key)
    requires Legal(Init(None, maxIdle), es)
    ensures OneConnectionServes(Exec(Init(None, maxIdle), es).desk, k)
  {
    EmptyDeskOk();
    EveryUnlimitedRun(Init(None, maxIdle), es);
    DeskServes(Exec(Init(None, maxIdle), es).desk, k);
  }

  // ---- All callers of a key for which nothing goes wrong ----

  /** For a task of `k` the event is no failure and no dropped future. */
  predicate Smooth(s: State, e: Event, k: Key)
    requires Enabled(s, e)
  {
    TaskStep(e) && s.desk.core.tasks[e.t].key == k ==> !e.Failed? && !e.Cancel?
  }

  ghost predicate SmoothRun(s: State, es: seq<Event>, k: Key)
    requires Legal(s, es)
    decreases |es|
  {
    es != [] ==> Smooth(s, es[0], k) && SmoothRun(Apply(s, es[0]), es[1..], k)
  }

  lemma FailuresOf(s: State, e: Event, k: Key)
    requires Enabled(s, e) && TaskStep(e) && Smooth(s, e, k)
    ensures LedgerOf(Apply(s, e).desk.books, k).failed == LedgerOf(s.desk.books, k).failed
  {
    PurgeKeepsFailed(s.desk, s.desk.core.tasks[e.t].key, k);
  }

  lemma CalmStep(s: State, e: Event, k: Key)
    requires Calm(s.desk, k) && Enabled(s, e) && Smooth(s, e, k)
    ensures Calm(Apply(s, e).desk, k)
  {
    var s' := Apply(s, e);
    if TaskStep(e) {
      StepIsMove(s, e);
      FailuresOf(s, e, k);
      StepKeepsCalm(s.desk, e.t, PhaseAfter(s, e), s'.desk, k);
    } else {
      forall t | t in s'.desk.core.tasks && s'.desk.core.tasks[t].key == k && Finished(s'.desk.core.tasks[t].phase)
        ensures HasH2(s'.desk, t, k)
      {
        assert HasH2(s.desk, t, k);
      }
    }
  }

  lemma {:induction false} SmoothRunIsCalm(s: State, es: seq<Event>, k: Key)
    requires Calm(s.desk, k) && Legal(s, es) && SmoothRun(s, es, k)
    ensures Calm(Exec(s, es).desk, k)
    decreases |es|
  {
    if es != [] {
      CalmStep(s, es[0], k);
      SmoothRunIsCalm(Apply(s, es[0]), es[1..], k);
    }
  }

  /** Without a limit: if any number of callers of a key all end, none of their
      dials or handshakes fails, none of their futures is dropped and their
      connection stays healthy, then exactly one dial ran for the key and all of
      them got its connection; other keys may fare as they like. */
  lemma AllCallersShare(maxIdle: nat, es: seq<Event>, k: Key)
    requires Legal(Init(None, maxIdle), es) && SmoothRun(Init(None, maxIdle), es, k)
    requires Healthy(Exec(Init(None, maxIdle), es).desk, k) && AllEnded(Exec(Init(None, maxIdle), es).desk, k)
    ensures AllShare(Exec(Init(None, maxIdle), es).desk, k)
  {
    SingleFlight(maxIdle, es, k);
    SmoothRunIsCalm(Init(None, maxIdle), es, k);
    CalmCallersShare(Exec(Init(None, maxIdle), es).desk, k);
  }
}
