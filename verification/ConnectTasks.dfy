/**
 What the two HTTP/2 connectors share: tasks that take a per-key lock around the
 creation of a connection, and the account of those creations.
 */
module ConnectTasks {
  import opened Pool

  type TaskId = nat

  datatype Got = H1(conn: Conn) | H2(conn: Conn)

  /** Where a `connect` future is suspended. `Start` has not been polled yet and
      `Locked` has been granted the lock but not yet been polled again. */
  datatype Phase =
    | Start
    | Dialing
    | Waiting
    | Locked
    | LockedDial
    | Shaking
    | Done(got: Got)
    | Over

  datatype Task = Task(key: Key, phase: Phase)

  /** The lock map, by free permits, and the tasks. */
  datatype Core = Core(locks: map<Key, int>, tasks: map<TaskId, Task>)

  const NO_TASKS := Core(map[], map[])

  predicate Holding(p: Phase) {
    p.Locked? || p.LockedDial? || p.Shaking?
  }

  /** Creating a connection. */
  predicate Flying(p: Phase) {
    p.LockedDial? || p.Shaking?
  }

  predicate Finished(p: Phase) {
    p.Done? || p.Over?
  }

  predicate At(c: Core, t: TaskId, p: Phase) {
    t in c.tasks && c.tasks[t].phase == p
  }

  /** An absent entry stands for the one-permit lock made on first use. */
  function Permits(c: Core, k: Key): int {
    if k in c.locks then c.locks[k] else 1
  }

  ghost function Holders(c: Core, k: Key): set<TaskId> {
    set t | t in c.tasks && c.tasks[t].key == k && Holding(c.tasks[t].phase)
  }

  ghost function Flyers(c: Core, k: Key): set<TaskId> {
    set t | t in c.tasks && c.tasks[t].key == k && Flying(c.tasks[t].phase)
  }

  function Spawned(c: Core, t: TaskId, k: Key): Core {
    c.(tasks := c.tasks[t := Task(k, Start)])
  }

  /** Task `t` moves to phase `p`. Entering a holding phase takes the permit and
      leaving one, for whatever reason, drops the guard and gives it back. */
  function Goto(c: Core, t: TaskId, p: Phase): Core
    requires t in c.tasks
  {
    var k := c.tasks[t].key;
    var was, will := Holding(c.tasks[t].phase), Holding(p);
    var locks :=
      if p.Waiting? then c.locks[k := Permits(c, k)]
      else if was == will then c.locks
      else c.locks[k := Permits(c, k) + (if was then 1 else -1)];
    Core(locks, c.tasks[t := Task(k, p)])
  }

  // ---- Mutual exclusion ----

  ghost predicate OneHolder(c: Core, k: Key) {
    Permits(c, k) + |Holders(c, k)| == 1
  }

  ghost predicate Exclusion(c: Core) {
    && (forall k :: OneHolder(c, k))
    && (forall k :: k in c.locks ==> 0 <= c.locks[k])
    && EntriesMade(c)
  }

  /** Whoever waits for a lock or holds it has its entry in the map. */
  ghost predicate EntriesMade(c: Core) {
    forall t :: t in c.tasks && (c.tasks[t].phase.Waiting? || Holding(c.tasks[t].phase)) ==> c.tasks[t].key in c.locks
  }

  lemma HoldersAfter(c: Core, t: TaskId, p: Phase, k: Key)
    requires t in c.tasks
    ensures Holders(Goto(c, t, p), k) ==
            if k == c.tasks[t].key && Holding(p) then Holders(c, k) + {t} else Holders(c, k) - {t}
    ensures Flyers(Goto(c, t, p), k) ==
            if k == c.tasks[t].key && Flying(p) then Flyers(c, k) + {t} else Flyers(c, k) - {t}
  {
  }

  /** Per key, free permits and holders always make one, provided a lock is only
      entered while its permit is free. */
  lemma GotoKeepsExclusion(c: Core, t: TaskId, p: Phase)
    requires Exclusion(c) && t in c.tasks
    requires Holding(p) && !Holding(c.tasks[t].phase) ==> Permits(c, c.tasks[t].key) > 0
    requires p.Waiting? ==> !Holding(c.tasks[t].phase)
    ensures Exclusion(Goto(c, t, p))
    ensures forall k :: k in c.locks ==> k in Goto(c, t, p).locks
  {
    var c' := Goto(c, t, p);
    forall k ensures OneHolder(c', k) {
      assert OneHolder(c, k);
      HoldersAfter(c, t, p, k);
      if k != c.tasks[t].key || Holding(p) == Holding(c.tasks[t].phase) {
        assert Holders(c', k) == Holders(c, k);
      }
    }
    assert OneHolder(c', c.tasks[t].key);
  }

  lemma SpawnKeepsExclusion(c: Core, t: TaskId, k: Key)
    requires Exclusion(c) && t !in c.tasks
    ensures Exclusion(Spawned(c, t, k))
  {
    var c' := Spawned(c, t, k);
    forall k0 ensures OneHolder(c', k0) {
      assert OneHolder(c, k0);
      assert Holders(c', k0) == Holders(c, k0);
    }
  }

  lemma AtMostOneHolder(c: Core, t: TaskId, u: TaskId)
    requires Exclusion(c) && t in c.tasks && u in c.tasks
    requires Holding(c.tasks[t].phase) && Holding(c.tasks[u].phase) && c.tasks[t].key == c.tasks[u].key
    ensures t == u
  {
    var k := c.tasks[t].key;
    assert OneHolder(c, k);
    SubsetSize({t, u}, Holders(c, k));
  }

  // ---- Progress ----

  function Rank(p: Phase): nat {
    match p
    case Start => 6
    case Dialing => 5
    case Waiting => 4
    case Locked => 3
    case LockedDial => 2
    case Shaking => 1
    case _ => 0
  }

  /** The remaining work: as many units per task as its phase has rank. */
  ghost function Work(c: Core): set<(TaskId, int)> {
    set t, i | t in c.tasks && 0 <= i < Rank(c.tasks[t].phase) :: (t, i)
  }

  lemma GotoReducesWork(c: Core, t: TaskId, p: Phase)
    requires t in c.tasks && Rank(p) < Rank(c.tasks[t].phase)
    ensures |Work(Goto(c, t, p))| < |Work(c)|
  {
    var w, w' := Work(c), Work(Goto(c, t, p));
    assert (t, Rank(p)) in w && (t, Rank(p)) !in w';
    assert w' <= w - {(t, Rank(p))};
    SubsetSize(w', w - {(t, Rank(p))});
  }

  lemma SpawnAddsWork(c: Core, t: TaskId, k: Key)
    requires t !in c.tasks
    ensures |Work(Spawned(c, t, k))| <= |Work(c)| + Rank(Start)
  {
    var units := {(t, 0), (t, 1), (t, 2), (t, 3), (t, 4), (t, 5)};
    assert Work(Spawned(c, t, k)) <= Work(c) + units;
    SubsetSize(Work(Spawned(c, t, k)), Work(c) + units);
    assert |units| == 6;
  }

  /** The events of a run that satisfy `f`. */
  function Count<E>(es: seq<E>, f: E -> bool): nat {
    if es == [] then 0 else (if f(es[0]) then 1 else 0) + Count(es[1..], f)
  }

  /** A task that can take its next step without waiting for another task. */
  predicate CanMove(c: Core, t: TaskId) {
    && t in c.tasks && !Finished(c.tasks[t].phase)
    && (c.tasks[t].phase.Waiting? ==> Permits(c, c.tasks[t].key) > 0)
  }

  /** Whenever a task is unfinished, some task can move: a waiter whose lock is
      taken points to its holder, and a holder never waits. */
  lemma NoDeadlock(c: Core, t: TaskId)
    requires Exclusion(c) && t in c.tasks && !Finished(c.tasks[t].phase)
    ensures exists u :: CanMove(c, u)
  {
    if CanMove(c, t) {
    } else {
      var k := c.tasks[t].key;
      assert OneHolder(c, k);
      var u :| u in Holders(c, k);
      assert CanMove(c, u);
    }
  }

  lemma {:induction false} UpperBound(s: set<Conn>) returns (n: Conn)
    ensures forall c :: c in s ==> c < n
  {
    if s == {} {
      n := 0;
    } else {
      var c :| c in s;
      n := UpperBound(s - {c});
      if n <= c { n := c + 1; }
      assert forall d :: d in s ==> d == c || d in s - {c};
    }
  }

  // ---- The account of created connections ----

  /** Per key: attempts begun and failed, and the connections put into and
      removed from the pool, in order. */
  datatype Ledger = Ledger(started: nat, failed: nat, put: seq<Conn>, removed: seq<Conn>)

  type Books = map<Key, Ledger>

  function LedgerOf(b: Books, k: Key): Ledger {
    if k in b then b[k] else Ledger(0, 0, [], [])
  }

  function ConnSeq(q: Queue): seq<Conn>
    ensures |ConnSeq(q)| == |q|
    ensures forall i :: 0 <= i < |q| ==> ConnSeq(q)[i] == q[i].conn
  {
    if q == [] then [] else [q[0].conn] + ConnSeq(q[1..])
  }

  /** The `retain` of both `try_get`s: drop the connections known to be dead. */
  function Living(q: Queue, dead: set<Conn>): Queue {
    if q == [] then []
    else (if q[0].conn in dead then [] else [q[0]]) + Living(q[1..], dead)
  }

  function Purged(q: Queue, dead: set<Conn>): seq<Conn> {
    if q == [] then []
    else (if q[0].conn in dead then [q[0].conn] else []) + Purged(q[1..], dead)
  }

  lemma {:induction false} LivingConns(q: Queue, dead: set<Conn>)
    ensures ConnsOf(Living(q, dead)) == ConnsOf(q) - dead
    ensures DistinctConns(q) ==> DistinctConns(Living(q, dead))
    ensures |Living(q, dead)| <= |q|
  {
    if q != [] {
      LivingConns(q[1..], dead);
      assert q == [q[0]] + q[1..];
      ConsConns(q[0], q[1..]);
      var r := Living(q[1..], dead);
      ConsConns(q[0], r);
      assert Living(q, dead) == if q[0].conn in dead then r else [q[0]] + r;
    }
  }

  /** `c` is the first connection of `q` that is not dead. */
  ghost predicate FirstLiving(q: Queue, dead: set<Conn>, c: Conn) {
    exists i :: 0 <= i < |q| && q[i].conn == c && c !in dead && forall j :: 0 <= j < i ==> q[j].conn in dead
  }

  lemma {:induction false} LivingFront(q: Queue, dead: set<Conn>)
    ensures Living(q, dead) == [] <==> ConnsOf(q) - dead == {}
    ensures Living(q, dead) != [] ==> FirstLiving(q, dead, Living(q, dead)[0].conn)
  {
    LivingConns(q, dead);
    if Living(q, dead) != [] { assert Living(q, dead)[0].conn in ConnsOf(Living(q, dead)); }
    if q != [] {
      LivingFront(q[1..], dead);
      assert q == [q[0]] + q[1..];
      ConsConns(q[0], q[1..]);
      if q[0].conn in dead && Living(q[1..], dead) != [] {
        var i :| 0 <= i < |q[1..]| && q[1..][i].conn == Living(q[1..], dead)[0].conn
                 && forall j :: 0 <= j < i ==> q[1..][j].conn in dead;
        assert q[i + 1] == q[1..][i];
        forall j | 0 <= j < i + 1 ensures q[j].conn in dead {
          if j > 0 { assert q[j] == q[1..][j - 1]; }
        }
      }
    }
  }

  /** The filter works entry by entry and keeps the order. */
  lemma {:induction false} LivingSplit(a: Queue, b: Queue, dead: set<Conn>)
    ensures Living(a + b, dead) == Living(a, dead) + Living(b, dead)
  {
    if a == [] {
      assert a + b == b;
    } else {
      assert (a + b)[1..] == a[1..] + b;
      LivingSplit(a[1..], b, dead);
    }
  }

  /** The loop of `retain`. */
  method RetainLiving(q: Queue, dead: set<Conn>) returns (r: Queue)
    ensures r == Living(q, dead)
  {
    r := [];
    for i := 0 to |q|
      invariant r == Living(q[..i], dead)
    {
      assert q[..i + 1] == q[..i] + [q[i]];
      LivingSplit(q[..i], [q[i]], dead);
      if q[i].conn !in dead {
        r := r + [q[i]];
      }
    }
    assert q[..|q|] == q;
  }

  /** At most one pooled connection, none while another is being created; what
      was put is what was removed followed by what is pooled; and every attempt
      succeeded, failed or is the one under way. */
  ghost predicate Flight(c: Core, k: Key, q: Queue, b: Books) {
    var led := LedgerOf(b, k);
    && |q| <= 1
    && (Flyers(c, k) != {} ==> q == [])
    && led.put == led.removed + ConnSeq(q)
    && led.started == |led.put| + led.failed + |Flyers(c, k)|
  }

  lemma FlyersHold(c: Core, t: TaskId)
    requires Exclusion(c) && t in c.tasks && Flying(c.tasks[t].phase)
    ensures Flyers(c, c.tasks[t].key) == {t}
  {
    forall u | u in Flyers(c, c.tasks[t].key) ensures u == t {
      AtMostOneHolder(c, t, u);
    }
  }

  /** `try_get` may shrink the queue; it leaves the account in balance. */
  lemma PurgeKeepsFlight(c: Core, k: Key, q: Queue, b: Books, dead: set<Conn>)
    requires Flight(c, k, q, b)
    ensures var led := LedgerOf(b, k);
            Flight(c, k, Living(q, dead), b[k := led.(removed := led.removed + Purged(q, dead))])
  {
    if q != [] {
      assert q[1..] == [];
      assert Living(q, dead) == if q[0].conn in dead then [] else q;
      assert ConnSeq(q) == [q[0].conn];
    }
  }

  /** A move that neither begins nor ends a creation. */
  lemma MoveKeepsFlight(c: Core, t: TaskId, p: Phase, k: Key, q: Queue, b: Books)
    requires Flight(c, k, q, b) && t in c.tasks
    requires k == c.tasks[t].key ==> Flying(p) == Flying(c.tasks[t].phase)
    ensures Flight(Goto(c, t, p), k, q, b)
  {
    HoldersAfter(c, t, p, k);
    assert Flyers(Goto(c, t, p), k) == Flyers(c, k);
  }

  lemma TakeOffKeepsFlight(c: Core, t: TaskId, p: Phase, b: Books)
    requires t in c.tasks && !Flying(c.tasks[t].phase) && Flying(p)
    requires Flight(c, c.tasks[t].key, [], b)
    ensures var k := c.tasks[t].key;
            var led := LedgerOf(b, k);
            Flight(Goto(c, t, p), k, [], b[k := led.(started := led.started + 1)])
  {
    HoldersAfter(c, t, p, c.tasks[t].key);
  }

  lemma LandingKeepsFlight(c: Core, t: TaskId, conn: Conn, at: Instant, b: Books, q: Queue)
    requires Exclusion(c) && t in c.tasks && Flying(c.tasks[t].phase)
    requires Flight(c, c.tasks[t].key, q, b)
    ensures q == []
    ensures var k := c.tasks[t].key;
            var led := LedgerOf(b, k);
            Flight(Goto(c, t, Done(H2(conn))), k, [Idle(conn, at)], b[k := led.(put := led.put + [conn])])
  {
    FlyersHold(c, t);
    HoldersAfter(c, t, Done(H2(conn)), c.tasks[t].key);
    assert ConnSeq([Idle(conn, at)]) == [conn];
  }

  lemma CrashKeepsFlight(c: Core, t: TaskId, b: Books, q: Queue)
    requires Exclusion(c) && t in c.tasks && Flying(c.tasks[t].phase)
    requires Flight(c, c.tasks[t].key, q, b)
    ensures var k := c.tasks[t].key;
            var led := LedgerOf(b, k);
            Flight(Goto(c, t, Over), k, q, b[k := led.(failed := led.failed + 1)])
  {
    FlyersHold(c, t);
    HoldersAfter(c, t, Over, c.tasks[t].key);
  }

  lemma OtherKeyKeepsFlight(c: Core, t: TaskId, p: Phase, k: Key, q: Queue, b: Books, led: Ledger)
    requires Flight(c, k, q, b) && t in c.tasks && k != c.tasks[t].key
    ensures Flight(Goto(c, t, p), k, q, b[c.tasks[t].key := led])
  {
    HoldersAfter(c, t, p, k);
    assert Flyers(Goto(c, t, p), k) == Flyers(c, k);
  }

  lemma LostIsDead(led: Ledger, q: Queue, dead: set<Conn>)
    requires led.put == led.removed + ConnSeq(q) && led.removed != []
    requires forall c :: c in led.removed ==> c in dead
    ensures exists c :: c in led.put && c in dead
  {
    assert led.put[0] == led.removed[0];
    assert led.put[0] in led.put && led.removed[0] in led.removed;
  }

  /** Never more attempts than one, the failures and the losses; and with
      neither, one attempt and one connection for everybody. */
  lemma OneFlight(c: Core, k: Key, q: Queue, b: Books, dead: set<Conn>)
    requires Exclusion(c) && Flight(c, k, q, b)
    requires forall conn :: conn in LedgerOf(b, k).removed ==> conn in dead
    ensures var led := LedgerOf(b, k);
            && led.started <= 1 + led.failed + |led.removed|
            && (led.failed == 0 && (forall conn :: conn in led.put ==> conn !in dead) ==>
                  forall conn :: conn in led.put ==> led.started == 1 && led.put == [conn])
  {
    var led := LedgerOf(b, k);
    assert OneHolder(c, k);
    SubsetSize(Flyers(c, k), Holders(c, k));
    if led.removed != [] { LostIsDead(led, q, dead); }
  }

  // ---- The desk: tasks, locks, pool and books together ----

  datatype Desk = Desk(core: Core, pool: Idles, dead: set<Conn>, books: Books)

  const EMPTY_DESK := Desk(NO_TASKS, map[], {}, map[])

  /** The `retain` of a `try_get`, in the pool and in the books. */
  function Purge(d: Desk, k: Key): Desk {
    if k !in d.pool then d
    else
      var led := LedgerOf(d.books, k);
      d.(pool := d.pool[k := Living(d.pool[k], d.dead)],
         books := d.books[k := led.(removed := led.removed + Purged(d.pool[k], d.dead))])
  }

  function Move(d: Desk, t: TaskId, p: Phase): Desk
    requires t in d.core.tasks
  {
    d.(core := Goto(d.core, t, p))
  }

  /** Task `t` begins to create a connection, in phase `p`. */
  function TakeOff(d: Desk, t: TaskId, p: Phase): Desk
    requires t in d.core.tasks
  {
    var k := d.core.tasks[t].key;
    var led := LedgerOf(d.books, k);
    Move(d, t, p).(books := d.books[k := led.(started := led.started + 1)])
  }

  /** Its connection `c` is put and handed to the caller. */
  function Land(d: Desk, t: TaskId, c: Conn, now: Instant, maxIdle: nat): Desk
    requires t in d.core.tasks
  {
    var k := d.core.tasks[t].key;
    var q, led := QueueOf(d.pool, k), LedgerOf(d.books, k);
    Move(d, t, Done(H2(c))).(
      pool := d.pool[k := Tail(q, EvictedByPut(|q|, maxIdle)) + [Idle(c, now)]],
      books := d.books[k := led.(put := led.put + [c])])
  }

  function Crash(d: Desk, t: TaskId): Desk
    requires t in d.core.tasks
  {
    var k := d.core.tasks[t].key;
    var led := LedgerOf(d.books, k);
    Move(d, t, Over).(books := d.books[k := led.(failed := led.failed + 1)])
  }

  ghost predicate KeyOk(d: Desk, k: Key) {
    && Flight(d.core, k, QueueOf(d.pool, k), d.books)
    && (forall c :: c in LedgerOf(d.books, k).removed ==> c in d.dead)
  }

  predicate HasH2(d: Desk, t: TaskId, k: Key) {
    && t in d.core.tasks && d.core.tasks[t].key == k
    && d.core.tasks[t].phase.Done? && d.core.tasks[t].phase.got.H2?
  }

  /** A caller's HTTP/2 handle is to a connection that was put for its key. */
  ghost predicate HandleOk(d: Desk, t: TaskId) {
    t in d.core.tasks && HasH2(d, t, d.core.tasks[t].key) ==>
      d.core.tasks[t].phase.got.conn in LedgerOf(d.books, d.core.tasks[t].key).put
  }

  ghost predicate DeskOk(d: Desk) {
    && Exclusion(d.core)
    && (forall k :: KeyOk(d, k))
    && (forall t :: HandleOk(d, t))
  }

  lemma EmptyDeskOk()
    ensures DeskOk(EMPTY_DESK)
  {
    forall k ensures OneHolder(NO_TASKS, k) && KeyOk(EMPTY_DESK, k) {
      assert Holders(NO_TASKS, k) == {} && Flyers(NO_TASKS, k) == {};
    }
  }

  lemma {:induction false} PurgedAreDead(q: Queue, dead: set<Conn>)
    ensures forall c :: c in Purged(q, dead) ==> c in dead
  {
    if q != [] { PurgedAreDead(q[1..], dead); }
  }

  lemma PurgeKeepsDesk(d: Desk, k: Key)
    requires DeskOk(d)
    ensures DeskOk(Purge(d, k))
    ensures var q := QueueOf(Purge(d, k).pool, k);
            q != [] ==> q[0].conn in LedgerOf(Purge(d, k).books, k).put
  {
    var d' := Purge(d, k);
    assert KeyOk(d, k);
    if k in d.pool {
      PurgedAreDead(d.pool[k], d.dead);
      PurgeKeepsFlight(d.core, k, d.pool[k], d.books, d.dead);
      forall k0 ensures KeyOk(d', k0) { assert KeyOk(d, k0); }
      forall t ensures HandleOk(d', t) { assert HandleOk(d, t); }
    }
    assert Flight(d'.core, k, QueueOf(d'.pool, k), d'.books);
  }

  /** A move that creates nothing. */
  lemma MoveKeepsDesk(d: Desk, t: TaskId, p: Phase)
    requires DeskOk(d) && t in d.core.tasks
    requires Flying(p) == Flying(d.core.tasks[t].phase)
    requires Holding(p) && !Holding(d.core.tasks[t].phase) ==> Permits(d.core, d.core.tasks[t].key) > 0
    requires p.Waiting? ==> !Holding(d.core.tasks[t].phase)
    requires p.Done? && p.got.H2? ==> p.got.conn in LedgerOf(d.books, d.core.tasks[t].key).put
    ensures DeskOk(Move(d, t, p))
  {
    var d' := Move(d, t, p);
    GotoKeepsExclusion(d.core, t, p);
    forall k ensures KeyOk(d', k) {
      assert KeyOk(d, k);
      MoveKeepsFlight(d.core, t, p, k, QueueOf(d.pool, k), d.books);
    }
    forall u ensures HandleOk(d', u) { assert HandleOk(d, u); }
  }

  /** A step of `t` that changes the pool and the books of its own key only. */
  lemma OwnKeyStepKeepsDesk(d: Desk, t: TaskId, p: Phase, d': Desk)
    requires DeskOk(d) && t in d.core.tasks && d'.core == Goto(d.core, t, p) && d'.dead == d.dead
    requires var k := d.core.tasks[t].key;
             && d'.books == d.books[k := LedgerOf(d'.books, k)]
             && (forall k0 :: k0 != k ==> QueueOf(d'.pool, k0) == QueueOf(d.pool, k0))
             && KeyOk(d', k)
             && LedgerOf(d.books, k).put <= LedgerOf(d'.books, k).put
             && (p.Done? && p.got.H2? ==> p.got.conn in LedgerOf(d'.books, k).put)
    requires Exclusion(d'.core)
    ensures DeskOk(d')
  {
    var k := d.core.tasks[t].key;
    forall k0 ensures KeyOk(d', k0) {
      assert KeyOk(d, k0);
      if k0 != k {
        OtherKeyKeepsFlight(d.core, t, p, k0, QueueOf(d.pool, k0), d.books, LedgerOf(d'.books, k));
      }
    }
    forall u ensures HandleOk(d', u) { assert HandleOk(d, u); }
  }

  lemma TakeOffKeepsDesk(d: Desk, t: TaskId, p: Phase)
    requires DeskOk(d) && At(d.core, t, Locked) && Flying(p) && QueueOf(d.pool, d.core.tasks[t].key) == []
    ensures DeskOk(TakeOff(d, t, p))
  {
    GotoKeepsExclusion(d.core, t, p);
    assert KeyOk(d, d.core.tasks[t].key);
    TakeOffKeepsFlight(d.core, t, p, d.books);
    OwnKeyStepKeepsDesk(d, t, p, TakeOff(d, t, p));
  }

  lemma LandKeepsDesk(d: Desk, t: TaskId, c: Conn, now: Instant, maxIdle: nat)
    requires DeskOk(d) && t in d.core.tasks && Flying(d.core.tasks[t].phase)
    ensures DeskOk(Land(d, t, c, now, maxIdle))
  {
    var k := d.core.tasks[t].key;
    var d' := Land(d, t, c, now, maxIdle);
    GotoKeepsExclusion(d.core, t, Done(H2(c)));
    assert KeyOk(d, k);
    LandingKeepsFlight(d.core, t, c, now, d.books, QueueOf(d.pool, k));
    assert d'.pool[k] == [Idle(c, now)];
    OwnKeyStepKeepsDesk(d, t, Done(H2(c)), d');
  }

  lemma CrashKeepsDesk(d: Desk, t: TaskId)
    requires DeskOk(d) && t in d.core.tasks && Flying(d.core.tasks[t].phase)
    ensures DeskOk(Crash(d, t))
  {
    GotoKeepsExclusion(d.core, t, Over);
    assert KeyOk(d, d.core.tasks[t].key);
    CrashKeepsFlight(d.core, t, d.books, QueueOf(d.pool, d.core.tasks[t].key));
    OwnKeyStepKeepsDesk(d, t, Over, Crash(d, t));
  }

  lemma SpawnKeepsDesk(d: Desk, t: TaskId, k: Key)
    requires DeskOk(d) && t !in d.core.tasks
    ensures DeskOk(d.(core := Spawned(d.core, t, k)))
  {
    var d' := d.(core := Spawned(d.core, t, k));
    SpawnKeepsExclusion(d.core, t, k);
    forall k0 ensures KeyOk(d', k0) {
      assert KeyOk(d, k0);
      assert Flyers(d'.core, k0) == Flyers(d.core, k0);
    }
    forall u ensures HandleOk(d', u) { assert HandleOk(d, u); }
  }

  lemma DeathKeepsDesk(d: Desk, c: Conn)
    requires DeskOk(d)
    ensures DeskOk(d.(dead := d.dead + {c}))
  {
    var d' := d.(dead := d.dead + {c});
    forall k ensures KeyOk(d', k) { assert KeyOk(d, k); }
    forall t ensures HandleOk(d', t) { assert HandleOk(d, t); }
  }

  /** What the invariant says about one key and its callers. */
  ghost predicate OneConnectionServes(d: Desk, k: Key) {
    var led := LedgerOf(d.books, k);
    && |QueueOf(d.pool, k)| <= 1
    && led.put == led.removed + ConnSeq(QueueOf(d.pool, k))
    && (forall c :: c in led.removed ==> c in d.dead)
    && led.started <= 1 + led.failed + |led.removed|
    && (led.failed == 0 && (forall c :: c in led.put ==> c !in d.dead) ==>
          forall t :: HasH2(d, t, k) ==> led.started == 1 && led.put == [d.core.tasks[t].phase.got.conn])
  }

  lemma DeskServes(d: Desk, k: Key)
    requires DeskOk(d)
    ensures OneConnectionServes(d, k)
  {
    assert KeyOk(d, k);
    OneFlight(d.core, k, QueueOf(d.pool, k), d.books, d.dead);
    forall t | HasH2(d, t, k) ensures d.core.tasks[t].phase.got.conn in LedgerOf(d.books, k).put {
      assert HandleOk(d, t);
    }
  }

  // ---- What a step leaves alone ----

  /** The other tasks, and the pool and lock of the other keys, are as before,
      and a lock once made stays. */
  ghost predicate OnlyTask(d: Desk, d': Desk, t: TaskId) {
    && t in d.core.tasks && d'.dead == d.dead
    && d'.core.tasks == d.core.tasks[t := Task(d.core.tasks[t].key, PhaseOf(d', t))]
    && (forall j :: j != d.core.tasks[t].key ==>
          QueueOf(d'.pool, j) == QueueOf(d.pool, j) && Permits(d'.core, j) == Permits(d.core, j))
  }

  function PhaseOf(d: Desk, t: TaskId): Phase {
    if t in d.core.tasks then d.core.tasks[t].phase else Over
  }

  lemma GotoIsOnlyTask(d: Desk, t: TaskId, p: Phase, d': Desk)
    requires t in d.core.tasks && d'.core == Goto(d.core, t, p) && d'.dead == d.dead
    requires forall j :: j != d.core.tasks[t].key ==> QueueOf(d'.pool, j) == QueueOf(d.pool, j)
    ensures OnlyTask(d, d', t) && PhaseOf(d', t) == p
    ensures p.Start? || p.Dialing? || p.Done? ==> !Holding(d.core.tasks[t].phase) ==> d'.core.locks == d.core.locks
  {
  }

  lemma MoveIsOnlyTask(d: Desk, t: TaskId, p: Phase)
    requires t in d.core.tasks
    ensures PhaseOf(Move(d, t, p), t) == PhaseOf(TakeOff(d, t, p), t) == p && PhaseOf(Crash(d, t), t) == Over
    ensures OnlyTask(d, Move(d, t, p), t) && OnlyTask(d, TakeOff(d, t, p), t) && OnlyTask(d, Crash(d, t), t)
    ensures var k, d1 := d.core.tasks[t].key, Purge(d, d.core.tasks[t].key);
            OnlyTask(d, Move(d1, t, p), t) && OnlyTask(d, TakeOff(d1, t, p), t)
  {
  }

  /** After the `retain` of `k` exactly its living connections are pooled, and the
      front is the first of them. */
  lemma PurgeMeans(d: Desk, k: Key)
    ensures var q, q' := QueueOf(d.pool, k), QueueOf(Purge(d, k).pool, k);
            && ConnsOf(q') == ConnsOf(q) - d.dead
            && (q' == [] <==> ConnsOf(q) - d.dead == {})
            && (q' != [] ==> FirstLiving(q, d.dead, q'[0].conn))
  {
    LivingFront(QueueOf(d.pool, k), d.dead);
    LivingConns(QueueOf(d.pool, k), d.dead);
  }

  // ---- Keys for which nothing goes wrong ----

  /** No attempt for `k` failed, and no task of `k` ended with anything but an
      HTTP/2 connection. */
  ghost predicate Calm(d: Desk, k: Key) {
    && LedgerOf(d.books, k).failed == 0
    && forall t :: t in d.core.tasks && d.core.tasks[t].key == k && Finished(d.core.tasks[t].phase) ==> HasH2(d, t, k)
  }

  lemma PurgeKeepsFailed(d: Desk, k0: Key, k: Key)
    ensures LedgerOf(Purge(d, k0).books, k).failed == LedgerOf(d.books, k).failed
  {
  }

  /** A step of one task keeps a key calm if it records no failure of the key
      and, for a task of the key, ends it with an HTTP/2 connection if at all. */
  lemma StepKeepsCalm(d: Desk, t: TaskId, p: Phase, d': Desk, k: Key)
    requires Calm(d, k) && t in d.core.tasks && d'.core == Goto(d.core, t, p)
    requires LedgerOf(d'.books, k).failed == LedgerOf(d.books, k).failed
    requires d.core.tasks[t].key == k && Finished(p) ==> p.Done? && p.got.H2?
    ensures Calm(d', k)
  {
    forall u | u in d'.core.tasks && d'.core.tasks[u].key == k && Finished(d'.core.tasks[u].phase)
      ensures HasH2(d', u, k)
    {
      assert u != t ==> HasH2(d, u, k);
    }
  }

  /** Exactly one connection was made for `k`, and all its callers have it. */
  ghost predicate AllShare(d: Desk, k: Key) {
    && LedgerOf(d.books, k).started == 1 == |LedgerOf(d.books, k).put|
    && forall t :: t in d.core.tasks && d.core.tasks[t].key == k ==>
         d.core.tasks[t].phase == Done(H2(LedgerOf(d.books, k).put[0]))
  }

  /** None of the connections made for `k` has died. */
  ghost predicate Healthy(d: Desk, k: Key) {
    forall c :: c in LedgerOf(d.books, k).put ==> c !in d.dead
  }

  /** All tasks of `k`, of which there is at least one, have ended. */
  ghost predicate AllEnded(d: Desk, k: Key) {
    && (exists t :: t in d.core.tasks && d.core.tasks[t].key == k)
    && (forall t :: t in d.core.tasks && d.core.tasks[t].key == k ==> Finished(d.core.tasks[t].phase))
  }

  lemma CalmCallersShare(d: Desk, k: Key)
    requires OneConnectionServes(d, k) && Calm(d, k) && Healthy(d, k) && AllEnded(d, k)
    ensures AllShare(d, k)
  {
    assert forall t :: t in d.core.tasks && d.core.tasks[t].key == k ==> HasH2(d, t, k);
  }
}
