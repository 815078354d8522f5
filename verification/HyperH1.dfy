/**
 Any number of tasks in the retry loop of the Hyper HTTP/1.1 connector, sharing
 one pool. A task may be dropped at each of its awaits.
 */
module HyperH1 {
  import opened Pool
  import PoolRun

  type TaskId = nat

  datatype Phase =
    | Looping                 // about to call `get`
    | Readying(conn: Conn)    // awaiting `ready()` on a pooled connection
    | Dialing
    | Shaking
    | Done(conn: Conn)        // the caller holds the handle
    | Over

  /** `passed` are the connections the task took from the pool and gave up. */
  datatype Task = Task(key: Key, phase: Phase, passed: set<Conn>, retries: nat)

  datatype State = State(pool: PoolRun.State, closed: set<Conn>, tasks: map<TaskId, Task>)

  datatype Event =
    | Spawn(t: TaskId, key: Key)
    | Iterate(t: TaskId)
    | Readied(t: TaskId, ok: bool)
    | Dialed(t: TaskId, ok: bool)
    | Shaken(t: TaskId, outcome: Option<Conn>)
    | Release(t: TaskId)
    | Cancel(t: TaskId)
    | CloseConn(conn: Conn)
    | Background(op: PoolRun.Event)

  function Init(maxIdle: Option<nat>): State {
    State(PoolRun.Init(maxIdle), {}, map[])
  }

  /** `ready()` fails only on a closed connection. */
  predicate Enabled(s: State, e: Event) {
    match e
    case Spawn(t, _) => t !in s.tasks
    case Iterate(t) => t in s.tasks && s.tasks[t].phase.Looping? && s.pool.alive
    case Readied(t, ok) =>
      && t in s.tasks && s.tasks[t].phase.Readying?
      && s.tasks[t].phase.conn in s.pool.held
      && (!ok ==> s.tasks[t].phase.conn in s.closed)
    case Dialed(t, _) => t in s.tasks && s.tasks[t].phase.Dialing?
    case Shaken(t, c) =>
      && t in s.tasks && s.tasks[t].phase.Shaking? && s.pool.alive
      && (c.Some? ==> c.value !in s.pool.origin)
    case Release(t) => t in s.tasks && s.tasks[t].phase.Done? && s.tasks[t].phase.conn in s.pool.held
    case Cancel(t) =>
      && t in s.tasks
      && (s.tasks[t].phase.Readying? || s.tasks[t].phase.Dialing? || s.tasks[t].phase.Shaking?)
      && (s.tasks[t].phase.Readying? ==> s.tasks[t].phase.conn in s.pool.held)
    case CloseConn(_) => true
    case Background(op) => (op.Sweep? || op.Tick?) && PoolRun.Enabled(s.pool, op)
  }

  function Goto(s: State, t: TaskId, p: Phase): State
    requires t in s.tasks
  {
    s.(tasks := s.tasks[t := s.tasks[t].(phase := p)])
  }

  function NotePassed(s: State, t: TaskId, c: Conn): State
    requires t in s.tasks
  {
    s.(tasks := s.tasks[t := s.tasks[t].(passed := s.tasks[t].passed + {c}, retries := s.tasks[t].retries + 1)])
  }

  function DropConn(s: State, c: Conn): State
    requires c in s.pool.held
  {
    s.(pool := PoolRun.Apply(s.pool, PoolRun.Drop(c, c !in s.closed)))
  }

  /** The task gives up `c`, which is closed, and goes round the loop again. */
  function PassOver(s: State, t: TaskId, c: Conn): State
    requires t in s.tasks && c in s.pool.held
  {
    NotePassed(DropConn(Goto(s, t, Looping), c), t, c)
  }

  /** The handle is dropped and the task ends. */
  function GiveUp(s: State, t: TaskId, c: Conn): State
    requires t in s.tasks && c in s.pool.held
  {
    DropConn(Goto(s, t, Over), c)
  }

  function Apply(s: State, e: Event): State
    requires Enabled(s, e)
  {
    match e
    case Spawn(t, k) => s.(tasks := s.tasks[t := Task(k, Looping, {}, 0)])
    case Iterate(t) =>
      var k := s.tasks[t].key;
      var s' := s.(pool := PoolRun.Apply(s.pool, PoolRun.Get(k)));
      (match PoolRun.Front(s.pool, k)
       case None => Goto(s', t, Dialing)
       case Some(c) => if c in s.closed then PassOver(s', t, c) else Goto(s', t, Readying(c)))
    case Readied(t, ok) =>
      var c := s.tasks[t].phase.conn;
      if ok then Goto(s, t, Done(c)) else PassOver(s, t, c)
    case Dialed(t, ok) => Goto(s, t, if ok then Shaking else Over)
    case Shaken(t, c) =>
      if c == None then Goto(s, t, Over)
      else Goto(s.(pool := PoolRun.Apply(s.pool, PoolRun.Link(s.tasks[t].key, c.value))), t, Done(c.value))
    case Release(t) => GiveUp(s, t, s.tasks[t].phase.conn)
    case Cancel(t) =>
      if s.tasks[t].phase.Readying? then GiveUp(s, t, s.tasks[t].phase.conn) else Goto(s, t, Over)
    case CloseConn(c) => s.(closed := s.closed + {c})
    case Background(op) => s.(pool := PoolRun.Apply(s.pool, op))
  }

  predicate Legal(s: State, es: seq<Event>)
    decreases |es|
  {
    es == [] || (Enabled(s, es[0]) && Legal(Apply(s, es[0]), es[1..]))
  }

  function Exec(s: State, es: seq<Event>): State
    requires Legal(s, es)
    decreases |es|
  {
    if es == [] then s else Exec(Apply(s, es[0]), es[1..])
  }

  /** What the loop does between two awaits: it takes connections from the pool
      until one is open or none is left, and lets go of the closed ones. */
  method NextOpen(pool: ConnectionPool, key: Key, closed: set<Conn>, now: Instant)
    returns (r: Option<Conn>, passed: seq<Conn>)
    requires pool.idleDur == None
    modifies pool
    ensures var q := QueueOf(old(pool.idleConns), key);
            && |passed| <= |q|
            && (forall i :: 0 <= i < |passed| ==> passed[i] == q[i].conn && passed[i] in closed)
            && (if |passed| == |q| then r == None && QueueOf(pool.idleConns, key) == []
                else r == Some(q[|passed|].conn) && r.value !in closed
                     && QueueOf(pool.idleConns, key) == q[|passed| + 1..])
    ensures forall k :: k != key ==> QueueOf(pool.idleConns, k) == QueueOf(old(pool.idleConns), k)
  {
    ghost var q := QueueOf(pool.idleConns, key);
    passed := [];
    r := pool.Get(key, now);
    while r.Some? && r.value in closed
      invariant |passed| <= |q|
      invariant forall i :: 0 <= i < |passed| ==> passed[i] == q[i].conn && passed[i] in closed
      invariant if |passed| == |q| then r == None && QueueOf(pool.idleConns, key) == []
                else r == Some(q[|passed|].conn) && QueueOf(pool.idleConns, key) == q[|passed| + 1..]
      invariant forall k :: k != key ==> QueueOf(pool.idleConns, k) == QueueOf(old(pool.idleConns), k)
      decreases |q| - |passed|
    {
      passed := passed + [r.value];
      r := pool.Get(key, now);
    }
  }

  // ---- Ownership and retries ----

  function Owned(p: Phase): Option<Conn> {
    if p.Readying? || p.Done? then Some(p.conn) else None
  }

  /** No two tasks share a handle, and every task's handle is live. */
  ghost predicate Exclusive(s: State) {
    && (forall t :: t in s.tasks && Owned(s.tasks[t].phase).Some? ==>
          && Owned(s.tasks[t].phase).value in s.pool.held
          && s.pool.held[Owned(s.tasks[t].phase).value] == s.tasks[t].key)
    && (forall t, u :: t in s.tasks && u in s.tasks && t != u && Owned(s.tasks[t].phase).Some? ==>
          Owned(s.tasks[t].phase) != Owned(s.tasks[u].phase))
  }

  ghost predicate OwnedOnlyBy(s: State, t: TaskId, c: Conn) {
    forall u :: u in s.tasks && u != t ==> Owned(s.tasks[u].phase) != Some(c)
  }

  /** What a task passed over is closed, was introduced under its key, and is
      gone for good; the retries are exactly those connections. */
  ghost predicate PassedForGood(s: State, task: Task) {
    && task.passed <= s.closed && task.passed <= s.pool.gone
    && (forall c :: c in task.passed ==> c in s.pool.origin && s.pool.origin[c] == task.key)
    && task.retries == |task.passed|
  }

  ghost predicate Inv(s: State) {
    && PoolRun.OnePlace(s.pool) && s.pool.alive && s.pool.idleDur == None
    && Exclusive(s)
    && forall t :: t in s.tasks ==> PassedForGood(s, s.tasks[t])
  }

  /** Pool steps never bring a connection back from the dead or change a key. */
  lemma PoolMonotone(s: PoolRun.State, e: PoolRun.Event)
    requires PoolRun.Enabled(s, e)
    ensures var s' := PoolRun.Apply(s, e);
            && s.gone <= s'.gone
            && (forall c :: c in s.origin && !((e.Link? || e.Put?) && e.conn == c) ==>
                  c in s'.origin && s'.origin[c] == s.origin[c])
            && (forall c :: c in s.held && !(e.Drop? && e.conn == c) && !e.Link? && !e.Get? ==>
                  c in s'.held && s'.held[c] == s.held[c])
            && (!e.Close? ==> s'.alive == s.alive) && s'.idleDur == s.idleDur
  {
  }

  /** A pool step that leaves every owned handle alone keeps the invariant. */
  lemma PoolStepKeeps(s: State, e: PoolRun.Event)
    requires Inv(s) && PoolRun.Enabled(s.pool, e) && !e.Close?
    requires e.Drop? ==> forall t :: t in s.tasks ==> Owned(s.tasks[t].phase) != Some(e.conn)
    ensures Inv(s.(pool := PoolRun.Apply(s.pool, e)))
  {
    var s' := s.(pool := PoolRun.Apply(s.pool, e));
    PoolRun.OnePlaceStep(s.pool, e);
    PoolMonotone(s.pool, e);
    if e.Get? && PoolRun.Front(s.pool, e.key).Some? {
      PoolRun.GetHandsOutOwnKey(s.pool, e.key);
    }
    forall t | t in s'.tasks ensures PassedForGood(s', s'.tasks[t]) {
      assert PassedForGood(s, s.tasks[t]);
    }
  }

  lemma GotoKeeps(s: State, t: TaskId, p: Phase)
    requires Inv(s) && t in s.tasks
    requires Owned(p).Some? ==>
               && Owned(p).value in s.pool.held && s.pool.held[Owned(p).value] == s.tasks[t].key
               && OwnedOnlyBy(s, t, Owned(p).value)
    ensures Inv(Goto(s, t, p))
  {
    var s' := Goto(s, t, p);
    forall u | u in s'.tasks ensures PassedForGood(s', s'.tasks[u]) {
      assert PassedForGood(s, s.tasks[u]);
    }
  }

  lemma NotePassedKeeps(s: State, t: TaskId, c: Conn)
    requires Inv(s) && t in s.tasks
    requires c in s.closed && c in s.pool.gone && c !in s.tasks[t].passed
    requires c in s.pool.origin && s.pool.origin[c] == s.tasks[t].key
    ensures Inv(NotePassed(s, t, c))
  {
    var s' := NotePassed(s, t, c);
    forall u | u in s'.tasks ensures PassedForGood(s', s'.tasks[u]) {
      assert PassedForGood(s, s.tasks[u]);
    }
  }

  lemma DroppedIsGone(s: PoolRun.State, c: Conn)
    requires PoolRun.OnePlace(s) && c in s.held
    ensures var s' := PoolRun.Apply(s, PoolRun.Drop(c, false));
            c in s'.gone && c in s'.origin && s'.origin[c] == s.held[c] && c !in s.gone
  {
  }

  lemma PassOverKeeps(s: State, t: TaskId, c: Conn)
    requires Inv(s) && t in s.tasks && c in s.closed
    requires c in s.pool.held && s.pool.held[c] == s.tasks[t].key
    requires OwnedOnlyBy(s, t, c)
    ensures Inv(PassOver(s, t, c))
  {
    var s1 := Goto(s, t, Looping);
    GotoKeeps(s, t, Looping);
    PoolStepKeeps(s1, PoolRun.Drop(c, false));
    DroppedIsGone(s.pool, c);
    assert PassedForGood(s, s.tasks[t]);
    NotePassedKeeps(DropConn(s1, c), t, c);
  }

  lemma GiveUpKeeps(s: State, t: TaskId, c: Conn)
    requires Inv(s) && t in s.tasks && Owned(s.tasks[t].phase) == Some(c)
    ensures Inv(GiveUp(s, t, c))
  {
    GotoKeeps(s, t, Over);
    PoolStepKeeps(Goto(s, t, Over), PoolRun.Drop(c, c !in s.closed));
  }

  lemma IterateKeeps(s: State, t: TaskId)
    requires Inv(s) && Enabled(s, Iterate(t))
    ensures Inv(Apply(s, Iterate(t)))
  {
    var k := s.tasks[t].key;
    var s1 := s.(pool := PoolRun.Apply(s.pool, PoolRun.Get(k)));
    PoolStepKeeps(s, PoolRun.Get(k));
    match PoolRun.Front(s.pool, k)
    case None => GotoKeeps(s1, t, Dialing);
    case Some(c) =>
      PoolRun.GetHandsOutOwnKey(s.pool, k);
      assert s1.pool.held[c] == k by { assert PoolRun.OnePlace(s1.pool); HandedOutKey(s.pool, k); }
      if c in s.closed {
        PassOverKeeps(s1, t, c);
      } else {
        GotoKeeps(s1, t, Readying(c));
      }
  }

  lemma HandedOutKey(s: PoolRun.State, k: Key)
    requires s.alive && PoolRun.Front(s, k).Some?
    ensures var s' := PoolRun.Apply(s, PoolRun.Get(k));
            PoolRun.Front(s, k).value in s'.held && s'.held[PoolRun.Front(s, k).value] == k
  {
  }

  lemma InvStep(s: State, e: Event)
    requires Inv(s) && Enabled(s, e)
    ensures Inv(Apply(s, e))
  {
    match e
    case Spawn(t, k) =>
      forall u | u in s.tasks ensures PassedForGood(Apply(s, e), s.tasks[u]) {
        assert PassedForGood(s, s.tasks[u]);
      }
    case Iterate(t) => IterateKeeps(s, t);
    case Readied(t, ok) =>
      var c := s.tasks[t].phase.conn;
      if ok { GotoKeeps(s, t, Done(c)); } else { PassOverKeeps(s, t, c); }
    case Dialed(t, ok) => GotoKeeps(s, t, if ok then Shaking else Over);
    case Shaken(t, c) => ShakenKeeps(s, t, c);
    case Release(t) => GiveUpKeeps(s, t, s.tasks[t].phase.conn);
    case Cancel(t) =>
      if s.tasks[t].phase.Readying? {
        GiveUpKeeps(s, t, s.tasks[t].phase.conn);
      } else {
        GotoKeeps(s, t, Over);
      }
    case CloseConn(_) =>
      forall t | t in s.tasks ensures PassedForGood(Apply(s, e), s.tasks[t]) {
        assert PassedForGood(s, s.tasks[t]);
      }
    case Background(op) => PoolStepKeeps(s, op);
  }

  lemma ShakenKeeps(s: State, t: TaskId, c: Option<Conn>)
    requires Inv(s) && Enabled(s, Shaken(t, c))
    ensures Inv(Apply(s, Shaken(t, c)))
  {
    if c == None {
      GotoKeeps(s, t, Over);
    } else {
      var op := PoolRun.Link(s.tasks[t].key, c.value);
      PoolStepKeeps(s, op);
      GotoKeeps(s.(pool := PoolRun.Apply(s.pool, op)), t, Done(c.value));
    }
  }

  lemma {:induction false} EveryRun(s: State, es: seq<Event>)
    requires Inv(s) && Legal(s, es)
    ensures Inv(Exec(s, es))
    decreases |es|
  {
    if es != [] {
      InvStep(s, es[0]);
      EveryRun(Apply(s, es[0]), es[1..]);
    }
  }

  /** The connections ever introduced under a key. */
  ghost function EverUnder(s: State, k: Key): set<Conn> {
    set c | c in s.pool.origin && s.pool.origin[c] == k
  }

  /** Whatever the other tasks do meanwhile, a task retries at most once per
      connection ever linked under its key, and none of the connections it passed
      over is idle or held by anyone. */
  lemma RetriesBounded(maxIdle: Option<nat>, es: seq<Event>, t: TaskId)
    requires Legal(Init(maxIdle), es) && t in Exec(Init(maxIdle), es).tasks
    ensures var s := Exec(Init(maxIdle), es);
            && s.tasks[t].retries <= |EverUnder(s, s.tasks[t].key)|
            && s.tasks[t].passed <= s.closed
            && s.tasks[t].passed !! IdleConns(s.pool.idle)
            && s.tasks[t].passed !! s.pool.held.Keys
  {
    EveryRun(Init(maxIdle), es);
    var s := Exec(Init(maxIdle), es);
    assert PassedForGood(s, s.tasks[t]);
    SubsetSize(s.tasks[t].passed, EverUnder(s, s.tasks[t].key));
  }

  // ---- What each step does, observed from outside ----

  /** The other tasks, and the queues of the other keys, stay as they are. */
  ghost predicate OnlyTask(s: State, s': State, t: TaskId) {
    && t in s.tasks && t in s'.tasks && s'.tasks[t].key == s.tasks[t].key && s'.closed == s.closed
    && (forall u :: u != t ==> (u in s'.tasks <==> u in s.tasks))
    && (forall u :: u != t && u in s.tasks ==> s'.tasks[u] == s.tasks[u])
    && (forall j :: j != s.tasks[t].key ==> QueueOf(s'.pool.idle, j) == QueueOf(s.pool.idle, j))
  }

  lemma PopFront(s: PoolRun.State, k: Key)
    requires PoolRun.OnePlace(s) && s.alive && s.idleDur == None
    ensures var q, s' := QueueOf(s.idle, k), PoolRun.Apply(s, PoolRun.Get(k));
            && PoolRun.Front(s, k) == (if q == [] then None else Some(q[0].conn))
            && (forall j :: j != k ==> QueueOf(s'.idle, j) == QueueOf(s.idle, j))
            && (q == [] ==> s' == s)
            && (q != [] ==> QueueOf(s'.idle, k) == q[1..] && s'.gone == s.gone && s'.held == s.held[q[0].conn := k]
                            && s'.alive && s'.idleDur == None)
  {
    PoolRun.GetMeans(s, k, 0);
    if k in s.idle && s.idle[k] == [] { assert s.idle[k := []] == s.idle; }
    assert ConnsOf([]) == {};
  }

  /** One turn of the loop: the task dials exactly if nothing of its key is idle;
      an open front connection is taken to be awaited, a closed one passed over. */
  lemma IterateMeans(s: State, t: TaskId)
    requires Inv(s) && Enabled(s, Iterate(t))
    ensures var k, s' := s.tasks[t].key, Apply(s, Iterate(t));
            var q, task := QueueOf(s.pool.idle, k), s'.tasks[t];
            && OnlyTask(s, s', t)
            && (task.phase == Dialing <==> q == [])
            && (q == [] ==> s'.pool == s.pool && task.passed == s.tasks[t].passed)
            && (q != [] ==> QueueOf(s'.pool.idle, k) == q[1..])
            && (q != [] && q[0].conn !in s.closed ==>
                  && task.phase == Readying(q[0].conn) && task.passed == s.tasks[t].passed
                  && q[0].conn in s'.pool.held && s'.pool.gone == s.pool.gone)
            && (q != [] && q[0].conn in s.closed ==>
                  && task.phase == Looping && task.passed == s.tasks[t].passed + {q[0].conn}
                  && q[0].conn !in s'.pool.held && s'.pool.gone == s.pool.gone + {q[0].conn})
  {
    PopFront(s.pool, s.tasks[t].key);
  }

  function Iterates(t: TaskId, n: nat): seq<Event> {
    if n == 0 then [] else [Iterate(t)] + Iterates(t, n - 1)
  }

  /** `n` is how many connections at the front of `q` are closed. */
  ghost predicate ClosedPrefix(q: Queue, closed: set<Conn>, n: nat) {
    && n <= |q| && (forall i :: 0 <= i < n ==> q[i].conn in closed)
    && (n < |q| ==> q[n].conn !in closed)
  }

  lemma ClosedPrefixOfRest(q: Queue, closed: set<Conn>, n: nat)
    requires ClosedPrefix(q, closed, n) && n > 0
    ensures ClosedPrefix(q[1..], closed, n - 1)
    ensures ConnsOf(q[..n]) == {q[0].conn} + ConnsOf(q[1..][..n - 1])
    ensures n < |q| ==> q[1..][n - 1] == q[n] && q[1..][n..] == q[n + 1..]
  {
    assert q[..n] == [q[0]] + q[1..][..n - 1];
    ConsConns(q[0], q[1..][..n - 1]);
  }

  /** From `s` to `s'` task `t` passed over the `n` connections at the front of
      its key's queue and took the next one, or dials if there is none. */
  ghost predicate PassedAndTook(s: State, s': State, t: TaskId, n: nat) {
    && OnlyTask(s, s', t)
    && var k := s.tasks[t].key;
       var q := QueueOf(s.pool.idle, k);
       && n <= |q|
       && s'.tasks[t].passed == s.tasks[t].passed + ConnsOf(q[..n])
       && (if n == |q| then s'.tasks[t].phase == Dialing && QueueOf(s'.pool.idle, k) == []
           else s'.tasks[t].phase == Readying(q[n].conn) && QueueOf(s'.pool.idle, k) == q[n + 1..])
  }

  lemma LastTurn(s: State, t: TaskId)
    requires Inv(s) && Enabled(s, Iterate(t))
    requires ClosedPrefix(QueueOf(s.pool.idle, s.tasks[t].key), s.closed, 0)
    ensures PassedAndTook(s, Apply(s, Iterate(t)), t, 0)
  {
    IterateMeans(s, t);
    assert QueueOf(s.pool.idle, s.tasks[t].key)[..0] == [] && ConnsOf([]) == {};
  }

  /** The step from one turn to the turns after it. */
  lemma OneMoreTurn(s: State, s1: State, s': State, t: TaskId, n: nat)
    requires OnlyTask(s, s1, t) && n > 0
    requires var q := QueueOf(s.pool.idle, s.tasks[t].key);
             && ClosedPrefix(q, s.closed, n) && QueueOf(s1.pool.idle, s.tasks[t].key) == q[1..]
             && s1.tasks[t].passed == s.tasks[t].passed + {q[0].conn}
    requires PassedAndTook(s1, s', t, n - 1)
    ensures PassedAndTook(s, s', t, n)
  {
    OnlyTaskOnwards(s, s1, s', t);
    ClosedPrefixOfRest(QueueOf(s.pool.idle, s.tasks[t].key), s.closed, n);
  }

  lemma OnlyTaskOnwards(s: State, s1: State, s': State, t: TaskId)
    requires OnlyTask(s, s1, t) && OnlyTask(s1, s', t)
    ensures OnlyTask(s, s', t)
  {
  }

  /** The turns of the loop between two awaits, in a run, do what `NextOpen` does
      in place: they pass over exactly the closed connections at the front, take
      the first open one, and dial if there is none. */
  lemma {:induction false} TurnsPassOverClosed(s: State, t: TaskId, n: nat)
    requires Inv(s) && Enabled(s, Iterate(t))
    requires ClosedPrefix(QueueOf(s.pool.idle, s.tasks[t].key), s.closed, n)
    ensures Legal(s, Iterates(t, n + 1)) && PassedAndTook(s, Exec(s, Iterates(t, n + 1)), t, n)
    decreases n
  {
    var s1 := Apply(s, Iterate(t));
    assert Iterates(t, n + 1)[0] == Iterate(t) && Iterates(t, n + 1)[1..] == Iterates(t, n);
    if n == 0 {
      LastTurn(s, t);
      assert Legal(s1, Iterates(t, 0)) && Exec(s1, Iterates(t, 0)) == s1;
    } else {
      NextTurn(s, t, n);
      TurnsPassOverClosed(s1, t, n - 1);
      OneMoreTurn(s, s1, Exec(s1, Iterates(t, n)), t, n);
    }
  }

  lemma NextTurn(s: State, t: TaskId, n: nat)
    requires Inv(s) && Enabled(s, Iterate(t)) && n > 0
    requires ClosedPrefix(QueueOf(s.pool.idle, s.tasks[t].key), s.closed, n)
    ensures var s1 := Apply(s, Iterate(t));
            && Inv(s1) && Enabled(s1, Iterate(t)) && OnlyTask(s, s1, t)
            && QueueOf(s1.pool.idle, s.tasks[t].key) == QueueOf(s.pool.idle, s.tasks[t].key)[1..]
            && s1.tasks[t].passed == s.tasks[t].passed + {QueueOf(s.pool.idle, s.tasks[t].key)[0].conn}
            && ClosedPrefix(QueueOf(s1.pool.idle, s1.tasks[t].key), s1.closed, n - 1)
  {
    IterateMeans(s, t);
    InvStep(s, Iterate(t));
    ClosedPrefixOfRest(QueueOf(s.pool.idle, s.tasks[t].key), s.closed, n);
  }

  /** `ready()` decides between returning the connection and another turn, and a
      dialed connection is linked and returned. */
  lemma TaskStepMeans(s: State, e: Event)
    requires Inv(s) && Enabled(s, e) && (e.Readied? || e.Dialed? || e.Shaken?)
    ensures var t, s' := e.t, Apply(s, e);
            && OnlyTask(s, s', t) && s'.pool.idle == s.pool.idle
            && (match e
                case Readied(_, ok) =>
                  var c := s.tasks[t].phase.conn;
                  if ok then s'.tasks[t].phase == Done(c) && s'.pool == s.pool
                  else s'.tasks[t].phase == Looping && c in s'.pool.gone && c in s'.tasks[t].passed && c !in s'.pool.held
                case Dialed(_, ok) => s'.tasks[t].phase == (if ok then Shaking else Over) && s'.pool == s.pool
                case Shaken(_, Some(c)) => s'.tasks[t].phase == Done(c) && s'.pool.held == s.pool.held[c := s.tasks[t].key]
                case Shaken(_, None) => s'.tasks[t].phase == Over && s'.pool == s.pool
                case _ => true)
  {
    if e.Readied? && !e.ok { PoolRun.DiscardMeans(s.pool, s.tasks[e.t].phase.conn, false); }
  }

  /** A handle let go joins the back of its queue if it is open, and is gone if
      it is closed. */
  ghost predicate HandleLetGo(s: State, s': State, t: TaskId, c: Conn)
    requires t in s.tasks
  {
    var q, q' := QueueOf(s.pool.idle, s.tasks[t].key), QueueOf(s'.pool.idle, s.tasks[t].key);
    && c !in s'.pool.held
    && (if c in s.closed then q' == q && c in s'.pool.gone
        else Newest(q, Idle(c, s.pool.now),
                    if |q| < s.pool.maxIdle then |q| + 1 else if s.pool.maxIdle == 0 then 1 else s.pool.maxIdle, q'))
  }

  lemma GiveUpMeans(s: State, t: TaskId, c: Conn)
    requires Inv(s) && t in s.tasks && c in s.pool.held && s.pool.held[c] == s.tasks[t].key
    ensures var s' := GiveUp(s, t, c);
            OnlyTask(s, s', t) && s'.tasks[t].phase == Over && HandleLetGo(s, s', t, c)
  {
    if c in s.closed { PoolRun.DiscardMeans(s.pool, c, false); } else { PoolRun.ReturnMeans(s.pool, c); }
  }

  /** So it is for a released handle and for a future dropped while it held one;
      other dropped futures leave no trace. */
  lemma LetGoMeans(s: State, e: Event)
    requires Inv(s) && Enabled(s, e) && (e.Release? || e.Cancel?)
    ensures var t, s' := e.t, Apply(s, e);
            && OnlyTask(s, s', t) && s'.tasks[t].phase == Over
            && (match Owned(s.tasks[t].phase)
                case None => s'.pool == s.pool
                case Some(c) => HandleLetGo(s, s', t, c))
  {
    match Owned(s.tasks[e.t].phase)
    case None =>
    case Some(c) => GiveUpMeans(s, e.t, c);
  }

  /** The environment is free: a suspended future may be dropped at any await,
      dials and handshakes may fail, `ready()` may succeed at any time and fail on a
      closed connection, and any connection may close. */
  lemma AnythingMayHappen(s: State, t: TaskId, ok: bool, c: Option<Conn>)
    requires Inv(s) && t in s.tasks && (c.Some? ==> c.value !in s.pool.origin)
    ensures var p := s.tasks[t].phase;
            && (p.Readying? || p.Dialing? || p.Shaking? ==> Enabled(s, Cancel(t)))
            && (p.Readying? ==> Enabled(s, Readied(t, true)) && (p.conn in s.closed ==> Enabled(s, Readied(t, false))))
            && (p.Dialing? ==> Enabled(s, Dialed(t, ok)))
            && (p.Shaking? ==> Enabled(s, Shaken(t, c)))
            && (p.Done? ==> Enabled(s, Release(t)))
    ensures forall x :: Enabled(s, CloseConn(x)) && Apply(s, CloseConn(x)) == s.(closed := s.closed + {x})
  {
    assert Owned(s.tasks[t].phase).Some? ==> Owned(s.tasks[t].phase).value in s.pool.held;
  }

  // ---- What a task saw of the connection it returns ----

  lemma {:induction false} LegalPrefix(s: State, es: seq<Event>, i: nat)
    requires Legal(s, es) && i <= |es|
    ensures Legal(s, es[..i])
    ensures i < |es| ==> Enabled(Exec(s, es[..i]), es[i]) && Legal(s, es[..i + 1])
                         && Exec(s, es[..i + 1]) == Apply(Exec(s, es[..i]), es[i])
    decreases |es|
  {
    if i == 0 {
      if es != [] { assert es[..1][1..] == []; assert Legal(Apply(s, es[0]), []); }
    } else {
      LegalPrefix(Apply(s, es[0]), es[1..], i - 1);
      assert es[..i][1..] == es[1..][..i - 1];
      if i < |es| { assert es[..i + 1][1..] == es[1..][..i]; }
    }
  }

  /** The state in which event `i` of a run happens. */
  function Before(s: State, es: seq<Event>, i: nat): State
    requires Legal(s, es) && i <= |es|
  {
    LegalPrefix(s, es, i);
    Exec(s, es[..i])
  }

  /** At event `i` task `t` takes `c` from its key's pool and sees it open. */
  ghost predicate PopsOpen(s: State, es: seq<Event>, t: TaskId, c: Conn, i: nat)
    requires Legal(s, es)
  {
    && i < |es| && es[i] == Iterate(t)
    && var b := Before(s, es, i);
       t in b.tasks && PoolRun.Front(b.pool, b.tasks[t].key) == Some(c) && c !in b.closed
  }

  /** Before event `j` task `t` awaits the `ready()` of `c`. */
  ghost predicate Awaits(s: State, es: seq<Event>, t: TaskId, c: Conn, j: nat)
    requires Legal(s, es)
  {
    j <= |es| && t in Before(s, es, j).tasks && Before(s, es, j).tasks[t].phase == Readying(c)
  }

  /** Task `t` took `c` at event `i`, saw it open, and awaited its `ready()` until
      that succeeded at event `j`. */
  ghost predicate TookReady(s: State, es: seq<Event>, t: TaskId, c: Conn, i: nat, j: nat)
    requires Legal(s, es)
  {
    && i < j < |es| && PopsOpen(s, es, t, c, i)
    && (forall x: nat :: i < x <= j ==> Awaits(s, es, t, c, x))
    && es[j] == Readied(t, true)
  }

  lemma DoneBy(s: State, e: Event, t: TaskId, c: Conn)
    requires Enabled(s, e) && t in Apply(s, e).tasks && Apply(s, e).tasks[t].phase == Done(c)
    requires t in s.tasks ==> s.tasks[t].phase != Done(c)
    ensures t in s.tasks
    ensures (e == Readied(t, true) && s.tasks[t].phase == Readying(c)) || e == Shaken(t, Some(c))
  {
  }

  lemma ReadyingBy(s: State, e: Event, t: TaskId, c: Conn)
    requires Enabled(s, e) && t in Apply(s, e).tasks && Apply(s, e).tasks[t].phase == Readying(c)
    ensures t in s.tasks
    ensures || s.tasks[t].phase == Readying(c)
            || (e == Iterate(t) && PoolRun.Front(s.pool, s.tasks[t].key) == Some(c) && c !in s.closed)
  {
  }

  /** Whoever awaits `ready()` took an open connection and has awaited since. */
  lemma {:induction false} AwaitsOpen(s: State, es: seq<Event>, t: TaskId, c: Conn, j: nat) returns (i: nat)
    requires Legal(s, es) && s.tasks == map[] && Awaits(s, es, t, c, j)
    ensures i < j && PopsOpen(s, es, t, c, i)
    ensures forall x: nat :: i < x <= j ==> Awaits(s, es, t, c, x)
    decreases j
  {
    assert j > 0 by { assert es[..0] == []; }
    i := j - 1;
    LegalPrefix(s, es, i);
    ReadyingBy(Before(s, es, i), es[i], t, c);
    if Before(s, es, i).tasks[t].phase == Readying(c) {
      i := AwaitsOpen(s, es, t, c, i);
    }
  }

  lemma {:induction false} DoneFrom(s: State, es: seq<Event>, t: TaskId, c: Conn, n: nat)
    requires Legal(s, es) && s.tasks == map[] && n <= |es|
    requires t in Before(s, es, n).tasks && Before(s, es, n).tasks[t].phase == Done(c)
    ensures Shaken(t, Some(c)) in es || exists i, j :: TookReady(s, es, t, c, i, j)
    decreases n
  {
    assert n > 0 by { assert es[..0] == []; }
    var j := n - 1;
    LegalPrefix(s, es, j);
    var b := Before(s, es, j);
    if t in b.tasks && b.tasks[t].phase == Done(c) {
      DoneFrom(s, es, t, c, j);
    } else {
      DoneBy(b, es[j], t, c);
      if es[j] == Readied(t, true) {
        var i := AwaitsOpen(s, es, t, c, j);
        assert TookReady(s, es, t, c, i, j);
      }
    }
  }

  /** In every run a task that returned a connection either dialed it, or took it
      from the pool, saw it open, awaited its `ready()` and had that succeed; and
      until it lets go it alone holds it. */
  lemma FinishesOpenOrNew(maxIdle: Option<nat>, es: seq<Event>, t: TaskId, c: Conn)
    requires Legal(Init(maxIdle), es)
    requires t in Exec(Init(maxIdle), es).tasks && Exec(Init(maxIdle), es).tasks[t].phase == Done(c)
    ensures Shaken(t, Some(c)) in es || exists i, j :: TookReady(Init(maxIdle), es, t, c, i, j)
    ensures var s := Exec(Init(maxIdle), es);
            && c in s.pool.held && s.pool.held[c] == s.tasks[t].key
            && c !in IdleConns(s.pool.idle) && OwnedOnlyBy(s, t, c)
  {
    assert es[..|es|] == es;
    DoneFrom(Init(maxIdle), es, t, c, |es|);
    EveryRun(Init(maxIdle), es);
    assert Owned(Exec(Init(maxIdle), es).tasks[t].phase) == Some(c);
  }
}
