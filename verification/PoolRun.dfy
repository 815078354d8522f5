/**
 Whole runs of a pool: any sequence of links, gets, puts, handle drops, sweeps,
 clock ticks and the drop of the pool itself.
 */
module PoolRun {
  import opened Pool

  /** `held` are the live handles, `gone` the connections dropped for good, and
      `origin` remembers every connection ever linked or put with its key. */
  datatype State = State(
    idle: Idles, maxIdle: nat, idleDur: Option<nat>,
    held: map<Conn, Key>, gone: set<Conn>, origin: map<Conn, Key>,
    alive: bool, now: Instant)

  datatype Event =
    | Link(key: Key, conn: Conn)
    | Get(key: Key)
    | Put(key: Key, conn: Conn)
    | Drop(conn: Conn, isOpen: bool)
    | Sweep(dur: nat)
    | Tick(to: Instant)
    | Close

  function Init(maxIdle: Option<nat>): State {
    State(map[], EffectiveMaxIdle(maxIdle), None, map[], {}, map[], true, 0)
  }

  predicate Enabled(s: State, e: Event) {
    match e
    case Link(_, c) => s.alive && c !in s.origin
    case Put(_, c) => s.alive && c !in s.origin
    case Get(_) => s.alive
    case Drop(c, _) => c in s.held
    case Sweep(_) => s.alive
    case Tick(to) => s.now <= to
    case Close => s.alive
  }

  /** What `Get` would hand out. */
  function Front(s: State, k: Key): Option<Conn> {
    var q := QueueOf(s.idle, k);
    var n := Stale(q, s.idleDur, s.now);
    if n == |q| then None else Some(q[n].conn)
  }

  /** One operation; what a queue loses without handing it out is gone. */
  function Apply(s: State, e: Event): State
    requires Enabled(s, e)
  {
    match e
    case Link(k, c) => s.(held := s.held[c := k], origin := s.origin[c := k])
    case Put(k, c) =>
      var q := QueueOf(s.idle, k);
      var n := EvictedByPut(|q|, s.maxIdle);
      s.(idle := s.idle[k := Tail(q, n) + [Idle(c, s.now)]],
         gone := s.gone + ConnsOf(q[..n]),
         origin := s.origin[c := k])
    case Get(k) =>
      if k !in s.idle then s
      else
        var q := s.idle[k];
        var n := Stale(q, s.idleDur, s.now);
        var s' := s.(gone := s.gone + ConnsOf(q[..n]));
        if n == |q| then s'.(idle := s.idle[k := []])
        else s'.(idle := s.idle[k := q[n + 1..]], held := s.held[q[n].conn := k])
    case Drop(c, isOpen) =>
      var k := s.held[c];
      var s' := s.(held := s.held - {c});
      if !isOpen || !s.alive then s'.(gone := s.gone + {c})
      else
        var q := QueueOf(s.idle, k);
        var n := EvictedByReturn(|q|, s.maxIdle);
        s'.(idle := s.idle[k := Tail(q, n) + [Idle(c, s.now)]],
            gone := s.gone + ConnsOf(q[..n]))
    case Sweep(dur) =>
      s.(idle := Swept(s.idle, dur, s.now),
         gone := s.gone + set k, i | k in s.idle && 0 <= i < |s.idle[k]|
                   && Expired(s.idle[k][i], dur, s.now) :: s.idle[k][i].conn)
    case Tick(to) => s.(now := to)
    case Close => s.(alive := false, idle := map[],
                     gone := s.gone + set k, i | k in s.idle && 0 <= i < |s.idle[k]| :: s.idle[k][i].conn)
  }

  predicate Legal(s: State, es: seq<Event>)
    decreases |es|
  {
    es == [] || (Enabled(s, es[0]) && Legal(Apply(s, es[0]), es[1..]))
  }

  function Exec(s: State, es: seq<Event>): State
    requires Legal(s, es)
    decreases |es|
  {
    if es == [] then s else Exec(Apply(s, es[0]), es[1..])
  }

  // ---- One place per connection ----

  ghost predicate QueuesOwn(s: State) {
    && (forall k, i :: k in s.idle && 0 <= i < |s.idle[k]| ==>
          s.idle[k][i].conn in s.origin && s.origin[s.idle[k][i].conn] == k)
    && (forall k :: k in s.idle ==> DistinctConns(s.idle[k]))
  }

  ghost predicate OnePlace(s: State) {
    && QueuesOwn(s)
    && (forall c :: c in s.held ==> c in s.origin && s.origin[c] == s.held[c])
    && s.held.Keys !! s.gone
    && IdleConns(s.idle) !! s.held.Keys
    && IdleConns(s.idle) !! s.gone
    && IdleConns(s.idle) + s.held.Keys + s.gone == s.origin.Keys
  }

  /** Replacing one queue replaces its connections and no others. */
  lemma ReplaceQueue(s: State, k: Key, q': Queue)
    requires QueuesOwn(s)
    ensures IdleConns(s.idle[k := q']) == (IdleConns(s.idle) - ConnsOf(QueueOf(s.idle, k))) + ConnsOf(q')
    ensures ConnsOf(QueueOf(s.idle, k)) <= IdleConns(s.idle)
  {
    var m, m' := s.idle, s.idle[k := q'];
    forall c | c in IdleConns(m) && c !in ConnsOf(QueueOf(m, k)) ensures c in IdleConns(m') {
      var k0, i :| k0 in m && 0 <= i < |m[k0]| && m[k0][i].conn == c;
      assert k0 in m' && m'[k0][i].conn == c;
    }
    forall c | c in ConnsOf(q') ensures c in IdleConns(m') {
      var i :| 0 <= i < |q'| && q'[i].conn == c;
      assert m'[k][i].conn == c;
    }
  }

  lemma SweepSplitsConns(s: State, dur: nat)
    requires QueuesOwn(s)
    ensures var lost := set k, i | k in s.idle && 0 <= i < |s.idle[k]|
                   && Expired(s.idle[k][i], dur, s.now) :: s.idle[k][i].conn;
            && IdleConns(s.idle) == IdleConns(Swept(s.idle, dur, s.now)) + lost
            && IdleConns(Swept(s.idle, dur, s.now)) !! lost
    ensures QueuesOwn(s.(idle := Swept(s.idle, dur, s.now)))
  {
    var m, m' := s.idle, Swept(s.idle, dur, s.now);
    forall k, i | k in m && 0 <= i < |m[k]| && !Expired(m[k][i], dur, s.now)
      ensures m[k][i].conn in IdleConns(m')
    {
      RetainedMembers(m[k], dur, s.now);
      var j :| 0 <= j < |Retained(m[k], dur, s.now)| && Retained(m[k], dur, s.now)[j] == m[k][i];
      assert m'[k][j].conn == m[k][i].conn;
    }
    forall k, j | k in m' && 0 <= j < |m'[k]|
      ensures exists i :: 0 <= i < |m[k]| && m[k][i] == m'[k][j] && !Expired(m[k][i], dur, s.now)
    {
      RetainedMembers(m[k], dur, s.now);
      assert m'[k][j] in m'[k];
    }
    forall k | k in m' ensures DistinctConns(m'[k]) {
      RetainedKeepsOrder(m[k], dur, s.now);
    }
  }

  /** Losing a prefix of one queue and appending a connection from outside. */
  lemma ShiftQueue(s: State, k: Key, n: nat, e: Idle)
    requires QueuesOwn(s) && e.conn !in IdleConns(s.idle) && n <= |QueueOf(s.idle, k)|
    ensures var q := QueueOf(s.idle, k);
            var m' := s.idle[k := Tail(q, n) + [e]];
            && ConnsOf(q[..n]) <= IdleConns(s.idle)
            && IdleConns(m') == IdleConns(s.idle) - ConnsOf(q[..n]) + {e.conn}
            && DistinctConns(m'[k])
  {
    var q := QueueOf(s.idle, k);
    ReplaceQueue(s, k, Tail(q, n) + [e]);
    assert e.conn !in ConnsOf(q);
    ShiftConns(q, n, e);
  }

  lemma InsertKeepsOnePlace(s: State, k: Key, n: nat, c: Conn, s': State)
    requires OnePlace(s) && c !in IdleConns(s.idle) && n <= |QueueOf(s.idle, k)|
    requires c !in s.gone && (c in s.origin ==> c in s.held)
    requires var q := QueueOf(s.idle, k);
             && s'.idle == s.idle[k := Tail(q, n) + [Idle(c, s.now)]]
             && s'.gone == s.gone + ConnsOf(q[..n])
             && s'.held == s.held - {c}
             && s'.origin == s.origin[c := k]
    ensures OnePlace(s')
  {
    ShiftQueue(s, k, n, Idle(c, s.now));
  }

  lemma ShrinkKeepsOnePlace(s: State, k: Key, n: nat, s': State)
    requires OnePlace(s) && k in s.idle && n <= |s.idle[k]|
    requires s'.idle == s.idle[k := s.idle[k][n..]] && s'.origin == s.origin
    requires s'.held.Keys !! s'.gone
    requires s'.held.Keys + s'.gone == s.held.Keys + s.gone + ConnsOf(s.idle[k][..n])
    requires forall c :: c in s'.held ==> c in s.origin && s.origin[c] == s'.held[c]
    ensures OnePlace(s')
  {
    SplitConns(s.idle[k], n);
    ReplaceQueue(s, k, s.idle[k][n..]);
  }

  lemma OneMoreConn(q: Queue, n: nat)
    requires n < |q| && DistinctConns(q)
    ensures ConnsOf(q[..n + 1]) == ConnsOf(q[..n]) + {q[n].conn}
    ensures q[n].conn !in ConnsOf(q[..n])
  {
    var r := q[..n + 1];
    assert forall i :: 0 <= i < n ==> r[i] == q[..n][i];
    assert r[n] == q[n];
  }

  /** The first `n` entries of a queue go and the next one is handed out. */
  lemma TakeKeepsOnePlace(s: State, k: Key, n: nat, s': State)
    requires OnePlace(s) && k in s.idle && n < |s.idle[k]|
    requires s'.idle == s.idle[k := s.idle[k][n + 1..]] && s'.origin == s.origin
    requires s'.held == s.held[s.idle[k][n].conn := k]
    requires s'.gone == s.gone + ConnsOf(s.idle[k][..n])
    ensures OnePlace(s')
  {
    var q := s.idle[k];
    OneMoreConn(q, n);
    assert ConnsOf(q) <= IdleConns(s.idle) && q[n].conn in ConnsOf(q);
    SplitConns(q, n);
    ShrinkKeepsOnePlace(s, k, n + 1, s');
  }

  lemma GetKeepsOnePlace(s: State, k: Key)
    requires OnePlace(s) && k in s.idle && s.alive
    ensures OnePlace(Apply(s, Get(k)))
  {
    var q, s' := s.idle[k], Apply(s, Get(k));
    var n := Stale(q, s.idleDur, s.now);
    if n == |q| {
      assert q[..n] == q && q[n..] == [];
      assert ConnsOf(q) <= IdleConns(s.idle);
      ShrinkKeepsOnePlace(s, k, n, s');
    } else {
      TakeKeepsOnePlace(s, k, n, s');
    }
  }

  lemma DropKeepsOnePlace(s: State, c: Conn, isOpen: bool)
    requires OnePlace(s) && c in s.held
    ensures OnePlace(Apply(s, Drop(c, isOpen)))
  {
    if isOpen && s.alive {
      var k := s.held[c];
      assert s.origin[c := k] == s.origin;
      InsertKeepsOnePlace(s, k, EvictedByReturn(|QueueOf(s.idle, k)|, s.maxIdle), c, Apply(s, Drop(c, isOpen)));
    }
  }

  lemma PutKeepsOnePlace(s: State, k: Key, c: Conn)
    requires OnePlace(s) && s.alive && c !in s.origin
    ensures OnePlace(Apply(s, Put(k, c)))
  {
    assert s.held - {c} == s.held;
    InsertKeepsOnePlace(s, k, EvictedByPut(|QueueOf(s.idle, k)|, s.maxIdle), c, Apply(s, Put(k, c)));
  }

  lemma SweepKeepsOnePlace(s: State, dur: nat)
    requires OnePlace(s) && s.alive
    ensures OnePlace(Apply(s, Sweep(dur)))
  {
    SweepSplitsConns(s, dur);
  }

  lemma CloseKeepsOnePlace(s: State)
    requires OnePlace(s) && s.alive
    ensures OnePlace(Apply(s, Close))
  {
    assert IdleConns(map[]) == {};
  }

  lemma OnePlaceStep(s: State, e: Event)
    requires OnePlace(s) && Enabled(s, e)
    ensures OnePlace(Apply(s, e))
  {
    match e
    case Link(_, _) =>
    case Put(k, c) => PutKeepsOnePlace(s, k, c);
    case Get(k) => if k in s.idle { GetKeepsOnePlace(s, k); }
    case Drop(c, isOpen) => DropKeepsOnePlace(s, c, isOpen);
    case Sweep(dur) => SweepKeepsOnePlace(s, dur);
    case Tick(_) =>
    case Close => CloseKeepsOnePlace(s);
  }

  /** In every run each connection is in one idle queue, in one live handle or
      gone, and never under a key it was not linked or put under. */
  lemma {:induction false} EveryRunOnePlace(s: State, es: seq<Event>)
    requires OnePlace(s) && Legal(s, es)
    ensures OnePlace(Exec(s, es))
    decreases |es|
  {
    if es != [] {
      OnePlaceStep(s, es[0]);
      EveryRunOnePlace(Apply(s, es[0]), es[1..]);
    }
  }

  /** What is handed out was introduced under the key asked for, and is no
      longer idle afterwards. */
  lemma GetHandsOutOwnKey(s: State, k: Key)
    requires OnePlace(s) && s.alive && Front(s, k).Some?
    ensures var c, s' := Front(s, k).value, Apply(s, Get(k));
            && c in IdleConns(s.idle) && c in s.origin && s.origin[c] == k
            && c in s'.held && c !in IdleConns(s'.idle) && c !in s.held
  {
    OnePlaceStep(s, Get(k));
    assert Front(s, k).value == s.idle[k][Stale(s.idle[k], s.idleDur, s.now)].conn;
  }

  lemma {:induction false} InjectiveImage(slots: set<(Key, int)>, m: Idles)
    requires slots <= Slots(m)
    requires forall a, b :: a in slots && b in slots && a != b ==> m[a.0][a.1].conn != m[b.0][b.1].conn
    ensures |set a | a in slots :: m[a.0][a.1].conn| == |slots|
  {
    if slots != {} {
      var a :| a in slots;
      InjectiveImage(slots - {a}, m);
      assert (set b | b in slots :: m[b.0][b.1].conn)
          == (set b | b in slots - {a} :: m[b.0][b.1].conn) + {m[a.0][a.1].conn};
    }
  }

  lemma IdleConnsAreSlots(s: State)
    requires QueuesOwn(s)
    ensures |IdleConns(s.idle)| == |Slots(s.idle)|
  {
    InjectiveImage(Slots(s.idle), s.idle);
    assert IdleConns(s.idle) == set a | a in Slots(s.idle) :: s.idle[a.0][a.1].conn by {
      forall k, i | k in s.idle && 0 <= i < |s.idle[k]|
        ensures s.idle[k][i].conn in set a | a in Slots(s.idle) :: s.idle[a.0][a.1].conn
      {
        assert (k, i) in Slots(s.idle);
      }
    }
  }

  /** linked + put = held + idle count + gone, in every run from a constructor. */
  lemma Conservation(maxIdle: Option<nat>, es: seq<Event>)
    requires Legal(Init(maxIdle), es)
    ensures var s := Exec(Init(maxIdle), es);
            |s.origin| == |s.held| + |Slots(s.idle)| + |s.gone|
  {
    EveryRunOnePlace(Init(maxIdle), es);
    var s := Exec(Init(maxIdle), es);
    IdleConnsAreSlots(s);
    assert |s.origin.Keys| == |IdleConns(s.idle) + s.held.Keys + s.gone|;
  }

  // ---- Order and capacity ----

  ghost predicate IdleOrder(s: State) {
    forall k :: k in s.idle ==> QueueInOrder(s.idle[k], s.now)
  }

  ghost predicate QueueInOrder(q: Queue, now: Instant) {
    Sorted(q) && forall i :: 0 <= i < |q| ==> q[i].idleAt <= now
  }

  lemma TailInOrder(q: Queue, n: nat, c: Conn, now: Instant)
    requires QueueInOrder(q, now) && n <= |q|
    ensures QueueInOrder(Tail(q, n), now) && QueueInOrder(Tail(q, n) + [Idle(c, now)], now)
  {
  }

  lemma RetainedInOrder(q: Queue, dur: nat, now: Instant)
    requires QueueInOrder(q, now)
    ensures QueueInOrder(Retained(q, dur, now), now)
  {
    RetainedKeepsOrder(q, dur, now);
    RetainedMembers(q, dur, now);
    var r := Retained(q, dur, now);
    forall i | 0 <= i < |r| ensures r[i].idleAt <= now {
      assert r[i] in r;
    }
  }

  lemma ReplaceKeepsOrder(s: State, k: Key, q: Queue, s': State)
    requires IdleOrder(s) && s'.idle == s.idle[k := q] && s'.now == s.now && QueueInOrder(q, s.now)
    ensures IdleOrder(s')
  {
  }

  lemma GetKeepsOrder(s: State, k: Key)
    requires IdleOrder(s) && s.alive && k in s.idle
    ensures IdleOrder(Apply(s, Get(k)))
  {
    var q := s.idle[k];
    var n := Stale(q, s.idleDur, s.now);
    if n < |q| { TailInOrder(q, n + 1, 0, s.now); }
    ReplaceKeepsOrder(s, k, if n == |q| then [] else q[n + 1..], Apply(s, Get(k)));
  }

  lemma InsertKeepsOrder(s: State, k: Key, n: nat, c: Conn, s': State)
    requires IdleOrder(s) && s'.now == s.now && n <= |QueueOf(s.idle, k)|
    requires s'.idle == s.idle[k := Tail(QueueOf(s.idle, k), n) + [Idle(c, s.now)]]
    ensures IdleOrder(s')
  {
    TailInOrder(QueueOf(s.idle, k), n, c, s.now);
    ReplaceKeepsOrder(s, k, Tail(QueueOf(s.idle, k), n) + [Idle(c, s.now)], s');
  }

  lemma IdleOrderStep(s: State, e: Event)
    requires IdleOrder(s) && Enabled(s, e)
    ensures IdleOrder(Apply(s, e))
  {
    match e
    case Link(_, _) =>
    case Put(k, c) =>
      InsertKeepsOrder(s, k, EvictedByPut(|QueueOf(s.idle, k)|, s.maxIdle), c, Apply(s, e));
    case Get(k) => if k in s.idle { GetKeepsOrder(s, k); }
    case Drop(c, isOpen) =>
      if isOpen && s.alive {
        InsertKeepsOrder(s, s.held[c], EvictedByReturn(|QueueOf(s.idle, s.held[c])|, s.maxIdle), c, Apply(s, e));
      }
    case Sweep(dur) =>
      forall k | k in s.idle ensures QueueInOrder(Retained(s.idle[k], dur, s.now), s.now) {
        RetainedInOrder(s.idle[k], dur, s.now);
      }
    case Tick(_) =>
    case Close =>
  }

  lemma {:induction false} EveryRunIdleOrder(s: State, es: seq<Event>)
    requires IdleOrder(s) && Legal(s, es)
    ensures IdleOrder(Exec(s, es))
    decreases |es|
  {
    if es != [] {
      IdleOrderStep(s, es[0]);
      EveryRunIdleOrder(Apply(s, es[0]), es[1..]);
    }
  }

  /** After any run: `get` hands out the longest-idle entry of the key, an
      overflow evicts only entries idle at least as long as every survivor, and
      the sweep's filter is a prefix drop. */
  lemma LongestIdleFirst(maxIdle: Option<nat>, es: seq<Event>, k: Key)
    requires Legal(Init(maxIdle), es)
    ensures var s := Exec(Init(maxIdle), es);
            var q := QueueOf(s.idle, k);
            && (q != [] ==> Front(s, k) == Some(q[0].conn) && forall i :: 0 <= i < |q| ==> q[0].idleAt <= q[i].idleAt)
            && (forall i, j :: 0 <= i < EvictedByPut(|q|, s.maxIdle) <= j < |q| ==> q[i].idleAt <= q[j].idleAt)
            && (forall i, j :: 0 <= i < EvictedByReturn(|q|, s.maxIdle) <= j < |q| ==> q[i].idleAt <= q[j].idleAt)
            && (forall dur :: Retained(q, dur, s.now) == q[Stale(q, Some(dur), s.now)..])
  {
    EveryRunIdleOrder(Init(maxIdle), es);
    SettingsNeverChange(Init(maxIdle), es);
    var s := Exec(Init(maxIdle), es);
    var q := QueueOf(s.idle, k);
    assert QueueInOrder(q, s.now);
    forall dur ensures Retained(q, dur, s.now) == q[Stale(q, Some(dur), s.now)..] {
      SweepOfSortedIsPrefixDrop(q, dur, s.now);
    }
  }

  lemma {:induction false} SettingsNeverChange(s: State, es: seq<Event>)
    requires Legal(s, es)
    ensures Exec(s, es).idleDur == s.idleDur && Exec(s, es).maxIdle == s.maxIdle
    decreases |es|
  {
    if es != [] {
      SettingsNeverChange(Apply(s, es[0]), es[1..]);
    }
  }

  /** The `get` of a build without timers: pop the front of the key's queue. */
  function SinglePop(s: State, k: Key): State {
    var q := QueueOf(s.idle, k);
    if q == [] then s else s.(idle := s.idle[k := q[1..]], held := s.held[q[0].conn := k])
  }

  /** In reachable states the looping `get` is that single pop: it never
      discards and never looks at an age. */
  lemma GetIsSinglePop(maxIdle: Option<nat>, es: seq<Event>, k: Key)
    requires Legal(Init(maxIdle), es) && Exec(Init(maxIdle), es).alive
    ensures var s := Exec(Init(maxIdle), es);
            var q := QueueOf(s.idle, k);
            && Apply(s, Get(k)) == SinglePop(s, k)
            && Front(s, k) == if q == [] then None else Some(q[0].conn)
  {
    SettingsNeverChange(Init(maxIdle), es);
    var s := Exec(Init(maxIdle), es);
    if k in s.idle && s.idle[k] == [] {
      assert s.idle[k := []] == s.idle;
    }
    assert ConnsOf([]) == {};
  }

  ghost predicate NoPut(es: seq<Event>) {
    forall e :: e in es ==> !e.Put?
  }

  ghost predicate Within(s: State, bound: nat) {
    forall k :: k in s.idle ==> |s.idle[k]| <= bound
  }

  /** With `put` in the run a queue can hold one more than the limit; without
      it the limit, or one when the limit is zero. */
  lemma {:induction false} EveryRunWithin(s: State, es: seq<Event>, bound: nat)
    requires Legal(s, es) && Within(s, bound)
    requires Max(1, s.maxIdle) <= bound
    requires bound == s.maxIdle + 1 || NoPut(es)
    ensures Within(Exec(s, es), bound)
    decreases |es|
  {
    if es != [] {
      WithinStep(s, es[0], bound);
      EveryRunWithin(Apply(s, es[0]), es[1..], bound);
    }
  }

  lemma WithinStep(s: State, e: Event, bound: nat)
    requires Enabled(s, e) && Within(s, bound) && Max(1, s.maxIdle) <= bound
    requires bound == s.maxIdle + 1 || !e.Put?
    ensures Within(Apply(s, e), bound)
  {
    match e
    case Sweep(dur) =>
      forall k | k in s.idle ensures |Retained(s.idle[k], dur, s.now)| <= |s.idle[k]| {
        RetainedMembers(s.idle[k], dur, s.now);
      }
    case _ =>
  }

  /** The limit of a pool built with `maxIdle`: 256 unless the caller says
      otherwise, and then the caller's, up to 16384. */
  ghost predicate LimitIs(maxIdle: Option<nat>, limit: nat) {
    match maxIdle
    case None => limit == 256
    case Some(n) => if n <= 16384 then limit == n else limit == 16384
  }

  lemma InitLimit(maxIdle: Option<nat>)
    ensures LimitIs(maxIdle, Init(maxIdle).maxIdle)
  {
  }

  /** In every run, in terms of the caller's limit: no queue exceeds it by more
      than one, and without `put` none exceeds it unless it is zero. */
  lemma CapacityOverRuns(maxIdle: Option<nat>, limit: nat, es: seq<Event>)
    requires Legal(Init(maxIdle), es) && LimitIs(maxIdle, limit)
    ensures var s := Exec(Init(maxIdle), es);
            && s.maxIdle == limit
            && (forall k :: |QueueOf(s.idle, k)| <= limit + 1)
            && (NoPut(es) ==> forall k :: |QueueOf(s.idle, k)| <= if limit == 0 then 1 else limit)
  {
    SettingsNeverChange(Init(maxIdle), es);
    InitLimit(maxIdle);
    var s0 := Init(maxIdle);
    EveryRunWithin(s0, es, limit + 1);
    if NoPut(es) {
      EveryRunWithin(s0, es, Max(1, limit));
    }
  }

  /** Whatever the queue held, a drop that re-inserts leaves at most the limit. */
  lemma ReturnLeavesAtMost(s: State, c: Conn)
    requires c in s.held && s.alive
    ensures var s' := Apply(s, Drop(c, true));
            1 <= |QueueOf(s'.idle, s.held[c])| <= Max(1, s.maxIdle)
  {
    var q := QueueOf(s.idle, s.held[c]);
    var kept := Tail(q, EvictedByReturn(|q|, s.maxIdle));
    assert |kept| <= Room(s.maxIdle);
    assert QueueOf(Apply(s, Drop(c, true)).idle, s.held[c]) == kept + [Idle(c, s.now)];
  }

  // ---- Exactly when the limit is exceeded ----

  /** A `put` leaves its queue above the limit exactly if the queue was at the
      limit, or the limit is zero. */
  lemma PutExceedsIff(s: State, k: Key, c: Conn)
    requires Enabled(s, Put(k, c))
    ensures var q := QueueOf(s.idle, k);
            |QueueOf(Apply(s, Put(k, c)).idle, k)| > s.maxIdle <==> |q| == s.maxIdle || s.maxIdle == 0
  {
  }

  /** A returning handle leaves its queue above the limit exactly if it is open
      and the limit is zero, or the queue was above the limit and is left alone. */
  lemma ReturnExceedsIff(s: State, c: Conn, isOpen: bool)
    requires Enabled(s, Drop(c, isOpen)) && s.alive
    ensures var k := s.held[c];
            |QueueOf(Apply(s, Drop(c, isOpen)).idle, k)| > s.maxIdle <==>
            if isOpen then s.maxIdle == 0 else |QueueOf(s.idle, k)| > s.maxIdle
  {
    if isOpen { ReturnLeavesAtMost(s, c); }
  }

  /** All runs stay within the limit exactly if they use no `put` and the caller
      did not ask for a limit of zero. */
  lemma WithinLimitIff(maxIdle: Option<nat>, k: Key, puts: bool)
    ensures (forall es :: Legal(Init(maxIdle), es) && (puts || NoPut(es)) ==>
                Within(Exec(Init(maxIdle), es), Init(maxIdle).maxIdle))
       <==> (!puts && maxIdle != Some(0))
  {
    var s0 := Init(maxIdle);
    InitLimit(maxIdle);
    if !puts && maxIdle != Some(0) {
      forall es | Legal(s0, es) && NoPut(es) ensures Within(Exec(s0, es), s0.maxIdle) {
        EveryRunWithin(s0, es, s0.maxIdle);
      }
    } else {
      var es: seq<Event>;
      if puts { es := PutsFill(s0, k, 0, s0.maxIdle + 1); } else { es := ReturnsFill(s0, k, 0, 1); }
      assert |QueueOf(Exec(s0, es).idle, k)| > s0.maxIdle;
    }
  }

  // ---- Both bounds are reached ----

  lemma PutAddsOne(s: State, k: Key, c: Conn)
    requires s.alive && c !in s.origin && |QueueOf(s.idle, k)| <= s.maxIdle
    ensures var s' := Apply(s, Put(k, c));
            && |QueueOf(s'.idle, k)| == |QueueOf(s.idle, k)| + 1
            && s'.alive && s'.maxIdle == s.maxIdle && s'.origin == s.origin[c := k]
  {
  }

  lemma LegalCons(s: State, e: Event, es: seq<Event>)
    requires Enabled(s, e) && Legal(Apply(s, e), es)
    ensures Legal(s, [e] + es) && Exec(s, [e] + es) == Exec(Apply(s, e), es)
  {
    assert ([e] + es)[1..] == es;
  }

  lemma {:induction false} PutsFill(s: State, k: Key, first: Conn, n: nat) returns (es: seq<Event>)
    requires s.alive && (forall c :: c in s.origin ==> c < first)
    requires |QueueOf(s.idle, k)| + n <= s.maxIdle + 1
    ensures Legal(s, es) && |QueueOf(Exec(s, es).idle, k)| == |QueueOf(s.idle, k)| + n
    decreases n
  {
    es := [];
    if n != 0 {
      PutAddsOne(s, k, first);
      es := PutsFill(Apply(s, Put(k, first)), k, first + 1, n - 1);
      LegalCons(s, Put(k, first), es);
      es := [Put(k, first)] + es;
    }
  }

  /** The bound with `put` is exact for every limit. */
  lemma PutReachesOneOver(maxIdle: Option<nat>, limit: nat, k: Key)
    requires LimitIs(maxIdle, limit)
    ensures exists es :: Legal(Init(maxIdle), es) && |QueueOf(Exec(Init(maxIdle), es).idle, k)| == limit + 1
  {
    InitLimit(maxIdle);
    var es := PutsFill(Init(maxIdle), k, 0, limit + 1);
  }

  /** A connection is linked and its handle dropped. */
  lemma ReturnAddsOne(s: State, k: Key, c: Conn) returns (s': State)
    requires s.alive && c !in s.origin && |QueueOf(s.idle, k)| < Max(1, s.maxIdle)
    ensures Enabled(s, Link(k, c)) && Enabled(Apply(s, Link(k, c)), Drop(c, true))
    ensures s' == Apply(Apply(s, Link(k, c)), Drop(c, true))
    ensures |QueueOf(s'.idle, k)| == |QueueOf(s.idle, k)| + 1
    ensures s'.alive && s'.maxIdle == s.maxIdle && s'.origin == s.origin[c := k]
  {
    s' := Apply(Apply(s, Link(k, c)), Drop(c, true));
  }

  lemma {:induction false} ReturnsFill(s: State, k: Key, first: Conn, n: nat) returns (es: seq<Event>)
    requires s.alive && (forall c :: c in s.origin ==> c < first)
    requires |QueueOf(s.idle, k)| + n <= Max(1, s.maxIdle)
    ensures Legal(s, es) && NoPut(es) && |QueueOf(Exec(s, es).idle, k)| == |QueueOf(s.idle, k)| + n
    decreases n
  {
    es := [];
    if n != 0 {
      var s' := ReturnAddsOne(s, k, first);
      es := ReturnsFill(s', k, first + 1, n - 1);
      LegalCons(Apply(s, Link(k, first)), Drop(first, true), es);
      es := [Drop(first, true)] + es;
      LegalCons(s, Link(k, first), es);
      es := [Link(k, first)] + es;
    }
  }

  /** The bound without `put` is exact for every limit. */
  lemma ReturnsReachLimit(maxIdle: Option<nat>, limit: nat, k: Key)
    requires LimitIs(maxIdle, limit)
    ensures exists es :: Legal(Init(maxIdle), es) && NoPut(es)
              && |QueueOf(Exec(Init(maxIdle), es).idle, k)| == if limit == 0 then 1 else limit
  {
    InitLimit(maxIdle);
    var es := ReturnsFill(Init(maxIdle), k, 0, Max(1, limit));
  }

  // ---- What each operation does, observed from outside ----

  /** Nothing but the queue of `k` and the whereabouts of connections changes. */
  ghost predicate OnlyKey(s: State, s': State, k: Key) {
    && (forall j :: j != k ==> QueueOf(s'.idle, j) == QueueOf(s.idle, j))
    && s'.alive == s.alive && s'.now == s.now && s'.maxIdle == s.maxIdle && s'.idleDur == s.idleDur
  }

  /** A linked connection is held under its key, and nothing becomes idle. */
  lemma LinkMeans(s: State, k: Key, c: Conn)
    requires Enabled(s, Link(k, c))
    ensures var s' := Apply(s, Link(k, c));
            && s'.held == s.held[c := k] && s'.origin == s.origin[c := k] && s'.gone == s.gone
            && s'.idle == s.idle && OnlyKey(s, s', k)
  {
  }

  /** Whatever the idle duration, a get discards what is too old at the front and
      hands out the entry after that. */
  lemma GetMeans(s: State, k: Key, n: nat)
    requires Enabled(s, Get(k)) && TooOld(QueueOf(s.idle, k), s.idleDur, s.now, n)
    ensures var q, s' := QueueOf(s.idle, k), Apply(s, Get(k));
            && s'.gone == s.gone + ConnsOf(q[..n]) && s'.origin == s.origin && OnlyKey(s, s', k)
            && if n == |q| then Front(s, k) == None && QueueOf(s'.idle, k) == [] && s'.held == s.held
               else Front(s, k) == Some(q[n].conn) && QueueOf(s'.idle, k) == q[n + 1..]
                    && s'.held == s.held[q[n].conn := k]
  {
    StaleIff(QueueOf(s.idle, k), s.idleDur, s.now, n);
  }

  /** A handle dropped open joins the back of its queue; what the limit has no
      room for leaves at the front, one entry if the queue was just full. */
  lemma ReturnMeans(s: State, c: Conn)
    requires c in s.held && s.alive
    ensures var k, s' := s.held[c], Apply(s, Drop(c, true));
            var q, q' := QueueOf(s.idle, k), QueueOf(s'.idle, k);
            && Newest(q, Idle(c, s.now), if |q| < s.maxIdle then |q| + 1 else if s.maxIdle == 0 then 1 else s.maxIdle, q')
            && s'.held == s.held - {c} && s'.origin == s.origin
            && s'.gone == s.gone + ConnsOf(q[..|q| + 1 - |q'|])
            && OnlyKey(s, s', k)
  {
  }

  /** A handle dropped closed, or after its pool, is gone and nothing else is. */
  lemma DiscardMeans(s: State, c: Conn, isOpen: bool)
    requires c in s.held && !(isOpen && s.alive)
    ensures var s' := Apply(s, Drop(c, isOpen));
            && s'.idle == s.idle && s'.held == s.held - {c} && s'.gone == s.gone + {c}
            && s'.origin == s.origin && OnlyKey(s, s', s.held[c])
  {
  }

  /** A put connection joins the back; old ones leave only if there were more
      than the limit already. */
  lemma PutMeans(s: State, k: Key, c: Conn)
    requires Enabled(s, Put(k, c))
    ensures var s' := Apply(s, Put(k, c));
            var q, q' := QueueOf(s.idle, k), QueueOf(s'.idle, k);
            && Newest(q, Idle(c, s.now), if |q| <= s.maxIdle then |q| + 1 else if s.maxIdle == 0 then 1 else s.maxIdle, q')
            && s'.held == s.held && s'.origin == s.origin[c := k]
            && s'.gone == s.gone + ConnsOf(q[..|q| + 1 - |q'|])
            && OnlyKey(s, s', k)
  {
  }

  /** After any run a sweep splits every queue into a prefix of entries idle for
      longer than `dur`, which are gone, and the rest, which stays in place; keys
      with nothing left go too. */
  lemma SweepMeans(maxIdle: Option<nat>, es: seq<Event>, dur: nat, k: Key)
    requires Legal(Init(maxIdle), es) && Exec(Init(maxIdle), es).alive
    ensures var s := Exec(Init(maxIdle), es);
            var q, s' := QueueOf(s.idle, k), Apply(s, Sweep(dur));
            var q' := QueueOf(s'.idle, k);
            && |q'| <= |q| && q' == q[|q| - |q'|..]
            && (forall i :: 0 <= i < |q| ==> (s.now > q[i].idleAt + dur <==> i < |q| - |q'|))
            && (k in s'.idle <==> q' != [])
            && ConnsOf(q[..|q| - |q'|]) <= s'.gone && s.gone <= s'.gone
            && s'.held == s.held && s'.origin == s.origin
  {
    EveryRunIdleOrder(Init(maxIdle), es);
    var s := Exec(Init(maxIdle), es);
    var q := QueueOf(s.idle, k);
    assert QueueInOrder(q, s.now);
    SweepOfSortedIsPrefixDrop(q, dur, s.now);
    var n := Stale(q, Some(dur), s.now);
    forall i | 0 <= i < |q| ensures s.now > q[i].idleAt + dur <==> i < n {
      if n <= i { assert q[n].idleAt <= q[i].idleAt; }
    }
    assert q[..n] == q[..|q| - |q[n..]|];
    forall i | 0 <= i < n ensures q[..n][i].conn in Apply(s, Sweep(dur)).gone {
      assert Expired(s.idle[k][i], dur, s.now);
    }
  }

  /** When the pool itself goes, so do the idle connections, but no handle. */
  lemma CloseMeans(s: State)
    requires Enabled(s, Close)
    ensures var s' := Apply(s, Close);
            && !s'.alive && IdleConns(s'.idle) == {} && s'.gone == s.gone + IdleConns(s.idle)
            && s'.held == s.held && s'.origin == s.origin
  {
  }
}
