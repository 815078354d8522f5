/**
 The bound on pooled connections of the Hyper HTTP/2 connector is reached, for
 every limit on senders, every number of handles and every limit of the pool.
 */
module HyperH2Tight {
  import opened Pool
  import opened ConnectTasks
  import opened HyperH2

  /** `s` is reached from `s0` with at most `n` handles of `k` outstanding
      throughout. */
  ghost predicate ReachesWithin(s0: State, s: State, k: Key, n: nat) {
    exists es :: Legal(s0, es) && AlwaysAtMost(s0, es, k, n) && Exec(s0, es) == s
  }

  lemma {:induction false} AppendWithin(s0: State, es: seq<Event>, e: Event, k: Key, n: nat)
    requires Legal(s0, es) && AlwaysAtMost(s0, es, k, n) && Enabled(Exec(s0, es), e)
    requires |Outstanding(Apply(Exec(s0, es), e), k)| <= n
    ensures Legal(s0, es + [e]) && AlwaysAtMost(s0, es + [e], k, n)
    ensures Exec(s0, es + [e]) == Apply(Exec(s0, es), e)
    decreases |es|
  {
    if es == [] {
      assert [] + [e] == [e] && [e][1..] == [];
      assert Legal(Apply(s0, e), []);
    } else {
      assert (es + [e])[0] == es[0] && (es + [e])[1..] == es[1..] + [e];
      AppendWithin(Apply(s0, es[0]), es[1..], e, k, n);
    }
  }

  lemma StepWithin(s0: State, s: State, e: Event, k: Key, n: nat)
    requires ReachesWithin(s0, s, k, n) && Enabled(s, e) && |Outstanding(Apply(s, e), k)| <= n
    ensures ReachesWithin(s0, Apply(s, e), k, n)
  {
    var es :| Legal(s0, es) && AlwaysAtMost(s0, es, k, n) && Exec(s0, es) == s;
    AppendWithin(s0, es, e, k, n);
  }

  /** Pool, counts and handles agree; only tasks, locks and books differ. */
  ghost predicate SameStock(s: State, s': State) {
    && s'.desk.pool == s.desk.pool && s'.desk.dead == s.desk.dead && s'.strong == s.strong
    && s'.live == s.live && s'.home == s.home && s'.limit == s.limit && s'.maxIdle == s.maxIdle
  }

  /** The first `l` pooled connections of `k` have no room for another sender. */
  ghost predicate FullUpTo(s: State, k: Key, l: nat) {
    && l <= |QueueOf(s.desk.pool, k)|
    && forall i :: 0 <= i < l ==> StreamFull(s.strong, s.limit, QueueOf(s.desk.pool, k)[i].conn)
  }

  /** No task holds the lock of `k`, and nothing is dead. */
  ghost predicate Quiet(s: State, k: Key, m: nat) {
    s.limit == Some(m) && m >= 2 && s.desk.dead == {} && Permits(s.desk.core, k) == 1 && Counts(s)
  }

  /** `l` connections of `k`, all full, with no handles but theirs. */
  ghost predicate Ripe(s: State, k: Key, m: nat, l: nat) {
    && Quiet(s, k, m) && |QueueOf(s.desk.pool, k)| == l
    && FullUpTo(s, k, l) && |Outstanding(s, k)| <= l * (m - 1)
  }

  /** `l` full connections and a last one with `j` senders. */
  ghost predicate Filling(s: State, k: Key, m: nat, l: nat, j: nat) {
    && Quiet(s, k, m) && |QueueOf(s.desk.pool, k)| == l + 1
    && FullUpTo(s, k, l) && |Outstanding(s, k)| <= l * (m - 1) + j
    && StrongOf(s.strong, QueueOf(s.desk.pool, k)[l].conn) == j + 1 && 1 <= j < m
  }

  lemma {:induction false} NoneDead(q: Queue)
    ensures Living(q, {}) == q && Purged(q, {}) == []
  {
    if q != [] {
      NoneDead(q[1..]);
      assert q == [q[0]] + q[1..];
    }
  }

  /** With nothing dead `retain` changes no stock. */
  lemma IdleRetain(s: State, k: Key)
    requires s.desk.dead == {}
    ensures SameStock(s, Retain(s, k)) && Retain(s, k).desk.core == s.desk.core
  {
    NoneDead(QueueOf(s.desk.pool, k));
    if k in s.desk.pool {
      assert s.desk.pool[k := s.desk.pool[k]] == s.desk.pool;
      assert Unpooled(s.strong, ConnsOf(s.desk.pool[k]) * {}) == s.strong;
    }
  }

  lemma SameOutstanding(s: State, s': State, k: Key)
    requires SameStock(s, s')
    ensures Outstanding(s', k) == Outstanding(s, k)
  {
  }

  lemma SpawnOne(s0: State, s: State, k: Key, n: nat) returns (s': State, t: TaskId)
    requires ReachesWithin(s0, s, k, n) && |Outstanding(s, k)| <= n
    ensures ReachesWithin(s0, s', k, n) && SameStock(s, s') && s'.desk.core.locks == s.desk.core.locks
    ensures At(s'.desk.core, t, Start) && s'.desk.core.tasks[t].key == k
  {
    t := UpperBound(s.desk.core.tasks.Keys);
    s' := Apply(s, Spawn(t, k));
    SameOutstanding(s, s', k);
    StepWithin(s0, s, Spawn(t, k), k, n);
  }

  /** A further task finds everything full and gets as far as its handshake. */
  lemma Prepare(s0: State, s: State, k: Key, m: nat, l: nat, n: nat) returns (s': State, t: TaskId)
    requires ReachesWithin(s0, s, k, n) && Ripe(s, k, m, l) && l * (m - 1) <= n
    ensures ReachesWithin(s0, s', k, n) && SameStock(s, s')
    ensures At(s'.desk.core, t, Shaking) && s'.desk.core.tasks[t].key == k && Permits(s'.desk.core, k) == 0
  {
    var s1;
    s1, t := SpawnOne(s0, s, k, n);
    var h := UpperBound(s.live.Keys);
    IdleRetain(s1, k);
    var s2 := Apply(s1, Begin(t, h, 0));
    assert At(s2.desk.core, t, Waiting) && SameStock(s, s2) && Permits(s2.desk.core, k) == 1;
    SameOutstanding(s, s2, k);
    StepWithin(s0, s1, Begin(t, h, 0), k, n);
    s' := PrepareLocked(s0, s2, k, t, h, n);
  }

  lemma PrepareLocked(s0: State, s: State, k: Key, t: TaskId, h: HandleId, n: nat) returns (s': State)
    requires ReachesWithin(s0, s, k, n) && |Outstanding(s, k)| <= n && h !in s.live
    requires s.desk.dead == {} && FullUpTo(s, k, |QueueOf(s.desk.pool, k)|)
    requires At(s.desk.core, t, Waiting) && s.desk.core.tasks[t].key == k && Permits(s.desk.core, k) == 1
    ensures ReachesWithin(s0, s', k, n) && SameStock(s, s')
    ensures At(s'.desk.core, t, Shaking) && s'.desk.core.tasks[t].key == k && Permits(s'.desk.core, k) == 0
  {
    var s1 := Apply(s, Acquire(t));
    SameOutstanding(s, s1, k);
    StepWithin(s0, s, Acquire(t), k, n);
    IdleRetain(s1, k);
    var s2 := Apply(s1, Recheck(t, h, 0));
    assert At(s2.desk.core, t, LockedDial) && SameStock(s, s2) && Permits(s2.desk.core, k) == 0;
    SameOutstanding(s, s2, k);
    StepWithin(s0, s1, Recheck(t, h, 0), k, n);
    s' := Apply(s2, DialOk(t));
    SameOutstanding(s, s', k);
    StepWithin(s0, s2, DialOk(t), k, n);
  }

  /** A completed handshake adds one connection at the back and one handle, if
      the queue is not above its limit. */
  lemma Landed(s: State, k: Key, t: TaskId, c: Conn, h: HandleId)
    requires Counts(s) && At(s.desk.core, t, Shaking) && s.desk.core.tasks[t].key == k
    requires c !in s.home && h !in s.live && |QueueOf(s.desk.pool, k)| <= s.maxIdle
    ensures var s' := PutNew(s, t, c, h, 0);
            && QueueOf(s'.desk.pool, k) == QueueOf(s.desk.pool, k) + [Idle(c, 0)]
            && (forall c0 :: c0 != c ==> StrongOf(s'.strong, c0) == StrongOf(s.strong, c0))
            && StrongOf(s'.strong, c) == 2
            && |Outstanding(s', k)| <= |Outstanding(s, k)| + 1
  {
    var s' := PutNew(s, t, c, h, 0);
    assert ConnOk(s, c);
    forall h0 | h0 in Outstanding(s', k) ensures h0 in Outstanding(s, k) + {h} {
      assert h0 == h || h0 !in HandlesOf(s, c);
    }
    SubsetSize(Outstanding(s', k), Outstanding(s, k) + {h});
  }

  /** The connections already there stay full. */
  lemma StillFull(s: State, s': State, k: Key, c: Conn, e: Idle)
    requires FullUpTo(s, k, |QueueOf(s.desk.pool, k)|) && s'.limit == s.limit
    requires QueueOf(s'.desk.pool, k) == QueueOf(s.desk.pool, k) + [e]
    requires forall c0 :: c0 != c ==> StrongOf(s'.strong, c0) == StrongOf(s.strong, c0)
    requires c !in ConnsOf(QueueOf(s.desk.pool, k))
    ensures FullUpTo(s', k, |QueueOf(s.desk.pool, k)|)
  {
    var q := QueueOf(s.desk.pool, k);
    forall i | 0 <= i < |q| ensures StreamFull(s'.strong, s'.limit, QueueOf(s'.desk.pool, k)[i].conn) {
      assert q[i].conn in ConnsOf(q);
    }
  }

  lemma Complete(s0: State, s: State, k: Key, n: nat, t: TaskId) returns (s': State, c: Conn)
    requires ReachesWithin(s0, s, k, n) && |Outstanding(s, k)| < n && Counts(s)
    requires At(s.desk.core, t, Shaking) && s.desk.core.tasks[t].key == k && Permits(s.desk.core, k) == 0
    requires |QueueOf(s.desk.pool, k)| <= s.maxIdle
    ensures ReachesWithin(s0, s', k, n) && Counts(s') && s'.maxIdle == s.maxIdle && s'.limit == s.limit
    ensures s'.desk.dead == s.desk.dead && Permits(s'.desk.core, k) == 1
    ensures QueueOf(s'.desk.pool, k) == QueueOf(s.desk.pool, k) + [Idle(c, 0)]
    ensures forall c0 :: c0 != c ==> StrongOf(s'.strong, c0) == StrongOf(s.strong, c0)
    ensures StrongOf(s'.strong, c) == 2 && c !in ConnsOf(QueueOf(s.desk.pool, k))
    ensures |Outstanding(s', k)| <= |Outstanding(s, k)| + 1
  {
    var h := UpperBound(s.live.Keys);
    c := UpperBound(s.home.Keys);
    s' := PutNew(s, t, c, h, 0);
    PutKeepsCounts(s, t, c, h, 0);
    Landed(s, k, t, c, h);
    assert QueueOk(s, k);
    StepWithin(s0, s, Shaken(t, c, h, 0), k, n);
  }

  /** One more caller is served by the last connection. */
  lemma FillOne(s0: State, s: State, k: Key, m: nat, l: nat, j: nat, n: nat) returns (s': State)
    requires ReachesWithin(s0, s, k, n) && Filling(s, k, m, l, j) && j + 1 < m && l * (m - 1) + j + 1 <= n
    ensures ReachesWithin(s0, s', k, n) && Filling(s', k, m, l, j + 1) && s'.maxIdle == s.maxIdle
  {
    var s1, t := SpawnOne(s0, s, k, n);
    var h := UpperBound(s.live.Keys);
    SameCounts(s, s1);
    SameOutstanding(s, s1, k);
    FillStep(s1, k, m, l, j, t, h);
    s' := Apply(s1, Begin(t, h, 0));
    StepWithin(s0, s1, Begin(t, h, 0), k, n);
  }

  lemma FillStep(s: State, k: Key, m: nat, l: nat, j: nat, t: TaskId, h: HandleId)
    requires Filling(s, k, m, l, j) && j + 1 < m
    requires At(s.desk.core, t, Start) && s.desk.core.tasks[t].key == k && h !in s.live
    ensures Filling(BeginTask(s, t, h, 0), k, m, l, j + 1) && BeginTask(s, t, h, 0).maxIdle == s.maxIdle
  {
    var s1 := Retain(s, k);
    IdleRetain(s, k);
    SameCounts(s, s1);
    SameOutstanding(s, s1, k);
    assert Fit(s1, k) == l;
    ServedLast(s1, k, l, t, h);
    ServedKeepsCounts(s1, t, h, 0);
  }

  lemma ServedLast(s: State, k: Key, l: nat, t: TaskId, h: HandleId)
    requires Counts(s) && At(s.desk.core, t, Start) && s.desk.core.tasks[t].key == k && h !in s.live
    requires |QueueOf(s.desk.pool, k)| == l + 1 && Fit(s, k) == l
    ensures var s' := Served(s, t, h, 0);
            && |QueueOf(s'.desk.pool, k)| == l + 1 && FullUpTo(s', k, l)
            && Permits(s'.desk.core, k) == Permits(s.desk.core, k)
            && |Outstanding(s', k)| <= |Outstanding(s, k)| + 1
            && StrongOf(s'.strong, QueueOf(s'.desk.pool, k)[l].conn) == StrongOf(s.strong, QueueOf(s.desk.pool, k)[l].conn) + 1
  {
    var s', q := Served(s, t, h, 0), QueueOf(s.desk.pool, k);
    assert QueueOk(s, k);
    assert Outstanding(s', k) <= Outstanding(s, k) + {h};
    SubsetSize(Outstanding(s', k), Outstanding(s, k) + {h});
    var q' := QueueOf(s'.desk.pool, k);
    forall i | 0 <= i < l ensures StreamFull(s'.strong, s'.limit, q'[i].conn) {
      assert q'[i] == q[i] && q[i].conn != q[l].conn;
    }
  }

  lemma {:induction false} FillUp(s0: State, s: State, k: Key, m: nat, l: nat, j: nat, n: nat) returns (s': State)
    requires ReachesWithin(s0, s, k, n) && Filling(s, k, m, l, j) && (l + 1) * (m - 1) <= n
    ensures ReachesWithin(s0, s', k, n) && Ripe(s', k, m, l + 1) && s'.maxIdle == s.maxIdle
    decreases m - j
  {
    OneMoreTimes(l, m - 1);
    if j == m - 1 {
      s' := s;
    } else {
      var s1 := FillOne(s0, s, k, m, l, j, n);
      s' := FillUp(s0, s1, k, m, l, j + 1, n);
    }
  }

  /** From `l` full connections to one more. */
  lemma GrowOne(s0: State, s: State, k: Key, m: nat, l: nat, n: nat) returns (s': State)
    requires ReachesWithin(s0, s, k, n) && Ripe(s, k, m, l) && (l + 1) * (m - 1) <= n && l <= s.maxIdle
    ensures ReachesWithin(s0, s', k, n) && Ripe(s', k, m, l + 1) && s'.maxIdle == s.maxIdle
  {
    OneMoreTimes(l, m - 1);
    var s1, t := Prepare(s0, s, k, m, l, n);
    SameCounts(s, s1);
    SameOutstanding(s, s1, k);
    var s2, c := Complete(s0, s1, k, n, t);
    StillFull(s1, s2, k, c, Idle(c, 0));
    s' := FillUp(s0, s2, k, m, l, 1, n);
  }

  lemma {:induction false} Grow(s0: State, k: Key, m: nat, l: nat, n: nat) returns (s: State)
    requires ReachesWithin(s0, s0, k, n) && Ripe(s0, k, m, 0) && l * (m - 1) <= n && l <= s0.maxIdle
    ensures ReachesWithin(s0, s, k, n) && Ripe(s, k, m, l) && s.maxIdle == s0.maxIdle
    decreases l
  {
    if l == 0 {
      s := s0;
    } else {
      TimesMonotone(l - 1, l, m - 1);
      var s1 := Grow(s0, k, m, l - 1, n);
      s := GrowOne(s0, s1, k, m, l - 1, n);
    }
  }

  /** Dropping a handle while the next connection is under way makes room in the
      count of handles, but the connection is pooled all the same. */
  lemma LetGo(s0: State, s: State, k: Key, n: nat) returns (s': State)
    requires ReachesWithin(s0, s, k, n) && Counts(s) && 1 <= n && |Outstanding(s, k)| <= n
    ensures ReachesWithin(s0, s', k, n) && Counts(s') && |Outstanding(s', k)| < n
    ensures s'.desk == s.desk && s'.limit == s.limit && s'.maxIdle == s.maxIdle
  {
    if |Outstanding(s, k)| < n {
      s' := s;
    } else {
      var h :| h in Outstanding(s, k);
      s' := Apply(s, DropHandle(h));
      CountsStep(s, DropHandle(h));
      assert Outstanding(s', k) == Outstanding(s, k) - {h};
      StepWithin(s0, s, DropHandle(h), k, n);
    }
  }

  lemma TimesQuotient(l: nat, d: nat, n: nat)
    requires d > 0 && l <= n / d
    ensures l * d <= n
  {
    TimesMonotone(l, n / d, d);
  }

  /** For every limit `m >= 2`, every `n >= 1` and every limit of the pool, some
      run with at most `n` handles outstanding throughout pools as many
      connections as the bound allows. */
  lemma BoundIsReached(k: Key, m: nat, n: nat, maxIdle: nat)
    requires m >= 2 && n >= 1
    ensures exists es ::
              && Legal(Init(Some(m), maxIdle), es)
              && AlwaysAtMost(Init(Some(m), maxIdle), es, k, n)
              && |QueueOf(Exec(Init(Some(m), maxIdle), es).desk.pool, k)| == Min(n / (m - 1), maxIdle) + 1
  {
    var s0, l := Init(Some(m), maxIdle), Min(n / (m - 1), maxIdle);
    forall c ensures ConnOk(s0, c) { assert HandlesOf(s0, c) == {}; }
    assert Outstanding(s0, k) == {};
    assert Legal(s0, []) && AlwaysAtMost(s0, [], k, n) && Exec(s0, []) == s0;
    TimesQuotient(l, m - 1, n);
    var s1 := Grow(s0, k, m, l, n);
    var s2, t := Prepare(s0, s1, k, m, l, n);
    SameCounts(s1, s2);
    SameOutstanding(s1, s2, k);
    var s3 := LetGo(s0, s2, k, n);
    var s4, c := Complete(s0, s3, k, n, t);
  }
}
