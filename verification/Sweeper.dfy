/**
 The timed sweeper: a pool built with an idle interval, whose background task
 clears expired connections at every tick.
 */
module Sweeper {
  import opened Pool
  import PoolRun

  const SECOND: nat := 1_000_000_000

  /** The tick period: the idle interval, but at least one second. */
  function Period(idleInterval: nat): nat {
    if idleInterval < SECOND then SECOND else idleInterval
  }

  // ---- The task ----

  /** A second sweep at the same instant removes nothing. */
  lemma SweepIdempotent(m: Idles, dur: nat, now: Instant)
    ensures Swept(Swept(m, dur, now), dur, now) == Swept(m, dur, now)
  {
    forall k | k in m ensures Retained(Retained(m[k], dur, now), dur, now) == Retained(m[k], dur, now) {
      RetainedTwice(m[k], dur, now);
    }
  }

  lemma {:induction false} RetainedTwice(q: Queue, dur: nat, now: Instant)
    ensures Retained(Retained(q, dur, now), dur, now) == Retained(q, dur, now)
  {
    if q != [] {
      RetainedTwice(q[1..], dur, now);
      var head := if Expired(q[0], dur, now) then [] else [q[0]];
      RetainedSplit(head, Retained(q[1..], dur, now), dur, now);
      assert Retained(head, dur, now) == head;
    }
  }

  datatype Poll = Pending | Ready

  /** One poll of the task. `due` ticks of the interval have elapsed; the pool
      is a null reference once it has been dropped. Overdue ticks are all taken
      in this poll, and together they are one sweep. */
  method PollIdleTask(pool: ConnectionPool?, dropSeen: bool, due: nat, idleDur: nat, now: Instant)
    returns (r: Poll)
    modifies if pool == null then {} else {pool}
    ensures r == (if dropSeen || (due > 0 && pool == null) then Ready else Pending)
    ensures pool != null && (dropSeen || due == 0) ==> pool.idleConns == old(pool.idleConns)
    ensures pool != null && !dropSeen && due > 0 ==>
              pool.idleConns == Swept(old(pool.idleConns), idleDur, now)
  {
    var left: nat := due;
    while true
      invariant left <= due
      invariant dropSeen || pool == null ==> left == due
      invariant pool != null && left == due ==> pool.idleConns == old(pool.idleConns)
      invariant pool != null && left < due ==> pool.idleConns == Swept(old(pool.idleConns), idleDur, now)
      decreases left
    {
      if dropSeen {
        return Ready;
      }
      if left == 0 {
        return Pending;
      }
      left := left - 1;
      if pool == null {
        return Ready;
      }
      SweepIdempotent(old(pool.idleConns), idleDur, now);
      pool.ClearExpired(idleDur, now);
    }
  }

  // ---- Timed runs ----

  /** `next` is the time of the next tick; on time means that the clock does not
      pass it before the sweep has run. */
  datatype State = State(pool: PoolRun.State, dur: nat, next: Instant)

  datatype Event = Use(op: PoolRun.Event) | Pass(to: Instant) | SweepNow

  function Init(idleInterval: nat, maxIdle: Option<nat>): State {
    State(PoolRun.Init(maxIdle), idleInterval, 0)
  }

  predicate Enabled(s: State, e: Event) {
    match e
    case Use(op) => (op.Link? || op.Get? || op.Put? || op.Drop?) && PoolRun.Enabled(s.pool, op)
    case Pass(to) => s.pool.now <= to <= s.next
    case SweepNow => s.pool.now == s.next && s.pool.alive
  }

  function Apply(s: State, e: Event): State
    requires Enabled(s, e)
  {
    match e
    case Use(op) => s.(pool := PoolRun.Apply(s.pool, op))
    case Pass(to) => s.(pool := PoolRun.Apply(s.pool, PoolRun.Tick(to)))
    case SweepNow => s.(pool := PoolRun.Apply(s.pool, PoolRun.Sweep(s.dur)), next := s.next + Period(s.dur))
  }

  predicate Legal(s: State, es: seq<Event>)
    decreases |es|
  {
    es == [] || (Enabled(s, es[0]) && Legal(Apply(s, es[0]), es[1..]))
  }

  function Exec(s: State, es: seq<Event>): State
    requires Legal(s, es)
    decreases |es|
  {
    if es == [] then s else Exec(Apply(s, es[0]), es[1..])
  }

  /** Every idle entry was young enough at the latest sweep or joined since. */
  ghost predicate Fresh(s: State) {
    && s.pool.now <= s.next <= s.pool.now + Period(s.dur)
    && forall k, i :: k in s.pool.idle && 0 <= i < |s.pool.idle[k]| ==>
         s.next <= s.pool.idle[k][i].idleAt + s.dur + Period(s.dur)
  }

  lemma FreshStep(s: State, e: Event)
    requires Fresh(s) && Enabled(s, e)
    ensures Fresh(Apply(s, e))
  {
    match e
    case Use(op) =>
    case Pass(to) =>
    case SweepNow =>
      var m': Idles := Apply(s, e).pool.idle;
      forall k: Key, i | k in m' && 0 <= i < |m'[k]|
        ensures s.next <= m'[k][i].idleAt + s.dur
      {
        RetainedMembers(s.pool.idle[k], s.dur, s.pool.now);
        assert m'[k][i] in m'[k];
      }
  }

  lemma {:induction false} EveryRunFresh(s: State, es: seq<Event>)
    requires Fresh(s) && Legal(s, es)
    ensures Fresh(Exec(s, es)) && Exec(s, es).dur == s.dur
    decreases |es|
  {
    if es != [] {
      FreshStep(s, es[0]);
      EveryRunFresh(Apply(s, es[0]), es[1..]);
    }
  }

  /** With on-time ticks, on a clock that counts nanoseconds, no idle connection
      is ever older than the idle interval plus the interval or a second, so neither is one that `get` hands out, although `get`
      never looks at an age. */
  lemma AgeBound(idleInterval: nat, maxIdle: Option<nat>, es: seq<Event>)
    requires Legal(Init(idleInterval, maxIdle), es)
    ensures var p := Exec(Init(idleInterval, maxIdle), es).pool;
            forall k, i :: k in p.idle && 0 <= i < |p.idle[k]| ==>
              p.now <= p.idle[k][i].idleAt + idleInterval + Max(idleInterval, 1_000_000_000)
  {
    EveryRunFresh(Init(idleInterval, maxIdle), es);
  }

  ghost predicate Reaches(s: State, s': State) {
    exists es :: Legal(s, es) && Exec(s, es) == s'
  }

  lemma {:induction false} LegalAppend(s: State, es: seq<Event>, e: Event)
    requires Legal(s, es) && Enabled(Exec(s, es), e)
    ensures Legal(s, es + [e]) && Exec(s, es + [e]) == Apply(Exec(s, es), e)
    decreases |es|
  {
    if es == [] {
      assert [e][1..] == [];
    } else {
      assert (es + [e])[1..] == es[1..] + [e];
      LegalAppend(Apply(s, es[0]), es[1..], e);
    }
  }

  lemma ReachesStep(s: State, s': State, e: Event)
    requires Reaches(s, s') && Enabled(s', e)
    ensures Reaches(s, Apply(s', e))
  {
    var es :| Legal(s, es) && Exec(s, es) == s';
    LegalAppend(s, es, e);
  }

  /** A `get` of `k` now would hand out a connection idle for exactly `age`. */
  ghost predicate HandsOutAged(p: PoolRun.State, k: Key, age: nat) {
    && p.alive && QueueOf(p.idle, k) != []
    && PoolRun.Front(p, k) == Some(QueueOf(p.idle, k)[0].conn)
    && p.now == QueueOf(p.idle, k)[0].idleAt + age
  }

  /** The bound is reached for every interval: a connection put so that it is
      exactly `idleInterval` old at a sweep survives it and can be handed out just
      before the next one. */
  lemma AgeBoundIsReached(idleInterval: nat, k: Key)
    ensures exists s' ::
              && Reaches(Init(idleInterval, Some(1)), s')
              && HandsOutAged(s'.pool, k, idleInterval + Max(idleInterval, 1_000_000_000))
  {
    var s0, t := Init(idleInterval, Some(1)), Period(idleInterval);
    var q := [Idle(0, t - idleInterval)];
    assert Legal(s0, []) && Exec(s0, []) == s0;
    ReachesStep(s0, s0, SweepNow);
    var s1 := s0.(next := t);
    assert Apply(s0, SweepNow) == s1;
    ReachesStep(s0, s1, Pass(t - idleInterval));
    var s2 := s1.(pool := s1.pool.(now := t - idleInterval));
    ReachesStep(s0, s2, Use(PoolRun.Put(k, 0)));
    var s3 := Apply(s2, Use(PoolRun.Put(k, 0)));
    assert Tail([], 0) + [Idle(0, t - idleInterval)] == q;
    assert s3.pool.idle == map[k := q];
    SurvivesSweep(s0, s3, k, q, t);
  }

  lemma SurvivesSweep(s0: State, s: State, k: Key, q: Queue, t: nat)
    requires Reaches(s0, s) && s.pool.alive && s.pool.idleDur == None
    requires t == Period(s.dur) == s.next && q == [Idle(0, t - s.dur)]
    requires s.pool.idle == map[k := q] && s.pool.now <= t
    ensures exists s' :: Reaches(s0, s') && HandsOutAged(s'.pool, k, s.dur + t)
  {
    ReachesStep(s0, s, Pass(t));
    var s1 := s.(pool := s.pool.(now := t));
    ReachesStep(s0, s1, SweepNow);
    var s2 := Apply(s1, SweepNow);
    assert Retained(q, s.dur, t) == q;
    assert s2.pool.idle == map[k := q] && s2.next == 2 * t;
    ReachesStep(s0, s2, Pass(2 * t));
    assert HandsOutAged(Apply(s2, Pass(2 * t)).pool, k, s.dur + t);
  }
}
