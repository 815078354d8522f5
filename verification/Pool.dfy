/**
 The idle-connection pool: one FIFO of idle connections per key, changed in
 place by `get`, `put`, the return of a handle on drop and the sweeper.

 The first half gives each operation on a queue a meaning that does not mention
 its loop; the class in the second half has the loops and is proved against it.
 */
module Pool {

  /** Keys are compared and nothing else. */
  type Key(==, !new)

  /** The identity of a connection. */
  type Conn = nat

  /** A monotone clock reading; a duration is a difference of two of them. */
  type Instant = nat

  datatype Option<+T> = None | Some(value: T)

  const DEFAULT_KEEPALIVE_CONNS: nat := 256
  const MAX_KEEPALIVE_CONNS: nat := 16384

  datatype Idle = Idle(conn: Conn, idleAt: Instant)

  type Queue = seq<Idle>

  type Idles = map<Key, Queue>

  function QueueOf(m: Idles, k: Key): Queue {
    if k in m then m[k] else []
  }

  function EffectiveMaxIdle(maxIdle: Option<nat>): nat {
    match maxIdle
    case None => DEFAULT_KEEPALIVE_CONNS
    case Some(n) => if n < MAX_KEEPALIVE_CONNS then n else MAX_KEEPALIVE_CONNS
  }

  predicate Expired(e: Idle, dur: nat, now: Instant) {
    now > e.idleAt + dur
  }

  predicate ExpiredOpt(e: Idle, dur: Option<nat>, now: Instant) {
    dur.Some? && Expired(e, dur.value, now)
  }

  // ---- What each operation leaves in a queue ----

  /** Room left for old entries when one more is about to join a full queue. */
  function Room(maxIdle: nat): nat {
    if maxIdle == 0 then 0 else maxIdle - 1
  }

  /** How many entries a returning handle evicts from a queue of length `len`:
      as many as it takes to leave `Room`. */
  function EvictedByReturn(len: nat, maxIdle: nat): (n: nat)
    ensures n <= len
  {
    if len <= Room(maxIdle) then 0 else len - Room(maxIdle)
  }

  /** How many `put` evicts: the same, but only if the queue is above `maxIdle`. */
  function EvictedByPut(len: nat, maxIdle: nat): (n: nat)
    ensures n <= len
  {
    if len <= maxIdle then 0 else len - Room(maxIdle)
  }

  /** The queue without its first `n` entries. */
  function Tail(q: Queue, n: nat): Queue
    requires n <= |q|
    ensures |Tail(q, n)| == |q| - n
  {
    if n == 0 then q else q[n..]
  }

  /** The length of the expired prefix. */
  function Stale(q: Queue, dur: Option<nat>, now: Instant): (n: nat)
    ensures n <= |q|
    ensures forall i :: 0 <= i < n ==> ExpiredOpt(q[i], dur, now)
    ensures n < |q| ==> !ExpiredOpt(q[n], dur, now)
  {
    if q == [] || !ExpiredOpt(q[0], dur, now) then 0 else 1 + Stale(q[1..], dur, now)
  }

  /** The unexpired entries, in order. */
  function Retained(q: Queue, dur: nat, now: Instant): Queue {
    if q == [] then []
    else (if Expired(q[0], dur, now) then [] else [q[0]]) + Retained(q[1..], dur, now)
  }

  /** Every queue filtered, and the keys whose queue became empty removed. */
  function Swept(m: Idles, dur: nat, now: Instant): Idles {
    map k | k in m && Retained(m[k], dur, now) != [] :: Retained(m[k], dur, now)
  }

  // ---- Views ----

  function Max(a: nat, b: nat): nat { if a < b then b else a }

  /** `r` is what is left of `q` and then `e` when only the `n` newest stay. */
  ghost predicate Newest(q: Queue, e: Idle, n: nat, r: Queue) {
    && |r| == n && 1 <= n <= |q| + 1 && r[n - 1] == e
    && (forall i :: 0 <= i < n - 1 ==> r[i] == q[|q| + 1 - n + i])
  }

  function ConnsOf(q: Queue): set<Conn> {
    set i | 0 <= i < |q| :: q[i].conn
  }

  ghost function IdleConns(m: Idles): set<Conn> {
    set k, i | k in m && 0 <= i < |m[k]| :: m[k][i].conn
  }

  /** The occupied positions of all queues. */
  ghost function Slots(m: Idles): set<(Key, int)> {
    set k, i | k in m && 0 <= i < |m[k]| :: (k, i)
  }

  ghost predicate Sorted(q: Queue) {
    forall i, j :: 0 <= i < j < |q| ==> q[i].idleAt <= q[j].idleAt
  }

  ghost predicate DistinctConns(q: Queue) {
    forall i, j :: 0 <= i < j < |q| ==> q[i].conn != q[j].conn
  }

  // ---- Facts about the queue operations ----

  lemma SubsetSize<T>(a: set<T>, b: set<T>)
    requires a <= b
    ensures |a| <= |b|
  {
    assert b == a + (b - a);
  }

  /** Splitting a queue with distinct connections splits its connections. */
  lemma SplitConns(q: Queue, n: nat)
    requires n <= |q| && DistinctConns(q)
    ensures ConnsOf(q) == ConnsOf(q[..n]) + ConnsOf(q[n..])
    ensures ConnsOf(q[..n]) !! ConnsOf(q[n..])
    ensures DistinctConns(q[n..])
  {
    assert q == q[..n] + q[n..];
    forall i | 0 <= i < |q| ensures q[i].conn in ConnsOf(q[..n]) + ConnsOf(q[n..]) {
      if i < n { assert q[..n][i] == q[i]; } else { assert q[n..][i - n] == q[i]; }
    }
  }

  lemma ConsConns(e: Idle, q: Queue)
    ensures ConnsOf([e] + q) == {e.conn} + ConnsOf(q)
    ensures DistinctConns([e] + q) <==> DistinctConns(q) && e.conn !in ConnsOf(q)
  {
    var r := [e] + q;
    assert r[0] == e;
    assert forall i :: 0 <= i < |q| ==> r[i + 1] == q[i];
    if DistinctConns(r) {
      forall i, j | 0 <= i < j < |q| ensures q[i].conn != q[j].conn {
        assert r[i + 1].conn != r[j + 1].conn;
      }
      forall i | 0 <= i < |q| ensures q[i].conn != e.conn {
        assert r[0].conn != r[i + 1].conn;
      }
    }
  }

  /** Losing the first `n` entries and gaining one at the end. */
  lemma ShiftConns(q: Queue, n: nat, e: Idle)
    requires n <= |q| && DistinctConns(q) && e.conn !in ConnsOf(q)
    ensures ConnsOf(Tail(q, n) + [e]) == ConnsOf(q) - ConnsOf(q[..n]) + {e.conn}
    ensures DistinctConns(Tail(q, n) + [e])
    ensures ConnsOf(q[..n]) <= ConnsOf(q)
  {
    SplitConns(q, n);
    var kept := q[n..];
    assert kept == Tail(q, n);
    var r := kept + [e];
    assert forall i :: 0 <= i < |kept| ==> r[i] == kept[i] && kept[i].conn in ConnsOf(kept);
    assert r[|kept|] == e;
  }

  lemma RestampConns(q: Queue, i: nat, now: Instant)
    requires i < |q|
    ensures ConnsOf(q[i := q[i].(idleAt := now)]) == ConnsOf(q)
    ensures DistinctConns(q) ==> DistinctConns(q[i := q[i].(idleAt := now)])
  {
    assert forall j :: 0 <= j < |q| ==> q[i := q[i].(idleAt := now)][j].conn == q[j].conn;
  }

  /** With an idle duration, the first `n` entries have been idle for longer and
      the next one has not; without one, nothing is too old. */
  ghost predicate TooOld(q: Queue, dur: Option<nat>, now: Instant, n: nat) {
    && n <= |q|
    && match dur
       case None => n == 0
       case Some(d) =>
         && (forall i :: 0 <= i < n ==> now > q[i].idleAt + d)
         && (n < |q| ==> now <= q[n].idleAt + d)
  }

  lemma StaleIff(q: Queue, dur: Option<nat>, now: Instant, n: nat)
    ensures n == Stale(q, dur, now) <==> TooOld(q, dur, now, n)
  {
    if dur.Some? && n < Stale(q, dur, now) { assert ExpiredOpt(q[n], dur, now); }
  }

  /** `Retained` holds exactly the entries idle for no longer than `dur`. */
  lemma {:induction false} RetainedMembers(q: Queue, dur: nat, now: Instant)
    ensures forall e :: e in Retained(q, dur, now) <==> e in q && now <= e.idleAt + dur
    ensures |Retained(q, dur, now)| <= |q|
  {
    if q != [] {
      assert q == [q[0]] + q[1..];
      RetainedMembers(q[1..], dur, now);
    }
  }

  /** The filter works entry by entry and keeps the order. */
  lemma {:induction false} RetainedSplit(a: Queue, b: Queue, dur: nat, now: Instant)
    ensures Retained(a + b, dur, now) == Retained(a, dur, now) + Retained(b, dur, now)
  {
    if a == [] {
      assert a + b == b;
    } else {
      assert (a + b)[1..] == a[1..] + b;
      RetainedSplit(a[1..], b, dur, now);
    }
  }

  lemma ConsSorted(e: Idle, q: Queue)
    ensures Sorted([e] + q) <==> Sorted(q) && forall i :: 0 <= i < |q| ==> e.idleAt <= q[i].idleAt
  {
    var r := [e] + q;
    if Sorted(r) {
      forall i, j | 0 <= i < j < |q| ensures q[i].idleAt <= q[j].idleAt {
        assert r[i + 1].idleAt <= r[j + 1].idleAt;
      }
      forall i | 0 <= i < |q| ensures e.idleAt <= q[i].idleAt {
        assert r[0].idleAt <= r[i + 1].idleAt;
      }
    }
  }

  lemma RetainedFrom(q: Queue, dur: nat, now: Instant)
    ensures forall i :: 0 <= i < |Retained(q, dur, now)| ==> Retained(q, dur, now)[i] in q
    ensures ConnsOf(Retained(q, dur, now)) <= ConnsOf(q)
  {
    RetainedMembers(q, dur, now);
    var r := Retained(q, dur, now);
    forall i | 0 <= i < |r| ensures r[i] in q && r[i].conn in ConnsOf(q) {
      assert r[i] in r;
    }
  }

  lemma {:induction false} RetainedKeepsOrder(q: Queue, dur: nat, now: Instant)
    ensures Sorted(q) ==> Sorted(Retained(q, dur, now))
    ensures DistinctConns(q) ==> DistinctConns(Retained(q, dur, now))
  {
    if q != [] {
      var r := Retained(q[1..], dur, now);
      assert q == [q[0]] + q[1..];
      RetainedKeepsOrder(q[1..], dur, now);
      RetainedFrom(q[1..], dur, now);
      ConsSorted(q[0], q[1..]);
      ConsSorted(q[0], r);
      ConsConns(q[0], q[1..]);
      ConsConns(q[0], r);
      assert Retained(q, dur, now) == if Expired(q[0], dur, now) then r else [q[0]] + r;
    }
  }

  /** On a queue in idle order the sweep only has to drop a prefix. */
  lemma {:induction false} SweepOfSortedIsPrefixDrop(q: Queue, dur: nat, now: Instant)
    requires Sorted(q)
    ensures Retained(q, dur, now) == q[Stale(q, Some(dur), now)..]
  {
    if q != [] {
      SweepOfSortedIsPrefixDrop(q[1..], dur, now);
      if !Expired(q[0], dur, now) {
        assert Stale(q[1..], Some(dur), now) == 0;
        assert q == [q[0]] + q[1..];
      }
    }
  }

  /** `reset_idle` on entry `i` keeps the queue in idle order exactly when every
      later entry is already stamped with the present. */
  lemma ResetKeepsOrderIff(q: Queue, i: nat, now: Instant)
    requires Sorted(q) && i < |q|
    requires forall j :: 0 <= j < |q| ==> q[j].idleAt <= now
    ensures Sorted(q[i := q[i].(idleAt := now)]) <==>
            (forall j :: i < j < |q| ==> q[j].idleAt == now)
  {
    var r := q[i := q[i].(idleAt := now)];
    if Sorted(r) {
      forall j | i < j < |q| ensures q[j].idleAt == now {
        assert r[i].idleAt <= r[j].idleAt;
      }
    }
  }

  // ---- The pool itself ----

  class ConnectionPool {
    var idleConns: Idles
    const maxIdle: nat
    const idleDur: Option<nat>

    /** Both constructors of the inner pool leave `idleDur` unset. */
    constructor (maxIdle: Option<nat>)
      ensures idleConns == map[] && idleDur == None
      ensures this.maxIdle == EffectiveMaxIdle(maxIdle)
      ensures maxIdle == None ==> this.maxIdle == 256
      ensures maxIdle.Some? && maxIdle.value <= 16384 ==> this.maxIdle == maxIdle.value
      ensures maxIdle.Some? && maxIdle.value > 16384 ==> this.maxIdle == 16384
    {
      idleConns := map[];
      idleDur := None;
      this.maxIdle := EffectiveMaxIdle(maxIdle);
    }

    /** Pops until an unexpired entry or the end of the queue is met. */
    method Get(key: Key, now: Instant) returns (r: Option<Conn>)
      modifies this`idleConns
      ensures var q := QueueOf(old(idleConns), key);
              var n := Stale(q, idleDur, now);
              && r == (if n == |q| then None else Some(q[n].conn))
              && idleConns == (if key !in old(idleConns) then old(idleConns)
                               else old(idleConns)[key := if n == |q| then [] else q[n + 1..]])
    {
      ghost var q := QueueOf(idleConns, key);
      ghost var popped: nat := 0;
      while key in idleConns && idleConns[key] != []
        invariant key in old(idleConns) <==> key in idleConns
        invariant idleConns == if key in idleConns then old(idleConns)[key := idleConns[key]] else old(idleConns)
        invariant popped <= |q| && QueueOf(idleConns, key) == q[popped..]
        invariant Stale(q, idleDur, now) == popped + Stale(q[popped..], idleDur, now)
        decreases |QueueOf(idleConns, key)|
      {
        var idle := idleConns[key][0];
        assert q[popped..][1..] == q[popped + 1..];
        idleConns := idleConns[key := idleConns[key][1..]];
        if !ExpiredOpt(idle, idleDur, now) {
          return Some(idle.conn);
        }
        popped := popped + 1;
      }
      return None;
    }

    /** The eviction loop shared by `put` and the drop of a handle: pop the
        excess over `maxIdle`, then one more. */
    method Evict(queue: Queue) returns (r: Queue)
      requires |queue| >= maxIdle
      ensures r == Tail(queue, |queue| - Room(maxIdle))
      ensures |r| == (if maxIdle == 0 then 0 else maxIdle - 1) && r == queue[|queue| - |r|..]
    {
      r := queue;
      for i := 0 to |queue| - maxIdle
        invariant r == queue[i..]
      {
        r := r[1..];
      }
      if r != [] {
        r := r[1..];
      }
    }

    method Put(key: Key, conn: Conn, now: Instant)
      modifies this`idleConns
      ensures var q := QueueOf(old(idleConns), key);
              idleConns == old(idleConns)[key := Tail(q, EvictedByPut(|q|, maxIdle)) + [Idle(conn, now)]]
      ensures var q := QueueOf(old(idleConns), key);
              Newest(q, Idle(conn, now), if |q| <= maxIdle then |q| + 1 else Max(1, maxIdle), idleConns[key])
    {
      var queue := QueueOf(idleConns, key);
      if |queue| > maxIdle {
        queue := Evict(queue);
      }
      idleConns := idleConns[key := queue + [Idle(conn, now)]];
    }

    /** The drop of a handle while the pool is alive. */
    method Return(key: Key, conn: Conn, isOpen: bool, now: Instant)
      modifies this`idleConns
      ensures !isOpen ==> idleConns == old(idleConns)
      ensures isOpen ==>
                var q := QueueOf(old(idleConns), key);
                idleConns == old(idleConns)[key := Tail(q, EvictedByReturn(|q|, maxIdle)) + [Idle(conn, now)]]
      ensures isOpen ==>
                var q := QueueOf(old(idleConns), key);
                key in idleConns && Newest(q, Idle(conn, now), if |q| < maxIdle then |q| + 1 else Max(1, maxIdle), idleConns[key])
    {
      if !isOpen {
        return;
      }
      var queue := QueueOf(idleConns, key);
      if |queue| >= maxIdle {
        queue := Evict(queue);
      }
      idleConns := idleConns[key := queue + [Idle(conn, now)]];
    }

    method Retain(queue: Queue, dur: nat, now: Instant) returns (r: Queue)
      ensures r == Retained(queue, dur, now)
    {
      r := [];
      for i := 0 to |queue|
        invariant r == Retained(queue[..i], dur, now)
      {
        assert queue[..i + 1] == queue[..i] + [queue[i]];
        RetainedSplit(queue[..i], [queue[i]], dur, now);
        if !Expired(queue[i], dur, now) {
          r := r + [queue[i]];
        }
      }
      assert queue[..|queue|] == queue;
    }

    method ClearExpired(dur: nat, now: Instant)
      modifies this`idleConns
      ensures idleConns == Swept(old(idleConns), dur, now)
    {
      var todo := idleConns.Keys;
      while todo != {}
        invariant todo <= old(idleConns).Keys
        invariant forall k :: k in idleConns <==>
                    k in todo || k in Swept(old(idleConns), dur, now)
        invariant forall k :: k in todo ==> idleConns[k] == old(idleConns)[k]
        invariant forall k :: k in idleConns && k !in todo ==>
                    idleConns[k] == Retained(old(idleConns)[k], dur, now)
        decreases todo
      {
        var k :| k in todo;
        todo := todo - {k};
        var values := Retain(idleConns[k], dur, now);
        if values == [] {
          idleConns := idleConns - {k};
        } else {
          idleConns := idleConns[k := values];
        }
      }
    }

    method IdleConnectionCount() returns (n: nat)
      ensures n == |Slots(idleConns)|
    {
      n := 0;
      var todo := idleConns.Keys;
      ghost var done: Idles := map[];
      while todo != {}
        invariant todo <= idleConns.Keys
        invariant done == map k | k in idleConns && k !in todo :: idleConns[k]
        invariant n == |Slots(done)|
        decreases todo
      {
        var k :| k in todo;
        todo := todo - {k};
        n := n + |idleConns[k]|;
        SlotsOfOneMore(done, k, idleConns[k]);
        done := done[k := idleConns[k]];
      }
      assert done == idleConns;
    }
  }

  lemma {:induction false} RowSize(k: Key, n: nat)
    ensures |set i | 0 <= i < n :: (k, i)| == n
  {
    if n != 0 {
      RowSize(k, n - 1);
      assert (set i | 0 <= i < n :: (k, i)) == (set i | 0 <= i < n - 1 :: (k, i)) + {(k, n - 1)};
    }
  }

  lemma SlotsOfOneMore(m: Idles, k: Key, q: Queue)
    requires k !in m
    ensures |Slots(m[k := q])| == |Slots(m)| + |q|
  {
    var row := set i | 0 <= i < |q| :: (k, i);
    RowSize(k, |q|);
    assert Slots(m[k := q]) == Slots(m) + row;
    assert Slots(m) !! row;
  }
}
