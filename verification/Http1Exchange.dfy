/**
 One request and response on an HTTP/1.1 connection, and what it means for the
 reuse of the connection through the pool (section 9.3 of RFC 9112).
 */
module Http1Exchange {
  import opened Pool

  newtype byte = x: int | 0 <= x < 256
  type Bytes = seq<byte>

  /** What happened on the wire. `Torn` is a message that was only partly
      written or partly read. */
  datatype Wire = Request | Response | Torn

  datatype H1 = H1(open: bool, using: bool, log: seq<Wire>)

  const NEW_CONNECTION := H1(true, false, [])

  /** The successive `next_data` results of a streamed body. The future of the
      exchange may be dropped at any of these awaits (`Cut`). */
  datatype Reads = More(data: Bytes, rest: Reads) | Finished | Broken | Cut

  datatype FixedRead = Whole(data: Bytes) | FixedError | Nothing | FixedCut

  /** Everything the peer and the caller's scheduler decide about one exchange. */
  datatype Script =
    | SendFails | CutSending
    | Eof | BadHead | CutWaiting
    | NoBody
    | Fixed(read: FixedRead)
    | Streamed(body: Reads)

  datatype Payload = NoPayload | FixedPayload(fed: Option<FixedRead>) | StreamPayload(chunks: seq<Bytes>)

  datatype Failure = SendError | UnexpectedEof | DecodeError

  datatype Reply = Ok(payload: Payload) | Err(error: Failure)

  function Chunks(r: Reads): seq<Bytes> {
    if r.More? then [r.data] + Chunks(r.rest) else []
  }

  function Ending(r: Reads): Reads
    ensures !Ending(r).More?
  {
    if r.More? then Ending(r.rest) else r
  }

  predicate IsOpen(c: H1) {
    c.open && !c.using
  }

  /** The connection after the exchange. */
  function After(c: H1, x: Script): H1 {
    match x
    case SendFails => c.(open := false, log := c.log + [Torn])
    case CutSending => c.(log := c.log + [Torn])
    case Eof => c.(open := false, log := c.log + [Request])
    case BadHead => c.(open := false, log := c.log + [Request])
    case CutWaiting => c.(log := c.log + [Request])
    case NoBody => c.(log := c.log + [Request, Response])
    case Fixed(read) => c.(log := c.log + [Request, if read.Whole? then Response else Torn])
    case Streamed(r) =>
      match Ending(r)
      case Finished => c.(log := c.log + [Request, Response])
      case Broken => c.(open := false, log := c.log + [Request, Torn])
      case _ => c.(log := c.log + [Request, Torn])
  }

  /** What the caller receives; nothing if the future was dropped. */
  function ReplyTo(x: Script): Option<Reply> {
    match x
    case SendFails => Some(Err(SendError))
    case Eof => Some(Err(UnexpectedEof))
    case BadHead => Some(Err(DecodeError))
    case NoBody => Some(Ok(NoPayload))
    case Fixed(read) =>
      if read.FixedCut? then None
      else Some(Ok(FixedPayload(if read.Nothing? then None else Some(read))))
    case Streamed(r) =>
      (match Ending(r)
       case Finished => Some(Ok(StreamPayload(Chunks(r))))
       case Broken => Some(Err(DecodeError))
       case _ => None)
    case _ => None
  }

  class Http1Connection {
    var using: bool
    var open: bool
    ghost var log: seq<Wire>

    constructor ()
      ensures Snapshot() == NEW_CONNECTION
    {
      using, open, log := false, true, [];
    }

    ghost function Snapshot(): H1
      reads this
    {
      H1(open, using, log)
    }

    /** The second result is the "can be reused" flag. */
    method SendRequest(x: Script) returns (reply: Option<Reply>, reuse: bool)
      modifies this
      ensures Snapshot() == After(old(Snapshot()), x)
      ensures reply == ReplyTo(x)
      ensures forall ds :: x == Streamed(Feed(ds, Finished)) ==> reply == Some(Ok(StreamPayload(ds)))
      ensures !reuse
    {
      reuse := false;
      if x.CutSending? || x.SendFails? {
        log := log + [Torn];
        if x.CutSending? {
          return None, false;
        }
        open := false;
        return Some(Err(SendError)), false;
      }
      log := log + [Request];
      match x
      case CutWaiting => reply := None;
      case Eof =>
        open := false;
        reply := Some(Err(UnexpectedEof));
      case BadHead =>
        open := false;
        reply := Some(Err(DecodeError));
      case NoBody =>
        log := log + [Response];
        reply := Some(Ok(NoPayload));
      case Fixed(read) =>
        log := log + [if read.Whole? then Response else Torn];
        if read.FixedCut? {
          return None, false;
        }
        var fed: Option<FixedRead> := None;
        if !read.Nothing? {
          fed := Some(read);
        }
        reply := Some(Ok(FixedPayload(fed)));
      case Streamed(body) =>
        var fed: seq<Bytes>, left := [], body;
        while left.More?
          invariant fed + Chunks(left) == Chunks(body) && Ending(left) == Ending(body)
          decreases left
        {
          fed, left := fed + [left.data], left.rest;
        }
        assert fed + [] == fed;
        forall ds | body == Feed(ds, Finished) ensures fed == ds && left.Finished? {
          FeedChunks(ds, Finished);
        }
        log := log + [if left.Finished? then Response else Torn];
        if left.Cut? {
          return None, false;
        }
        if left.Broken? {
          open := false;
          return Some(Err(DecodeError)), false;
        }
        reply := Some(Ok(StreamPayload(fed)));
    }
  }

  // ---- What the caller gets ----

  /** A streamed body that yields the chunks `ds` and then ends in `end`. */
  function Feed(ds: seq<Bytes>, end: Reads): Reads {
    if ds == [] then end else More(ds[0], Feed(ds[1..], end))
  }

  lemma {:induction false} FeedChunks(ds: seq<Bytes>, end: Reads)
    requires !end.More?
    ensures Chunks(Feed(ds, end)) == ds && Ending(Feed(ds, end)) == end
  {
    if ds != [] {
      FeedChunks(ds[1..], end);
    }
  }

  /** Every streamed body is some chunks and an end. */
  lemma {:induction false} EveryBodyIsFed(r: Reads) returns (ds: seq<Bytes>, end: Reads)
    ensures !end.More? && r == Feed(ds, end)
    decreases r
  {
    if r.More? {
      var rest;
      rest, end := EveryBodyIsFed(r.rest);
      ds := [r.data] + rest;
      assert ds[1..] == rest;
    } else {
      ds, end := [], r;
    }
  }

  /** A streamed body reaches the caller chunk by chunk, in order and whole, or
      not at all: a broken one is an error, and a dropped future no reply. */
  lemma StreamedReply(c: H1, ds: seq<Bytes>, end: Reads)
    requires !end.More?
    ensures var x := Streamed(Feed(ds, end));
            match end
            case Finished => ReplyTo(x) == Some(Ok(StreamPayload(ds))) && After(c, x) == c.(log := c.log + [Request, Response])
            case Broken => ReplyTo(x) == Some(Err(DecodeError)) && After(c, x) == c.(open := false, log := c.log + [Request, Torn])
            case Cut => ReplyTo(x) == None && After(c, x) == c.(log := c.log + [Request, Torn])
  {
    FeedChunks(ds, end);
  }

  /** A fixed body reaches the caller as read: data or the error of the read, or
      nothing if the peer sent none; only data completes the response. */
  lemma FixedReply(c: H1, d: Bytes)
    ensures ReplyTo(Fixed(Whole(d))) == Some(Ok(FixedPayload(Some(Whole(d)))))
    ensures ReplyTo(Fixed(FixedError)) == Some(Ok(FixedPayload(Some(FixedError))))
    ensures ReplyTo(Fixed(Nothing)) == Some(Ok(FixedPayload(None)))
    ensures After(c, Fixed(Whole(d))) == c.(log := c.log + [Request, Response])
    ensures forall read: FixedRead :: !read.Whole? ==> After(c, Fixed(read)) == c.(log := c.log + [Request, Torn])
  {
  }

  /** The future was dropped at one of the awaits of the exchange. */
  ghost predicate DroppedMidway(x: Script) {
    || x.CutSending? || x.CutWaiting? || x == Fixed(FixedCut)
    || (x.Streamed? && exists ds :: x.body == Feed(ds, Cut))
  }

  /** There is no reply exactly if the future was dropped; each failure before the
      body has its own error; and a reply without a body is just that. */
  lemma NoReplyIffDropped(x: Script)
    ensures ReplyTo(x) == None <==> DroppedMidway(x)
    ensures ReplyTo(x) == Some(Err(SendError)) <==> x.SendFails?
    ensures ReplyTo(x) == Some(Err(UnexpectedEof)) <==> x.Eof?
    ensures x.BadHead? ==> ReplyTo(x) == Some(Err(DecodeError))
    ensures ReplyTo(x) == Some(Ok(NoPayload)) <==> x.NoBody?
  {
    if x.Streamed? {
      var ds, end := EveryBodyIsFed(x.body);
      FeedChunks(ds, end);
      forall ds' | x.body == Feed(ds', Cut) ensures end == Cut {
        FeedChunks(ds', Cut);
      }
    }
  }

  // ---- When reuse is safe ----

  /** Complete requests and responses, strictly alternating. */
  ghost predicate Alternating(log: seq<Wire>) {
    && |log| % 2 == 0
    && forall i :: 0 <= i < |log| ==> log[i] == if i % 2 == 0 then Request else Response
  }

  /** An open connection has nothing outstanding. */
  ghost predicate InSync(c: H1) {
    c.open ==> Alternating(c.log)
  }

  /** The future was polled to its end, and a fixed-length body was delivered. */
  predicate Clean(x: Script) {
    match x
    case CutSending => false
    case CutWaiting => false
    case Fixed(read) => read.Whole?
    case Streamed(r) => !Ending(r).Cut?
    case _ => true
  }

  /** The code keeps an open connection in step exactly on clean exchanges:
      it never lowers `open` on a dropped future or on a failed fixed read. */
  lemma InSyncIffClean(c: H1, x: Script)
    requires c.open && Alternating(c.log)
    ensures InSync(After(c, x)) <==> Clean(x)
  {
    var c' := After(c, x);
    var n := |c.log|;
    if !Clean(x) {
      assert c'.open;
      if x.CutSending? || x.CutWaiting? {
        assert |c'.log| == n + 1;
      } else {
        assert c'.log[n + 1] == Torn;
      }
    } else if c'.open {
      assert c'.log == c.log + [Request, Response];
    }
  }

  /** A clean exchange that the caller gets a response from is one request and one
      response on the wire, and leaves the flags alone. */
  lemma CleanReplyIsOnePair(c: H1, x: Script)
    requires Clean(x) && ReplyTo(x).Some? && ReplyTo(x).value.Ok?
    ensures After(c, x) == c.(log := c.log + [Request, Response])
  {
  }

  /** An error reply and a closed connection are the same thing, although the
      returned flag says "close" after every exchange. */
  lemma ErrorMeansClosed(c: H1, x: Script)
    requires c.open
    ensures !After(c, x).open <==> ReplyTo(x).Some? && ReplyTo(x).value.Err?
  {
  }

  /** `open` is never raised again and `using` never set. */
  lemma OpenOnlyFalls(c: H1, x: Script)
    ensures After(c, x).open ==> c.open
    ensures After(c, x).using == c.using
  {
  }
}

/**
 A pool of HTTP/1.1 connections together with the exchanges run on its handles.
 */
module Http1Run {
  import opened Pool
  import PoolRun
  import opened Http1Exchange

  datatype State = State(pool: PoolRun.State, conns: map<Conn, H1>)

  /** A drop consults the connection; the other pool operations do not. */
  datatype Event = Op(op: PoolRun.Event) | DropHandle(conn: Conn) | Send(conn: Conn, script: Script)

  function Init(maxIdle: Option<nat>): State {
    State(PoolRun.Init(maxIdle), map[])
  }

  predicate Enabled(s: State, e: Event) {
    match e
    case Op(op) => !op.Drop? && PoolRun.Enabled(s.pool, op)
    case DropHandle(c) => c in s.pool.held && c in s.conns
    case Send(c, _) => c in s.pool.held && c in s.conns
  }

  function Apply(s: State, e: Event): State
    requires Enabled(s, e)
  {
    match e
    case Op(op) => State(PoolRun.Apply(s.pool, op),
                         if op.Link? || op.Put? then s.conns[op.conn := NEW_CONNECTION] else s.conns)
    case DropHandle(c) => s.(pool := PoolRun.Apply(s.pool, PoolRun.Drop(c, IsOpen(s.conns[c]))))
    case Send(c, x) => s.(conns := s.conns[c := After(s.conns[c], x)])
  }

  ghost predicate Legal(s: State, es: seq<Event>)
    decreases |es|
  {
    es == [] || (Enabled(s, es[0]) && Legal(Apply(s, es[0]), es[1..]))
  }

  ghost function Exec(s: State, es: seq<Event>): State
    requires Legal(s, es)
    decreases |es|
  {
    if es == [] then s else Exec(Apply(s, es[0]), es[1..])
  }

  /** Every idle connection is open and has answered all its requests. */
  ghost predicate IdleInSync(s: State) {
    forall c :: c in IdleConns(s.pool.idle) ==>
      c in s.conns && IsOpen(s.conns[c]) && Alternating(s.conns[c].log)
  }

  ghost predicate Inv(s: State) {
    && PoolRun.OnePlace(s.pool)
    && s.conns.Keys == s.pool.origin.Keys
    && (forall c :: c in s.conns ==> !s.conns[c].using && InSync(s.conns[c]))
    && (forall c :: c in IdleConns(s.pool.idle) ==> s.conns[c].open)
  }

  /** A pool step lets a connection become idle only by dropping its open
      handle or by putting a new one. */
  lemma NewlyIdle(s: PoolRun.State, e: PoolRun.Event, c: Conn)
    requires PoolRun.OnePlace(s) && PoolRun.Enabled(s, e)
    requires c in IdleConns(PoolRun.Apply(s, e).idle) && c !in IdleConns(s.idle)
    ensures e == PoolRun.Drop(c, true) || (e.Put? && e.conn == c)
  {
    PoolRun.OnePlaceStep(s, e);
    assert s.gone <= PoolRun.Apply(s, e).gone;
  }

  lemma InvStep(s: State, e: Event)
    requires Inv(s) && Enabled(s, e)
    requires e.Send? ==> Clean(e.script)
    ensures Inv(Apply(s, e))
  {
    var s' := Apply(s, e);
    match e
    case Op(op) =>
      PoolRun.OnePlaceStep(s.pool, op);
      PoolKeepsOrigin(s.pool, op);
      forall c | c in IdleConns(s'.pool.idle) ensures s'.conns[c].open {
        if c !in IdleConns(s.pool.idle) { NewlyIdle(s.pool, op, c); }
      }
    case DropHandle(c0) =>
      var op := PoolRun.Drop(c0, IsOpen(s.conns[c0]));
      PoolRun.OnePlaceStep(s.pool, op);
      forall c | c in IdleConns(s'.pool.idle) ensures s'.conns[c].open {
        if c !in IdleConns(s.pool.idle) { NewlyIdle(s.pool, op, c); }
      }
    case Send(c, x) =>
      OpenOnlyFalls(s.conns[c], x);
      if s.conns[c].open { InSyncIffClean(s.conns[c], x); }
  }

  lemma PoolKeepsOrigin(s: PoolRun.State, op: PoolRun.Event)
    requires PoolRun.Enabled(s, op)
    ensures PoolRun.Apply(s, op).origin ==
            if op.Link? || op.Put? then s.origin[op.conn := op.key] else s.origin
  {
  }

  ghost predicate Uses(es: seq<Event>, good: Script -> bool) {
    forall i :: 0 <= i < |es| && es[i].Send? ==> good(es[i].script)
  }

  lemma {:induction false} EveryCleanRun(s: State, es: seq<Event>)
    requires Inv(s) && Legal(s, es) && Uses(es, Clean)
    ensures Inv(Exec(s, es))
    decreases |es|
  {
    if es != [] {
      InvStep(s, es[0]);
      EveryCleanRun(Apply(s, es[0]), es[1..]);
    }
  }

  /** One unclean exchange is enough: the connection goes back into the pool
      open and out of step, and is what the next `get` hands out. */
  lemma UncleanPoisonsPool(maxIdle: Option<nat>, k: Key, x: Script)
    requires !Clean(x)
    ensures var es := [Op(PoolRun.Link(k, 0)), Send(0, x), DropHandle(0)];
            && Legal(Init(maxIdle), es)
            && PoolRun.Front(Exec(Init(maxIdle), es).pool, k) == Some(0)
            && !IdleInSync(Exec(Init(maxIdle), es))
  {
    var es := [Op(PoolRun.Link(k, 0)), Send(0, x), DropHandle(0)];
    var s0 := Init(maxIdle);
    var s1 := Apply(s0, es[0]);
    var s2 := Apply(s1, es[1]);
    InSyncIffClean(NEW_CONNECTION, x);
    OpenOnlyFalls(NEW_CONNECTION, x);
    var s3 := Apply(s2, es[2]);
    assert es[1..] == [es[1], es[2]] && es[2..] == [es[2]] && es[1..][1..] == es[2..] && es[2..][1..] == [];
    assert Legal(s2, es[2..]) && Legal(s1, es[1..]);
    assert Exec(s2, es[2..]) == s3;
    assert Exec(s1, es[1..]) == s3;
    var q := QueueOf(s3.pool.idle, k);
    assert q[0].conn == 0 && 0 in IdleConns(s3.pool.idle);
  }

  /** Reuse is safe in all runs that draw their exchanges from `good` exactly
      when `good` admits only clean exchanges. */
  lemma ReuseSafeIff(maxIdle: Option<nat>, k: Key, good: Script -> bool)
    ensures (forall es :: Legal(Init(maxIdle), es) && Uses(es, good) ==> IdleInSync(Exec(Init(maxIdle), es)))
       <==> (forall x :: good(x) ==> Clean(x))
  {
    var s0 := Init(maxIdle);
    if forall x :: good(x) ==> Clean(x) {
      forall es | Legal(s0, es) && Uses(es, good) ensures IdleInSync(Exec(s0, es)) {
        EveryCleanRun(s0, es);
      }
    }
    forall x | good(x) && !Clean(x)
      ensures exists es :: Legal(s0, es) && Uses(es, good) && !IdleInSync(Exec(s0, es))
    {
      UncleanPoisonsPool(maxIdle, k, x);
      var es := [Op(PoolRun.Link(k, 0)), Send(0, x), DropHandle(0)];
      assert Legal(s0, es) && Uses(es, good);
    }
  }
}
