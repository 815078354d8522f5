/**
 One request on an HTTP/2 connection: the frames it submits and what it reports
 (section 8.1 of RFC 9113).
 */
module Http2Exchange {
  import opened Pool
  import Http1Exchange

  type Bytes = Http1Exchange.Bytes

  datatype Frame = Headers | Data(payload: Bytes, endStream: bool)

  /** What `next_data` of the request body yields before its final `None`; the
      future may be dropped at any of these awaits. */
  datatype Item = Piece(data: Bytes) | BodyError | CutBody

  datatype Step = Fine | Fault | Dropped

  /** Everything the connection, the peer and the caller's scheduler decide.
      `accepts(i)` tells whether the `i`-th data frame is taken. */
  datatype Scenario = Scenario(
    ready: Step, streamOpened: bool, body: seq<Item>, accepts: nat -> bool, response: Step)

  datatype Outcome = Response | Error

  /** The first item at which the body loop leaves, or the end of the body. */
  function Leaves(body: seq<Item>, accepts: nat -> bool, i: nat): (n: nat)
    requires i <= |body|
    ensures i <= n <= |body|
    ensures forall j :: i <= j < n ==> body[j].Piece? && accepts(j)
    ensures n < |body| ==> !(body[n].Piece? && accepts(n))
    decreases |body| - i
  {
    if i < |body| && body[i].Piece? && accepts(i) then Leaves(body, accepts, i + 1) else i
  }

  ghost predicate BodySent(x: Scenario) {
    x.ready.Fine? && x.streamOpened && Leaves(x.body, x.accepts, 0) == |x.body|
  }

  /** The pieces of a body as data frames, none of them ending the stream. */
  function Pieces(body: seq<Item>): seq<Frame>
    requires forall i :: 0 <= i < |body| ==> body[i].Piece?
    ensures |Pieces(body)| == |body|
    ensures forall i :: 0 <= i < |body| ==> Pieces(body)[i] == Data(body[i].data, false)
  {
    if body == [] then [] else Pieces(body[..|body| - 1]) + [Data(body[|body| - 1].data, false)]
  }

  /** How many items the body loop submits: it goes on to the end of the body, to
      an item that is no piece, or past a piece that is refused, which was
      submitted too. */
  function Submits(body: seq<Item>, accepts: nat -> bool): (n: nat)
    ensures n <= |body| && forall j :: 0 <= j < n ==> body[j].Piece?
    ensures forall j :: 0 <= j < n - 1 ==> accepts(j)
    ensures n == |body| || !body[n].Piece? || (n > 0 && !accepts(n - 1))
  {
    var n := Leaves(body, accepts, 0);
    if n < |body| && body[n].Piece? then n + 1 else n
  }

  /** The loop that feeds the body; `left` is what stopped it, if not the end. */
  method FeedBody(body: seq<Item>, accepts: nat -> bool) returns (left: Option<Item>, frames: seq<Frame>)
    ensures frames == [Headers] + Pieces(body[..Submits(body, accepts)])
    ensures var n := Leaves(body, accepts, 0);
            left == if n == |body| then None else Some(body[n])
  {
    frames := [Headers];
    var i := 0;
    while i < |body|
      invariant 0 <= i <= |body| && Leaves(body, accepts, i) == Leaves(body, accepts, 0)
      invariant forall j :: 0 <= j < i ==> body[j].Piece?
      invariant frames == [Headers] + Pieces(body[..i])
    {
      if !body[i].Piece? {
        return Some(body[i]), frames;
      }
      assert body[..i + 1][..i] == body[..i];
      frames := frames + [Data(body[i].data, false)];
      if !accepts(i) {
        return Some(body[i]), frames;
      }
      i := i + 1;
    }
    left := None;
  }

  /** The second result is the "can be reused" flag; the first is missing if the
      future was dropped. */
  method SendRequest(x: Scenario) returns (reply: Option<Outcome>, reuse: bool, frames: seq<Frame>)
    ensures BodySent(x) ==>
              && frames == [Headers] + Pieces(x.body) + [Data([], true)]
              && reply == (match x.response case Fine => Some(Response) case Fault => Some(Error) case Dropped => None)
    ensures !BodySent(x) ==> reply != Some(Response) && !Ended(frames)
    ensures !BodySent(x) && x.ready.Fine? && x.streamOpened ==>
              && frames == [Headers] + Pieces(x.body[..Submits(x.body, x.accepts)])
              && (reply == None <==> x.body[Leaves(x.body, x.accepts, 0)].CutBody?)
    ensures !x.ready.Fine? || !x.streamOpened ==>
              frames == [] && (reply == None <==> x.ready.Dropped?)
    ensures reuse <==> reply == Some(Response)
  {
    if !x.ready.Fine? {
      return if x.ready.Fault? then Some(Error) else None, false, [];
    }
    if !x.streamOpened {
      return Some(Error), false, [];
    }
    var left;
    left, frames := FeedBody(x.body, x.accepts);
    if left.Some? {
      return if left.value.CutBody? then None else Some(Error), false, frames;
    }
    assert x.body[..|x.body|] == x.body;
    frames := frames + [Data([], true)];
    match x.response
    case Fine => reply, reuse := Some(Response), true;
    case Fault => reply, reuse := Some(Error), false;
    case Dropped => reply, reuse := None, false;
  }

  // ---- What the frames mean to the peer ----

  predicate Ended(frames: seq<Frame>) {
    exists i :: 0 <= i < |frames| && frames[i].Data? && frames[i].endStream
  }

  /** One message: a header section, then data, the end of the stream on the last
      frame and on no other. */
  predicate WholeMessage(frames: seq<Frame>) {
    && |frames| >= 2 && frames[0] == Headers
    && (forall i :: 0 < i < |frames| ==>
          frames[i].Data? && (frames[i].endStream <==> i == |frames| - 1))
  }

  /** The content the peer reassembles. */
  function Content(frames: seq<Frame>): Bytes {
    if frames == [] then []
    else Content(frames[..|frames| - 1]) +
         (var f := frames[|frames| - 1]; if f.Data? then f.payload else [])
  }

  function BodyBytes(body: seq<Item>): Bytes
    requires forall i :: 0 <= i < |body| ==> body[i].Piece?
  {
    if body == [] then [] else BodyBytes(body[..|body| - 1]) + body[|body| - 1].data
  }

  lemma {:induction false} ContentOfPieces(body: seq<Item>)
    requires forall i :: 0 <= i < |body| ==> body[i].Piece?
    ensures Content([Headers] + Pieces(body)) == BodyBytes(body)
  {
    if body == [] {
      assert [Headers] + Pieces(body) == [Headers];
      assert [Headers][..0] == [];
    } else {
      var init := body[..|body| - 1];
      ContentOfPieces(init);
      var fs := [Headers] + Pieces(body);
      assert fs[..|fs| - 1] == [Headers] + Pieces(init);
    }
  }

  lemma PiecesMakeWhole(ps: seq<Frame>)
    requires forall i :: 0 <= i < |ps| ==> ps[i].Data? && !ps[i].endStream
    ensures WholeMessage([Headers] + ps + [Data([], true)])
  {
    var frames := [Headers] + ps + [Data([], true)];
    forall i | 0 < i < |frames| ensures frames[i].Data? && (frames[i].endStream <==> i == |frames| - 1) {
      assert frames[i] == if i < |frames| - 1 then ps[i - 1] else Data([], true);
    }
  }

  /** A request that gets past its body is one whole message carrying exactly the
      body. */
  lemma SentBodyIsWholeMessage(body: seq<Item>)
    requires forall i :: 0 <= i < |body| ==> body[i].Piece?
    ensures var frames := [Headers] + Pieces(body) + [Data([], true)];
            WholeMessage(frames) && Content(frames) == BodyBytes(body)
  {
    var sent := [Headers] + Pieces(body);
    PiecesMakeWhole(Pieces(body));
    ContentOfPieces(body);
    assert (sent + [Data([], true)])[..|sent|] == sent;
  }
}
