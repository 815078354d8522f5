/**
 The adapters between the two body interfaces: `HyperBody` polls a pull-style
 body through a stored future, and `MonoioBody` pulls from a polled body and
 skips frames that are not data.
 */
module Bodies {
  /** A data chunk, a frame of another kind (which a pull-style body does not
      have), or an error. */
  datatype Item = Chunk(data: seq<nat>) | Other | Error(code: nat)

  /** A pending `next_data` future of a source. It has already taken what it
      will yield out of the source, so dropping it would lose that item. */
  datatype Future = Unarmed | Carrying(item: Item) | AtEnd

  /** A source of either kind under any stack of adapters. */
  datatype Body =
    | Source(items: seq<Item>, fut: Future)
    | Frames(frames: seq<Item>)
    | Hyper(armed: bool, inner: Body)
    | Monoio(inner: Body)

  datatype Poll = Pending | End | Ready(item: Item)

  /** `ready` holds the decisions of the sources: at each poll of a source the
      next one tells whether it is ready. */
  datatype Polled = Polled(result: Poll, body: Body, ready: seq<bool>)

  /** Calling `next_data` makes a new future; an old one is dropped. */
  function Arm(b: Body): Body {
    if b.Source? then
      if b.items == [] then Source([], AtEnd) else Source(b.items[1..], Carrying(b.items[0]))
    else b
  }

  function Depth(b: Body): nat {
    if b.Hyper? || b.Monoio? then 1 + Depth(b.inner) else 0
  }

  /** One poll: `poll_frame` of a polled body, or the future of `next_data` of a
      pull-style one. */
  function PollOnce(b: Body, ready: seq<bool>): (r: Polled)
    ensures ready == [] ==> r.result.Pending? && r.ready == []
    ensures ready != [] ==> |r.ready| < |ready|
    ensures Depth(r.body) == Depth(b)
    ensures r.body.Source? == b.Source? && r.body.Frames? == b.Frames? && r.body.Hyper? == b.Hyper?
    decreases Depth(b), |ready|
  {
    match b
    case Source(items, fut) =>
      if ready == [] || fut.Unarmed? then Polled(Pending, b, if ready == [] then [] else ready[1..])
      else if !ready[0] then Polled(Pending, b, ready[1..])
      else Polled(if fut.AtEnd? then End else Ready(fut.item), Source(items, Unarmed), ready[1..])
    case Frames(frames) =>
      if ready == [] || !ready[0] then Polled(Pending, b, if ready == [] then [] else ready[1..])
      else if frames == [] then Polled(End, b, ready[1..])
      else Polled(Ready(frames[0]), Frames(frames[1..]), ready[1..])
    case Hyper(armed, inner) =>
      var r := PollOnce(if armed then inner else Arm(inner), ready);
      Polled(r.result, Hyper(r.result.Pending?, r.body), r.ready)
    case Monoio(inner) =>
      var r := PollOnce(inner, ready);
      if r.result.Ready? && r.result.item.Other? then PollOnce(Monoio(r.body), r.ready)
      else Polled(r.result, Monoio(r.body), r.ready)
  }

  // ---- The stream a body stands for ----

  function WithoutOther(xs: seq<Item>): seq<Item> {
    if xs == [] then []
    else (if xs[0].Other? then [] else [xs[0]]) + WithoutOther(xs[1..])
  }

  /** The items still to come. */
  function Stream(b: Body): seq<Item> {
    match b
    case Source(items, fut) => (if fut.Carrying? then [fut.item] else []) + items
    case Frames(frames) => frames
    case Hyper(_, inner) => Stream(inner)
    case Monoio(inner) => WithoutOther(Stream(inner))
  }

  /** The items the source at the bottom still holds. */
  function Stock(b: Body): nat {
    match b
    case Source(items, fut) => |items| + (if fut.Carrying? then 1 else 0)
    case Frames(frames) => |frames|
    case Hyper(_, inner) => Stock(inner)
    case Monoio(inner) => Stock(inner)
  }

  /** No future is in flight that a call of `next_data` would drop. */
  predicate Settled(b: Body) {
    b.Source? ==> b.fut.Unarmed?
  }

  predicate Armed(b: Body) {
    b.Source? ==> !b.fut.Unarmed? && (b.fut.AtEnd? ==> b.items == [])
  }

  /** Adapters fit their bodies, and an adapter's flag knows about its future. */
  predicate Fits(b: Body) {
    match b
    case Source(_, _) => true
    case Frames(_) => true
    case Hyper(armed, inner) =>
      && (inner.Source? || inner.Monoio?) && Fits(inner)
      && (if armed then Armed(inner) else Settled(inner))
    case Monoio(inner) => (inner.Frames? || inner.Hyper?) && Fits(inner)
  }

  function Readies(ready: seq<bool>): nat {
    if ready == [] then 0 else (if ready[0] then 1 else 0) + Readies(ready[1..])
  }

  lemma {:induction false} ReadiesCount(a: seq<bool>, b: seq<bool>)
    ensures Readies(a + b) == Readies(a) + Readies(b)
    ensures Readies([]) == 0 && Readies([true]) == 1 && Readies([false]) == 0
    decreases a
  {
    assert [true][1..] == [] && [false][1..] == [];
    if a == [] {
      assert a + b == b;
    } else {
      assert (a + b)[1..] == a[1..] + b;
      ReadiesCount(a[1..], b);
    }
  }

  lemma ArmKeeps(b: Body)
    requires Fits(b) && Settled(b)
    ensures Fits(Arm(b)) && Armed(Arm(b)) && Stream(Arm(b)) == Stream(b) && Stock(Arm(b)) == Stock(b)
  {
    if b.Source? && b.items != [] {
      assert b.items == [b.items[0]] + b.items[1..];
    }
  }

  /** What a poll may do to the stream: nothing if it is pending, otherwise take
      its head or report its end; each ready source poll takes one item. */
  ghost predicate PollOk(b: Body, ready: seq<bool>, r: Polled) {
    && Fits(r.body)
    && (match r.result
        case Pending => Stream(r.body) == Stream(b) && Armed(r.body)
        case Ready(x) => Stream(b) == [x] + Stream(r.body) && Settled(r.body)
        case End => Stream(b) == [] && Stream(r.body) == [] && Settled(r.body))
    && Stock(b) - Stock(r.body) + (if r.result.End? then 1 else 0) == Readies(ready) - Readies(r.ready)
  }

  lemma SourcePoll(b: Body, ready: seq<bool>)
    requires Fits(b) && Armed(b) && (b.Source? || b.Frames?)
    ensures PollOk(b, ready, PollOnce(b, ready))
  {
    if b.Frames? && b.frames != [] {
      assert b.frames == [b.frames[0]] + b.frames[1..];
    }
    if b.Source? {
      assert [] + b.items == b.items;
    }
  }

  lemma SkipHead(x: Item, xs: seq<Item>)
    ensures WithoutOther([x] + xs) == (if x.Other? then [] else [x]) + WithoutOther(xs)
  {
    assert ([x] + xs)[1..] == xs;
  }

  /** Dropping the frames of another kind works item by item and keeps the order. */
  lemma {:induction false} OnlyOtherDropped(a: seq<Item>, b: seq<Item>)
    ensures WithoutOther(a + b) == WithoutOther(a) + WithoutOther(b)
    ensures |a| == 1 ==> WithoutOther(a) == if a[0].Chunk? || a[0].Error? then a else []
    decreases a
  {
    if a == [] {
      assert a + b == b;
    } else {
      assert (a + b)[0] == a[0] && (a + b)[1..] == a[1..] + b;
      OnlyOtherDropped(a[1..], b);
    }
  }

  /** A poll of a `MonoioBody` that does not meet a frame to skip. */
  lemma MonoioPoll(inner: Body, ready: seq<bool>, r: Polled)
    requires PollOk(inner, ready, r) && (r.body.Frames? || r.body.Hyper?)
    requires !(r.result.Ready? && r.result.item.Other?)
    ensures PollOk(Monoio(inner), ready, Polled(r.result, Monoio(r.body), r.ready))
  {
    if r.result.Ready? { SkipHead(r.result.item, Stream(r.body)); }
  }

  lemma MonoioSkip(inner: Body, ready: seq<bool>, r: Polled, r': Polled)
    requires PollOk(inner, ready, r) && r.result == Ready(Other)
    requires PollOk(Monoio(r.body), r.ready, r')
    ensures PollOk(Monoio(inner), ready, r')
  {
    SkipHead(Other, Stream(r.body));
    assert [] + WithoutOther(Stream(r.body)) == WithoutOther(Stream(r.body));
  }

  lemma {:induction false} PollMeaning(b: Body, ready: seq<bool>)
    requires Fits(b) && Armed(b)
    ensures PollOk(b, ready, PollOnce(b, ready))
    decreases Depth(b), |ready|
  {
    match b
    case Source(_, _) => SourcePoll(b, ready);
    case Frames(_) => SourcePoll(b, ready);
    case Hyper(armed, inner) =>
      if !armed { ArmKeeps(inner); }
      PollMeaning(if armed then inner else Arm(inner), ready);
    case Monoio(inner) =>
      PollMeaning(inner, ready);
      var r := PollOnce(inner, ready);
      if r.result.Ready? && r.result.item.Other? {
        PollMeaning(Monoio(r.body), r.ready);
        MonoioSkip(inner, ready, r, PollOnce(Monoio(r.body), r.ready));
      } else {
        MonoioPoll(inner, ready, r);
      }
  }

  // ---- Reading a body to its end ----

  datatype Reading = Reading(items: seq<Item>, ended: bool)

  /** A consumer that polls, or awaits `next_data`, until the end or until the
      sources have no more decisions to offer. */
  function Drain(b: Body, ready: seq<bool>): Reading
    decreases |ready|
  {
    if ready == [] then Reading([], false)
    else
      var r := PollOnce(if b.Source? && b.fut.Unarmed? then Arm(b) else b, ready);
      match r.result
      case Pending => Drain(r.body, r.ready)
      case End => Reading([], true)
      case Ready(x) => var rest := Drain(r.body, r.ready); Reading([x] + rest.items, rest.ended)
  }

  /** For every pattern of pending and ready polls a stack of adapters yields a
      prefix of its stream, the whole of it once it reports the end, and it does
      report the end once its source was ready often enough. */
  lemma {:induction false} DrainIsExact(b: Body, ready: seq<bool>)
    requires Fits(b) && (Settled(b) || Armed(b))
    ensures var r := Drain(b, ready);
            && r.items <= Stream(b)
            && (r.ended ==> r.items == Stream(b))
            && (Readies(ready) > Stock(b) ==> r.ended)
    decreases |ready|
  {
    if ready != [] {
      var b1 := if b.Source? && b.fut.Unarmed? then Arm(b) else b;
      if Settled(b) { ArmKeeps(b); }
      PollMeaning(b1, ready);
      var r := PollOnce(b1, ready);
      if !r.result.End? { DrainIsExact(r.body, r.ready); }
    }
  }

  lemma {:induction false} NothingToSkip(xs: seq<Item>)
    requires Other !in xs
    ensures WithoutOther(xs) == xs
  {
    if xs != [] {
      assert xs == [xs[0]] + xs[1..];
      NothingToSkip(xs[1..]);
    }
  }

  /** `MonoioBody(HyperBody(b))` yields what `b` yields. */
  lemma MonoioUndoesHyper(items: seq<Item>, ready: seq<bool>)
    requires Other !in items
    ensures var r := Drain(Monoio(Hyper(false, Source(items, Unarmed))), ready);
            && r.items <= items
            && (r.ended ==> r.items == items)
            && (Readies(ready) > |items| ==> r.ended)
  {
    NothingToSkip(items);
    var source := Source(items, Unarmed);
    assert Fits(source) && Stream(source) == [] + items == items && Stock(source) == |items|;
    var hyper := Hyper(false, source);
    assert Fits(hyper) && Stream(hyper) == items && Stock(hyper) == |items|;
    DrainIsExact(Monoio(hyper), ready);
  }

  /** `HyperBody(MonoioBody(h))` yields the data frames and errors of `h`. */
  lemma HyperUndoesMonoio(frames: seq<Item>, ready: seq<bool>)
    ensures var r := Drain(Hyper(false, Monoio(Frames(frames))), ready);
            && r.items <= WithoutOther(frames)
            && (r.ended ==> r.items == WithoutOther(frames))
            && (Readies(ready) > |frames| ==> r.ended)
  {
    var source := Frames(frames);
    assert Fits(source) && Stream(source) == frames && Stock(source) == |frames|;
    var monoio := Monoio(source);
    assert Fits(monoio) && Stream(monoio) == WithoutOther(frames) && Stock(monoio) == |frames|;
    DrainIsExact(Hyper(false, monoio), ready);
  }

  // ---- The adapters as objects ----

  class HyperBody {
    var armed: bool
    var body: Body

    constructor (body: Body)
      ensures !armed && this.body == body
    {
      armed, this.body := false, body;
    }

    method PollFrame(ready: seq<bool>) returns (result: Poll, left: seq<bool>)
      modifies this
      ensures Polled(result, Hyper(armed, body), left) == PollOnce(Hyper(old(armed), old(body)), ready)
    {
      if !armed {
        body := Arm(body);
      }
      var r := PollOnce(body, ready);
      armed, body := r.result.Pending?, r.body;
      return r.result, r.ready;
    }
  }

  class MonoioBody {
    var body: Body

    constructor (body: Body)
      ensures this.body == body
    {
      this.body := body;
    }

    /** One poll of the future of `next_data`. */
    method PollNextData(ready: seq<bool>) returns (result: Poll, left: seq<bool>)
      modifies this
      ensures Polled(result, Monoio(body), left) == PollOnce(Monoio(old(body)), ready)
    {
      left := ready;
      while true
        invariant PollOnce(Monoio(body), left) == PollOnce(Monoio(old(body)), ready)
        decreases |left|
      {
        var r := PollOnce(body, left);
        body, left := r.body, r.ready;
        if !(r.result.Ready? && r.result.item.Other?) {
          return r.result, left;
        }
      }
    }
  }
}
