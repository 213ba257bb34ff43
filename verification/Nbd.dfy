/**
  The NBD transmission phase: requests read off a byte stream one by one, each answered by one simple reply.
  The message layouts are those of 'Request message' and 'Simple reply message' of the NBD protocol (doc/proto.md).
*/
module Nbd {
  import opened Common
  import opened Store
  import opened Device
  import B = BufferedBackend
  import PM = PageMap
  import L = Lru

  // ----- Big-endian integers -----

  function ToBE(v: nat, len: nat): (r: seq<Byte>)
    ensures |r| == len
  {
    if len == 0 then [] else ToBE(v / 256, len - 1) + [ToByte(v % 256)]
  }

  function FromBE(s: seq<Byte>): nat {
    if s == [] then 0 else 256 * FromBE(s[..|s| - 1]) + FromByte(s[|s| - 1])
  }

  lemma {:induction false} BERoundTrip(v: nat, len: nat)
    requires v < Pow256(len)
    ensures FromBE(ToBE(v, len)) == v
  {
    if len > 0 {
      BERoundTrip(v / 256, len - 1);
      var s := ToBE(v, len);
      assert s[..|s| - 1] == ToBE(v / 256, len - 1);
      ByteRoundTrip(v % 256);
    }
  }

  // ----- Messages -----

  const REQUEST_MAGIC: nat := 0x25609513
  const REPLY_MAGIC: nat := 0x67446698

  const CMD_READ: nat := 0
  const CMD_WRITE: nat := 1
  const CMD_DISC: nat := 2
  const CMD_FLUSH: nat := 3
  const CMD_TRIM: nat := 4
  const CMD_WRITE_ZEROES: nat := 6

  const EPERM: nat := 1
  const EIO: nat := 5
  const EINVAL: nat := 22
  const ENOSPC: nat := 28

  const HEADER: nat := 28
  const REPLY_HEADER: nat := 16

  /** A request; only a write carries a payload, of `length` bytes. */
  datatype Request = Request(flags: nat, cmd: nat, handle: nat, offset: nat, length: nat, payload: seq<Byte>)

  predicate WellFormed(r: Request) {
    && r.flags < 0x1_0000 && r.cmd < 0x1_0000
    && r.handle < 0x1_0000_0000_0000_0000 && r.offset < 0x1_0000_0000_0000_0000 && r.length < 0x1_0000_0000
    && |r.payload| == if r.cmd == CMD_WRITE then r.length else 0
  }

  function EncodeHeader(r: Request): (h: seq<Byte>)
    ensures |h| == HEADER
  {
    ToBE(REQUEST_MAGIC, 4) + ToBE(r.flags, 2) + ToBE(r.cmd, 2) + ToBE(r.handle, 8) + ToBE(r.offset, 8) + ToBE(r.length, 4)
  }

  function Encode(r: Request): seq<Byte> { EncodeHeader(r) + r.payload }

  function EncodeAll(rs: seq<Request>): seq<Byte> {
    if rs == [] then [] else Encode(rs[0]) + EncodeAll(rs[1..])
  }

  /** What the server finds at the head of the stream: its end, something it gives up on, or a request. */
  datatype Parsed = Eof | Bad | Got(request: Request, size: nat)

  function Field(input: seq<Byte>, at: nat, len: nat): nat
    requires at + len <= |input|
  {
    FromBE(input[at..at + len])
  }

  function Parse(input: seq<Byte>): (p: Parsed)
    ensures p.Got? ==> HEADER <= p.size <= |input|
  {
    if |input| < 4 then Eof
    else if Field(input, 0, 4) != REQUEST_MAGIC then Bad
    else if |input| < HEADER then Bad
    else
      var cmd, length := Field(input, 6, 2), Field(input, 24, 4);
      var size := if cmd == CMD_WRITE then HEADER + length else HEADER;
      if |input| < size then Bad
      else Got(Request(Field(input, 4, 2), cmd, Field(input, 8, 8), Field(input, 16, 8), length, input[HEADER..size]), size)
  }

  lemma HeaderSlices(a: seq<Byte>, b: seq<Byte>, c: seq<Byte>, d: seq<Byte>, e: seq<Byte>, f: seq<Byte>, rest: seq<Byte>)
    requires |a| == |f| == 4 && |b| == |c| == 2 && |d| == |e| == 8
    ensures var s := a + b + c + d + e + f + rest;
            && s[0..4] == a && s[4..6] == b && s[6..8] == c && s[8..16] == d && s[16..24] == e && s[24..28] == f
            && s[28..] == rest
  {
  }

  /** Parsing takes exactly one encoded request off the stream, whatever follows it. */
  lemma ParseEncoded(r: Request, rest: seq<Byte>)
    requires WellFormed(r)
    ensures Parse(Encode(r) + rest) == Got(r, |Encode(r)|) && (Encode(r) + rest)[|Encode(r)|..] == rest
  {
    hide ToBE, FromBE;
    Pow256Facts();
    BERoundTrip(REQUEST_MAGIC, 4);
    BERoundTrip(r.flags, 2);
    BERoundTrip(r.cmd, 2);
    BERoundTrip(r.handle, 8);
    BERoundTrip(r.offset, 8);
    BERoundTrip(r.length, 4);
    var s := Encode(r) + rest;
    HeaderSlices(ToBE(REQUEST_MAGIC, 4), ToBE(r.flags, 2), ToBE(r.cmd, 2), ToBE(r.handle, 8), ToBE(r.offset, 8), ToBE(r.length, 4), r.payload + rest);
    assert s == EncodeHeader(r) + (r.payload + rest);
    assert s[HEADER..HEADER + |r.payload|] == r.payload;
  }

  // ----- What each request does -----

  /** `bounds_error`: the error for a misaligned or out-of-range request, or zero. */
  function BoundsError(offset: nat, length: nat, devSize: nat): nat {
    if !Aligned(offset) || !Aligned(length) then EINVAL
    else if offset + length <= devSize then 0 else ENOSPC
  }

  predicate IsClear(cmd: nat) { cmd == CMD_TRIM || cmd == CMD_WRITE_ZEROES }

  predicate Known(cmd: nat) { cmd == CMD_READ || cmd == CMD_WRITE || cmd == CMD_FLUSH || IsClear(cmd) }

  /** How a call of the backend ended: done, or failed, for a write or clear after its first `wrote` bytes. */
  datatype Outcome = Done | Fails(wrote: nat)

  /** A request that reaches the backend. */
  predicate Reaches(r: Request, devSize: nat, readOnly: bool) {
    || r.cmd == CMD_FLUSH
    || (Known(r.cmd) && !(r.cmd != CMD_READ && readOnly) && BoundsError(r.offset, r.length, devSize) == 0)
  }

  /** The error a request is answered with; zero is success. */
  function ErrorOf(r: Request, size: nat, devSize: nat, readOnly: bool, o: Outcome): nat {
    if !Known(r.cmd) then EINVAL
    else if r.cmd == CMD_FLUSH then (if o.Done? then 0 else EIO)
    else if r.cmd != CMD_READ && readOnly then EPERM
    else if BoundsError(r.offset, r.length, devSize) != 0 then BoundsError(r.offset, r.length, devSize)
    else if o.Done? && Accepted(r.offset, r.length, size) then 0 else EIO
  }

  /** What a write, trim or write-zeroes puts on the device. */
  function BytesOf(r: Request): seq<Byte> { if r.cmd == CMD_WRITE then r.payload else Zeroed(r.length) }

  /** The device with the first `n` bytes of what the request puts there. */
  function Torn(dev: seq<Byte>, r: Request, n: nat): (d: seq<Byte>)
    requires r.cmd == CMD_WRITE ==> |r.payload| == r.length
    ensures |d| == |dev|
  {
    if r.offset + r.length > |dev| then dev
    else Splice(dev, r.offset, BytesOf(r)[..if n < r.length then n else r.length])
  }

  /** The data that follows a reply header: the bytes read, and only for a read that succeeded. */
  function DataOf(r: Request, error: nat, dev: seq<Byte>): (d: seq<Byte>)
    requires r.cmd == CMD_READ && error == 0 ==> Accepted(r.offset, r.length, |dev|)
    ensures |d| == if r.cmd == CMD_READ && error == 0 then r.length else 0
  {
    if r.cmd == CMD_READ && error == 0 && r.length > 0 then dev[r.offset..r.offset + r.length] else []
  }

  function SimpleReply(error: nat, handle: nat, data: seq<Byte>): (s: seq<Byte>)
    ensures |s| == REPLY_HEADER + |data|
  {
    ToBE(REPLY_MAGIC, 4) + ToBE(error, 4) + ToBE(handle, 8) + data
  }

  /** The device after a request: changed only by a write, trim or write-zeroes that reached the backend. */
  function DeviceAfter(dev: seq<Byte>, r: Request, devSize: nat, readOnly: bool, o: Outcome): (d: seq<Byte>)
    requires r.cmd == CMD_WRITE ==> |r.payload| == r.length
    ensures |d| == |dev|
  {
    if !Reaches(r, devSize, readOnly) || r.cmd == CMD_FLUSH || r.cmd == CMD_READ then dev
    else Torn(dev, r, if o.Done? then r.length else o.wrote)
  }

  /** The outcome of the next call, and those after it; calls past the end of the list succeed. */
  function First(os: seq<Outcome>): Outcome { if os == [] then Done else os[0] }

  function Later(os: seq<Outcome>): seq<Outcome> { if os == [] then [] else os[1..] }

  /** Requests up to and not including the first disconnect. */
  function Served(rs: seq<Request>): seq<Request> {
    if rs == [] || rs[0].cmd == CMD_DISC then [] else [rs[0]] + Served(rs[1..])
  }

  ghost predicate AllWellFormed(rs: seq<Request>) { forall i | 0 <= i < |rs| :: WellFormed(rs[i]) }

  /** The device after a list of requests: the fold of the accepted ones. */
  function Fold(dev: seq<Byte>, rs: seq<Request>, devSize: nat, readOnly: bool, os: seq<Outcome>): (d: seq<Byte>)
    requires AllWellFormed(rs)
    ensures |d| == |dev|
    decreases |rs|
  {
    if rs == [] then dev else Fold(DeviceAfter(dev, rs[0], devSize, readOnly, First(os)), rs[1..], devSize, readOnly, Later(os))
  }

  /** The replies to a list of requests: one each, in order, with the request's handle. */
  function Replies(dev: seq<Byte>, rs: seq<Request>, devSize: nat, readOnly: bool, os: seq<Outcome>): seq<Byte>
    requires AllWellFormed(rs)
    decreases |rs|
  {
    if rs == [] then []
    else
      var error := ErrorOf(rs[0], |dev|, devSize, readOnly, First(os));
      SimpleReply(error, rs[0].handle, DataOf(rs[0], error, dev)) +
      Replies(DeviceAfter(dev, rs[0], devSize, readOnly, First(os)), rs[1..], devSize, readOnly, Later(os))
  }

  // ----- The server on any byte stream -----

  /** What the server has sent, the device it leaves, the bytes it did not read, and whether it ended in order. */
  datatype Session = Session(out: seq<Byte>, dev: seq<Byte>, rest: seq<Byte>, ok: bool)

  function Serve(input: seq<Byte>, dev: seq<Byte>, devSize: nat, readOnly: bool, os: seq<Outcome>): Session
    decreases |input|
  {
    match Parse(input)
    case Eof => Session([], dev, input, true)
    case Bad => Session([], dev, input, false)
    case Got(r, size) =>
      if r.cmd == CMD_DISC then Session([], dev, input[size..], true)
      else
        PayloadFits(input);
        var error := ErrorOf(r, |dev|, devSize, readOnly, First(os));
        var s := Serve(input[size..], DeviceAfter(dev, r, devSize, readOnly, First(os)), devSize, readOnly, Later(os));
        s.(out := SimpleReply(error, r.handle, DataOf(r, error, dev)) + s.out)
  }

  lemma PayloadFits(input: seq<Byte>)
    requires Parse(input).Got?
    ensures Parse(input).request.cmd == CMD_WRITE ==> |Parse(input).request.payload| == Parse(input).request.length
  {
  }

  /** Serving a stream, one request unfolded. */
  lemma ServeStep(input: seq<Byte>, dev: seq<Byte>, devSize: nat, readOnly: bool, os: seq<Outcome>)
    ensures !Parse(input).Got? ==> Serve(input, dev, devSize, readOnly, os) == Session([], dev, input, Parse(input).Eof?)
    ensures Parse(input).Got? && Parse(input).request.cmd == CMD_DISC ==>
              Serve(input, dev, devSize, readOnly, os) == Session([], dev, input[Parse(input).size..], true)
    ensures Parse(input).Got? && Parse(input).request.cmd == CMD_WRITE ==>
              |Parse(input).request.payload| == Parse(input).request.length
    ensures Parse(input).Got? && Parse(input).request.cmd != CMD_DISC ==>
              Serve(input, dev, devSize, readOnly, os) == Prepended(Parse(input).request, dev, devSize, readOnly, os,
                Serve(input[Parse(input).size..], DeviceAfter(dev, Parse(input).request, devSize, readOnly, First(os)), devSize, readOnly, Later(os)))
  {
  }

  /** A session with the reply to one request before it. */
  function Prepended(r: Request, dev: seq<Byte>, devSize: nat, readOnly: bool, os: seq<Outcome>, s: Session): Session {
    var error := ErrorOf(r, |dev|, devSize, readOnly, First(os));
    s.(out := SimpleReply(error, r.handle, DataOf(r, error, dev)) + s.out)
  }

  // ----- The server over the write-back buffer -----

  lemma WholeIsTorn(v: seq<Byte>, r: Request)
    requires (r.cmd == CMD_WRITE ==> |r.payload| == r.length) && Accepted(r.offset, r.length, |v|)
    ensures r.length > 0 ==> Torn(v, r, r.length) == Splice(v, r.offset, BytesOf(r))
    ensures r.length == 0 ==> Torn(v, r, r.length) == v
  {
    assert BytesOf(r)[..r.length] == BytesOf(r);
    if r.length == 0 && r.offset <= |v| { SpliceNothing(v, r.offset); }
  }

  /** A write, trim or write-zeroes that reaches the backend. */
  method Change(r: Request, backend: B.BufferedBackend) returns (done: Result<()>, ghost o: Outcome)
    requires backend.Valid() && (r.cmd == CMD_WRITE || IsClear(r.cmd)) && (r.cmd == CMD_WRITE ==> |r.payload| == r.length)
    modifies backend, backend.inner, backend.lru
    ensures backend.Valid() && backend.View() == Torn(old(backend.View()), r, if o.Done? then r.length else o.wrote)
    ensures done.Ok? <==> o.Done?
    ensures backend.inner.failures >= old(backend.inner.failures)
    ensures o.Done? <==> Accepted(r.offset, r.length, |old(backend.View())|) && backend.inner.failures == old(backend.inner.failures)
  {
    hide B.BufferedBackend.Valid, B.BufferedBackend.View, B.BufferedBackend.Fits, Splice, Partly, Accepted, PM.AllTouched, PM.Added,
         PM.Restamped;
    ghost var v := backend.View();
    ghost var n;
    if r.cmd == CMD_WRITE {
      done, n := backend.Write(r.offset, r.payload);
    } else {
      done, n := backend.Clear(r.offset, r.length);
    }
    if done.Ok? {
      o := Done;
      WholeIsTorn(v, r);
    } else {
      o := Fails(n);
    }
  }

  lemma InBounds(offset: nat, length: nat, devSize: nat, size: nat)
    ensures BoundsError(offset, length, devSize) == 0 && devSize <= size ==> Accepted(offset, length, size)
  {
  }

  /** One request against the buffer, step by step as the command loop runs it; `o` is how its backend call ended. */
  method Handle(r: Request, backend: B.BufferedBackend, devSize: nat, readOnly: bool) returns (reply: seq<Byte>, ghost o: Outcome)
    requires backend.Valid() && r.cmd != CMD_DISC && (r.cmd == CMD_WRITE ==> |r.payload| == r.length)
    modifies backend, backend.inner, backend.lru
    ensures backend.Valid() && backend.View() == DeviceAfter(old(backend.View()), r, devSize, readOnly, o)
    ensures var error := ErrorOf(r, |old(backend.View())|, devSize, readOnly, o);
            reply == SimpleReply(error, r.handle, DataOf(r, error, old(backend.View())))
    ensures Reaches(r, devSize, readOnly) ==>
              (o.Done? <==> backend.inner.failures == old(backend.inner.failures)
                            && (r.cmd == CMD_FLUSH || Accepted(r.offset, r.length, |old(backend.View())|)))
    ensures backend.inner.failures >= old(backend.inner.failures)
    ensures o.Fails? ==> backend.inner.failures > old(backend.inner.failures) || devSize > |old(backend.View())|
    ensures r.cmd == CMD_FLUSH && o.Done? ==> backend.inner.flushed == backend.inner.data == backend.View()
  {
    hide ToBE, Splice, B.BufferedBackend.Valid, B.BufferedBackend.View, B.BufferedBackend.Fits, B.BufferedBackend.Bounded, Torn,
         Accepted, SimpleReply, BoundsError, PM.AllTouched, PM.PageAt, PM.Dirty, L.Newest;
    InBounds(r.offset, r.length, devSize, |backend.View()|);
    o := Done;
    if r.cmd == CMD_READ {
      var err := BoundsError(r.offset, r.length, devSize);
      if err != 0 { return SimpleReply(err, r.handle, []), Done; }
      var data := backend.Read(r.offset, r.length);
      o := if data.Ok? then Done else Fails(0);
      reply := if data.Ok? && |data.value| == r.length then SimpleReply(0, r.handle, data.value) else SimpleReply(EIO, r.handle, []);
    } else if r.cmd == CMD_FLUSH {
      var done := backend.Flush();
      o := if done.Ok? then Done else Fails(0);
      reply := SimpleReply(if done.Ok? then 0 else EIO, r.handle, []);
    } else if r.cmd == CMD_WRITE || IsClear(r.cmd) {
      if readOnly { return SimpleReply(EPERM, r.handle, []), Done; }
      var err := BoundsError(r.offset, r.length, devSize);
      if err != 0 { return SimpleReply(err, r.handle, []), Done; }
      var done;
      done, o := Change(r, backend);
      reply := SimpleReply(if done.Ok? then 0 else EIO, r.handle, []);
    } else {
      reply := SimpleReply(EINVAL, r.handle, []);
    }
  }

  /** A session with what was sent before it. */
  function Resumed(out: seq<Byte>, s: Session): Session { s.(out := out + s.out) }

  /** Having sent `out` and read `pos` bytes, whatever the later calls do, the session goes on from `dev`. */
  ghost predicate SoFar(input: seq<Byte>, dev0: seq<Byte>, devSize: nat, readOnly: bool, os: seq<Outcome>, out: seq<Byte>, pos: nat, dev: seq<Byte>) {
    pos <= |input| &&
    forall more: seq<Outcome> ::
      Serve(input, dev0, devSize, readOnly, os + more) == Resumed(out, Serve(input[pos..], dev, devSize, readOnly, more))
  }

  lemma SoFarBegins(input: seq<Byte>, dev: seq<Byte>, devSize: nat, readOnly: bool)
    ensures SoFar(input, dev, devSize, readOnly, [], [], 0, dev)
  {
    hide Serve;
    assert input[0..] == input;
    forall more: seq<Outcome>
      ensures Serve(input, dev, devSize, readOnly, [] + more) == Resumed([], Serve(input[0..], dev, devSize, readOnly, more))
    {
      assert [] + more == more;
    }
  }

  lemma SoFarNext(input: seq<Byte>, dev0: seq<Byte>, devSize: nat, readOnly: bool, os: seq<Outcome>, out: seq<Byte>, pos: nat,
                  dev: seq<Byte>, r: Request, size: nat, o: Outcome)
    requires SoFar(input, dev0, devSize, readOnly, os, out, pos, dev)
    requires Parse(input[pos..]) == Got(r, size) && r.cmd != CMD_DISC && (r.cmd == CMD_WRITE ==> |r.payload| == r.length)
    ensures var error := ErrorOf(r, |dev|, devSize, readOnly, o);
      SoFar(input, dev0, devSize, readOnly, os + [o], out + SimpleReply(error, r.handle, DataOf(r, error, dev)), pos + size,
            DeviceAfter(dev, r, devSize, readOnly, o))
  {
    hide Parse, SimpleReply, DataOf, Serve, DeviceAfter, BoundsError, Accepted;
    var error := ErrorOf(r, |dev|, devSize, readOnly, o);
    var reply := SimpleReply(error, r.handle, DataOf(r, error, dev));
    var next := DeviceAfter(dev, r, devSize, readOnly, o);
    assert input[pos..][size..] == input[pos + size..];
    forall more: seq<Outcome>
      ensures Serve(input, dev0, devSize, readOnly, os + [o] + more) ==
              Resumed(out + reply, Serve(input[pos + size..], next, devSize, readOnly, more))
    {
      assert os + [o] + more == os + ([o] + more);
      assert First([o] + more) == o && Later([o] + more) == more;
      ServeStep(input[pos..], dev, devSize, readOnly, [o] + more);
      var s := Serve(input[pos + size..], next, devSize, readOnly, more);
      assert out + (reply + s.out) == out + reply + s.out;
    }
  }

  lemma SoFarEnds(input: seq<Byte>, dev0: seq<Byte>, devSize: nat, readOnly: bool, os: seq<Outcome>, out: seq<Byte>, pos: nat, dev: seq<Byte>)
    requires SoFar(input, dev0, devSize, readOnly, os, out, pos, dev)
    requires !Parse(input[pos..]).Got? || Parse(input[pos..]).request.cmd == CMD_DISC
    ensures var p := Parse(input[pos..]);
      Serve(input, dev0, devSize, readOnly, os) ==
      Session(out, dev, input[if p.Got? then pos + p.size else pos..], p.Got? || p.Eof?)
  {
    hide Parse, Serve;
    assert os + [] == os;
    ServeStep(input[pos..], dev, devSize, readOnly, []);
    var p := Parse(input[pos..]);
    assert out + [] == out;
    if p.Got? { assert input[pos..][p.size..] == input[pos + p.size..]; }
  }

  /**
    The transmission loop over a whole input stream; `pos` is how far it has read, `os` how the backend calls ended, and
    `left` whether the client took its leave, upon which the device is flushed.
  */
  method Transmission(input: seq<Byte>, backend: B.BufferedBackend, devSize: nat, readOnly: bool)
    returns (out: seq<Byte>, pos: nat, ok: bool, ghost os: seq<Outcome>, ghost left: bool)
    requires backend.Valid()
    modifies backend, backend.inner, backend.lru
    ensures backend.Valid() && pos <= |input|
    ensures Session(out, backend.View(), input[pos..], ok) == Serve(input, old(backend.View()), devSize, readOnly, os)
    ensures devSize <= |old(backend.View())| && (exists o :: o in os && o.Fails?) ==> backend.inner.failures > old(backend.inner.failures)
    ensures left || !Parse(input[pos..]).Got?
    ensures left && backend.inner.failures == old(backend.inner.failures) ==> backend.inner.flushed == backend.inner.data == backend.View()
  {
    hide Parse, ErrorOf, DeviceAfter, SimpleReply, DataOf, Serve, B.BufferedBackend.Valid, B.BufferedBackend.View,
         Reaches, Accepted, SoFar;
    out, pos, os := [], 0, [];
    ghost var dev0 := backend.View();
    SoFarBegins(input, dev0, devSize, readOnly);
    while true
      invariant backend.Valid() && pos <= |input|
      invariant SoFar(input, dev0, devSize, readOnly, os, out, pos, backend.View())
      invariant |backend.View()| == |dev0| && backend.inner.failures >= old(backend.inner.failures)
      invariant devSize <= |dev0| && (exists o :: o in os && o.Fails?) ==> backend.inner.failures > old(backend.inner.failures)
      decreases |input| - pos
    {
      var p := Parse(input[pos..]);
      ghost var dev := backend.View();
      if !p.Got? || p.request.cmd == CMD_DISC {
        SoFarEnds(input, dev0, devSize, readOnly, os, out, pos, dev);
        if p.Eof? { return out, pos, true, os, false; }
        if p.Bad? { return out, pos, false, os, false; }
        var flushed := backend.Flush();
        return out, pos + p.size, true, os, true;
      }
      PayloadFits(input[pos..]);
      var reply;
      ghost var o;
      reply, o := Handle(p.request, backend, devSize, readOnly);
      SoFarNext(input, dev0, devSize, readOnly, os, out, pos, dev, p.request, p.size, o);
      out, pos, os := out + reply, pos + p.size, os + [o];
    }
  }

  // ----- Stream sync -----

  lemma {:induction false} ServedWellFormed(rs: seq<Request>)
    requires AllWellFormed(rs)
    ensures AllWellFormed(Served(rs)) && |Served(rs)| <= |rs|
    ensures forall i | 0 <= i < |Served(rs)| :: Served(rs)[i] == rs[i] && rs[i].cmd != CMD_DISC
  {
    if rs != [] && rs[0].cmd != CMD_DISC {
      assert AllWellFormed(rs[1..]) by { TailWellFormed(rs); }
      ServedWellFormed(rs[1..]);
      var t := Served(rs);
      forall i | 0 <= i < |t| ensures t[i] == rs[i] && rs[i].cmd != CMD_DISC {
        if i > 0 { assert t[i] == Served(rs[1..])[i - 1] && rs[1..][i - 1] == rs[i]; }
      }
    }
  }

  lemma TailWellFormed(rs: seq<Request>)
    requires AllWellFormed(rs) && rs != []
    ensures AllWellFormed(rs[1..])
  {
  }

  /** What is left on the stream once the server has stopped: what came after a disconnect, or nothing. */
  function LeftOver(rs: seq<Request>): seq<Byte> {
    if rs == [] then [] else if rs[0].cmd == CMD_DISC then EncodeAll(rs[1..]) else LeftOver(rs[1..])
  }

  /**
    For every list of requests the server reads exactly their bytes, up to and including a disconnect; replies once
    to each, in order, with its handle; and leaves the fold of the accepted ones.
  */
  lemma {:induction false} StreamStaysInSync(rs: seq<Request>, dev: seq<Byte>, devSize: nat, readOnly: bool, os: seq<Outcome>)
    requires AllWellFormed(rs) && AllWellFormed(Served(rs))
    ensures Serve(EncodeAll(rs), dev, devSize, readOnly, os) ==
            Session(Replies(dev, Served(rs), devSize, readOnly, os), Fold(dev, Served(rs), devSize, readOnly, os), LeftOver(rs), true)
  {
    hide Parse, ErrorOf, DeviceAfter, SimpleReply, DataOf, Encode;
    if rs == [] {
      EndOfStream();
    } else {
      var r, more := rs[0], EncodeAll(rs[1..]);
      ParseEncoded(r, more);
      if r.cmd != CMD_DISC {
        TailWellFormed(rs);
        ServedWellFormed(rs[1..]);
        assert Served(rs)[1..] == Served(rs[1..]);
        StreamStaysInSync(rs[1..], DeviceAfter(dev, r, devSize, readOnly, First(os)), devSize, readOnly, Later(os));
      }
    }
  }

  lemma EndOfStream()
    ensures Parse([]) == Eof
  {
  }

  /** On a read-only export nothing changes the device. */
  lemma {:induction false} ReadOnlyNeverChanges(rs: seq<Request>, dev: seq<Byte>, devSize: nat, os: seq<Outcome>)
    requires AllWellFormed(rs)
    ensures Fold(dev, rs, devSize, true, os) == dev
  {
    if rs != [] {
      TailWellFormed(rs);
      assert DeviceAfter(dev, rs[0], devSize, true, First(os)) == dev;
      ReadOnlyNeverChanges(rs[1..], dev, devSize, Later(os));
    }
  }

  /** No byte stream at all, well-formed or not, changes a read-only device. */
  lemma {:induction false} ReadOnlyStream(input: seq<Byte>, dev: seq<Byte>, devSize: nat, os: seq<Outcome>)
    ensures Serve(input, dev, devSize, true, os).dev == dev
    decreases |input|
  {
    hide SimpleReply;
    var p := Parse(input);
    if p.Got? && p.request.cmd != CMD_DISC {
      PayloadFits(input);
      assert DeviceAfter(dev, p.request, devSize, true, First(os)) == dev;
      ReadOnlyStream(input[p.size..], dev, devSize, Later(os));
    }
  }

  // ----- The client's side -----

  /** What a client that sent `rs` makes of the replies: error and data for each, or nothing if the stream is off. */
  function Receive(out: seq<Byte>, rs: seq<Request>): Result<seq<(nat, seq<Byte>)>>
    decreases |rs|
  {
    if rs == [] then (if out == [] then Ok([]) else Err)
    else if |out| < REPLY_HEADER || Field(out, 0, 4) != REPLY_MAGIC || Field(out, 8, 8) != rs[0].handle then Err
    else
      var error := Field(out, 4, 4);
      var len := if rs[0].cmd == CMD_READ && error == 0 then rs[0].length else 0;
      if |out| < REPLY_HEADER + len then Err
      else
        var more := Receive(out[REPLY_HEADER + len..], rs[1..]);
        if more.Err? then Err else Ok([(error, out[REPLY_HEADER..REPLY_HEADER + len])] + more.value)
  }

  /** What each request should be answered with. */
  function Answers(dev: seq<Byte>, rs: seq<Request>, devSize: nat, readOnly: bool, os: seq<Outcome>): seq<(nat, seq<Byte>)>
    requires AllWellFormed(rs)
    decreases |rs|
  {
    if rs == [] then []
    else
      var error := ErrorOf(rs[0], |dev|, devSize, readOnly, First(os));
      [(error, DataOf(rs[0], error, dev))] + Answers(DeviceAfter(dev, rs[0], devSize, readOnly, First(os)), rs[1..], devSize, readOnly, Later(os))
  }

  lemma ReplyFields(error: nat, handle: nat, data: seq<Byte>, more: seq<Byte>)
    requires error < 0x1_0000_0000 && handle < 0x1_0000_0000_0000_0000
    ensures var s := SimpleReply(error, handle, data) + more;
            && Field(s, 0, 4) == REPLY_MAGIC && Field(s, 4, 4) == error && Field(s, 8, 8) == handle
            && s[REPLY_HEADER..REPLY_HEADER + |data|] == data && s[REPLY_HEADER + |data|..] == more
  {
    hide ToBE, FromBE;
    Pow256Facts();
    BERoundTrip(REPLY_MAGIC, 4);
    BERoundTrip(error, 4);
    BERoundTrip(handle, 8);
    var s := SimpleReply(error, handle, data) + more;
    assert s[0..4] == ToBE(REPLY_MAGIC, 4) && s[4..8] == ToBE(error, 4) && s[8..16] == ToBE(handle, 8);
  }

  /** The client reads back one answer for each request it sent, in order, and nothing is left over. */
  lemma {:induction false} ClientStaysInSync(dev: seq<Byte>, rs: seq<Request>, devSize: nat, readOnly: bool, os: seq<Outcome>)
    requires AllWellFormed(rs)
    ensures Receive(Replies(dev, rs, devSize, readOnly, os), rs) == Ok(Answers(dev, rs, devSize, readOnly, os))
    decreases |rs|
  {
    hide SimpleReply, DeviceAfter, Field;
    if rs != [] {
      TailWellFormed(rs);
      var r, dev' := rs[0], DeviceAfter(dev, rs[0], devSize, readOnly, First(os));
      var error := ErrorOf(r, |dev|, devSize, readOnly, First(os));
      var more := Replies(dev', rs[1..], devSize, readOnly, Later(os));
      ReplyFields(error, r.handle, DataOf(r, error, dev), more);
      ClientStaysInSync(dev', rs[1..], devSize, readOnly, Later(os));
    }
  }

  // ----- What the bytes are, without the server -----

  /** A write, trim or write-zeroes that the server lets through. */
  predicate Changes(r: Request, devSize: nat, readOnly: bool) {
    && (r.cmd == CMD_WRITE || r.cmd == CMD_TRIM || r.cmd == CMD_WRITE_ZEROES) && !readOnly
    && r.offset % 512 == 0 && r.length % 512 == 0 && r.offset + r.length <= devSize
  }

  /** How many bytes of a request the backend call that ended with `o` got done. */
  function Extent(r: Request, o: Outcome): nat { if o.Done? || o.wrote > r.length then r.length else o.wrote }

  /** How the call of request `i` ended. */
  function OutcomeAt(os: seq<Outcome>, i: nat): Outcome { if i < |os| then os[i] else Done }

  /** Request `i` put a byte at offset `k`. */
  predicate Puts(rs: seq<Request>, os: seq<Outcome>, i: nat, k: nat, size: nat, devSize: nat, readOnly: bool)
    requires i < |rs|
  {
    && Changes(rs[i], devSize, readOnly) && rs[i].offset + rs[i].length <= size
    && rs[i].offset <= k < rs[i].offset + Extent(rs[i], OutcomeAt(os, i))
  }

  /**
    The byte at offset `k` when the first `i` requests are over: what the last of them that put one there put, zero for a
    trim or write-zeroes, or the first device's byte if none did.
  */
  function ByteAfter(dev: seq<Byte>, rs: seq<Request>, os: seq<Outcome>, i: nat, k: nat, devSize: nat, readOnly: bool): Byte
    requires AllWellFormed(rs) && i <= |rs| && k < |dev|
  {
    if i == 0 then dev[k]
    else if Puts(rs, os, i - 1, k, |dev|, devSize, readOnly) then
      if rs[i - 1].cmd == CMD_WRITE then rs[i - 1].payload[k - rs[i - 1].offset] else 0
    else ByteAfter(dev, rs, os, i - 1, k, devSize, readOnly)
  }

  /** One request, byte by byte. */
  lemma OneRequest(dev: seq<Byte>, rs: seq<Request>, os: seq<Outcome>, k: nat, devSize: nat, readOnly: bool)
    requires AllWellFormed(rs) && rs != [] && k < |dev|
    ensures DeviceAfter(dev, rs[0], devSize, readOnly, First(os))[k] == ByteAfter(dev, rs, os, 1, k, devSize, readOnly)
  {
    hide Torn, Reaches, Changes;
    var r := rs[0];
    assert WellFormed(r);
    LetThrough(r, devSize, readOnly);
    TornByte(dev, r, if First(os).Done? then r.length else First(os).wrote, k);
    assert OutcomeAt(os, 0) == First(os);
    assert ByteAfter(dev, rs, os, 0, k, devSize, readOnly) == dev[k];
  }

  lemma LetThrough(r: Request, devSize: nat, readOnly: bool)
    ensures Reaches(r, devSize, readOnly) && r.cmd != CMD_FLUSH && r.cmd != CMD_READ <==> Changes(r, devSize, readOnly)
  {
  }

  lemma TornByte(dev: seq<Byte>, r: Request, n: nat, k: nat)
    requires (r.cmd == CMD_WRITE ==> |r.payload| == r.length) && k < |dev|
    ensures Torn(dev, r, n)[k] ==
            if r.offset + r.length <= |dev| && r.offset <= k < r.offset + (if n < r.length then n else r.length)
            then (if r.cmd == CMD_WRITE then r.payload[k - r.offset] else 0) else dev[k]
  {
  }

  /** Starting after the first request changes nothing. */
  lemma {:induction false} AfterFirst(dev: seq<Byte>, rs: seq<Request>, os: seq<Outcome>, i: nat, k: nat, devSize: nat, readOnly: bool)
    requires 0 < i <= |rs| && AllWellFormed(rs) && AllWellFormed(rs[1..]) && k < |dev|
    ensures ByteAfter(dev, rs, os, i, k, devSize, readOnly) ==
            ByteAfter(DeviceAfter(dev, rs[0], devSize, readOnly, First(os)), rs[1..], Later(os), i - 1, k, devSize, readOnly)
  {
    hide Changes, Extent, DeviceAfter;
    if i == 1 {
      OneRequest(dev, rs, os, k, devSize, readOnly);
    } else {
      AfterFirst(dev, rs, os, i - 1, k, devSize, readOnly);
      assert rs[1..][i - 2] == rs[i - 1] && OutcomeAt(Later(os), i - 2) == OutcomeAt(os, i - 1);
    }
  }

  /** The device left after a list of requests, byte by byte. */
  lemma {:induction false} DeviceIsLastWrites(dev: seq<Byte>, rs: seq<Request>, os: seq<Outcome>, k: nat, devSize: nat, readOnly: bool)
    requires AllWellFormed(rs) && k < |dev|
    ensures Fold(dev, rs, devSize, readOnly, os)[k] == ByteAfter(dev, rs, os, |rs|, k, devSize, readOnly)
    decreases |rs|
  {
    hide DeviceAfter, Puts;
    if rs != [] {
      TailWellFormed(rs);
      DeviceIsLastWrites(DeviceAfter(dev, rs[0], devSize, readOnly, First(os)), rs[1..], Later(os), k, devSize, readOnly);
      AfterFirst(dev, rs, os, |rs|, k, devSize, readOnly);
    }
  }

  /** What the server answers a request with: success, or the first thing wrong with it. */
  function Verdict(r: Request, size: nat, devSize: nat, readOnly: bool, o: Outcome): nat {
    if r.cmd == CMD_FLUSH then (if o.Done? then 0 else 5)
    else if r.cmd != CMD_READ && r.cmd != CMD_WRITE && r.cmd != CMD_TRIM && r.cmd != CMD_WRITE_ZEROES then 22
    else if r.cmd != CMD_READ && readOnly then 1
    else if r.offset % 512 != 0 || r.length % 512 != 0 then 22
    else if r.offset + r.length > devSize then 28
    else if o.Done? && (r.length == 0 || r.offset + r.length <= size) then 0
    else 5
  }

  /** The error is the verdict on request `i`, and a read that succeeds carries what the requests before it left. */
  ghost predicate RightAnswer(answer: (nat, seq<Byte>), dev: seq<Byte>, rs: seq<Request>, os: seq<Outcome>, i: nat, devSize: nat, readOnly: bool)
    requires AllWellFormed(rs) && i < |rs|
  {
    && answer.0 == Verdict(rs[i], |dev|, devSize, readOnly, OutcomeAt(os, i))
    && |answer.1| == (if rs[i].cmd == CMD_READ && answer.0 == 0 then rs[i].length else 0)
    && forall k: nat | k < |answer.1| :: RightByte(answer.1[k], k, dev, rs, os, i, devSize, readOnly)
  }

  /** Byte `k` of the answer to read `i` is what the requests before it left. */
  ghost predicate RightByte(b: Byte, k: nat, dev: seq<Byte>, rs: seq<Request>, os: seq<Outcome>, i: nat, devSize: nat, readOnly: bool)
    requires AllWellFormed(rs) && i < |rs|
  {
    rs[i].offset + k < |dev| && b == ByteAfter(dev, rs, os, i, rs[i].offset + k, devSize, readOnly)
  }

  lemma LaterByte(b: Byte, k: nat, dev: seq<Byte>, rs: seq<Request>, os: seq<Outcome>, i: nat, devSize: nat, readOnly: bool)
    requires AllWellFormed(rs) && 0 < i < |rs| && AllWellFormed(rs[1..])
    requires RightByte(b, k, DeviceAfter(dev, rs[0], devSize, readOnly, First(os)), rs[1..], Later(os), i - 1, devSize, readOnly)
    ensures RightByte(b, k, dev, rs, os, i, devSize, readOnly)
  {
    hide DeviceAfter, Puts;
    assert rs[1..][i - 1] == rs[i];
    AfterFirst(dev, rs, os, i, rs[i].offset + k, devSize, readOnly);
  }

  /**
    Answer `i` to any list of requests, whatever the backend calls do: its error is the verdict on the request, and a read
    that succeeds carries, byte by byte, what the requests before it left.
  */
  lemma {:induction false} AnswersAreRight(dev: seq<Byte>, rs: seq<Request>, os: seq<Outcome>, i: nat, devSize: nat, readOnly: bool)
    requires AllWellFormed(rs) && i < |rs|
    ensures |Answers(dev, rs, devSize, readOnly, os)| == |rs|
    ensures RightAnswer(Answers(dev, rs, devSize, readOnly, os)[i], dev, rs, os, i, devSize, readOnly)
    decreases |rs|
  {
    hide DeviceAfter, RightAnswer, ErrorOf, DataOf;
    TailWellFormed(rs);
    AnswerCount(dev, rs, os, devSize, readOnly);
    var dev' := DeviceAfter(dev, rs[0], devSize, readOnly, First(os));
    if i == 0 {
      FirstIsRight(dev, rs, os, devSize, readOnly);
    } else {
      AnswersAreRight(dev', rs[1..], Later(os), i - 1, devSize, readOnly);
      LaterIsRight(Answers(dev', rs[1..], devSize, readOnly, Later(os))[i - 1], dev, rs, os, i, devSize, readOnly);
    }
  }

  lemma FirstIsRight(dev: seq<Byte>, rs: seq<Request>, os: seq<Outcome>, devSize: nat, readOnly: bool)
    requires AllWellFormed(rs) && rs != []
    ensures var error := ErrorOf(rs[0], |dev|, devSize, readOnly, First(os));
      RightAnswer((error, DataOf(rs[0], error, dev)), dev, rs, os, 0, devSize, readOnly)
  {
    hide Verdict;
    FirstAnswer(rs[0], dev, devSize, readOnly, First(os));
  }

  lemma LaterIsRight(answer: (nat, seq<Byte>), dev: seq<Byte>, rs: seq<Request>, os: seq<Outcome>, i: nat, devSize: nat, readOnly: bool)
    requires AllWellFormed(rs) && 0 < i < |rs| && AllWellFormed(rs[1..])
    requires RightAnswer(answer, DeviceAfter(dev, rs[0], devSize, readOnly, First(os)), rs[1..], Later(os), i - 1, devSize, readOnly)
    ensures RightAnswer(answer, dev, rs, os, i, devSize, readOnly)
  {
    hide DeviceAfter, RightByte, Verdict;
    assert rs[1..][i - 1] == rs[i] && OutcomeAt(Later(os), i - 1) == OutcomeAt(os, i);
    forall k: nat | k < |answer.1| ensures RightByte(answer.1[k], k, dev, rs, os, i, devSize, readOnly) {
      LaterByte(answer.1[k], k, dev, rs, os, i, devSize, readOnly);
    }
  }

  lemma FirstAnswer(r: Request, dev: seq<Byte>, devSize: nat, readOnly: bool, o: Outcome)
    ensures var error := ErrorOf(r, |dev|, devSize, readOnly, o);
      && error == Verdict(r, |dev|, devSize, readOnly, o)
      && (r.cmd == CMD_READ && error == 0 ==> Accepted(r.offset, r.length, |dev|))
      && forall k: nat | k < |DataOf(r, error, dev)| :: r.offset + k < |dev| && DataOf(r, error, dev)[k] == dev[r.offset + k]
  {
  }

  lemma {:induction false} AnswerCount(dev: seq<Byte>, rs: seq<Request>, os: seq<Outcome>, devSize: nat, readOnly: bool)
    requires AllWellFormed(rs)
    ensures |Answers(dev, rs, devSize, readOnly, os)| == |rs|
    decreases |rs|
  {
    if rs != [] {
      TailWellFormed(rs);
      AnswerCount(DeviceAfter(dev, rs[0], devSize, readOnly, First(os)), rs[1..], Later(os), devSize, readOnly);
    }
  }
}
