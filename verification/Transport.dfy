/** The transports: loops over an operating system that moves part of a buffer at a time, and the
    sending and receiving of frames on top of either of them. */
module Transport {
  import opened Options
  import opened Wire

  const ERROR_BROKEN_PIPE: Word32 := 109

  const TWO_31 := 0x8000_0000
  const TWO_32 := 0x1_0000_0000

  /** How a send or a receive ends. Stalled stands for a loop that goes on for ever because it asks
      for no bytes at all. */
  datatype Io<T> = Ok(value: T) | Err(error: Error) | Stalled

  /** How the operating system treats one call: it moves some bytes, at least one, or it fails. */
  datatype Kernel = Moves(k: nat) | Fails(code: Word32, aborted: bool)

  datatype OsResult<T> = Moved(value: T) | Closed | Failed(code: Word32, aborted: bool)

  /** The cast of a size to `int`. */
  function AsInt(n: nat): (r: int)
    ensures r <= n
    ensures if n < TWO_31 then r == n else n - r >= TWO_31
  {
    if n % TWO_32 < TWO_31 then n % TWO_32 else n % TWO_32 - TWO_32
  }

  /** The cast of a size to `DWORD`. */
  function AsDword(n: nat): (r: nat)
    ensures r <= n
    ensures if n < TWO_32 then r == n else n - r >= TWO_32
  {
    n % TWO_32
  }

  /** A connected handle: the bytes that will still arrive, and the bytes written so far. The
      operating system refuses negative sizes. */
  class Handle {
    var inbound: Bytes
    var outbound: Bytes
    var tick: nat
    const kernel: nat -> Kernel

    constructor (kernel: nat -> Kernel, inbound: Bytes)
      ensures this.kernel == kernel && this.inbound == inbound && outbound == []
    {
      this.kernel, this.inbound, outbound, tick := kernel, inbound, [], 0;
    }

    ghost predicate NeverFails() {
      forall t :: kernel(t).Moves?
    }

    method Write(bytes: Bytes, size: int) returns (r: OsResult<nat>)
      requires size <= |bytes|
      modifies this`outbound, this`tick
      ensures !r.Closed?
      ensures r.Moved? ==> r.value <= size && (size > 0 ==> r.value > 0) && outbound == old(outbound) + bytes[..r.value]
      ensures r.Failed? ==> outbound == old(outbound) && (size < 0 || !NeverFails())
      ensures tick == old(tick) + 1 && (size < 0 ==> r.Failed?)
      ensures r.Failed? && size >= 0 ==> kernel(old(tick)) == Fails(r.code, r.aborted)
      ensures !r.Failed? ==> kernel(old(tick)).Moves?
    {
      var how := kernel(tick);
      tick := tick + 1;
      if how.Fails? {
        return Failed(how.code, how.aborted);
      }
      if size < 0 {
        return Failed(how.k % TWO_32, false);
      }
      var n := if size == 0 then 0 else 1 + how.k % size;
      outbound := outbound + bytes[..n];
      return Moved(n);
    }

    method Read(size: int) returns (r: OsResult<Bytes>)
      modifies this`inbound, this`tick
      ensures r.Moved? ==> |r.value| <= size && (size > 0 ==> r.value != []) && old(inbound) == r.value + inbound
      ensures r.Closed? ==> inbound == old(inbound) == []
      ensures r.Failed? ==> inbound == old(inbound) && (size < 0 || !NeverFails())
      ensures tick == old(tick) + 1 && (size < 0 ==> r.Failed?)
      ensures r.Failed? && size >= 0 ==> kernel(old(tick)) == Fails(r.code, r.aborted)
      ensures !r.Failed? ==> kernel(old(tick)).Moves?
    {
      var how := kernel(tick);
      tick := tick + 1;
      if how.Fails? {
        return Failed(how.code, how.aborted);
      }
      if size < 0 {
        return Failed(how.k % TWO_32, false);
      }
      if inbound == [] {
        return Closed;
      }
      var n := if size == 0 then 0 else 1 + how.k % if size < |inbound| then size else |inbound|;
      r := Moved(inbound[..n]);
      inbound := inbound[n..];
    }
  }

  function ErrorOf(code: Word32, aborted: bool): Error {
    if aborted then Error(TRANSPORT, CANCELLED) else Error(SYSTEM, code)
  }

  /** The error is the one of the system call that has failed, if one has: a cancelled one is told apart. */
  ghost predicate Blames(error: Error, how: Kernel) {
    how.Fails? ==>
      if how.aborted then error == Error(TRANSPORT, CANCELLED) else error == Error(SYSTEM, how.code)
  }

  /** What a failing or stalling send has still put on the stream. */
  ghost predicate Prefixed(before: Bytes, after: Bytes, buf: Bytes) {
    exists n :: 0 <= n <= |buf| && after == before + buf[..n]
  }

  /** TcpTransport: an orderly close reads as no bytes, and so does a request for none. */
  class TcpTransport {
    const socket: Handle

    constructor (socket: Handle)
      ensures this.socket == socket
    {
      this.socket := socket;
    }

    method Send(buf: Bytes) returns (r: Io<()>)
      modifies socket`outbound, socket`tick
      ensures r.Ok? ==> socket.outbound == old(socket.outbound) + buf
      ensures !r.Ok? ==> Prefixed(old(socket.outbound), socket.outbound, buf)
      ensures r.Err? && |buf| < TWO_31 ==> socket.tick > 0 && Blames(r.error, socket.kernel(socket.tick - 1))
      ensures socket.NeverFails() ==> (r.Ok? <==> |buf| < TWO_31)
    {
      hide AsInt, AsDword, Handle.NeverFails;
      var size := |buf|;
      var offset := 0;
      assert buf[..0] == [];
      while offset < size
        invariant 0 <= offset <= size
        invariant size >= TWO_31 ==> size - offset >= TWO_31
        invariant socket.outbound == old(socket.outbound) + buf[..offset]
      {
        var ret := socket.Write(buf[offset..size], AsInt(size - offset));
        if ret.Failed? {
          return Err(ErrorOf(ret.code, ret.aborted));
        }
        assert buf[..offset + ret.value] == buf[..offset] + buf[offset..size][..ret.value];
        if ret.value == 0 {
          return Stalled;
        }
        offset := offset + ret.value;
      }
      assert buf[..size] == buf;
      return Ok(());
    }

    method Recv(size: nat) returns (r: Io<Bytes>)
      modifies socket`inbound, socket`tick
      ensures r.Ok? ==> |r.value| == size && old(socket.inbound) == r.value + socket.inbound
      ensures r.Err? && size < TWO_31 ==> socket.tick > 0 && Blames(r.error, socket.kernel(socket.tick - 1))
      ensures socket.NeverFails() ==> (r.Ok? <==> size < TWO_31 && size <= |old(socket.inbound)|)
      ensures socket.NeverFails() && size < TWO_31 ==> r.Ok? || r == Err(Error(TRANSPORT, CONNECTION_CLOSED))
    {
      hide AsInt, AsDword, Handle.NeverFails;
      var buf := new Byte[size](_ => 0);
      var offset := 0;
      while offset < size
        invariant 0 <= offset <= size
        invariant size >= TWO_31 ==> size - offset >= TWO_31
        invariant old(socket.inbound) == buf[..offset] + socket.inbound
      {
        var ret := socket.Read(AsInt(size - offset));
        match ret {
          case Failed(code, aborted) => return Err(ErrorOf(code, aborted));
          case Closed => return Err(Error(TRANSPORT, CONNECTION_CLOSED));
          case Moved(bytes) =>
            if bytes == [] {
              return Err(Error(TRANSPORT, CONNECTION_CLOSED));
            }
            AppendsChunk(buf[..offset], bytes, socket.inbound);
            Fill(buf, offset, bytes);
            offset := offset + |bytes|;
        }
      }
      assert buf[..size] == buf[..];
      return Ok(buf[..]);
    }
  }

  lemma AppendsChunk(done: Bytes, chunk: Bytes, rest: Bytes)
    ensures done + (chunk + rest) == (done + chunk) + rest
  {
  }

  /** The operating system stores a chunk at `offset`. */
  method Fill(buf: array<Byte>, offset: nat, bytes: Bytes)
    requires offset + |bytes| <= buf.Length
    modifies buf
    ensures buf[..offset + |bytes|] == old(buf[..offset]) + bytes
  {
    forall i | 0 <= i < |bytes| {
      buf[offset + i] := bytes[i];
    }
  }

  /** OverlappedTransport: a broken pipe is a failed call, and a request for no bytes is repeated. */
  class OverlappedTransport {
    const handle: Handle

    constructor (handle: Handle)
      ensures this.handle == handle
    {
      this.handle := handle;
    }

    method Send(buf: Bytes) returns (r: Io<()>)
      modifies handle`outbound, handle`tick
      ensures r.Ok? ==> handle.outbound == old(handle.outbound) + buf
      ensures !r.Ok? ==> Prefixed(old(handle.outbound), handle.outbound, buf)
      ensures r.Err? && |buf| < TWO_32 ==> handle.tick > 0 && Blames(r.error, handle.kernel(handle.tick - 1))
      ensures handle.NeverFails() ==> (r.Ok? <==> |buf| < TWO_32)
    {
      hide AsInt, AsDword, Handle.NeverFails;
      var size := |buf|;
      var offset := 0;
      assert buf[..0] == [];
      while offset < size
        invariant 0 <= offset <= size
        invariant size >= TWO_32 ==> size - offset >= TWO_32
        invariant handle.outbound == old(handle.outbound) + buf[..offset]
      {
        var transferred := handle.Write(buf[offset..size], AsDword(size - offset));
        if transferred.Failed? {
          return Err(ErrorOf(transferred.code, transferred.aborted));
        }
        assert buf[..offset + transferred.value] == buf[..offset] + buf[offset..size][..transferred.value];
        if transferred.value == 0 {
          return Stalled;
        }
        offset := offset + transferred.value;
      }
      assert buf[..size] == buf;
      return Ok(());
    }

    method Recv(size: nat) returns (r: Io<Bytes>)
      modifies handle`inbound, handle`tick
      ensures r.Ok? ==> |r.value| == size && old(handle.inbound) == r.value + handle.inbound
      ensures r.Err? && size < TWO_32 ==> handle.tick > 0 && Blames(r.error, handle.kernel(handle.tick - 1))
      ensures handle.NeverFails() ==> (r.Ok? <==> size < TWO_32 && size <= |old(handle.inbound)|)
      ensures handle.NeverFails() && size < TWO_32 ==> r.Ok? || r == Err(Error(SYSTEM, ERROR_BROKEN_PIPE))
    {
      hide AsInt, AsDword, Handle.NeverFails;
      var buf := new Byte[size](_ => 0);
      var offset := 0;
      while offset < size
        invariant 0 <= offset <= size
        invariant size >= TWO_32 ==> size - offset >= TWO_32
        invariant old(handle.inbound) == buf[..offset] + handle.inbound
      {
        var transferred := handle.Read(AsDword(size - offset));
        match transferred {
          case Failed(code, aborted) => return Err(ErrorOf(code, aborted));
          case Closed => return Err(Error(SYSTEM, ERROR_BROKEN_PIPE));
          case Moved(bytes) =>
            if bytes == [] {
              return Stalled;
            }
            AppendsChunk(buf[..offset], bytes, handle.inbound);
            Fill(buf, offset, bytes);
            offset := offset + |bytes|;
        }
      }
      assert buf[..size] == buf[..];
      return Ok(buf[..]);
    }
  }

  function PayloadLength(f: Frame): nat {
    if f.body.Value? then |f.body.bytes| else ERROR_SIZE
  }

  /** A header followed by enough bytes is a frame, and otherwise the stream holds no more. */
  lemma NextFrame(h: Bytes, rest: Bytes)
    requires |h| == HEADER_SIZE
    ensures if |rest| < PayloadSize(h) then ParseAll(h + rest) == []
            else ParseAll(h + rest) != [] && PayloadLength(ParseAll(h + rest)[0]) == PayloadSize(h)
  {
    assert (h + rest)[..HEADER_SIZE] == h && (h + rest)[HEADER_SIZE..] == rest;
  }

  /** ITransport: either of the two. */
  datatype Connection = Tcp(tcp: TcpTransport) | Pipe(pipe: OverlappedTransport) {

    function Ends(): Handle {
      if Tcp? then tcp.socket else pipe.handle
    }

    /** Payloads from here on do not pass. */
    function Limit(): nat {
      if Tcp? then TWO_31 else TWO_32
    }

    method Send(buf: Bytes) returns (r: Io<()>)
      modifies Ends()`outbound, Ends()`tick
      ensures r.Ok? ==> Ends().outbound == old(Ends().outbound) + buf
      ensures Ends().NeverFails() ==> (r.Ok? <==> |buf| < Limit())
    {
      match this {
        case Tcp(t) => r := t.Send(buf);
        case Pipe(p) => r := p.Send(buf);
      }
    }

    method Recv(size: nat) returns (r: Io<Bytes>)
      modifies Ends()`inbound, Ends()`tick
      ensures r.Ok? ==> |r.value| == size && old(Ends().inbound) == r.value + Ends().inbound
      ensures Ends().NeverFails() ==> (r.Ok? <==> size < Limit() && size <= |old(Ends().inbound)|)
    {
      match this {
        case Tcp(t) => r := t.Recv(size);
        case Pipe(p) => r := p.Recv(size);
      }
    }

    /** _sendBuffer and _sendException: header and payload, in two sends. */
    method SendFrame(f: Frame) returns (r: Io<()>)
      modifies Ends()`outbound, Ends()`tick
      ensures r.Ok? ==> Ends().outbound == old(Ends().outbound) + Encode(f)
      ensures Ends().NeverFails() ==> (r.Ok? <==> PayloadLength(f) < Limit())
    {
      hide CppHeader, EncodeError;
      HeadersAgree(f.channel, f.id, LengthField(f));
      r := Send(CppHeader(f.channel, f.id, LengthField(f)));
      if r.Ok? {
        if f.body.Failure? {
          ErrorRoundTrip(f.body.error);
        }
        r := Send(if f.body.Value? then f.body.bytes else EncodeError(f.body.error));
      }
    }

    /** One turn of the receive loop: header and payload, in two receives. */
    method RecvFrame() returns (r: Io<Frame>)
      modifies Ends()`inbound, Ends()`tick
      ensures r.Ok? ==> |Ends().inbound| < |old(Ends().inbound)|
                        && ParseAll(old(Ends().inbound)) == [r.value] + ParseAll(Ends().inbound)
      ensures !r.Ok? && Ends().NeverFails() ==>
                var fs := ParseAll(old(Ends().inbound)); fs == [] || (Tcp? && PayloadLength(fs[0]) >= Limit())
    {
      ghost var s := Ends().inbound;
      var header := Recv(HEADER_SIZE);
      if !header.Ok? {
        return if header.Err? then Err(header.error) else Stalled;
      }
      ghost var rest := Ends().inbound;
      var payload := Recv(PayloadSize(header.value));
      if !payload.Ok? {
        NextFrame(header.value, rest);
        return if payload.Err? then Err(payload.error) else Stalled;
      }
      assert Parse(s) == Some((FrameOf(header.value, payload.value), Ends().inbound));
      return Ok(FrameOf(header.value, payload.value));
    }

    /** The receive loop: hands over frame after frame until the transport throws. */
    method ReceiveAll() returns (frames: seq<Frame>)
      modifies Ends()`inbound, Ends()`tick
      ensures frames <= ParseAll(old(Ends().inbound))
      ensures Ends().NeverFails()
              && (Tcp? ==> forall f :: f in ParseAll(old(Ends().inbound)) ==> PayloadLength(f) < Limit())
              ==> frames == ParseAll(old(Ends().inbound))
    {
      frames := [];
      while true
        invariant frames + ParseAll(Ends().inbound) == ParseAll(old(Ends().inbound))
        decreases |Ends().inbound|
      {
        ghost var next := ParseAll(Ends().inbound);
        var r := RecvFrame();
        if !r.Ok? {
          assert next != [] ==> next[0] in frames + next;
          return;
        }
        frames := frames + [r.value];
      }
    }
  }

  /** A conversation: one node sends frame after frame, then the other receives until the stream ends.
      However the operating system cuts the bytes up on either side, the frames that come out are the
      frames that went in. */
  method Deliver(sender: Connection, receiver: Connection, frames: seq<Frame>) returns (received: seq<Frame>)
    requires sender.Ends() != receiver.Ends()
    requires sender.Ends().NeverFails() && receiver.Ends().NeverFails() && sender.Ends().outbound == []
    requires forall f :: f in frames ==>
               Sendable(f) && PayloadLength(f) < sender.Limit() && PayloadLength(f) < receiver.Limit()
    modifies sender.Ends(), receiver.Ends()
    ensures received == frames
  {
    hide Encode, Parse;
    var i := 0;
    while i < |frames|
      invariant 0 <= i <= |frames|
      invariant sender.Ends().outbound + EncodeAll(frames[i..]) == EncodeAll(frames)
    {
      assert frames[i..][0] == frames[i] && frames[i..][1..] == frames[i + 1..];
      var _ := sender.SendFrame(frames[i]);
      i := i + 1;
    }
    assert sender.Ends().outbound + [] == sender.Ends().outbound;
    StreamRoundTrip(frames);
    receiver.Ends().inbound := sender.Ends().outbound;
    received := receiver.ReceiveAll();
  }
}
