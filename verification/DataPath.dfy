// The data path of a connection as an object: the buffers and origin descriptor of socks5_conn_t, and
// the connection's two slots in the selector. Its methods compute the functions of Relay.dfy in place.
module DataPath {
  import opened Bytes
  import opened Relay
  import ByteBuffer

  class DataPath {
    // The slots in the selector; without the client's the connection has been freed.
    var live: bool
    var client: Interest
    var origin: Origin

    const inBuff: ByteBuffer.Buffer
    const outBuff: ByteBuffer.Buffer
    var originFd: int

    // The connection's share of the server's metric.
    var bytesMetric: nat

    // History.
    ghost var stray: bool
    ghost var io: Streams

    ghost function Parts(): set<object> { {this, inBuff, inBuff.data, outBuff, outBuff.data} }

    /** The output buffer is always compacted, and the input buffer but for the bytes that a read handler
        has consumed of a chunk. */
    ghost predicate Valid()
      reads Parts()
    {
      && inBuff != outBuff && inBuff.data != outBuff.data && inBuff.data.Length == outBuff.data.Length
      && inBuff.Valid() && outBuff.Valid()
      && outBuff.read == 0 && (inBuff.read == inBuff.write ==> inBuff.read == 0)
    }

    ghost predicate Compact()
      reads inBuff
    {
      inBuff.read == 0
    }

    ghost function AsFlow(): Flow
      reads Parts()
      requires Valid()
    {
      Flow(live, stray, inBuff.data.Length, inBuff.AsView().contents, outBuff.AsView().contents, client,
           originFd, origin, bytesMetric, io)
    }

    constructor (inMemory: array<byte>, outMemory: array<byte>)
      requires inMemory != outMemory && inMemory.Length == outMemory.Length
      ensures Valid() && Compact() && AsFlow() == Opened(inMemory.Length) && fresh(inBuff) && fresh(outBuff)
      ensures inBuff.data == inMemory && outBuff.data == outMemory
    {
      live, client, origin := true, READ, Unregistered;
      inBuff := new ByteBuffer.Buffer(inMemory);
      outBuff := new ByteBuffer.Buffer(outMemory);
      originFd, bytesMetric, stray, io := 0, 0, false, NO_BYTES;
    }

    // ---- The selector's slots ----

    method SetClientInterest(i: Interest)
      requires Valid()
      modifies this`client
      ensures Valid() && AsFlow() == SetClient(old(AsFlow()), i)
    {
      client := i;
    }

    method SetOriginInterest(i: Interest) returns (ok: bool)
      requires Valid()
      modifies this`origin, this`stray
      ensures Valid() && AsFlow() == SetOrigin(old(AsFlow()), i)
      ensures originFd != 0 ==> ok == OriginRegistered(old(AsFlow()))
    {
      ok := originFd == 0;
      if originFd == 0 {
        stray := true;
      } else if origin.Registered? && origin.fd == originFd {
        origin := origin.(interest := i);
        ok := true;
      }
    }

    method UnregisterOrigin()
      requires Valid()
      modifies this`origin
      ensures Valid() && AsFlow() == ReleaseOrigin(old(AsFlow()))
    {
      if origin.Registered? && origin.fd == originFd {
        origin := Unregistered;
      }
    }

    method RegisterOriginSocket(handler: Handler, i: Interest)
      requires Valid()
      modifies this`origin
      ensures Valid() && AsFlow() == RegisterOrigin(old(AsFlow()), handler, i)
    {
      if ValidFd(originFd) && !(origin.Registered? && origin.fd == originFd) {
        origin := Registered(originFd, handler, i);
      }
    }

    /** Unregistering the origin, if any, and the client, whose `handle_close` closes both sockets. */
    method CloseBoth()
      requires Valid()
      modifies this`origin, this`live, this`originFd
      ensures Valid() && AsFlow() == End(old(AsFlow()))
    {
      hide ReleaseOrigin;
      if originFd > 0 {
        UnregisterOrigin();
      }
      live, originFd := false, -1;
    }

    // ---- Writing to the client ----

    /** `buffer_write_struct(&conn->out_buff, ...)` */
    method Queue(bytes: seq<byte>)
      requires Valid()
      modifies this`io, outBuff, outBuff.data
      ensures Valid() && AsFlow() == Put(old(AsFlow()), bytes)
    {
      outBuff.WriteStruct(bytes);
      io := io.(queued := io.queued + bytes);
    }

    /** The reply that starts the relay. */
    method QueueReply(reply: seq<byte>)
      requires Valid()
      modifies this`io, outBuff, outBuff.data
      ensures Valid() && AsFlow() == PutReply(old(AsFlow()), reply)
    {
      hide Put;
      io := io.(preface := io.queued, reply := reply);
      Queue(reply);
    }

    /** The bytes that were sent leave the buffer, which is compacted. */
    method TakeSent(n: nat)
      requires Valid() && n <= |outBuff.AsView().contents|
      modifies this`bytesMetric, this`io, outBuff, outBuff.data
      ensures Valid() && AsFlow() == Shipped(old(AsFlow()), n)
    {
      bytesMetric := bytesMetric + n;
      io := io.(toClient := io.toClient + outBuff.AsView().contents[..n]);
      outBuff.ReadAdv(n);
      outBuff.Compact();
    }

    method Rearm(full: bool)
      requires Valid()
      modifies this`client, this`origin, this`stray
      ensures Valid() && AsFlow() == Rearmed(old(AsFlow()), full)
    {
      hide SetOrigin;
      SetClientInterest(if outBuff.CanRead() then WRITE else READ);
      if inBuff.CanRead() {
        var _ := SetOriginInterest(WRITE);
      }
      if full {
        var _ := SetOriginInterest(READ);
      }
    }

    /** `socksv5_write` on the data path; `sent` says whether anything was sent. */
    method SendToClient(r: Send) returns (sent: bool)
      requires Valid()
      modifies this`client, this`origin, this`stray, this`live, this`originFd, this`bytesMetric, this`io, outBuff, outBuff.data
      ensures Valid() && AsFlow() == WriteToClient(old(AsFlow()), r)
      ensures sent == (old(AsFlow()).outB != [] && SomeSent(r))
    {
      hide Shipped, Rearmed, End;
      sent := false;
      if !outBuff.CanRead() {
        SetClientInterest(NOOP);
        return;
      }
      match r {
      case Sent(n) =>
        if n > 0 {
          var full := originFd > 0 && !outBuff.CanWrite();
          TakeSent(Min(n, outBuff.write - outBuff.read));
          Rearm(full);
          sent := true;
        }
      case SendAgain =>
      case SendFailed =>
        io := io.(clientLost := true);
        CloseBoth();
      }
    }

    // ---- Writing to the origin ----

    /** The bytes that were sent to the origin leave the buffer, which is compacted. */
    method TakeSentToOrigin(n: nat)
      requires Valid() && n <= |inBuff.AsView().contents|
      modifies this`io, inBuff, inBuff.data
      ensures Valid() && Compact()
      ensures var f := old(AsFlow()); AsFlow() == f.(inB := f.inB[n..], io := f.io.(toOrigin := f.io.toOrigin + f.inB[..n]))
    {
      io := io.(toOrigin := io.toOrigin + inBuff.AsView().contents[..n]);
      inBuff.ReadAdv(n);
      inBuff.Compact();
    }

    /** The part of `copy_write_handler` after a send of n bytes. */
    method AfterOriginSend(n: nat)
      requires Valid() && Compact() && 1 <= n <= |inBuff.AsView().contents|
      modifies this`client, this`origin, this`stray, this`io, inBuff, inBuff.data
      ensures Valid() && Compact() && AsFlow() == SentToOrigin(old(AsFlow()), n)
    {
      hide SetOrigin;
      var full := !inBuff.CanWrite();
      TakeSentToOrigin(n);
      if !inBuff.CanRead() {
        var _ := SetOriginInterest(READ);
      }
      if full {
        SetClientInterest(READ);
      }
    }

    /** `copy_write_handler` */
    method SendToOrigin(r: Send)
      requires Valid() && Compact()
      modifies this`client, this`origin, this`stray, this`live, this`originFd, this`io, inBuff, inBuff.data
      ensures Valid() && Compact() && AsFlow() == WriteToOrigin(old(AsFlow()), r)
    {
      hide SentToOrigin, End, SetOrigin;
      if !inBuff.CanRead() {
        var _ := SetOriginInterest(NOOP);
        return;
      }
      match r {
      case Sent(n) =>
        if n > 0 {
          AfterOriginSend(Min(n, inBuff.write - inBuff.read));
        } else {
          CloseBoth();
        }
      case SendAgain =>
      case SendFailed =>
        CloseBoth();
      }
    }

    // ---- Reading ----

    /** `socksv5_read` on a full buffer. */
    method Pause()
      requires Valid()
      modifies this`client, this`origin, this`stray
      ensures Valid() && AsFlow() == PauseClient(old(AsFlow()))
    {
      hide SetOrigin;
      SetClientInterest(NOOP);
      if originFd != 0 {
        var _ := SetOriginInterest(WRITE);
      }
    }

    /** A `recv` from the client, which the relay counts. */
    method Receive(bytes: seq<byte>, relaying: bool)
      requires Valid() && |bytes| <= inBuff.AsView().Free()
      modifies this`io, inBuff`write, inBuff.data
      ensures Valid() && inBuff.read == old(inBuff.read)
      ensures var f := FromClient(old(AsFlow()), bytes);
        AsFlow() == if relaying then f.(io := f.io.(fromClient := f.io.fromClient + bytes)) else f
    {
      inBuff.Fill(bytes);
      if relaying {
        io := io.(fromClient := io.fromClient + bytes);
      }
    }

    /** A `recv` from the origin. */
    method ReceiveFromOrigin(bytes: seq<byte>)
      requires Valid() && |bytes| <= outBuff.AsView().Free()
      modifies this`io, outBuff`write, outBuff.data
      ensures Valid() && AsFlow() == FromOrigin(old(AsFlow()), bytes)
    {
      outBuff.Fill(bytes);
      io := io.(fromOrigin := io.fromOrigin + bytes, queued := io.queued + bytes);
    }

    /** The origin has sent its last byte. */
    ghost method SeeOriginEnd()
      requires Valid()
      modifies this`io
      ensures Valid() && AsFlow() == old(AsFlow()).(io := old(io).(originClosed := true))
    {
      io := io.(originClosed := true);
    }

    /** `buffer_read(&conn->in_buff)` */
    method NextByte() returns (b: byte)
      requires Valid() && AsFlow().inB != []
      modifies inBuff, inBuff.data
      ensures Valid() && b == old(AsFlow()).inB[0] && AsFlow() == old(AsFlow()).(inB := old(AsFlow()).inB[1..])
    {
      b := inBuff.Read();
    }

    /** `buffer_reset(&conn->in_buff)` */
    method DropInput()
      requires Valid()
      modifies inBuff
      ensures Valid() && Compact() && AsFlow() == old(AsFlow()).(inB := [])
    {
      inBuff.Reset();
    }
  }
}
