// The data path of a connection: its two buffers, the interests of its two sockets, and the reads
// and writes of src/server/socks5/socks5.c and src/server/socks5/states_handlers/socks5_copy.c.
module Relay {
  import opened Bytes

  datatype Interest = NOOP | READ | WRITE

  datatype Handler = ConnectingHandler | CopyHandler

  /** The selector's slot for the origin socket. */
  datatype Origin = Unregistered | Registered(fd: int, handler: Handler, interest: Interest)

  /** The selector refuses descriptors from this one on, and negative ones. */
  const FD_SETSIZE := 1024

  predicate ValidFd(fd: int) { 0 <= fd < FD_SETSIZE }

  /** What the kernel answers. `Sent(n)` moves as many of the bytes offered as it can, up to n. */
  datatype Send = Sent(n: nat) | SendAgain | SendFailed

  datatype Recv = Received(bytes: seq<byte>) | Closed | RecvAgain | RecvFailed

  /** History. Nothing a handler does depends on it. */
  datatype Streams = Streams(
    queued: seq<byte>,          // every byte meant for the client
    toClient: seq<byte>,        // every byte sent to the client
    preface: seq<byte>,         // what was queued before the CONNECT reply
    reply: seq<byte>,           // the CONNECT reply
    fromClient: seq<byte>,      // received from the client since COPY began
    toOrigin: seq<byte>,        // sent to the origin
    fromOrigin: seq<byte>,      // received from the origin
    originClosed: bool,         // the origin has sent its last byte
    clientLost: bool)           // a send to the client failed

  datatype Flow = Flow(
    live: bool,                 // the client socket is registered, and the connection not freed
    stray: bool,                // the slot of another connection's socket was touched
    cap: nat,
    inB: seq<byte>,
    outB: seq<byte>,
    client: Interest,
    originFd: int,
    origin: Origin,
    bytesMetric: nat,           // this connection's share of bytes_transferred
    io: Streams)

  const NO_BYTES := Streams([], [], [], [], [], [], [], false, false)

  function Opened(bufferSize: nat): Flow {
    Flow(true, false, bufferSize, [], [], READ, 0, Unregistered, 0, NO_BYTES)
  }

  // ---- Small steps ----

  function SetClient(f: Flow, i: Interest): Flow { f.(client := i) }

  predicate OriginRegistered(f: Flow) { f.origin.Registered? && f.origin.fd == f.originFd }

  /** `selector_set_interest(conn->s, conn->origin_fd, i)`. Descriptor 0 is a listening socket's. */
  function SetOrigin(f: Flow, i: Interest): Flow {
    if f.originFd == 0 then f.(stray := true)
    else if OriginRegistered(f) then f.(origin := f.origin.(interest := i))
    else f
  }

  /** `selector_unregister_fd(conn->s, conn->origin_fd)` */
  function ReleaseOrigin(f: Flow): Flow {
    if OriginRegistered(f) then f.(origin := Unregistered) else f
  }

  /** `selector_register(conn->s, conn->origin_fd, handler, i, conn)` */
  function RegisterOrigin(f: Flow, handler: Handler, i: Interest): Flow {
    if !ValidFd(f.originFd) || OriginRegistered(f) then f
    else f.(origin := Registered(f.originFd, handler, i))
  }

  /** Both sockets are unregistered and closed. What the buffers still held is lost. */
  function End(f: Flow): Flow {
    (if f.originFd > 0 then ReleaseOrigin(f) else f).(live := false, originFd := -1)
  }

  /** `buffer_write_struct(&conn->out_buff, ...)` */
  function Put(f: Flow, bytes: seq<byte>): Flow {
    f.(outB := if |f.outB| < f.cap && |bytes| <= f.cap - |f.outB| then f.outB + bytes else f.outB,
       io := f.io.(queued := f.io.queued + bytes))
  }

  /** `buffer_write_struct` of the reply that starts the relay. */
  function PutReply(f: Flow, reply: seq<byte>): Flow {
    Put(f.(io := f.io.(preface := f.io.queued, reply := reply)), reply)
  }

  function Min(a: nat, b: nat): nat { if a < b then a else b }

  // ---- Writing ----

  predicate SomeSent(r: Send) { r.Sent? && r.n > 0 }

  /** Sent bytes leave the buffer. */
  function Shipped(f: Flow, n: nat): Flow
    requires n <= |f.outB|
  {
    f.(outB := f.outB[n..], bytesMetric := f.bytesMetric + n, io := f.io.(toClient := f.io.toClient + f.outB[..n]))
  }

  /** After a send the interests are set anew, not added to. */
  function Rearmed(f: Flow, full: bool): Flow {
    var h := SetClient(f, if f.outB != [] then WRITE else READ);
    var k := if h.inB != [] then SetOrigin(h, WRITE) else h;
    if full then SetOrigin(k, READ) else k
  }

  function SentToClient(f: Flow, n: nat): Flow
    requires n <= |f.outB|
  {
    Rearmed(Shipped(f, n), f.originFd > 0 && |f.outB| >= f.cap)
  }

  /** `socksv5_write`, up to the state machine's reaction. */
  function WriteToClient(f: Flow, r: Send): Flow {
    if f.outB == [] then SetClient(f, NOOP)
    else match r
      case Sent(n) => if n == 0 then f else SentToClient(f, Min(n, |f.outB|))
      case SendAgain => f
      case SendFailed => End(f.(io := f.io.(clientLost := true)))
  }

  function SentToOrigin(f: Flow, n: nat): Flow
    requires n <= |f.inB|
  {
    var full := |f.inB| >= f.cap;
    var g := f.(inB := f.inB[n..], io := f.io.(toOrigin := f.io.toOrigin + f.inB[..n]));
    var h := if g.inB == [] then SetOrigin(g, READ) else g;
    if full then SetClient(h, READ) else h
  }

  /** `copy_write_handler` */
  function WriteToOrigin(f: Flow, r: Send): Flow {
    if f.inB == [] then SetOrigin(f, NOOP)
    else match r
      case Sent(n) => if n == 0 then End(f) else SentToOrigin(f, Min(n, |f.inB|))
      case SendAgain => f
      case SendFailed => End(f)
  }

  // ---- Reading ----

  /** `socksv5_read` on a full buffer. */
  function PauseClient(f: Flow): Flow {
    var g := SetClient(f, NOOP);
    if g.originFd != 0 then SetOrigin(g, WRITE) else g
  }

  function FromClient(f: Flow, bytes: seq<byte>): Flow { f.(inB := f.inB + bytes) }

  /** `copy_read`: without an origin to write to, the connection ends. */
  function CopyRead(f: Flow, r: Send): Flow {
    if !OriginRegistered(f) then End(f) else WriteToOrigin(SetOrigin(f, WRITE), r)
  }

  /** `socksv5_read` in the COPY state. */
  function ReadFromClient(f: Flow, recv: Recv, r: Send): Flow {
    if |f.inB| >= f.cap then PauseClient(f)
    else match recv
      case Received(bytes) =>
        CopyRead(FromClient(f, bytes).(io := f.io.(fromClient := f.io.fromClient + bytes)), r)
      case Closed => End(f)
      case RecvAgain => f
      case RecvFailed => End(f)
  }

  function FromOrigin(f: Flow, bytes: seq<byte>): Flow {
    f.(outB := f.outB + bytes,
       io := f.io.(fromOrigin := f.io.fromOrigin + bytes, queued := f.io.queued + bytes))
  }

  /** `copy_read_handler` */
  function ReadFromOrigin(f: Flow, recv: Recv, r: Send): Flow {
    if |f.outB| >= f.cap then SetClient(SetOrigin(f, NOOP), WRITE)
    else match recv
      case Received(bytes) => WriteToClient(SetClient(FromOrigin(f, bytes), WRITE), r)
      case Closed => ReleaseOrigin(f).(io := f.io.(originClosed := true))
      case RecvAgain => f
      case RecvFailed => End(f)
  }

  /** What `connecting_on_block_ready` and `handle_write_connecting` do to start the relay, once the
      origin is connected: the reply is queued, earlier input dropped, and a first send tried. */
  function StartReply(f: Flow, reply: seq<byte>, r: Send): Flow {
    WriteToClient(SetClient(PutReply(f, reply), WRITE).(inB := []), r)
  }

  // ---- Events of the relay ----

  datatype IoEvent =
    | ClientReadable(recv: Recv, send: Send)
    | ClientWritable(send: Send)
    | OriginReadable(recv: Recv, send: Send)
    | OriginWritable(send: Send)

  predicate OriginServes(f: Flow, i: Interest) {
    f.origin.Registered? && f.origin.handler == CopyHandler && f.origin.interest == i
  }

  /** The selector serves a socket for its current interest only, and `recv` fits the room offered. */
  predicate IoEnabled(f: Flow, e: IoEvent) {
    f.live &&
    match e
    case ClientReadable(recv, _) =>
      f.client == READ && (recv.Received? && |f.inB| < f.cap ==> 1 <= |recv.bytes| <= f.cap - |f.inB|)
    case ClientWritable(_) => f.client == WRITE
    case OriginReadable(recv, _) =>
      OriginServes(f, READ) && (recv.Received? && |f.outB| < f.cap ==> 1 <= |recv.bytes| <= f.cap - |f.outB|)
    case OriginWritable(_) => OriginServes(f, WRITE)
  }

  function IoStep(f: Flow, e: IoEvent): Flow
    requires IoEnabled(f, e)
  {
    match e
    case ClientReadable(recv, send) => ReadFromClient(f, recv, send)
    case ClientWritable(send) => WriteToClient(f, send)
    case OriginReadable(recv, send) => ReadFromOrigin(f, recv, send)
    case OriginWritable(send) => WriteToOrigin(f, send)
  }

  predicate IsIoRun(f: Flow, es: seq<IoEvent>)
    decreases |es|
  {
    es == [] || (IoEnabled(f, es[0]) && IsIoRun(IoStep(f, es[0]), es[1..]))
  }

  function IoRun(f: Flow, es: seq<IoEvent>): Flow
    requires IsIoRun(f, es)
    decreases |es|
  {
    if es == [] then f else IoRun(IoStep(f, es[0]), es[1..])
  }

  // ---- The invariant of the relay ----

  predicate OriginInterest(f: Flow, i: Interest) { f.origin.Registered? && f.origin.interest == i }

  /** At most one buffer is in use, and the interests say which: so although they overwrite each
      other, no pending byte is without its writer and no side is paused without cause. */
  predicate HalfDuplex(f: Flow) {
    && (f.inB == [] || f.outB == [])
    && (f.inB != [] <==> OriginInterest(f, WRITE))
    && (f.outB != [] <==> f.client == WRITE)
    && (f.client == NOOP ==> |f.inB| == f.cap)
    && (OriginInterest(f, NOOP) ==> f.io.fromClient == [] || |f.outB| == f.cap)
    && (f.io.fromClient == [] ==> !OriginInterest(f, READ) && |f.outB| < f.cap)
  }

  /** Both directions deliver what they received, in order. */
  predicate InOrder(io: Streams, inB: seq<byte>, outB: seq<byte>) {
    && io.toOrigin + inB == io.fromClient
    && io.toClient + outB == io.queued == io.preface + io.reply + io.fromOrigin
  }

  predicate Sockets(f: Flow) {
    && f.originFd > 0
    && (f.origin.Registered? ==> f.origin.fd == f.originFd && f.origin.handler == CopyHandler && !f.io.originClosed)
    && (!f.origin.Registered? ==> f.io.originClosed || f.originFd >= FD_SETSIZE)
  }

  /** What the client was owed has been sent, if the origin had finished and the client was there. */
  predicate Drained(f: Flow) { f.io.originClosed && !f.io.clientLost ==> f.outB == [] }

  predicate Relaying(f: Flow) {
    && f.cap > 0 && |f.inB| <= f.cap && |f.outB| <= f.cap && !f.stray
    && Sockets(f) && HalfDuplex(f)
  }

  predicate RelayInv(f: Flow) {
    && !f.stray
    && (if f.live then Relaying(f) else Drained(f) && f.origin == Unregistered)
    && InOrder(f.io, f.inB, f.outB) && f.bytesMetric == |f.io.toClient|
  }

  lemma {:induction false} SentToClientKeeps(f: Flow, n: nat)
    requires RelayInv(f) && f.live && 1 <= n <= |f.outB|
    ensures RelayInv(SentToClient(f, n))
  {
  }

  lemma {:induction false} WriteToClientKeeps(f: Flow, r: Send)
    requires RelayInv(f) && f.live && f.client == WRITE
    ensures RelayInv(WriteToClient(f, r))
  {
    if SomeSent(r) {
      SentToClientKeeps(f, Min(r.n, |f.outB|));
    }
  }

  lemma {:induction false} WriteToOriginKeeps(f: Flow, r: Send)
    requires RelayInv(f) && f.live && OriginInterest(f, WRITE)
    ensures RelayInv(WriteToOrigin(f, r))
  {
  }

  lemma {:induction false} ReadFromClientKeeps(f: Flow, recv: Recv, r: Send)
    requires RelayInv(f) && IoEnabled(f, ClientReadable(recv, r))
    ensures RelayInv(ReadFromClient(f, recv, r))
  {
    if |f.inB| < f.cap && recv.Received? && OriginRegistered(f) {
      var bytes := recv.bytes;
      var g := SetOrigin(FromClient(f, bytes).(io := f.io.(fromClient := f.io.fromClient + bytes)), WRITE);
      assert f.io.toOrigin + (f.inB + bytes) == f.io.fromClient + bytes;
      WriteToOriginKeeps(g, r);
    }
  }

  lemma {:induction false} ReadFromOriginKeeps(f: Flow, recv: Recv, r: Send)
    requires RelayInv(f) && IoEnabled(f, OriginReadable(recv, r))
    ensures RelayInv(ReadFromOrigin(f, recv, r))
  {
    if |f.outB| < f.cap && recv.Received? {
      var bytes := recv.bytes;
      var g := SetClient(FromOrigin(f, bytes), WRITE);
      assert f.io.toClient + (f.outB + bytes) == f.io.queued + bytes
          == f.io.preface + f.io.reply + (f.io.fromOrigin + bytes);
      WriteToClientKeeps(g, r);
    }
  }

  /** What was settled before the relay began. */
  predicate SameStart(f: Flow, g: Flow) {
    g.cap == f.cap && g.io.preface == f.io.preface && g.io.reply == f.io.reply
  }

  lemma {:induction false} IoStepKeepsStart(f: Flow, e: IoEvent)
    requires IoEnabled(f, e)
    ensures SameStart(f, IoStep(f, e))
  {
    hide WriteToClient, WriteToOrigin;
    WriteToClientKeepsStart(f, e.send);
    WriteToOriginKeepsStart(f, e.send);
    if e.ClientReadable? && e.recv.Received? {
      var g := FromClient(f, e.recv.bytes).(io := f.io.(fromClient := f.io.fromClient + e.recv.bytes));
      WriteToOriginKeepsStart(SetOrigin(g, WRITE), e.send);
    } else if e.OriginReadable? && e.recv.Received? {
      WriteToClientKeepsStart(SetClient(FromOrigin(f, e.recv.bytes), WRITE), e.send);
    }
  }

  lemma {:induction false} WriteToClientKeepsStart(f: Flow, r: Send)
    ensures SameStart(f, WriteToClient(f, r))
  {
  }

  lemma {:induction false} WriteToOriginKeepsStart(f: Flow, r: Send)
    ensures SameStart(f, WriteToOrigin(f, r))
  {
  }

  /** The bytes that an event brings from the origin, with `used` bytes waiting for the client. */
  function OriginChunk(used: nat, cap: nat, e: IoEvent): seq<byte> {
    match e
    case OriginReadable(Received(bytes), _) => if used < cap then bytes else []
    case _ => []
  }

  /** The bytes that an event brings from the client. */
  function ClientChunk(used: nat, cap: nat, e: IoEvent): seq<byte> {
    match e
    case ClientReadable(Received(bytes), _) => if used < cap then bytes else []
    case _ => []
  }

  predicate SameReceived(f: Flow, g: Flow) { g.io.fromOrigin == f.io.fromOrigin && g.io.fromClient == f.io.fromClient }

  lemma {:induction false} RearmReceivesNothing(f: Flow, full: bool)
    ensures SameReceived(f, Rearmed(f, full))
  {
  }

  lemma {:induction false} WriteToClientReceivesNothing(f: Flow, r: Send)
    ensures SameReceived(f, WriteToClient(f, r))
  {
    hide Rearmed;
    if SomeSent(r) {
      RearmReceivesNothing(Shipped(f, Min(r.n, |f.outB|)), f.originFd > 0 && |f.outB| >= f.cap);
    }
  }

  lemma {:induction false} WriteToOriginReceivesNothing(f: Flow, r: Send)
    ensures SameReceived(f, WriteToOrigin(f, r))
  {
  }

  lemma {:induction false} WriteReceivesNothing(f: Flow, r: Send)
    ensures SameReceived(f, WriteToClient(f, r)) && SameReceived(f, WriteToOrigin(f, r))
  {
    WriteToClientReceivesNothing(f, r);
    WriteToOriginReceivesNothing(f, r);
  }

  /** What is recorded as received is what the event brought. */
  lemma {:induction false} IoStepReceives(f: Flow, e: IoEvent)
    requires RelayInv(f) && IoEnabled(f, e)
    ensures IoStep(f, e).io.fromOrigin == f.io.fromOrigin + OriginChunk(|f.outB|, f.cap, e)
    ensures IoStep(f, e).io.fromClient == f.io.fromClient + ClientChunk(|f.inB|, f.cap, e)
  {
    hide WriteToClient, WriteToOrigin;
    WriteReceivesNothing(f, e.send);
    if e.ClientReadable? && e.recv.Received? {
      var g := FromClient(f, e.recv.bytes).(io := f.io.(fromClient := f.io.fromClient + e.recv.bytes));
      WriteReceivesNothing(SetOrigin(g, WRITE), e.send);
    } else if e.OriginReadable? && e.recv.Received? {
      WriteReceivesNothing(SetClient(FromOrigin(f, e.recv.bytes), WRITE), e.send);
    }
  }

  /** Every event keeps the relay in half duplex, and its streams in order: what was received is what had
      been, and what the event brought. */
  lemma {:induction false} IoStepKeeps(f: Flow, e: IoEvent)
    requires RelayInv(f) && IoEnabled(f, e)
    ensures RelayInv(IoStep(f, e)) && SameStart(f, IoStep(f, e))
    ensures IoStep(f, e).io.fromOrigin == f.io.fromOrigin + OriginChunk(|f.outB|, f.cap, e)
    ensures IoStep(f, e).io.fromClient == f.io.fromClient + ClientChunk(|f.inB|, f.cap, e)
  {
    IoStepReceives(f, e);
    hide RelayInv, SameStart, WriteToClient, WriteToOrigin, ReadFromClient, ReadFromOrigin;
    IoStepKeepsStart(f, e);
    match e
    case ClientReadable(recv, send) => ReadFromClientKeeps(f, recv, send);
    case ClientWritable(send) => WriteToClientKeeps(f, send);
    case OriginReadable(recv, send) => ReadFromOriginKeeps(f, recv, send);
    case OriginWritable(send) => WriteToOriginKeeps(f, send);
  }

  /** Over any run of the relay, with any partial reads, partial sends and refusals. */
  lemma {:induction false} IoRunKeeps(f: Flow, es: seq<IoEvent>)
    requires RelayInv(f) && IsIoRun(f, es)
    ensures RelayInv(IoRun(f, es))
    decreases |es|
  {
    if es != [] {
      IoStepKeeps(f, es[0]);
      IoRunKeeps(IoStep(f, es[0]), es[1..]);
    }
  }

  // ---- No wake-up is lost ----

  /** Pending bytes have their writer armed; with none pending, the client is read, and so is the
      origin, unless it is gone, if and only if a byte has come from the client. */
  predicate Awake(f: Flow) {
    && (f.inB != [] ==> OriginServes(f, WRITE))
    && (f.outB != [] ==> f.client == WRITE)
    && (f.inB == [] && f.outB == [] ==>
         f.client == READ && (f.origin.Registered? ==> (OriginServes(f, READ) <==> f.io.fromClient != [])))
  }

  lemma {:induction false} AlwaysAwake(f: Flow, es: seq<IoEvent>)
    requires RelayInv(f) && IsIoRun(f, es) && IoRun(f, es).live
    ensures Awake(IoRun(f, es))
  {
    IoRunKeeps(f, es);
  }

  /** Before the client has sent anything the origin is not read, whatever it has to say. */
  lemma {:induction false} OriginWaits(f: Flow, e: IoEvent)
    requires RelayInv(f) && IoEnabled(f, e) && f.io.fromClient == []
    ensures e.ClientReadable? || e.ClientWritable?
  {
    assert f.inB == [];
  }

  function Pending(f: Flow): nat { |f.inB| + |f.outB| }

  /** A write that moves something. */
  predicate Effective(f: Flow, e: IoEvent) {
    IoEnabled(f, e) && (e.OriginWritable? || e.ClientWritable?) && SomeSent(e.send)
  }

  predicate IsFlush(f: Flow, es: seq<IoEvent>)
    decreases |es|
  {
    es == [] || (Effective(f, es[0]) && IsFlush(IoStep(f, es[0]), es[1..]))
  }

  lemma {:induction false} EffectiveShrinks(f: Flow, e: IoEvent)
    requires RelayInv(f) && Effective(f, e)
    ensures IoStep(f, e).live && Pending(IoStep(f, e)) < Pending(f)
  {
  }

  /** From any state of the relay, the writes that the sockets accept, in whatever portions, empty
      both buffers after at most as many events as bytes: until then some effective write is enabled,
      and afterwards both sides are being read again. So no pause lasts. */
  lemma {:induction false} PausesEnd(f: Flow, es: seq<IoEvent>)
    requires RelayInv(f) && f.live && IsFlush(f, es)
    ensures IsIoRun(f, es) && |es| <= Pending(f) - Pending(IoRun(f, es))
    ensures var g := IoRun(f, es);
      && g.live && Awake(g)
      && (Pending(g) > 0 ==> Effective(g, if g.inB != [] then OriginWritable(Sent(1)) else ClientWritable(Sent(1))))
    decreases |es|
  {
    if es != [] {
      IoStepKeeps(f, es[0]);
      EffectiveShrinks(f, es[0]);
      PausesEnd(IoStep(f, es[0]), es[1..]);
    }
  }

  /** Once the origin has closed, the connection outlives the bytes it still owes the client: it ends
      with everything sent, unless a send to the client failed. */
  lemma {:induction false} DrainsAfterClose(f: Flow, es: seq<IoEvent>)
    requires RelayInv(f) && IsIoRun(f, es)
    ensures var g := IoRun(f, es);
      !g.live && g.io.originClosed && !g.io.clientLost ==>
        g.io.toClient == g.io.preface + g.io.reply + g.io.fromOrigin
  {
    IoRunKeeps(f, es);
    var g := IoRun(f, es);
    assert g.io.toClient + [] == g.io.toClient;
  }

  /** The upload is not drained: when the client finishes, the connection ends at once, and what it sent
      has reached the origin if and only if the input buffer was empty at that moment. */
  lemma {:induction false} ClientEofExactly(f: Flow, r: Send)
    requires RelayInv(f) && IoEnabled(f, ClientReadable(Closed, r)) && |f.inB| < f.cap
    ensures var g := IoStep(f, ClientReadable(Closed, r));
      !g.live && g.io.fromClient == f.io.fromClient && (g.io.toOrigin == g.io.fromClient <==> f.inB == [])
  {
    assert |f.io.toOrigin + f.inB| == |f.io.toOrigin| + |f.inB|;
    assert f.inB == [] ==> f.io.toOrigin + f.inB == f.io.toOrigin;
  }

  /** A byte that the origin does not take at once, and the end of the client's stream. */
  function LosingRun(x: byte): seq<IoEvent> {
    [ClientReadable(Received([x]), SendAgain), ClientReadable(Closed, SendAgain)]
  }

  /** From every idle relay with its origin there, that byte is lost. */
  lemma {:induction false} UploadCanBeLost(f: Flow, x: byte)
    requires RelayInv(f) && f.live && f.inB == [] && f.outB == [] && OriginRegistered(f) && f.cap >= 2
    ensures IsIoRun(f, LosingRun(x))
    ensures var g := IoRun(f, LosingRun(x));
      !g.live && g.io.fromClient == f.io.fromClient + [x] && g.io.toOrigin == f.io.fromClient
  {
    var es := LosingRun(x);
    var g := IoStep(f, es[0]);
    assert [] + [x] == [x] && f.io.toOrigin + [] == f.io.toOrigin;
    assert g.live && g.inB == [x] && g.client == READ && IoEnabled(g, es[1]);
    assert es[1..] == [es[1]] && es[1..][1..] == [];
    assert IsIoRun(IoStep(g, es[1]), []) && IsIoRun(g, es[1..]) && IsIoRun(f, es);
    assert IoRun(g, es[1..]) == IoStep(g, es[1]);
  }

  /** Why half duplex matters: with both buffers in use and the output full, a send to the client
      would leave input pending and nobody waiting to write it. */
  lemma {:induction false} FullDuplexWouldStrand(f: Flow, n: nat)
    requires f.originFd > 0 && OriginRegistered(f)
    requires f.inB != [] && |f.outB| >= f.cap > 0 && 1 <= n <= |f.outB|
    ensures var g := SentToClient(f, n); g.inB != [] && OriginInterest(g, READ)
  {
  }

  // ---- Starting the relay ----

  /** A connection with its origin connected, before the reply. */
  predicate Ready(f: Flow) {
    && f.live && !f.stray && f.cap >= 256 && f.inB == [] && f.outB == [] && f.originFd > 0
    && f.io.toClient == f.io.queued && f.bytesMetric == |f.io.toClient|
    && f.io.fromClient == [] && f.io.toOrigin == [] && f.io.fromOrigin == [] && !f.io.originClosed
  }

  /** Registering the origin after the first send, as for a connection made at once, comes to the
      same as registering it before. */
  lemma {:induction false} StartThenRegister(f: Flow, reply: seq<byte>, r: Send)
    requires Ready(f) && f.origin == Unregistered && 1 <= |reply| < 256 && r != SendFailed
    ensures StartReply(f, reply, r).live && StartReply(RegisterOrigin(f, CopyHandler, NOOP), reply, r).live
    ensures RegisterOrigin(StartReply(f, reply, r), CopyHandler, NOOP)
         == StartReply(RegisterOrigin(f, CopyHandler, NOOP), reply, r)
  {
  }
}