// The connection of src/server/socks5: socks5.c and states_handlers/*, on top of the state machine
// and the data path, as functions from a connection and an event to the next connection.
// Connection.dfy has the object whose methods compute these functions.
module Socks5 {
  import opened Bytes
  import opened AddressFallback
  import opened StateMachine
  import opened Relay
  import HS = HandshakeParser
  import AU = AuthParser
  import CR = ConnReqParser

  type Users = map<seq<byte>, seq<byte>>

  /** Credentials that `auth_check_credentials` accepted, and the user table at that moment. */
  datatype Grant = NoGrant | Granted(users: Users, username: seq<byte>, password: seq<byte>)

  /** History: the bytes fed to each of the three parsers, and the grant. */
  datatype Negotiation = Negotiation(greeting: seq<byte>, credentials: seq<byte>, grant: Grant, asked: seq<byte>)

  /** Name resolution. `addrInfo` is [] for NULL; `resolving` counts the resolver threads running for
      this connection and `jobs` the notifications queued for it in the selector; `requested` and
      `notified` are history. */
  datatype Resolution = Resolution(addrInfo: seq<Endpoint>, resolving: nat, jobs: nat, requested: nat, notified: nat)

  /** dst_address and dst_port. A name is what C string functions see of it; numeric addresses keep
      their value through their text form. */
  datatype Destination = Destination(address: CR.Address, port: uint16)

  /** The longest name that dst_address holds. */
  const MAX_NAME := 253

  /** `set_dst_address`. A name of declared length zero becomes the empty string. */
  function DestinationOf(v: CR.Value): Destination {
    var address := CR.Fields(v).dst;
    var n := Min(if v.len < MAX_NAME then v.len else MAX_NAME, |v.addr|);
    Destination(if address.DomainName? then CR.DomainName(CStr(v.addr[..n])) else address, v.port)
  }

  datatype Conn = Conn(
    broken: bool,               // abort() or a null parser was reached, or a thread or job outlived its connection
    resumed: bool,              // a handler went on using the connection after it had been freed
    stm: Machine,
    flow: Flow,
    isError: bool,
    username: seq<byte>,
    destination: Option<Destination>,
    dns: Resolution,
    nego: Negotiation)

  /** `socksv5_passive_accept` */
  function Accepted(bufferSize: nat): Conn {
    Conn(false, false, START, Opened(bufferSize), false, [], None, Resolution([], 0, 0, 0, 0), Negotiation([], [], NoGrant, []))
  }

  // ---- Small steps ----

  function Break(c: Conn): Conn { c.(broken := true) }

  /** A handler comes back from a call that may have freed the connection, and goes on using it. */
  function Resume(c: Conn): Conn { if c.flow.live then c else c.(resumed := true) }

  /** Unregistering both sockets, which runs `socksv5_close` on the client's. */
  function Close(c: Conn): Conn {
    c.(stm := Discarded(c.stm), flow := End(c.flow), dns := c.dns.(addrInfo := []))
  }

  /** The end of the connection, if the data path has ended. */
  function CloseIfEnded(c: Conn): Conn { if c.flow.live then c else Close(c) }

  function Answer(c: Conn, reply: seq<byte>): Conn { c.(flow := SetClient(Put(c.flow, reply), WRITE)) }

  /** An error reply, after whose first byte the connection ends. */
  function Refuse(c: Conn, reply: seq<byte>): Conn { Answer(c, reply).(isError := true) }

  // ---- stm.c ----

  function HandleFirst(c: Conn): Conn {
    if c.stm.current.None? then c.(stm := Entered(c.stm, HANDSHAKE)) else c
  }

  /** What `on_arrival` does beyond the machine itself: COPY takes the origin over, and DONE and ERROR
      end the connection. */
  function Arrived(c: Conn, s: State): Conn {
    var d := c.(stm := Entered(c.stm, s));
    match s
    case COPY => d.(flow := RegisterOrigin(d.flow, CopyHandler, NOOP))
    case DONE => Close(d)
    case ERROR => Close(d)
    case _ => d
  }

  /** Departure from COPY and arrival at COPY also act on the selector, and arrival at DONE or ERROR
      ends the connection. The code that goes on with a connection that has ended reads freed memory:
      where it does, `Resume` records it, and nothing it does then is modelled. */
  function Jump(c: Conn, next: State): Conn {
    if !c.flow.live || c.stm.current == Some(next) then c
    else if !CanDepart(c.stm) then Break(c)
    else
      var d := c.(stm := Jumped(c.stm, next),
                  flow := if c.stm.current == Some(COPY) then ReleaseOrigin(c.flow) else c.flow);
      match next
      case COPY => d.(flow := RegisterOrigin(d.flow, CopyHandler, NOOP))
      case DONE => Close(d)
      case ERROR => Close(d)
      case _ => d
  }

  // ---- Writing to the client ----

  predicate HasWriteHandler(s: State) { s in {HANDSHAKE, AUTH, CONNECTION_REQ, CONNECTING} }

  /** The `on_write_ready` handlers: which state follows a reply. */
  function AfterWrite(c: Conn): State
    requires c.stm.current.Some? && (c.stm.current.value == HANDSHAKE ==> c.stm.hs.Some?)
  {
    if c.isError then ERROR
    else match c.stm.current.value
      case HANDSHAKE => if c.stm.hs.value.userPass then AUTH else CONNECTION_REQ
      case AUTH => CONNECTION_REQ
      case _ => COPY
  }

  /** `stm_handler_write`, which `has_write_handler` guards. */
  function WriteReady(c: Conn): Conn {
    if c.stm.current.None? || (c.stm.current.value == HANDSHAKE && c.stm.hs.None?) then Break(c)
    else if HasWriteHandler(c.stm.current.value) then Jump(c, AfterWrite(c))
    else c
  }

  /** `socksv5_write` */
  function ClientWrite(c: Conn, r: Send): Conn {
    var d := c.(flow := WriteToClient(c.flow, r));
    if c.flow.outB != [] && SomeSent(r) then WriteReady(d) else CloseIfEnded(d)
  }

  // ---- The read handlers of the negotiation: each drains in_buff, and names the next state ----

  function PopIn(c: Conn): Conn
    requires c.flow.inB != []
  {
    c.(flow := c.flow.(inB := c.flow.inB[1..]))
  }

  function DropIn(c: Conn): Conn { c.(flow := c.flow.(inB := [])) }

  function CurrentOr(c: Conn, s: State): State { if c.stm.current.Some? then c.stm.current.value else s }

  function FedGreeting(c: Conn, v: HS.Value): Conn
    requires c.flow.inB != []
  {
    PopIn(c).(stm := c.stm.(hs := Some(v)), nego := c.nego.(greeting := c.nego.greeting + [c.flow.inB[0]]))
  }

  /** The reply to a complete greeting. */
  function AnswerGreeting(c: Conn, v: HS.Value, r: Send): Conn {
    ClientWrite(Answer(c, HS.Reply(v.noAuth, v.userPass)).(isError := !(v.noAuth || v.userPass)), r)
  }

  /** Bytes after the greeting are fed to the same parser, if the reply could not be sent yet, and to
      none if it has been and the state has moved on. */
  function HandshakeRead(c: Conn, r: Send): (Conn, State)
    decreases |c.flow.inB|
  {
    if c.flow.inB == [] then (c, CurrentOr(c, ERROR))
    else if c.stm.hs.None? then (Break(c), ERROR)
    else
      var (v, report) := HS.Step(c.stm.hs.value, c.flow.inB[0]);
      var d := FedGreeting(c, v);
      if report == HS.State.DONE then
        var e := AnswerGreeting(d, v, r);
        AnswerKeepsInput(d, v, r);
        if e.flow.live then HandshakeRead(e, r) else (Resume(e), CurrentOr(e, ERROR))
      else if report == HS.State.ERROR then (d, ERROR)
      else HandshakeRead(d, r)
  }

  lemma {:induction false} AnswerKeepsInput(c: Conn, v: HS.Value, r: Send)
    ensures AnswerGreeting(c, v, r).flow.inB == c.flow.inB
  {
    hide ClientWrite;
    ClientWriteKeepsInput(Answer(c, HS.Reply(v.noAuth, v.userPass)).(isError := !(v.noAuth || v.userPass)), r);
  }

  lemma {:induction false} ClientWriteKeepsInput(c: Conn, r: Send)
    ensures ClientWrite(c, r).flow.inB == c.flow.inB
  {
    hide WriteToClient, Jump;
    WriteKeepsInput(c.flow, r);
    var d := c.(flow := WriteToClient(c.flow, r));
    if d.stm.current.Some? && (d.stm.current.value == HANDSHAKE ==> d.stm.hs.Some?) {
      JumpKeepsInput(d, AfterWrite(d));
    }
  }

  lemma {:induction false} WriteKeepsInput(f: Flow, r: Send)
    ensures WriteToClient(f, r).inB == f.inB
  {
  }

  lemma {:induction false} JumpKeepsInput(c: Conn, next: State)
    ensures Jump(c, next).flow.inB == c.flow.inB
  {
    hide Jumped, CanDepart;
  }

  /** `auth_check_credentials`, which compares C strings. */
  predicate Accepts(users: Users, username: seq<byte>, password: seq<byte>) {
    CStr(username) in users && users[CStr(username)] == CStr(password)
  }

  /** `create_auth_response` */
  function AuthReply(ok: bool): seq<byte> { [AU.SUBNEGOTIATION_VERSION, if ok then 0 else 1] }

  function FedCredentials(c: Conn, v: AU.Value): Conn
    requires c.flow.inB != []
  {
    PopIn(c).(stm := c.stm.(au := Some(v)), nego := c.nego.(credentials := c.nego.credentials + [c.flow.inB[0]]))
  }

  function Grants(c: Conn, users: Users, v: AU.Value): Conn {
    if !Accepts(users, v.uname, v.passwd) then c
    else c.(username := CStr(v.uname), nego := c.nego.(grant := Granted(users, v.uname, v.passwd)))
  }

  /** The reply to complete credentials; what follows them in the buffer is dropped. */
  function AnswerCredentials(c: Conn, v: AU.Value, r: Send, users: Users): Conn {
    var ok := Accepts(users, v.uname, v.passwd);
    ClientWrite(Grants(DropIn(Answer(c, AuthReply(ok))).(isError := !ok), users, v), r)
  }

  function AuthRead(c: Conn, r: Send, users: Users): (Conn, State)
    decreases |c.flow.inB|
  {
    if c.flow.inB == [] then (c, CurrentOr(c, ERROR))
    else if c.stm.au.None? then (Break(c), ERROR)
    else
      var v := AU.Step(c.stm.au.value, c.flow.inB[0]);
      var d := FedCredentials(c, v);
      if v.state == AU.State.DONE then
        var e := AnswerCredentials(d, v, r, users);
        (Resume(e), CurrentOr(e, ERROR))
      else if v.state == AU.State.ERROR then (d, ERROR)
      else AuthRead(d, r, users)
  }

  /** How a resolution starts: a domain name is resolved by a thread, if one can be started, and a
      numeric address at once. */
  datatype Resolver = Resolver(threadStarts: bool, numeric: seq<Endpoint>)

  function Ask(c: Conn, v: CR.Value): Conn {
    c.(flow := SetClient(c.flow, NOOP), destination := Some(DestinationOf(v)))
  }

  /** What a complete request leads to. */
  function AnswerRequest(c: Conn, v: CR.Value, resolver: Resolver, reply: seq<byte>): (Conn, State) {
    if v.cmd != CR.CONNECT then (Refuse(c, reply), CONNECTION_REQ)
    else if v.atyp != CR.ATYP_DOMAIN_NAME then
      (Ask(c, v).(dns := c.dns.(addrInfo := resolver.numeric, jobs := c.dns.jobs + 1, requested := c.dns.requested + 1)),
       CONNECTING)
    else if resolver.threadStarts then
      (Ask(c, v).(dns := c.dns.(resolving := c.dns.resolving + 1, requested := c.dns.requested + 1)), CONNECTING)
    else (Ask(c, v), ERROR)
  }

  function FedRequest(c: Conn, v: CR.Value): Conn
    requires c.flow.inB != []
  {
    PopIn(c).(stm := c.stm.(cr := Some(v)), nego := c.nego.(asked := c.nego.asked + [c.flow.inB[0]]))
  }

  function ConnReqRead(c: Conn, resolver: Resolver, reply: seq<byte>): (Conn, State)
    decreases |c.flow.inB|
  {
    if c.flow.inB == [] then (c, CONNECTION_REQ)
    else if c.stm.cr.None? then (Break(c), ERROR)
    else
      var v := CR.Step(c.stm.cr.value, c.flow.inB[0]);
      var d := FedRequest(c, v);
      if v.state == CR.State.DONE then AnswerRequest(d, v, resolver, reply)
      else if v.state == CR.State.ERROR then (d, ERROR)
      else ConnReqRead(d, resolver, reply)
  }

  // ---- Reading from the client ----

  /** `copy_read` */
  function CopyReadReady(c: Conn, r: Send): (Conn, State) {
    if !OriginRegistered(c.flow) then (c, ERROR)
    else (Resume(CloseIfEnded(c.(flow := WriteToOrigin(SetOrigin(c.flow, WRITE), r)))), COPY)
  }

  /** What the environment adds to a chunk from the client. */
  datatype Env = Env(users: Users, resolver: Resolver, reply: seq<byte>)

  /** The `on_read_ready` handlers; `connecting_read` is only reached once the origin has connected. */
  function ReadHandler(c: Conn, r: Send, env: Env): (Conn, State) {
    match CurrentOr(c, ERROR)
    case HANDSHAKE => HandshakeRead(c, r)
    case AUTH => AuthRead(c, r, env.users)
    case CONNECTION_REQ => ConnReqRead(c, env.resolver, env.reply)
    case CONNECTING => (c, COPY)
    case COPY => CopyReadReady(c, r)
    case _ => (Break(c), ERROR)
  }

  /** `stm_handler_read` */
  function ReadReady(c: Conn, r: Send, env: Env): Conn {
    var (e, next) := ReadHandler(HandleFirst(c), r, env);
    Jump(e, next)
  }

  function Gained(c: Conn, bytes: seq<byte>): Conn {
    var f := FromClient(c.flow, bytes);
    c.(flow := if c.stm.current == Some(COPY) then f.(io := f.io.(fromClient := f.io.fromClient + bytes)) else f)
  }

  /** `socksv5_read` */
  function ClientRead(c: Conn, recv: Recv, r: Send, env: Env): Conn {
    if |c.flow.inB| >= c.flow.cap then c.(flow := PauseClient(c.flow))
    else match recv
      case Received(bytes) => ReadReady(Gained(c, bytes), r, env)
      case Closed => Close(c)
      case RecvAgain => c
      case RecvFailed => Close(c)
  }

  // ---- Connecting ----

  /** The reply that starts the relay. */
  function Start(c: Conn, reply: seq<byte>, r: Send): Conn {
    ClientWrite(DropIn(c.(flow := SetClient(PutReply(c.flow, reply), WRITE))), r)
  }

  /** `connecting_on_block_ready`; `fd` is the new origin socket. */
  function ConnectingOnBlock(c: Conn, verdicts: seq<Attempt>, fd: int, reply: seq<byte>, r: Send): (Conn, State)
    requires |verdicts| == |c.dns.addrInfo|
  {
    if c.dns.addrInfo == [] then (Refuse(c, reply), CONNECTION_REQ)
    else
      var o := ConnectTo(c.dns.addrInfo, verdicts);
      var d := c.(flow := c.flow.(originFd := fd), dns := c.dns.(addrInfo := o.kept));
      match o.result
      case CONNECTION_IN_PROGRESS =>
        var e := d.(flow := RegisterOrigin(SetClient(d.flow, NOOP), ConnectingHandler, WRITE));
        (e, if OriginRegistered(e.flow) then CONNECTING else ERROR)
      case CONNECTION_SUCCESS => (Start(d, reply, r), COPY)
      case CONNECTION_FAILED => (d, ERROR)
  }

  /** `socksv5_block`: one notification, on a slot that may be empty by now. After ERROR, which has
      freed the connection, it reads the client's descriptor once more. */
  function Block(c: Conn, verdicts: seq<Attempt>, fd: int, reply: seq<byte>, r: Send): Conn
    requires c.dns.jobs > 0 && |verdicts| == |c.dns.addrInfo|
  {
    var d := c.(dns := c.dns.(jobs := c.dns.jobs - 1, notified := c.dns.notified + 1));
    if !d.flow.live then d
    else if d.stm.current != Some(CONNECTING) then Break(d)
    else
      var (e, next) := ConnectingOnBlock(d, verdicts, fd, reply, r);
      var f := Jump(Resume(e), next);
      if next == ERROR then Resume(f) else f
  }

  /** A resolver thread ends: it stores its list, if any, and queues the notification. */
  function Resolved(c: Conn, list: seq<Endpoint>): Conn
    requires c.dns.resolving > 0
  {
    if !c.flow.live then Break(c)
    else
      c.(dns := c.dns.(resolving := c.dns.resolving - 1, jobs := c.dns.jobs + 1,
                       addrInfo := if list == [] then c.dns.addrInfo else list))
  }

  /** The next addresses, on a new socket `fd`. */
  function Retried(c: Conn, verdicts: seq<Attempt>, fd: int): Conn
    requires |verdicts| == |c.dns.addrInfo|
  {
    if c.dns.addrInfo == [] then c
    else c.(flow := c.flow.(originFd := fd), dns := c.dns.(addrInfo := ConnectTo(c.dns.addrInfo, verdicts).kept))
  }

  /** `handle_write_connecting`. After a failed attempt only another attempt in progress is awaited,
      and everything else is answered as a failure, a connection made at once included. */
  function ConnectDone(c: Conn, failed: bool, verdicts: seq<Attempt>, fd: int, reply: seq<byte>, r: Send): Conn
    requires |verdicts| == |c.dns.addrInfo|
  {
    if !failed then
      Start(ReadReady(c.(flow := ReleaseOrigin(c.flow), dns := c.dns.(addrInfo := [])), r,
                      Env(map[], Resolver(false, []), [])),
            reply, r)
    else if ConnectTo(c.dns.addrInfo, verdicts).result == CONNECTION_IN_PROGRESS then Retried(c, verdicts, fd)
    else
      var d := Retried(c, verdicts, fd);
      Refuse(d.(flow := ReleaseOrigin(d.flow).(originFd := -1)), reply)
  }

  // ---- Events ----

  datatype Event =
    | Io(io: IoEvent, env: Env)
    | ConnectReady(failed: bool, verdicts: seq<Attempt>, fd: int, reply: seq<byte>, send: Send)
    | ResolverDone(list: seq<Endpoint>)
    | BlockNotified(verdicts: seq<Attempt>, fd: int, reply: seq<byte>, send: Send)

  /** Does the chunk end where its greeting ends, at the latest? */
  predicate GreetingAlone(v: HS.Value, bs: seq<byte>)
    decreases |bs|
  {
    |bs| <= 1 ||
    var (w, report) := HS.Step(v, bs[0]);
    report == HS.State.ERROR || (report != HS.State.DONE && GreetingAlone(w, bs[1..]))
  }

  /** Does the chunk end where its request ends, at the latest? */
  predicate RequestAlone(v: CR.Value, bs: seq<byte>)
    decreases |bs|
  {
    |bs| <= 1 ||
    var w := CR.Step(v, bs[0]);
    w.state == CR.State.ERROR || (w.state != CR.State.DONE && RequestAlone(w, bs[1..]))
  }

  /** Clients wait for the reply to a greeting and to a request before sending more. */
  predicate NotPipelined(c: Conn, bytes: seq<byte>) {
    && (c.stm.current == None ==> GreetingAlone(HS.INIT, bytes))
    && (c.stm.current == Some(HANDSHAKE) && c.stm.hs.Some? ==> GreetingAlone(c.stm.hs.value, bytes))
    && (c.stm.current == Some(CONNECTION_REQ) && c.stm.cr.Some? ==> RequestAlone(c.stm.cr.value, bytes))
  }

  /** Every slot of the connection is for a descriptor that it has open. A slot for a closed one makes
      `pselect` fail, and then nothing is dispatched and the server stops. */
  predicate Pollable(f: Flow) { f.origin.Registered? ==> f.origin.fd == f.originFd }

  /** `create_conn_req_error_response` */
  function ErrorReply(code: byte): seq<byte> { [5, code, 0, 1, 0, 0, 0, 0, 0, 0] }

  const COMMAND_NOT_SUPPORTED := ErrorReply(7)
  const HOST_UNREACHABLE := ErrorReply(4)

  predicate IsErrorReply(reply: seq<byte>) { |reply| == 10 && reply == ErrorReply(reply[1]) }

  predicate ReplySized(reply: seq<byte>) { |reply| == 10 || |reply| == 22 }

  /** Which events the connection's slots and jobs ask for, and what the environment guarantees about
      them: a socket is served only for its current interest, `recv` fits the room offered, and new
      sockets have positive numbers; where there is none, -1 takes the place of one. */
  predicate Offered(c: Conn, e: Event) {
    match e
    case Io(io, env) =>
      && IoEnabled(c.flow, io)
      && (io.ClientReadable? ==>
          env.reply == COMMAND_NOT_SUPPORTED && (io.recv.Received? ==> NotPipelined(c, io.recv.bytes)))
    case ConnectReady(failed, verdicts, fd, reply, _) =>
      && c.flow.live && c.flow.origin.Registered? && c.flow.origin.handler == ConnectingHandler
      && c.flow.origin.interest == WRITE && |verdicts| == |c.dns.addrInfo|
      && SocketIs(c.dns.addrInfo, verdicts, fd)
      && (if failed then IsErrorReply(reply) else ReplySized(reply))
    case ResolverDone(_) => c.dns.resolving > 0
    case BlockNotified(verdicts, fd, reply, _) =>
      && c.dns.jobs > 0 && |verdicts| == |c.dns.addrInfo|
      && SocketIs(c.dns.addrInfo, verdicts, fd)
      && (if c.dns.addrInfo == [] then reply == HOST_UNREACHABLE else ReplySized(reply))
  }

  /** Which of them the selector can dispatch. Descriptors.dfy shows that in the whole server this leaves
      out none. */
  predicate Enabled(c: Conn, e: Event) {
    Offered(c, e) && (e.ResolverDone? || Pollable(c.flow))
  }

  /** The handlers of the two sockets. */
  function React(c: Conn, io: IoEvent, env: Env): Conn {
    match io
    case ClientReadable(recv, send) => ClientRead(c, recv, send, env)
    case ClientWritable(send) => ClientWrite(c, send)
    case OriginReadable(recv, send) => OriginRead(c, recv, send)
    case OriginWritable(send) => CopyWrite(c, send)
  }

  function Step(c: Conn, e: Event): Conn
    requires Enabled(c, e)
  {
    match e
    case Io(io, env) => React(c, io, env)
    case ConnectReady(failed, verdicts, fd, reply, send) => ConnectDone(c, failed, verdicts, fd, reply, send)
    case ResolverDone(list) => Resolved(c, list)
    case BlockNotified(verdicts, fd, reply, send) => Block(c, verdicts, fd, reply, send)
  }

  /** `copy_read_handler`, which ends in `socksv5_write`. */
  function OriginRead(c: Conn, recv: Recv, r: Send): Conn {
    if |c.flow.outB| < c.flow.cap && recv.Received? then
      ClientWrite(c.(flow := SetClient(FromOrigin(c.flow, recv.bytes), WRITE)), r)
    else CloseIfEnded(c.(flow := ReadFromOrigin(c.flow, recv, r)))
  }

  /** `copy_write_handler` */
  function CopyWrite(c: Conn, r: Send): Conn {
    CloseIfEnded(c.(flow := WriteToOrigin(c.flow, r)))
  }

  // ---- Runs ----

  /** The replies of the first two phases have two bytes. Is this event sure not to split one? A send
      of exactly one byte is the only way. */
  predicate WholeReply(c: Conn, e: Event) {
    c.stm.current in {None, Some(HANDSHAKE), Some(AUTH)} && e.Io? ==> e.io.send != Sent(1)
  }

  predicate IsRun(c: Conn, es: seq<Event>)
    decreases |es|
  {
    es == [] || (Enabled(c, es[0]) && WholeReply(c, es[0]) && IsRun(Step(c, es[0]), es[1..]))
  }

  function Run(c: Conn, es: seq<Event>): Conn
    requires IsRun(c, es)
    decreases |es|
  {
    if es == [] then c else Run(Step(c, es[0]), es[1..])
  }
}
