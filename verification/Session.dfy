// A SOCKS5 session as its client, its origin and RFC 1928 and RFC 1929 see it: which bytes are read, which are
// sent, and when the session is over, from the bytes received and the results of the system calls alone.
// There are no parsers, buffers, interests or callbacks here, and numbers are written out.
// Refinement.dfy shows that every connection of the server is such a session.
module Session {
  import opened Bytes
  import opened Relay
  import AF = AddressFallback
  import CR = ConnReqParser
  import Socks5
  import Pipe

  datatype Phase =
    | Greeting(got: seq<byte>)             // of the bytes of this message, these have come
    | Credentials(got: seq<byte>)
    | Request(got: seq<byte>)
    | Replying(after: Phase)               // a reply is owed; when some of it has gone, the next phase begins
    | Resolving(found: seq<AF.Endpoint>)
    | Connecting(left: seq<AF.Endpoint>)   // an attempt is under way; these addresses are left
    | Relaying
    | Over

  /** `pipe` has the bytes sent and owed in both directions; `user` and `destination` are what the log is
      told. */
  datatype Session = Session(phase: Phase, cap: nat, pipe: Pipe.Pipe, user: seq<byte>,
                             destination: Option<Socks5.Destination>)

  function Opened(cap: nat): Session {
    Session(Greeting([]), cap, Pipe.Pipe(false, false, [], [], [], []), [], None)
  }

  function Ended(s: Session): Session { s.(phase := Over, pipe := Pipe.Finished(s.pipe)) }

  // ---- Replies ----

  function Owing(s: Session, reply: seq<byte>, after: Phase): Session {
    s.(phase := Replying(after), pipe := s.pipe.(owed := s.pipe.owed + reply))
  }

  /** A send of what is owed. The first bytes that go decide: the session moves on, or is over. */
  function Sending(s: Session, after: Phase, r: Send): Session {
    match r
    case Sent(n) =>
      if n == 0 then s
      else
        var t := s.(pipe := Pipe.ToClient(s.pipe, r));
        if after == Over then Ended(t) else t.(phase := after)
    case SendAgain => s
    case SendFailed => Ended(s)
  }

  function Told(s: Session, reply: seq<byte>, after: Phase, r: Send): Session {
    Sending(Owing(s, reply, after), after, r)
  }

  /** The byte at i, if it has come. */
  function At(bs: seq<byte>, i: nat): nat { if i < |bs| then bs[i] else 0 }

  // ---- The greeting: 05, n, n methods ----

  predicate BadGreeting(bs: seq<byte>) { (bs != [] && bs[0] != 5) || exists i :: 2 <= i < |bs| && bs[i] > 2 }

  /** With n = 0 one more byte is still taken. */
  predicate WholeGreeting(bs: seq<byte>) { |bs| >= 3 && |bs| >= 2 + At(bs, 1) }

  function Method(bs: seq<byte>): byte
    requires |bs| >= 2
  {
    if bs[1] == 0 then 0xFF else if 2 in bs[2..] then 2 else if 0 in bs[2..] then 0 else 0xFF
  }

  function OnGreeting(s: Session, bs: seq<byte>, r: Send): Session {
    if BadGreeting(bs) then Ended(s)
    else if !WholeGreeting(bs) then s.(phase := Greeting(bs))
    else
      var m := Method(bs);
      Told(s, [5, m], if m == 2 then Credentials([]) else if m == 0 then Request([]) else Over, r)
  }

  // ---- The credentials: 01, u, u bytes, p, p bytes ----

  predicate BadCredentials(bs: seq<byte>) {
    || (|bs| >= 1 && bs[0] != 1) || (|bs| >= 2 && bs[1] == 0)
    || (|bs| >= 2 && |bs| >= 3 + At(bs, 1) && At(bs, 2 + At(bs, 1)) == 0)
  }

  predicate WholeCredentials(bs: seq<byte>) {
    |bs| >= 2 && |bs| >= 3 + At(bs, 1) + At(bs, 2 + At(bs, 1))
  }

  /** Names and passwords are compared as C strings; what follows the credentials is dropped. */
  function OnCredentials(s: Session, bs: seq<byte>, r: Send, users: Socks5.Users): Session {
    if BadCredentials(bs) then Ended(s)
    else if !WholeCredentials(bs) then s.(phase := Credentials(bs))
    else
      var u := At(bs, 1);
      var name, password := CStr(bs[2..2 + u]), CStr(bs[3 + u..3 + u + At(bs, 2 + u)]);
      if name in users && users[name] == password then Told(s.(user := name), [1, 0], Request([]), r)
      else Told(s, [1, 1], Over, r)
  }

  // ---- The request: 05, command, 00, type, address, two bytes of port ----

  predicate BadRequest(bs: seq<byte>) {
    || (|bs| >= 1 && bs[0] != 5) || (|bs| >= 2 && bs[1] !in {1, 2, 3}) || (|bs| >= 3 && bs[2] != 0)
    || (|bs| >= 4 && bs[3] !in {1, 3, 4})
  }

  /** A name has its length before it; with length 0 one byte is still taken. */
  predicate WholeRequest(bs: seq<byte>) {
    |bs| >= 5 && |bs| >= if bs[3] == 1 then 10 else if bs[3] == 4 then 22 else 7 + if bs[4] == 0 then 1 else At(bs, 4)
  }

  /** A name is cut after 253 bytes, and is a C string. */
  function Target(bs: seq<byte>): Socks5.Destination
    requires WholeRequest(bs)
  {
    var address :=
      if bs[3] == 1 then CR.IPv4(bs[4..8])
      else if bs[3] == 4 then CR.IPv6(bs[4..20])
      else CR.DomainName(CStr(bs[5..5 + if bs[4] < 253 then At(bs, 4) else 253]));
    Socks5.Destination(address, At(bs, |bs| - 2) * 256 + At(bs, |bs| - 1))
  }

  /** Only command 1, CONNECT, is served. */
  function OnRequest(s: Session, bs: seq<byte>, resolver: Socks5.Resolver): Session {
    if BadRequest(bs) then Ended(s)
    else if !WholeRequest(bs) then s.(phase := Request(bs))
    else if bs[1] != 1 then Owing(s, [5, 7, 0, 1, 0, 0, 0, 0, 0, 0], Over)
    else
      var t := s.(destination := Some(Target(bs)));
      if bs[3] != 3 then t.(phase := Resolving(resolver.numeric))
      else if resolver.threadStarts then t.(phase := Resolving([]))
      else Ended(t)
  }

  // ---- The origin ----

  /** The relay begins with the reply, and a first send. */
  function Started(s: Session, reply: seq<byte>, open: bool, r: Send): Session {
    var p := Pipe.ToClient(s.pipe.(owed := s.pipe.owed + reply, originOpen := open), r);
    if p.over then s.(phase := Over, pipe := p) else s.(phase := Relaying, pipe := p)
  }

  /** The addresses found are tried in order, up to the first that is not refused at once. */
  function OnNotification(s: Session, found: seq<AF.Endpoint>, verdicts: seq<AF.Attempt>, fd: int, reply: seq<byte>,
    r: Send): Session
    requires |verdicts| == |found|
  {
    if found == [] then Owing(s, [5, 4, 0, 1, 0, 0, 0, 0, 0, 0], Over)
    else
      var k := AF.FirstNotRefused(verdicts);
      if k == |found| then Ended(s)
      else match verdicts[k]
        case Connected => Started(s, reply, fd < 1024, r)
        case InProgress => if fd < 1024 then s.(phase := Connecting(found[k + 1..])) else Ended(s)
        case _ => Ended(s)
  }

  /** A failed attempt is followed by the next, if that is under way too, and otherwise by a refusal. */
  function OnAttempt(s: Session, left: seq<AF.Endpoint>, failed: bool, verdicts: seq<AF.Attempt>, reply: seq<byte>,
    r: Send): Session
    requires |verdicts| == |left|
  {
    if !failed then Started(s, reply, true, r)
    else
      var k := AF.FirstNotRefused(verdicts);
      if k == |left| || verdicts[k] == AF.Connected then Owing(s, reply, Over)
      else if verdicts[k] == AF.InProgress then s.(phase := Connecting(left[k + 1..]))
      else s
  }

  // ---- Events ----

  /** What a client's socket says while a message is awaited; `on` is for its bytes. */
  function Awaiting(s: Session, e: Socks5.Event, on: (seq<byte>, Send, Socks5.Env) -> Session): Session {
    match e
    case Io(ClientReadable(recv, r), env) =>
      (match recv
       case Received(bytes) => on(bytes, r, env)
       case RecvAgain => s
       case _ => Ended(s))
    case _ => s
  }

  function Step(s: Session, e: Socks5.Event): Session {
    match s.phase
    case Greeting(got) => Awaiting(s, e, (bytes, r, env: Socks5.Env) => OnGreeting(s, got + bytes, r))
    case Credentials(got) => Awaiting(s, e, (bytes, r, env: Socks5.Env) => OnCredentials(s, got + bytes, r, env.users))
    case Request(got) => Awaiting(s, e, (bytes, r, env: Socks5.Env) => OnRequest(s, got + bytes, env.resolver))
    case Replying(after) => if e.Io? && e.io.ClientWritable? then Sending(s, after, e.io.send) else s
    case Resolving(found) =>
      (match e
       case ResolverDone(list) => s.(phase := Resolving(list))
       case BlockNotified(verdicts, fd, reply, r) =>
         if |verdicts| == |found| then OnNotification(s, found, verdicts, fd, reply, r) else s
       case _ => s)
    case Connecting(left) =>
      if e.ConnectReady? && |e.verdicts| == |left| then OnAttempt(s, left, e.failed, e.verdicts, e.reply, e.send) else s
    case Relaying =>
      if e.Io? then
        var p := Pipe.Step(s.pipe, s.cap, e.io);
        if p.over then s.(phase := Over, pipe := p) else s.(pipe := p)
      else s
    case Over => s
  }

  /** A session is a function of its events. */
  function Run(s: Session, es: seq<Socks5.Event>): Session
    decreases |es|
  {
    if es == [] then s else Run(Step(s, es[0]), es[1..])
  }
}
