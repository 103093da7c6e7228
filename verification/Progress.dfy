// The way to COPY is open: a run that gets there, for every login and every CONNECT request; and the runs
// in which a retry gets stuck.
module Progress {
  import opened Bytes
  import opened AddressFallback
  import opened StateMachine
  import opened Relay
  import opened Socks5
  import opened Invariant
  import opened Chunking
  import A = Automaton
  import R = Retries
  import V = Refinement
  import HS = HandshakeParser
  import AU = AuthParser
  import CR = ConnReqParser

  const OPEN_GREETING: seq<byte> := [HS.SOCKS5_VERSION, 1, HS.NO_AUTH]
  const PASSWORD_GREETING: seq<byte> := [HS.SOCKS5_VERSION, 1, HS.USER_PASS]

  function Heard(n: byte, m: byte): HS.Value {
    HS.Value(HS.State.METHODS, 1, n, n == 1 && m == HS.NO_AUTH, n == 1 && m == HS.USER_PASS)
  }

  lemma {:induction false} Greetings()
    ensures var v := HS.INIT.(state := HS.State.NMETHODS);
      && GreetingAlone(HS.INIT, OPEN_GREETING) && GreetingAlone(HS.INIT, PASSWORD_GREETING)
      && HS.Step(HS.INIT, HS.SOCKS5_VERSION) == (v, HS.State.VERSION)
      && HS.Step(v, 1) == (Heard(0, 0), HS.State.NMETHODS)
      && HS.Step(Heard(0, 0), HS.NO_AUTH) == (Heard(1, HS.NO_AUTH), HS.State.DONE)
      && HS.Step(Heard(0, 0), HS.USER_PASS) == (Heard(1, HS.USER_PASS), HS.State.DONE)
  {
  }

  /** The greeting is read, and its reply goes out whole. */
  lemma {:induction false} GreetingAnswered(bufferSize: nat, m: byte, env: Env)
    requires bufferSize >= 256 && m in {HS.NO_AUTH, HS.USER_PASS}
    ensures var c := ClientRead(Accepted(bufferSize), Received([HS.SOCKS5_VERSION, 1, m]), Sent(2), env);
      Admitted(c, m) && c.flow.cap == bufferSize
  {
    hide HandshakeRead;
    var bs := [HS.SOCKS5_VERSION, 1, m];
    var c := HandleFirst(Gained(Accepted(bufferSize), bs));
    assert c.flow.inB == bs;
    ThreeBytes(c, m);
  }

  lemma {:induction false} ThreeBytes(c0: Conn, m: byte)
    requires m in {HS.NO_AUTH, HS.USER_PASS} && c0.flow.inB == [HS.SOCKS5_VERSION, 1, m] && c0.flow.live
    requires c0.stm.current == Some(HANDSHAKE) && c0.stm.hs == Some(HS.INIT) && c0.flow.outB == [] && c0.flow.cap >= 2
    requires c0.flow.originFd == 0 && c0.flow.origin == Unregistered && c0.dns.resolving == 0
    ensures var (e, next) := HandshakeRead(c0, Sent(2));
      Admitted(e, m) && next == StateAfter(m) && e.flow.cap == c0.flow.cap
  {
    hide HS.Step, AnswerGreeting, Admitted;
    Greetings();
    var bs := c0.flow.inB;
    assert bs[1..][1..] == [bs[2]] && bs[1..][0] == bs[1];
    var c1 := FedGreeting(c0, HS.INIT.(state := HS.State.NMETHODS));
    var c2 := FedGreeting(c1, Heard(0, 0));
    var v := Heard(1, m);
    var c3 := FedGreeting(c2, v);
    assert c1.flow.inB == bs[1..] && c2.flow.inB == [bs[2]] && c3.flow.inB == [];
    GreetingReplied(c3, v);
    var e := AnswerGreeting(c3, v, Sent(2));
    AdmittedMeans(e, m);
    assert HandshakeRead(e, Sent(2)) == (e, StateAfter(m));
    assert HandshakeRead(c2, Sent(2)) == (e, StateAfter(m));
    assert HandshakeRead(c0, Sent(2)) == HandshakeRead(c1, Sent(2)) == HandshakeRead(c2, Sent(2));
  }

  lemma {:induction false} AdmittedMeans(c: Conn, m: byte)
    requires Admitted(c, m)
    ensures c.flow.live && c.flow.inB == [] && c.stm.current == Some(StateAfter(m))
  {
  }

  function StateAfter(m: byte): State { if m == HS.USER_PASS then AUTH else CONNECTION_REQ }

  /** In the state that the method selected calls for, with its parser new. */
  predicate Admitted(c: Conn, m: byte) {
    && c.flow.live && c.stm.current == Some(StateAfter(m)) && c.flow.client == READ && c.flow.inB == [] && c.flow.outB == []
    && c.flow.origin == Unregistered && !c.isError && c.flow.originFd == 0 && c.dns.resolving == 0
    && (if m == HS.USER_PASS then c.stm.au == Some(AU.INIT) else c.stm.cr == Some(CR.INIT))
  }

  lemma {:induction false} GreetingReplied(c: Conn, v: HS.Value)
    requires c.flow.live && c.flow.outB == [] && c.flow.inB == [] && c.flow.cap >= 2 && c.flow.originFd == 0
    requires c.flow.origin == Unregistered && c.stm.current == Some(HANDSHAKE) && c.stm.hs == Some(v)
    requires v.noAuth == !v.userPass && c.dns.resolving == 0
    ensures var d := AnswerGreeting(c, v, Sent(2));
      Admitted(d, if v.userPass then HS.USER_PASS else HS.NO_AUTH) && d.flow.cap == c.flow.cap
  {
    assert ([] + HS.Reply(v.noAuth, v.userPass))[2..] == [];
  }

  lemma {:induction false} NotEarlyIsAlone(v: CR.Value, bs: seq<byte>)
    requires bs != [] && CR.Run(v, bs[..|bs| - 1]).state !in {CR.State.DONE, CR.State.ERROR}
    ensures RequestAlone(v, bs)
    decreases |bs|
  {
    if |bs| > 1 {
      var cs := bs[..|bs| - 1];
      RequestHead(v, cs);
      assert cs[1..] == bs[1..][..|bs| - 2];
      NotEarlyIsAlone(CR.Step(v, bs[0]), bs[1..]);
    }
  }

  /** What a CONNECT request starts: an immediate resolution, or a thread. */
  predicate Resolving(c: Conn, m: CR.Request, list: seq<Endpoint>) {
    && c.flow.live && c.stm.current == Some(CONNECTING) && c.flow.origin == Unregistered && !c.isError
    && (if m.dst.DomainName? then c.dns.resolving > 0 else c.dns.jobs > 0 && c.dns.addrInfo == list)
  }

  /** A CONNECT request, read in one chunk. */
  lemma {:induction false} RequestRead(c: Conn, m: CR.Request, r: Send, env: Env)
    requires AtRequest(c, c.flow.cap) && CR.WellFormed(m) && m.cmd == CR.CONNECT
      && (m.dst.DomainName? ==> env.resolver.threadStarts)
    ensures Resolving(ClientRead(c, Received(CR.Encode(m)), r, env), m, env.resolver.numeric)
    ensures RequestAlone(CR.INIT, CR.Encode(m))
  {
    var bs := CR.Encode(m);
    var init, b := bs[..|bs| - 1], bs[|bs| - 1];
    CR.EncodingParses(m);
    BeforeTheEnd(bs);
    NotEarlyIsAlone(CR.INIT, bs);
    assert init + [b] == bs;
    A.RunSnoc(CR.Step, CR.INIT, init, b);
    CR.RunConsumes(bs);
    hide CR.Encode, CR.Step, CR.Run, CR.FirstDoneAtEnd, RequestAlone, ClientRead, ConnReqRead, Jump;
    RequestReadSplit(c, init, [b], env.resolver, env.reply);
    RequestReadIs(c, bs, r, env);
    RequestUntouched(WithIn(c, init), env.resolver, env.reply);
    LastByte(ConnReqRead(WithIn(c, init), env.resolver, env.reply).0, b, m, env);
  }

  /** Reading an unfinished request changes nothing but the parser. */
  lemma {:induction false} RequestUntouched(c: Conn, resolver: Resolver, reply: seq<byte>)
    requires c.stm.cr.Some? && !CR.Stopped(CR.Run(c.stm.cr.value, c.flow.inB))
    ensures var d := ConnReqRead(c, resolver, reply).0;
      d.flow == c.flow.(inB := []) && d.isError == c.isError && d.dns == c.dns
    decreases |c.flow.inB|
  {
    hide CR.Step;
    if c.flow.inB != [] {
      RequestHead(c.stm.cr.value, c.flow.inB);
      RequestUntouched(FedRequest(c, CR.Step(c.stm.cr.value, c.flow.inB[0])), resolver, reply);
    }
  }

  lemma {:induction false} LastByte(c: Conn, b: byte, m: CR.Request, env: Env)
    requires ReadsRequest(c) && c.flow.origin == Unregistered && !c.isError
    requires var v := CR.Step(c.stm.cr.value, b);
      v.state == CR.State.DONE && v.cmd == CR.CONNECT && CR.Fields(v) == m && CR.Sound(v)
    requires m.dst.DomainName? ==> env.resolver.threadStarts
    ensures var (e, next) := ConnReqRead(WithIn(c, [b]), env.resolver, env.reply);
      Resolving(Jump(e, next), m, env.resolver.numeric)
  {
    hide CR.Step, DestinationOf;
  }

  lemma {:induction false} BeforeTheEnd(bs: seq<byte>)
    requires CR.FirstDoneAtEnd(bs)
    ensures bs != [] && CR.Run(CR.INIT, bs[..|bs| - 1]).state !in {CR.State.DONE, CR.State.ERROR}
  {
    var init, b := bs[..|bs| - 1], bs[|bs| - 1];
    assert init + [b] == bs;
    A.RunSnoc(CR.Step, CR.INIT, init, b);
    assert bs[..|bs| - 1] == init;
  }

  // ---- Stages of a run ----

  lemma {:induction false} RunConcat(c: Conn, es: seq<Event>, fs: seq<Event>)
    requires IsRun(c, es) && IsRun(Run(c, es), fs)
    ensures IsRun(c, es + fs) && Run(c, es + fs) == Run(Run(c, es), fs)
    decreases |es|
  {
    hide Enabled, WholeReply, Step;
    if es == [] {
      assert es + fs == fs;
    } else {
      assert (es + fs)[1..] == es[1..] + fs;
      RunConcat(Step(c, es[0]), es[1..], fs);
    }
  }

  lemma {:induction false} OneStep(c: Conn, e: Event)
    requires Enabled(c, e) && WholeReply(c, e)
    ensures IsRun(c, [e]) && Run(c, [e]) == Step(c, e)
  {
    hide Enabled, WholeReply, Step;
    assert [e][1..] == [] && IsRun(Step(c, e), []) && Run(Step(c, e), []) == Step(c, e);
  }

  lemma {:induction false} TwoSteps(c: Conn, e: Event, f: Event)
    requires Enabled(c, e) && WholeReply(c, e) && Enabled(Step(c, e), f) && WholeReply(Step(c, e), f)
    ensures IsRun(c, [e, f]) && Run(c, [e, f]) == Step(Step(c, e), f)
  {
    hide Enabled, WholeReply, Step;
    OneStep(c, e);
    OneStep(Step(c, e), f);
    assert [e] + [f] == [e, f];
    RunConcat(c, [e], [f]);
  }

  /** Past the gate, and waiting for a request. */
  predicate AtRequest(c: Conn, cap: nat) {
    && ReadsRequest(c) && c.flow.client == READ && c.stm.cr == Some(CR.INIT) && c.flow.origin == Unregistered
    && c.flow.cap == cap >= 256 && !c.isError && c.dns.resolving == 0
  }

  /** The addresses have been found, and the notification is queued. */
  predicate AtNotification(c: Conn, list: seq<Endpoint>) {
    && c.flow.live && c.stm.current == Some(CONNECTING) && c.dns.jobs > 0 && c.dns.addrInfo == list
    && c.flow.origin == Unregistered && !c.isError
  }

  // ---- The gate, both ways ----

  lemma {:induction false} OpenLogin(bufferSize: nat, env: Env)
    requires bufferSize >= 256 && env.reply == COMMAND_NOT_SUPPORTED
    ensures var e := Io(ClientReadable(Received(OPEN_GREETING), Sent(2)), env);
      IsRun(Accepted(bufferSize), [e]) && AtRequest(Run(Accepted(bufferSize), [e]), bufferSize)
  {
    var e := Io(ClientReadable(Received(OPEN_GREETING), Sent(2)), env);
    Greetings();
    assert Enabled(Accepted(bufferSize), e) && WholeReply(Accepted(bufferSize), e);
    assert Step(Accepted(bufferSize), e) == ClientRead(Accepted(bufferSize), Received(OPEN_GREETING), Sent(2), env);
    hide ClientRead, Enabled, WholeReply, Step;
    GreetingAnswered(bufferSize, HS.NO_AUTH, env);
    OneStep(Accepted(bufferSize), e);
  }

  lemma {:induction false} CredentialsRead(c: Conn, u: seq<byte>, p: seq<byte>, env: Env)
    requires Admitted(c, HS.USER_PASS) && c.flow.cap >= 256 && AU.WellFormed(u, p) && Accepts(env.users, u, p)
    ensures AtRequest(ClientRead(c, Received(AU.Encode(u, p)), Sent(2), env), c.flow.cap)
  {
    var bs := AU.Encode(u, p);
    var init, b := bs[..|bs| - 1], bs[|bs| - 1];
    AU.EncodingParses(u, p);
    assert init + [b] == bs;
    A.RunSnoc(AU.Step, AU.INIT, init, b);
    BeforeTheEndOfCredentials(bs);
    hide AU.Encode, AU.Step, AU.Run, AU.FirstDoneAtEnd, AuthRead, ClientRead, Accepts, Jump;
    AuthReadSplit(c, init, [b], Sent(2), env.users);
    AuthReadIs(c, bs, Sent(2), env);
    CredentialsUntouched(WithIn(c, init), Sent(2), env.users);
    LastOfCredentials(AuthRead(WithIn(c, init), Sent(2), env.users).0, b, env.users);
  }

  lemma {:induction false} BeforeTheEndOfCredentials(bs: seq<byte>)
    requires AU.FirstDoneAtEnd(bs)
    ensures bs != [] && !AU.Stopped(AU.Run(AU.INIT, bs[..|bs| - 1]))
  {
    var init, b := bs[..|bs| - 1], bs[|bs| - 1];
    assert init + [b] == bs;
    A.RunSnoc(AU.Step, AU.INIT, init, b);
    assert bs[..|bs| - 1] == init;
  }

  lemma {:induction false} CredentialsUntouched(c: Conn, r: Send, users: Users)
    requires c.stm.au.Some? && !AU.Stopped(AU.Run(c.stm.au.value, c.flow.inB))
    ensures var d := AuthRead(c, r, users).0;
      d.flow == c.flow.(inB := []) && d.isError == c.isError && d.dns == c.dns
    decreases |c.flow.inB|
  {
    hide AU.Step, AnswerCredentials;
    if c.flow.inB != [] {
      AuthHead(c.stm.au.value, c.flow.inB);
      CredentialsUntouched(FedCredentials(c, AU.Step(c.stm.au.value, c.flow.inB[0])), r, users);
    }
  }

  lemma {:induction false} LastOfCredentials(c: Conn, b: byte, users: Users)
    requires ReadsCredentials(c) && c.flow.origin == Unregistered && !c.isError && c.flow.originFd == 0 && c.flow.cap >= 256
    requires c.flow.outB == [] && c.dns.resolving == 0
    requires var v := AU.Step(c.stm.au.value, b); v.state == AU.State.DONE && Accepts(users, v.uname, v.passwd)
    ensures var (e, next) := AuthRead(WithIn(c, [b]), Sent(2), users); AtRequest(Jump(e, next), c.flow.cap)
  {
    hide AU.Step, Accepts, AnswerCredentials;
    var v := AU.Step(c.stm.au.value, b);
    var d := FedCredentials(WithIn(c, [b]), v);
    VerdictSent(d, v, users);
    assert AuthRead(WithIn(c, [b]), Sent(2), users) == (AnswerCredentials(d, v, Sent(2), users), CONNECTION_REQ);
  }

  lemma {:induction false} VerdictSent(c: Conn, v: AU.Value, users: Users)
    requires c.flow.live && c.flow.origin == Unregistered && c.flow.originFd == 0 && c.flow.cap >= 256
    requires c.flow.outB == [] && c.dns.resolving == 0 && c.stm.current == Some(AUTH) && c.stm.au.Some?
    requires Accepts(users, v.uname, v.passwd)
    ensures AtRequest(AnswerCredentials(c, v, Sent(2), users), c.flow.cap)
  {
    hide Accepts;
    assert ([] + AuthReply(true))[2..] == [];
  }

  /** How a client gets past the gate: without credentials, or with credentials that are accepted. */
  datatype Login = Open | WithPassword(username: seq<byte>, password: seq<byte>)

  predicate Admissible(l: Login, bufferSize: nat, users: Users) {
    l.WithPassword? ==>
      && AU.WellFormed(l.username, l.password) && Accepts(users, l.username, l.password)
      && |AU.Encode(l.username, l.password)| <= bufferSize
  }

  function LoginEvents(l: Login, env: Env): seq<Event>
    requires l.WithPassword? ==> AU.WellFormed(l.username, l.password)
  {
    match l
    case Open => [Io(ClientReadable(Received(OPEN_GREETING), Sent(2)), env)]
    case WithPassword(u, p) =>
      [Io(ClientReadable(Received(PASSWORD_GREETING), Sent(2)), env), Io(ClientReadable(Received(AU.Encode(u, p)), Sent(2)), env)]
  }

  lemma {:induction false} LoggedIn(l: Login, bufferSize: nat, env: Env)
    requires bufferSize >= 256 && env.reply == COMMAND_NOT_SUPPORTED && Admissible(l, bufferSize, env.users)
    ensures IsRun(Accepted(bufferSize), LoginEvents(l, env))
    ensures var c := Run(Accepted(bufferSize), LoginEvents(l, env)); AtRequest(c, bufferSize)
  {
    match l
    case Open => OpenLogin(bufferSize, env);
    case WithPassword(u, p) => PasswordLogin(bufferSize, u, p, env);
  }

  lemma {:induction false} CredentialsHaveBytes(u: seq<byte>, p: seq<byte>)
    requires AU.WellFormed(u, p)
    ensures 1 <= |AU.Encode(u, p)|
  {
  }

  lemma {:induction false} PasswordLogin(bufferSize: nat, u: seq<byte>, p: seq<byte>, env: Env)
    requires bufferSize >= 256 && env.reply == COMMAND_NOT_SUPPORTED && Admissible(WithPassword(u, p), bufferSize, env.users)
    ensures IsRun(Accepted(bufferSize), LoginEvents(WithPassword(u, p), env))
    ensures var c := Run(Accepted(bufferSize), LoginEvents(WithPassword(u, p), env)); AtRequest(c, bufferSize)
  {
    var e := Io(ClientReadable(Received(PASSWORD_GREETING), Sent(2)), env);
    var f := Io(ClientReadable(Received(AU.Encode(u, p)), Sent(2)), env);
    var c := Accepted(bufferSize);
    hide ClientRead, GreetingAlone, AU.Encode, Accepts, HS.Step;
    Greetings();
    assert Enabled(c, e) && WholeReply(c, e) && Step(c, e) == ClientRead(c, Received(PASSWORD_GREETING), Sent(2), env);
    GreetingAnswered(bufferSize, HS.USER_PASS, env);
    var d := Step(c, e);
    CredentialsHaveBytes(u, p);
    assert Enabled(d, f) && WholeReply(d, f) && Step(d, f) == ClientRead(d, Received(AU.Encode(u, p)), Sent(2), env);
    CredentialsRead(d, u, p, env);
    TwoSteps(c, e, f);
  }

  // ---- The request, and its resolution ----

  function RequestEvents(m: CR.Request, env: Env, found: seq<Endpoint>): seq<Event>
    requires CR.WellFormed(m)
  {
    [Io(ClientReadable(Received(CR.Encode(m)), SendAgain), env)] + if m.dst.DomainName? then [ResolverDone(found)] else []
  }

  /** The addresses that the request leads to. */
  function AddressesOf(m: CR.Request, env: Env, found: seq<Endpoint>): seq<Endpoint> {
    if m.dst.DomainName? then found else env.resolver.numeric
  }

  lemma {:induction false} Asks(c: Conn, m: CR.Request, env: Env, found: seq<Endpoint>)
    requires AtRequest(c, c.flow.cap) && CR.WellFormed(m) && m.cmd == CR.CONNECT && |CR.Encode(m)| <= c.flow.cap
    requires env.reply == COMMAND_NOT_SUPPORTED && (m.dst.DomainName? ==> env.resolver.threadStarts) && found != []
    ensures IsRun(c, RequestEvents(m, env, found))
    ensures AtNotification(Run(c, RequestEvents(m, env, found)), AddressesOf(m, env, found))
  {
    var e := Io(ClientReadable(Received(CR.Encode(m)), SendAgain), env);
    RequestRead(c, m, SendAgain, env);
    assert 1 <= |CR.Encode(m)|;
    hide ClientRead, RequestAlone, CR.Encode, CR.WellFormed;
    assert Enabled(c, e) && WholeReply(c, e) && Step(c, e) == ClientRead(c, Received(CR.Encode(m)), SendAgain, env);
    if m.dst.DomainName? {
      assert [e] + [ResolverDone(found)] == [e, ResolverDone(found)];
      TwoSteps(c, e, ResolverDone(found));
    } else {
      assert [e] + [] == [e];
      OneStep(c, e);
    }
  }

  // ---- A request that is turned down ----

  /** The refusal of a command waits to be sent. */
  predicate TurnedDown(c: Conn) {
    && c.flow.live && c.stm.current == Some(CONNECTION_REQ) && c.stm.cr.Some? && c.isError && c.flow.client == WRITE
    && c.flow.inB == [] && c.flow.outB == [5, 7, 0, 1, 0, 0, 0, 0, 0, 0] && c.flow.origin == Unregistered && c.flow.cap >= 256
  }

  lemma {:induction false} RefusalRead(c: Conn, m: CR.Request, r: Send, env: Env)
    requires AtRequest(c, c.flow.cap) && c.flow.outB == [] && CR.WellFormed(m) && m.cmd != 1
      && env.reply == COMMAND_NOT_SUPPORTED
    ensures TurnedDown(ClientRead(c, Received(CR.Encode(m)), r, env)) && RequestAlone(CR.INIT, CR.Encode(m))
    ensures |CR.Encode(m)| >= 1
  {
    var bs := CR.Encode(m);
    var init, b := bs[..|bs| - 1], bs[|bs| - 1];
    CR.EncodingParses(m);
    BeforeTheEnd(bs);
    NotEarlyIsAlone(CR.INIT, bs);
    assert init + [b] == bs;
    A.RunSnoc(CR.Step, CR.INIT, init, b);
    hide CR.Encode, CR.Step, CR.Run, CR.FirstDoneAtEnd, RequestAlone, ClientRead, ConnReqRead, Jump, TurnedDown;
    RequestReadSplit(c, init, [b], env.resolver, env.reply);
    RequestReadIs(c, bs, r, env);
    RequestUntouched(WithIn(c, init), env.resolver, env.reply);
    LastByteRefused(ConnReqRead(WithIn(c, init), env.resolver, env.reply).0, b, env);
  }

  lemma {:induction false} LastByteRefused(c: Conn, b: byte, env: Env)
    requires ReadsRequest(c) && c.flow.origin == Unregistered && c.flow.outB == [] && c.flow.cap >= 256
    requires var v := CR.Step(c.stm.cr.value, b); v.state == CR.State.DONE && v.cmd != 1
    requires env.reply == COMMAND_NOT_SUPPORTED
    ensures var (e, next) := ConnReqRead(WithIn(c, [b]), env.resolver, env.reply); TurnedDown(Jump(e, next))
  {
    hide CR.Step;
    assert [] + env.reply == env.reply;
  }

  /** With its reply sent whole, the connection ends. */
  lemma {:induction false} RefusalSent(c: Conn, n: nat)
    requires TurnedDown(c) && n >= 10
    ensures var d := ClientWrite(c, Sent(n));
      !d.flow.live && d.flow.outB == [] && d.flow.io.toClient == c.flow.io.toClient + [5, 7, 0, 1, 0, 0, 0, 0, 0, 0]
  {
    hide WriteToClient, Jump;
    V.SentIs(c.flow, n);
    var d := c.(flow := WriteToClient(c.flow, Sent(n)));
    V.JumpIs(d, ERROR);
  }

  /** Every well-formed request for another command than CONNECT is answered: after any login that the gate
      admits, it leaves the connection in CONNECTION_REQ with the refusal for the client to read, and with
      the refusal sent the connection ends. */
  lemma {:induction false} OtherCommandsAreRefused(bufferSize: nat, login: Login, m: CR.Request, env: Env, r: Send, n: nat)
    requires bufferSize >= 256 && Admissible(login, bufferSize, env.users) && env.reply == COMMAND_NOT_SUPPORTED
    requires CR.WellFormed(m) && m.cmd != 1 && |CR.Encode(m)| <= bufferSize && n >= 10
    ensures var es := LoginEvents(login, env) + [Io(ClientReadable(Received(CR.Encode(m)), r), env)];
      && IsRun(Accepted(bufferSize), es) && TurnedDown(Run(Accepted(bufferSize), es))
      && var fs := es + [Io(ClientWritable(Sent(n)), env)];
         && IsRun(Accepted(bufferSize), fs)
         && var c := Run(Accepted(bufferSize), fs).flow;
            !c.live && c.outB == [] &&
            c.io.toClient == Run(Accepted(bufferSize), es).flow.io.toClient + [5, 7, 0, 1, 0, 0, 0, 0, 0, 0]
  {
    var c, es := Accepted(bufferSize), LoginEvents(login, env);
    var e, f := Io(ClientReadable(Received(CR.Encode(m)), r), env), Io(ClientWritable(Sent(n)), env);
    hide IsRun, Run, LoginEvents, CR.Encode, AtRequest, CR.WellFormed;
    LoggedIn(login, bufferSize, env);
    var d := Run(c, es);
    RequestCap(d, bufferSize);
    hide Inv;
    AcceptedInv(bufferSize);
    RunKeeps(c, es);
    NothingOwed(d);
    RefusalEvents(d, m, env, r, n);
    RunConcat(c, es, [e]);
    RunConcat(c, es + [e], [f]);
  }

  lemma {:induction false} NothingOwed(c: Conn)
    requires Inv(c) && AtRequest(c, c.flow.cap)
    ensures c.flow.outB == []
  {
  }

  lemma {:induction false} RefusalEvents(c: Conn, m: CR.Request, env: Env, r: Send, n: nat)
    requires AtRequest(c, c.flow.cap) && c.flow.outB == [] && env.reply == COMMAND_NOT_SUPPORTED
    requires CR.WellFormed(m) && m.cmd != 1 && |CR.Encode(m)| <= c.flow.cap && n >= 10
    ensures var e, f := Io(ClientReadable(Received(CR.Encode(m)), r), env), Io(ClientWritable(Sent(n)), env);
      && IsRun(c, [e]) && TurnedDown(Run(c, [e])) && IsRun(Run(c, [e]), [f])
      && var d := Run(Run(c, [e]), [f]).flow;
         !d.live && d.outB == [] && d.io.toClient == Run(c, [e]).flow.io.toClient + [5, 7, 0, 1, 0, 0, 0, 0, 0, 0]
  {
    var e, f := Io(ClientReadable(Received(CR.Encode(m)), r), env), Io(ClientWritable(Sent(n)), env);
    RefusalRead(c, m, r, env);
    hide ClientRead, RequestAlone, CR.Encode, CR.WellFormed, ClientWrite;
    assert Enabled(c, e) && WholeReply(c, e) && Step(c, e) == ClientRead(c, Received(CR.Encode(m)), r, env);
    OneStep(c, e);
    var d := Run(c, [e]);
    assert Enabled(d, f) && WholeReply(d, f) && Step(d, f) == ClientWrite(d, Sent(n));
    OneStep(d, f);
    RefusalSent(d, n);
  }

  // ---- The origin ----

  /** A first attempt that connects at once, or is in progress and completes. */
  function ConnectEvents(list: seq<Endpoint>, verdicts: seq<Attempt>, fd: int, reply: seq<byte>): seq<Event>
    requires |verdicts| == |list|
  {
    var o := ConnectTo(list, verdicts);
    [BlockNotified(verdicts, fd, reply, SendAgain)] +
    if o.result == CONNECTION_IN_PROGRESS then [ConnectReady(false, AllRefused(|o.kept|), fd, reply, SendAgain)] else []
  }

  lemma {:induction false} AcceptsAtOnce(c: Conn, verdicts: seq<Attempt>, fd: int, reply: seq<byte>)
    requires AtNotification(c, c.dns.addrInfo) && c.dns.addrInfo != [] && |verdicts| == |c.dns.addrInfo|
    requires ConnectTo(c.dns.addrInfo, verdicts).result == CONNECTION_SUCCESS
    ensures var d := Block(c, verdicts, fd, reply, SendAgain); d.flow.live && d.stm.current == Some(COPY)
  {
    hide ConnectTo;
  }

  lemma {:induction false} Attempts(c: Conn, verdicts: seq<Attempt>, fd: int, reply: seq<byte>)
    requires AtNotification(c, c.dns.addrInfo) && c.dns.addrInfo != [] && |verdicts| == |c.dns.addrInfo|
    requires ConnectTo(c.dns.addrInfo, verdicts).result == CONNECTION_IN_PROGRESS && 0 < fd < FD_SETSIZE
    ensures var d := Block(c, verdicts, fd, reply, SendAgain);
      && d.flow.live && d.stm.current == Some(CONNECTING) && d.flow.originFd == fd
      && d.flow.origin == Registered(fd, ConnectingHandler, WRITE) && d.dns.addrInfo == ConnectTo(c.dns.addrInfo, verdicts).kept
  {
    hide ConnectTo;
  }

  lemma {:induction false} Connects(c: Conn, rest: seq<Attempt>, fd: int, reply: seq<byte>)
    requires c.flow.live && c.stm.current == Some(CONNECTING) && |rest| == |c.dns.addrInfo|
    ensures var d := ConnectDone(c, false, rest, fd, reply, SendAgain); d.flow.live && d.stm.current == Some(COPY)
  {
  }

  lemma {:induction false} OriginAnswers(c: Conn, verdicts: seq<Attempt>, fd: int, reply: seq<byte>)
    requires AtNotification(c, c.dns.addrInfo) && c.dns.addrInfo != [] && |verdicts| == |c.dns.addrInfo|
    requires ConnectTo(c.dns.addrInfo, verdicts).result != CONNECTION_FAILED && ConnectTo(c.dns.addrInfo, verdicts).hasSocket
    requires 0 < fd < FD_SETSIZE && ReplySized(reply)
    ensures var es := ConnectEvents(c.dns.addrInfo, verdicts, fd, reply);
      IsRun(c, es) && Run(c, es).flow.live && Run(c, es).stm.current == Some(COPY)
  {
    var rest := AllRefused(|ConnectTo(c.dns.addrInfo, verdicts).kept|);
    var b := BlockNotified(verdicts, fd, reply, SendAgain);
    var r := ConnectReady(false, rest, fd, reply, SendAgain);
    AllRefusedHaveSockets(ConnectTo(c.dns.addrInfo, verdicts).kept);
    assert Enabled(c, b) && WholeReply(c, b);
    hide Block, ConnectDone, ConnectTo;
    if ConnectTo(c.dns.addrInfo, verdicts).result == CONNECTION_IN_PROGRESS {
      Attempts(c, verdicts, fd, reply);
      var d := Step(c, b);
      assert Enabled(d, r) && WholeReply(d, r);
      Connects(d, rest, fd, reply);
      TwoSteps(c, b, r);
      assert [b] + [r] == [b, r];
    } else {
      AcceptsAtOnce(c, verdicts, fd, reply);
      OneStep(c, b);
      assert [b] + [] == [b];
    }
  }

  // ---- The whole way ----

  /** Every well-formed CONNECT request gets to COPY: for every login that the gate admits, every
      destination that resolves to addresses, and every first verdicts that are not all refusals, with
      sockets for the attempts, whether the connection is made at once or later, there is a run that ends
      in COPY. */
  lemma {:induction false} RequestIsServed(
    bufferSize: nat, login: Login, m: CR.Request, env: Env, found: seq<Endpoint>,
    verdicts: seq<Attempt>, fd: int, reply: seq<byte>)
    requires bufferSize >= 256 && Admissible(login, bufferSize, env.users) && env.reply == COMMAND_NOT_SUPPORTED
    requires CR.WellFormed(m) && m.cmd == CR.CONNECT && |CR.Encode(m)| <= bufferSize
    requires (m.dst.DomainName? ==> env.resolver.threadStarts) && found != [] && AddressesOf(m, env, found) != []
    requires |verdicts| == |AddressesOf(m, env, found)|
    requires ConnectTo(AddressesOf(m, env, found), verdicts).result != CONNECTION_FAILED
    requires ConnectTo(AddressesOf(m, env, found), verdicts).hasSocket
    requires 0 < fd < FD_SETSIZE && ReplySized(reply)
    ensures var es := LoginEvents(login, env) + RequestEvents(m, env, found)
                    + ConnectEvents(AddressesOf(m, env, found), verdicts, fd, reply);
      && IsRun(Accepted(bufferSize), es)
      && Run(Accepted(bufferSize), es).flow.live && Run(Accepted(bufferSize), es).stm.current == Some(COPY)
  {
    var c := Accepted(bufferSize);
    hide IsRun, Run, LoginEvents, RequestEvents, ConnectEvents, CR.Encode, ConnectTo, AtRequest;
    LoggedIn(login, bufferSize, env);
    var d := Run(c, LoginEvents(login, env));
    RequestCap(d, bufferSize);
    Asks(d, m, env, found);
    RunConcat(c, LoginEvents(login, env), RequestEvents(m, env, found));
    var f := Run(d, RequestEvents(m, env, found));
    OriginAnswers(f, verdicts, fd, reply);
    RunConcat(c, LoginEvents(login, env) + RequestEvents(m, env, found),
              ConnectEvents(AddressesOf(m, env, found), verdicts, fd, reply));
  }

  lemma {:induction false} RequestCap(c: Conn, cap: nat)
    requires AtRequest(c, cap)
    ensures AtRequest(c, c.flow.cap) && c.flow.cap == cap
  {
  }

  // ---- A retry that goes wrong ----

  /** The connection is there, with a slot for a descriptor it has closed, and nothing can happen to it. */
  ghost predicate Stuck(c: Conn) { c.flow.live && !Pollable(c.flow) && !R.Watched(c) && forall e :: !Enabled(c, e) }

  /** For every request whose first attempt is in progress and leaves addresses to try: if that attempt
      fails and the next socket gets another number, or there is none, the run is stuck. Nobody waits for
      the client, or a closed descriptor keeps its slot, and no event can be dispatched any more. */
  lemma {:induction false} RetryOnAnotherNumber(
    bufferSize: nat, login: Login, m: CR.Request, env: Env, found: seq<Endpoint>,
    verdicts: seq<Attempt>, fd: int, reply: seq<byte>, rest: seq<Attempt>, other: int, refusal: seq<byte>)
    requires bufferSize >= 256 && Admissible(login, bufferSize, env.users) && env.reply == COMMAND_NOT_SUPPORTED
    requires CR.WellFormed(m) && m.cmd == CR.CONNECT && |CR.Encode(m)| <= bufferSize
    requires (m.dst.DomainName? ==> env.resolver.threadStarts) && found != []
    requires |verdicts| == |AddressesOf(m, env, found)|
    requires ConnectTo(AddressesOf(m, env, found), verdicts).result == CONNECTION_IN_PROGRESS
    requires ConnectTo(AddressesOf(m, env, found), verdicts).hasSocket
    requires |rest| == |ConnectTo(AddressesOf(m, env, found), verdicts).kept| > 0
    requires SocketIs(ConnectTo(AddressesOf(m, env, found), verdicts).kept, rest, other) && other != fd
    requires 0 < fd < FD_SETSIZE && ReplySized(reply) && IsErrorReply(refusal)
    ensures var es := LoginEvents(login, env) + RequestEvents(m, env, found)
                    + [BlockNotified(verdicts, fd, reply, SendAgain), ConnectReady(true, rest, other, refusal, SendAgain)];
      IsRun(Accepted(bufferSize), es) &&
      var c := Run(Accepted(bufferSize), es);
      Stuck(c)
  {
    var c := Accepted(bufferSize);
    var b, r := BlockNotified(verdicts, fd, reply, SendAgain), ConnectReady(true, rest, other, refusal, SendAgain);
    hide IsRun, Run, LoginEvents, RequestEvents, CR.Encode, ConnectTo, AtRequest;
    LoggedIn(login, bufferSize, env);
    var d := Run(c, LoginEvents(login, env));
    RequestCap(d, bufferSize);
    Asks(d, m, env, found);
    RunConcat(c, LoginEvents(login, env), RequestEvents(m, env, found));
    var before := LoginEvents(login, env) + RequestEvents(m, env, found);
    var f := Run(c, before);
    hide Inv, Stuck, AtNotification, Admissible, ReplySized, IsErrorReply;
    AcceptedInv(bufferSize);
    RunKeeps(c, before);
    NotificationList(f, AddressesOf(m, env, found));
    R.NoAddresses(AddressesOf(m, env, found), verdicts);
    StrandedBy(f, verdicts, fd, reply, rest, other, refusal);
    RunConcat(c, before, [b, r]);
  }

  lemma {:induction false} NotificationList(c: Conn, list: seq<Endpoint>)
    requires AtNotification(c, list)
    ensures c.dns.addrInfo == list
  {
  }

  lemma {:induction false} StrandedBy(
    c: Conn, verdicts: seq<Attempt>, fd: int, reply: seq<byte>, rest: seq<Attempt>, other: int, refusal: seq<byte>)
    requires Inv(c) && AtNotification(c, c.dns.addrInfo) && c.dns.addrInfo != [] && |verdicts| == |c.dns.addrInfo|
    requires ConnectTo(c.dns.addrInfo, verdicts).result == CONNECTION_IN_PROGRESS
    requires ConnectTo(c.dns.addrInfo, verdicts).hasSocket && |rest| == |ConnectTo(c.dns.addrInfo, verdicts).kept| > 0
    requires SocketIs(ConnectTo(c.dns.addrInfo, verdicts).kept, rest, other) && other != fd
    requires 0 < fd < FD_SETSIZE && ReplySized(reply) && IsErrorReply(refusal)
    ensures var es := [BlockNotified(verdicts, fd, reply, SendAgain), ConnectReady(true, rest, other, refusal, SendAgain)];
      IsRun(c, es) &&
      var d := Run(c, es);
      Stuck(d)
  {
    var b, r := BlockNotified(verdicts, fd, reply, SendAgain), ConnectReady(true, rest, other, refusal, SendAgain);
    hide Inv, Block, ConnectDone, ConnectTo;
    assert Enabled(c, b) && WholeReply(c, b);
    Attempts(c, verdicts, fd, reply);
    StepKeeps(c, b);
    var d := Step(c, b);
    assert Enabled(d, r) && WholeReply(d, r) && !R.NumberKept(d, r);
    R.StepIsPollable(d, r);
    StepKeeps(d, r);
    TwoSteps(c, b, r);
    var f := Step(d, r);
    hide Step;
    R.PollableIsAwaited(f);
    forall e
      ensures !Enabled(f, e)
    {
      R.OrphanIsStuck(f, e);
    }
    R.OrphanIsStuck(f, b);
  }
}
