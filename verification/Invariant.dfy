// What every reachable connection satisfies, and the proof that every event keeps it.
module Invariant {
  import opened Bytes
  import opened AddressFallback
  import opened StateMachine
  import opened Relay
  import opened Socks5
  import HS = HandshakeParser
  import AU = AuthParser
  import CR = ConnReqParser

  // ---- Who has been let through ----

  function Greeted(n: Negotiation): HS.Value { HS.Run(HS.INIT, n.greeting) }

  /** Either the greeting offered 0x00 and not 0x02, or the user table accepted the credentials sent. */
  predicate Authorized(n: Negotiation) {
    && HS.Answered(n.greeting)
    && (if Greeted(n).userPass then
          && AU.FirstDoneAtEnd(n.credentials)
          && var v := AU.Run(AU.INIT, n.credentials);
             n.grant.Granted? && n.grant.username == v.uname && n.grant.password == v.passwd
             && Accepts(n.grant.users, v.uname, v.passwd)
        else Greeted(n).noAuth && n.grant == NoGrant)
  }

  function GreetingReply(n: Negotiation): seq<byte> { HS.Reply(Greeted(n).noAuth, Greeted(n).userPass) }

  /** The negotiation replies of an authorized connection. */
  function Preface(n: Negotiation): seq<byte> {
    GreetingReply(n) + if n.grant.Granted? then AuthReply(true) else []
  }

  // ---- The phases, between events ----

  /** No origin yet, no relayed byte, and an empty input buffer. */
  predicate Negotiating(f: Flow) {
    && f.inB == [] && f.origin == Unregistered && f.io.toClient + f.outB == f.io.queued
    && f.io.fromClient == [] && f.io.toOrigin == [] && f.io.fromOrigin == [] && !f.io.originClosed
  }

  predicate NoResolution(d: Resolution) { d.addrInfo == [] && d.resolving == 0 && d.jobs == 0 }

  /** Waiting for bytes from the client. */
  predicate Reading(c: Conn) { c.flow.client == READ && c.flow.outB == [] && !c.isError }

  predicate InFirst(c: Conn) {
    && Reading(c) && c.flow.originFd == 0 && NoResolution(c.dns) && c.dns.requested == 0
    && c.nego == Negotiation([], [], NoGrant, []) && c.flow.io.queued == []
  }

  predicate InHandshake(c: Conn) {
    && c.flow.originFd == 0 && NoResolution(c.dns) && c.dns.requested == 0
    && c.stm.hs == Some(Greeted(c.nego)) && c.nego.credentials == [] && c.nego.grant == NoGrant && c.nego.asked == []
    && c.flow.io.queued == c.flow.outB
    && (if c.flow.client == READ then Reading(c) && HS.NothingFinal(c.nego.greeting)
        else
          c.flow.client == WRITE && HS.Answered(c.nego.greeting) && c.flow.outB == GreetingReply(c.nego)
          && c.isError == !(Greeted(c.nego).noAuth || Greeted(c.nego).userPass))
  }

  predicate InAuth(c: Conn) {
    && c.flow.originFd == 0 && NoResolution(c.dns) && c.dns.requested == 0
    && HS.Answered(c.nego.greeting) && Greeted(c.nego).userPass && c.nego.asked == []
    && c.stm.au == Some(AU.Run(AU.INIT, c.nego.credentials))
    && c.flow.io.queued == GreetingReply(c.nego) + c.flow.outB
    && (if c.flow.client == READ then
          && Reading(c) && c.nego.grant == NoGrant && AU.NotDoneEarly(c.nego.credentials)
          && c.stm.au.value.state !in {AU.State.DONE, AU.State.ERROR}
        else
          && c.flow.client == WRITE && c.flow.outB == AuthReply(!c.isError)
          && (if c.isError then c.nego.grant == NoGrant else Authorized(c.nego)))
  }

  /** A reply that refuses the request is on its way out, after which the connection ends. */
  predicate Refusing(c: Conn) {
    c.flow.client == WRITE && c.isError && |c.flow.outB| == 10 && NoResolution(c.dns)
  }

  predicate InRequest(c: Conn) {
    && Authorized(c.nego) && c.flow.io.queued == Preface(c.nego) + c.flow.outB
    && c.flow.originFd == 0 && NoResolution(c.dns)
    && (Refusing(c) ||
        (Reading(c) && c.dns.requested == 0 && c.stm.cr == Some(CR.Run(CR.INIT, c.nego.asked))
         && c.stm.cr.value.state !in {CR.State.DONE, CR.State.ERROR}))
  }

  /** The connection is for the request that the client sent, a CONNECT. */
  predicate Asked(n: Negotiation, destination: Option<Destination>) {
    && CR.FirstDoneAtEnd(n.asked) && CR.Run(CR.INIT, n.asked).cmd == CR.CONNECT
    && destination == Some(DestinationOf(CR.Run(CR.INIT, n.asked)))
  }

  /** The client waits, for the resolver or for the origin. */
  predicate Waiting(c: Conn) { c.flow.client == NOOP && !c.isError && c.flow.outB == [] }

  predicate AwaitingResolver(c: Conn) {
    && Waiting(c) && Negotiating(c.flow) && c.flow.originFd == 0 && c.dns.resolving + c.dns.jobs == 1
    && (c.dns.resolving == 1 ==> c.dns.addrInfo == [])
  }

  predicate AwaitingOrigin(c: Conn) {
    && Waiting(c) && Negotiating(c.flow.(origin := Unregistered)) && 0 < c.flow.originFd < FD_SETSIZE
    && c.flow.origin == Registered(c.flow.originFd, ConnectingHandler, WRITE)
    && c.dns.resolving == 0 && c.dns.jobs == 0
  }

  /** A retry has left the slot of a socket that is closed behind. Nothing is under way any more. */
  predicate Orphaned(c: Conn) {
    && !Pollable(c.flow) && c.flow.origin.handler == ConnectingHandler
    && Negotiating(c.flow.(origin := Unregistered)) && c.dns.resolving == 0 && c.dns.jobs == 0
    && (Waiting(c) || (Refusing(c) && c.flow.originFd == -1))
  }

  predicate InConnecting(c: Conn) {
    && Authorized(c.nego) && Asked(c.nego, c.destination) && c.dns.requested == 1
    && c.flow.io.queued == Preface(c.nego) + c.flow.outB
    && (AwaitingResolver(c) || AwaitingOrigin(c) || Orphaned(c)
        || (Refusing(c) && Negotiating(c.flow) && c.flow.originFd == -1))
  }

  predicate InCopy(c: Conn) {
    && Authorized(c.nego) && Asked(c.nego, c.destination) && !c.isError && NoResolution(c.dns) && c.dns.requested == 1
    && Relaying(c.flow) && InOrder(c.flow.io, c.flow.inB, c.flow.outB)
    && c.flow.io.preface == Preface(c.nego)
  }

  predicate InPhase(c: Conn) {
    match c.stm.current
    case None => Negotiating(c.flow) && InFirst(c)
    case Some(HANDSHAKE) => Negotiating(c.flow) && InHandshake(c)
    case Some(AUTH) => Negotiating(c.flow) && InAuth(c)
    case Some(CONNECTION_REQ) => Negotiating(c.flow) && InRequest(c)
    case Some(CONNECTING) => InConnecting(c)
    case Some(COPY) => InCopy(c)
    case _ => false
  }

  /** After the end nothing is outstanding, no slot is left, and if the origin had finished while the
      client was still there then nothing was left to send. */
  predicate Ended(c: Conn) {
    c.dns.resolving == 0 && c.dns.jobs == 0 && Drained(c.flow) && c.flow.origin == Unregistered
  }

  /** The first replies the connection has queued, whole. */
  predicate Accounts(c: Conn) {
    && c.flow.io.toClient + c.flow.outB == c.flow.io.queued && c.flow.bytesMetric == |c.flow.io.toClient|
    && c.dns.requested == c.dns.notified + c.dns.resolving + c.dns.jobs
    && c.dns.requested == Visits(c.stm.visits, CONNECTING) <= 1
    && c.username == NameOf(c.nego)
  }

  /** The user a connection is logged as. */
  function NameOf(n: Negotiation): seq<byte> { if n.grant.Granted? then CStr(n.grant.username) else [] }

  predicate Inv(c: Conn) {
    && c.flow.cap >= 256 && !c.broken && !c.flow.stray
    && History(c.stm, c.flow.live) && Accounts(c)
    && (if c.flow.live then InPhase(c) && !c.resumed else Ended(c))
  }

  lemma {:induction false} AcceptedInv(bufferSize: nat)
    requires bufferSize >= 256
    ensures Inv(Accepted(bufferSize))
  {
  }

  // ---- Jumps ----

  /** What holds in every phase, and does not depend on it. */
  predicate Sane(c: Conn) {
    && c.flow.cap >= 256 && !c.broken && !c.resumed && !c.flow.stray && c.flow.live
    && History(c.stm, true) && Accounts(c)
  }

  /** The origin's slot, if there is one, is given up with the connection. */
  predicate Releasable(f: Flow) { Pollable(f) && (f.origin.Registered? ==> f.originFd > 0) }

  /** The end of a connection, from any phase without a resolution under way. */
  lemma {:induction false} CloseKeeps(c: Conn)
    requires Sane(c) && c.dns.resolving == 0 && c.dns.jobs == 0 && Drained(c.flow) && Releasable(c.flow)
    ensures Inv(Close(c))
  {
  }

  lemma {:induction false} JumpToError(c: Conn)
    requires Sane(c) && c.dns.resolving == 0 && c.dns.jobs == 0 && Drained(c.flow) && Releasable(c.flow)
    requires c.stm.current.Some? && Edge(c.stm.current.value, ERROR)
    ensures Inv(Jump(c, ERROR)) && !Jump(c, ERROR).flow.live && Jump(c, ERROR).stm.current == Some(ERROR)
  {
    hide History, Visits, Jumped, CanDepart;
    JumpKeepsHistory(c.stm, ERROR);
    var d := c.(stm := Jumped(c.stm, ERROR), flow := if c.stm.current == Some(COPY) then ReleaseOrigin(c.flow) else c.flow);
    CloseKeeps(d);
  }

  /** A jump within the negotiation. */
  lemma {:induction false} JumpOn(c: Conn, next: State)
    requires Sane(c) && c.stm.current.Some? && c.stm.current.value != COPY && Edge(c.stm.current.value, next)
    requires next in {AUTH, CONNECTION_REQ}
    ensures var d := Jump(c, next);
      d == c.(stm := d.stm) && JustEntered(d.stm, next) && Sane(d)
  {
    hide History, Visits, Jumped, CanDepart;
    JumpKeepsHistory(c.stm, next);
  }

  // ---- The relay, as part of a connection ----

  lemma {:induction false} CopyIsRelay(c: Conn)
    requires Inv(c) && c.flow.live && c.stm.current == Some(COPY)
    ensures RelayInv(c.flow)
  {
  }

  /** Whatever keeps the relay's invariant keeps the connection's. */
  lemma {:induction false} RelayStepKeeps(c: Conn, g: Flow)
    requires Inv(c) && c.flow.live && c.stm.current == Some(COPY) && RelayInv(g) && SameStart(c.flow, g)
    ensures Inv(CloseIfEnded(c.(flow := g)))
  {
    hide History, Visits, Authorized, Asked, NameOf;
    CloseKeepsHistory(c.stm);
  }

  lemma {:induction false} CopyReadRefines(c: Conn, recv: Recv, r: Send, env: Env)
    requires Inv(c) && c.stm.current == Some(COPY) && IoEnabled(c.flow, ClientReadable(recv, r))
    ensures ClientRead(c, recv, r, env).flow == ReadFromClient(c.flow, recv, r)
  {
    hide History, Visits, Jumped, Authorized, Asked, Preface, InOrder, Accounts, HandshakeRead, AuthRead, ConnReqRead;
  }

  /** In COPY, what the connection's events do to the data path is what the relay's do. */
  lemma {:induction false} CopyRefinesRelay(c: Conn, io: IoEvent, env: Env)
    requires Inv(c) && c.stm.current == Some(COPY) && IoEnabled(c.flow, io)
    ensures React(c, io, env).flow == IoStep(c.flow, io)
  {
    hide Inv, ClientRead, ReadFromClient, ClientWrite, OriginRead, CopyWrite, WriteToClient, ReadFromOrigin, WriteToOrigin;
    match io
    case ClientReadable(recv, send) => CopyReadRefines(c, recv, send, env);
    case ClientWritable(send) => CopyWriteRefines(c, send);
    case OriginReadable(recv, send) => CopyOriginReadRefines(c, recv, send);
    case OriginWritable(send) => CopyOriginWriteRefines(c, send);
  }

  /** Nothing that follows a send in COPY touches the data path of a live connection. */
  lemma {:induction false} CopyWriteRefines(c: Conn, r: Send)
    requires c.flow.live && c.stm.current == Some(COPY)
    ensures ClientWrite(c, r).flow == WriteToClient(c.flow, r)
  {
  }

  lemma {:induction false} CopyOriginReadRefines(c: Conn, recv: Recv, r: Send)
    requires c.flow.live && c.stm.current == Some(COPY)
    ensures OriginRead(c, recv, r).flow == ReadFromOrigin(c.flow, recv, r)
  {
    hide WriteToClient, ClientWrite;
    if recv.Received? {
      CopyWriteRefines(c.(flow := SetClient(FromOrigin(c.flow, recv.bytes), WRITE)), r);
    }
  }

  lemma {:induction false} CopyOriginWriteRefines(c: Conn, r: Send)
    requires c.flow.live && c.stm.current == Some(COPY)
    ensures CopyWrite(c, r).flow == WriteToOrigin(c.flow, r)
  {
  }

  lemma {:induction false} CopyStepKeeps(c: Conn, io: IoEvent, env: Env)
    requires Inv(c) && c.stm.current == Some(COPY) && IoEnabled(c.flow, io)
    ensures Inv(React(c, io, env))
  {
    hide History, Visits, Jumped, CanDepart, Authorized, Asked, Preface, HalfDuplex, InOrder;
    CopyIsRelay(c);
    IoStepKeeps(c.flow, io);
    RelayStepKeeps(c, IoStep(c.flow, io));
    if io.ClientReadable? && |c.flow.inB| < c.flow.cap && io.recv.Received? && !OriginRegistered(c.flow) {
      JumpToError(Gained(c, io.recv.bytes));
    }
  }

  // ---- Replies of the negotiation ----

  /** `socksv5_write` keeps the invariant, and the input buffer. */
  predicate WriteKeeps(c: Conn, r: Send) {
    var d := ClientWrite(c, r);
    Inv(d) && d.flow.inB == c.flow.inB && d.stm.current.Some?
  }

  /** A whole reply has gone: the client is read again, unless this is the end. */
  lemma {:induction false} HandshakeReplySent(c: Conn, r: Send)
    requires Inv(c) && c.flow.live && c.stm.current == Some(HANDSHAKE) && c.flow.client == WRITE
    requires SomeSent(r) && r.n != 1
    ensures WriteKeeps(c, r)
  {
    hide History, Visits, Jumped, HS.Run, HS.Answered, CanDepart;
    var d := c.(flow := SentToClient(c.flow, 2));
    assert d.flow.outB == [] && d.flow.io.toClient + [] == d.flow.io.toClient == c.flow.io.toClient + c.flow.outB;
    var n := AfterWrite(d);
    if n == ERROR {
      JumpToError(d);
    } else {
      JumpOn(d, n);
    }
  }

  lemma {:induction false} AuthReplySent(c: Conn, r: Send)
    requires Inv(c) && c.flow.live && c.stm.current == Some(AUTH) && c.flow.client == WRITE
    requires SomeSent(r) && r.n != 1
    ensures WriteKeeps(c, r)
  {
    hide History, Visits, Jumped, HS.Run, HS.Answered, AU.Run, AU.FirstDoneAtEnd, CanDepart;
    var d := c.(flow := SentToClient(c.flow, 2));
    assert d.flow.outB == [] && d.flow.io.toClient + [] == d.flow.io.toClient == c.flow.io.toClient + c.flow.outB;
    if c.isError {
      JumpToError(d);
    } else {
      JumpOn(d, CONNECTION_REQ);
    }
  }

  lemma {:induction false} SendKeepsAccounts(c: Conn, n: nat)
    requires Accounts(c) && c.flow.inB == [] && n <= |c.flow.outB| < c.flow.cap
    ensures var d := c.(flow := SentToClient(c.flow, n));
      Accounts(d) && d.flow == c.flow.(outB := d.flow.outB, client := d.flow.client, bytesMetric := d.flow.bytesMetric,
                                       io := c.flow.io.(toClient := d.flow.io.toClient))
  {
  }

  /** Any part of a refusal ends the connection. */
  lemma {:induction false} RefusalSent(c: Conn, r: Send)
    requires Inv(c) && c.flow.live && c.stm.current in {Some(CONNECTION_REQ), Some(CONNECTING)} && c.flow.client == WRITE
    requires SomeSent(r) && Pollable(c.flow)
    ensures WriteKeeps(c, r) && !ClientWrite(c, r).flow.live
  {
    hide History, Visits, Jumped, Authorized, Asked, Preface, CanDepart, SentToClient, Accounts;
    var n := Min(r.n, |c.flow.outB|);
    SendKeepsAccounts(c, n);
    JumpToError(c.(flow := SentToClient(c.flow, n)));
  }

  lemma {:induction false} NothingSent(c: Conn, r: Send)
    requires Inv(c) && c.flow.live && c.flow.client == WRITE && !SomeSent(r) && Pollable(c.flow)
    ensures WriteKeeps(c, r)
  {
    hide History, Visits, Jumped, Authorized, Asked, Preface, HS.Run, HS.Answered, AU.Run, AU.FirstDoneAtEnd, AU.NotDoneEarly;
    if r == SendFailed {
      CloseKeeps(c.(flow := c.flow.(io := c.flow.io.(clientLost := true))));
    }
  }

  /** Wherever `socksv5_write` can be called, given whole replies. */
  lemma {:induction false} ClientWriteKeeps(c: Conn, r: Send)
    requires Inv(c) && c.flow.live && c.flow.client == WRITE && Pollable(c.flow)
    requires c.stm.current in {Some(HANDSHAKE), Some(AUTH)} ==> r != Sent(1)
    ensures WriteKeeps(c, r)
  {
    if !SomeSent(r) {
      NothingSent(c, r);
    } else if c.stm.current == Some(HANDSHAKE) {
      HandshakeReplySent(c, r);
    } else if c.stm.current == Some(AUTH) {
      AuthReplySent(c, r);
    } else if c.stm.current == Some(COPY) {
      CopyWriteKeeps(c, r);
    } else {
      assert Inv(c);
      hide Inv, WriteKeeps;
      RefusalSent(c, r);
    }
  }

  lemma {:induction false} CopyWriteKeeps(c: Conn, r: Send)
    requires Inv(c) && c.flow.live && c.stm.current == Some(COPY) && c.flow.client == WRITE
    ensures WriteKeeps(c, r)
  {
    hide History, Visits, Jumped, Authorized, Asked, Preface, InOrder;
    CopyStepKeeps(c, IoEvent.ClientWritable(r), Env(map[], Resolver(false, []), []));
  }

  // ---- Reading a greeting ----

  /** The connection as it would be with its input consumed. */
  function InputDropped(c: Conn): Conn { c.(flow := c.flow.(inB := [])) }

  predicate FeedingGreeting(c: Conn) {
    && Inv(InputDropped(c)) && c.flow.live && c.stm.current == Some(HANDSHAKE) && c.flow.client == READ
    && c.stm.hs.Some? && GreetingAlone(c.stm.hs.value, c.flow.inB)
  }

  lemma {:induction false} GreetingByte(c: Conn)
    requires FeedingGreeting(c) && c.flow.inB != []
    ensures var (v, report) := HS.Step(c.stm.hs.value, c.flow.inB[0]);
      var d := FedGreeting(c, v);
      && (report !in {HS.State.DONE, HS.State.ERROR} ==> FeedingGreeting(d))
      && (report == HS.State.DONE ==>
          && d.flow.inB == []
          && var a := Answer(d, HS.Reply(v.noAuth, v.userPass)).(isError := !(v.noAuth || v.userPass));
             Inv(a) && a.flow.live && a.flow.client == WRITE && a.flow.inB == [] && Pollable(a.flow))
      && (report == HS.State.ERROR ==>
          Sane(d) && d.stm.current == c.stm.current && NoResolution(d.dns) && Drained(d.flow) && Releasable(d.flow))
  {
    hide History, Visits, HS.Step, HS.Run, HS.NothingFinal, HS.Answered;
    var b := c.flow.inB[0];
    var (v, report) := HS.Step(c.stm.hs.value, b);
    HS.FeedOne(c.nego.greeting, b);
    FeedKeepsHistory(c.stm, Some(v), c.stm.au, c.stm.cr);
    assert c.flow.io.queued + HS.Reply(v.noAuth, v.userPass) == HS.Reply(v.noAuth, v.userPass);
  }

  /** Whoever goes on with a connection that has ended changes nothing that is proved of it. */
  lemma {:induction false} ResumeKeeps(c: Conn)
    requires Inv(c)
    ensures Inv(Resume(c))
  {
    hide History, Visits, InPhase;
  }

  lemma {:induction false} ResumeStays(c: Conn)
    ensures Resume(c).flow == c.flow && Resume(c).stm == c.stm && (c.flow.live ==> Resume(c) == c)
  {
  }

  lemma {:induction false} HandshakeReadKeeps(c: Conn, r: Send)
    requires FeedingGreeting(c) && r != Sent(1)
    ensures var (e, next) := HandshakeRead(c, r); Inv(Jump(e, next))
    decreases |c.flow.inB|
  {
    hide Inv, Sane, HS.Step, Jumped, CanDepart, ClientWrite, Resume;
    if c.flow.inB == [] {
      assert InputDropped(c) == c;
    } else {
      var (v, report) := HS.Step(c.stm.hs.value, c.flow.inB[0]);
      var d := FedGreeting(c, v);
      GreetingByte(c);
      if report == HS.State.DONE {
        ClientWriteKeeps(Answer(d, HS.Reply(v.noAuth, v.userPass)).(isError := !(v.noAuth || v.userPass)), r);
        ResumeKeeps(AnswerGreeting(d, v, r));
        ResumeStays(AnswerGreeting(d, v, r));
      } else if report == HS.State.ERROR {
        JumpToError(d);
      } else {
        HandshakeReadKeeps(d, r);
      }
    }
  }

  // ---- Reading credentials ----

  predicate FeedingCredentials(c: Conn) {
    Inv(InputDropped(c)) && c.flow.live && c.stm.current == Some(AUTH) && c.flow.client == READ && c.stm.au.Some?
  }

  /** The connection with the reply to its credentials queued. */
  function Judged(c: Conn, v: AU.Value, users: Users): Conn {
    var ok := Accepts(users, v.uname, v.passwd);
    Grants(DropIn(Answer(c, AuthReply(ok))).(isError := !ok), users, v)
  }

  /** What one byte of credentials leaves, in whatever state of the parser. */
  predicate CredentialsFed(c: Conn, v: AU.Value) {
    && Sane(c) && c.stm.current == Some(AUTH) && NoResolution(c.dns) && Relay.Drained(c.flow) && Reading(c)
    && c.stm.au == Some(v) && v == AU.Run(AU.INIT, c.nego.credentials) && Negotiating(InputDropped(c).flow)
    && c.flow.originFd == 0 && c.dns.requested == 0 && c.nego.grant == NoGrant && c.nego.asked == []
    && HS.Answered(c.nego.greeting) && Greeted(c.nego).userPass && c.flow.io.queued == GreetingReply(c.nego)
    && AU.NotDoneEarly(c.nego.credentials) && (v.state == AU.State.DONE ==> AU.FirstDoneAtEnd(c.nego.credentials))
  }

  lemma {:induction false} CredentialsByte(c: Conn)
    requires FeedingCredentials(c) && c.flow.inB != []
    ensures var v := AU.Step(c.stm.au.value, c.flow.inB[0]);
      CredentialsFed(FedCredentials(c, v), v)
  {
    hide History, Visits, HS.Run, HS.Answered, AU.Step, AU.Run, AU.NotDoneEarly, AU.FirstDoneAtEnd, Accepts;
    var b := c.flow.inB[0];
    AU.FeedOne(c.nego.credentials, b);
    FeedKeepsHistory(c.stm, c.stm.hs, Some(AU.Step(c.stm.au.value, b)), c.stm.cr);
    assert GreetingReply(c.nego) + [] == GreetingReply(c.nego);
  }

  lemma {:induction false} CredentialsPending(c: Conn, v: AU.Value)
    requires CredentialsFed(c, v) && v.state !in {AU.State.DONE, AU.State.ERROR}
    ensures FeedingCredentials(c)
  {
    hide History, Visits, HS.Run, HS.Answered, AU.Run, AU.NotDoneEarly, AU.FirstDoneAtEnd;
    assert GreetingReply(c.nego) + [] == GreetingReply(c.nego);
  }

  lemma {:induction false} CredentialsJudged(c: Conn, v: AU.Value, users: Users)
    requires CredentialsFed(c, v) && v.state == AU.State.DONE
    ensures var a := Judged(c, v, users); Inv(a) && a.flow.live && a.flow.client == WRITE && Pollable(a.flow)
  {
    hide History, Visits, HS.Run, HS.Answered, AU.Run, AU.NotDoneEarly, AU.FirstDoneAtEnd, Accepts;
    var reply := AuthReply(Accepts(users, v.uname, v.passwd));
    assert [] + reply == reply && c.flow.io.toClient + [] == c.flow.io.toClient;
  }

  lemma {:induction false} AuthReadKeeps(c: Conn, r: Send, users: Users)
    requires FeedingCredentials(c) && r != Sent(1)
    ensures var (e, next) := AuthRead(c, r, users); Inv(Jump(e, next))
    decreases |c.flow.inB|
  {
    hide Inv, Sane, AU.Step, Accepts, Jumped, CanDepart, ClientWrite, Resume;
    if c.flow.inB == [] {
      assert InputDropped(c) == c;
    } else {
      var v := AU.Step(c.stm.au.value, c.flow.inB[0]);
      var d := FedCredentials(c, v);
      CredentialsByte(c);
      if v.state == AU.State.DONE {
        CredentialsJudged(d, v, users);
        ClientWriteKeeps(Judged(d, v, users), r);
        ResumeKeeps(AnswerCredentials(d, v, r, users));
        ResumeStays(AnswerCredentials(d, v, r, users));
      } else if v.state == AU.State.ERROR {
        JumpToError(d);
      } else {
        CredentialsPending(d, v);
        AuthReadKeeps(d, r, users);
      }
    }
  }

  // ---- Reading a request ----

  predicate FeedingRequest(c: Conn) {
    && Inv(InputDropped(c)) && c.flow.live && c.stm.current == Some(CONNECTION_REQ) && c.flow.client == READ
    && c.stm.cr.Some? && RequestAlone(c.stm.cr.value, c.flow.inB)
  }

  /** A complete request, before it is answered. */
  predicate RequestFed(c: Conn, v: CR.Value) {
    && v == CR.Run(CR.INIT, c.nego.asked) && CR.FirstDoneAtEnd(c.nego.asked)
    && Sane(c) && c.stm.current == Some(CONNECTION_REQ) && NoResolution(c.dns) && Negotiating(c.flow) && Authorized(c.nego)
    && Reading(c) && c.dns.requested == 0 && c.flow.originFd == 0 && c.flow.io.queued == Preface(c.nego) + c.flow.outB
  }

  lemma {:induction false} RequestByte(c: Conn)
    requires FeedingRequest(c) && c.flow.inB != []
    ensures var v := CR.Step(c.stm.cr.value, c.flow.inB[0]);
      var d := FedRequest(c, v);
      && Sane(d) && d.stm.current == c.stm.current && NoResolution(d.dns) && Drained(d.flow) && Releasable(d.flow)
      && (v.state !in {CR.State.DONE, CR.State.ERROR} ==> FeedingRequest(d))
      && (v.state == CR.State.DONE ==> d.flow.inB == [] && RequestFed(d, v))
  {
    hide History, Visits, HS.Run, HS.Answered, AU.Run, AU.FirstDoneAtEnd, Accepts, CR.Step, CR.Run, CR.NotDoneEarly,
         CR.FirstDoneAtEnd;
    var v := CR.Step(c.stm.cr.value, c.flow.inB[0]);
    CR.FeedOne(c.nego.asked, c.flow.inB[0]);
    FeedKeepsHistory(c.stm, c.stm.hs, c.stm.au, Some(v));
  }

  /** The transition into CONNECTING, with the one resolution under way. */
  lemma {:induction false} JumpToConnecting(c: Conn)
    requires c.flow.cap >= 256 && !c.broken && !c.resumed && !c.flow.stray && c.flow.live && History(c.stm, true)
    requires c.flow.io.toClient + c.flow.outB == c.flow.io.queued && c.flow.bytesMetric == |c.flow.io.toClient|
    requires c.stm.current == Some(CONNECTION_REQ) && Visits(c.stm.visits, CONNECTING) == 0
    requires c.dns.requested == 1 && c.dns.notified == 0 && AwaitingResolver(c) && c.username == NameOf(c.nego)
    requires Authorized(c.nego) && Asked(c.nego, c.destination) && c.flow.io.queued == Preface(c.nego)
    ensures Inv(Jump(c, CONNECTING))
  {
    hide History, Visits, Authorized, Asked, Preface, Jumped, CanDepart;
    JumpKeepsHistory(c.stm, CONNECTING);
  }

  lemma {:induction false} ConnReqReadKeeps(c: Conn, resolver: Resolver, reply: seq<byte>)
    requires FeedingRequest(c) && |reply| == 10
    ensures var (e, next) := ConnReqRead(c, resolver, reply); Inv(Jump(e, next))
    decreases |c.flow.inB|
  {
    hide Inv, Sane, CR.Step, Jumped, CanDepart, AnswerRequest;
    if c.flow.inB == [] {
      assert InputDropped(c) == c;
    } else {
      var v := CR.Step(c.stm.cr.value, c.flow.inB[0]);
      var d := FedRequest(c, v);
      RequestByte(c);
      if v.state == CR.State.DONE {
        AnswerRequestKeeps(d, v, resolver, reply);
      } else if v.state == CR.State.ERROR {
        JumpToError(d);
      } else {
        ConnReqReadKeeps(d, resolver, reply);
      }
    }
  }

  lemma {:induction false} RequestRefused(c: Conn, v: CR.Value, reply: seq<byte>)
    requires RequestFed(c, v) && |reply| == 10
    ensures Inv(Refuse(c, reply))
  {
    hide History, Visits, Authorized, Asked, Preface;
    assert [] + reply == reply && Preface(c.nego) + [] == Preface(c.nego) && c.flow.io.toClient + [] == c.flow.io.toClient;
  }

  lemma {:induction false} AnswerRequestKeeps(c: Conn, v: CR.Value, resolver: Resolver, reply: seq<byte>)
    requires RequestFed(c, v) && |reply| == 10
    ensures var (e, next) := AnswerRequest(c, v, resolver, reply); Inv(Jump(e, next))
  {
    var (e, next) := AnswerRequest(c, v, resolver, reply);
    if next == CONNECTION_REQ {
      hide Inv, RequestFed, Jumped, CanDepart;
      RequestRefused(c, v, reply);
    } else if next == CONNECTING {
      RequestAsked(c, v, resolver, reply);
    } else {
      hide Inv, History, Visits, Authorized, Asked, Preface, Jump, DestinationOf;
      JumpToError(e);
    }
  }

  lemma {:induction false} RequestAsked(c: Conn, v: CR.Value, resolver: Resolver, reply: seq<byte>)
    requires RequestFed(c, v) && AnswerRequest(c, v, resolver, reply).1 == CONNECTING
    ensures Inv(Jump(AnswerRequest(c, v, resolver, reply).0, CONNECTING))
  {
    hide Inv, History, Visits, Authorized, Preface, Jump, DestinationOf;
    assert Preface(c.nego) + [] == Preface(c.nego);
    JumpToConnecting(AnswerRequest(c, v, resolver, reply).0);
  }

  // ---- Connecting ----

  lemma {:induction false} ResolvedKeeps(c: Conn, list: seq<Endpoint>)
    requires Inv(c) && c.dns.resolving > 0
    ensures var d := Resolved(c, list);
      Inv(d) && d.flow.live && d.dns.resolving == 0 && d.dns.jobs == 1 && d.dns.addrInfo == list
  {
  }

  /** The start of the relay, from a connection whose origin has just connected. */
  predicate Started(c: Conn) {
    && Sane(c) && Authorized(c.nego) && Asked(c.nego, c.destination) && !c.isError && NoResolution(c.dns) && c.dns.requested == 1
    && Ready(c.flow) && c.flow.io.queued == Preface(c.nego)
  }

  /** The origin is registered with the relay's handler, if the selector takes it. */
  predicate Adopted(f: Flow) {
    f.origin == if !ValidFd(f.originFd) then Unregistered else Registered(f.originFd, CopyHandler, NOOP)
  }

  lemma {:induction false} StartInCopy(c: Conn, reply: seq<byte>, r: Send)
    requires Started(c) && c.stm.current == Some(COPY) && ReplySized(reply)
    requires Adopted(c.flow)
    ensures Inv(Start(c, reply, r))
  {
    ReplyQueued(c, reply);
    hide Inv;
    ClientWriteKeeps(DropIn(c.(flow := SetClient(PutReply(c.flow, reply), WRITE))), r);
  }

  lemma {:induction false} ReplyQueued(c: Conn, reply: seq<byte>)
    requires Started(c) && c.stm.current == Some(COPY) && ReplySized(reply)
    requires Adopted(c.flow)
    ensures Inv(DropIn(c.(flow := SetClient(PutReply(c.flow, reply), WRITE))))
  {
    hide History, Visits, Authorized, Asked, Preface;
    var f := DropIn(c.(flow := SetClient(PutReply(c.flow, reply), WRITE))).flow;
    assert f.outB == reply && f.io.toClient + f.outB == f.io.queued == f.io.preface + f.io.reply + f.io.fromOrigin;
  }

  lemma {:induction false} JumpToCopy(c: Conn)
    requires Started(c) && c.stm.current == Some(CONNECTING) && c.flow.origin == Unregistered
    ensures var d := Jump(c, COPY);
      && d == c.(stm := Jumped(c.stm, COPY), flow := RegisterOrigin(c.flow, CopyHandler, NOOP)) && CanDepart(c.stm)
      && Started(d) && d.stm.current == Some(COPY) && Adopted(d.flow)
  {
    hide History, Visits, Jumped, CanDepart, Authorized, Asked, Preface;
    JumpKeepsHistory(c.stm, COPY);
  }

  lemma {:induction false} StartIsReply(c: Conn, reply: seq<byte>, r: Send)
    requires c.stm.current == Some(COPY)
    ensures Start(c, reply, r) == CloseIfEnded(c.(flow := StartReply(c.flow, reply, r)))
      || (SomeSent(r) && Start(c, reply, r) == c.(flow := StartReply(c.flow, reply, r)))
  {
  }

  lemma {:induction false} StartConnecting(c: Conn, reply: seq<byte>, r: Send)
    requires c.stm.current == Some(CONNECTING) && !c.isError && CanDepart(c.stm) && StartReply(c.flow, reply, r).live
    ensures Jump(Start(c, reply, r), COPY)
         == c.(stm := Jumped(c.stm, COPY), flow := RegisterOrigin(StartReply(c.flow, reply, r), CopyHandler, NOOP))
  {
  }

  /** A connection made at once: the first send comes before the jump, with the same outcome as if it
      came after. */
  lemma {:induction false} StartThenJump(c: Conn, reply: seq<byte>, r: Send)
    requires Started(c) && c.stm.current == Some(CONNECTING) && c.flow.origin == Unregistered && ReplySized(reply)
    requires r != SendFailed
    ensures Jump(Start(c, reply, r), COPY) == Start(Jump(c, COPY), reply, r)
  {
    hide History, Visits, Jumped, CanDepart, Authorized, Asked, Preface, Accounts, RegisterOrigin, StartReply, Start, Jump;
    JumpToCopy(c);
    StartThenRegister(c.flow, reply, r);
    StartConnecting(c, reply, r);
    StartIsReply(Jump(c, COPY), reply, r);
  }

  // ---- The origin answers ----

  lemma {:induction false} StartFromConnecting(c: Conn, reply: seq<byte>, r: Send)
    requires Started(c) && c.stm.current == Some(CONNECTING) && c.flow.origin == Unregistered && ReplySized(reply)
    ensures Inv(Jump(Start(c, reply, r), COPY))
  {
    if r == SendFailed {
      StartFails(c, reply);
    } else {
      hide Inv, Started, StartReply, Start, Jump, Jumped;
      StartThenJump(c, reply, r);
      JumpToCopy(c);
      StartInCopy(Jump(c, COPY), reply, r);
    }
  }

  lemma {:induction false} StartFails(c: Conn, reply: seq<byte>)
    requires Started(c) && ReplySized(reply) && c.flow.origin == Unregistered
    ensures var d := Start(c, reply, SendFailed); Inv(d) && !d.flow.live
  {
    hide History, Visits, Authorized, Asked, Preface;
    var d := DropIn(c.(flow := SetClient(PutReply(c.flow, reply), WRITE)));
    assert d.flow.outB == reply;
    CloseKeeps(d.(flow := d.flow.(io := d.flow.io.(clientLost := true))));
  }

  lemma {:induction false} ConnectDoneKeeps(c: Conn, failed: bool, verdicts: seq<Attempt>, fd: int, reply: seq<byte>, r: Send)
    requires Inv(c) && Enabled(c, ConnectReady(failed, verdicts, fd, reply, r))
    ensures Inv(ConnectDone(c, failed, verdicts, fd, reply, r))
  {
    if failed {
      RetryKeeps(c, verdicts, fd, reply, r);
    } else {
      ConnectedKeeps(c, verdicts, fd, reply, r);
    }
  }

  /** Where the origin's first handler is registered for the open socket, the connection awaits it. */
  lemma {:induction false} ConnectingHandlerMeansConnecting(c: Conn)
    requires Inv(c) && c.flow.live && c.flow.origin.Registered? && c.flow.origin.handler == ConnectingHandler
    requires Pollable(c.flow)
    ensures c.stm.current == Some(CONNECTING) && InConnecting(c) && AwaitingOrigin(c)
  {
    hide History, Accounts, Authorized, Asked, Preface, HS.Run, HS.Answered, AU.Run, AU.NotDoneEarly;
  }

  lemma {:induction false} ConnectedKeeps(c: Conn, verdicts: seq<Attempt>, fd: int, reply: seq<byte>, r: Send)
    requires Inv(c) && Enabled(c, ConnectReady(false, verdicts, fd, reply, r))
    ensures Inv(ConnectDone(c, false, verdicts, fd, reply, r))
  {
    hide History, Visits, Authorized, Asked, Preface, HS.Run, HS.Answered, AU.Run, AU.NotDoneEarly, Jump, Start;
    ConnectingHandlerMeansConnecting(c);
    var d := c.(flow := ReleaseOrigin(c.flow), dns := c.dns.(addrInfo := []));
    assert Preface(c.nego) + [] == Preface(c.nego) && c.flow.io.toClient + [] == c.flow.io.toClient;
    JumpToCopy(d);
    StartInCopy(Jump(d, COPY), reply, r);
  }

  lemma {:induction false} RetryKeeps(c: Conn, verdicts: seq<Attempt>, fd: int, reply: seq<byte>, r: Send)
    requires Inv(c) && Enabled(c, ConnectReady(true, verdicts, fd, reply, r))
    ensures Inv(ConnectDone(c, true, verdicts, fd, reply, r))
  {
    ConnectingHandlerMeansConnecting(c);
    TriedIsPrefix(c.dns.addrInfo, verdicts);
    hide ConnectTo, Inv, Authorized, Asked, Preface, Refuse;
    var d := Retried(c, verdicts, fd);
    if ConnectTo(c.dns.addrInfo, verdicts).result == CONNECTION_IN_PROGRESS {
      AwaitingAgain(c, d);
    } else if d.flow.originFd == c.flow.originFd {
      AttemptRefused(d, reply);
    } else {
      SlotLeftBehind(d, reply);
    }
  }

  /** Another attempt is in progress, on a socket with the same number or with another. */
  lemma {:induction false} AwaitingAgain(c: Conn, d: Conn)
    requires Inv(c) && c.stm.current == Some(CONNECTING) && InConnecting(c) && AwaitingOrigin(c)
    requires d == c.(flow := c.flow.(originFd := d.flow.originFd), dns := c.dns.(addrInfo := d.dns.addrInfo))
    ensures Inv(d) && (AwaitingOrigin(d) <==> d.flow.originFd == c.flow.originFd)
  {
    hide History, Visits, Authorized, Asked, Preface;
  }

  /** An attempt that is given up on a socket with another number. */
  lemma {:induction false} SlotLeftBehind(c: Conn, reply: seq<byte>)
    requires Sane(c) && c.stm.current == Some(CONNECTING) && InConnecting(c) && Orphaned(c) && Waiting(c)
    requires c.dns.addrInfo == [] && IsErrorReply(reply) && c.flow.origin.fd > 0
    ensures Inv(Refuse(c.(flow := ReleaseOrigin(c.flow).(originFd := -1)), reply))
  {
    hide History, Visits, Authorized, Asked, Preface;
    assert [] + reply == reply && Preface(c.nego) + [] == Preface(c.nego) && c.flow.io.toClient + [] == c.flow.io.toClient;
  }

  /** An attempt that is given up. */
  lemma {:induction false} AttemptRefused(c: Conn, reply: seq<byte>)
    requires Sane(c) && c.stm.current == Some(CONNECTING) && InConnecting(c) && AwaitingOrigin(c)
    requires c.dns.addrInfo == [] && IsErrorReply(reply)
    ensures Inv(Refuse(c.(flow := ReleaseOrigin(c.flow).(originFd := -1)), reply))
  {
    hide History, Visits, Authorized, Asked, Preface, NameOf, AwaitingResolver, Orphaned;
    AttemptGone(c, reply);
    hide Refuse, ReleaseOrigin;
    assert [] + reply == reply && Preface(c.nego) + [] == Preface(c.nego) && c.flow.io.toClient + [] == c.flow.io.toClient;
  }

  lemma {:induction false} AttemptGone(c: Conn, reply: seq<byte>)
    requires c.flow.outB == [] && |reply| < c.flow.cap && OriginRegistered(c.flow)
    ensures Refuse(c.(flow := ReleaseOrigin(c.flow).(originFd := -1)), reply)
         == c.(isError := true,
               flow := c.flow.(origin := Unregistered, originFd := -1, client := WRITE, outB := reply,
                               io := c.flow.io.(queued := c.flow.io.queued + reply)))
  {
    assert [] + reply == reply;
  }

  lemma {:induction false} BlockKeeps(c: Conn, verdicts: seq<Attempt>, fd: int, reply: seq<byte>, r: Send)
    requires Inv(c) && Enabled(c, BlockNotified(verdicts, fd, reply, r))
    ensures Inv(Block(c, verdicts, fd, reply, r))
  {
    hide Inv, Notified, ConnectingOnBlock, Jump, InConnecting, AwaitingResolver, Resume;
    NotifiedInConnecting(c);
    var d := c.(dns := c.dns.(jobs := c.dns.jobs - 1, notified := c.dns.notified + 1));
    OnBlockKeeps(d, verdicts, fd, reply, r);
    var (e, next) := ConnectingOnBlock(d, verdicts, fd, reply, r);
    ResumeThenJump(e, next);
    ResumeKeeps(Jump(Resume(e), next));
  }

  lemma {:induction false} ResumeThenJump(c: Conn, next: State)
    requires Inv(Jump(c, next))
    ensures Inv(Jump(Resume(c), next))
  {
    hide Inv;
    if !c.flow.live {
      ResumeKeeps(c);
    }
  }

  /** A queued notification finds its connection live, in CONNECTING, with the client paused. */
  lemma {:induction false} NotifiedInConnecting(c: Conn)
    requires Inv(c) && c.dns.jobs > 0
    ensures c.flow.live && c.stm.current == Some(CONNECTING) && InConnecting(c) && AwaitingResolver(c) && c.dns.jobs == 1
    ensures Notified(c.(dns := c.dns.(jobs := c.dns.jobs - 1, notified := c.dns.notified + 1)))
  {
  }

  /** A connection whose only notification has just been taken from the queue. */
  predicate Notified(c: Conn) {
    && Sane(c) && c.stm.current == Some(CONNECTING) && Authorized(c.nego) && Asked(c.nego, c.destination)
    && c.flow.io.queued == Preface(c.nego)
    && c.dns.requested == 1 && Waiting(c) && Negotiating(c.flow) && c.flow.originFd == 0
    && c.dns.resolving == 0 && c.dns.jobs == 0
  }

  lemma {:induction false} OnBlockKeeps(c: Conn, verdicts: seq<Attempt>, fd: int, reply: seq<byte>, r: Send)
    requires Notified(c) && |verdicts| == |c.dns.addrInfo| && SocketIs(c.dns.addrInfo, verdicts, fd)
    requires if c.dns.addrInfo == [] then IsErrorReply(reply) else ReplySized(reply)
    ensures var (e, next) := ConnectingOnBlock(c, verdicts, fd, reply, r); Inv(Jump(e, next))
  {
    hide Inv, Notified, Start, Jump, Refuse, RegisterOrigin, ConnectTo, ReplySized;
    if c.dns.addrInfo == [] {
      NoAddressKeeps(c, reply);
    } else if ConnectTo(c.dns.addrInfo, verdicts).result == CONNECTION_SUCCESS {
      StartsKeeps(c, verdicts, fd, reply, r);
    } else {
      DialKeeps(c, verdicts, fd);
    }
  }

  lemma {:induction false} NoAddressKeeps(c: Conn, reply: seq<byte>)
    requires Notified(c) && c.dns.addrInfo == [] && IsErrorReply(reply)
    ensures Inv(Jump(Refuse(c, reply), CONNECTION_REQ))
  {
    var d := Refuse(c, reply);
    RefusalQueued(c, reply);
    hide Refuse, Jump, History, Accounts, Authorized, Asked, Preface, IsErrorReply;
    JumpOn(d, CONNECTION_REQ);
  }

  lemma {:induction false} RefusalQueued(c: Conn, reply: seq<byte>)
    requires Notified(c) && IsErrorReply(reply)
    ensures var d := Refuse(c, reply);
      && d == c.(isError := true, flow := d.flow) && Sane(d) && d.flow.originFd == 0
      && d.flow.outB == reply && d.flow.client == WRITE && Negotiating(d.flow) && d.flow.io.queued == Preface(c.nego) + reply
  {
    hide History, Visits, Authorized, Asked, Preface, NameOf;
    assert [] + reply == reply && c.flow.io.toClient + [] == c.flow.io.toClient;
  }

  lemma {:induction false} StartsKeeps(c: Conn, verdicts: seq<Attempt>, fd: int, reply: seq<byte>, r: Send)
    requires Notified(c) && |verdicts| == |c.dns.addrInfo| && SocketIs(c.dns.addrInfo, verdicts, fd) && ReplySized(reply)
    requires ConnectTo(c.dns.addrInfo, verdicts).result == CONNECTION_SUCCESS
    ensures var d := c.(flow := c.flow.(originFd := fd), dns := c.dns.(addrInfo := ConnectTo(c.dns.addrInfo, verdicts).kept));
      Inv(Jump(Start(d, reply, r), COPY))
  {
    TriedIsPrefix(c.dns.addrInfo, verdicts);
    hide History, Visits, Authorized, Asked, Preface, Jump, Start, Inv, ConnectTo;
    assert Preface(c.nego) + [] == Preface(c.nego) && c.flow.io.toClient + [] == c.flow.io.toClient;
    var d := c.(flow := c.flow.(originFd := fd), dns := c.dns.(addrInfo := ConnectTo(c.dns.addrInfo, verdicts).kept));
    StartFromConnecting(d, reply, r);
  }

  /** An attempt in progress, on a socket that the selector takes or not, or none. */
  lemma {:induction false} DialKeeps(c: Conn, verdicts: seq<Attempt>, fd: int)
    requires Notified(c) && |verdicts| == |c.dns.addrInfo| && SocketIs(c.dns.addrInfo, verdicts, fd) && c.dns.addrInfo != []
    ensures var o := ConnectTo(c.dns.addrInfo, verdicts);
      var d := c.(flow := c.flow.(originFd := fd), dns := c.dns.(addrInfo := o.kept));
      var e := d.(flow := RegisterOrigin(SetClient(d.flow, NOOP), ConnectingHandler, WRITE));
      && (o.result == CONNECTION_FAILED ==> Inv(Jump(d, ERROR)))
      && (o.result == CONNECTION_IN_PROGRESS ==> Inv(Jump(e, if OriginRegistered(e.flow) then CONNECTING else ERROR)))
  {
    hide History, Visits, Authorized, Asked, Preface, Jumped, CanDepart;
    TriedIsPrefix(c.dns.addrInfo, verdicts);
    assert Preface(c.nego) + [] == Preface(c.nego) && c.flow.io.toClient + [] == c.flow.io.toClient;
    var o := ConnectTo(c.dns.addrInfo, verdicts);
    var d := c.(flow := c.flow.(originFd := fd), dns := c.dns.(addrInfo := o.kept));
    if o.result == CONNECTION_FAILED {
      JumpToError(d);
    } else if o.result == CONNECTION_IN_PROGRESS && !ValidFd(fd) {
      JumpToError(d.(flow := SetClient(d.flow, NOOP)));
    }
  }

  // ---- Every event ----

  lemma {:induction false} ChunkArrives(c: Conn, bytes: seq<byte>)
    requires Inv(c) && c.flow.live && c.flow.client == READ && c.stm.current != Some(COPY) && NotPipelined(c, bytes)
    ensures ChunkIn(Gained(c, bytes)) && |c.flow.inB| < c.flow.cap
  {
    BetweenChunks(c);
    hide Inv;
    assert [] + bytes == bytes && InputDropped(Gained(c, bytes)) == c;
  }

  /** `socksv5_read` outside COPY. */
  lemma {:induction false} ClientReadKeeps(c: Conn, recv: Recv, r: Send, env: Env)
    requires Inv(c) && Enabled(c, Io(ClientReadable(recv, r), env)) && WholeReply(c, Io(ClientReadable(recv, r), env))
    requires c.stm.current != Some(COPY)
    ensures Inv(ClientRead(c, recv, r, env))
  {
    hide Inv, Sane, ReadReady, NotPipelined, ChunkIn;
    BetweenChunks(c);
    if recv.Received? {
      ChunkArrives(c, recv.bytes);
      ReadReadyKeeps(Gained(c, recv.bytes), r, env);
    } else if recv != RecvAgain {
      CloseKeeps(c);
    }
  }

  /** Between events of the negotiation the input buffer is empty, with all its room. */
  lemma {:induction false} BetweenChunks(c: Conn)
    requires Inv(c) && c.flow.live && c.flow.client == READ && c.stm.current != Some(COPY)
    ensures c.flow.inB == [] && c.stm.current in {None, Some(HANDSHAKE), Some(AUTH), Some(CONNECTION_REQ)}
    ensures Sane(c) && NoResolution(c.dns) && Drained(c.flow) && Releasable(c.flow) && ParsersMatch(c.stm, true)
    ensures c.flow.cap >= 256
  {
  }

  /** A chunk is waiting in a buffer that was empty. */
  predicate ChunkIn(c: Conn) {
    && Inv(InputDropped(c)) && c.flow.live && c.flow.client == READ
    && c.stm.current in {None, Some(HANDSHAKE), Some(AUTH), Some(CONNECTION_REQ)} && ParsersMatch(c.stm, true)
    && (c.stm.current == None ==> GreetingAlone(HS.INIT, c.flow.inB))
    && (c.stm.current == Some(HANDSHAKE) ==> GreetingAlone(c.stm.hs.value, c.flow.inB))
    && (c.stm.current == Some(CONNECTION_REQ) ==> RequestAlone(c.stm.cr.value, c.flow.inB))
  }

  lemma {:induction false} ReadReadyKeeps(c: Conn, r: Send, env: Env)
    requires ChunkIn(c) && IsErrorReply(env.reply)
    requires c.stm.current != Some(CONNECTION_REQ) ==> r != Sent(1)
    ensures Inv(ReadReady(c, r, env))
  {
    if c.stm.current == None {
      FirstKeeps(c);
      hide Inv, Jump;
      HandshakeReadKeeps(HandleFirst(c), r);
    } else {
      hide Inv, Jump;
      if c.stm.current == Some(HANDSHAKE) {
        HandshakeReadKeeps(c, r);
      } else if c.stm.current == Some(AUTH) {
        AuthReadKeeps(c, r, env.users);
      } else {
        ConnReqReadKeeps(c, env.resolver, env.reply);
      }
    }
  }

  lemma {:induction false} FirstKeeps(c: Conn)
    requires Inv(InputDropped(c)) && c.flow.live && c.stm.current == None && GreetingAlone(HS.INIT, c.flow.inB)
    ensures FeedingGreeting(HandleFirst(c))
  {
    hide History, Visits, Entered, NameOf;
    FirstKeepsHistory(c.stm);
  }

  /** Where the origin is served by the relay's handler, the state is COPY. */
  lemma {:induction false} CopyHandlerMeansCopy(c: Conn)
    requires Inv(c) && c.flow.live && c.flow.origin.Registered? && c.flow.origin.handler == CopyHandler
    ensures c.stm.current == Some(COPY)
  {
  }

  /** Every event that the environment can produce keeps the invariant. */
  lemma {:induction false} StepKeeps(c: Conn, e: Event)
    requires Inv(c) && Enabled(c, e) && WholeReply(c, e)
    ensures Inv(Step(c, e))
  {
    hide Inv;
    match e
    case Io(io, env) =>
      if io.OriginReadable? || io.OriginWritable? {
        CopyHandlerMeansCopy(c);
      }
      if c.stm.current == Some(COPY) {
        CopyStepKeeps(c, io, env);
      } else if io.ClientReadable? {
        ClientReadKeeps(c, io.recv, io.send, env);
      } else {
        ClientWriteKeeps(c, io.send);
      }
    case ConnectReady(failed, verdicts, fd, reply, send) => ConnectDoneKeeps(c, failed, verdicts, fd, reply, send);
    case ResolverDone(list) => ResolvedKeeps(c, list);
    case BlockNotified(verdicts, fd, reply, send) => BlockKeeps(c, verdicts, fd, reply, send);
  }

  /** Every connection that a run of events can lead to satisfies the invariant. In particular no run
      reaches abort(), feeds or releases a missing parser, lets a resolver thread or a notification
      outlive its connection, or touches the slot of another socket. */
  lemma {:induction false} RunKeeps(c: Conn, es: seq<Event>)
    requires Inv(c) && IsRun(c, es)
    ensures Inv(Run(c, es))
    decreases |es|
  {
    hide Inv, Step;
    if es != [] {
      StepKeeps(c, es[0]);
      RunKeeps(Step(c, es[0]), es[1..]);
    }
  }
}