// A failed attempt to connect closes its socket and opens another, but keeps the selector's slot of the
// first: src/server/socks5/states_handlers/socks5_connecting.c:93-117.
module Retries {
  import opened Bytes
  import opened AddressFallback
  import opened StateMachine
  import opened Relay
  import opened Socks5
  import opened Invariant
  import HS = HandshakeParser
  import AU = AuthParser
  import CR = ConnReqParser

  /** Does a retry, if the event is one, get the number of the socket that was closed just before? */
  predicate NumberKept(c: Conn, e: Event) {
    e.ConnectReady? && e.failed && c.dns.addrInfo != [] ==> e.fd == c.flow.originFd
  }

  predicate NumbersKept(c: Conn, es: seq<Event>)
    requires IsRun(c, es)
    decreases |es|
  {
    es == [] || (NumberKept(c, es[0]) && NumbersKept(Step(c, es[0]), es[1..]))
  }

  /** A client that is paused before the relay is waited for by exactly one other party: a resolver
      thread, a queued notification, or the open socket of an attempt. */
  predicate Awaited(c: Conn) {
    c.flow.live && c.flow.client == NOOP && c.stm.current != Some(COPY) ==>
      c.dns.resolving + c.dns.jobs
        + (if c.flow.origin == Registered(c.flow.originFd, ConnectingHandler, WRITE) then 1 else 0) == 1
  }

  /** Nobody waits for nothing, and every slot is for an open descriptor of its connection. */
  predicate Watched(c: Conn) { Awaited(c) && Pollable(c.flow) && (!c.flow.live ==> c.flow.origin == Unregistered) }

  // ---- Only a retry can leave a slot behind ----

  predicate NoAttempt(f: Flow) { f.origin.Registered? ==> f.origin.handler == CopyHandler }

  /** Nothing between the two opens a socket, or starts to watch an attempt. */
  predicate Tame(f: Flow, g: Flow) { g.originFd in {f.originFd, -1} && (NoAttempt(f) ==> NoAttempt(g)) }

  lemma {:induction false} WriteIsTame(f: Flow, r: Send)
    ensures Tame(f, WriteToClient(f, r))
  {
    hide Shipped;
    if SomeSent(r) && f.outB != [] {
      ShippedIsTame(f, Min(r.n, |f.outB|));
    }
  }

  lemma {:induction false} ShippedIsTame(f: Flow, n: nat)
    requires n <= |f.outB|
    ensures Shipped(f, n).originFd == f.originFd && Shipped(f, n).origin == f.origin
  {
  }

  lemma {:induction false} OriginWriteIsTame(f: Flow, r: Send)
    ensures Tame(f, WriteToOrigin(f, r))
  {
  }

  lemma {:induction false} JumpIsTame(c: Conn, next: State)
    ensures Tame(c.flow, Jump(c, next).flow)
  {
    hide Jumped, CanDepart;
  }

  lemma {:induction false} CloseIsTame(c: Conn)
    ensures Tame(c.flow, Close(c).flow) && Tame(c.flow, CloseIfEnded(c).flow)
  {
    hide Discarded;
  }

  lemma {:induction false} ClientWriteIsTame(c: Conn, r: Send)
    ensures Tame(c.flow, ClientWrite(c, r).flow)
  {
    hide WriteToClient, Jump, CloseIfEnded, NoAttempt;
    WriteIsTame(c.flow, r);
    var d := c.(flow := WriteToClient(c.flow, r));
    CloseIsTame(d);
    if d.stm.current.Some? && (d.stm.current.value == HANDSHAKE ==> d.stm.hs.Some?) {
      JumpIsTame(d, AfterWrite(d));
    }
  }

  /** Queueing and the client's own slot do not touch the origin. */
  lemma {:induction false} PutKeepsOrigin(f: Flow, bytes: seq<byte>)
    ensures Put(f, bytes).origin == f.origin && Put(f, bytes).originFd == f.originFd
  {
  }

  lemma {:induction false} AnswerIsTame(c: Conn, v: HS.Value, r: Send)
    ensures Tame(c.flow, AnswerGreeting(c, v, r).flow)
  {
    hide ClientWrite, Put, HS.Reply;
    PutKeepsOrigin(c.flow, HS.Reply(v.noAuth, v.userPass));
    ClientWriteIsTame(Answer(c, HS.Reply(v.noAuth, v.userPass)).(isError := !(v.noAuth || v.userPass)), r);
  }

  lemma {:induction false} HandshakeIsTame(c: Conn, r: Send)
    ensures Tame(c.flow, HandshakeRead(c, r).0.flow)
    decreases |c.flow.inB|
  {
    hide HS.Step, AnswerGreeting;
    if c.flow.inB != [] && c.stm.hs.Some? {
      var (v, report) := HS.Step(c.stm.hs.value, c.flow.inB[0]);
      var d := FedGreeting(c, v);
      if report == HS.State.DONE {
        AnswerIsTame(d, v, r);
        AnswerKeepsInput(d, v, r);
        if AnswerGreeting(d, v, r).flow.live {
          HandshakeIsTame(AnswerGreeting(d, v, r), r);
        }
      } else if report != HS.State.ERROR {
        HandshakeIsTame(d, r);
      }
    }
  }

  lemma {:induction false} VerdictIsTame(c: Conn, v: AU.Value, r: Send, users: Users)
    ensures Tame(c.flow, AnswerCredentials(c, v, r, users).flow)
  {
    hide ClientWrite, Put, Accepts;
    PutKeepsOrigin(c.flow, AuthReply(Accepts(users, v.uname, v.passwd)));
    ClientWriteIsTame(Judged(c, v, users), r);
  }

  lemma {:induction false} AuthIsTame(c: Conn, r: Send, users: Users)
    ensures Tame(c.flow, AuthRead(c, r, users).0.flow)
    decreases |c.flow.inB|
  {
    hide AU.Step, AnswerCredentials;
    if c.flow.inB != [] && c.stm.au.Some? {
      var v := AU.Step(c.stm.au.value, c.flow.inB[0]);
      var d := FedCredentials(c, v);
      if v.state == AU.State.DONE {
        VerdictIsTame(d, v, r, users);
      } else if v.state != AU.State.ERROR {
        AuthIsTame(d, r, users);
      }
    }
  }

  lemma {:induction false} RequestIsTame(c: Conn, resolver: Resolver, reply: seq<byte>)
    ensures Tame(c.flow, ConnReqRead(c, resolver, reply).0.flow)
    decreases |c.flow.inB|
  {
    hide CR.Step, DestinationOf, Put;
    if c.flow.inB != [] && c.stm.cr.Some? {
      var v := CR.Step(c.stm.cr.value, c.flow.inB[0]);
      var d := FedRequest(c, v);
      PutKeepsOrigin(d.flow, reply);
      if v.state !in {CR.State.DONE, CR.State.ERROR} {
        RequestIsTame(d, resolver, reply);
      }
    }
  }

  lemma {:induction false} CopyReadIsTame(c: Conn, r: Send)
    ensures Tame(c.flow, CopyReadReady(c, r).0.flow)
  {
    hide WriteToOrigin, CloseIfEnded;
    var f := SetOrigin(c.flow, WRITE);
    OriginWriteIsTame(f, r);
    CloseIsTame(c.(flow := WriteToOrigin(f, r)));
  }

  lemma {:induction false} ReadReadyIsTame(c: Conn, r: Send, env: Env)
    ensures Tame(c.flow, ReadReady(c, r, env).flow)
  {
    hide HandshakeRead, AuthRead, ConnReqRead, CopyReadReady, Jump, NoAttempt;
    var d := HandleFirst(c);
    HandshakeIsTame(d, r);
    AuthIsTame(d, r, env.users);
    RequestIsTame(d, env.resolver, env.reply);
    CopyReadIsTame(d, r);
    var (e, next) := ReadHandler(d, r, env);
    JumpIsTame(e, next);
  }

  lemma {:induction false} OriginReadIsTame(c: Conn, recv: Recv, r: Send)
    ensures Tame(c.flow, OriginRead(c, recv, r).flow)
  {
    hide ClientWrite, CloseIfEnded, WriteToClient;
    if recv.Received? {
      var d := c.(flow := SetClient(FromOrigin(c.flow, recv.bytes), WRITE));
      ClientWriteIsTame(d, r);
      WriteIsTame(d.flow, r);
    }
    CloseIsTame(c.(flow := ReadFromOrigin(c.flow, recv, r)));
  }

  lemma {:induction false} ClientReadIsTame(c: Conn, recv: Recv, r: Send, env: Env)
    ensures Tame(c.flow, ClientRead(c, recv, r, env).flow)
  {
    hide ReadReady, Close;
    CloseIsTame(c);
    if recv.Received? {
      ReadReadyIsTame(Gained(c, recv.bytes), r, env);
    }
  }

  lemma {:induction false} ReactIsTame(c: Conn, io: IoEvent, env: Env)
    ensures Tame(c.flow, React(c, io, env).flow)
  {
    hide ClientRead, ClientWrite, OriginRead, CloseIfEnded, WriteToOrigin, NoAttempt;
    match io
    case ClientReadable(recv, send) => ClientReadIsTame(c, recv, send, env);
    case ClientWritable(send) => ClientWriteIsTame(c, send);
    case OriginReadable(recv, send) => OriginReadIsTame(c, recv, send);
    case OriginWritable(send) =>
      OriginWriteIsTame(c.flow, send);
      CloseIsTame(c.(flow := WriteToOrigin(c.flow, send)));
  }

  lemma {:induction false} StartIsTame(c: Conn, reply: seq<byte>, r: Send)
    ensures Tame(c.flow, Start(c, reply, r).flow)
  {
    hide ClientWrite, Put;
    PutKeepsOrigin(c.flow.(io := c.flow.io.(preface := c.flow.io.queued, reply := reply)), reply);
    ClientWriteIsTame(DropIn(c.(flow := SetClient(PutReply(c.flow, reply), WRITE))), r);
  }

  // ---- When every slot is for an open descriptor ----

  /** Outside CONNECTING's attempts the slots are always in order. */
  lemma {:induction false} NoAttemptIsPollable(c: Conn)
    requires Inv(c) && NoAttempt(c.flow)
    ensures Pollable(c.flow)
  {
    hide History, Accounts, Authorized, Asked, Preface, HS.Run, HS.Answered, AU.Run, AU.NotDoneEarly;
  }

  lemma {:induction false} IoMeansNoAttempt(c: Conn, io: IoEvent)
    requires Inv(c) && Pollable(c.flow) && IoEnabled(c.flow, io)
    ensures NoAttempt(c.flow)
  {
    if c.flow.origin.Registered? && c.flow.origin.handler == ConnectingHandler {
      ConnectingHandlerMeansConnecting(c);
    }
  }

  /** A notification starts at most one attempt, on the socket it has opened. */
  lemma {:induction false} OnBlockAttempt(c: Conn, verdicts: seq<Attempt>, fd: int, reply: seq<byte>, r: Send)
    requires c.flow.origin == Unregistered && |verdicts| == |c.dns.addrInfo|
    ensures var (e, next) := ConnectingOnBlock(c, verdicts, fd, reply, r);
      && (NoAttempt(e.flow) || (next == CONNECTING && Pollable(e.flow) && e.stm == c.stm))
      && e.flow.originFd in {c.flow.originFd, fd, -1} && (c.dns.addrInfo == [] ==> e.flow.originFd in {c.flow.originFd, -1})
  {
    hide ConnectTo, Start, Put;
    PutKeepsOrigin(c.flow, reply);
    if c.dns.addrInfo != [] {
      var o := ConnectTo(c.dns.addrInfo, verdicts);
      StartIsTame(c.(flow := c.flow.(originFd := fd), dns := c.dns.(addrInfo := o.kept)), reply, r);
    }
  }

  lemma {:induction false} NotifiedUnregistered(c: Conn)
    requires Inv(c) && c.dns.jobs > 0
    ensures c.flow.live && c.stm.current == Some(CONNECTING) && c.flow.origin == Unregistered
  {
    NotifiedInConnecting(c);
  }

  lemma {:induction false} BlockIsPollable(c: Conn, verdicts: seq<Attempt>, fd: int, reply: seq<byte>, r: Send)
    requires Inv(c) && Enabled(c, BlockNotified(verdicts, fd, reply, r))
    ensures Pollable(Block(c, verdicts, fd, reply, r).flow)
    ensures Block(c, verdicts, fd, reply, r).flow.originFd in {c.flow.originFd, fd, -1}
    ensures c.dns.addrInfo == [] ==> Block(c, verdicts, fd, reply, r).flow.originFd in {c.flow.originFd, -1}
  {
    hide Inv, Jump, ConnectingOnBlock, Resume;
    NotifiedUnregistered(c);
    BlockKeeps(c, verdicts, fd, reply, r);
    var d := c.(dns := c.dns.(jobs := c.dns.jobs - 1, notified := c.dns.notified + 1));
    var (e, next) := ConnectingOnBlock(d, verdicts, fd, reply, r);
    OnBlockAttempt(d, verdicts, fd, reply, r);
    ResumeStays(e);
    ResumeStays(Jump(Resume(e), next));
    if NoAttempt(e.flow) {
      JumpIsTame(Resume(e), next);
      NoAttemptIsPollable(Block(c, verdicts, fd, reply, r));
    } else {
      JumpNowhere(Resume(e));
    }
  }

  lemma {:induction false} JumpNowhere(c: Conn)
    requires c.stm.current == Some(CONNECTING)
    ensures Jump(c, CONNECTING) == c
  {
  }

  lemma {:induction false} ConnectedIsPollable(c: Conn, verdicts: seq<Attempt>, fd: int, reply: seq<byte>, r: Send)
    requires Inv(c) && Enabled(c, ConnectReady(false, verdicts, fd, reply, r))
    ensures Pollable(ConnectDone(c, false, verdicts, fd, reply, r).flow)
    ensures NoAttempt(ConnectDone(c, false, verdicts, fd, reply, r).flow)
    ensures ConnectDone(c, false, verdicts, fd, reply, r).flow.originFd in {c.flow.originFd, -1}
  {
    ConnectDoneKeeps(c, false, verdicts, fd, reply, r);
    hide Inv, ReadReady, Start;
    var d := c.(flow := ReleaseOrigin(c.flow), dns := c.dns.(addrInfo := []));
    var env := Env(map[], Resolver(false, []), []);
    ReadReadyIsTame(d, r, env);
    StartIsTame(ReadReady(d, r, env), reply, r);
    NoAttemptIsPollable(ConnectDone(c, false, verdicts, fd, reply, r));
  }

  lemma {:induction false} RetryIsPollable(c: Conn, verdicts: seq<Attempt>, fd: int, reply: seq<byte>, r: Send)
    requires Inv(c) && Enabled(c, ConnectReady(true, verdicts, fd, reply, r))
    ensures Pollable(ConnectDone(c, true, verdicts, fd, reply, r).flow)
       <==> NumberKept(c, ConnectReady(true, verdicts, fd, reply, r))
  {
    ConnectingHandlerMeansConnecting(c);
    hide Inv, ConnectTo, Put;
    var g := ReleaseOrigin(Retried(c, verdicts, fd).flow).(originFd := -1);
    PutKeepsOrigin(g, reply);
    NoAddresses(c.dns.addrInfo, verdicts);
  }

  lemma {:induction false} NoAddresses(list: seq<Endpoint>, verdicts: seq<Attempt>)
    requires |verdicts| == |list|
    ensures list == [] ==> ConnectTo(list, verdicts).result == CONNECTION_FAILED
  {
  }

  /** An event leaves every slot in order if and only if it is not a retry on another number. */
  lemma {:induction false} StepIsPollable(c: Conn, e: Event)
    requires Inv(c) && Pollable(c.flow) && Enabled(c, e) && WholeReply(c, e)
    ensures Pollable(Step(c, e).flow) <==> NumberKept(c, e)
  {
    hide Inv, React, ConnectDone, Block;
    match e
    case Io(io, env) =>
      IoMeansNoAttempt(c, io);
      ReactIsTame(c, io, env);
      StepKeeps(c, e);
      NoAttemptIsPollable(React(c, io, env));
    case ConnectReady(failed, verdicts, fd, reply, send) =>
      if failed {
        RetryIsPollable(c, verdicts, fd, reply, send);
      } else {
        ConnectedIsPollable(c, verdicts, fd, reply, send);
      }
    case ResolverDone(list) =>
    case BlockNotified(verdicts, fd, reply, send) => BlockIsPollable(c, verdicts, fd, reply, send);
  }

  // ---- Over whole runs ----

  /** Nothing can happen to a connection any more that has a slot for a descriptor it has closed. */
  lemma {:induction false} OrphanIsStuck(c: Conn, e: Event)
    requires Inv(c) && !Pollable(c.flow)
    ensures !Enabled(c, e) && c.flow.live && c.stm.current == Some(CONNECTING) && Orphaned(c)
  {
    hide History, Accounts, Authorized, Asked, Preface, HS.Run, HS.Answered, AU.Run, AU.NotDoneEarly;
  }

  lemma {:induction false} RunIsPollable(c: Conn, es: seq<Event>)
    requires Inv(c) && Pollable(c.flow) && IsRun(c, es)
    ensures Pollable(Run(c, es).flow) <==> NumbersKept(c, es)
    decreases |es|
  {
    hide Inv, Enabled, Step, WholeReply, NumberKept, Pollable;
    if es != [] {
      var d := Step(c, es[0]);
      StepKeeps(c, es[0]);
      StepIsPollable(c, es[0]);
      if Pollable(d.flow) {
        RunIsPollable(d, es[1..]);
      } else {
        StuckRun(d, es[1..]);
      }
    }
  }

  lemma {:induction false} StuckRun(c: Conn, es: seq<Event>)
    requires Inv(c) && !Pollable(c.flow) && IsRun(c, es)
    ensures es == [] && Run(c, es) == c
  {
    hide Inv, Enabled, Step, WholeReply, Pollable;
    if es != [] {
      OrphanIsStuck(c, es[0]);
    }
  }

  lemma {:induction false} PollableIsAwaited(c: Conn)
    requires Inv(c)
    ensures Watched(c) <==> Pollable(c.flow)
  {
    hide History, Accounts, Authorized, Asked, Preface, HS.Run, HS.Answered, AU.Run, AU.NotDoneEarly;
  }

  /** In every run, nobody waits for nothing and every slot is for an open descriptor of its connection,
      if and only if every retry on the way got the number of the socket closed just before it. */
  lemma {:induction false} WatchedIffNumbersKept(bufferSize: nat, es: seq<Event>)
    requires bufferSize >= 256 && IsRun(Accepted(bufferSize), es)
    ensures Watched(Run(Accepted(bufferSize), es)) <==> NumbersKept(Accepted(bufferSize), es)
  {
    AcceptedInv(bufferSize);
    RunKeeps(Accepted(bufferSize), es);
    RunIsPollable(Accepted(bufferSize), es);
    PollableIsAwaited(Run(Accepted(bufferSize), es));
  }
}
