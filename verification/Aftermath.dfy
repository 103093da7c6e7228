// Handlers that end the connection in the middle of what they do, and go on using it: where it happens
// (`Resume` in Socks5.dfy), and exactly when. The calls are nested: `handshake_read`, `auth_read` and
// `connecting_on_block_ready` call `socksv5_write`, and `copy_read` calls `copy_write_handler`, any of
// which may free the connection; `socksv5_block` reads it after ERROR has freed it.
module Aftermath {
  import opened Bytes
  import opened AddressFallback
  import opened StateMachine
  import opened Relay
  import opened Socks5
  import opened Invariant
  import G = Guarantees
  import HS = HandshakeParser
  import AU = AuthParser
  import CR = ConnReqParser

  /** Does a send of a whole reply end the connection, given whether the reply is a refusal? */
  predicate Frees(r: Send, refusal: bool) { r == SendFailed || (SomeSent(r) && refusal) }

  /** The parser's value where it reports the end of a greeting, if these bytes contain it. */
  function GreetingEnd(v: HS.Value, bs: seq<byte>): Option<HS.Value>
    decreases |bs|
  {
    if bs == [] then None
    else
      var (w, report) := HS.Step(v, bs[0]);
      if report == HS.State.DONE then Some(w)
      else if report == HS.State.ERROR then None
      else GreetingEnd(w, bs[1..])
  }

  predicate Acceptable(v: HS.Value) { v.noAuth || v.userPass }

  function CredentialsEnd(v: AU.Value, bs: seq<byte>): Option<AU.Value>
    decreases |bs|
  {
    if bs == [] then None
    else
      var w := AU.Step(v, bs[0]);
      if w.state == AU.State.DONE then Some(w)
      else if w.state == AU.State.ERROR then None
      else CredentialsEnd(w, bs[1..])
  }

  // ---- The greeting ----

  /** A chunk of a greeting is in the buffer, and nothing is queued. */
  predicate Greeting(c: Conn) {
    && c.flow.live && c.stm.current == Some(HANDSHAKE) && c.stm.hs.Some? && c.flow.outB == [] && c.flow.cap >= 2
    && !c.broken && !c.resumed
  }

  lemma {:induction false} SentStays(f: Flow, n: nat)
    requires n <= |f.outB|
    ensures SentToClient(f, n).live == f.live
  {
  }

  /** A reply of the negotiation that is queued, and tried at once. */
  lemma {:induction false} ReplyEnds(c: Conn, r: Send)
    requires c.flow.live && c.stm.current in {Some(HANDSHAKE), Some(AUTH)} && CanDepart(c.stm)
    requires c.flow.outB != [] && !c.broken && !c.resumed
    ensures var e := ClientWrite(c, r);
      && (e.flow.live <==> !Frees(r, c.isError)) && !e.broken && !e.resumed
      && (e.flow.live && SomeSent(r) && c.stm.current == Some(HANDSHAKE) ==> e.stm.hs == None)
      && (e.flow.live && !SomeSent(r) ==> e.stm == c.stm)
  {
    hide SentToClient, ReleaseOrigin, RegisterOrigin;
    SentStays(c.flow, Min(if SomeSent(r) then r.n else 0, |c.flow.outB|));
  }

  lemma {:induction false} AnswerEnds(c: Conn, v: HS.Value, r: Send)
    requires Greeting(c) && c.stm.hs == Some(v)
    ensures var e := AnswerGreeting(c, v, r);
      && (e.flow.live <==> !Frees(r, !Acceptable(v))) && !e.broken && !e.resumed
      && (e.flow.live ==> e.stm.hs == if SomeSent(r) then None else Some(v))
  {
    hide ClientWrite;
    var reply := HS.Reply(v.noAuth, v.userPass);
    assert [] + reply == reply;
    ReplyEnds(Answer(c, reply).(isError := !Acceptable(v)), r);
  }

  /** As long as nothing can be sent, the parser stays and takes whatever follows. */
  lemma {:induction false} BlockedGreeting(c: Conn, r: Send)
    requires c.flow.live && c.stm.hs.Some? && !SomeSent(r) && r != SendFailed
    ensures HandshakeRead(c, r).0.broken == c.broken && HandshakeRead(c, r).0.resumed == c.resumed
    decreases |c.flow.inB|
  {
    hide HS.Step, Put;
    if c.flow.inB != [] {
      var (v, report) := HS.Step(c.stm.hs.value, c.flow.inB[0]);
      var d := FedGreeting(c, v);
      if report == HS.State.DONE {
        BlockedAnswer(d, v, r);
        AnswerKeepsInput(d, v, r);
        BlockedGreeting(AnswerGreeting(d, v, r), r);
      } else if report != HS.State.ERROR {
        BlockedGreeting(d, r);
      }
    }
  }

  lemma {:induction false} BlockedAnswer(c: Conn, v: HS.Value, r: Send)
    requires c.flow.live && !SomeSent(r) && r != SendFailed
    ensures var e := AnswerGreeting(c, v, r); e.flow.live && e.stm == c.stm && e.broken == c.broken && e.resumed == c.resumed
  {
  }

  /** A chunk with a greeting leads to a parser that is gone if and only if bytes follow the greeting, an
      acceptable method was offered, and the reply was sent; and its handler goes on with a freed
      connection if and only if the send fails, or sends a refusal. */
  lemma {:induction false} GreetingExactly(c: Conn, r: Send)
    requires Greeting(c)
    ensures var end := GreetingEnd(c.stm.hs.value, c.flow.inB);
      var d := HandshakeRead(c, r).0;
      && (d.broken <==> !GreetingAlone(c.stm.hs.value, c.flow.inB) && end.Some? && Acceptable(end.value) && SomeSent(r))
      && (d.resumed <==> end.Some? && Frees(r, !Acceptable(end.value)))
    decreases |c.flow.inB|
  {
    hide HS.Step, AnswerGreeting;
    if c.flow.inB != [] {
      var (v, report) := HS.Step(c.stm.hs.value, c.flow.inB[0]);
      var d := FedGreeting(c, v);
      if report == HS.State.DONE {
        AnswerEnds(d, v, r);
        AnswerKeepsInput(d, v, r);
        if !SomeSent(r) && r != SendFailed {
          BlockedGreeting(AnswerGreeting(d, v, r), r);
        }
      } else if report != HS.State.ERROR {
        GreetingExactly(d, r);
      }
    }
  }

  // ---- What follows a request ----

  /** Bytes that follow a refused request stay in the buffer; if and only if there are any, sending the
      refusal touches the slot of descriptor 0, a listening socket's. */
  lemma {:induction false} PipelinedRefusalStrays(c: Conn, r: Send)
    requires c.flow.live && c.stm.current == Some(CONNECTION_REQ) && c.stm.cr.Some? && c.isError
    requires c.flow.outB != [] && c.flow.originFd == 0 && !c.flow.stray
    ensures ClientWrite(c, r).flow.stray <==> c.flow.inB != [] && SomeSent(r)
  {
    hide Jumped;
  }

  // ---- Credentials ----

  predicate Authenticating(c: Conn) {
    && c.flow.live && c.stm.current == Some(AUTH) && c.stm.au.Some? && c.flow.outB == [] && c.flow.cap >= 2
    && !c.broken && !c.resumed
  }

  lemma {:induction false} JudgmentEnds(c: Conn, v: AU.Value, r: Send, users: Users)
    requires Authenticating(c)
    ensures var e := AnswerCredentials(c, v, r, users);
      (e.flow.live <==> !Frees(r, !Accepts(users, v.uname, v.passwd))) && !e.broken && !e.resumed
  {
    hide Accepts, ClientWrite;
    var reply := AuthReply(Accepts(users, v.uname, v.passwd));
    assert [] + reply == reply;
    ReplyEnds(Judged(c, v, users), r);
  }

  /** The same for credentials, whose parser is never missing: what follows them is dropped. */
  lemma {:induction false} CredentialsExactly(c: Conn, r: Send, users: Users)
    requires Authenticating(c)
    ensures var end := CredentialsEnd(c.stm.au.value, c.flow.inB);
      var d := AuthRead(c, r, users).0;
      !d.broken && (d.resumed <==> end.Some? && Frees(r, !Accepts(users, end.value.uname, end.value.passwd)))
    decreases |c.flow.inB|
  {
    hide AU.Step, AnswerCredentials, Accepts;
    if c.flow.inB != [] {
      var v := AU.Step(c.stm.au.value, c.flow.inB[0]);
      var d := FedCredentials(c, v);
      if v.state == AU.State.DONE {
        JudgmentEnds(d, v, r, users);
      } else if v.state != AU.State.ERROR {
        CredentialsExactly(d, r, users);
      }
    }
  }

  // ---- Everything else ----

  lemma {:induction false} JumpKeepsResumed(c: Conn, next: State)
    ensures Jump(c, next).resumed == c.resumed
  {
    hide Jumped, CanDepart, ReleaseOrigin, RegisterOrigin, Discarded;
  }

  lemma {:induction false} WriteKeepsResumed(c: Conn, r: Send)
    ensures ClientWrite(c, r).resumed == c.resumed
  {
    hide WriteToClient, Jump;
    var d := c.(flow := WriteToClient(c.flow, r));
    if d.stm.current.Some? && (d.stm.current.value == HANDSHAKE ==> d.stm.hs.Some?) {
      JumpKeepsResumed(d, AfterWrite(d));
    }
  }

  lemma {:induction false} RequestKeepsResumed(c: Conn, resolver: Resolver, reply: seq<byte>)
    ensures ConnReqRead(c, resolver, reply).0.resumed == c.resumed
    decreases |c.flow.inB|
  {
    hide CR.Step, Put, DestinationOf;
    if c.flow.inB != [] && c.stm.cr.Some? {
      var v := CR.Step(c.stm.cr.value, c.flow.inB[0]);
      if v.state !in {CR.State.DONE, CR.State.ERROR} {
        RequestKeepsResumed(FedRequest(c, v), resolver, reply);
      }
    }
  }

  lemma {:induction false} StartKeepsResumed(c: Conn, reply: seq<byte>, r: Send)
    ensures Start(c, reply, r).resumed == c.resumed
  {
    hide ClientWrite, PutReply;
    WriteKeepsResumed(DropIn(c.(flow := SetClient(PutReply(c.flow, reply), WRITE))), r);
  }

  /** What the read handlers come to. */
  predicate ReadResumes(c: Conn, bytes: seq<byte>, send: Send, users: Users) {
    match c.stm.current
    case None => GreetingResumes(HS.INIT, bytes, send)
    case Some(HANDSHAKE) => c.stm.hs.Some? && GreetingResumes(c.stm.hs.value, bytes, send)
    case Some(AUTH) =>
      c.stm.au.Some? &&
      var end := CredentialsEnd(c.stm.au.value, bytes);
      end.Some? && Frees(send, !Accepts(users, end.value.uname, end.value.passwd))
    case Some(COPY) => OriginRegistered(c.flow) && send in {SendFailed, Sent(0)}
    case _ => false
  }

  predicate GreetingResumes(v: HS.Value, bytes: seq<byte>, send: Send) {
    var end := GreetingEnd(v, bytes);
    end.Some? && Frees(send, !Acceptable(end.value))
  }

  /** A notification after which `socksv5_block`, or the jump to COPY, uses the freed connection. */
  predicate BlockResumes(c: Conn, verdicts: seq<Attempt>, fd: int, send: Send)
    requires |verdicts| == |c.dns.addrInfo|
  {
    && c.dns.addrInfo != []
    && match ConnectTo(c.dns.addrInfo, verdicts).result
       case CONNECTION_FAILED => true
       case CONNECTION_IN_PROGRESS => !ValidFd(fd)
       case CONNECTION_SUCCESS => send == SendFailed
  }

  predicate Resumes(c: Conn, e: Event)
    requires Enabled(c, e)
  {
    match e
    case Io(ClientReadable(Received(bytes), send), env) => |c.flow.inB| < c.flow.cap && ReadResumes(c, bytes, send, env.users)
    case BlockNotified(verdicts, fd, _, send) => BlockResumes(c, verdicts, fd, send)
    case _ => false
  }

  // ---- One event ----

  /** What a connection that is being read looks like, whatever its state. */
  lemma {:induction false} ReadFrom(c: Conn)
    requires Inv(c) && c.flow.live && c.flow.client == READ
    ensures !c.broken && !c.resumed && c.flow.outB == [] && c.flow.cap >= 256
    ensures c.stm.current in {None, Some(HANDSHAKE), Some(AUTH), Some(CONNECTION_REQ), Some(COPY)}
    ensures c.stm.current != Some(COPY) ==> c.flow.inB == []
    ensures c.stm.hs.Some? == (c.stm.current == Some(HANDSHAKE)) && c.stm.au.Some? == (c.stm.current == Some(AUTH))
  {
    hide VisitsMatch, ParsersCounted, Visits, Authorized, Asked, Preface, HS.Run, HS.Answered, HS.NothingFinal, AU.Run,
         AU.NotDoneEarly, Accounts;
  }

  lemma {:induction false} CopyReadExactly(c: Conn, r: Send)
    requires c.flow.live && !c.resumed && c.flow.inB != []
    ensures CopyReadReady(c, r).0.resumed <==> OriginRegistered(c.flow) && r in {SendFailed, Sent(0)}
  {
  }

  lemma {:induction false} ReadExactly(c: Conn, bytes: seq<byte>, r: Send, env: Env)
    requires Inv(c) && c.flow.live && c.flow.client == READ && bytes != []
    ensures ReadReady(Gained(c, bytes), r, env).resumed <==> ReadResumes(c, bytes, r, env.users)
  {
    hide HandshakeRead, AuthRead, ConnReqRead, CopyReadReady, Jump, GreetingEnd, CredentialsEnd, Accepts;
    ReadFrom(c);
    hide Inv;
    assert [] + bytes == bytes;
    var d := HandleFirst(Gained(c, bytes));
    var (e, next) := ReadHandler(d, r, env);
    JumpKeepsResumed(e, next);
    if d.stm.current == Some(HANDSHAKE) {
      GreetingExactly(d, r);
    } else if d.stm.current == Some(AUTH) {
      CredentialsExactly(d, r, env.users);
    } else if d.stm.current == Some(CONNECTION_REQ) {
      RequestKeepsResumed(d, env.resolver, env.reply);
    } else {
      CopyReadExactly(d, r);
    }
  }

  lemma {:induction false} BlockExactly(c: Conn, verdicts: seq<Attempt>, fd: int, reply: seq<byte>, r: Send)
    requires Inv(c) && Enabled(c, BlockNotified(verdicts, fd, reply, r))
    ensures Block(c, verdicts, fd, reply, r).resumed <==> BlockResumes(c, verdicts, fd, r)
  {
    hide Inv, Jump, ConnectingOnBlock, Visits, History;
    Notification(c);
    var d := c.(dns := c.dns.(jobs := c.dns.jobs - 1, notified := c.dns.notified + 1));
    OnBlockExactly(d, verdicts, fd, reply, r);
    var (e, next) := ConnectingOnBlock(d, verdicts, fd, reply, r);
    JumpKeepsResumed(Resume(e), next);
    if next == ERROR {
      JumpEnds(Resume(e));
    }
  }

  lemma {:induction false} Notification(c: Conn)
    requires Inv(c) && c.dns.jobs > 0
    ensures c.flow.live && c.stm.current == Some(CONNECTING) && !c.resumed && c.flow.origin == Unregistered
    ensures c.flow.outB == [] && c.flow.cap >= 256 && !c.isError && c.flow.inB == []
  {
    NotifiedInConnecting(c);
  }

  lemma {:induction false} JumpEnds(c: Conn)
    requires c.stm.current == Some(CONNECTING)
    ensures !Jump(c, ERROR).flow.live
  {
    hide Jumped;
  }

  lemma {:induction false} OnBlockExactly(c: Conn, verdicts: seq<Attempt>, fd: int, reply: seq<byte>, r: Send)
    requires c.flow.live && c.stm.current == Some(CONNECTING) && !c.resumed && c.flow.origin == Unregistered
    requires c.flow.outB == [] && c.flow.cap >= 256 && !c.isError && c.flow.inB == []
    requires |verdicts| == |c.dns.addrInfo| && SocketIs(c.dns.addrInfo, verdicts, fd) && (c.dns.addrInfo != [] ==> ReplySized(reply))
    ensures var (e, next) := ConnectingOnBlock(c, verdicts, fd, reply, r);
      && !e.resumed && (e.flow.live ==> e.stm.current == Some(CONNECTING) || next != ERROR)
      && (next == ERROR || !e.flow.live <==> BlockResumes(c, verdicts, fd, r))
      && (next == ERROR ==> e.stm.current == Some(CONNECTING))
  {
    hide ConnectTo, Start, Put;
    if c.dns.addrInfo != [] {
      var o := ConnectTo(c.dns.addrInfo, verdicts);
      StartLives(c.(flow := c.flow.(originFd := fd), dns := c.dns.(addrInfo := o.kept)), reply, r);
    }
    G.PutLives(c.flow, reply);
  }

  lemma {:induction false} StartLives(c: Conn, reply: seq<byte>, r: Send)
    requires c.flow.live && c.flow.outB == [] && c.flow.cap >= 256 && ReplySized(reply) && !c.isError && !c.resumed
    requires c.stm.current == Some(CONNECTING)
    ensures (Start(c, reply, r).flow.live <==> r != SendFailed) && !Start(c, reply, r).resumed
  {
    StartKeepsResumed(c, reply, r);
    assert [] + reply == reply;
    hide SentToClient, Jumped;
    var f := SetClient(PutReply(c.flow, reply), WRITE).(inB := []);
    SentStays(f, Min(if SomeSent(r) then r.n else 0, |f.outB|));
  }

  /** In every event of every run, a handler goes on with the connection it has freed if and only if: the
      send that answers a greeting or credentials fails, or sends a refusal; a client's bytes are relayed
      at once to an origin that has gone; or a notification finds that every address is refused at once,
      that it has no socket or one past the selector's limit, or connects at once for a client that has
      gone. */
  lemma {:induction false} ResumesExactly(c: Conn, e: Event)
    requires Inv(c) && Enabled(c, e) && c.flow.live
    ensures Step(c, e).resumed <==> Resumes(c, e)
  {
    LiveIsClean(c);
    hide Inv, Enabled, ClientRead, ClientWrite, OriginRead, CopyWrite, ConnectDone, Block, ReadResumes, BlockResumes;
    match e
    case Io(ClientReadable(recv, send), env) => ClientReadExactly(c, recv, send, env);
    case Io(ClientWritable(send), _) => WriteKeepsResumed(c, send);
    case Io(OriginReadable(recv, send), _) => OriginReadKeepsResumed(c, recv, send);
    case Io(OriginWritable(send), _) => CopyWriteKeepsResumed(c, send);
    case ConnectReady(failed, verdicts, fd, reply, send) => AttemptKeepsResumed(c, failed, verdicts, fd, reply, send);
    case ResolverDone(list) =>
    case BlockNotified(verdicts, fd, reply, send) => BlockExactly(c, verdicts, fd, reply, send);
  }

  lemma {:induction false} AttemptKeepsResumed(
    c: Conn, failed: bool, verdicts: seq<Attempt>, fd: int, reply: seq<byte>, r: Send)
    requires Inv(c) && Enabled(c, ConnectReady(failed, verdicts, fd, reply, r))
    ensures ConnectDone(c, failed, verdicts, fd, reply, r).resumed == c.resumed
  {
    hide Inv;
    ConnectingHandlerMeansConnecting(c);
    ConnectKeepsResumed(c, failed, verdicts, fd, reply, r);
  }

  lemma {:induction false} ClientReadExactly(c: Conn, recv: Recv, r: Send, env: Env)
    requires Inv(c) && Enabled(c, Io(ClientReadable(recv, r), env))
    ensures ClientRead(c, recv, r, env).resumed
       <==> recv.Received? && |c.flow.inB| < c.flow.cap && ReadResumes(c, recv.bytes, r, env.users)
  {
    ReadFrom(c);
    hide Inv, ReadReady, ReadResumes, NotPipelined;
    if recv.Received? && |c.flow.inB| < c.flow.cap {
      ReadExactly(c, recv.bytes, r, env);
    }
  }

  lemma {:induction false} OriginReadKeepsResumed(c: Conn, recv: Recv, r: Send)
    ensures OriginRead(c, recv, r).resumed == c.resumed
  {
    hide ClientWrite, ReadFromOrigin;
    if recv.Received? {
      WriteKeepsResumed(c.(flow := SetClient(FromOrigin(c.flow, recv.bytes), WRITE)), r);
    }
  }

  lemma {:induction false} CopyWriteKeepsResumed(c: Conn, r: Send)
    ensures CopyWrite(c, r).resumed == c.resumed
  {
    hide WriteToOrigin;
  }

  lemma {:induction false} ConnectKeepsResumed(c: Conn, failed: bool, verdicts: seq<Attempt>, fd: int, reply: seq<byte>, r: Send)
    requires c.stm.current == Some(CONNECTING) && |verdicts| == |c.dns.addrInfo|
    ensures ConnectDone(c, failed, verdicts, fd, reply, r).resumed == c.resumed
  {
    hide Start, Jump, ConnectTo;
    var d := c.(flow := ReleaseOrigin(c.flow), dns := c.dns.(addrInfo := []));
    JumpKeepsResumed(d, COPY);
    StartKeepsResumed(Jump(d, COPY), reply, r);
  }

  // ---- Whole runs ----

  predicate EverResumes(c: Conn, es: seq<Event>)
    requires IsRun(c, es)
    decreases |es|
  {
    es != [] && (Resumes(c, es[0]) || EverResumes(Step(c, es[0]), es[1..]))
  }

  /** A run has read freed memory if and only if it contains such an event, which is then its last. */
  lemma {:induction false} FreedMemoryExactly(c: Conn, es: seq<Event>)
    requires Inv(c) && c.flow.live && IsRun(c, es)
    ensures Run(c, es).resumed <==> EverResumes(c, es)
    decreases |es|
  {
    assert !c.resumed;
    hide Inv, Enabled, Step, WholeReply, Resumes;
    if es != [] {
      var d := Step(c, es[0]);
      ResumesExactly(c, es[0]);
      StepKeeps(c, es[0]);
      if d.flow.live {
        LiveIsClean(d);
        FreedMemoryExactly(d, es[1..]);
      } else {
        G.EndedRun(d, es[1..]);
      }
    }
  }

  lemma {:induction false} LiveIsClean(c: Conn)
    requires Inv(c) && c.flow.live
    ensures !c.resumed
  {
  }
}
