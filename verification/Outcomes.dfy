// What becomes of a request once its address is being resolved: it is relayed, refused with a reply, or
// the connection ends without one. What the connects say decides it.
module Outcomes {
  import opened Bytes
  import opened AddressFallback
  import opened StateMachine
  import opened Relay
  import opened Socks5
  import opened Invariant
  import G = Guarantees
  import R = Retries
  import AM = Aftermath

  datatype Fate = Served | TurnedDown | Unanswered | Pending

  /** What has become of a request, by the state of its connection. */
  function FateIn(c: Conn): Fate {
    if COPY in c.stm.visits then Served
    else if c.isError then TurnedDown
    else if !c.flow.live then Unanswered
    else Pending
  }

  /** What the events say of a request whose resolution is under way, with the addresses found so far. */
  function FateOf(list: seq<Endpoint>, es: seq<Event>): Fate
    decreases |es|
  {
    if es == [] then Pending
    else match es[0]
      case ResolverDone(found) => FateOf(if found == [] then list else found, es[1..])
      case BlockNotified(verdicts, fd, _, send) =>
        if |verdicts| != |list| then Pending
        else if list == [] then TurnedDown
        else
          var o := ConnectTo(list, verdicts);
          (match o.result
           case CONNECTION_SUCCESS => if send == SendFailed then Unanswered else Served
           case CONNECTION_FAILED => Unanswered
           case CONNECTION_IN_PROGRESS => if !ValidFd(fd) then Unanswered else AttemptFate(o.kept, es[1..]))
      case _ => Pending
  }

  /** The same while an attempt is in progress, with the addresses left. A retry that connects at once
      counts as a refusal. */
  function AttemptFate(kept: seq<Endpoint>, es: seq<Event>): Fate
    decreases |es|
  {
    if es == [] || !es[0].ConnectReady? || |es[0].verdicts| != |kept| then Pending
    else if !es[0].failed then Served
    else
      var o := ConnectTo(kept, es[0].verdicts);
      if o.result == CONNECTION_IN_PROGRESS then AttemptFate(o.kept, es[1..]) else TurnedDown
  }

  // ---- What is decided stays decided ----

  lemma {:induction false} ServedStays(c: Conn, es: seq<Event>)
    requires Inv(c) && COPY in c.stm.visits && (c.flow.live ==> c.stm.current == Some(COPY)) && IsRun(c, es)
    ensures COPY in Run(c, es).stm.visits
    decreases |es|
  {
    hide Inv, Enabled, Step, WholeReply;
    if es != [] {
      if !c.flow.live {
        G.EndedRun(c, es);
      } else {
        CopyVisitStays(c, es[0]);
        StepKeeps(c, es[0]);
        ServedStays(Step(c, es[0]), es[1..]);
      }
    }
  }

  lemma {:induction false} CopyVisitStays(c: Conn, e: Event)
    requires Inv(c) && c.flow.live && c.stm.current == Some(COPY) && COPY in c.stm.visits && Enabled(c, e)
    ensures var d := Step(c, e); COPY in d.stm.visits && (d.flow.live ==> d.stm.current == Some(COPY))
  {
    G.OnlyIoInCopy(c, e);
    hide Inv, React, Enabled;
    G.CopyStays(c, e.io, e.env);
  }

  lemma {:induction false} TurnedDownStays(c: Conn, es: seq<Event>)
    requires Inv(c) && c.flow.live && c.isError && COPY !in c.stm.visits && IsRun(c, es)
    ensures FateIn(Run(c, es)) == TurnedDown
  {
    hide Inv, Run, IsRun;
    G.ErrorIsFinal(c, es);
  }

  /** COPY is only followed by ERROR, and that by nothing. */
  lemma {:induction false} CopyIsLate(vs: seq<State>, i: nat)
    requires Path(vs) && i < |vs| && vs[i] == COPY
    ensures vs[|vs| - 1] in {COPY, ERROR}
  {
    if i + 1 < |vs| {
      assert Edge(vs[i], vs[i + 1]);
      assert i + 2 == |vs| || Edge(vs[i + 1], vs[i + 2]);
    }
  }

  /** A connection in CONNECTING has not been relaying before. */
  lemma {:induction false} NotYetServed(c: Conn)
    requires Inv(c) && c.stm.current == Some(CONNECTING)
    ensures COPY !in c.stm.visits
  {
    var vs := c.stm.visits;
    hide InPhase, Accounts, Ended, ParsersMatch, ParsersCounted, Path;
    forall i | 0 <= i < |vs|
      ensures vs[i] != COPY
    {
      if vs[i] == COPY {
        CopyIsLate(vs, i);
      }
    }
  }

  // ---- While an attempt is in progress ----

  /** The client waits, and an attempt is registered, for its open socket or for one left behind. */
  predicate Attempting(c: Conn) {
    && c.flow.live && c.stm.current == Some(CONNECTING) && !c.isError && c.flow.client == NOOP
    && c.flow.origin.Registered? && c.flow.origin.handler == ConnectingHandler
    && c.dns.resolving == 0 && c.dns.jobs == 0
  }

  lemma {:induction false} OnlyTheAttempt(c: Conn, e: Event)
    requires Attempting(c) && Enabled(c, e)
    ensures e.ConnectReady?
  {
  }

  /** The origin has answered: the connection enters COPY, whatever becomes of it then. */
  lemma {:induction false} ConnectedVisits(c: Conn, verdicts: seq<Attempt>, fd: int, reply: seq<byte>, r: Send)
    requires c.flow.live && c.stm.current == Some(CONNECTING) && |verdicts| == |c.dns.addrInfo|
    ensures var d := ConnectDone(c, false, verdicts, fd, reply, r);
      COPY in d.stm.visits && (d.flow.live ==> d.stm.current == Some(COPY))
  {
    hide ClientWrite, PutReply, RegisterOrigin;
    var d := ReadReady(c.(flow := ReleaseOrigin(c.flow), dns := c.dns.(addrInfo := [])), r, Env(map[], Resolver(false, []), []));
    assert d.stm == Jumped(c.stm, COPY);
    JumpRecords(c.stm, COPY);
    assert COPY in d.stm.visits by {
      assert d.stm.visits[|c.stm.visits|] == COPY;
    }
    G.CopyWriteStays(DropIn(d.(flow := SetClient(PutReply(d.flow, reply), WRITE))), r);
  }

  /** Into an empty buffer. */
  lemma {:induction false} PutIs(f: Flow, bytes: seq<byte>)
    requires f.outB == [] && |bytes| < f.cap
    ensures var g := Put(f, bytes);
      g == f.(outB := bytes, io := g.io) && g.io.toClient == f.io.toClient && g.io.toOrigin == f.io.toOrigin
  {
    assert [] + bytes == bytes;
  }

  /** After a failed attempt the connection is answered with an error if and only if no further
      attempt is in progress; one that connects at once is among those. */
  lemma {:induction false} RetryRefusedExactly(c: Conn, verdicts: seq<Attempt>, fd: int, reply: seq<byte>, r: Send)
    requires Inv(c) && Enabled(c, ConnectReady(true, verdicts, fd, reply, r))
    ensures var d := ConnectDone(c, true, verdicts, fd, reply, r);
      && (d.isError <==> ConnectTo(c.dns.addrInfo, verdicts).result != CONNECTION_IN_PROGRESS)
      && d.flow.live && d.stm == c.stm && (!d.isError ==> d.dns.addrInfo == ConnectTo(c.dns.addrInfo, verdicts).kept)
      && (if d.isError then d.flow.client == WRITE && d.flow.outB == reply else Attempting(d))
  {
    ConnectingHandlerMeansConnecting(c);
    NothingOwedYet(c);
    hide Inv, ConnectTo, Put;
    R.NoAddresses(c.dns.addrInfo, verdicts);
    R.PutKeepsOrigin(ReleaseOrigin(Retried(c, verdicts, fd).flow).(originFd := -1), reply);
    PutIs(ReleaseOrigin(Retried(c, verdicts, fd).flow).(originFd := -1), reply);
  }

  lemma {:induction false} NothingOwedYet(c: Conn)
    requires Inv(c) && c.flow.live && c.stm.current == Some(CONNECTING) && c.flow.client == NOOP
    ensures c.flow.outB == [] && c.flow.cap >= 256
  {
  }

  lemma {:induction false} InstantRetryIsRefused(c: Conn, verdicts: seq<Attempt>, fd: int, reply: seq<byte>, r: Send)
    requires Inv(c) && Enabled(c, ConnectReady(true, verdicts, fd, reply, r))
    requires c.dns.addrInfo != [] && verdicts[0] == Connected
    ensures ConnectDone(c, true, verdicts, fd, reply, r).isError
  {
    RetryRefusedExactly(c, verdicts, fd, reply, r);
  }

  lemma {:induction false} AttemptIsDecided(c: Conn, es: seq<Event>)
    requires Inv(c) && Attempting(c) && IsRun(c, es)
    ensures FateIn(Run(c, es)) == AttemptFate(c.dns.addrInfo, es)
    decreases |es|
  {
    NotYetServed(c);
    hide Inv, ConnectDone, WholeReply, ConnectTo;
    if es != [] {
      OnlyTheAttempt(c, es[0]);
      StepKeeps(c, es[0]);
      var d := Step(c, es[0]);
      match es[0] {
      case ConnectReady(failed, verdicts, fd, reply, send) =>
        if !failed {
          ConnectedVisits(c, verdicts, fd, reply, send);
          ServedStays(d, es[1..]);
        } else {
          RetryRefusedExactly(c, verdicts, fd, reply, send);
          if d.isError {
            TurnedDownStays(d, es[1..]);
          } else {
            AttemptIsDecided(d, es[1..]);
          }
        }
      }
    }
  }

  // ---- From the resolution on ----

  /** What a notification makes of the connection. */
  lemma {:induction false} BlockFate(c: Conn, verdicts: seq<Attempt>, fd: int, reply: seq<byte>, r: Send)
    requires Inv(c) && Enabled(c, BlockNotified(verdicts, fd, reply, r))
    ensures var d := Block(c, verdicts, fd, reply, r);
      var o := ConnectTo(c.dns.addrInfo, verdicts);
      if c.dns.addrInfo == [] then d.flow.live && d.isError && COPY !in d.stm.visits
      else match o.result
        case CONNECTION_SUCCESS =>
          if r == SendFailed then !d.flow.live && !d.isError && COPY !in d.stm.visits
          else COPY in d.stm.visits && d.flow.live && d.stm.current == Some(COPY)
        case CONNECTION_FAILED => !d.flow.live && !d.isError && COPY !in d.stm.visits
        case CONNECTION_IN_PROGRESS =>
          if !ValidFd(fd) then !d.flow.live && !d.isError && COPY !in d.stm.visits
          else Attempting(d) && d.dns.addrInfo == o.kept
  {
    hide Inv, Start, RegisterOrigin, ConnectTo, Put, Started;
    AM.Notification(c);
    NotYetServed(c);
    NothingElse(c);
    var d := c.(dns := c.dns.(jobs := c.dns.jobs - 1, notified := c.dns.notified + 1));
    var o := ConnectTo(d.dns.addrInfo, verdicts);
    var s := d.(flow := d.flow.(originFd := fd), dns := d.dns.(addrInfo := o.kept));
    if d.dns.addrInfo == [] {
      NoAddressFate(d, reply);
    } else if o.result == CONNECTION_SUCCESS {
      ReadyToStart(c, verdicts, fd);
      AtOnceFate(s, reply, r);
    } else if o.result == CONNECTION_IN_PROGRESS {
      WatchedFate(s);
    } else {
      ErrorFate(s);
    }
  }

  lemma {:induction false} NothingElse(c: Conn)
    requires Inv(c) && c.dns.jobs > 0
    ensures c.dns.jobs == 1 && c.dns.resolving == 0
  {
    NotifiedInConnecting(c);
  }

  lemma {:induction false} ReadyToStart(c: Conn, verdicts: seq<Attempt>, fd: int)
    requires Inv(c) && c.dns.jobs > 0 && |verdicts| == |c.dns.addrInfo| && SocketIs(c.dns.addrInfo, verdicts, fd)
    requires ConnectTo(c.dns.addrInfo, verdicts).result == CONNECTION_SUCCESS
    ensures var d := c.(dns := c.dns.(jobs := c.dns.jobs - 1, notified := c.dns.notified + 1));
      Started(d.(flow := d.flow.(originFd := fd), dns := d.dns.(addrInfo := ConnectTo(c.dns.addrInfo, verdicts).kept)))
  {
    NotifiedInConnecting(c);
    TriedIsPrefix(c.dns.addrInfo, verdicts);
    hide Inv, ConnectTo, InConnecting, AwaitingResolver, History, Visits, Authorized, Asked, Preface;
    assert c.flow.io.toClient + [] == c.flow.io.toClient;
  }

  lemma {:induction false} NoAddressFate(c: Conn, reply: seq<byte>)
    requires c.flow.live && c.stm.current == Some(CONNECTING) && COPY !in c.stm.visits
    ensures var d := Jump(Refuse(c, reply), CONNECTION_REQ); d.flow.live && d.isError && COPY !in d.stm.visits
    ensures Refuse(c, reply).flow.live
  {
    hide Put;
    G.PutLives(c.flow, reply);
    JumpRecords(c.stm, CONNECTION_REQ);
  }

  lemma {:induction false} ErrorFate(c: Conn)
    requires c.flow.live && c.stm.current == Some(CONNECTING) && COPY !in c.stm.visits && !c.isError
    ensures var d := Jump(c, ERROR); !d.flow.live && !d.isError && COPY !in d.stm.visits
  {
    JumpRecords(c.stm, ERROR);
  }

  lemma {:induction false} WatchedFate(c: Conn)
    requires c.flow.live && c.stm.current == Some(CONNECTING) && COPY !in c.stm.visits && !c.isError
    requires c.flow.origin == Unregistered && c.dns.resolving == 0 && c.dns.jobs == 0
    ensures var d := c.(flow := RegisterOrigin(SetClient(c.flow, NOOP), ConnectingHandler, WRITE));
      && d.flow.live
      && (if !ValidFd(c.flow.originFd) then
            !OriginRegistered(d.flow) &&
            var e := Jump(d, ERROR); !e.flow.live && !e.isError && COPY !in e.stm.visits
          else OriginRegistered(d.flow) && Attempting(d) && Jump(d, CONNECTING) == d)
  {
    var d := c.(flow := RegisterOrigin(SetClient(c.flow, NOOP), ConnectingHandler, WRITE));
    ErrorFate(d);
  }

  lemma {:induction false} StartIs(c: Conn, reply: seq<byte>, r: Send)
    ensures Start(c, reply, r) == ClientWrite(DropIn(c.(flow := SetClient(PutReply(c.flow, reply), WRITE))), r)
  {
  }

  lemma {:induction false} LostFate(c: Conn, reply: seq<byte>)
    requires Started(c) && ReplySized(reply) && c.flow.origin == Unregistered && COPY !in c.stm.visits
    ensures var s := Start(c, reply, SendFailed);
      !s.flow.live && !Jump(Resume(s), COPY).flow.live && !Jump(Resume(s), COPY).isError && COPY !in Jump(Resume(s), COPY).stm.visits
  {
    StartFails(c, reply);
    hide History, Accounts, Authorized, Asked, Preface, Inv;
    assert [] + reply == reply;
  }

  lemma {:induction false} AtOnceFate(c: Conn, reply: seq<byte>, r: Send)
    requires Started(c) && c.stm.current == Some(CONNECTING) && c.flow.origin == Unregistered && ReplySized(reply)
    requires COPY !in c.stm.visits
    ensures var s := Start(c, reply, r);
      var d := Jump(Resume(s), COPY);
      if r == SendFailed then !d.flow.live && !d.isError && COPY !in d.stm.visits
      else COPY in d.stm.visits && d.flow.live && d.stm.current == Some(COPY)
  {
    hide Started, Start, ClientWrite, PutReply, Jump, Resume;
    if r == SendFailed {
      LostFate(c, reply);
    } else {
      StartKeepsLive(c, reply, r);
      ResumeStays(Start(c, reply, r));
      ToCopyLives(Start(c, reply, r));
      StartThenJump(c, reply, r);
      ToCopyVisits(c);
      var d := Jump(c, COPY);
      StartIs(d, reply, r);
      G.CopyWriteStays(DropIn(d.(flow := SetClient(PutReply(d.flow, reply), WRITE))), r);
    }
  }

  lemma {:induction false} ToCopyLives(c: Conn)
    requires c.flow.live
    ensures Jump(c, COPY).flow.live
  {
    hide Jumped, CanDepart;
  }

  lemma {:induction false} StartKeepsLive(c: Conn, reply: seq<byte>, r: Send)
    requires Started(c) && c.stm.current == Some(CONNECTING) && ReplySized(reply) && r != SendFailed
    ensures Start(c, reply, r).flow.live
  {
    AM.StartLives(c, reply, r);
  }

  lemma {:induction false} ToCopyVisits(c: Conn)
    requires Started(c) && c.stm.current == Some(CONNECTING) && c.flow.origin == Unregistered
    ensures var d := Jump(c, COPY); COPY in d.stm.visits && d.stm.current == Some(COPY)
  {
    JumpToCopy(c);
    hide Started, Jump, Jumped;
    JumpRecords(c.stm, COPY);
    assert Jumped(c.stm, COPY).visits[|c.stm.visits|] == COPY;
  }

  lemma {:induction false} JumpQueuesNothing(c: Conn, next: State)
    ensures Jump(c, next).flow.io.queued == c.flow.io.queued
  {
    hide Jumped, CanDepart;
  }

  lemma {:induction false} WriteQueuesNothing(c: Conn, r: Send)
    ensures ClientWrite(c, r).flow.io.queued == c.flow.io.queued
  {
    hide Jump, WriteToClient, Discarded;
    WriteKeepsQueued(c.flow, r);
    var d := c.(flow := WriteToClient(c.flow, r));
    if d.stm.current.Some? && (d.stm.current.value == HANDSHAKE ==> d.stm.hs.Some?) {
      JumpQueuesNothing(d, AfterWrite(d));
    }
  }

  lemma {:induction false} WriteKeepsQueued(f: Flow, r: Send)
    ensures WriteToClient(f, r).io.queued == f.io.queued
  {
  }

  lemma {:induction false} StartQueues(c: Conn, reply: seq<byte>, r: Send)
    ensures Start(c, reply, r).flow.io.queued == c.flow.io.queued + reply
  {
    hide ClientWrite;
    WriteQueuesNothing(DropIn(c.(flow := SetClient(PutReply(c.flow, reply), WRITE))), r);
  }

  lemma {:induction false} OnBlockQueues(c: Conn, verdicts: seq<Attempt>, fd: int, reply: seq<byte>, r: Send)
    requires |verdicts| == |c.dns.addrInfo|
    ensures var e := ConnectingOnBlock(c, verdicts, fd, reply, r).0;
      e.flow.io.queued == c.flow.io.queued +
        if c.dns.addrInfo == [] || ConnectTo(c.dns.addrInfo, verdicts).result == CONNECTION_SUCCESS then reply else []
  {
    hide ConnectTo, Start;
    if c.dns.addrInfo != [] {
      var o := ConnectTo(c.dns.addrInfo, verdicts);
      StartQueues(c.(flow := c.flow.(originFd := fd), dns := c.dns.(addrInfo := o.kept)), reply, r);
    }
  }

  /** A connection ends without any reply to its request if and only if there were addresses, and
      either all of them were refused at once, or there was no socket for one, or the socket of the first
      attempt in progress is past the selector's limit. */
  lemma {:induction false} UnansweredExactly(c: Conn, verdicts: seq<Attempt>, fd: int, reply: seq<byte>, r: Send)
    requires Inv(c) && Enabled(c, BlockNotified(verdicts, fd, reply, r))
    ensures var d := Block(c, verdicts, fd, reply, r);
      var result := ConnectTo(c.dns.addrInfo, verdicts).result;
      !d.flow.live && d.flow.io.queued == c.flow.io.queued <==>
        c.dns.addrInfo != [] && (result == CONNECTION_FAILED || (result == CONNECTION_IN_PROGRESS && !ValidFd(fd)))
  {
    hide Inv, ConnectingOnBlock, Jump, ConnectTo;
    BlockFate(c, verdicts, fd, reply, r);
    assert reply != [];
    AM.Notification(c);
    var d := c.(dns := c.dns.(jobs := c.dns.jobs - 1, notified := c.dns.notified + 1));
    OnBlockQueues(d, verdicts, fd, reply, r);
    var (e, next) := ConnectingOnBlock(d, verdicts, fd, reply, r);
    JumpQueuesNothing(Resume(e), next);
  }

  /** A connection whose resolution is under way. */
  predicate Resolving(c: Conn) {
    c.flow.live && c.stm.current == Some(CONNECTING) && !c.isError && c.dns.resolving + c.dns.jobs == 1
  }

  lemma {:induction false} OnlyTheResolution(c: Conn, e: Event)
    requires Inv(c) && Resolving(c) && Enabled(c, e)
    ensures e.ResolverDone? || e.BlockNotified?
  {
    hide History, Accounts, Authorized, Asked, Preface;
  }

  lemma {:induction false} AfterBlock(c: Conn, es: seq<Event>)
    requires Inv(c) && IsRun(c, es)
    ensures COPY in c.stm.visits && (c.flow.live ==> c.stm.current == Some(COPY)) ==> FateIn(Run(c, es)) == Served
    ensures COPY !in c.stm.visits && c.flow.live && c.isError ==> FateIn(Run(c, es)) == TurnedDown
    ensures COPY !in c.stm.visits && !c.flow.live && !c.isError ==> FateIn(Run(c, es)) == Unanswered
    ensures Attempting(c) ==> FateIn(Run(c, es)) == AttemptFate(c.dns.addrInfo, es)
  {
    hide Inv, Run, IsRun, AttemptFate;
    if COPY in c.stm.visits && (c.flow.live ==> c.stm.current == Some(COPY)) {
      ServedStays(c, es);
    }
    if COPY !in c.stm.visits && c.flow.live && c.isError {
      TurnedDownStays(c, es);
    }
    if !c.flow.live {
      G.EndedRun(c, es);
    }
    if Attempting(c) {
      AttemptIsDecided(c, es);
    }
  }

  /** In every run from CONNECTING on, what becomes of the request is what the verdicts of the connects
      say: it is relayed if the first attempt that is not refused connects, at once or later; it is turned
      down, with a reply, if there was no address, or if an attempt in progress fails and no further one
      is in progress; and it ends unanswered if every address was refused at once. */
  lemma {:induction false} FateIsDecided(c: Conn, es: seq<Event>)
    requires Inv(c) && Resolving(c) && IsRun(c, es)
    ensures FateIn(Run(c, es)) == FateOf(c.dns.addrInfo, es)
    decreases |es|
  {
    NotYetServed(c);
    hide Inv, Block, WholeReply, ConnectTo;
    if es != [] {
      OnlyTheResolution(c, es[0]);
      StepKeeps(c, es[0]);
      var d := Step(c, es[0]);
      if es[0].ResolverDone? {
        FateIsDecided(d, es[1..]);
      } else {
        BlockFate(c, es[0].verdicts, es[0].fd, es[0].reply, es[0].send);
        AfterBlock(d, es[1..]);
      }
    }
  }
}
