// What the two ends see of a relay, from the results of the system calls alone: two queues of bytes, with no
// interests, descriptors or history. The relay of Relay.dfy is shown to be this, over every run.
module Pipe {
  import opened Bytes
  import opened Relay

  /** `owed` is for the client and `upload` for the origin; neither has been sent yet. */
  datatype Pipe = Pipe(over: bool, originOpen: bool, toClient: seq<byte>, owed: seq<byte>, toOrigin: seq<byte>,
                       upload: seq<byte>)

  /** Both sockets are closed, whatever is still unsent. */
  function Finished(p: Pipe): Pipe { p.(over := true, originOpen := false) }

  /** How many of the bytes offered a send moves. */
  function Moved(n: nat, offered: seq<byte>): nat { if n < |offered| then n else |offered| }

  /** A send to the client of all that is owed. */
  function ToClient(p: Pipe, r: Send): Pipe {
    if p.owed == [] then p
    else match r
      case Sent(n) => p.(toClient := p.toClient + p.owed[..Moved(n, p.owed)], owed := p.owed[Moved(n, p.owed)..])
      case SendAgain => p
      case SendFailed => Finished(p)
  }

  /** A send to the origin of all that is pending; one that moves nothing means that the origin is gone. */
  function ToOrigin(p: Pipe, r: Send): Pipe {
    if p.upload == [] then p
    else match r
      case Sent(n) =>
        if n == 0 then Finished(p)
        else p.(toOrigin := p.toOrigin + p.upload[..Moved(n, p.upload)], upload := p.upload[Moved(n, p.upload)..])
      case SendAgain => p
      case SendFailed => Finished(p)
  }

  /** With room for `cap` bytes in each direction, and none left, nothing is received. The end of the
      client's stream ends the relay; that of the origin's does not. */
  function Step(p: Pipe, cap: nat, e: IoEvent): Pipe {
    if p.over then p
    else match e
      case ClientWritable(send) => ToClient(p, send)
      case OriginWritable(send) => ToOrigin(p, send)
      case ClientReadable(recv, send) =>
        if |p.upload| >= cap then p
        else (match recv
              case Received(bytes) =>
                var q := p.(upload := p.upload + bytes);
                if p.originOpen then ToOrigin(q, send) else Finished(q)
              case Closed => Finished(p)
              case RecvAgain => p
              case RecvFailed => Finished(p))
      case OriginReadable(recv, send) =>
        if |p.owed| >= cap then p
        else (match recv
              case Received(bytes) => ToClient(p.(owed := p.owed + bytes), send)
              case Closed => p.(originOpen := false)
              case RecvAgain => p
              case RecvFailed => Finished(p))
  }

  function Run(p: Pipe, cap: nat, es: seq<IoEvent>): Pipe
    decreases |es|
  {
    if es == [] then p else Run(Step(p, cap, es[0]), cap, es[1..])
  }

  // ---- The relay is this ----

  function PipeOf(f: Flow): Pipe {
    Pipe(!f.live, f.origin.Registered?, f.io.toClient, f.outB, f.io.toOrigin, f.inB)
  }

  lemma {:induction false} SendToClientIs(f: Flow, r: Send)
    requires f.live && (f.origin.Registered? ==> f.origin.fd == f.originFd > 0)
    ensures PipeOf(WriteToClient(f, r)) == ToClient(PipeOf(f), r)
  {
    hide Rearmed;
    if SomeSent(r) && f.outB != [] {
      var n := Relay.Min(r.n, |f.outB|);
      RearmedIs(Shipped(f, n), f.originFd > 0 && |f.outB| >= f.cap);
    }
  }

  lemma {:induction false} RearmedIs(f: Flow, full: bool)
    ensures PipeOf(Rearmed(f, full)) == PipeOf(f)
  {
  }

  lemma {:induction false} SendToOriginIs(f: Flow, r: Send)
    requires f.live && (f.origin.Registered? ==> f.origin.fd == f.originFd > 0)
    ensures PipeOf(WriteToOrigin(f, r)) == ToOrigin(PipeOf(f), r)
  {
  }

  /** Every event of the relay does to what the two ends see exactly what it does to the pipe. */
  lemma {:induction false} IoStepIsPipe(f: Flow, e: IoEvent)
    requires RelayInv(f) && IoEnabled(f, e)
    ensures PipeOf(IoStep(f, e)) == Step(PipeOf(f), f.cap, e)
  {
    hide WriteToClient, WriteToOrigin, HalfDuplex, InOrder, Drained;
    match e
    case ClientWritable(send) => SendToClientIs(f, send);
    case OriginWritable(send) => SendToOriginIs(f, send);
    case ClientReadable(recv, send) =>
      if recv.Received? {
        SendToOriginIs(SetOrigin(FromClient(f, recv.bytes).(io := f.io.(fromClient := f.io.fromClient + recv.bytes)), WRITE), send);
      }
    case OriginReadable(recv, send) =>
      if recv.Received? {
        SendToClientIs(SetClient(FromOrigin(f, recv.bytes), WRITE), send);
      }
  }

  /** Over any run, with any partial reads, partial sends and refusals. */
  lemma {:induction false} IoRunIsPipe(f: Flow, es: seq<IoEvent>)
    requires RelayInv(f) && IsIoRun(f, es)
    ensures PipeOf(IoRun(f, es)) == Run(PipeOf(f), f.cap, es)
    decreases |es|
  {
    if es != [] {
      hide RelayInv, IoStep, IoEnabled, Step;
      IoStepIsPipe(f, es[0]);
      IoStepKeeps(f, es[0]);
      IoRunIsPipe(IoStep(f, es[0]), es[1..]);
    }
  }

  // ---- What goes in comes out ----

  /** The bytes that an event brings from the origin. */
  function FromOriginBy(p: Pipe, cap: nat, e: IoEvent): seq<byte> { if p.over then [] else OriginChunk(|p.owed|, cap, e) }

  /** The bytes that an event brings from the client. */
  function FromClientBy(p: Pipe, cap: nat, e: IoEvent): seq<byte> { if p.over then [] else ClientChunk(|p.upload|, cap, e) }

  /** Everything that the origin sends during a run. */
  function OriginBytes(p: Pipe, cap: nat, es: seq<IoEvent>): seq<byte>
    decreases |es|
  {
    if es == [] then [] else FromOriginBy(p, cap, es[0]) + OriginBytes(Step(p, cap, es[0]), cap, es[1..])
  }

  /** Everything that the client sends during a run. */
  function ClientBytes(p: Pipe, cap: nat, es: seq<IoEvent>): seq<byte>
    decreases |es|
  {
    if es == [] then [] else FromClientBy(p, cap, es[0]) + ClientBytes(Step(p, cap, es[0]), cap, es[1..])
  }

  lemma {:induction false} StepConserves(p: Pipe, cap: nat, e: IoEvent)
    ensures var q := Step(p, cap, e);
      && q.toClient + q.owed == p.toClient + p.owed + FromOriginBy(p, cap, e)
      && q.toOrigin + q.upload == p.toOrigin + p.upload + FromClientBy(p, cap, e)
  {
    hide ToClient, ToOrigin;
    SendConserves(p, e.send);
    match e
    case ClientReadable(Received(bytes), send) =>
      SendConserves(p.(upload := p.upload + bytes), send);
      assert p.toOrigin + (p.upload + bytes) == p.toOrigin + p.upload + bytes;
    case OriginReadable(Received(bytes), send) =>
      SendConserves(p.(owed := p.owed + bytes), send);
      assert p.toClient + (p.owed + bytes) == p.toClient + p.owed + bytes;
    case _ =>
  }

  lemma {:induction false} SendConserves(p: Pipe, r: Send)
    ensures ToClient(p, r).toClient + ToClient(p, r).owed == p.toClient + p.owed
    ensures ToClient(p, r).toOrigin == p.toOrigin && ToClient(p, r).upload == p.upload
    ensures ToOrigin(p, r).toOrigin + ToOrigin(p, r).upload == p.toOrigin + p.upload
    ensures ToOrigin(p, r).toClient == p.toClient && ToOrigin(p, r).owed == p.owed
  {
  }

  /** In both directions, what has been sent on and what is still pending are what there was and what
      came in, in order. */
  lemma {:induction false} Conserves(p: Pipe, cap: nat, es: seq<IoEvent>)
    ensures var q := Run(p, cap, es);
      && q.toClient + q.owed == p.toClient + p.owed + OriginBytes(p, cap, es)
      && q.toOrigin + q.upload == p.toOrigin + p.upload + ClientBytes(p, cap, es)
    decreases |es|
  {
    if es != [] {
      hide Step;
      StepConserves(p, cap, es[0]);
      Conserves(Step(p, cap, es[0]), cap, es[1..]);
    }
  }

  /** As long as the client of a new relay sends nothing, nothing is received from the origin, however much it
      has sent: every event is the client's. */
  lemma {:induction false} ClientSpeaksFirst(f: Flow, es: seq<IoEvent>)
    requires RelayInv(f) && IsIoRun(f, es) && f.io.fromClient == [] && ClientBytes(PipeOf(f), f.cap, es) == []
    ensures OriginBytes(PipeOf(f), f.cap, es) == [] && IoRun(f, es).io.fromClient == []
    ensures forall e | e in es :: e.ClientReadable? || e.ClientWritable?
    decreases |es|
  {
    if es != [] {
      OriginWaits(f, es[0]);
      LiveIsNotOver(f, es[0]);
      hide RelayInv, IoStep, IoEnabled, Step;
      IoStepIsPipe(f, es[0]);
      IoStepKeeps(f, es[0]);
      ClientSpeaksFirst(IoStep(f, es[0]), es[1..]);
      assert forall e | e in es :: e == es[0] || e in es[1..];
    }
  }

  lemma {:induction false} LiveIsNotOver(f: Flow, e: IoEvent)
    requires IoEnabled(f, e)
    ensures !PipeOf(f).over
  {
  }

  // ---- How it ends ----

  /** The origin has sent its last byte. */
  predicate IsOriginEnd(p: Pipe, cap: nat, e: IoEvent) {
    e.OriginReadable? && e.recv == Closed && !p.over && |p.owed| < cap
  }

  /** A send to the client fails. */
  predicate IsClientFailure(p: Pipe, cap: nat, e: IoEvent) {
    && e.send == SendFailed && !p.over
    && (e.ClientWritable? || (e.OriginReadable? && e.recv.Received? && |p.owed| < cap))
  }

  predicate OriginEnds(p: Pipe, cap: nat, es: seq<IoEvent>)
    decreases |es|
  {
    es != [] && (IsOriginEnd(p, cap, es[0]) || OriginEnds(Step(p, cap, es[0]), cap, es[1..]))
  }

  predicate ClientFails(p: Pipe, cap: nat, es: seq<IoEvent>)
    decreases |es|
  {
    es != [] && (IsClientFailure(p, cap, es[0]) || ClientFails(Step(p, cap, es[0]), cap, es[1..]))
  }

  /** The history says what the events were. */
  lemma {:induction false} StepRecords(f: Flow, e: IoEvent)
    requires RelayInv(f) && IoEnabled(f, e)
    ensures var g := IoStep(f, e);
      && (g.io.originClosed <==> f.io.originClosed || IsOriginEnd(PipeOf(f), f.cap, e))
      && (g.io.clientLost <==> f.io.clientLost || IsClientFailure(PipeOf(f), f.cap, e))
  {
    hide WriteToClient, WriteToOrigin;
    ToClientRecords(f, e.send);
    ToOriginRecords(f, e.send);
    match e
    case ClientReadable(Received(bytes), send) =>
      ToOriginRecords(SetOrigin(FromClient(f, bytes).(io := f.io.(fromClient := f.io.fromClient + bytes)), WRITE), send);
    case OriginReadable(Received(bytes), send) => ToClientRecords(SetClient(FromOrigin(f, bytes), WRITE), send);
    case _ =>
  }

  lemma {:induction false} ToClientRecords(f: Flow, r: Send)
    ensures var g := WriteToClient(f, r);
      && g.io.originClosed == f.io.originClosed
      && (g.io.clientLost <==> f.io.clientLost || (f.outB != [] && r == SendFailed))
  {
  }

  lemma {:induction false} ToOriginRecords(f: Flow, r: Send)
    ensures var g := WriteToOrigin(f, r); g.io.originClosed == f.io.originClosed && g.io.clientLost == f.io.clientLost
  {
  }

  lemma {:induction false} RunRecords(f: Flow, es: seq<IoEvent>)
    requires RelayInv(f) && IsIoRun(f, es)
    ensures var g := IoRun(f, es);
      && (g.io.originClosed <==> f.io.originClosed || OriginEnds(PipeOf(f), f.cap, es))
      && (g.io.clientLost <==> f.io.clientLost || ClientFails(PipeOf(f), f.cap, es))
    decreases |es|
  {
    if es != [] {
      hide RelayInv, IoStep, IoEnabled, Step, IsOriginEnd, IsClientFailure;
      StepRecords(f, es[0]);
      IoStepIsPipe(f, es[0]);
      IoStepKeeps(f, es[0]);
      RunRecords(IoStep(f, es[0]), es[1..]);
    }
  }

  /** The end of the origin's stream, on a relay with room for more: nothing is lost, and the client's side
      goes on as it was. */
  lemma {:induction false} OriginEofExactly(f: Flow, r: Send)
    requires RelayInv(f) && IoEnabled(f, OriginReadable(Closed, r)) && |f.outB| < f.cap
    ensures var g := IoStep(f, OriginReadable(Closed, r));
      && g.live && g.origin == Unregistered && g.client == f.client
      && g.outB == f.outB && g.inB == f.inB && g.io.toClient == f.io.toClient && g.io.toOrigin == f.io.toOrigin
  {
  }

  /** A receive that would block changes nothing, and one that fails ends the relay. */
  lemma {:induction false} ReceiveExactly(f: Flow, e: IoEvent)
    requires RelayInv(f) && IoEnabled(f, e) && (e.ClientReadable? || e.OriginReadable?)
    requires if e.ClientReadable? then |f.inB| < f.cap else |f.outB| < f.cap
    ensures e.recv == RecvAgain ==> IoStep(f, e) == f
    ensures e.recv == RecvFailed ==> !IoStep(f, e).live && IoStep(f, e).outB == f.outB && IoStep(f, e).inB == f.inB
  {
  }

  /** With the origin gone, only a failed send to the client can cost the client anything. */
  lemma {:induction false} StepDrains(f: Flow, e: IoEvent)
    requires RelayInv(f) && IoEnabled(f, e) && f.io.originClosed && !IsClientFailure(PipeOf(f), f.cap, e)
    ensures !IoStep(f, e).live ==> IoStep(f, e).outB == []
  {
  }

  lemma {:induction false} EndsDrained(f: Flow, es: seq<IoEvent>)
    requires RelayInv(f) && IsIoRun(f, es) && f.live
    requires (f.io.originClosed || OriginEnds(PipeOf(f), f.cap, es)) && !ClientFails(PipeOf(f), f.cap, es)
    ensures !IoRun(f, es).live ==> IoRun(f, es).outB == []
    decreases |es|
  {
    if es != [] {
      var e, g := es[0], IoStep(f, es[0]);
      if f.io.originClosed {
        StepDrains(f, e);
      } else if IsOriginEnd(PipeOf(f), f.cap, e) {
        OriginEofExactly(f, e.send);
      }
      hide RelayInv, IoStep, Step, IsOriginEnd, IsClientFailure;
      StepRecords(f, e);
      IoStepIsPipe(f, e);
      IoStepKeeps(f, e);
      if g.live {
        EndsDrained(g, es[1..]);
      } else {
        Nothing(g, es[1..]);
      }
    }
  }

  lemma {:induction false} Nothing(f: Flow, es: seq<IoEvent>)
    requires !f.live
    ensures IsIoRun(f, es) ==> es == []
    ensures !OriginEnds(PipeOf(f), f.cap, es)
    decreases |es|
  {
    if es != [] {
      Nothing(f, es[1..]);
    }
  }

  /** In every run in which the origin finishes and no send to the client fails, a relay that has ended has
      sent the client all that it owed at the start and all that the origin sent. */
  lemma {:induction false} DrainsAfterOrigin(f: Flow, es: seq<IoEvent>)
    requires RelayInv(f) && IsIoRun(f, es)
    requires OriginEnds(PipeOf(f), f.cap, es) && !ClientFails(PipeOf(f), f.cap, es)
    ensures var g := IoRun(f, es);
      !g.live ==> g.outB == [] && g.io.toClient == f.io.toClient + f.outB + OriginBytes(PipeOf(f), f.cap, es)
  {
    var g := IoRun(f, es);
    if !f.live {
      Nothing(f, es);
    }
    EndsDrained(f, es);
    IoRunIsPipe(f, es);
    Conserves(PipeOf(f), f.cap, es);
    assert g.io.toClient + [] == g.io.toClient;
  }
}
