// When the server can begin another turn: `pselect` fails as soon as a slot is for a closed descriptor,
// and then the server stops (src/server/utils/selector.c:530-570, src/server/server.c:62-69). A retry leaves
// such a slot behind; another connection that gets its number may remove it.
module Turns {
  import opened Bytes
  import opened AddressFallback
  import opened StateMachine
  import opened Relay
  import opened Invariant
  import opened Resolver
  import opened Descriptors
  import Socks5
  import Retries
  import Outcomes

  // ---- What the events say ----

  /** The numbers whose slots have been left behind, and whether a connection keeps one of them. */
  datatype Leftovers = Leftovers(numbers: set<int>, crossed: bool)

  /** A connection got a number, perhaps keeps it, and perhaps leaves another behind. */
  function Counted(t: Leftovers, number: Option<int>, kept: bool, left: Option<int>): Leftovers {
    Leftovers(t.numbers - Number(number) + Number(left), t.crossed || (number.Some? && number.value in t.numbers && kept))
  }

  /** The number that a retry leaves behind, unless it gets it again. */
  function LeftBy(c: Conn, e: Socks5.Event): Option<int> {
    if e.ConnectReady? && e.failed && c.dns.addrInfo != [] && e.fd != c.flow.originFd then Some(c.flow.originFd) else None
  }

  /** A retry keeps the number if another attempt is in progress. */
  predicate RetryGoesOn(c: Conn, e: Socks5.Event)
    requires e.ConnectReady? ==> |e.verdicts| == |c.dns.addrInfo|
  {
    e.ConnectReady? && e.failed && ConnectTo(c.dns.addrInfo, e.verdicts).result == CONNECTION_IN_PROGRESS
  }

  /** A notification keeps a number whose slot is used if it connects at once and the reply can be sent. */
  predicate StartsAtOnce(c: Conn, a: Answer)
    requires |a.verdicts| == |c.dns.addrInfo|
  {
    ConnectTo(c.dns.addrInfo, a.verdicts).result == CONNECTION_SUCCESS && a.send != SendFailed
  }

  function CountedJobs(t: Leftovers, w: World, answers: seq<Answer>): Leftovers
    requires CanDeliver(w, answers)
    decreases |answers|
  {
    if Done(w) then t
    else
      var fd, a := w.jobs[0], answers[0];
      var u := if fd !in w.conns then t
               else Counted(t, Obtained(w.conns[fd], AsEvent(a)), StartsAtOnce(w.conns[fd], a), None);
      CountedJobs(u, DeliverOne(w, a), answers[1..])
  }

  function CountedEvent(t: Leftovers, w: World, e: Event): Leftovers
    requires Enabled(w, e)
  {
    match e
    case Local(a, event) =>
      var c := w.conns[a]; Counted(t, Obtained(c, event), RetryGoesOn(c, event), LeftBy(c, event))
    case Deliver(answers) => CountedJobs(t, w, answers)
    case _ => t
  }

  function CountedRun(t: Leftovers, w: World, es: seq<Event>): Leftovers
    requires IsRun(w, es)
    decreases |es|
  {
    if es == [] then t else CountedRun(CountedEvent(t, w, es[0]), Step(w, es[0]), es[1..])
  }

  // ---- What the connections have ----

  function Leftover(c: Conn): Option<int> {
    if c.flow.live && !Socks5.Pollable(c.flow) then Some(c.flow.origin.fd) else None
  }

  ghost predicate Agrees(t: Leftovers, w: World) {
    w.crossed == t.crossed && (!w.crossed ==> forall n :: n in t.numbers <==> IsLeft(w.conns, n))
  }

  lemma {:induction false} UpdatedAgrees(w: World, a: int, d: Conn, number: Option<int>, kept: bool, t: Leftovers)
    requires Agrees(t, w) && !w.crossed && a in w.conns && Socks5.Pollable(w.conns[a].flow)
    requires number.Some? && number.value in t.numbers ==> (kept <==> d.flow.live && d.flow.originFd == number.value)
    requires number.Some? ==> Leftover(d) != number
    ensures Agrees(Counted(t, number, kept, Leftover(d)), Updated(w, a, d, number))
  {
    var v := Updated(w, a, d, number);
    var u := Counted(t, number, kept, Leftover(d));
    if !v.crossed {
      forall n
        ensures n in u.numbers <==> IsLeft(v.conns, n)
      {
        if b :| b in v.conns && Left(v.conns[b], n) {
          if b != a {
            assert Left(w.conns[b], n);
          }
        }
        if n in u.numbers && Leftover(d) != Some(n) {
          var b :| b in w.conns && Left(w.conns[b], n);
          assert Left(v.conns[b], n);
        } else if n in u.numbers {
          assert Left(v.conns[a], n);
        }
      }
    }
  }

  // ---- Retries ----

  lemma {:induction false} RetryLeaves(c: Conn, e: Socks5.Event)
    requires Inv(c) && Socks5.Enabled(c, e) && Socks5.WholeReply(c, e) && !e.BlockNotified?
    ensures var d := Socks5.Step(c, e);
      && Socks5.Pollable(c.flow) && Leftover(d) == LeftBy(c, e)
      && (Obtained(c, e).Some? ==> Leftover(d) != Obtained(c, e))
      && (Obtained(c, e).Some? ==> (RetryGoesOn(c, e) <==> d.flow.live && d.flow.originFd == Obtained(c, e).value))
  {
    hide Inv, Socks5.React, Socks5.ConnectDone, Socks5.WholeReply;
    ResolvingIsPollable(c, e);
    Retries.StepIsPollable(c, e);
    StepKeeps(c, e);
    var d := Socks5.Step(c, e);
    if !Socks5.Pollable(d.flow) {
      Retries.OrphanIsStuck(d, e);
    }
    if e.ConnectReady? && e.failed {
      RetryKeepsSlot(c, e.verdicts, e.fd, e.reply, e.send);
      RetryKeepsNumber(c, e.verdicts, e.fd, e.reply, e.send);
    }
  }

  lemma {:induction false} ResolvingIsPollable(c: Conn, e: Socks5.Event)
    requires Inv(c) && Socks5.Enabled(c, e)
    ensures Socks5.Pollable(c.flow)
  {
    if !Socks5.Pollable(c.flow) {
      Retries.OrphanIsStuck(c, e);
    }
  }

  lemma {:induction false} RetryKeepsNumber(c: Conn, verdicts: seq<Attempt>, fd: int, reply: seq<byte>, r: Send)
    requires |verdicts| == |c.dns.addrInfo|
    ensures var d := Socks5.ConnectDone(c, true, verdicts, fd, reply, r);
      && d.flow.live == c.flow.live
      && d.flow.originFd == if ConnectTo(c.dns.addrInfo, verdicts).result == CONNECTION_IN_PROGRESS then fd else -1
  {
    hide ConnectTo, Put;
    var f := ReleaseOrigin(Socks5.Retried(c, verdicts, fd).flow).(originFd := -1);
    Retries.PutKeepsOrigin(f, reply);
    Retries.NoAddresses(c.dns.addrInfo, verdicts);
    PutKeepsLife(f, reply);
  }

  lemma {:induction false} PutKeepsLife(f: Flow, bytes: seq<byte>)
    ensures Put(f, bytes).live == f.live
  {
  }

  // ---- Notifications ----

  lemma {:induction false} NotificationLeaves(w: World, fd: int, a: Answer)
    requires fd in w.conns && Fine(w.conns[fd]) && w.conns[fd].dns.jobs > 0 && Plausible(w, fd, a)
    ensures |a.verdicts| == |w.conns[fd].dns.addrInfo| && Noticed(w, w.conns[fd], a).verdicts == a.verdicts
    ensures var c := w.conns[fd];
      var n := Noticed(w, c, a);
      var d := Socks5.Block(c, n.verdicts, n.fd, n.reply, n.send);
      && Socks5.Pollable(c.flow) && Leftover(d) == None
      && (Obtained(c, AsEvent(a)).Some? && IsLeft(w.conns, a.fd) ==>
            (StartsAtOnce(c, a) <==> d.flow.live && d.flow.originFd == a.fd))
  {
    var c := w.conns[fd];
    NoticedIsEnabled(w, fd, a);
    QueuedIsServing(c);
    var n := Noticed(w, c, a);
    hide Inv, Fine, Socks5.Block, ConnectTo;
    Retries.BlockIsPollable(c, n.verdicts, n.fd, n.reply, n.send);
    Outcomes.BlockFate(c, n.verdicts, n.fd, n.reply, n.send);
    var d := Socks5.Block(c, n.verdicts, n.fd, n.reply, n.send);
    StepKeeps(c, AsEvent(n));
    if d.flow.live && d.stm.current == Some(COPY) {
      CopyHasSocket(d);
      NotifiedHasNone(c);
    }
  }

  lemma {:induction false} CopyHasSocket(c: Conn)
    requires Inv(c) && c.flow.live && c.stm.current == Some(COPY)
    ensures c.flow.originFd > 0
  {
  }

  lemma {:induction false} NotifiedHasNone(c: Conn)
    requires Inv(c) && c.dns.jobs > 0
    ensures c.flow.originFd == 0
  {
    NotifiedInConnecting(c);
  }

  // ---- Every event ----

  lemma {:induction false} LocalAgrees(t: Leftovers, w: World, a: int, e: Socks5.Event)
    requires Good(w) && Agrees(t, w) && Enabled(w, Local(a, e))
    ensures Agrees(CountedEvent(t, w, Local(a, e)), Step(w, Local(a, e)))
  {
    DispatchedIsEnabled(w, a, e);
    hide Good, Inv, Socks5.Step, Socks5.Enabled, Socks5.Offered, Socks5.WholeReply, Obtained, CanGet, Updated, Leftover, LeftBy,
      RetryGoesOn;
    var c := w.conns[a];
    RetryLeaves(c, e);
    var d := Socks5.Step(c, e);
    var u := Unready(Queued(w, a, c, d), Served(a, c, e));
    UpdatedAgrees(u, a, d, Obtained(c, e), RetryGoesOn(c, e), t);
  }

  lemma {:induction false} JobAgrees(t: Leftovers, w: World, a: Answer)
    requires WorldInv(w) && Agrees(t, w) && !w.crossed && w.jobs != [] && Plausible(w, w.jobs[0], a)
    ensures w.jobs[0] in w.conns && |a.verdicts| == |w.conns[w.jobs[0]].dns.addrInfo|
    ensures var c := w.conns[w.jobs[0]];
      Agrees(Counted(t, Obtained(c, AsEvent(a)), StartsAtOnce(c, a), None), DeliverOne(w, a))
  {
    hide Inv, CanGet, Noticed, Updated, Leftover, Socks5.Block, ConnectTo;
    DeliverOneKeeps(w, a);
    var fd := w.jobs[0];
    var c := w.conns[fd];
    NotificationLeaves(w, fd, a);
    var n := Noticed(w, c, a);
    var d := Socks5.Block(c, n.verdicts, n.fd, n.reply, n.send);
    UpdatedAgrees(w.(jobs := w.jobs[1..]), fd, d, Obtained(c, AsEvent(a)), StartsAtOnce(c, a), t);
    hide WorldInv, Plausible, Fine;
  }

  lemma {:induction false} JobsAgree(t: Leftovers, w: World, answers: seq<Answer>)
    requires WorldInv(w) && Agrees(t, w) && CanDeliver(w, answers)
    ensures Agrees(CountedJobs(t, w, answers), DeliverAll(w, answers))
    decreases |answers|
  {
    hide WorldInv, Agrees, DeliverOne, Plausible, Counted, Obtained;
    if !Done(w) {
      DeliverOneKeeps(w, answers[0]);
      JobAgrees(t, w, answers[0]);
      var c := w.conns[w.jobs[0]];
      var u := Counted(t, Obtained(c, AsEvent(answers[0])), StartsAtOnce(c, answers[0]), None);
      JobsAgree(u, DeliverOne(w, answers[0]), answers[1..]);
    }
  }

  lemma {:induction false} EventAgrees(t: Leftovers, w: World, e: Event)
    requires Good(w) && Agrees(t, w) && Enabled(w, e)
    ensures Agrees(CountedEvent(t, w, e), Step(w, e))
  {
    match e
    case Poll(ready) =>
    case Accept(fd, bufferSize) => AcceptAgrees(t, w, fd, bufferSize);
    case Local(a, event) => LocalAgrees(t, w, a, event);
    case Deliver(answers) => JobsAgree(t, w, answers);
  }

  lemma {:induction false} AcceptAgrees(t: Leftovers, w: World, fd: int, bufferSize: nat)
    requires Good(w) && Agrees(t, w) && Enabled(w, Accept(fd, bufferSize))
    ensures Agrees(t, Step(w, Accept(fd, bufferSize)))
  {
    hide Good;
    var v := Step(w, Accept(fd, bufferSize));
    forall n
      ensures IsLeft(v.conns, n) <==> IsLeft(w.conns, n)
    {
      if a :| a in v.conns && Left(v.conns[a], n) {
        assert Left(w.conns[a], n);
      }
      if a :| a in w.conns && Left(w.conns[a], n) {
        assert Left(v.conns[a], n);
      }
    }
  }

  lemma {:induction false} RunAgrees(t: Leftovers, w: World, es: seq<Event>)
    requires Good(w) && Agrees(t, w) && IsRun(w, es)
    ensures Agrees(CountedRun(t, w, es), Run(w, es))
    decreases |es|
  {
    hide Good, Agrees, Enabled, Step, CountedEvent;
    if es != [] {
      StepIsGood(w, es[0]);
      EventAgrees(t, w, es[0]);
      RunAgrees(CountedEvent(t, w, es[0]), Step(w, es[0]), es[1..]);
    }
  }

  lemma {:induction false} PolledMeans(w: World)
    requires WorldInv(w)
    ensures Polled(w) <==> forall n :: !IsLeft(w.conns, n)
  {
    forall a | a in w.conns && !Socks5.Pollable(w.conns[a].flow)
      ensures IsLeft(w.conns, w.conns[a].flow.origin.fd)
    {
      UnpollableIsLive(w.conns[a]);
      assert Left(w.conns[a], w.conns[a].flow.origin.fd);
    }
    if n :| IsLeft(w.conns, n) {
      var a :| a in w.conns && Left(w.conns[a], n);
    }
  }

  lemma {:induction false} UnpollableIsLive(c: Conn)
    requires Fine(c) && !Socks5.Pollable(c.flow)
    ensures c.flow.live
  {
    if Inv(c) {
      Retries.OrphanIsStuck(c, Socks5.ResolverDone([]));
    }
  }

  const NOTHING := Leftovers({}, false)

  /** In every interleaving, from the server's start: the slots left behind are the numbers that retries
      have lost and that no other connection has got since and given back; a connection works on a socket
      whose slot is another's if and only if it got such a number and kept it; and otherwise `pselect` works
      if and only if there is no such number. */
  lemma {:induction false} PolledExactly(es: seq<Event>)
    requires IsRun(EMPTY, es)
    ensures var w, t := Run(EMPTY, es), CountedRun(NOTHING, EMPTY, es);
      && w.crossed == t.crossed
      && (!w.crossed ==> (forall n :: IsLeft(w.conns, n) <==> n in t.numbers) && (Polled(w) <==> forall n :: n !in t.numbers))
  {
    RunAgrees(NOTHING, EMPTY, es);
    RunIsGood(EMPTY, es);
    PolledMeans(Run(EMPTY, es));
  }

  // ---- Two consequences ----

  /** Does every retry of the run get the number of the socket that was closed just before? */
  predicate NumbersKept(w: World, es: seq<Event>)
    requires IsRun(w, es)
    decreases |es|
  {
    es == [] || ((es[0].Local? ==> Retries.NumberKept(w.conns[es[0].fd], es[0].event)) && NumbersKept(Step(w, es[0]), es[1..]))
  }

  lemma {:induction false} NothingCounted(number: Option<int>, kept: bool)
    ensures Counted(NOTHING, number, kept, None) == NOTHING
  {
    assert {} - Number(number) + Number(None) == {};
  }

  lemma {:induction false} NothingLeftByJobs(w: World, answers: seq<Answer>)
    requires CanDeliver(w, answers)
    ensures CountedJobs(NOTHING, w, answers) == NOTHING
    decreases |answers|
  {
    hide DeliverOne, Obtained, Counted;
    if !Done(w) {
      if w.jobs[0] in w.conns {
        var c := w.conns[w.jobs[0]];
        NothingCounted(Obtained(c, AsEvent(answers[0])), StartsAtOnce(c, answers[0]));
      }
      NothingLeftByJobs(DeliverOne(w, answers[0]), answers[1..]);
    }
  }

  lemma {:induction false} NothingLeft(w: World, es: seq<Event>)
    requires IsRun(w, es) && NumbersKept(w, es)
    ensures CountedRun(NOTHING, w, es) == NOTHING
    decreases |es|
  {
    if es != [] {
      match es[0] {
      case Deliver(answers) => NothingLeftByJobs(w, answers);
      case Local(a, e) => NothingCounted(Obtained(w.conns[a], e), RetryGoesOn(w.conns[a], e));
      case _ =>
      }
      hide Enabled, Step, Counted;
      NothingLeft(Step(w, es[0]), es[1..]);
    }
  }

  /** As long as every retry keeps its number, turn follows turn. */
  lemma {:induction false} KeptNumbersArePolled(es: seq<Event>)
    requires IsRun(EMPTY, es) && NumbersKept(EMPTY, es)
    ensures var w := Run(EMPTY, es); Polled(w) && !w.crossed
  {
    PolledExactly(es);
    NothingLeft(EMPTY, es);
  }

  /** If a turn ends with a number left behind, it is the last: whatever happens then is the end of a
      resolver thread, and `pselect` fails. */
  lemma {:induction false} LastTurn(w: World, es: seq<Event>)
    requires Good(w) && !w.crossed && !w.scanning && !Polled(w) && IsRun(w, es)
    ensures !Run(w, es).scanning && !Polled(Run(w, es))
    ensures forall e | e in es :: e.Local? && e.event.ResolverDone?
    decreases |es|
  {
    if es != [] {
      StepIsGood(w, es[0]);
      hide Good;
      ResolverKeepsSlots(w, es[0].fd, es[0].event);
      LastTurn(Step(w, es[0]), es[1..]);
    }
  }

  lemma {:induction false} ResolverKeepsSlots(w: World, a: int, e: Socks5.Event)
    requires Enabled(w, Local(a, e)) && e.ResolverDone? && !w.scanning && !Polled(w)
    ensures var v := Step(w, Local(a, e)); !v.scanning && !v.crossed && !Polled(v)
  {
    var b :| b in w.conns && !Socks5.Pollable(w.conns[b].flow);
    var v := Step(w, Local(a, e));
    assert !Socks5.Pollable(v.conns[b].flow);
  }

  // ---- A number left behind, and got by another ----

  /** A notification whose socket gets a number left behind, and which does not start to relay at once: its
      own connection ends, the slot is gone, and its owner goes on without. */
  lemma {:induction false} ReusedNumberIsReleased(w: World, a: Answer, b: int)
    requires Good(w) && !w.crossed && w.jobs != [] && Plausible(w, w.jobs[0], a)
    requires b in w.conns && Left(w.conns[b], a.fd)
    requires w.jobs[0] in w.conns && Obtained(w.conns[w.jobs[0]], AsEvent(a)) == Some(a.fd) && !StartsAtOnce(w.conns[w.jobs[0]], a)
    ensures var v := DeliverOne(w, a);
      && !v.crossed && v.jobs == w.jobs[1..] && b != w.jobs[0] && w.jobs[0] in v.conns && !v.conns[w.jobs[0]].flow.live
      && b in v.conns && v.conns[b] == Unslotted(w.conns[b])
  {
    hide Inv, Fine, CanGet, Noticed, Socks5.Block, ConnectTo, Calm, Disjoint;
    DeliverOneKeeps(w, a);
    var fd := w.jobs[0];
    var c := w.conns[fd];
    assert IsLeft(w.conns, a.fd);
    NotificationLeaves(w, fd, a);
    NoticedEnds(w, fd, a);
    hide WorldInv, Plausible;
  }

  lemma {:induction false} NoticedEnds(w: World, fd: int, a: Answer)
    requires fd in w.conns && Fine(w.conns[fd]) && w.conns[fd].dns.jobs > 0 && Plausible(w, fd, a)
    requires |a.verdicts| == |w.conns[fd].dns.addrInfo| && Noticed(w, w.conns[fd], a).verdicts == a.verdicts
    requires Obtained(w.conns[fd], AsEvent(a)).Some? && IsLeft(w.conns, a.fd) && !StartsAtOnce(w.conns[fd], a)
    ensures var c := w.conns[fd];
      var n := Noticed(w, c, a);
      !Socks5.Block(c, n.verdicts, n.fd, n.reply, n.send).flow.live
  {
    var c := w.conns[fd];
    NoticedIsEnabled(w, fd, a);
    QueuedIsServing(c);
    var n := Noticed(w, c, a);
    hide Inv, Fine, Socks5.Block, ConnectTo;
    Outcomes.BlockFate(c, n.verdicts, n.fd, n.reply, n.send);
  }

  lemma {:induction false} StrandedThroughJobs(w: World, answers: seq<Answer>, b: int)
    requires WorldInv(w) && CanDeliver(w, answers) && b in w.conns && Stranded(w.conns[b])
    ensures var v := DeliverAll(w, answers); b in v.conns && v.conns[b] == w.conns[b]
    decreases |answers|
  {
    hide Inv, Socks5.Block, Noticed, Plausible, Obtained;
    if !Done(w) {
      DeliverOneKeeps(w, answers[0]);
      hide WorldInv;
      StrandedThroughJobs(DeliverOne(w, answers[0]), answers[1..], b);
    }
  }

  /** A connection that has lost its slot to another stays as it is for ever: its client is not read, not
      answered and not closed. */
  lemma {:induction false} StrandedForEver(w: World, es: seq<Event>, b: int)
    requires WorldInv(w) && IsRun(w, es) && b in w.conns && Stranded(w.conns[b])
    ensures var v := Run(w, es); b in v.conns && v.conns[b] == w.conns[b]
    decreases |es|
  {
    if es != [] {
      StrandedThroughEvent(w, es[0], b);
      StepKeepsWorld(w, es[0]);
      hide WorldInv, Enabled, Step, Stranded;
      StrandedForEver(Step(w, es[0]), es[1..], b);
    }
  }

  lemma {:induction false} StrandedThroughEvent(w: World, e: Event, b: int)
    requires WorldInv(w) && Enabled(w, e) && b in w.conns && Stranded(w.conns[b])
    ensures var v := Step(w, e); b in v.conns && v.conns[b] == w.conns[b]
  {
    hide Inv, Socks5.Step, Socks5.Offered, Socks5.WholeReply, Obtained;
    match e
    case Poll(ready) =>
    case Accept(fd, bufferSize) =>
    case Local(a, event) => StrandedIsStuck(w.conns[b], event);
    case Deliver(answers) => StrandedThroughJobs(w, answers, b);
  }
}
