// The descriptors of all connections, the slots they have in the one selector of the server, and what
// becomes of a slot that is left behind: src/server/utils/selector.c:341-570, src/server/server.c:55-70.
module Descriptors {
  import opened Bytes
  import opened AddressFallback
  import opened Relay
  import opened Invariant
  import opened Resolver
  import Socks5
  import Retries
  import Outcomes
  import S = Selector

  // ---- Whose descriptor it is ----

  /** The origin's open socket, and the descriptor of its slot. */
  function OriginNumbers(f: Flow): set<int> {
    (if f.originFd > 0 then {f.originFd} else {})
    + (if f.origin.Registered? && f.origin.fd > 0 then {f.origin.fd} else {})
  }

  /** The numbers of the connection whose client has descriptor a. */
  function Held(conns: map<int, Conn>, a: int): set<int> {
    if a in conns && conns[a].flow.live then {a} + OriginNumbers(conns[a].flow) else {}
  }

  function Number(n: Option<int>): set<int> { if n.Some? then {n.value} else {} }

  /** No two connections hold the same descriptor, and no connection holds one twice. */
  predicate Disjoint(conns: map<int, Conn>) {
    && (forall a | a in conns :: a > 0 && (conns[a].flow.live ==> a !in OriginNumbers(conns[a].flow)))
    && (forall a, b | a in conns && b in conns && a != b :: Held(conns, a) !! Held(conns, b))
  }

  lemma {:induction false} EnabledIsLive(c: Conn, e: Socks5.Event)
    requires Inv(c) && Socks5.Enabled(c, e)
    ensures c.flow.live
  {
  }

  /** A connection comes by no number but the one that the event opens, and does not come back. */
  lemma {:induction false} StepHolds(c: Conn, e: Socks5.Event)
    requires Inv(c) && Socks5.Enabled(c, e) && Socks5.WholeReply(c, e)
    ensures var d := Socks5.Step(c, e);
      (d.flow.live ==> c.flow.live) && OriginNumbers(d.flow) <= OriginNumbers(c.flow) + Number(Obtained(c, e))
  {
    hide Inv, Socks5.React, Socks5.ConnectDone, Socks5.Block, Socks5.WholeReply;
    EnabledIsLive(c, e);
    match e
    case Io(io, env) =>
      Retries.IoMeansNoAttempt(c, io);
      Retries.ReactIsTame(c, io, env);
      StepKeeps(c, e);
      Retries.NoAttemptIsPollable(Socks5.React(c, io, env));
    case ConnectReady(failed, verdicts, fd, reply, send) =>
      if failed {
        RetryHolds(c, verdicts, fd, reply, send);
      } else {
        Retries.ConnectedIsPollable(c, verdicts, fd, reply, send);
      }
    case ResolverDone(list) =>
    case BlockNotified(verdicts, fd, reply, send) => Retries.BlockIsPollable(c, verdicts, fd, reply, send);
  }

  lemma {:induction false} RetryHolds(c: Conn, verdicts: seq<Attempt>, fd: int, reply: seq<byte>, r: Send)
    requires |verdicts| == |c.dns.addrInfo|
    ensures OriginNumbers(Socks5.ConnectDone(c, true, verdicts, fd, reply, r).flow)
         <= OriginNumbers(c.flow) + if c.dns.addrInfo != [] && fd > 0 then {fd} else {}
  {
    hide ConnectTo, Put;
    Retries.NoAddresses(c.dns.addrInfo, verdicts);
    Retries.PutKeepsOrigin(ReleaseOrigin(Socks5.Retried(c, verdicts, fd).flow).(originFd := -1), reply);
  }

  /** The same for a notification, of which the connection may notice another number. */
  lemma {:induction false} NotifiedHolds(w: World, fd: int, a: Answer)
    requires fd in w.conns && Fine(w.conns[fd]) && w.conns[fd].dns.jobs > 0 && Plausible(w, fd, a)
    ensures |a.verdicts| == |w.conns[fd].dns.addrInfo| && Noticed(w, w.conns[fd], a).verdicts == a.verdicts
    ensures var c := w.conns[fd];
      var n := Noticed(w, c, a);
      var d := Socks5.Block(c, n.verdicts, n.fd, n.reply, n.send);
      c.flow.live && (d.flow.live ==> OriginNumbers(d.flow) <= OriginNumbers(c.flow) + Number(Obtained(c, AsEvent(a))))
  {
    var c := w.conns[fd];
    NoticedIsEnabled(w, fd, a);
    var n := Noticed(w, c, a);
    hide Inv, Fine, Plausible, Socks5.Block, ConnectTo;
    QueuedIsServing(c);
    if n == a {
      StepHolds(c, AsEvent(a));
    } else {
      Outcomes.BlockFate(c, n.verdicts, n.fd, n.reply, n.send);
      Retries.NoAddresses(c.dns.addrInfo, n.verdicts);
    }
  }

  lemma {:induction false} ReplaceIsDisjoint(conns: map<int, Conn>, after: map<int, Conn>, a: int)
    requires Disjoint(conns) && a > 0 && after.Keys == conns.Keys + {a}
    requires after[a].flow.live ==> a !in OriginNumbers(after[a].flow)
    requires forall b | b in conns && b != a ::
      Held(after, b) <= Held(conns, b) && Held(after, b) !! Held(after, a) && (after[b].flow.live ==> conns[b].flow.live)
        && OriginNumbers(after[b].flow) <= OriginNumbers(conns[b].flow)
    ensures Disjoint(after)
  {
    hide Held, OriginNumbers;
  }

  lemma {:induction false} WithoutHolds(c: Conn, n: int)
    ensures Without(c, n).flow.live == c.flow.live && OriginNumbers(Without(c, n).flow) <= OriginNumbers(c.flow)
    ensures Left(c, n) ==> n !in OriginNumbers(Without(c, n).flow)
  {
  }

  /** A number that no other has, once its slot is gone. */
  lemma {:induction false} GotIsFree(conns: map<int, Conn>, after: map<int, Conn>, a: int, n: int, b: int)
    requires CanGet(conns, a, n) && b in conns && b != a && b in after
    requires after[b] == Without(conns[b], n) || (after[b] == conns[b] && !IsLeft(conns, n))
    ensures n !in Held(after, b)
  {
    if after[b] == Without(conns[b], n) {
      WithoutHolds(conns[b], n);
    }
    assert Left(conns[b], n) ==> IsLeft(conns, n);
  }

  lemma {:induction false} UpdatedIsDisjoint(w: World, a: int, d: Conn, number: Option<int>)
    requires Disjoint(w.conns) && a in w.conns && w.conns[a].flow.live
    requires number.Some? ==> CanGet(w.conns, a, number.value)
    requires d.flow.live ==> OriginNumbers(d.flow) <= OriginNumbers(w.conns[a].flow) + Number(number)
    ensures var v := Updated(w, a, d, number); !v.crossed ==> Disjoint(v.conns)
  {
    var v := Updated(w, a, d, number);
    if !v.crossed {
      assert number.Some? ==> number.value != a;
      forall b | b in w.conns && b != a
        ensures Held(v.conns, b) <= Held(w.conns, b) && Held(v.conns, b) !! Held(v.conns, a)
        ensures v.conns[b].flow.live ==> w.conns[b].flow.live
        ensures OriginNumbers(v.conns[b].flow) <= OriginNumbers(w.conns[b].flow)
      {
        assert Held(w.conns, a) !! Held(w.conns, b);
        if number.Some? {
          WithoutHolds(w.conns[b], number.value);
          hide CanGet, IsLeft, OriginNumbers, Left, Without;
          GotIsFree(w.conns, v.conns, a, number.value, b);
        }
      }
      hide Held, CanGet, IsLeft;
      ReplaceIsDisjoint(w.conns, v.conns, a);
    }
  }

  // ---- A turn serves what `pselect` has found ----

  /** For an attempt to connect, only its own slot can be served, once, and only while its socket is open. */
  predicate CalmFor(ready: set<(int, bool)>, a: int, c: Conn) {
    c.flow.live && c.flow.origin.Registered? && c.flow.origin.handler == ConnectingHandler ==>
      && (a, true) !in ready && (a, false) !in ready && (c.flow.origin.fd, true) !in ready
      && ((c.flow.origin.fd, false) in ready ==> Socks5.Pollable(c.flow))
  }

  predicate Calm(w: World) { forall a | a in w.conns :: CalmFor(w.ready, a, w.conns[a]) }

  ghost predicate Good(w: World) { WorldInv(w) && (!w.crossed ==> Disjoint(w.conns) && Calm(w)) }

  lemma {:induction false} GoodIsDisjoint(w: World)
    requires Good(w) && !w.crossed
    ensures Disjoint(w.conns)
  {
  }

  /** Where the selector can dispatch a connection's event, all its slots are for its open sockets. */
  lemma {:induction false} DispatchedIsEnabled(w: World, a: int, e: Socks5.Event)
    requires Good(w) && !w.crossed && Dispatched(w, a, e)
    ensures Inv(w.conns[a]) && Socks5.Enabled(w.conns[a], e)
  {
    hide Inv, Stranded, Disjoint;
    var c := w.conns[a];
    if Stranded(c) {
      StrandedIsStuck(c, e);
    }
    assert Fine(c) && CalmFor(w.ready, a, c);
    hide Good, WorldInv, Calm;
    if !Socks5.Pollable(c.flow) {
      Retries.OrphanIsStuck(c, e);
    }
  }

  lemma {:induction false} AttemptWaits(c: Conn)
    requires Fine(c) && c.flow.live && c.flow.origin.Registered? && c.flow.origin.handler == ConnectingHandler
    requires Socks5.Pollable(c.flow)
    ensures c.flow.client == NOOP && c.flow.origin.interest == WRITE && c.flow.origin.fd > 0
  {
    hide Inv, InConnecting;
    ConnectingHandlerMeansConnecting(c);
  }

  lemma {:induction false} PollIsCalm(w: World, ready: set<(int, bool)>)
    requires WorldInv(w) && Disjoint(w.conns) && Enabled(w, Poll(ready))
    ensures Calm(Step(w, Poll(ready)))
  {
    hide Fine, OriginNumbers;
    forall a | a in w.conns
      ensures CalmFor(ready, a, w.conns[a])
    {
      var c := w.conns[a];
      if c.flow.live && c.flow.origin.Registered? && c.flow.origin.handler == ConnectingHandler {
        AttemptWaits(c);
        OnlyOwnerAsks(w.conns, a, c);
      }
    }
  }

  /** What is asked for a number that a connection holds, that connection asks. */
  lemma {:induction false} OnlyOwnerAsks(conns: map<int, Conn>, a: int, c: Conn)
    requires Disjoint(conns) && a in conns && conns[a] == c && c.flow.live && c.flow.client == NOOP
    requires c.flow.origin.Registered? && c.flow.origin.fd > 0 && c.flow.origin.interest == WRITE
    ensures forall b, reading | b in conns && Asks(b, conns[b], a, reading) :: false
    ensures forall b | b in conns && Asks(b, conns[b], c.flow.origin.fd, true) :: false
  {
    forall b, fd, reading | b in conns && fd in Held(conns, a) && Asks(b, conns[b], fd, reading)
      ensures b == a
    {
      assert fd in Held(conns, b);
    }
  }

  lemma {:induction false} FewerIsCalm(ready: set<(int, bool)>, fewer: set<(int, bool)>, a: int, c: Conn, n: int)
    requires CalmFor(ready, a, c) && fewer <= ready
    ensures CalmFor(fewer, a, c) && CalmFor(fewer, a, Without(c, n))
  {
  }

  /** The connection whose event was served. */
  lemma {:induction false} ServedIsCalm(w: World, a: int, e: Socks5.Event)
    requires a in w.conns && Inv(w.conns[a]) && CalmFor(w.ready, a, w.conns[a])
    requires Socks5.Enabled(w.conns[a], e) && Socks5.WholeReply(w.conns[a], e) && !e.BlockNotified?
    ensures var c := w.conns[a]; CalmFor(Unready(w, Served(a, c, e)).ready, a, Socks5.Step(c, e))
  {
    var c := w.conns[a];
    hide Inv, Socks5.React, Socks5.ConnectDone, Socks5.WholeReply;
    match e
    case Io(io, env) =>
      Retries.IoMeansNoAttempt(c, io);
      Retries.ReactIsTame(c, io, env);
    case ConnectReady(failed, verdicts, fd, reply, send) =>
      if failed {
        RetryKeepsSlot(c, verdicts, fd, reply, send);
      } else {
        Retries.ConnectedIsPollable(c, verdicts, fd, reply, send);
      }
    case ResolverDone(list) =>
  }

  lemma {:induction false} RetryKeepsSlot(c: Conn, verdicts: seq<Attempt>, fd: int, reply: seq<byte>, r: Send)
    requires |verdicts| == |c.dns.addrInfo|
    ensures Socks5.ConnectDone(c, true, verdicts, fd, reply, r).flow.origin in {c.flow.origin, Unregistered}
  {
    hide ConnectTo, Put;
    Retries.PutKeepsOrigin(ReleaseOrigin(Socks5.Retried(c, verdicts, fd).flow).(originFd := -1), reply);
  }

  // ---- Every event ----

  lemma {:induction false} LocalIsDisjoint(w: World, a: int, e: Socks5.Event)
    requires Good(w) && Enabled(w, Local(a, e))
    ensures var v := Step(w, Local(a, e)); !v.crossed ==> Disjoint(v.conns)
  {
    hide Inv, Good, Socks5.Step, Socks5.Enabled, Socks5.Offered, Socks5.WholeReply, Obtained, CanGet, Disjoint, OriginNumbers,
      Updated, Served;
    var c := w.conns[a];
    GoodIsDisjoint(w);
    DispatchedIsEnabled(w, a, e);
    EnabledIsLive(c, e);
    StepHolds(c, e);
    var d := Socks5.Step(c, e);
    var u := Unready(Queued(w, a, c, d), Served(a, c, e));
    UpdatedIsDisjoint(u, a, d, Obtained(c, e));
  }

  lemma {:induction false} UpdatedOthers(w: World, a: int, d: Conn, number: Option<int>, b: int)
    requires b in Updated(w, a, d, number).conns
    ensures var v := Updated(w, a, d, number);
      && v.ready == w.ready
      && if b == a then v.conns[b] == d
         else b in w.conns && (v.conns[b] == w.conns[b] || (number.Some? && v.conns[b] == Without(w.conns[b], number.value)))
  {
  }

  lemma {:induction false} LocalIsCalm(w: World, a: int, e: Socks5.Event)
    requires Good(w) && Enabled(w, Local(a, e))
    ensures Calm(Step(w, Local(a, e)))
  {
    hide Inv, WorldInv, Socks5.Step, Socks5.Enabled, Socks5.Offered, Socks5.WholeReply, Obtained, CanGet, Disjoint, CalmFor,
      Without, Served, Updated;
    var c := w.conns[a];
    DispatchedIsEnabled(w, a, e);
    assert CalmFor(w.ready, a, c);
    ServedIsCalm(w, a, e);
    var d, n := Socks5.Step(c, e), Obtained(c, e);
    var u := Unready(Queued(w, a, c, d), Served(a, c, e));
    var v := Step(w, Local(a, e));
    forall b | b in v.conns
      ensures CalmFor(v.ready, b, v.conns[b])
    {
      UpdatedOthers(u, a, d, n, b);
      if b != a {
        assert CalmFor(w.ready, b, w.conns[b]);
        FewerIsCalm(w.ready, v.ready, b, w.conns[b], if n.Some? then n.value else 0);
      }
    }
  }

  lemma {:induction false} DeliverOneIsDisjoint(w: World, a: Answer)
    requires WorldInv(w) && Disjoint(w.conns) && !w.crossed && w.jobs != [] && Plausible(w, w.jobs[0], a)
    ensures !DeliverOne(w, a).crossed ==> Disjoint(DeliverOne(w, a).conns)
  {
    hide Inv, Disjoint, CanGet, Noticed, Updated, OriginNumbers, Socks5.Block, ConnectTo;
    DeliverOneKeeps(w, a);
    var fd := w.jobs[0];
    var c := w.conns[fd];
    NotifiedHolds(w, fd, a);
    var n := Noticed(w, c, a);
    var d := Socks5.Block(c, n.verdicts, n.fd, n.reply, n.send);
    UpdatedIsDisjoint(w.(jobs := w.jobs[1..]), fd, d, Obtained(c, AsEvent(a)));
    hide WorldInv, Plausible, Fine;
  }

  lemma {:induction false} DeliverAllIsDisjoint(w: World, answers: seq<Answer>)
    requires WorldInv(w) && (!w.crossed ==> Disjoint(w.conns)) && CanDeliver(w, answers)
    ensures var v := DeliverAll(w, answers); !v.crossed ==> Disjoint(v.conns)
    decreases |answers|
  {
    hide WorldInv, Disjoint, DeliverOne, Plausible;
    if !Done(w) {
      DeliverOneKeeps(w, answers[0]);
      DeliverOneIsDisjoint(w, answers[0]);
      DeliverAllIsDisjoint(DeliverOne(w, answers[0]), answers[1..]);
    }
  }

  lemma {:induction false} AcceptIsGood(w: World, fd: int, bufferSize: nat)
    requires Good(w) && Enabled(w, Accept(fd, bufferSize))
    ensures var v := Step(w, Accept(fd, bufferSize)); Disjoint(v.conns) && Calm(v)
  {
    hide WorldInv;
    var v := Step(w, Accept(fd, bufferSize));
    if v != w {
      forall b | b in w.conns && b != fd
        ensures fd !in Held(v.conns, b)
      {
        GotIsFree(w.conns, v.conns, fd, fd, b);
      }
      ReplaceIsDisjoint(w.conns, v.conns, fd);
    }
  }

  lemma {:induction false} StepIsGood(w: World, e: Event)
    requires Good(w) && Enabled(w, e)
    ensures Good(Step(w, e))
  {
    StepKeepsWorld(w, e);
    hide WorldInv, Disjoint;
    match e
    case Poll(ready) => PollIsCalm(w, ready);
    case Accept(fd, bufferSize) => AcceptIsGood(w, fd, bufferSize);
    case Local(a, event) =>
      LocalIsDisjoint(w, a, event);
      LocalIsCalm(w, a, event);
    case Deliver(answers) => DeliverAllIsDisjoint(w, answers);
  }

  lemma {:induction false} RunIsGood(w: World, es: seq<Event>)
    requires Good(w) && IsRun(w, es)
    ensures Good(Run(w, es))
    decreases |es|
  {
    hide Good, Enabled, Step;
    if es != [] {
      StepIsGood(w, es[0]);
      RunIsGood(Step(w, es[0]), es[1..]);
    }
  }

  /** In every interleaving, until a connection takes a socket whose slot is another's: no two connections
      hold the same descriptor, and every event that the scan can dispatch finds its connection with all its
      slots on its own open sockets. */
  lemma {:induction false} DescriptorsStayDisjoint(es: seq<Event>)
    requires IsRun(EMPTY, es) && !Run(EMPTY, es).crossed
    ensures var w := Run(EMPTY, es);
      && Disjoint(w.conns)
      && forall a, e | Dispatched(w, a, e) :: Socks5.Enabled(w.conns[a], e) && Enabled(w, Local(a, e))
  {
    RunIsGood(EMPTY, es);
    var w := Run(EMPTY, es);
    hide Good, Run, IsRun, Dispatched, Disjoint;
    GoodIsDisjoint(w);
    forall a, e | Dispatched(w, a, e)
      ensures Socks5.Enabled(w.conns[a], e)
    {
      DispatchedIsEnabled(w, a, e);
    }
  }

  // ---- The selector's table ----

  function Interests(i: Interest): S.Interest { S.Interest(i == READ, i == WRITE) }

  /** A connection's slots; their attachment is the connection. */
  function Slots(a: nat, c: Conn): S.Table {
    if !c.flow.live then map[]
    else
      map[a := S.Registration(Interests(c.flow.client), a)]
      + if c.flow.origin.Registered? && c.flow.origin.fd > 0
        then map[c.flow.origin.fd := S.Registration(Interests(c.flow.origin.interest), a)] else map[]
  }

  /** The slots of all connections, in one table. */
  function Table(conns: map<int, Conn>): S.Table
    requires Disjoint(conns)
  {
    map a, fd | a in conns && fd in Slots(a, conns[a]) :: fd := Slots(a, conns[a])[fd]
  }

  lemma {:induction false} SlotsAreHeld(conns: map<int, Conn>, a: int, fd: int)
    requires Disjoint(conns) && a in conns && fd in Slots(a, conns[a])
    ensures fd in Held(conns, a) && Slots(a, conns[a])[fd].data == a
  {
  }

  lemma {:induction false} HeldByOne(conns: map<int, Conn>, a: int, b: int, fd: int)
    requires Disjoint(conns) && a in conns && b in conns && fd in Held(conns, a) && fd in Held(conns, b)
    ensures a == b && conns[a].flow.live && a !in OriginNumbers(conns[a].flow)
  {
  }

  /** The attachment of a slot is the one connection that holds its descriptor. */
  lemma {:induction false} SlotOf(conns: map<int, Conn>, a: int, fd: int)
    requires Disjoint(conns) && a in conns && fd in Held(conns, a)
    ensures fd in Table(conns) <==> fd in Slots(a, conns[a])
    ensures fd in Table(conns) ==> Table(conns)[fd] == Slots(a, conns[a])[fd] && Table(conns)[fd].data == a
  {
    assert forall b | b in conns :: b > 0;
    hide Slots, Held, Disjoint;
    if fd in Table(conns) {
      var b :| b in conns && fd in Slots(b, conns[b]) && Table(conns)[fd] == Slots(b, conns[b])[fd];
      SlotsAreHeld(conns, b, fd);
      HeldByOne(conns, a, b, fd);
    }
  }

  /** The selector can serve the descriptor with that event. */
  predicate Serves(w: World, a: int, e: Socks5.Event, fd: int, reading: bool) {
    Enabled(w, Local(a, e)) && Served(a, w.conns[a], e) == Some((fd, reading))
  }

  /** An event that a slot's interest allows: the kernel has nothing to say after all. */
  function Spurious(a: int, c: Conn, fd: int, reading: bool): Socks5.Event {
    var env := Socks5.Env(map[], Socks5.Resolver(false, []), Socks5.COMMAND_NOT_SUPPORTED);
    if fd == a then
      Socks5.Io(if reading then ClientReadable(RecvAgain, SendAgain) else ClientWritable(SendAgain), env)
    else if c.flow.origin.Registered? && c.flow.origin.handler == ConnectingHandler then
      Socks5.ConnectReady(true, NoSockets(|c.dns.addrInfo|), if c.dns.addrInfo == [] then 1 else -1, Socks5.ErrorReply(1), SendAgain)
    else Socks5.Io(if reading then OriginReadable(RecvAgain, SendAgain) else OriginWritable(SendAgain), env)
  }

  function NoSockets(n: nat): seq<Attempt> { seq(n, _ => NoSocket) }

  predicate Wants(i: S.Interest, reading: bool) { if reading then i.read else i.write }

  lemma {:induction false} SlotIsServed(a: nat, c: Conn, fd: int, reading: bool)
    requires Fine(c) && Socks5.Pollable(c.flow) && fd in Slots(a, c) && Wants(Slots(a, c)[fd].interest, reading)
    requires a !in OriginNumbers(c.flow)
    ensures var e := Spurious(a, c, fd, reading);
      && Socks5.Enabled(c, e) && Socks5.WholeReply(c, e) && Served(a, c, e) == Some((fd, reading)) && !e.BlockNotified?
      && Obtained(c, e) == None
  {
    hide Inv;
    if c.flow.origin.Registered? && c.flow.origin.handler == ConnectingHandler {
      AttemptWaits(c);
    }
  }

  lemma {:induction false} ServedHasSlot(a: nat, c: Conn, e: Socks5.Event, fd: int, reading: bool)
    requires Inv(c) && Socks5.Enabled(c, e) && Served(a, c, e) == Some((fd, reading)) && a !in OriginNumbers(c.flow)
    ensures c.flow.live && fd in Slots(a, c) && Wants(Slots(a, c)[fd].interest, reading)
  {
    hide Inv, InConnecting;
    EnabledIsLive(c, e);
    if c.flow.origin.Registered? {
      OriginIsPositive(c);
    }
  }

  lemma {:induction false} OriginIsPositive(c: Conn)
    requires Inv(c) && Socks5.Pollable(c.flow) && c.flow.live && c.flow.origin.Registered?
    ensures c.flow.originFd > 0
  {
    if c.flow.origin.handler == ConnectingHandler {
      ConnectingHandlerMeansConnecting(c);
    } else {
      CopyHandlerMeansCopy(c);
    }
  }

  /** What is still to be served is a slot of a connection whose slots are all for its open sockets. */
  lemma {:induction false} ReadyIsPollable(w: World, a: nat, fd: int, reading: bool)
    requires Good(w) && !w.crossed && a in w.conns && (fd, reading) in w.ready && fd in Slots(a, w.conns[a])
    ensures Fine(w.conns[a]) && Socks5.Pollable(w.conns[a].flow)
  {
    var c := w.conns[a];
    assert CalmFor(w.ready, a, c);
    if !Socks5.Pollable(c.flow) {
      Retries.OrphanIsStuck(c, Socks5.ResolverDone([]));
    }
  }

  lemma {:induction false} OwnerOf(conns: map<int, Conn>, fd: int)
    requires Disjoint(conns) && fd in Table(conns)
    ensures var a := Table(conns)[fd].data;
      && a in conns && fd in Slots(a, conns[a]) && Table(conns)[fd] == Slots(a, conns[a])[fd]
      && fd in Held(conns, a) && conns[a].flow.live && a !in OriginNumbers(conns[a].flow)
  {
    assert forall b | b in conns :: b > 0;
    hide Disjoint, Slots, Held, OriginNumbers;
    var b :| b in conns && fd in Slots(b, conns[b]) && Table(conns)[fd] == Slots(b, conns[b])[fd];
    SlotsAreHeld(conns, b, fd);
    HeldByOne(conns, b, b, fd);
  }

  lemma {:induction false} WantedIsServed(w: World, fd: int, reading: bool)
    requires Good(w) && !w.crossed && w.scanning && (fd, reading) in w.ready
    requires S.Wants(Table(w.conns), fd, reading)
    ensures exists a, e :: Serves(w, a, e, fd, reading)
  {
    GoodIsDisjoint(w);
    OwnerOf(w.conns, fd);
    var a := Table(w.conns)[fd].data;
    SpuriousServes(w, a, fd, reading);
    hide Good, Disjoint, Serves, OriginNumbers, Slots, Held, Spurious, Table;
    assert Serves(w, a, Spurious(a, w.conns[a], fd, reading), fd, reading);
  }

  lemma {:induction false} SpuriousServes(w: World, a: nat, fd: int, reading: bool)
    requires Good(w) && !w.crossed && w.scanning && (fd, reading) in w.ready && a in w.conns
    requires fd in Slots(a, w.conns[a]) && Wants(Slots(a, w.conns[a])[fd].interest, reading)
    requires a !in OriginNumbers(w.conns[a].flow)
    ensures Serves(w, a, Spurious(a, w.conns[a], fd, reading), fd, reading)
  {
    hide Good, Disjoint, Socks5.Enabled, Socks5.Offered, Socks5.WholeReply, Served, OriginNumbers, Slots, Spurious, Obtained;
    ReadyIsPollable(w, a, fd, reading);
    SlotIsServed(a, w.conns[a], fd, reading);
    EnabledIsOffered(w.conns[a], Spurious(a, w.conns[a], fd, reading));
  }

  lemma {:induction false} EnabledIsOffered(c: Conn, e: Socks5.Event)
    requires Socks5.Enabled(c, e)
    ensures Socks5.Offered(c, e)
  {
  }

  lemma {:induction false} ServedIsWanted(w: World, a: int, e: Socks5.Event, fd: int, reading: bool)
    requires Good(w) && !w.crossed && Serves(w, a, e, fd, reading)
    ensures S.Wants(Table(w.conns), fd, reading) && Table(w.conns)[fd].data == a && fd in Held(w.conns, a)
  {
    var c := w.conns[a];
    DispatchedIsEnabled(w, a, e);
    hide Inv, Good, Socks5.Enabled, Socks5.Offered, Socks5.WholeReply, Served, OriginNumbers, Slots, Obtained;
    assert Disjoint(w.conns) by { GoodIsDisjoint(w); }
    EnabledIsLive(c, e);
    HeldByOne(w.conns, a, a, a);
    ServedHasSlot(a, c, e, fd, reading);
    SlotsAreHeld(w.conns, a, fd);
    SlotOf(w.conns, a, fd);
  }

  /** At every moment of a scan, for what `pselect` has found and has not been served: the slot is interested
      exactly when its connection has an event that can be dispatched, and the key that the handler is
      given is that connection. */
  lemma {:induction false} WantsIffServes(w: World, fd: int, reading: bool)
    requires Good(w) && !w.crossed && w.scanning && (fd, reading) in w.ready
    ensures S.Wants(Table(w.conns), fd, reading) <==> exists a, e :: Serves(w, a, e, fd, reading)
    ensures forall a, e | Serves(w, a, e, fd, reading) ::
      fd in Table(w.conns) && Table(w.conns)[fd].data == a
  {
    hide Good, Disjoint, Serves;
    GoodIsDisjoint(w);
    if S.Wants(Table(w.conns), fd, reading) {
      WantedIsServed(w, fd, reading);
    }
    forall a, e | Serves(w, a, e, fd, reading)
      ensures S.Wants(Table(w.conns), fd, reading) && Table(w.conns)[fd].data == a
    {
      ServedIsWanted(w, a, e, fd, reading);
    }
  }

  // ---- What one handler does to the table ----

  /** A slot without its owner's hold on the number is gone, and all other slots are as before. */
  lemma {:induction false} OtherWithout(conns: map<int, Conn>, after: map<int, Conn>, b: int, n: int, fd: int)
    requires Disjoint(conns) && Disjoint(after) && b in conns && b in after && fd in Held(conns, b)
    requires after[b] == Without(conns[b], n)
    requires Left(conns[b], n) ==> forall x | x in after && x != b :: n !in Held(after, x)
    ensures fd in Table(after) <==> fd in Table(conns) && !(Left(conns[b], n) && fd == n)
    ensures fd in Table(after) ==> Table(after)[fd] == Table(conns)[fd]
  {
    SlotOf(conns, b, fd);
    WithoutHolds(conns[b], n);
    assert forall x | x in after :: x > 0;
    if Left(conns[b], n) && fd == n {
      if fd in Table(after) {
        var x :| x in after && fd in Slots(x, after[x]) && Table(after)[fd] == Slots(x, after[x])[fd];
        SlotsAreHeld(after, x, fd);
      }
    } else {
      SlotOf(after, b, fd);
    }
  }

  /** What a retry gives back it does not hold. */
  lemma {:induction false} GivenBack(c: Conn, e: Socks5.Event)
    requires Inv(c) && Socks5.Enabled(c, e) && !e.BlockNotified?
    requires Obtained(c, e).Some? && Obtained(c, e).value !in OriginNumbers(c.flow)
    ensures var f, n := Socks5.Step(c, e).flow, Obtained(c, e).value; f.originFd != n ==> n !in OriginNumbers(f)
  {
    hide Inv, Socks5.ConnectDone;
    RetryKeepsSlot(c, e.verdicts, e.fd, e.reply, e.send);
  }

  lemma {:induction false} NobodyHolds(w: World, a: int, d: Conn, n: int, b: int)
    requires Disjoint(w.conns) && a in w.conns && w.conns[a].flow.live && CanGet(w.conns, a, n) && !w.crossed
    requires b in w.conns && b != a && Left(w.conns[b], n) && !Updated(w, a, d, Some(n)).crossed
    requires d.flow.originFd != n ==> n !in OriginNumbers(d.flow)
    ensures forall x | x in w.conns && x != b :: n !in Held(Updated(w, a, d, Some(n)).conns, x)
  {
    var v := Updated(w, a, d, Some(n));
    assert IsLeft(w.conns, n) && a != n;
    forall x | x in w.conns && x != b
      ensures n !in Held(v.conns, x)
    {
      if x != a {
        GotIsFree(w.conns, v.conns, a, n, x);
      }
    }
  }

  /** A number that a retry gives back, and that is another's slot. */
  lemma {:induction false} RetryGivesBack(w: World, a: int, e: Socks5.Event, b: int)
    requires Good(w) && Enabled(w, Local(a, e)) && !Step(w, Local(a, e)).crossed
    requires b in w.conns && b != a && Obtained(w.conns[a], e).Some? && Left(w.conns[b], Obtained(w.conns[a], e).value)
    ensures forall x | x in w.conns && x != b :: Obtained(w.conns[a], e).value !in Held(Step(w, Local(a, e)).conns, x)
  {
    hide Inv, WorldInv, Calm, Socks5.Enabled, Socks5.Offered, Socks5.WholeReply, Socks5.Step, Obtained, Updated, Served;
    var c := w.conns[a];
    DispatchedIsEnabled(w, a, e);
    EnabledIsLive(c, e);
    var n, d := Obtained(c, e).value, Socks5.Step(c, e);
    assert n !in OriginNumbers(c.flow) by {
      SlotIsNotMine(w.conns, a, b, n);
    }
    hide Good, Disjoint, OriginNumbers;
    GivenBack(c, e);
    assert Disjoint(w.conns) by { GoodIsDisjoint(w); }
    NobodyHolds(Unready(Queued(w, a, c, d), Served(a, c, e)), a, d, n, b);
  }

  lemma {:induction false} SlotIsNotMine(conns: map<int, Conn>, a: int, b: int, n: int)
    requires Disjoint(conns) && a in conns && b in conns && a != b && conns[a].flow.live && Left(conns[b], n) && n > 0
    ensures n !in OriginNumbers(conns[a].flow)
  {
    assert n in Held(conns, b) && Held(conns, a) !! Held(conns, b);
  }

  /** No event of one connection changes a slot of another, but for a slot left behind whose number it gets
      and gives back: that one goes. */
  lemma {:induction false} OthersKeepTheirSlots(w: World, a: int, e: Socks5.Event, b: int, fd: int)
    requires Good(w) && Enabled(w, Local(a, e)) && !Step(w, Local(a, e)).crossed
    requires b in w.conns && b != a && fd in Held(w.conns, b)
    ensures var v := Step(w, Local(a, e));
      && Disjoint(w.conns) && Disjoint(v.conns)
      && (fd in Table(v.conns) <==> fd in Table(w.conns) && !(Left(w.conns[b], fd) && Obtained(w.conns[a], e) == Some(fd)))
      && (fd in Table(v.conns) ==> Table(v.conns)[fd] == Table(w.conns)[fd])
  {
    hide WorldInv, Calm, Socks5.Step, Socks5.Enabled, Socks5.Offered, Socks5.WholeReply, Obtained, CanGet, Served, OriginNumbers,
      Slots, Table;
    StepIsGood(w, Local(a, e));
    var v := Step(w, Local(a, e));
    var n := Obtained(w.conns[a], e);
    assert n == Some(fd) && Left(w.conns[b], fd) ==> IsLeft(w.conns, fd);
    GoodIsDisjoint(w);
    GoodIsDisjoint(v);
    if n.Some? && IsLeft(w.conns, n.value) {
      if Left(w.conns[b], n.value) {
        RetryGivesBack(w, a, e, b);
      }
      hide Good, Disjoint, Enabled, Obtained, Socks5.Step;
      OtherWithout(w.conns, v.conns, b, n.value, fd);
    } else {
      hide Good, Disjoint, Enabled, Obtained, Socks5.Step;
      OtherWithout(w.conns, v.conns, b, w.conns[b].flow.originFd, fd);
    }
  }

  /** The scan takes a slot's key before its read handler runs, so that in general the write handler may
      get another's. Here it does not: after the read handler of a connection the slot is that
      connection's or nobody's. */
  lemma {:induction false} WriteHandlersGetTheirOwn(w: World, a: int, e: Socks5.Event, p: S.Progress, fd: int,
                                                    r: set<int>, ready: set<int>, script: S.Script)
    requires Good(w) && Serves(w, a, e, fd, true) && !Step(w, Local(a, e)).crossed
    requires Disjoint(w.conns) && p.table == Table(w.conns) && fd in r && fd in ready
    ensures var v, q := Step(w, Local(a, e)), S.ReadPart(p, fd, r, script);
      Disjoint(v.conns) &&
      (q.table == Table(v.conns) && S.Wants(q.table, fd, false) ==>
        var calls := S.Visited(p, fd, r, ready, script).calls;
        && |calls| == |p.calls| + 2
        && var c := calls[|p.calls| + 1]; c.fd == fd && !c.reading && fd in c.table && c.data == c.table[fd].data == a)
  {
    ServedIsWanted(w, a, e, fd, true);
    StepIsGood(w, Local(a, e));
    var v := Step(w, Local(a, e));
    GoodIsDisjoint(v);
    StaysOwn(w, a, e, fd);
    hide Good, Disjoint, Serves, Step, Table, Enabled, Held, S.ReadPart, S.Visited;
    if S.Wants(S.ReadPart(p, fd, r, script).table, fd, false) {
      SecondCall(p, fd, r, ready, script);
    }
  }

  /** Whoever has a slot that a connection held before its event is that connection. */
  lemma {:induction false} StaysOwn(w: World, a: int, e: Socks5.Event, fd: int)
    requires Good(w) && Enabled(w, Local(a, e)) && !Step(w, Local(a, e)).crossed && fd in Held(w.conns, a)
    requires Disjoint(w.conns) && Disjoint(Step(w, Local(a, e)).conns)
    ensures var v := Step(w, Local(a, e)); fd in Table(v.conns) ==> Table(v.conns)[fd].data == a
  {
    var v := Step(w, Local(a, e));
    assert forall b | b in v.conns :: b > 0;
    hide Good, Disjoint, Enabled, Step, Slots, OriginNumbers;
    if fd in Table(v.conns) {
      var b :| b in v.conns && fd in Slots(b, v.conns[b]) && Table(v.conns)[fd] == Slots(b, v.conns[b])[fd];
      SlotsAreHeld(v.conns, b, fd);
      if b != a {
        OthersHoldNoMore(w, a, e, b);
        HeldByOne(w.conns, a, b, fd);
      }
    }
  }

  lemma {:induction false} OthersHoldNoMore(w: World, a: int, e: Socks5.Event, b: int)
    requires Enabled(w, Local(a, e)) && b in Step(w, Local(a, e)).conns && b != a
    ensures b in w.conns && Held(Step(w, Local(a, e)).conns, b) <= Held(w.conns, b)
  {
    hide Socks5.Enabled, Socks5.Offered, Socks5.WholeReply, Socks5.Step, Obtained, CanGet, Updated, Served, Without, OriginNumbers;
    var c := w.conns[a];
    var d, n := Socks5.Step(c, e), Obtained(c, e);
    UpdatedOthers(Unready(Queued(w, a, c, d), Served(a, c, e)), a, d, n, b);
    WithoutHolds(w.conns[b], if n.Some? then n.value else 0);
  }

  /** After a read handler, the write handler is the second call of the visit. */
  lemma {:induction false} SecondCall(p: S.Progress, fd: int, r: set<int>, ready: set<int>, script: S.Script)
    requires fd in r && fd in ready && S.Wants(p.table, fd, true) && S.Wants(S.ReadPart(p, fd, r, script).table, fd, false)
    ensures var calls := S.Visited(p, fd, r, ready, script).calls;
      && |calls| == |p.calls| + 2
      && calls[|p.calls| + 1] == S.Call(fd, false, p.table[fd].data, S.ReadPart(p, fd, r, script).table)
  {
  }
}
