// The whole server: many connections, their resolver threads, the selector's turns and its list of
// blocking jobs. `selector_select`, `selector_notify_block` and `handle_block_notifications` in
// src/server/utils/selector.c, `passive_accept` in src/server/connection_helper.c, `resolve_host_name` in
// src/server/utils/netutils.c.
module Resolver {
  import opened Bytes
  import opened AddressFallback
  import opened StateMachine
  import opened Relay
  import opened Invariant
  import Socks5
  import Retries

  type Conn = Socks5.Conn

  /** `conns` is by client descriptor; `jobs` is the list under the mutex, newest first. `pushed`
      counts the jobs ever queued, `served` those that reached a live connection in CONNECTING with
      its client paused, and `stale` those that did not. Between `pselect` and the delivery of the jobs
      the server is `scanning`, and `ready` is what `pselect` has found and has not been served.
      `crossed`: a connection has the descriptor, and another one the slot. What the handlers then do to
      each other is not modelled. */
  datatype World = World(conns: map<int, Conn>, jobs: seq<int>, pushed: nat, served: nat, stale: nat,
                         scanning: bool, ready: set<(int, bool)>, crossed: bool)

  const EMPTY := World(map[], [], 0, 0, 0, false, {}, false)

  /** What the network says when a job is delivered. */
  datatype Answer = Answer(verdicts: seq<Attempt>, fd: int, reply: seq<byte>, send: Send)

  datatype Event =
    | Poll(ready: set<(int, bool)>)           // `pselect`: descriptors, each with true for reading
    | Accept(fd: int, bufferSize: nat)
    | Local(fd: int, event: Socks5.Event)     // a socket event, or the end of a resolver thread
    | Deliver(answers: seq<Answer>)           // the whole list, oldest last; it ends the turn

  function AsEvent(a: Answer): Socks5.Event { Socks5.BlockNotified(a.verdicts, a.fd, a.reply, a.send) }

  // ---- Descriptors ----

  /** The slot of an attempt whose socket was closed and replaced by another. */
  predicate Left(c: Conn, fd: int) {
    c.flow.live && c.flow.origin.Registered? && c.flow.origin.fd == fd != c.flow.originFd
  }

  predicate IsLeft(conns: map<int, Conn>, fd: int) { exists a :: a in conns && Left(conns[a], fd) }

  function Unslotted(c: Conn): Conn { c.(flow := c.flow.(origin := Unregistered)) }

  function Without(c: Conn, fd: int): Conn { if Left(c, fd) then Unslotted(c) else c }

  /** `selector_unregister_fd` on such a slot, which runs no handler. */
  function Cleared(conns: map<int, Conn>, fd: int): map<int, Conn> {
    map a | a in conns :: Without(conns[a], fd)
  }

  /** The system can give the number to a socket of connection a: no other socket has it. A slot may. */
  predicate CanGet(conns: map<int, Conn>, a: int, fd: int) {
    && fd > 0
    && forall b | b in conns && conns[b].flow.live :: fd != b && (b != a ==> fd != conns[b].flow.originFd)
  }

  /** The number of the last socket that an event opens, if it opens any. */
  function Obtained(c: Conn, e: Socks5.Event): Option<int> {
    match e
    case ConnectReady(failed, _, fd, _, _) => if failed && c.dns.addrInfo != [] && fd > 0 then Some(fd) else None
    case BlockNotified(_, fd, _, _) => if c.dns.addrInfo != [] && fd > 0 then Some(fd) else None
    case _ => None
  }

  /** Connection a goes on as d, after getting a number. If that number's slot was left behind by another,
      the slot goes when d gives the number back, which unregisters it; otherwise the two now share it. */
  function Updated(w: World, a: int, d: Conn, number: Option<int>): World {
    if number.None? || !IsLeft(w.conns, number.value) then w.(conns := w.conns[a := d])
    else if d.flow.live && d.flow.originFd == number.value then w.(conns := w.conns[a := d], crossed := true)
    else w.(conns := Cleared(w.conns, number.value)[a := d])
  }

  // ---- Notifications ----

  /** What the environment guarantees about an answer, whatever state the connection is in. */
  predicate Plausible(w: World, fd: int, a: Answer) {
    fd in w.conns ==>
      var c := w.conns[fd];
      && |a.verdicts| == |c.dns.addrInfo| && SocketIs(c.dns.addrInfo, a.verdicts, a.fd)
      && (if c.dns.addrInfo == [] then a.reply == Socks5.HOST_UNREACHABLE else Socks5.ReplySized(a.reply))
      && (Obtained(c, AsEvent(a)).Some? ==> CanGet(w.conns, fd, a.fd))
  }

  predicate Serving(c: Conn) {
    c.flow.live && c.stm.current == Some(CONNECTING) && c.flow.client == NOOP && c.dns.jobs > 0
  }

  /** What the connection notices: the selector refuses a number whose slot is used (FDINUSE) as it
      refuses one past its limit. */
  function Noticed(w: World, c: Conn, a: Answer): Answer
    requires |a.verdicts| == |c.dns.addrInfo|
  {
    if ConnectTo(c.dns.addrInfo, a.verdicts).result == CONNECTION_IN_PROGRESS && a.fd > 0 && IsLeft(w.conns, a.fd)
    then a.(fd := FD_SETSIZE) else a
  }

  /** `handle_block_notifications` for the first job: a slot that is empty is skipped, and any other is
      served, whoever uses it by now. */
  function DeliverOne(w: World, a: Answer): World
    requires w.jobs != [] && Plausible(w, w.jobs[0], a)
  {
    var fd := w.jobs[0];
    var v := w.(jobs := w.jobs[1..]);
    if fd !in w.conns || !w.conns[fd].flow.live then v.(stale := w.stale + 1)
    else if !Serving(w.conns[fd]) then v.(stale := w.stale + 1, conns := w.conns[fd := Socks5.Break(w.conns[fd])])
    else
      var c := w.conns[fd];
      var n := Noticed(w, c, a);
      var d := Socks5.Block(c, n.verdicts, n.fd, n.reply, n.send);
      Updated(v, fd, d, Obtained(c, AsEvent(a))).(served := w.served + 1)
  }

  /** Is there another job to deliver? */
  predicate Done(w: World) { w.jobs == [] || w.crossed }

  predicate CanDeliver(w: World, answers: seq<Answer>)
    decreases |answers|
  {
    if Done(w) then answers == []
    else
      answers != [] && Plausible(w, w.jobs[0], answers[0]) && CanDeliver(DeliverOne(w, answers[0]), answers[1..])
  }

  function DeliverAll(w: World, answers: seq<Answer>): World
    requires CanDeliver(w, answers)
    decreases |answers|
  {
    if Done(w) then w else DeliverAll(DeliverOne(w, answers[0]), answers[1..])
  }

  /** The loop of `handle_block_notifications`, from the head of the list. */
  method HandleBlockNotifications(w: World, answers: seq<Answer>) returns (v: World)
    requires CanDeliver(w, answers)
    ensures v == DeliverAll(w, answers)
  {
    hide DeliverOne, Plausible;
    v := w;
    var k := 0;
    while !Done(v)
      invariant k <= |answers| && CanDeliver(v, answers[k..]) && DeliverAll(v, answers[k..]) == DeliverAll(w, answers)
      decreases |answers| - k
    {
      assert answers[k..][0] == answers[k] && answers[k..][1..] == answers[k + 1..];
      v := DeliverOne(v, answers[k]);
      k := k + 1;
    }
  }

  // ---- Turns ----

  /** Which interest does the connection have registered for the descriptor? */
  predicate Asks(a: int, c: Conn, fd: int, reading: bool) {
    var i := if reading then READ else WRITE;
    c.flow.live && ((fd == a && c.flow.client == i)
      || (c.flow.origin.Registered? && c.flow.origin.fd == fd && c.flow.origin.interest == i))
  }

  /** Every slot is for a socket that its connection has open, so that `pselect` does not fail. */
  predicate Polled(w: World) { forall a | a in w.conns :: Socks5.Pollable(w.conns[a].flow) }

  /** The slot and the direction that the selector serves with an event of connection a, if any. */
  function Served(a: int, c: Conn, e: Socks5.Event): Option<(int, bool)> {
    match e
    case Io(ClientReadable(_, _), _) => Some((a, true))
    case Io(ClientWritable(_), _) => Some((a, false))
    case Io(OriginReadable(_, _), _) => if c.flow.origin.Registered? then Some((c.flow.origin.fd, true)) else None
    case Io(OriginWritable(_), _) => if c.flow.origin.Registered? then Some((c.flow.origin.fd, false)) else None
    case ConnectReady(_, _, _, _, _) => if c.flow.origin.Registered? then Some((c.flow.origin.fd, false)) else None
    case ResolverDone(_) => None
    case BlockNotified(_, _, _, _) => None
  }

  /** What the scan can dispatch to a connection: what its slot asks for, if `pselect` found it. */
  predicate Dispatched(w: World, a: int, e: Socks5.Event) {
    && a in w.conns && !e.BlockNotified? && Socks5.Offered(w.conns[a], e) && Socks5.WholeReply(w.conns[a], e)
    && (e.ResolverDone? || (w.scanning && var s := Served(a, w.conns[a], e); s.Some? && s.value in w.ready))
    && var n := Obtained(w.conns[a], e); n.Some? ==> CanGet(w.conns, a, n.value)
  }

  predicate Enabled(w: World, e: Event) {
    !w.crossed &&
    match e
    case Poll(ready) =>
      && !w.scanning && Polled(w)
      && forall r | r in ready :: exists a :: a in w.conns && Asks(a, w.conns[a], r.0, r.1)
    case Accept(fd, bufferSize) => w.scanning && bufferSize >= 256 && CanGet(w.conns, fd, fd)
    case Local(fd, event) => Dispatched(w, fd, event) && Socks5.Enabled(w.conns[fd], event)
    case Deliver(answers) => w.scanning && CanDeliver(w, answers)
  }

  /** A new job goes to the head of the list. */
  function Queued(w: World, fd: int, c: Conn, d: Conn): World {
    if d.dns.jobs > c.dns.jobs then w.(jobs := [fd] + w.jobs, pushed := w.pushed + 1) else w
  }

  function Unready(w: World, s: Option<(int, bool)>): World {
    if s.Some? then w.(ready := w.ready - {s.value}) else w
  }

  /** An accepted socket that the selector refuses is closed again. */
  function Step(w: World, e: Event): World
    requires Enabled(w, e)
  {
    match e
    case Poll(ready) => w.(scanning := true, ready := ready)
    case Accept(fd, bufferSize) =>
      if !ValidFd(fd) || IsLeft(w.conns, fd) then w else w.(conns := w.conns[fd := Socks5.Accepted(bufferSize)])
    case Local(fd, event) =>
      var c := w.conns[fd];
      var d := Socks5.Step(c, event);
      Updated(Unready(Queued(w, fd, c, d), Served(fd, c, event)), fd, d, Obtained(c, event))
    case Deliver(answers) => DeliverAll(w, answers).(scanning := false, ready := {})
  }

  predicate IsRun(w: World, es: seq<Event>)
    decreases |es|
  {
    es == [] || (Enabled(w, es[0]) && IsRun(Step(w, es[0]), es[1..]))
  }

  function Run(w: World, es: seq<Event>): World
    requires IsRun(w, es)
    decreases |es|
  {
    if es == [] then w else Run(Step(w, es[0]), es[1..])
  }

  // ---- The list and the connections agree ----

  function Count(jobs: seq<int>, fd: int): nat {
    if jobs == [] then 0 else Count(jobs[1..], fd) + if jobs[0] == fd then 1 else 0
  }

  function Owed(w: World, fd: int): nat { if fd in w.conns then w.conns[fd].dns.jobs else 0 }

  /** Every connection that has entered CONNECTING, ever, asked for one resolution; it has had its one
      notification, or it is queued, or the thread still runs. */
  predicate AskedOnce(c: Conn) {
    && Visits(c.stm.visits, CONNECTING) == c.dns.notified + c.dns.resolving + c.dns.jobs <= 1
    && (c.dns.resolving + c.dns.jobs == 1 ==> c.flow.live && c.flow.client == NOOP && c.stm.current == Some(CONNECTING))
  }

  /** A retry left its slot behind, and another connection has removed it. The client is paused, and nobody
      will ever wake it. */
  predicate Stranded(c: Conn) {
    && c.flow.live && c.stm.current == Some(CONNECTING) && c.flow.client == NOOP && c.flow.origin == Unregistered
    && c.dns.resolving == 0 && c.dns.jobs == 0 && AskedOnce(c) && !c.broken && !c.resumed && !c.flow.stray
  }

  ghost predicate Fine(c: Conn) { Inv(c) || Stranded(c) }

  ghost predicate WorldInv(w: World) {
    && (forall fd | fd in w.conns :: Fine(w.conns[fd]))
    && (forall fd :: Count(w.jobs, fd) == Owed(w, fd))
    && w.pushed == w.served + |w.jobs| && w.stale == 0
  }

  /** As long as a notification is queued for a connection, nothing else can happen to it. */
  lemma {:induction false} OnlyTheNotification(c: Conn, e: Socks5.Event)
    requires Fine(c) && c.dns.jobs > 0 && Socks5.Offered(c, e)
    ensures e.BlockNotified?
  {
    QueuedIsServing(c);
    NotifiedInConnecting(c);
    hide Inv, Stranded;
  }

  lemma {:induction false} OwesAtMostOne(c: Conn)
    requires Fine(c)
    ensures c.dns.jobs <= 1
  {
  }

  lemma {:induction false} QueuedIsServing(c: Conn)
    requires Fine(c) && c.dns.jobs > 0
    ensures Inv(c) && Serving(c) && c.dns.jobs == 1 && Socks5.Pollable(c.flow) && c.flow.origin == Unregistered
  {
  }

  lemma {:induction false} StrandedIsStuck(c: Conn, e: Socks5.Event)
    requires Stranded(c)
    ensures !Socks5.Offered(c, e)
  {
  }

  lemma {:induction false} InvAsksOnce(c: Conn)
    requires Inv(c)
    ensures AskedOnce(c)
  {
  }

  /** Without its slot the connection is stranded, or sends its refusal. */
  lemma {:induction false} WithoutIsFine(c: Conn, fd: int)
    requires Fine(c)
    ensures Fine(Without(c, fd)) && Without(c, fd).dns == c.dns
  {
    if Left(c, fd) {
      InvAsksOnce(c);
      Retries.OrphanIsStuck(c, Socks5.ResolverDone([]));
      hide History, Accounts, Authorized, Asked, Preface;
    }
  }

  /** Whatever becomes of a slot left behind, only connection a changes otherwise. */
  lemma {:induction false} UpdatedKeeps(w: World, a: int, d: Conn, number: Option<int>)
    requires (forall b | b in w.conns :: Fine(w.conns[b])) && Fine(d)
    ensures var v := Updated(w, a, d, number);
      && v == w.(conns := v.conns, crossed := v.crossed) && v.conns.Keys == w.conns.Keys + {a} && v.conns[a] == d
      && forall b | b in v.conns :: Fine(v.conns[b]) && (b != a ==> b in w.conns && v.conns[b].dns == w.conns[b].dns)
  {
    hide Inv, Stranded, Fine;
    var v := Updated(w, a, d, number);
    forall b | b in v.conns && b != a
      ensures Fine(v.conns[b]) && b in w.conns && v.conns[b].dns == w.conns[b].dns
    {
      if number.Some? {
        WithoutIsFine(w.conns[b], number.value);
      }
    }
  }

  /** A change of one connection, with its job queued, served, or neither. */
  lemma {:induction false} ChangeKeeps(w: World, v: World, fd: int)
    requires WorldInv(w) && v.stale == 0 && v.conns.Keys == w.conns.Keys + {fd}
    requires forall b | b in v.conns :: Fine(v.conns[b]) && (b != fd ==> b in w.conns && v.conns[b].dns == w.conns[b].dns)
    requires
      || (v.jobs == w.jobs && Owed(v, fd) == Owed(w, fd) && v.pushed == w.pushed && v.served == w.served)
      || (v.jobs == [fd] + w.jobs && Owed(v, fd) == Owed(w, fd) + 1 && v.pushed == w.pushed + 1 && v.served == w.served)
      || (w.jobs == [fd] + v.jobs && Owed(v, fd) == Owed(w, fd) - 1 && v.pushed == w.pushed && v.served == w.served + 1)
    ensures WorldInv(v)
  {
    hide Fine;
    assert ([fd] + w.jobs)[1..] == w.jobs && ([fd] + v.jobs)[1..] == v.jobs;
    forall g
      ensures Count(v.jobs, g) == Owed(v, g)
    {
      assert Count(w.jobs, g) == Owed(w, g);
    }
  }

  /** An event of a connection that is not a notification queues at most one job. */
  lemma {:induction false} StepQueues(c: Conn, e: Socks5.Event)
    requires Fine(c) && Socks5.Enabled(c, e) && Socks5.WholeReply(c, e) && !e.BlockNotified?
    ensures Inv(c) && Inv(Socks5.Step(c, e)) && c.dns.jobs == 0 && Socks5.Step(c, e).dns.jobs <= 1
  {
    hide Inv, Stranded, Socks5.Step, Socks5.Offered, Socks5.WholeReply;
    if Stranded(c) {
      StrandedIsStuck(c, e);
    }
    if c.dns.jobs > 0 {
      OnlyTheNotification(c, e);
    }
    StepKeeps(c, e);
    OwesAtMostOne(Socks5.Step(c, e));
  }

  lemma {:induction false} LocalKeeps(w: World, fd: int, e: Socks5.Event)
    requires WorldInv(w) && Enabled(w, Local(fd, e))
    ensures WorldInv(Step(w, Local(fd, e)))
  {
    hide Inv, Stranded, Socks5.Step, Socks5.Enabled, Socks5.Offered, Socks5.WholeReply, Served, Updated, Obtained, Fine;
    var c := w.conns[fd];
    StepQueues(c, e);
    var d := Socks5.Step(c, e);
    assert Fine(d) by { InvIsFine(d); }
    var u := Unready(Queued(w, fd, c, d), Served(fd, c, e));
    UpdatedKeeps(u, fd, d, Obtained(c, e));
    ChangeKeeps(w, Step(w, Local(fd, e)), fd);
  }

  lemma {:induction false} InvIsFine(c: Conn)
    requires Inv(c)
    ensures Fine(c)
  {
  }

  /** A finished job goes before those that wait. */
  lemma {:induction false} NewestFirst(w: World, fd: int, e: Socks5.Event)
    requires WorldInv(w) && Enabled(w, Local(fd, e))
    ensures var v := Step(w, Local(fd, e));
      if Owed(v, fd) > 0 then v.jobs == [fd] + w.jobs && fd !in w.jobs else v.jobs == w.jobs
  {
    var c, v := w.conns[fd], Step(w, Local(fd, e));
    assert Fine(c) && Count(w.jobs, fd) == Owed(w, fd);
    hide Fine, WorldInv, Inv, Stranded, Socks5.Step, Socks5.Enabled, Socks5.Offered, Socks5.WholeReply, Served, Obtained;
    StepQueues(c, e);
    CountIn(w.jobs, fd);
  }

  lemma {:induction false} JumpKeepsJobs(c: Conn, next: State)
    ensures Socks5.Jump(c, next).dns.jobs == c.dns.jobs
  {
  }

  lemma {:induction false} WriteKeepsJobs(c: Conn, r: Send)
    ensures Socks5.ClientWrite(c, r).dns.jobs == c.dns.jobs
  {
  }

  lemma {:induction false} BlockCounts(c: Conn, a: Answer)
    requires c.dns.jobs > 0 && |a.verdicts| == |c.dns.addrInfo|
    ensures Socks5.Block(c, a.verdicts, a.fd, a.reply, a.send).dns.jobs == c.dns.jobs - 1
  {
    hide ConnectTo, Put, Socks5.Jump, Socks5.ClientWrite, RegisterOrigin;
    var d := c.(dns := c.dns.(jobs := c.dns.jobs - 1, notified := c.dns.notified + 1));
    var (e, next) := Socks5.ConnectingOnBlock(d, a.verdicts, a.fd, a.reply, a.send);
    var o := ConnectTo(d.dns.addrInfo, a.verdicts);
    var s := d.(flow := d.flow.(originFd := a.fd), dns := d.dns.(addrInfo := o.kept));
    WriteKeepsJobs(Socks5.DropIn(s.(flow := SetClient(PutReply(s.flow, a.reply), WRITE))), a.send);
    JumpKeepsJobs(Socks5.Resume(e), next);
  }

  /** The connection's own view of the notification. */
  lemma {:induction false} NoticedIsEnabled(w: World, fd: int, a: Answer)
    requires fd in w.conns && Fine(w.conns[fd]) && w.conns[fd].dns.jobs > 0 && Plausible(w, fd, a)
    ensures |a.verdicts| == |w.conns[fd].dns.addrInfo| && Noticed(w, w.conns[fd], a).verdicts == a.verdicts
    ensures Inv(w.conns[fd]) && Socks5.Enabled(w.conns[fd], AsEvent(Noticed(w, w.conns[fd], a)))
  {
    QueuedIsServing(w.conns[fd]);
    TriedIsPrefix(w.conns[fd].dns.addrInfo, a.verdicts);
    hide Inv, Fine, Stranded, ConnectTo;
  }

  /** One job: it is served, by the live connection that asked for it. */
  lemma {:induction false} DeliverOneKeeps(w: World, a: Answer)
    requires WorldInv(w) && w.jobs != [] && Plausible(w, w.jobs[0], a)
    ensures w.jobs[0] in w.conns && Serving(w.conns[w.jobs[0]])
    ensures WorldInv(DeliverOne(w, a)) && DeliverOne(w, a).served == w.served + 1
  {
    hide Inv, Stranded, Updated, Noticed, Plausible, Socks5.Block, Socks5.Enabled;
    var fd := w.jobs[0];
    assert Count(w.jobs, fd) == Owed(w, fd);
    var c := w.conns[fd];
    QueuedIsServing(c);
    NoticedIsEnabled(w, fd, a);
    var n := Noticed(w, c, a);
    StepKeeps(c, AsEvent(n));
    BlockCounts(c, n);
    var d := Socks5.Block(c, n.verdicts, n.fd, n.reply, n.send);
    InvIsFine(d);
    hide Fine;
    UpdatedKeeps(w.(jobs := w.jobs[1..]), fd, d, Obtained(c, AsEvent(a)));
    assert w.jobs == [fd] + w.jobs[1..];
    ChangeKeeps(w, DeliverOne(w, a), fd);
  }

  lemma {:induction false} DeliverAllKeeps(w: World, answers: seq<Answer>)
    requires WorldInv(w) && CanDeliver(w, answers)
    ensures var v := DeliverAll(w, answers);
      WorldInv(v) && (v.jobs == [] || v.crossed) && v.served == w.served + |w.jobs| - |v.jobs|
    decreases |answers|
  {
    hide WorldInv, Plausible, DeliverOne;
    if !Done(w) {
      DeliverOneKeeps(w, answers[0]);
      OneJobLess(w, answers[0]);
      DeliverAllKeeps(DeliverOne(w, answers[0]), answers[1..]);
    }
  }

  lemma {:induction false} OneJobLess(w: World, a: Answer)
    requires w.jobs != [] && Plausible(w, w.jobs[0], a)
    ensures DeliverOne(w, a).jobs == w.jobs[1..]
  {
    hide Socks5.Block, Noticed, Obtained;
  }

  lemma {:induction false} EndedOwesNothing(c: Conn)
    requires Fine(c) && !c.flow.live
    ensures c.dns.jobs == 0
  {
  }

  /** A descriptor may be reused as soon as its connection has ended: nothing is queued for it. */
  lemma {:induction false} AcceptKeeps(w: World, fd: int, bufferSize: nat)
    requires WorldInv(w) && Enabled(w, Accept(fd, bufferSize))
    ensures WorldInv(Step(w, Accept(fd, bufferSize)))
  {
    AcceptedInv(bufferSize);
    if fd in w.conns {
      EndedOwesNothing(w.conns[fd]);
    }
    hide Inv, Stranded;
    var v := Step(w, Accept(fd, bufferSize));
    forall g
      ensures Count(v.jobs, g) == Owed(v, g)
    {
      assert Count(w.jobs, g) == Owed(w, g);
    }
  }

  lemma {:induction false} StepKeepsWorld(w: World, e: Event)
    requires WorldInv(w) && Enabled(w, e)
    ensures WorldInv(Step(w, e))
  {
    hide Fine;
    match e
    case Poll(ready) => assert forall fd :: Count(w.jobs, fd) == Owed(w, fd) == Owed(Step(w, e), fd);
    case Accept(fd, bufferSize) => AcceptKeeps(w, fd, bufferSize);
    case Local(fd, event) => LocalKeeps(w, fd, event);
    case Deliver(answers) =>
      DeliverAllKeeps(w, answers);
      var v := DeliverAll(w, answers);
      assert forall fd :: Count(v.jobs, fd) == Owed(v, fd) == Owed(Step(w, e), fd);
  }

  lemma {:induction false} RunKeepsWorld(w: World, es: seq<Event>)
    requires WorldInv(w) && IsRun(w, es)
    ensures WorldInv(Run(w, es))
    decreases |es|
  {
    hide WorldInv, Enabled, Step;
    if es != [] {
      StepKeepsWorld(w, es[0]);
      RunKeepsWorld(Step(w, es[0]), es[1..]);
    }
  }

  lemma {:induction false} CountIn(jobs: seq<int>, fd: int)
    ensures fd in jobs <==> Count(jobs, fd) > 0
  {
    if jobs != [] {
      CountIn(jobs[1..], fd);
    }
  }

  lemma {:induction false} FineAsksOnce(c: Conn)
    requires Fine(c)
    ensures AskedOnce(c) && !c.broken && !c.flow.stray
  {
    if Inv(c) {
      InvAsksOnce(c);
    }
  }

  /** In every interleaving, jobs pushed are jobs served plus jobs pending, and none was ever served to
      the wrong connection or to none; each pending job is for a live connection, waiting in CONNECTING
      with its client paused, and is the only one for it; and each connection is notified exactly once
      per entry into CONNECTING. */
  lemma {:induction false} NotifiedExactlyOnce(es: seq<Event>)
    requires IsRun(EMPTY, es)
    ensures var w := Run(EMPTY, es);
      && w.pushed == w.served + |w.jobs| && w.stale == 0
      && (forall fd | fd in w.jobs :: fd in w.conns && Serving(w.conns[fd]) && Count(w.jobs, fd) == 1)
      && (forall fd | fd in w.conns :: AskedOnce(w.conns[fd]))
  {
    RunKeepsWorld(EMPTY, es);
    var w := Run(EMPTY, es);
    hide Inv, Stranded, AskedOnce, Serving, Run, IsRun, Fine;
    forall fd | fd in w.jobs
      ensures fd in w.conns && Serving(w.conns[fd]) && Count(w.jobs, fd) == 1
    {
      CountIn(w.jobs, fd);
      assert Count(w.jobs, fd) == Owed(w, fd);
      QueuedIsServing(w.conns[fd]);
    }
    forall fd | fd in w.conns
      ensures AskedOnce(w.conns[fd])
    {
      FineAsksOnce(w.conns[fd]);
    }
  }
}
