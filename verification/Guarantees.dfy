// What the invariant means for the users of a connection, over whole runs from the moment it is
// accepted.
module Guarantees {
  import opened Bytes
  import opened StateMachine
  import opened Relay
  import opened Socks5
  import opened Invariant
  import HS = HandshakeParser
  import AU = AuthParser
  import CR = ConnReqParser
  import UT = UserTable
  import Pipe

  // ---- The state machine ----

  /** In every run, nested jumps included, the arrival and departure handlers run once per visit, in
      the order of the visits, along the edges of the protocol; each parser exists exactly while its
      state is current, one was created per visit, and each is released exactly once. */
  lemma {:induction false} HandlersRunOncePerVisit(bufferSize: nat, es: seq<Event>)
    requires bufferSize >= 256 && IsRun(Accepted(bufferSize), es)
    ensures var c := Run(Accepted(bufferSize), es);
      && Path(c.stm.visits) && c.stm.callbacks == CallbacksOf(c.stm.visits)
      && ParsersMatch(c.stm, c.flow.live) && ParsersCounted(c.stm)
      && !c.broken && !c.flow.stray
  {
    AcceptedInv(bufferSize);
    RunKeeps(Accepted(bufferSize), es);
  }

  // ---- The authentication gate ----

  /** The method that the client was told, the credentials it had to send, and who accepted them, in
      terms of the bytes received. */
  predicate LetThrough(n: Negotiation) {
    && |n.greeting| >= 3 && |n.greeting| - 2 == n.greeting[1]
    && n.greeting == HS.Greeting(n.greeting[2..])
    && (if HS.USER_PASS in n.greeting[2..] then
          && n.grant.Granted? && AU.WellFormed(n.grant.username, n.grant.password)
          && n.credentials == AU.Encode(n.grant.username, n.grant.password)
          && Accepts(n.grant.users, n.grant.username, n.grant.password)
        else HS.NO_AUTH in n.greeting[2..])
  }

  lemma {:induction false} AuthorizedMeans(n: Negotiation)
    requires Authorized(n)
    ensures LetThrough(n) && GreetingReply(n) == [HS.SOCKS5_VERSION, HS.Selected(n.greeting[2..])]
  {
    HS.AnsweredShape(n.greeting);
    if Greeted(n).userPass {
      AU.AcceptedLanguage(n.credentials);
    }
  }

  /** Past the gate: waiting for a request, connecting, or relaying. */
  predicate PastGate(c: Conn) {
    c.flow.live && c.stm.current in {Some(CONNECTION_REQ), Some(CONNECTING), Some(COPY)}
  }

  lemma {:induction false} PastGateAuthorized(c: Conn)
    requires Inv(c) && PastGate(c)
    ensures Authorized(c.nego)
  {
  }

  /** Every run that gets past the gate, with whole replies, either was offered 0x00 and not 0x02, or
      had the user table accept exactly the username and password it sent. */
  lemma {:induction false} AuthenticationGate(bufferSize: nat, es: seq<Event>)
    requires bufferSize >= 256 && IsRun(Accepted(bufferSize), es)
    ensures var c := Run(Accepted(bufferSize), es);
      PastGate(c) ==> LetThrough(c.nego)
  {
    AcceptedInv(bufferSize);
    RunKeeps(Accepted(bufferSize), es);
    var c := Run(Accepted(bufferSize), es);
    hide Inv, LetThrough;
    if PastGate(c) {
      PastGateAuthorized(c);
      AuthorizedMeans(c.nego);
    }
  }

  // ---- What the connection is for ----

  /** `bs` is the wire form of the request, or names a domain of length zero and one byte. */
  predicate WireForm(bs: seq<byte>, m: CR.Request) {
    && CR.WellFormed(m)
    && (bs == CR.Encode(m) ||
        (m.dst.DomainName? && |m.dst.name| == 1 && bs == CR.Unannounced(m.cmd, m.dst.name[0], m.port)))
  }

  /** The request that the client sent. */
  function AskedFor(n: Negotiation): CR.Request { CR.Fields(CR.Run(CR.INIT, n.asked)) }

  /** A name that fits, and reads the same as a C string. */
  predicate NameIntact(m: CR.Request) {
    m.dst.DomainName? ==> |m.dst.name| <= MAX_NAME && 0 !in m.dst.name
  }

  lemma {:induction false} CStrWhole(s: seq<byte>)
    ensures CStr(s) == s <==> 0 !in s
  {
  }

  /** What is resolved is what was asked for, unless it is a name that was announced as empty, does not
      fit, or contains a NUL. */
  lemma {:induction false} DestinationIsAskedFor(n: Negotiation)
    requires CR.FirstDoneAtEnd(n.asked)
    ensures var m := AskedFor(n);
      && WireForm(n.asked, m)
      && (DestinationOf(CR.Run(CR.INIT, n.asked)) == Destination(m.dst, m.port) <==>
          n.asked == CR.Encode(m) && NameIntact(m))
  {
    CR.ParsedIsEncoding(n.asked);
    CR.RunConsumes(n.asked);
    var v := CR.Run(CR.INIT, n.asked);
    hide CR.Run, CR.FirstDoneAtEnd;
    if v.atyp == CR.ATYP_DOMAIN_NAME {
      CStrWhole(v.addr);
      assert v.addr[..|v.addr|] == v.addr;
    }
  }

  /** In CONNECTING and COPY a connection is for the very CONNECT request that its client sent after the
      gate, and is logged under the name that the gate accepted, if any. */
  lemma {:induction false} ServesItsRequest(bufferSize: nat, es: seq<Event>)
    requires bufferSize >= 256 && IsRun(Accepted(bufferSize), es)
    ensures var c := Run(Accepted(bufferSize), es);
      c.flow.live && c.stm.current in {Some(CONNECTING), Some(COPY)} ==>
        var m := AskedFor(c.nego);
        && LetThrough(c.nego) && m.cmd == CR.CONNECT && WireForm(c.nego.asked, m)
        && (c.destination == Some(Destination(m.dst, m.port)) <==> c.nego.asked == CR.Encode(m) && NameIntact(m))
        && c.username == if c.nego.grant.Granted? then CStr(c.nego.grant.username) else []
  {
    AcceptedInv(bufferSize);
    RunKeeps(Accepted(bufferSize), es);
    AuthenticationGate(bufferSize, es);
    var c := Run(Accepted(bufferSize), es);
    hide Run, IsRun, LetThrough, WireForm, NameIntact, DestinationOf;
    if c.flow.live && c.stm.current in {Some(CONNECTING), Some(COPY)} {
      AskedMeans(c);
      hide Inv;
      DestinationIsAskedFor(c.nego);
    }
  }

  lemma {:induction false} AskedMeans(c: Conn)
    requires Inv(c) && c.flow.live && c.stm.current in {Some(CONNECTING), Some(COPY)}
    ensures Asked(c.nego, c.destination) && c.username == NameOf(c.nego)
  {
    hide History, Authorized, Asked, Preface, Relaying, InOrder, Visits;
  }

  // ---- Method selection ----

  /** The state that follows the method selected. */
  function StateFor(m: byte): State {
    if m == HS.USER_PASS then AUTH else if m == HS.NO_AUTH then CONNECTION_REQ else ERROR
  }

  /** A connection that is answering a greeting sends the method that should be selected, and once that
      is sent it enters the state that goes with that method. */
  lemma {:induction false} SelectionDecidesState(c: Conn, r: Send)
    requires Inv(c) && c.flow.live && c.stm.current == Some(HANDSHAKE) && c.flow.client == WRITE
    requires SomeSent(r) && r.n >= 2
    ensures var bs := c.nego.greeting;
      && |bs| >= 3
      && var selected := if bs[1] == 0 then HS.NO_ACCEPTABLE else HS.Selected(bs[2..]);
         c.flow.outB == [HS.SOCKS5_VERSION, selected] && ClientWrite(c, r).stm.current == Some(StateFor(selected))
  {
    hide History, Accounts, HS.Run, HS.Answered, Visits;
    AnsweringMeans(c);
    HS.AnsweredShape(c.nego.greeting);
    hide Inv;
    var d := c.(flow := SentToClient(c.flow, 2));
    assert ClientWrite(c, r) == Jump(d, AfterWrite(d));
  }

  lemma {:induction false} AnsweringMeans(c: Conn)
    requires Inv(c) && c.flow.live && c.stm.current == Some(HANDSHAKE) && c.flow.client == WRITE
    ensures c.stm.hs == Some(Greeted(c.nego)) && HS.Answered(c.nego.greeting) && c.flow.outB == GreetingReply(c.nego)
    ensures c.isError == !(Greeted(c.nego).noAuth || Greeted(c.nego).userPass) && c.flow.inB == []
  {
  }

  /** The user table, as the gate asks it. */
  function AsUsers(t: UT.Chains): Users {
    map n | n in UT.AllNames(t) && UT.Lookup(t, n).Some? :: UT.Lookup(t, n).value
  }

  /** What the gate accepts is what the hash table holds, by the C strings in the parsed fields. */
  lemma {:induction false} GateAsksTheTable(t: UT.Chains, u: seq<byte>, p: seq<byte>)
    requires UT.Sound(t)
    ensures Accepts(AsUsers(t), u, p) <==> UT.Checked(t, CStr(u), CStr(p))
  {
    hide UT.Hash, UT.Checked, UT.Lookup, UT.AllNames;
    UT.ListsEveryUserOnce(t, CStr(u));
    UT.CheckIsLookup(t, CStr(u), CStr(p));
  }

  // ---- Error replies are final ----

  /** A live connection that has been answered with an error has nothing under way but its reply. */
  lemma {:induction false} ErrorPending(c: Conn)
    requires Inv(c) && c.isError && c.flow.live
    ensures c.flow.client == WRITE && c.flow.outB != [] && c.flow.inB == []
    ensures Pollable(c.flow) ==> c.flow.origin == Unregistered
    ensures NoResolution(c.dns) && c.stm.current.Some? && HasWriteHandler(c.stm.current.value)
    ensures c.stm.current == Some(HANDSHAKE) ==> c.stm.hs.Some?
    ensures CanDepart(c.stm)
  {
  }

  /** Nothing happens to a connection that has ended. */
  lemma {:induction false} NothingAfterTheEnd(c: Conn, e: Event)
    requires Inv(c) && !c.flow.live
    ensures !Enabled(c, e)
  {
  }

  lemma {:induction false} EndedRun(c: Conn, es: seq<Event>)
    requires Inv(c) && !c.flow.live && IsRun(c, es)
    ensures es == [] && Run(c, es) == c
  {
    hide Inv, Enabled, WholeReply, Step;
    if es != [] {
      NothingAfterTheEnd(c, es[0]);
    }
  }

  /** No state is entered between the two, or only the one that ends the connection. */
  predicate ErrorStays(c: Conn, d: Conn) {
    && d.isError
    && (if d.flow.live then c.flow.live && d.stm.visits == c.stm.visits && d.stm.current == c.stm.current
        else d.stm.visits == c.stm.visits || d.stm.visits == c.stm.visits + [ERROR])
    && d.stm.current in {c.stm.current, Some(ERROR)}
  }

  lemma {:induction false} ErrorReplySent(c: Conn, r: Send)
    requires c.isError && c.flow.live && c.flow.outB != [] && c.flow.inB == []
    requires c.stm.current.Some? && HasWriteHandler(c.stm.current.value) && CanDepart(c.stm)
    ensures ErrorStays(c, ClientWrite(c, r))
  {
    hide CanDepart;
  }

  lemma {:induction false} ErrorStep(c: Conn, e: Event)
    requires Inv(c) && c.isError && Enabled(c, e)
    ensures ErrorStays(c, Step(c, e))
  {
    if !c.flow.live {
      NothingAfterTheEnd(c, e);
    } else {
      ErrorPending(c);
      hide Inv, ErrorStays, ClientWrite, ConnectDone, Block, Resolved, ClientRead;
      ErrorReplySent(c, e.io.send);
    }
  }

  /** Once a connection has been answered with an error, the only state it can still enter is ERROR,
      and with that it ends; so it never reaches COPY. */
  lemma {:induction false} ErrorIsFinal(c: Conn, es: seq<Event>)
    requires Inv(c) && c.flow.live && c.isError && IsRun(c, es)
    ensures ErrorStays(c, Run(c, es)) && Run(c, es).stm.current != Some(COPY)
    decreases |es|
  {
    assert c.stm.current != Some(COPY) by {
      ErrorPending(c);
    }
    hide Inv, Step;
    if es != [] {
      var d := Step(c, es[0]);
      ErrorStep(c, es[0]);
      StepKeeps(c, es[0]);
      if d.flow.live {
        ErrorIsFinal(d, es[1..]);
      } else {
        EndedRun(d, es[1..]);
      }
    }
  }

  /** The way back from CONNECTING to CONNECTION_REQ is taken with an error reply only. */
  lemma {:induction false} BackwardOnlyInError(bufferSize: nat, es: seq<Event>)
    requires bufferSize >= 256 && IsRun(Accepted(bufferSize), es)
    ensures var c := Run(Accepted(bufferSize), es);
      c.flow.live && c.stm.current == Some(CONNECTION_REQ) && Visits(c.stm.visits, CONNECTING) > 0 ==> c.isError
  {
    AcceptedInv(bufferSize);
    RunKeeps(Accepted(bufferSize), es);
    hide History, Visits, Authorized, Asked, Preface;
  }

  // ---- The gate is exactly as strong as its sends are whole ----

  predicate IsFreeRun(c: Conn, es: seq<Event>)
    decreases |es|
  {
    es == [] || (Enabled(c, es[0]) && IsFreeRun(Step(c, es[0]), es[1..]))
  }

  /** A run with sends of any size. */
  function FreeRun(c: Conn, es: seq<Event>): Conn
    requires IsFreeRun(c, es)
    decreases |es|
  {
    if es == [] then c else FreeRun(Step(c, es[0]), es[1..])
  }

  /** A send that moves anything offers to move at least `least` bytes. */
  predicate SendsAtLeast(least: nat, es: seq<Event>) {
    forall e :: e in es && e.Io? && SomeSent(e.io.send) ==> e.io.send.n >= least
  }

  lemma {:induction false} LargeSendsAreWhole(c: Conn, es: seq<Event>)
    requires IsFreeRun(c, es) && SendsAtLeast(2, es)
    ensures IsRun(c, es) && Run(c, es) == FreeRun(c, es)
    decreases |es|
  {
    hide Step, Enabled;
    if es != [] {
      assert es[0] in es;
      LargeSendsAreWhole(Step(c, es[0]), es[1..]);
    }
  }

  predicate GateHolds(bufferSize: nat, es: seq<Event>)
    requires IsFreeRun(Accepted(bufferSize), es)
  {
    var c := FreeRun(Accepted(bufferSize), es); PastGate(c) ==> LetThrough(c.nego)
  }

  /** A client that offers only 0x02, and whose reply goes out one byte at a time, sends no
      credentials and is asked for its request. */
  function SplitReply(env: Env): seq<Event> {
    [Io(ClientReadable(Received([HS.SOCKS5_VERSION, 1, HS.USER_PASS]), Sent(1)), env), Io(ClientWritable(Sent(1)), env)]
  }

  /** The greeting of SplitReply. */
  lemma {:induction false} SplitGreeting()
    ensures var bs := [HS.SOCKS5_VERSION, 1, HS.USER_PASS];
      && GreetingAlone(HS.INIT, bs)
      && HS.Step(HS.INIT, bs[0]) == (HS.INIT.(state := HS.State.NMETHODS), HS.State.VERSION)
      && HS.Step(HS.INIT.(state := HS.State.NMETHODS), bs[1])
           == (HS.Value(HS.State.METHODS, 1, 0, false, false), HS.State.NMETHODS)
      && HS.Step(HS.Value(HS.State.METHODS, 1, 0, false, false), bs[2])
           == (HS.Value(HS.State.METHODS, 1, 1, false, true), HS.State.DONE)
  {
  }

  /** The read of that greeting, with one byte of the reply sent. */
  lemma {:induction false} SplitFirst(bufferSize: nat, env: Env)
    requires bufferSize >= 256
    ensures var c := ClientRead(Accepted(bufferSize), Received([HS.SOCKS5_VERSION, 1, HS.USER_PASS]), Sent(1), env);
      && c.flow.live && c.stm.current == Some(AUTH) && c.stm.au.Some? && !c.isError
      && c.flow.outB == [HS.USER_PASS] && c.flow.client == WRITE && c.flow.origin == Unregistered
      && c.nego == Negotiation([HS.SOCKS5_VERSION, 1, HS.USER_PASS], [], NoGrant, [])
  {
    var bs := [HS.SOCKS5_VERSION, 1, HS.USER_PASS];
    var c0 := HandleFirst(Gained(Accepted(bufferSize), bs));
    assert c0.flow.inB == bs;
    hide HandshakeRead, AuthRead, ConnReqRead, CopyReadReady, Jumped, CanDepart;
    SplitHandshake(c0);
  }

  lemma {:induction false} SplitHandshake(c: Conn)
    requires c.flow.live && c.flow.outB == [] && c.flow.cap >= 2 && c.flow.originFd == 0 && c.flow.origin == Unregistered
    requires c.stm.current == Some(HANDSHAKE) && c.stm.hs == Some(HS.INIT) && c.nego == Negotiation([], [], NoGrant, [])
    requires c.flow.inB == [HS.SOCKS5_VERSION, 1, HS.USER_PASS]
    ensures var (d, next) := HandshakeRead(c, Sent(1));
      && d.flow.live && d.stm.current == Some(AUTH) && next == AUTH && d.stm.au.Some? && !d.isError
      && d.flow.outB == [HS.USER_PASS] && d.flow.client == WRITE && d.flow.origin == Unregistered
      && d.nego == Negotiation([HS.SOCKS5_VERSION, 1, HS.USER_PASS], [], NoGrant, [])
  {
    hide HS.Step, ClientWrite;
    SplitGreeting();
    var bs := c.flow.inB;
    assert bs[1..][1..] == [bs[2]] && bs[1..][0] == bs[1];
    var c1 := FedGreeting(c, HS.INIT.(state := HS.State.NMETHODS));
    var c2 := FedGreeting(c1, HS.Value(HS.State.METHODS, 1, 0, false, false));
    var v := HS.Value(HS.State.METHODS, 1, 1, false, true);
    var c3 := FedGreeting(c2, v);
    assert c1.flow.inB == bs[1..] && c2.flow.inB == [bs[2]] && c3.flow.inB == [];
    assert c3.nego.greeting == bs;
    SplitAnswer(c3, v);
    hide AnswerGreeting;
    assert HandshakeRead(c2, Sent(1)) == (AnswerGreeting(c3, v, Sent(1)), AUTH);
    assert HandshakeRead(c, Sent(1)) == HandshakeRead(c1, Sent(1)) == HandshakeRead(c2, Sent(1));
  }

  /** The first byte of the answer is enough to move on. */
  lemma {:induction false} SplitAnswer(c: Conn, v: HS.Value)
    requires c.flow.live && c.flow.outB == [] && c.flow.inB == [] && c.flow.cap >= 2 && c.flow.originFd == 0
    requires c.stm.current == Some(HANDSHAKE) && c.stm.hs == Some(v) && v.userPass
    ensures var d := AnswerGreeting(c, v, Sent(1));
      && d.flow.live && d.stm.current == Some(AUTH) && d.stm.au.Some? && !d.isError
      && d.flow.inB == [] && d.flow.outB == [HS.USER_PASS] && d.flow.client == WRITE && d.nego == c.nego
      && d.flow.origin == c.flow.origin
  {
  }

  lemma {:induction false} SplitReplyPassesGate(bufferSize: nat, env: Env)
    requires bufferSize >= 256 && env.reply == COMMAND_NOT_SUPPORTED
    ensures IsFreeRun(Accepted(bufferSize), SplitReply(env)) && SendsAtLeast(1, SplitReply(env))
    ensures !GateHolds(bufferSize, SplitReply(env))
  {
    var c, es := Accepted(bufferSize), SplitReply(env);
    SplitIsEnabled(bufferSize, env);
    hide ClientRead, LetThrough, GreetingAlone, NotPipelined, ClientWrite;
    var d := Step(c, es[0]);
    assert d == ClientRead(c, Received([HS.SOCKS5_VERSION, 1, HS.USER_PASS]), Sent(1), env);
    SplitFirst(bufferSize, env);
    SplitSecond(d);
    TwoSteps(c, es[0], es[1]);
  }

  lemma {:induction false} TwoSteps(c: Conn, e: Event, f: Event)
    requires Enabled(c, e) && Enabled(Step(c, e), f)
    ensures IsFreeRun(c, [e, f]) && FreeRun(c, [e, f]) == Step(Step(c, e), f)
  {
    hide Enabled, Step;
    assert [e, f][1..] == [f] && [f][1..] == [];
    assert IsFreeRun(Step(Step(c, e), f), []) && IsFreeRun(Step(c, e), [f]);
    assert FreeRun(Step(c, e), [f]) == Step(Step(c, e), f);
  }

  lemma {:induction false} SplitIsEnabled(bufferSize: nat, env: Env)
    requires bufferSize >= 256 && env.reply == COMMAND_NOT_SUPPORTED
    ensures Enabled(Accepted(bufferSize), SplitReply(env)[0])
  {
    SplitGreeting();
  }

  lemma {:induction false} SplitSecond(c: Conn)
    requires c.flow.live && c.stm.current == Some(AUTH) && c.stm.au.Some? && !c.isError
    requires c.flow.outB == [HS.USER_PASS] && c.nego == Negotiation([HS.SOCKS5_VERSION, 1, HS.USER_PASS], [], NoGrant, [])
    ensures PastGate(ClientWrite(c, Sent(1))) && !LetThrough(ClientWrite(c, Sent(1)).nego)
  {
    NotThrough(c.nego);
    hide LetThrough;
  }

  lemma {:induction false} NotThrough(n: Negotiation)
    requires n == Negotiation([HS.SOCKS5_VERSION, 1, HS.USER_PASS], [], NoGrant, [])
    ensures !LetThrough(n)
  {
    assert n.greeting[2..] == [HS.USER_PASS];
  }

  /** The gate holds over all runs whose sends move at least `least` bytes, or none, if and only if
      that is enough for the two bytes of a reply. */
  lemma {:induction false} GateNeedsWholeReplies(bufferSize: nat, least: nat)
    requires bufferSize >= 256
    ensures (forall es | IsFreeRun(Accepted(bufferSize), es) && SendsAtLeast(least, es) :: GateHolds(bufferSize, es))
       <==> least >= 2
  {
    if least >= 2 {
      forall es | IsFreeRun(Accepted(bufferSize), es) && SendsAtLeast(least, es)
        ensures GateHolds(bufferSize, es)
      {
        assert SendsAtLeast(2, es);
        LargeSendsAreWhole(Accepted(bufferSize), es);
        AuthenticationGate(bufferSize, es);
      }
    } else {
      var env := Env(map[], Resolver(false, []), COMMAND_NOT_SUPPORTED);
      SplitReplyPassesGate(bufferSize, env);
      assert SendsAtLeast(least, SplitReply(env));
    }
  }

  // ---- The relay, as a part of whole runs ----

  predicate AllIo(es: seq<Event>) { forall e :: e in es ==> e.Io? }

  function Ios(es: seq<Event>): seq<IoEvent>
    requires AllIo(es)
  {
    seq(|es|, i requires 0 <= i < |es| => es[i].io)
  }

  /** From COPY only the two sockets are served, and until the end the state stays COPY. */
  lemma {:induction false} CopyStep(c: Conn, e: Event)
    requires Inv(c) && c.flow.live && c.stm.current == Some(COPY) && Enabled(c, e)
    ensures e.Io? && IoEnabled(c.flow, e.io) && Step(c, e).flow == IoStep(c.flow, e.io)
    ensures Step(c, e).flow.live ==> Step(c, e).stm.current == Some(COPY)
  {
    OnlyIoInCopy(c, e);
    CopyRefinesRelay(c, e.io, e.env);
    CopyStays(c, e.io, e.env);
  }

  lemma {:induction false} OnlyIoInCopy(c: Conn, e: Event)
    requires Inv(c) && c.flow.live && c.stm.current == Some(COPY) && Enabled(c, e)
    ensures e.Io? && IoEnabled(c.flow, e.io)
  {
  }

  /** The machine is as it was, or the connection has ended, perhaps in ERROR. */
  predicate StaysUnlessEnded(c: Conn, d: Conn) {
    (d.flow.live ==> d.stm == c.stm) && d.stm.visits in {c.stm.visits, c.stm.visits + [ERROR]}
  }

  lemma {:induction false} EndedOrSame(c: Conn)
    ensures StaysUnlessEnded(c, CloseIfEnded(c))
  {
  }

  lemma {:induction false} CopyWriteStays(c: Conn, r: Send)
    requires c.stm.current == Some(COPY)
    ensures StaysUnlessEnded(c, ClientWrite(c, r))
  {
    hide WriteToClient, CloseIfEnded;
    EndedOrSame(c.(flow := WriteToClient(c.flow, r)));
  }

  lemma {:induction false} CopyReadyStays(c: Conn, r: Send)
    requires c.flow.live && c.stm.current == Some(COPY)
    ensures var (e, next) := CopyReadReady(c, r); StaysUnlessEnded(c, Jump(e, next))
  {
    hide WriteToOrigin, SetOrigin, CloseIfEnded, ReleaseOrigin, RegisterOrigin;
    EndedOrSame(c.(flow := WriteToOrigin(SetOrigin(c.flow, WRITE), r)));
  }

  lemma {:induction false} CopyReadStays(c: Conn, recv: Recv, r: Send, env: Env)
    requires c.flow.live && c.stm.current == Some(COPY)
    ensures StaysUnlessEnded(c, ClientRead(c, recv, r, env))
  {
    hide HandshakeRead, AuthRead, ConnReqRead, CopyReadReady, Jump, PauseClient;
    if recv.Received? {
      CopyReadyStays(Gained(c, recv.bytes), r);
    }
  }

  lemma {:induction false} CopyStays(c: Conn, io: IoEvent, env: Env)
    requires c.flow.live && c.stm.current == Some(COPY)
    ensures StaysUnlessEnded(c, React(c, io, env))
  {
    hide ClientRead, ClientWrite, CloseIfEnded, StaysUnlessEnded;
    match io
    case ClientReadable(recv, send) => CopyReadStays(c, recv, send, env);
    case ClientWritable(send) => CopyWriteStays(c, send);
    case OriginReadable(recv, send) => CopyOriginReadStays(c, recv, send);
    case OriginWritable(send) => CopyOriginWriteStays(c, send);
  }

  lemma {:induction false} CopyOriginReadStays(c: Conn, recv: Recv, r: Send)
    requires c.stm.current == Some(COPY)
    ensures StaysUnlessEnded(c, OriginRead(c, recv, r))
  {
    hide ClientWrite, CloseIfEnded, ReadFromOrigin;
    if recv.Received? {
      CopyWriteStays(c.(flow := SetClient(FromOrigin(c.flow, recv.bytes), WRITE)), r);
    }
    EndedOrSame(c.(flow := ReadFromOrigin(c.flow, recv, r)));
  }

  lemma {:induction false} CopyOriginWriteStays(c: Conn, r: Send)
    ensures StaysUnlessEnded(c, CopyWrite(c, r))
  {
    hide CloseIfEnded, WriteToOrigin;
    EndedOrSame(c.(flow := WriteToOrigin(c.flow, r)));
  }

  lemma {:induction false} PutLives(f: Flow, bytes: seq<byte>)
    ensures Put(f, bytes).live == f.live && Put(f, bytes).client == f.client
  {
  }

  /** From COPY on, the connection is the relay: every run of the one is a run of the other on the
      same data path. What is proved of the relay's runs holds of the connection's. */
  lemma {:induction false} CopyRunIsRelayRun(c: Conn, es: seq<Event>)
    requires Inv(c) && (c.flow.live ==> c.stm.current == Some(COPY)) && IsRun(c, es)
    ensures AllIo(es) && IsIoRun(c.flow, Ios(es)) && Run(c, es).flow == IoRun(c.flow, Ios(es))
    decreases |es|
  {
    hide Inv, Enabled, Step, IoEnabled, IoStep, WholeReply;
    if es != [] {
      if !c.flow.live {
        NothingAfterTheEnd(c, es[0]);
      } else {
        CopyStep(c, es[0]);
        StepKeeps(c, es[0]);
        CopyRunIsRelayRun(Step(c, es[0]), es[1..]);
        assert es == [es[0]] + es[1..];
        assert Ios(es)[1..] == Ios(es[1..]);
      }
    }
  }

  /** The relay of a connection, over any run from a moment in COPY: pending bytes always have their writer
      armed and no side is paused without cause; in both directions what has been sent on and what is buffered
      are what was there at that moment and what the events brought in, in order; the metric is the number of
      bytes sent to the client; and if the origin finishes and no send to the client fails, the connection
      ends with nothing left to send to the client. `UploadAtClientEof` has the other direction. */
  lemma {:induction false} RelayDelivers(c: Conn, es: seq<Event>)
    requires Inv(c) && c.flow.live && c.stm.current == Some(COPY) && IsRun(c, es)
    ensures AllIo(es)
    ensures var f, p, cap, ios := Run(c, es).flow, Pipe.PipeOf(c.flow), c.flow.cap, Ios(es);
      && (f.live ==> HalfDuplex(f) && Awake(f))
      && f.io.toOrigin + f.inB == c.flow.io.toOrigin + c.flow.inB + Pipe.ClientBytes(p, cap, ios)
      && f.io.toClient + f.outB == c.flow.io.toClient + c.flow.outB + Pipe.OriginBytes(p, cap, ios)
      && f.bytesMetric == |f.io.toClient|
      && (!f.live && Pipe.OriginEnds(p, cap, ios) && !Pipe.ClientFails(p, cap, ios) ==> f.outB == [])
  {
    CopyIsRelay(c);
    hide Inv, IsRun, Run, IsIoRun, IoRun, RelayInv, Awake, HalfDuplex, AllIo;
    CopyRunIsRelayRun(c, es);
    var f, ios := IoRun(c.flow, Ios(es)), Ios(es);
    IoRunKeeps(c.flow, ios);
    Pipe.IoRunIsPipe(c.flow, ios);
    Pipe.Conserves(Pipe.PipeOf(c.flow), c.flow.cap, ios);
    if Pipe.OriginEnds(Pipe.PipeOf(c.flow), c.flow.cap, ios) && !Pipe.ClientFails(Pipe.PipeOf(c.flow), c.flow.cap, ios) {
      Pipe.DrainsAfterOrigin(c.flow, ios);
    }
    if f.live {
      AlwaysAwake(c.flow, ios);
    }
    RelayInvMeans(f);
  }

  lemma {:induction false} RelayInvMeans(f: Flow)
    requires RelayInv(f)
    ensures (f.live ==> HalfDuplex(f)) && InOrder(f.io, f.inB, f.outB) && f.bytesMetric == |f.io.toClient|
  {
  }

  /** The other direction is not drained: in every connection that is relaying, the end of the client's
      stream ends it, and everything the client sent has reached the origin if and only if nothing was
      left in the input buffer. */
  lemma {:induction false} UploadAtClientEof(c: Conn, r: Send, env: Env)
    requires Inv(c) && c.flow.live && c.stm.current == Some(COPY) && |c.flow.inB| < c.flow.cap
    requires Enabled(c, Io(ClientReadable(Closed, r), env))
    ensures var f := Step(c, Io(ClientReadable(Closed, r), env)).flow;
      !f.live && f.io.fromClient == c.flow.io.fromClient && (f.io.toOrigin == f.io.fromClient <==> c.flow.inB == [])
  {
    CopyIsRelay(c);
    CopyStep(c, Io(ClientReadable(Closed, r), env));
    hide Inv, Step, RelayInv, IoStep;
    ClientEofExactly(c.flow, r);
  }

  /** Everything that a client is sent, up to a point in COPY: 05 and the method that its greeting selects,
      01 00 if it had to log in, the CONNECT reply, and then what the origin sent, with nothing lost, repeated
      or reordered. */
  lemma {:induction false} ClientStream(bufferSize: nat, es: seq<Event>)
    requires bufferSize >= 256 && IsRun(Accepted(bufferSize), es)
    ensures var c := Run(Accepted(bufferSize), es);
      c.flow.live && c.stm.current == Some(COPY) ==>
        && LetThrough(c.nego) && (c.nego.grant.Granted? <==> 2 in c.nego.greeting[2..])
        && c.flow.io.toClient + c.flow.outB ==
             (if c.nego.grant.Granted? then [5, 2, 1, 0] else [5, 0]) + c.flow.io.reply + c.flow.io.fromOrigin
  {
    AcceptedInv(bufferSize);
    RunKeeps(Accepted(bufferSize), es);
    var c := Run(Accepted(bufferSize), es);
    hide Run, IsRun;
    if c.flow.live && c.stm.current == Some(COPY) {
      PastGateAuthorized(c);
      InCopyMeans(c);
      hide Inv;
      PrefaceIs(c.nego);
    }
  }

  /** The replies of a negotiation that let the client through. */
  lemma {:induction false} PrefaceIs(n: Negotiation)
    requires Authorized(n)
    ensures LetThrough(n) && (n.grant.Granted? <==> 2 in n.greeting[2..])
    ensures Preface(n) == if n.grant.Granted? then [5, 2, 1, 0] else [5, 0]
  {
    AuthorizedMeans(n);
    HS.AnsweredShape(n.greeting);
    hide AU.FirstDoneAtEnd, AU.Run, HS.Answered, HS.Run, Accepts;
  }

  lemma {:induction false} InCopyMeans(c: Conn)
    requires Inv(c) && c.flow.live && c.stm.current == Some(COPY)
    ensures c.flow.io.toClient + c.flow.outB == Preface(c.nego) + c.flow.io.reply + c.flow.io.fromOrigin
  {
  }

  // ---- Replies are never dropped ----

  /** `buffer_write_struct` drops what does not fit. With 256 bytes of room it never happens: whatever
      was meant for the client was sent or waits in the buffer, in order and whole. */
  lemma {:induction false} NothingQueuedIsDropped(bufferSize: nat, es: seq<Event>)
    requires bufferSize >= 256 && IsRun(Accepted(bufferSize), es)
    ensures var f := Run(Accepted(bufferSize), es).flow;
      f.io.toClient + f.outB == f.io.queued && f.bytesMetric == |f.io.toClient|
  {
    AcceptedInv(bufferSize);
    RunKeeps(Accepted(bufferSize), es);
  }
}
