// Every connection of the server is a session: over every run, what Socks5.dfy's handlers do, on parsers,
// buffers and interests, shows both ends exactly what Session.dfy says.
module Refinement {
  import opened Bytes
  import opened AddressFallback
  import opened StateMachine
  import opened Relay
  import opened Socks5
  import opened Invariant
  import HS = HandshakeParser
  import AU = AuthParser
  import CR = ConnReqParser
  import G = Guarantees
  import K = Connection
  import O = Outcomes
  import R = Retries
  import Pipe
  import S = Session

  // ---- What the parsers make of the bytes ----

  lemma {:induction false} GreetingReport(got: seq<byte>, b: byte)
    requires HS.NothingFinal(got)
    ensures !S.BadGreeting(got) && !S.WholeGreeting(got)
    ensures var report := HS.Step(HS.Run(HS.INIT, got), b).1;
      && (report == HS.State.ERROR <==> S.BadGreeting(got + [b]))
      && (report == HS.State.DONE <==> !S.BadGreeting(got + [b]) && S.WholeGreeting(got + [b]))
  {
    HS.PendingShape(got);
    hide HS.NothingFinal, HS.Run, HS.AllValid;
    var all := got + [b];
    if |got| >= 2 {
      hide S.BadGreeting;
      BadMeans(got);
      BadMeans(all);
      assert all[2..] == got[2..] + [b];
      HS.OneMoreMethod(got[2..], b);
    }
  }

  lemma {:induction false} BadMeans(bs: seq<byte>)
    requires |bs| >= 2
    ensures S.BadGreeting(bs) <==> bs[0] != 5 || !HS.AllValid(bs[2..])
  {
    assert forall i | 2 <= i < |bs| :: bs[i] == bs[2..][i - 2];
    if i :| 2 <= i < |bs| && bs[i] > 2 {
      assert bs[2..][i - 2] in bs[2..];
    }
  }

  /** The parser after these bytes. */
  function GreetedWith(c: Conn, all: seq<byte>): Conn {
    c.(flow := c.flow.(inB := []), stm := c.stm.(hs := Some(HS.Run(HS.INIT, all))), nego := c.nego.(greeting := all))
  }

  predicate Greeting(c: Conn) {
    && c.flow.live && c.stm.current == Some(HANDSHAKE) && c.stm.hs == Some(HS.Run(HS.INIT, c.nego.greeting))
    && HS.NothingFinal(c.nego.greeting) && GreetingAlone(c.stm.hs.value, c.flow.inB)
  }

  /** What reading a chunk of a greeting comes to, when the whole message so far is `all`. */
  predicate GreetingIs(c: Conn, all: seq<byte>, r: Send, d: Conn, next: State) {
    if S.BadGreeting(all) then
      next == ERROR && d.stm.hs.Some? && d == c.(flow := c.flow.(inB := d.flow.inB), stm := c.stm.(hs := d.stm.hs), nego := d.nego)
    else if !S.WholeGreeting(all) then d == GreetedWith(c, all) && next == HANDSHAKE && HS.NothingFinal(all)
    else
      var e := AnswerGreeting(GreetedWith(c, all), HS.Run(HS.INIT, all), r);
      HS.Answered(all) && d == Resume(e) && next == CurrentOr(e, ERROR)
  }

  lemma {:induction false} ReadGreeting(c: Conn, r: Send)
    requires Greeting(c)
    ensures var (d, next) := HandshakeRead(c, r); GreetingIs(c, c.nego.greeting + c.flow.inB, r, d, next)
    decreases |c.flow.inB|
  {
    hide HS.Step, HS.Run, AnswerGreeting, S.BadGreeting, S.WholeGreeting, HS.NothingFinal, HS.Answered, HandshakeRead;
    var got := c.nego.greeting;
    if c.flow.inB == [] {
      assert got + [] == got;
      GreetingReport(got, 0);
      NothingToRead(c, r);
    } else {
      var b, rest := c.flow.inB[0], c.flow.inB[1..];
      var (v, report) := HS.Step(c.stm.hs.value, b);
      var d := FedGreeting(c, v);
      K.GreetingTurn(c, r);
      HS.FeedOne(got, b);
      GreetingReport(got, b);
      assert got + c.flow.inB == got + [b] + rest;
      if report == HS.State.ERROR {
        BadStaysBad(got + [b], rest);
      } else if report == HS.State.DONE {
        assert rest == [];
        assert got + [b] + rest == got + [b] && d == GreetedWith(c, got + [b]);
        LastOfGreeting(d, v, r);
      } else {
        ReadGreeting(d, r);
      }
    }
  }

  lemma {:induction false} NothingToRead(c: Conn, r: Send)
    requires c.flow.inB == []
    ensures HandshakeRead(c, r) == (c, CurrentOr(c, ERROR))
  {
  }

  lemma {:induction false} LastOfGreeting(c: Conn, v: HS.Value, r: Send)
    requires c.flow.inB == []
    ensures var e := AnswerGreeting(c, v, r);
      e.flow.inB == [] && HandshakeRead(e, r) == (e, CurrentOr(e, ERROR)) && (e.flow.live ==> Resume(e) == e)
      && (!e.flow.live ==> Resume(e) == e.(resumed := true))
  {
    hide AnswerGreeting;
    AnswerKeepsInput(c, v, r);
    NothingToRead(AnswerGreeting(c, v, r), r);
  }

  lemma {:induction false} BadStaysBad(a: seq<byte>, b: seq<byte>)
    requires S.BadGreeting(a)
    ensures S.BadGreeting(a + b)
  {
    if i :| 2 <= i < |a| && a[i] > 2 {
      assert (a + b)[i] > 2;
    }
  }

  // ---- Which session a connection is ----

  /** What follows the reply that is owed. */
  function Follows(c: Conn): S.Phase {
    if c.isError then S.Over
    else if c.stm.current == Some(HANDSHAKE) && c.stm.hs.Some? && c.stm.hs.value.userPass then S.Credentials([])
    else S.Request([])
  }

  predicate InState(c: Conn, p: S.Phase) {
    match p
    case Greeting(got) => c.stm.current in {None, Some(HANDSHAKE)} && c.flow.client == READ && c.nego.greeting == got
    case Credentials(got) => c.stm.current == Some(AUTH) && c.flow.client == READ && c.nego.credentials == got
    case Request(got) => c.stm.current == Some(CONNECTION_REQ) && c.flow.client == READ && c.nego.asked == got
    case Replying(after) => c.stm.current.Some? && c.stm.current != Some(COPY) && c.flow.client == WRITE && after == Follows(c)
    case Resolving(found) =>
      && c.stm.current == Some(CONNECTING) && c.flow.client == NOOP && c.dns.resolving + c.dns.jobs > 0
      && c.dns.addrInfo == found
    case Connecting(left) =>
      && c.stm.current == Some(CONNECTING) && c.flow.client == NOOP && c.dns.resolving + c.dns.jobs == 0
      && c.dns.addrInfo == left
    case Relaying => c.stm.current == Some(COPY)
    case Over => false
  }

  /** The same bytes have been sent and are owed, the same is logged, and the client is awaited as the phase
      says. */
  predicate Shows(c: Conn, s: S.Session) {
    && s.cap == c.flow.cap && s.user == c.username && s.destination == c.destination
    && s.pipe.toClient == c.flow.io.toClient && s.pipe.owed == c.flow.outB && s.pipe.toOrigin == c.flow.io.toOrigin
    && c.flow.live == (s.phase != S.Over) == !s.pipe.over
    && (c.flow.live ==>
          && InState(c, s.phase)
          && (if s.phase == S.Relaying then s.pipe == Pipe.PipeOf(c.flow) else !s.pipe.originOpen && s.pipe.upload == []))
  }

  // ---- Replies ----

  /** What both ends, and the log, can tell. */
  predicate SameOutside(c: Conn, d: Conn) {
    && d.flow.cap == c.flow.cap && d.flow.outB == c.flow.outB && d.flow.io.toClient == c.flow.io.toClient
    && d.flow.io.toOrigin == c.flow.io.toOrigin && d.username == c.username && d.destination == c.destination
  }

  lemma {:induction false} JumpIs(c: Conn, next: State)
    requires c.flow.live && c.stm.current.Some? && c.stm.current.value !in {COPY, next} && CanDepart(c.stm)
      && next !in {COPY, DONE}
    ensures var d := Jump(c, next);
      && SameOutside(c, d)
      && if next == ERROR then !d.flow.live else d == c.(stm := d.stm) && d.stm.current == Some(next)
  {
    hide Departed;
  }

  lemma {:induction false} CloseIs(c: Conn)
    ensures SameOutside(c, Close(c)) && !Close(c).flow.live
  {
  }

  lemma {:induction false} EndedShows(c: Conn, d: Conn, s: S.Session)
    requires Shows(c, s) && SameOutside(c, d) && !d.flow.live
    ensures Shows(d, S.Ended(s))
  {
  }

  /** What a send does to the data path while there is no relay. */
  lemma {:induction false} SentIs(f: Flow, n: nat)
    requires f.live && f.outB != [] && f.inB == [] && |f.outB| < f.cap && n > 0
    ensures var g := WriteToClient(f, Sent(n));
      var k := Pipe.Moved(n, f.outB);
      && g == f.(client := if k < |f.outB| then WRITE else READ, outB := f.outB[k..], bytesMetric := g.bytesMetric, io := g.io)
      && g.io == f.io.(toClient := f.io.toClient + f.outB[..k])
  {
  }

  predicate ReplyOut(c: Conn) {
    && c.flow.live && c.stm.current.Some? && c.stm.current != Some(COPY) && CanDepart(c.stm)
    && HasWriteHandler(c.stm.current.value)
    && c.flow.client == WRITE && c.flow.outB != [] && c.flow.inB == [] && |c.flow.outB| < c.flow.cap
    && (!c.isError ==> c.stm.current in {Some(HANDSHAKE), Some(AUTH)} && |c.flow.outB| == 2)
    && (c.stm.current != Some(AUTH) ==> c.nego.credentials == [] || c.isError)
    && (!c.isError ==> c.nego.asked == [])
  }

  lemma {:induction false} ReplyIsOut(c: Conn)
    requires Inv(c) && c.flow.live && c.flow.client == WRITE && c.stm.current.Some? && c.stm.current != Some(COPY)
    ensures ReplyOut(c)
  {
  }

  /** A send of the reply that is owed. */
  lemma {:induction false} ReplyShows(c: Conn, s: S.Session, r: Send)
    requires ReplyOut(c) && Shows(c, s) && s.phase.Replying? && (!c.isError ==> r != Sent(1))
    ensures Shows(ClientWrite(c, r), S.Sending(s, s.phase.after, r))
  {
    hide WriteToClient, Jump, Close;
    match r
    case Sent(n) =>
      if n > 0 {
        SentIs(c.flow, n);
        var d := c.(flow := WriteToClient(c.flow, r));
        JumpIs(d, AfterWrite(d));
      } else {
        NothingMoved(c, r);
      }
    case SendAgain => NothingMoved(c, r);
    case SendFailed =>
      LostIs(c);
      EndedShows(c, ClientWrite(c, r), s);
  }

  lemma {:induction false} NothingMoved(c: Conn, r: Send)
    requires c.flow.live && c.flow.outB != [] && !SomeSent(r) && r != SendFailed
    ensures ClientWrite(c, r) == c
  {
  }

  lemma {:induction false} LostIs(c: Conn)
    requires c.flow.live && c.flow.outB != []
    ensures SameOutside(c, ClientWrite(c, SendFailed)) && !ClientWrite(c, SendFailed).flow.live
  {
  }

  // ---- The greeting ----

  /** A greeting is being read, and nothing is owed. */
  predicate GreetingPhase(c: Conn, s: S.Session) {
    && Greeting(c) && Shows(c.(flow := c.flow.(inB := [])), s) && s.phase == S.Greeting(c.nego.greeting)
    && c.flow.outB == [] && c.flow.cap >= 256 && c.nego.credentials == [] && c.nego.asked == [] && !c.isError
    && c.flow.origin == Unregistered
  }

  lemma {:induction false} MethodIs(all: seq<byte>)
    requires HS.Answered(all)
    ensures |all| >= 3
    ensures var v := HS.Run(HS.INIT, all);
      && HS.Reply(v.noAuth, v.userPass) == [5, S.Method(all)] && (v.userPass <==> S.Method(all) == 2)
      && (v.noAuth || v.userPass <==> S.Method(all) != 0xFF)
  {
    HS.AnsweredShape(all);
    hide HS.Answered, HS.Run;
  }

  lemma {:induction false} AnswerShows(c: Conn, s: S.Session, all: seq<byte>, r: Send)
    requires GreetingPhase(c, s) && HS.Answered(all) && r != Sent(1)
    ensures |all| >= 3
    ensures var m := S.Method(all);
      var after := if m == 2 then S.Credentials([]) else if m == 0 then S.Request([]) else S.Over;
      Shows(AnswerGreeting(GreetedWith(c, all), HS.Run(HS.INIT, all), r), S.Told(s, [5, m], after, r))
  {
    MethodIs(all);
    hide HS.Answered, HS.Run, HS.Reply, S.Method, ClientWrite, Greeting;
    var v := HS.Run(HS.INIT, all);
    var g := GreetedWith(c, all);
    var a := Answer(g, HS.Reply(v.noAuth, v.userPass)).(isError := !(v.noAuth || v.userPass));
    assert [] + [5, S.Method(all)] == [5, S.Method(all)];
    assert CanDepart(a.stm);
    var t := S.Owing(s, [5, S.Method(all)], Follows(a));
    ReplyShows(a, t, r);
  }

  /** The handler comes back from its send, and stays in the state it finds. */
  lemma {:induction false} ResumedShows(e: Conn, s: S.Session)
    requires Shows(e, s) && (e.flow.live ==> e.stm.current.Some?)
    ensures Shows(Jump(Resume(e), CurrentOr(e, ERROR)), s)
  {
    JumpSame(Resume(e));
  }

  lemma {:induction false} ToldPhase(s: S.Session, all: seq<byte>, r: Send)
    requires !S.BadGreeting(all) && S.WholeGreeting(all)
    ensures !S.OnGreeting(s, all, r).phase.Greeting?
  {
  }

  lemma {:induction false} RepliedIsSomewhere(c: Conn, s: S.Session)
    requires Shows(c, s) && !s.phase.Greeting?
    ensures c.flow.live ==> c.stm.current.Some?
  {
  }

  lemma {:induction false} GreetingShows(c: Conn, s: S.Session, r: Send)
    requires GreetingPhase(c, s) && r != Sent(1)
    ensures var (d, next) := HandshakeRead(c, r);
      Shows(Jump(d, next), S.OnGreeting(s, c.nego.greeting + c.flow.inB, r))
  {
    hide HandshakeRead, HS.Answered, HS.NothingFinal, HS.Run, S.BadGreeting, S.WholeGreeting, AnswerGreeting, S.Told, S.Method,
      Jump, GreetingIs, S.OnGreeting, Shows;
    ReadGreeting(c, r);
    var all := c.nego.greeting + c.flow.inB;
    var (d, next) := HandshakeRead(c, r);
    if S.BadGreeting(all) {
      BadGreetingShows(c, s, all, r, d, next);
    } else if S.WholeGreeting(all) {
      WholeGreetingShows(c, s, all, r, d, next);
    } else {
      PartGreetingShows(c, s, all, r, d, next);
    }
  }

  lemma {:induction false} BadGreetingShows(c: Conn, s: S.Session, all: seq<byte>, r: Send, d: Conn, next: State)
    requires GreetingPhase(c, s) && GreetingIs(c, all, r, d, next) && S.BadGreeting(all)
    ensures Shows(Jump(d, next), S.OnGreeting(s, all, r))
  {
    hide HS.NothingFinal, HS.Run, S.BadGreeting, S.WholeGreeting, AnswerGreeting, Jump;
    ErrorShows(c.(flow := c.flow.(inB := [])), d, s);
  }

  lemma {:induction false} PartGreetingShows(c: Conn, s: S.Session, all: seq<byte>, r: Send, d: Conn, next: State)
    requires GreetingPhase(c, s) && GreetingIs(c, all, r, d, next) && !S.BadGreeting(all) && !S.WholeGreeting(all)
    ensures Shows(Jump(d, next), S.OnGreeting(s, all, r))
  {
    hide HS.NothingFinal, HS.Run, S.BadGreeting, S.WholeGreeting, AnswerGreeting, Jump;
    JumpSame(d);
  }

  lemma {:induction false} WholeGreetingShows(c: Conn, s: S.Session, all: seq<byte>, r: Send, d: Conn, next: State)
    requires GreetingPhase(c, s) && GreetingIs(c, all, r, d, next) && !S.BadGreeting(all) && S.WholeGreeting(all)
      && r != Sent(1)
    ensures Shows(Jump(d, next), S.OnGreeting(s, all, r))
  {
    hide HS.NothingFinal, HS.Run, HS.Answered, S.BadGreeting, S.WholeGreeting, AnswerGreeting, Jump, GreetingPhase,
      S.Told, S.Method;
    AnswerShows(c, s, all, r);
    var e := AnswerGreeting(GreetedWith(c, all), HS.Run(HS.INIT, all), r);
    ToldPhase(s, all, r);
    RepliedIsSomewhere(e, S.OnGreeting(s, all, r));
    hide GreetedWith, Shows;
    ResumedShows(e, S.OnGreeting(s, all, r));
  }

  /** A message that is not one ends the session. */
  lemma {:induction false} ErrorShows(c: Conn, d: Conn, s: S.Session)
    requires Shows(c, s) && SameOutside(c, d) && d.flow.live && CanDepart(d.stm)
    requires d.stm.current in {Some(HANDSHAKE), Some(AUTH), Some(CONNECTION_REQ)}
    ensures Shows(Jump(d, ERROR), S.Ended(s))
  {
    hide Jump, InState;
    JumpIs(d, ERROR);
    EndedShows(c, Jump(d, ERROR), s);
  }

  lemma {:induction false} JumpSame(c: Conn)
    requires !c.flow.live || c.stm.current.Some?
    ensures Jump(c, CurrentOr(c, ERROR)) == c
  {
  }

  // ---- The credentials ----

  /** The first message in the bytes, if it is complete. */
  function CredentialsIn(bs: seq<byte>): seq<byte>
    requires S.WholeCredentials(bs)
  {
    bs[..3 + S.At(bs, 1) + S.At(bs, 2 + S.At(bs, 1))]
  }

  lemma {:induction false} CredentialsReport(got: seq<byte>, b: byte)
    requires AU.NotDoneEarly(got) && !AU.Stopped(AU.Run(AU.INIT, got))
    ensures !S.BadCredentials(got) && !S.WholeCredentials(got)
    ensures var v := AU.Step(AU.Run(AU.INIT, got), b);
      var all := got + [b];
      && (v.state == AU.State.ERROR <==> S.BadCredentials(all))
      && (v.state == AU.State.DONE <==> !S.BadCredentials(all) && S.WholeCredentials(all))
      && (v.state == AU.State.DONE ==>
            CredentialsIn(all) == all && v.uname == all[2..2 + S.At(all, 1)] && v.passwd == all[3 + S.At(all, 1)..])
  {
    AU.RunConsumes(got);
    var v := AU.Run(AU.INIT, got);
    hide AU.NotDoneEarly, AU.Run;
  }

  lemma {:induction false} MoreCredentials(a: seq<byte>, b: seq<byte>)
    ensures S.BadCredentials(a) ==> S.BadCredentials(a + b)
    ensures !S.BadCredentials(a) && S.WholeCredentials(a) ==>
      !S.BadCredentials(a + b) && S.WholeCredentials(a + b) && CredentialsIn(a + b) == CredentialsIn(a)
  {
  }

  /** The connection without the message and its parser. */
  function Unread(c: Conn): Conn {
    c.(flow := c.flow.(inB := []), stm := c.stm.(au := None, cr := None),
       nego := c.nego.(credentials := [], asked := []))
  }

  lemma {:induction false} UnreadCredentials(c: Conn, v: AU.Value)
    requires c.flow.inB != []
    ensures Unread(FedCredentials(c, v)) == Unread(c)
  {
  }

  function CredentialsWith(c: Conn, msg: seq<byte>): Conn {
    c.(stm := c.stm.(au := Some(AU.Run(AU.INIT, msg))), nego := c.nego.(credentials := msg))
  }

  /** What reading credentials comes to, when the whole message so far is `all`; u is the connection without
      it. */
  predicate CredentialsAre(u: Conn, all: seq<byte>, r: Send, users: Users, d: Conn, next: State) {
    if S.BadCredentials(all) then next == ERROR && d.stm.au.Some? && d.stm.cr.None? && d.nego.asked == [] && Unread(d) == u
    else if !S.WholeCredentials(all) then d == CredentialsWith(u, all) && next == AUTH
    else
      var msg := CredentialsIn(all);
      var e := AnswerCredentials(CredentialsWith(u, msg), AU.Run(AU.INIT, msg), r, users);
      AU.FirstDoneAtEnd(msg) && d == Resume(e) && next == CurrentOr(e, ERROR)
  }

  predicate ReadingCredentials(c: Conn) {
    && c.flow.live && c.stm.current == Some(AUTH) && c.stm.au == Some(AU.Run(AU.INIT, c.nego.credentials))
    && AU.NotDoneEarly(c.nego.credentials) && !AU.Stopped(c.stm.au.value)
    && c.stm.cr == None && c.nego.asked == []
  }

  lemma {:induction false} ReadCredentials(c: Conn, r: Send, users: Users)
    requires ReadingCredentials(c)
    ensures var (d, next) := AuthRead(c, r, users); CredentialsAre(Unread(c), c.nego.credentials + c.flow.inB, r, users, d, next)
    decreases |c.flow.inB|
  {
    hide AU.Step, AU.Run, AnswerCredentials, AU.NotDoneEarly, AuthRead, CredentialsAre, Unread;
    if c.flow.inB == [] {
      NoCredentialsToRead(c, r, users);
    } else {
      var b := c.flow.inB[0];
      var v := AU.Step(c.stm.au.value, b);
      K.CredentialsTurn(c, r, users);
      if AU.Stopped(v) {
        hide FedCredentials;
        LastCredential(c, r, users);
      } else {
        AU.FeedOne(c.nego.credentials, b);
        assert c.nego.credentials + c.flow.inB == c.nego.credentials + [b] + c.flow.inB[1..];
        UnreadCredentials(c, v);
        ReadCredentials(FedCredentials(c, v), r, users);
      }
    }
  }

  lemma {:induction false} LastCredential(c: Conn, r: Send, users: Users)
    requires ReadingCredentials(c) && c.flow.inB != [] && AU.Stopped(AU.Step(c.stm.au.value, c.flow.inB[0]))
    ensures var v := AU.Step(c.stm.au.value, c.flow.inB[0]);
      var d := FedCredentials(c, v);
      var e := AnswerCredentials(d, v, r, users);
      var all := c.nego.credentials + c.flow.inB;
      if v.state == AU.State.DONE then
        CredentialsAre(Unread(c), all, r, users, if e.flow.live then e else e.(resumed := true), CurrentOr(e, ERROR))
      else CredentialsAre(Unread(c), all, r, users, d, ERROR)
  {
    hide AU.Step, AU.Run, AnswerCredentials, S.BadCredentials, S.WholeCredentials, AU.NotDoneEarly, AU.FirstDoneAtEnd,
      CredentialsIn;
    var got, b, rest := c.nego.credentials, c.flow.inB[0], c.flow.inB[1..];
    var v := AU.Step(c.stm.au.value, b);
    var d := FedCredentials(c, v);
    AU.FeedOne(got, b);
    CredentialsReport(got, b);
    MoreCredentials(got + [b], rest);
    assert got + c.flow.inB == got + [b] + rest;
    if v.state == AU.State.DONE {
      InputIsDropped(d, v, r, users);
      assert d.(flow := d.flow.(inB := [])) == CredentialsWith(Unread(c), got + [b]);
    } else {
      UnreadCredentials(c, v);
    }
  }

  lemma {:induction false} NoCredentialsToRead(c: Conn, r: Send, users: Users)
    requires ReadingCredentials(c) && c.flow.inB == []
    ensures var (d, next) := AuthRead(c, r, users); CredentialsAre(Unread(c), c.nego.credentials + c.flow.inB, r, users, d, next)
  {
    hide AU.Run, AU.NotDoneEarly, S.BadCredentials, S.WholeCredentials;
    assert c.nego.credentials + [] == c.nego.credentials;
    CredentialsReport(c.nego.credentials, 0);
  }

  lemma {:induction false} InputIsDropped(c: Conn, v: AU.Value, r: Send, users: Users)
    ensures AnswerCredentials(c, v, r, users) == AnswerCredentials(c.(flow := c.flow.(inB := [])), v, r, users)
    ensures var e := AnswerCredentials(c, v, r, users); Resume(e) == if e.flow.live then e else e.(resumed := true)
  {
    hide Accepts, ClientWrite;
    K.JudgedIs(c, v, users);
    K.JudgedIs(c.(flow := c.flow.(inB := [])), v, users);
    assert Judged(c, v, users) == Judged(c.(flow := c.flow.(inB := [])), v, users);
  }

  predicate CredentialsPhase(c: Conn, s: S.Session) {
    && ReadingCredentials(c) && Shows(c.(flow := c.flow.(inB := [])), s) && s.phase == S.Credentials(c.nego.credentials)
    && c.flow.outB == [] && c.flow.cap >= 256 && !c.isError && c.flow.origin == Unregistered
  }

  /** The fields of the parser are the name and the password in the message. */
  lemma {:induction false} NamesAre(all: seq<byte>)
    requires S.WholeCredentials(all) && AU.FirstDoneAtEnd(CredentialsIn(all))
    ensures var v, u := AU.Run(AU.INIT, CredentialsIn(all)), S.At(all, 1);
      v.uname == all[2..2 + u] && v.passwd == all[3 + u..3 + u + S.At(all, 2 + u)]
  {
    var msg := CredentialsIn(all);
    AU.AcceptedLanguage(msg);
    var v := AU.Run(AU.INIT, msg);
    assert msg == [1, |v.uname|] + v.uname + [|v.passwd|] + v.passwd;
    hide AU.FirstDoneAtEnd, AU.Run, AU.Encode;
    Parts(msg, v.uname, v.passwd);
    assert msg[1] == all[1] && msg[2 + |v.uname|] == all[2 + |v.uname|];
    assert msg[2..2 + |v.uname|] == all[2..2 + |v.uname|];
    assert msg[3 + |v.uname|..] == all[3 + |v.uname|..3 + |v.uname| + |v.passwd|];
  }

  lemma {:induction false} Parts(msg: seq<byte>, u: seq<byte>, p: seq<byte>)
    requires |u| <= 255 && |p| <= 255 && msg == [1, |u|] + u + [|p|] + p
    ensures |msg| == 3 + |u| + |p| && msg[1] == |u| && msg[2 + |u|] == |p|
    ensures u == msg[2..2 + |u|] && p == msg[3 + |u|..]
  {
  }

  lemma {:induction false} VerdictShows(c: Conn, s: S.Session, all: seq<byte>, r: Send, users: Users)
    requires CredentialsPhase(c, s) && !S.BadCredentials(all) && S.WholeCredentials(all)
      && AU.FirstDoneAtEnd(CredentialsIn(all))
    requires r != Sent(1)
    ensures var msg := CredentialsIn(all);
      Shows(AnswerCredentials(CredentialsWith(Unread(c), msg), AU.Run(AU.INIT, msg), r, users), S.OnCredentials(s, all, r, users))
  {
    NamesAre(all);
    hide AU.Run, AU.FirstDoneAtEnd, AU.NotDoneEarly, CredentialsIn, S.BadCredentials, S.WholeCredentials, ClientWrite;
    var msg := CredentialsIn(all);
    var v, g := AU.Run(AU.INIT, msg), CredentialsWith(Unread(c), msg);
    K.JudgedIs(g, v, users);
    var a, ok := Judged(g, v, users), Accepts(users, v.uname, v.passwd);
    assert [] + AuthReply(ok) == AuthReply(ok);
    var t := S.Owing(if ok then s.(user := CStr(v.uname)) else s, [1, if ok then 0 else 1], Follows(a));
    ReplyShows(a, t, r);
  }

  lemma {:induction false} CredentialsShow(c: Conn, s: S.Session, r: Send, users: Users)
    requires CredentialsPhase(c, s) && r != Sent(1)
    ensures var (d, next) := AuthRead(c, r, users);
      Shows(Jump(d, next), S.OnCredentials(s, c.nego.credentials + c.flow.inB, r, users))
  {
    hide AuthRead, AU.NotDoneEarly, AU.Run, AU.FirstDoneAtEnd, S.BadCredentials, S.WholeCredentials, AnswerCredentials, Jump,
      CredentialsAre, S.OnCredentials, Shows, CredentialsIn, Unread;
    ReadCredentials(c, r, users);
    var all := c.nego.credentials + c.flow.inB;
    var (d, next) := AuthRead(c, r, users);
    if S.BadCredentials(all) {
      BadCredentialsShow(c, s, all, r, users, d, next);
    } else if S.WholeCredentials(all) {
      WholeCredentialsShow(c, s, all, r, users, d, next);
    } else {
      PartCredentialsShow(c, s, all, r, users, d, next);
    }
  }

  lemma {:induction false} BadCredentialsShow(c: Conn, s: S.Session, all: seq<byte>, r: Send, users: Users, d: Conn,
    next: State)
    requires CredentialsPhase(c, s) && CredentialsAre(Unread(c), all, r, users, d, next) && S.BadCredentials(all)
    ensures Shows(Jump(d, next), S.OnCredentials(s, all, r, users))
  {
    hide AU.NotDoneEarly, AU.Run, S.BadCredentials, S.WholeCredentials, AnswerCredentials, Jump;
    ErrorShows(c.(flow := c.flow.(inB := [])), d, s);
  }

  lemma {:induction false} PartCredentialsShow(c: Conn, s: S.Session, all: seq<byte>, r: Send, users: Users,
    d: Conn, next: State)
    requires CredentialsPhase(c, s) && CredentialsAre(Unread(c), all, r, users, d, next)
    requires !S.BadCredentials(all) && !S.WholeCredentials(all)
    ensures Shows(Jump(d, next), S.OnCredentials(s, all, r, users))
  {
    hide AU.NotDoneEarly, AU.Run, S.BadCredentials, S.WholeCredentials, AnswerCredentials, Jump;
    JumpSame(d);
  }

  lemma {:induction false} WholeCredentialsShow(c: Conn, s: S.Session, all: seq<byte>, r: Send, users: Users,
    d: Conn, next: State)
    requires CredentialsPhase(c, s) && CredentialsAre(Unread(c), all, r, users, d, next) && r != Sent(1)
    requires !S.BadCredentials(all) && S.WholeCredentials(all)
    ensures Shows(Jump(d, next), S.OnCredentials(s, all, r, users))
  {
    hide AU.NotDoneEarly, AU.Run, AU.FirstDoneAtEnd, S.BadCredentials, S.WholeCredentials, AnswerCredentials, Jump,
      CredentialsPhase, CredentialsIn, Shows, CredentialsWith, Unread;
    VerdictShows(c, s, all, r, users);
    var msg := CredentialsIn(all);
    var e := AnswerCredentials(CredentialsWith(Unread(c), msg), AU.Run(AU.INIT, msg), r, users);
    VerdictPhase(s, all, r, users);
    RepliedIsSomewhere(e, S.OnCredentials(s, all, r, users));
    ResumedShows(e, S.OnCredentials(s, all, r, users));
  }

  lemma {:induction false} VerdictPhase(s: S.Session, all: seq<byte>, r: Send, users: Users)
    requires !S.BadCredentials(all) && S.WholeCredentials(all)
    ensures !S.OnCredentials(s, all, r, users).phase.Greeting?
  {
  }

  // ---- The request ----

  lemma {:induction false} RequestReport(got: seq<byte>, b: byte)
    requires CR.NotDoneEarly(got) && !CR.Stopped(CR.Run(CR.INIT, got))
    ensures !S.BadRequest(got) && !S.WholeRequest(got)
    ensures var v := CR.Step(CR.Run(CR.INIT, got), b);
      var all := got + [b];
      && (v.state == CR.State.ERROR <==> S.BadRequest(all))
      && (v.state == CR.State.DONE <==> !S.BadRequest(all) && S.WholeRequest(all))
  {
    CR.RunConsumes(got);
    var v := CR.Run(CR.INIT, got);
    hide CR.NotDoneEarly, CR.Run;
  }

  lemma {:induction false} MoreRequest(a: seq<byte>, b: seq<byte>)
    requires S.BadRequest(a)
    ensures S.BadRequest(a + b)
  {
  }

  function UnreadRequest(c: Conn): Conn {
    c.(flow := c.flow.(inB := []), stm := c.stm.(cr := None), nego := c.nego.(asked := []))
  }

  lemma {:induction false} UnreadByte(c: Conn, v: CR.Value)
    requires c.flow.inB != []
    ensures UnreadRequest(FedRequest(c, v)) == UnreadRequest(c)
  {
  }

  function RequestWith(c: Conn, msg: seq<byte>): Conn {
    c.(stm := c.stm.(cr := Some(CR.Run(CR.INIT, msg))), nego := c.nego.(asked := msg))
  }

  predicate RequestIs(u: Conn, all: seq<byte>, resolver: Resolver, reply: seq<byte>, d: Conn, next: State) {
    if S.BadRequest(all) then next == ERROR && d.stm.cr.Some? && UnreadRequest(d) == u
    else if !S.WholeRequest(all) then d == RequestWith(u, all) && next == CONNECTION_REQ
    else CR.FirstDoneAtEnd(all) && (d, next) == AnswerRequest(RequestWith(u, all), CR.Run(CR.INIT, all), resolver, reply)
  }

  predicate ReadingRequest(c: Conn) {
    && c.flow.live && c.stm.current == Some(CONNECTION_REQ) && c.stm.cr == Some(CR.Run(CR.INIT, c.nego.asked))
    && CR.NotDoneEarly(c.nego.asked) && !CR.Stopped(c.stm.cr.value) && RequestAlone(c.stm.cr.value, c.flow.inB)
  }

  lemma {:induction false} ReadRequest(c: Conn, resolver: Resolver, reply: seq<byte>)
    requires ReadingRequest(c)
    ensures var (d, next) := ConnReqRead(c, resolver, reply);
      RequestIs(UnreadRequest(c), c.nego.asked + c.flow.inB, resolver, reply, d, next)
    decreases |c.flow.inB|
  {
    hide CR.Step, CR.Run, AnswerRequest, CR.NotDoneEarly, ConnReqRead, RequestIs, UnreadRequest;
    if c.flow.inB == [] {
      NoRequestToRead(c, resolver, reply);
    } else {
      var b := c.flow.inB[0];
      var v := CR.Step(c.stm.cr.value, b);
      K.ConnReqTurn(c, resolver, reply);
      if CR.Stopped(v) {
        hide FedRequest;
        LastOfRequest(c, resolver, reply);
      } else {
        CR.FeedOne(c.nego.asked, b);
        assert c.nego.asked + c.flow.inB == c.nego.asked + [b] + c.flow.inB[1..];
        UnreadByte(c, v);
        ReadRequest(FedRequest(c, v), resolver, reply);
      }
    }
  }

  lemma {:induction false} NoRequestToRead(c: Conn, resolver: Resolver, reply: seq<byte>)
    requires ReadingRequest(c) && c.flow.inB == []
    ensures var (d, next) := ConnReqRead(c, resolver, reply);
      RequestIs(UnreadRequest(c), c.nego.asked + c.flow.inB, resolver, reply, d, next)
  {
    hide CR.Run, CR.NotDoneEarly, S.BadRequest, S.WholeRequest;
    assert c.nego.asked + [] == c.nego.asked;
    RequestReport(c.nego.asked, 0);
  }

  lemma {:induction false} LastOfRequest(c: Conn, resolver: Resolver, reply: seq<byte>)
    requires ReadingRequest(c) && c.flow.inB != [] && CR.Stopped(CR.Step(c.stm.cr.value, c.flow.inB[0]))
    ensures var v := CR.Step(c.stm.cr.value, c.flow.inB[0]);
      var d := FedRequest(c, v);
      var (e, next) := if v.state == CR.State.DONE then AnswerRequest(d, v, resolver, reply) else (d, ERROR);
      RequestIs(UnreadRequest(c), c.nego.asked + c.flow.inB, resolver, reply, e, next)
  {
    hide CR.Step, CR.Run, AnswerRequest, S.BadRequest, S.WholeRequest, CR.NotDoneEarly, CR.FirstDoneAtEnd;
    var got, b, rest := c.nego.asked, c.flow.inB[0], c.flow.inB[1..];
    var v := CR.Step(c.stm.cr.value, b);
    CR.FeedOne(got, b);
    RequestReport(got, b);
    assert got + c.flow.inB == got + [b] + rest;
    if v.state == CR.State.DONE {
      assert rest == [];
      assert got + [b] + rest == got + [b];
      assert FedRequest(c, v) == RequestWith(UnreadRequest(c), got + [b]);
    } else {
      MoreRequest(got + [b], rest);
      UnreadByte(c, v);
    }
  }

  predicate RequestPhase(c: Conn, s: S.Session) {
    && ReadingRequest(c) && Shows(c.(flow := c.flow.(inB := [])), s) && s.phase == S.Request(c.nego.asked)
    && c.flow.outB == [] && c.flow.cap >= 256 && !c.isError && c.flow.origin == Unregistered && NoResolution(c.dns)
  }

  /** What the parser's fields say of a complete request. */
  lemma {:induction false} FieldsAre(all: seq<byte>)
    requires S.WholeRequest(all) && CR.FirstDoneAtEnd(all)
    ensures var v := CR.Run(CR.INIT, all);
      v.cmd == all[1] && v.atyp == all[3] && DestinationOf(v) == S.Target(all)
  {
    CR.RunConsumes(all);
    Wire(all, CR.Run(CR.INIT, all));
  }

  lemma {:induction false} Wire(all: seq<byte>, v: CR.Value)
    requires CR.Sound(v) && v.state == CR.State.DONE && CR.Consumed(v) == all && S.WholeRequest(all)
    ensures v.cmd == all[1] && v.atyp == all[3] && DestinationOf(v) == S.Target(all)
  {
    var n := if v.atyp == 3 then 5 else 4;
    assert all[n..n + |v.addr|] == v.addr;
    assert |all| == n + |v.addr| + 2;
    assert all[|all| - 2] == v.port / 0x100 && all[|all| - 1] == v.port % 0x100;
    if v.atyp == 3 {
      assert all[4] == v.len;
      var k := if v.len < 253 then v.len else 253;
      assert k <= |v.addr| ==> all[5..5 + k] == v.addr[..k];
    }
  }

  lemma {:induction false} UnsupportedShows(c: Conn, s: S.Session, reply: seq<byte>)
    requires c.flow.live && c.stm.current == Some(CONNECTION_REQ) && Shows(c, s) && c.flow.outB == [] && |reply| < c.flow.cap
    ensures Shows(Jump(Refuse(c, reply), CONNECTION_REQ), S.Owing(s, reply, S.Over))
  {
    assert [] + reply == reply;
    hide Jump;
    JumpSame(Refuse(c, reply));
  }

  /** The client waits from here on. */
  lemma {:induction false} AskedShows(c: Conn, s: S.Session, v: CR.Value, dns: Resolution)
    requires c.flow.live && c.stm.current == Some(CONNECTION_REQ) && CanDepart(c.stm) && Shows(c, s) && s.phase != S.Relaying
    requires dns.resolving + dns.jobs > 0
    ensures var t := s.(destination := Some(DestinationOf(v)));
      Shows(Jump(Ask(c, v).(dns := dns), CONNECTING), t.(phase := S.Resolving(dns.addrInfo)))
  {
    hide Jump, DestinationOf;
    JumpIs(Ask(c, v).(dns := dns), CONNECTING);
  }

  lemma {:induction false} NoThreadShows(c: Conn, s: S.Session, v: CR.Value)
    requires c.flow.live && c.stm.current == Some(CONNECTION_REQ) && CanDepart(c.stm) && Shows(c, s)
    ensures Shows(Jump(Ask(c, v), ERROR), S.Ended(s.(destination := Some(DestinationOf(v)))))
  {
    hide DestinationOf, Jump;
    var t := s.(destination := Some(DestinationOf(v)));
    ErrorShows(c.(destination := Some(DestinationOf(v))), Ask(c, v), t);
  }

  /** What a complete request leads to. */
  lemma {:induction false} AnswerRequestShows(c: Conn, s: S.Session, all: seq<byte>, env: Env)
    requires RequestPhase(c, s) && !S.BadRequest(all) && S.WholeRequest(all) && CR.FirstDoneAtEnd(all)
    requires env.reply == COMMAND_NOT_SUPPORTED
    ensures var (d, next) := AnswerRequest(RequestWith(UnreadRequest(c), all), CR.Run(CR.INIT, all), env.resolver, env.reply);
      Shows(Jump(d, next), S.OnRequest(s, all, env.resolver))
  {
    var v, g := CR.Run(CR.INIT, all), RequestWith(UnreadRequest(c), all);
    var t := s.(phase := S.Request(all));
    assert Shows(g, t) && g.flow.live && g.stm.current == Some(CONNECTION_REQ) && CanDepart(g.stm) && g.flow.outB == []
      && g.flow.cap >= 256 && NoResolution(g.dns) && s.phase.Request?;
    hide Shows, RequestPhase, RequestWith, UnreadRequest;
    FieldsAre(all);
    hide CR.Run, CR.FirstDoneAtEnd, CR.NotDoneEarly, S.BadRequest, S.WholeRequest, Jump, DestinationOf, S.Target, Refuse, Ask;
    var (d, next) := AnswerRequest(g, v, env.resolver, env.reply);
    if v.cmd != 1 {
      UnsupportedShows(g, t, env.reply);
    } else if next == CONNECTING {
      AskedShows(g, t, v, d.dns);
    } else {
      NoThreadShows(g, t, v);
    }
  }

  lemma {:induction false} RequestShows(c: Conn, s: S.Session, env: Env)
    requires RequestPhase(c, s) && env.reply == COMMAND_NOT_SUPPORTED
    ensures var (d, next) := ConnReqRead(c, env.resolver, env.reply);
      Shows(Jump(d, next), S.OnRequest(s, c.nego.asked + c.flow.inB, env.resolver))
  {
    hide ConnReqRead, CR.NotDoneEarly, CR.Run, CR.FirstDoneAtEnd, S.BadRequest, S.WholeRequest, AnswerRequest, Jump,
      Shows, S.OnRequest,
      UnreadRequest, RequestWith;
    ReadRequest(c, env.resolver, env.reply);
    var all := c.nego.asked + c.flow.inB;
    var (d, next) := ConnReqRead(c, env.resolver, env.reply);
    if S.BadRequest(all) {
      BadRequestShows(c, s, all, env, d, next);
    } else if S.WholeRequest(all) {
      AnswerRequestShows(c, s, all, env);
    } else {
      PartRequestShows(c, s, all, env, d, next);
    }
  }

  lemma {:induction false} BadRequestShows(c: Conn, s: S.Session, all: seq<byte>, env: Env, d: Conn, next: State)
    requires RequestPhase(c, s) && RequestIs(UnreadRequest(c), all, env.resolver, env.reply, d, next) && S.BadRequest(all)
    ensures Shows(Jump(d, next), S.OnRequest(s, all, env.resolver))
  {
    hide CR.NotDoneEarly, CR.Run, S.BadRequest, S.WholeRequest, AnswerRequest, Jump;
    ErrorShows(c.(flow := c.flow.(inB := [])), d, s);
  }

  lemma {:induction false} PartRequestShows(c: Conn, s: S.Session, all: seq<byte>, env: Env, d: Conn, next: State)
    requires RequestPhase(c, s) && RequestIs(UnreadRequest(c), all, env.resolver, env.reply, d, next)
    requires !S.BadRequest(all) && !S.WholeRequest(all)
    ensures Shows(Jump(d, next), S.OnRequest(s, all, env.resolver))
  {
    hide CR.NotDoneEarly, CR.Run, S.BadRequest, S.WholeRequest, AnswerRequest, Jump;
    JumpSame(d);
  }

  // ---- The origin ----

  /** A connection that has just entered COPY. */
  predicate Fresh(c: Conn, s: S.Session) {
    && c.flow.live && c.stm.current == Some(COPY) && c.flow.outB == [] && c.flow.inB == [] && c.flow.cap >= 256
    && (c.flow.origin.Registered? ==> c.flow.origin.fd == c.flow.originFd > 0)
    && s.cap == c.flow.cap && s.user == c.username && s.destination == c.destination && !s.pipe.over
    && s.pipe == Pipe.PipeOf(c.flow).(originOpen := s.pipe.originOpen)
  }

  lemma {:induction false} StartPipe(f: Flow, reply: seq<byte>, r: Send)
    requires f.live && f.outB == [] && f.inB == [] && |reply| < f.cap
      && (f.origin.Registered? ==> f.origin.fd == f.originFd > 0)
    ensures var g := StartReply(f, reply, r);
      Pipe.PipeOf(g) == Pipe.ToClient(Pipe.PipeOf(f).(owed := reply), r) && g.cap == f.cap
  {
    hide WriteToClient;
    assert [] + reply == reply;
    var h := SetClient(PutReply(f, reply), WRITE).(inB := []);
    Pipe.SendToClientIs(h, r);
    KeptCap(h, r);
  }

  lemma {:induction false} KeptCap(f: Flow, r: Send)
    ensures WriteToClient(f, r).cap == f.cap
  {
  }

  /** The reply begins the relay. */
  lemma {:induction false} StartShows(c: Conn, s: S.Session, reply: seq<byte>, r: Send)
    requires Fresh(c, s) && |reply| < 256
    ensures Shows(Start(c, reply, r), S.Started(s, reply, c.flow.origin.Registered?, r))
  {
    hide Start, StartReply, Pipe.ToClient;
    StartIsReply(c, reply, r);
    StartPipe(c.flow, reply, r);
    assert [] + reply == reply;
  }

  /** A reply at once to a client that has gone. */
  lemma {:induction false} LostStartShows(before: Conn, c: Conn, s: S.Session, reply: seq<byte>, open: bool)
    requires Shows(before, s) && SameOutside(before, c)
    requires c.flow.live && c.stm.current == Some(CONNECTING) && c.flow.outB == [] && c.flow.cap >= 256 && 0 < |reply| < 256
    ensures Shows(Jump(Resume(Start(c, reply, SendFailed)), COPY), S.Started(s, reply, open, SendFailed))
  {
    var a := DropIn(c.(flow := SetClient(PutReply(c.flow, reply), WRITE)));
    assert [] + reply == reply && Start(c, reply, SendFailed) == ClientWrite(a, SendFailed);
    LostIs(a);
    hide ClientWrite, Start;
    DeadStays(Start(c, reply, SendFailed), S.Started(s, reply, open, SendFailed), COPY);
  }

  /** The first address that is not refused, if any. */
  lemma {:induction false} Dialled(list: seq<Endpoint>, verdicts: seq<Attempt>)
    requires |verdicts| == |list|
    ensures var k, o := FirstNotRefused(verdicts), ConnectTo(list, verdicts);
      && k <= |list|
      && (o.result == CONNECTION_FAILED <==> k == |list|)
      && (k < |list| ==>
            && (o.result == CONNECTION_SUCCESS <==> verdicts[k] == Connected)
            && (o.result == CONNECTION_IN_PROGRESS <==> verdicts[k] != Connected)
            && (verdicts[k] == InProgress ==> o.kept == list[k + 1..] && o.hasSocket)
            && (verdicts[k] == NoSocket ==> o.kept == list && !o.hasSocket))
  {
    StopDecides(list, verdicts, FirstNotRefused(verdicts));
    hide ConnectTo;
  }

  predicate AwaitingNotification(c: Conn, s: S.Session) {
    && c.flow.live && c.stm.current == Some(CONNECTING) && c.flow.origin == Unregistered && c.flow.outB == []
    && c.flow.inB == []
    && c.flow.cap >= 256 && !c.isError && c.dns.jobs == 1 && c.dns.resolving == 0
    && Shows(c, s) && s.phase == S.Resolving(c.dns.addrInfo) && c.flow.io.toOrigin == []
  }

  lemma {:induction false} NotificationIsAwaited(c: Conn, s: S.Session)
    requires Inv(c) && c.dns.jobs > 0 && Shows(c, s)
    ensures AwaitingNotification(c, s)
  {
    NotifiedInConnecting(c);
  }

  lemma {:induction false} DialFailsShows(c: Conn, d: Conn, s: S.Session)
    requires Shows(c, s) && SameOutside(c, d) && d.flow.live && d.stm.current == Some(CONNECTING)
    ensures Shows(Resume(Jump(d, ERROR)), S.Ended(s))
  {
    hide Jump, InState;
    JumpIs(d, ERROR);
    EndedShows(c, Jump(d, ERROR), s);
  }

  /** The connection after `connect_to_host`. */
  function Dialing(c: Conn, verdicts: seq<Attempt>, fd: int): Conn
    requires |verdicts| == |c.dns.addrInfo| && c.dns.jobs > 0
  {
    c.(flow := c.flow.(originFd := fd),
       dns := c.dns.(jobs := c.dns.jobs - 1, notified := c.dns.notified + 1,
                     addrInfo := ConnectTo(c.dns.addrInfo, verdicts).kept))
  }

  lemma {:induction false} BlockIs(c: Conn, verdicts: seq<Attempt>, fd: int, reply: seq<byte>, r: Send)
    requires c.dns.jobs > 0 && |verdicts| == |c.dns.addrInfo| && c.flow.live && c.stm.current == Some(CONNECTING)
    ensures var n := c.(dns := c.dns.(jobs := c.dns.jobs - 1, notified := c.dns.notified + 1));
      var d := Dialing(c, verdicts, fd);
      var b := Block(c, verdicts, fd, reply, r);
      if c.dns.addrInfo == [] then b == Jump(Resume(Refuse(n, reply)), CONNECTION_REQ)
      else match ConnectTo(c.dns.addrInfo, verdicts).result
        case CONNECTION_SUCCESS => b == Jump(Resume(Start(d, reply, r)), COPY)
        case CONNECTION_FAILED => b == Resume(Jump(d, ERROR))
        case CONNECTION_IN_PROGRESS =>
          var e := d.(flow := RegisterOrigin(SetClient(d.flow, NOOP), ConnectingHandler, WRITE));
          b == if OriginRegistered(e.flow) then Jump(e, CONNECTING) else Resume(Jump(e, ERROR))
  {
    hide ConnectTo, Start, Refuse, Jump, RegisterOrigin;
    OriginLives(Dialing(c, verdicts, fd).flow);
  }

  lemma {:induction false} OriginLives(f: Flow)
    ensures forall h, i :: RegisterOrigin(f, h, i).live == f.live
    ensures forall h, i :: RegisterOrigin(SetClient(f, NOOP), h, i).live == f.live
  {
  }

  lemma {:induction false} DeadStays(c: Conn, s: S.Session, next: State)
    requires Shows(c, s) && !c.flow.live
    ensures Shows(Jump(Resume(c), next), s)
  {
  }

  /** A connection made at once. */
  lemma {:induction false} AtOnceShows(c: Conn, s: S.Session, verdicts: seq<Attempt>, fd: int, reply: seq<byte>, r: Send)
    requires Inv(c) && AwaitingNotification(c, s) && |verdicts| == |c.dns.addrInfo| && SocketIs(c.dns.addrInfo, verdicts, fd)
    requires ConnectTo(c.dns.addrInfo, verdicts).result == CONNECTION_SUCCESS && ReplySized(reply)
    ensures Shows(Jump(Resume(Start(Dialing(c, verdicts, fd), reply, r)), COPY), S.Started(s, reply, fd < 1024, r))
  {
    TriedIsPrefix(c.dns.addrInfo, verdicts);
    O.ReadyToStart(c, verdicts, fd);
    var d := Dialing(c, verdicts, fd);
    hide Inv, ConnectTo, Started, Start, Jump, S.Started, InState;
    if r == SendFailed {
      LostStartShows(c, d, s, reply, fd < 1024);
    } else {
      StartedAtOnce(c, d, s, fd, reply, r);
    }
  }

  lemma {:induction false} StartedAtOnce(before: Conn, c: Conn, s: S.Session, fd: int, reply: seq<byte>, r: Send)
    requires Shows(before, s) && SameOutside(before, c) && s.phase.Resolving? && before.flow.live
    requires Started(c) && c.stm.current == Some(CONNECTING) && c.flow.origin == Unregistered && c.flow.originFd == fd > 0
    requires ReplySized(reply) && r != SendFailed && c.flow.io.toOrigin == []
    ensures Shows(Jump(Resume(Start(c, reply, r)), COPY), S.Started(s, reply, fd < 1024, r))
  {
    AdoptedIsFresh(before, c, s, fd);
    hide Started, Start, Jump, S.Started, InState, Shows, Fresh, SameOutside;
    O.StartKeepsLive(c, reply, r);
    ResumeStays(Start(c, reply, r));
    StartThenJump(c, reply, r);
    StartShows(Jump(c, COPY), s, reply, r);
  }

  lemma {:induction false} AdoptedIsFresh(before: Conn, c: Conn, s: S.Session, fd: int)
    requires Shows(before, s) && SameOutside(before, c) && s.phase.Resolving? && before.flow.live
    requires Started(c) && c.stm.current == Some(CONNECTING) && c.flow.origin == Unregistered && c.flow.originFd == fd > 0
    requires c.flow.io.toOrigin == []
    ensures var d := Jump(c, COPY); Fresh(d, s) && d.flow.origin.Registered? == (fd < 1024)
  {
    JumpToCopy(c);
    hide Jump, Sane, Authorized, Asked, Preface;
  }

  /** An attempt is under way, if the selector takes its socket. */
  lemma {:induction false} UnderWayShows(c: Conn, s: S.Session, verdicts: seq<Attempt>, fd: int)
    requires AwaitingNotification(c, s) && |verdicts| == |c.dns.addrInfo| && SocketIs(c.dns.addrInfo, verdicts, fd)
    ensures var d := Dialing(c, verdicts, fd);
      var e := d.(flow := RegisterOrigin(SetClient(d.flow, NOOP), ConnectingHandler, WRITE));
      if 0 < fd < 1024 then
        OriginRegistered(e.flow) && Shows(Jump(e, CONNECTING), s.(phase := S.Connecting(ConnectTo(c.dns.addrInfo, verdicts).kept)))
      else !OriginRegistered(e.flow) && Shows(Resume(Jump(e, ERROR)), S.Ended(s))
  {
    hide ConnectTo, Jump;
    var d := Dialing(c, verdicts, fd);
    var e := d.(flow := RegisterOrigin(SetClient(d.flow, NOOP), ConnectingHandler, WRITE));
    if 0 < fd < 1024 {
      JumpSame(e);
    } else {
      DialFailsShows(c, e, s);
    }
  }

  lemma {:induction false} NotificationShows(c: Conn, s: S.Session, verdicts: seq<Attempt>, fd: int, reply: seq<byte>, r: Send)
    requires Inv(c) && Enabled(c, BlockNotified(verdicts, fd, reply, r)) && AwaitingNotification(c, s)
    ensures Shows(Block(c, verdicts, fd, reply, r), S.OnNotification(s, c.dns.addrInfo, verdicts, fd, reply, r))
  {
    hide Inv, ConnectTo, Block, S.Started, Shows;
    if c.dns.addrInfo == [] {
      hide Jump, Refuse, Resume;
      BlockIs(c, verdicts, fd, reply, r);
      NotifiedEmptyShows(c, s, reply);
    } else {
      DialledShows(c, s, verdicts, fd, reply, r);
    }
  }

  lemma {:induction false} DialledShows(c: Conn, s: S.Session, verdicts: seq<Attempt>, fd: int, reply: seq<byte>, r: Send)
    requires Inv(c) && AwaitingNotification(c, s) && |verdicts| == |c.dns.addrInfo| && SocketIs(c.dns.addrInfo, verdicts, fd)
    requires c.dns.addrInfo != [] && ReplySized(reply)
    ensures Shows(Block(c, verdicts, fd, reply, r), S.OnNotification(s, c.dns.addrInfo, verdicts, fd, reply, r))
  {
    OnDialled(s, c.dns.addrInfo, verdicts, fd, reply, r);
    DialledIsLive(c, verdicts, fd);
    BlockIs(c, verdicts, fd, reply, r);
    var o := ConnectTo(c.dns.addrInfo, verdicts);
    hide Inv, ConnectTo, Block, Jump, Start, S.Started, RegisterOrigin, Shows, Resume, S.OnNotification, AwaitingNotification;
    if o.result == CONNECTION_SUCCESS {
      AtOnceShows(c, s, verdicts, fd, reply, r);
    } else if o.result == CONNECTION_FAILED {
      DialFailsShows(c, Dialing(c, verdicts, fd), s);
    } else {
      UnderWayShows(c, s, verdicts, fd);
    }
  }

  /** The session's view, by the result of `connect_to_host`. */
  lemma {:induction false} OnDialled(s: S.Session, found: seq<Endpoint>, verdicts: seq<Attempt>, fd: int, reply: seq<byte>,
    r: Send)
    requires |verdicts| == |found| && found != [] && SocketIs(found, verdicts, fd)
    ensures S.OnNotification(s, found, verdicts, fd, reply, r)
         == match ConnectTo(found, verdicts).result
            case CONNECTION_SUCCESS => S.Started(s, reply, fd < 1024, r)
            case CONNECTION_FAILED => S.Ended(s)
            case CONNECTION_IN_PROGRESS =>
              if 0 < fd < 1024 then s.(phase := S.Connecting(ConnectTo(found, verdicts).kept)) else S.Ended(s)
  {
    Dialled(found, verdicts);
    hide ConnectTo, S.Started, FirstNotRefused;
  }

  lemma {:induction false} DialledIsLive(c: Conn, verdicts: seq<Attempt>, fd: int)
    requires c.dns.jobs > 0 && |verdicts| == |c.dns.addrInfo|
    ensures var d := Dialing(c, verdicts, fd); d.flow.live == c.flow.live && d.stm == c.stm && SameOutside(c, d)
  {
    hide ConnectTo;
  }

  lemma {:induction false} NotifiedEmptyShows(c: Conn, s: S.Session, reply: seq<byte>)
    requires AwaitingNotification(c, s) && |reply| < c.flow.cap
    ensures var n := c.(dns := c.dns.(jobs := c.dns.jobs - 1, notified := c.dns.notified + 1));
      Shows(Jump(Resume(Refuse(n, reply)), CONNECTION_REQ), S.Owing(s, reply, S.Over))
  {
    var n := c.(dns := c.dns.(jobs := c.dns.jobs - 1, notified := c.dns.notified + 1));
    hide Jump;
    assert [] + reply == reply;
    JumpIs(Refuse(n, reply), CONNECTION_REQ);
  }

  // ---- An attempt completes ----

  predicate AwaitingAttempt(c: Conn, s: S.Session) {
    && c.flow.live && c.stm.current == Some(CONNECTING) && c.flow.outB == [] && c.flow.inB == []
    && c.flow.cap >= 256 && !c.isError
    && c.flow.origin == Registered(c.flow.originFd, ConnectingHandler, WRITE) && 0 < c.flow.originFd < 1024
    && c.dns.jobs == 0 && c.dns.resolving == 0
    && Shows(c, s) && s.phase == S.Connecting(c.dns.addrInfo) && c.flow.io.toOrigin == []
  }

  lemma {:induction false} AttemptIsAwaited(c: Conn, s: S.Session, e: Event)
    requires Inv(c) && Enabled(c, e) && e.ConnectReady? && Shows(c, s)
    ensures AwaitingAttempt(c, s)
  {
    ConnectingHandlerMeansConnecting(c);
  }

  lemma {:induction false} ConnectedShows(c: Conn, s: S.Session, verdicts: seq<Attempt>, fd: int, reply: seq<byte>, r: Send)
    requires AwaitingAttempt(c, s) && |verdicts| == |c.dns.addrInfo| && ReplySized(reply)
    ensures Shows(ConnectDone(c, false, verdicts, fd, reply, r), S.Started(s, reply, true, r))
  {
    var env := Env(map[], Resolver(false, []), []);
    var d := c.(flow := ReleaseOrigin(c.flow), dns := c.dns.(addrInfo := []));
    var e := ReadReady(d, r, env);
    assert e == d.(stm := e.stm, flow := RegisterOrigin(d.flow, CopyHandler, NOOP)) && e.stm.current == Some(COPY);
    hide ReadReady, Start, S.Started;
    StartShows(e, s, reply, r);
  }

  lemma {:induction false} FailedShows(c: Conn, s: S.Session, verdicts: seq<Attempt>, fd: int, reply: seq<byte>, r: Send)
    requires Inv(c) && Enabled(c, ConnectReady(true, verdicts, fd, reply, r)) && AwaitingAttempt(c, s)
    ensures Shows(ConnectDone(c, true, verdicts, fd, reply, r), S.OnAttempt(s, c.dns.addrInfo, true, verdicts, reply, r))
  {
    Dialled(c.dns.addrInfo, verdicts);
    R.NoAddresses(c.dns.addrInfo, verdicts);
    hide Inv, ConnectTo, ConnectDone, Shows;
    var o := ConnectTo(c.dns.addrInfo, verdicts);
    if o.result == CONNECTION_IN_PROGRESS {
      NextAttemptShows(c, s, verdicts, fd, reply, r);
    } else {
      LastAttemptShows(c, s, verdicts, fd, reply, r);
    }
  }

  lemma {:induction false} NextAttemptShows(c: Conn, s: S.Session, verdicts: seq<Attempt>, fd: int, reply: seq<byte>, r: Send)
    requires AwaitingAttempt(c, s) && |verdicts| == |c.dns.addrInfo| && c.dns.addrInfo != []
    requires ConnectTo(c.dns.addrInfo, verdicts).result == CONNECTION_IN_PROGRESS
    ensures Shows(ConnectDone(c, true, verdicts, fd, reply, r), s.(phase := S.Connecting(ConnectTo(c.dns.addrInfo, verdicts).kept)))
  {
    hide ConnectTo;
  }

  lemma {:induction false} LastAttemptShows(c: Conn, s: S.Session, verdicts: seq<Attempt>, fd: int, reply: seq<byte>, r: Send)
    requires AwaitingAttempt(c, s) && |verdicts| == |c.dns.addrInfo| && |reply| < c.flow.cap
    requires ConnectTo(c.dns.addrInfo, verdicts).result != CONNECTION_IN_PROGRESS
    ensures Shows(ConnectDone(c, true, verdicts, fd, reply, r), S.Owing(s, reply, S.Over))
  {
    hide ConnectTo, Put;
    var g := ReleaseOrigin(Retried(c, verdicts, fd).flow).(originFd := -1);
    O.PutIs(g, reply);
  }

  // ---- The relay ----

  predicate SameNames(c: Conn, d: Conn) { d.username == c.username && d.destination == c.destination }

  lemma {:induction false} JumpNames(c: Conn, next: State)
    ensures SameNames(c, Jump(c, next))
  {
    hide Jumped, CanDepart, ReleaseOrigin, RegisterOrigin;
  }

  lemma {:induction false} ClosedNames(c: Conn)
    ensures SameNames(c, CloseIfEnded(c)) && SameNames(c, Close(c)) && SameNames(c, Resume(c))
  {
  }

  lemma {:induction false} WriteNames(c: Conn, r: Send)
    requires c.stm.current == Some(COPY)
    ensures SameNames(c, ClientWrite(c, r))
  {
    hide WriteToClient, CloseIfEnded;
    ClosedNames(c.(flow := WriteToClient(c.flow, r)));
  }

  lemma {:induction false} ReadNames(c: Conn, recv: Recv, r: Send, env: Env)
    requires c.stm.current == Some(COPY)
    ensures SameNames(c, ClientRead(c, recv, r, env))
  {
    hide HandshakeRead, AuthRead, ConnReqRead, WriteToOrigin, SetOrigin, CloseIfEnded, Jump, PauseClient, Close;
    ClosedNames(c);
    if recv.Received? {
      var d := Gained(c, recv.bytes);
      var (e, next) := CopyReadReady(d, r);
      ClosedNames(d.(flow := WriteToOrigin(SetOrigin(d.flow, WRITE), r)));
      JumpNames(e, next);
    }
  }

  lemma {:induction false} OriginReadNames(c: Conn, recv: Recv, r: Send)
    requires c.stm.current == Some(COPY)
    ensures SameNames(c, OriginRead(c, recv, r))
  {
    hide ClientWrite, CloseIfEnded, ReadFromOrigin;
    ClosedNames(c.(flow := ReadFromOrigin(c.flow, recv, r)));
    if recv.Received? {
      WriteNames(c.(flow := SetClient(FromOrigin(c.flow, recv.bytes), WRITE)), r);
    }
  }

  /** Nothing in COPY changes what the log is told. */
  lemma {:induction false} CopyKeepsNames(c: Conn, io: IoEvent, env: Env)
    requires c.stm.current == Some(COPY)
    ensures SameNames(c, React(c, io, env))
  {
    hide ClientRead, ClientWrite, OriginRead, WriteToOrigin, CloseIfEnded, SameNames;
    match io
    case ClientReadable(recv, send) => ReadNames(c, recv, send, env);
    case ClientWritable(send) => WriteNames(c, send);
    case OriginReadable(recv, send) => OriginReadNames(c, recv, send);
    case OriginWritable(send) => OriginWriteNames(c, send);
  }

  lemma {:induction false} OriginWriteNames(c: Conn, r: Send)
    ensures SameNames(c, CopyWrite(c, r))
  {
    hide WriteToOrigin, CloseIfEnded;
    ClosedNames(c.(flow := WriteToOrigin(c.flow, r)));
  }

  lemma {:induction false} RelayShows(c: Conn, s: S.Session, io: IoEvent, env: Env)
    requires Inv(c) && Enabled(c, Io(io, env)) && Shows(c, s) && c.flow.live && c.stm.current == Some(COPY)
    ensures Shows(React(c, io, env), S.Step(s, Io(io, env)))
  {
    CopyIsRelay(c);
    hide Inv, React, IoStep, Pipe.Step, RelayInv, Enabled;
    IoIsEnabled(c, io, env);
    CopyRefinesRelay(c, io, env);
    Pipe.IoStepIsPipe(c.flow, io);
    IoStepKeepsStart(c.flow, io);
    G.CopyStays(c, io, env);
    CopyKeepsNames(c, io, env);
  }

  lemma {:induction false} IoIsEnabled(c: Conn, io: IoEvent, env: Env)
    requires Enabled(c, Io(io, env))
    ensures IoEnabled(c.flow, io)
  {
  }

  // ---- Every event ----

  lemma {:induction false} FirstIsGreeting(c: Conn, s: S.Session, bytes: seq<byte>)
    requires Inv(c) && Shows(c, s) && c.flow.live && c.flow.client == READ && c.stm.current in {None, Some(HANDSHAKE)}
    requires NotPipelined(c, bytes)
    ensures var d := HandleFirst(Gained(c, bytes));
      GreetingPhase(d, s) && d.nego.greeting == c.nego.greeting && d.flow.inB == bytes && s.phase == S.Greeting(c.nego.greeting)
  {
    BetweenChunks(c);
    assert [] + bytes == bytes;
    hide VisitsMatch, ParsersCounted, Visits, Accounts, HS.Answered;
  }

  lemma {:induction false} InIsCredentials(c: Conn, s: S.Session, bytes: seq<byte>)
    requires Inv(c) && Shows(c, s) && c.flow.live && c.flow.client == READ && c.stm.current == Some(AUTH)
    ensures var d := Gained(c, bytes);
      CredentialsPhase(d, s) && d.nego.credentials == c.nego.credentials && d.flow.inB == bytes
      && s.phase == S.Credentials(c.nego.credentials) && HandleFirst(d) == d
  {
    BetweenChunks(c);
    assert [] + bytes == bytes;
    hide VisitsMatch, ParsersCounted, Visits, Accounts, HS.Answered, HS.Run;
  }

  lemma {:induction false} InIsRequest(c: Conn, s: S.Session, bytes: seq<byte>)
    requires Inv(c) && Shows(c, s) && c.flow.live && c.flow.client == READ && c.stm.current == Some(CONNECTION_REQ)
    requires NotPipelined(c, bytes)
    ensures var d := Gained(c, bytes);
      RequestPhase(d, s) && d.nego.asked == c.nego.asked && d.flow.inB == bytes
      && s.phase == S.Request(c.nego.asked) && HandleFirst(d) == d
  {
    BetweenChunks(c);
    assert [] + bytes == bytes;
    CR.NeverDone(c.nego.asked);
    hide CR.NotDoneEarly, CR.Run, VisitsMatch, ParsersCounted, Visits, Accounts, HS.Answered, HS.Run, Authorized, Preface;
  }

  /** Bytes from the client, while it is being read and there is no relay. */
  lemma {:induction false} ReceivedShows(c: Conn, s: S.Session, bytes: seq<byte>, r: Send, env: Env)
    requires Inv(c) && Shows(c, s) && c.flow.live && c.flow.client == READ && c.stm.current != Some(COPY)
    requires NotPipelined(c, bytes) && env.reply == COMMAND_NOT_SUPPORTED
    requires c.stm.current != Some(CONNECTION_REQ) ==> r != Sent(1)
    ensures Shows(ReadReady(Gained(c, bytes), r, env), S.Step(s, Io(ClientReadable(Received(bytes), r), env)))
  {
    BetweenChunks(c);
    hide Inv, Shows, NotPipelined, HandshakeRead, AuthRead, ConnReqRead, CopyReadReady, Jump, S.OnGreeting, S.OnCredentials,
      S.OnRequest, GreetingPhase, CredentialsPhase, RequestPhase, Gained;
    var d := HandleFirst(Gained(c, bytes));
    if c.stm.current == Some(AUTH) {
      InIsCredentials(c, s, bytes);
      CredentialsShow(d, s, r, env.users);
    } else if c.stm.current == Some(CONNECTION_REQ) {
      InIsRequest(c, s, bytes);
      RequestShows(d, s, env);
    } else {
      FirstIsGreeting(c, s, bytes);
      assert d.stm.current == Some(HANDSHAKE) by { GreetingIsHandshake(d, s); }
      GreetingShows(d, s, r);
    }
  }

  lemma {:induction false} GreetingIsHandshake(c: Conn, s: S.Session)
    requires GreetingPhase(c, s)
    ensures c.stm.current == Some(HANDSHAKE)
  {
  }

  lemma {:induction false} ReadShows(c: Conn, s: S.Session, recv: Recv, r: Send, env: Env)
    requires Inv(c) && Shows(c, s) && Enabled(c, Io(ClientReadable(recv, r), env)) && c.stm.current != Some(COPY)
    requires WholeReply(c, Io(ClientReadable(recv, r), env))
    ensures Shows(ClientRead(c, recv, r, env), S.Step(s, Io(ClientReadable(recv, r), env)))
  {
    BetweenChunks(c);
    hide Inv, NotPipelined, ReadReady, S.OnGreeting, S.OnCredentials, S.OnRequest;
    match recv
    case Received(bytes) =>
      hide Shows;
      ReceivedShows(c, s, bytes, r, env);
    case RecvAgain =>
    case _ =>
      CloseIs(c);
      EndedShows(c, Close(c), s);
  }

  lemma {:induction false} WriteShows(c: Conn, s: S.Session, r: Send)
    requires Inv(c) && Shows(c, s) && c.flow.live && c.flow.client == WRITE && c.stm.current != Some(COPY)
    requires c.stm.current in {None, Some(HANDSHAKE), Some(AUTH)} ==> r != Sent(1)
    ensures s.phase.Replying? && Shows(ClientWrite(c, r), S.Sending(s, s.phase.after, r))
  {
    WritableIsReplying(c, s);
    ReplyIsOut(c);
    hide Inv, Shows, ClientWrite, S.Sending;
    ReplyShows(c, s, r);
  }

  lemma {:induction false} WritableIsReplying(c: Conn, s: S.Session)
    requires Inv(c) && Shows(c, s) && c.flow.live && c.flow.client == WRITE && c.stm.current != Some(COPY)
    ensures s.phase.Replying? && c.stm.current.Some?
  {
  }

  lemma {:induction false} ResolvedShows(c: Conn, s: S.Session, list: seq<Endpoint>)
    requires Inv(c) && Shows(c, s) && c.dns.resolving > 0
    ensures Shows(Resolved(c, list), S.Step(s, ResolverDone(list)))
  {
    ResolvedKeeps(c, list);
    ResolvingMeans(c);
    hide Inv;
  }

  lemma {:induction false} ResolvingMeans(c: Conn)
    requires Inv(c) && c.dns.resolving > 0
    ensures c.flow.live && c.stm.current == Some(CONNECTING) && c.flow.client == NOOP && c.flow.origin == Unregistered
  {
  }

  /** Every event of a connection is the same event of its session. */
  lemma {:induction false} StepShows(c: Conn, s: S.Session, e: Event)
    requires Inv(c) && Shows(c, s) && Enabled(c, e) && WholeReply(c, e)
    ensures Shows(Socks5.Step(c, e), S.Step(s, e))
  {
    hide Inv, React, ConnectDone, Block, Resolved;
    match e
    case Io(io, env) => IoShows(c, s, io, env);
    case ConnectReady(failed, verdicts, fd, reply, send) =>
      AttemptIsAwaited(c, s, e);
      hide Shows;
      if failed {
        FailedShows(c, s, verdicts, fd, reply, send);
      } else {
        ConnectedShows(c, s, verdicts, fd, reply, send);
      }
    case ResolverDone(list) =>
      hide Shows;
      ResolvedShows(c, s, list);
    case BlockNotified(verdicts, fd, reply, send) =>
      NotificationIsAwaited(c, s);
      hide Shows;
      NotificationShows(c, s, verdicts, fd, reply, send);
  }

  lemma {:induction false} IoShows(c: Conn, s: S.Session, io: IoEvent, env: Env)
    requires Inv(c) && Shows(c, s) && Enabled(c, Io(io, env)) && WholeReply(c, Io(io, env))
    ensures Shows(React(c, io, env), S.Step(s, Io(io, env)))
  {
    hide Inv, ClientRead, ClientWrite, OriginRead, CopyWrite, Shows, S.Sending, NotPipelined;
    if c.stm.current == Some(COPY) {
      hide React;
      RelayShows(c, s, io, env);
    } else {
      match io
      case ClientReadable(recv, send) => ReadShows(c, s, recv, send, env);
      case ClientWritable(send) => WriteShows(c, s, send);
      case OriginReadable(_, _) => CopyHandlerMeansCopy(c);
      case OriginWritable(_) => CopyHandlerMeansCopy(c);
    }
  }

  lemma {:induction false} RunShows(c: Conn, s: S.Session, es: seq<Event>)
    requires Inv(c) && Shows(c, s) && IsRun(c, es)
    ensures Shows(Socks5.Run(c, es), S.Run(s, es))
    decreases |es|
  {
    hide Inv, Shows, Enabled, Socks5.Step, S.Step, WholeReply;
    if es != [] {
      StepShows(c, s, es[0]);
      StepKeeps(c, es[0]);
      RunShows(Socks5.Step(c, es[0]), S.Step(s, es[0]), es[1..]);
    }
  }

  /** From its acceptance on, every run of a connection is the session of its events: the same bytes are sent
      to the client and to the origin, the same are owed, it is over at the same moment, and the client's
      socket waits for what the phase waits for. */
  lemma {:induction false} EverySession(bufferSize: nat, es: seq<Event>)
    requires bufferSize >= 256 && IsRun(Accepted(bufferSize), es)
    ensures Shows(Socks5.Run(Accepted(bufferSize), es), S.Run(S.Opened(bufferSize), es))
  {
    AcceptedInv(bufferSize);
    AcceptedShows(bufferSize);
    hide Inv, Shows;
    RunShows(Accepted(bufferSize), S.Opened(bufferSize), es);
  }

  lemma {:induction false} AcceptedShows(bufferSize: nat)
    ensures Shows(Accepted(bufferSize), S.Opened(bufferSize))
  {
  }

  // ---- What the client is told ----

  /** The session of a connection that waits for credentials. */
  function Awaited(c: Conn): S.Session {
    S.Session(S.Credentials(c.nego.credentials), c.flow.cap,
              Pipe.Pipe(false, false, c.flow.io.toClient, c.flow.outB, c.flow.io.toOrigin, []), c.username, c.destination)
  }

  /** Whenever credentials are complete, in whatever chunks they came, 01 00 is queued if the users have that
      name with that password, as C strings, and otherwise 01 01, and then only the end can follow. */
  lemma {:induction false} CredentialsAnswered(c: Conn, bytes: seq<byte>, u: seq<byte>, p: seq<byte>, env: Env)
    requires Inv(c) && c.flow.live && c.stm.current == Some(AUTH) && c.flow.client == READ
    requires 1 <= |u| <= 255 && 1 <= |p| <= 255 && c.nego.credentials + bytes == [1, |u|] + u + [|p|] + p
    requires Enabled(c, Io(ClientReadable(Received(bytes), SendAgain), env))
    ensures var d := Socks5.Step(c, Io(ClientReadable(Received(bytes), SendAgain), env));
      var accepted := CStr(u) in env.users && env.users[CStr(u)] == CStr(p);
      && d.flow.live && d.flow.client == WRITE && d.flow.outB == (if accepted then [1, 0] else [1, 1])
      && d.isError == !accepted
  {
    var e, s, all := Io(ClientReadable(Received(bytes), SendAgain), env), Awaited(c), c.nego.credentials + bytes;
    AwaitedShows(c);
    hide Inv, Enabled, Socks5.Step, Shows, S.Step, S.OnCredentials, Awaited;
    StepShows(c, s, e);
    Judgement(s, c.nego.credentials, bytes, u, p, env);
    SpokenTo(Socks5.Step(c, e), S.Step(s, e));
  }

  lemma {:induction false} AwaitedShows(c: Conn)
    requires Inv(c) && c.flow.live && c.stm.current == Some(AUTH) && c.flow.client == READ
    ensures Shows(c, Awaited(c)) && Awaited(c).pipe.owed == [] && Awaited(c).phase == S.Credentials(c.nego.credentials)
  {
    BetweenChunks(c);
    NothingUpstream(c);
    hide Inv;
  }

  lemma {:induction false} ReadsAs(all: seq<byte>, u: seq<byte>, p: seq<byte>)
    requires 1 <= |u| <= 255 && 1 <= |p| <= 255 && all == [1, |u|] + u + [|p|] + p
    ensures !S.BadCredentials(all) && S.WholeCredentials(all)
    ensures S.At(all, 1) == |u| && S.At(all, 2 + |u|) == |p| && u == all[2..2 + |u|] && p == all[3 + |u|..3 + |u| + |p|]
  {
    Parts(all, u, p);
  }

  /** The session's answer to these credentials. */
  lemma {:induction false} Judgement(s: S.Session, got: seq<byte>, bytes: seq<byte>, u: seq<byte>, p: seq<byte>, env: Env)
    requires s.phase == S.Credentials(got) && s.pipe.owed == []
    requires 1 <= |u| <= 255 && 1 <= |p| <= 255 && got + bytes == [1, |u|] + u + [|p|] + p
    ensures var t := S.Step(s, Io(ClientReadable(Received(bytes), SendAgain), env));
      var accepted := CStr(u) in env.users && env.users[CStr(u)] == CStr(p);
      && t.phase == S.Replying(if accepted then S.Request([]) else S.Over)
      && t.pipe.owed == if accepted then [1, 0] else [1, 1]
  {
    var all := got + bytes;
    ReadsAs(all, u, p);
    hide CStr, S.BadCredentials, S.WholeCredentials, S.Told, S.OnCredentials;
    JudgedAs(s, all, u, p, env.users);
    TellsBoth(s, CStr(u));
    assert S.Step(s, Io(ClientReadable(Received(bytes), SendAgain), env)) == S.OnCredentials(s, all, SendAgain, env.users);
  }

  lemma {:induction false} JudgedAs(s: S.Session, all: seq<byte>, u: seq<byte>, p: seq<byte>, users: Users)
    requires !S.BadCredentials(all) && S.WholeCredentials(all) && S.At(all, 1) == |u| && S.At(all, 2 + |u|) == |p|
    requires u == all[2..2 + |u|] && p == all[3 + |u|..3 + |u| + |p|]
    ensures S.OnCredentials(s, all, SendAgain, users)
         == if CStr(u) in users && users[CStr(u)] == CStr(p) then S.Told(s.(user := CStr(u)), [1, 0], S.Request([]), SendAgain)
            else S.Told(s, [1, 1], S.Over, SendAgain)
  {
    hide CStr, S.BadCredentials, S.WholeCredentials, S.Told;
  }

  lemma {:induction false} TellsBoth(s: S.Session, name: seq<byte>)
    requires s.pipe.owed == []
    ensures var t := S.Told(s.(user := name), [1, 0], S.Request([]), SendAgain);
      t.phase == S.Replying(S.Request([])) && t.pipe.owed == [1, 0]
    ensures var t := S.Told(s, [1, 1], S.Over, SendAgain);
      t.phase == S.Replying(S.Over) && t.pipe.owed == [1, 1]
  {
  }

  lemma {:induction false} NothingUpstream(c: Conn)
    requires Inv(c) && c.flow.live && c.stm.current == Some(AUTH)
    ensures c.flow.io.toOrigin == [] && (c.flow.client == READ ==> c.flow.outB == [])
  {
  }

  lemma {:induction false} SpokenTo(c: Conn, s: S.Session)
    requires Shows(c, s) && s.phase.Replying?
    ensures c.flow.live && c.flow.client == WRITE && c.flow.outB == s.pipe.owed && c.isError == (s.phase.after == S.Over)
  {
  }

  /** Everything that both ends of a relay are sent, from the acceptance on: to the client 05 and its method,
      01 00 if that is 02, the CONNECT reply, and what the origin has sent; to the origin what the client has
      sent since. Nothing is lost, repeated or reordered. */
  lemma {:induction false} ServedStream(bufferSize: nat, before: seq<Event>, e: Event, after: seq<Event>)
    requires bufferSize >= 256 && IsRun(Accepted(bufferSize), before)
    requires var c := Socks5.Run(Accepted(bufferSize), before);
      && c.stm.current == Some(CONNECTING) && Enabled(c, e) && (e.BlockNotified? || e.ConnectReady?)
      && var d := Socks5.Step(c, e); d.flow.live && d.stm.current == Some(COPY) && IsRun(d, after)
    ensures var c := Socks5.Run(Accepted(bufferSize), before);
      var d := Socks5.Step(c, e);
      var f, p := Socks5.Run(d, after).flow, Pipe.PipeOf(d.flow);
      && G.AllIo(after) && G.LetThrough(c.nego)
      && f.io.toClient + f.outB
         == (if 2 in c.nego.greeting[2..] then [5, 2, 1, 0] else [5, 0]) + e.reply + Pipe.OriginBytes(p, bufferSize, G.Ios(after))
      && f.io.toOrigin + f.inB == Pipe.ClientBytes(p, bufferSize, G.Ios(after))
  {
    var c := Socks5.Run(Accepted(bufferSize), before);
    AcceptedInv(bufferSize);
    RunKeeps(Accepted(bufferSize), before);
    EverySession(bufferSize, before);
    hide Inv, Enabled, Shows, Socks5.Step, S.Step, S.Run, Socks5.Run, IsRun, G.LetThrough, Pipe.OriginBytes, Pipe.ClientBytes;
    CapIs(c, S.Run(S.Opened(bufferSize), before));
    SessionCap(S.Opened(bufferSize), before);
    StreamFrom(c, S.Run(S.Opened(bufferSize), before), e, after);
  }

  /** An origin that is to speak first is never heard: until the client sends something after the reply to its
      request, it is not sent a byte of what the origin says, in any run. */
  lemma {:induction false} ServerSpeaksInVain(bufferSize: nat, before: seq<Event>, e: Event, after: seq<Event>)
    requires bufferSize >= 256 && IsRun(Accepted(bufferSize), before)
    requires var c := Socks5.Run(Accepted(bufferSize), before);
      && c.stm.current == Some(CONNECTING) && Enabled(c, e) && (e.BlockNotified? || e.ConnectReady?)
      && var d := Socks5.Step(c, e); d.flow.live && d.stm.current == Some(COPY) && IsRun(d, after)
    ensures var c := Socks5.Run(Accepted(bufferSize), before);
      var d := Socks5.Step(c, e);
      && G.AllIo(after)
      && var ios := G.Ios(after);
         Pipe.ClientBytes(Pipe.PipeOf(d.flow), bufferSize, ios) == [] ==>
           && Pipe.OriginBytes(Pipe.PipeOf(d.flow), bufferSize, ios) == []
           && forall io | io in ios :: io.ClientReadable? || io.ClientWritable?
  {
    var c, s := Socks5.Run(Accepted(bufferSize), before), S.Run(S.Opened(bufferSize), before);
    AcceptedInv(bufferSize);
    RunKeeps(Accepted(bufferSize), before);
    EverySession(bufferSize, before);
    hide Inv, Enabled, Shows, Socks5.Step, S.Step, S.Run, Socks5.Run, IsRun, G.LetThrough, G.AllIo, Pipe.OriginBytes, Pipe.ClientBytes;
    CapIs(c, s);
    SessionCap(S.Opened(bufferSize), before);
    NewRelay(c, s, e);
    var d := Socks5.Step(c, e);
    G.CopyRunIsRelayRun(d, after);
    var ios := G.Ios(after);
    if Pipe.ClientBytes(Pipe.PipeOf(d.flow), bufferSize, ios) == [] {
      Pipe.ClientSpeaksFirst(d.flow, ios);
    }
  }

  lemma {:induction false} NewRelay(c: Conn, s: S.Session, e: Event)
    requires Inv(c) && Shows(c, s) && c.stm.current == Some(CONNECTING) && Enabled(c, e) && (e.BlockNotified? || e.ConnectReady?)
    requires Socks5.Step(c, e).flow.live && Socks5.Step(c, e).stm.current == Some(COPY)
    ensures var d := Socks5.Step(c, e); Inv(d) && RelayInv(d.flow) && d.flow.io.fromClient == [] && d.flow.cap == c.flow.cap
  {
    var d, t := Socks5.Step(c, e), S.Step(s, e);
    assert WholeReply(c, e);
    hide Inv, Enabled, Shows, Socks5.Step, S.Step, RelayInv;
    StepShows(c, s, e);
    StepKeeps(c, e);
    StillAlive(c, e);
    BeforeRelay(c, s);
    InRelay(d, t);
    RelayBegins(s, e);
    StepCap(s, e);
    CopyIsRelay(d);
    Untouched(d.flow);
  }

  lemma {:induction false} Untouched(f: Flow)
    requires RelayInv(f) && f.inB == [] && f.io.toOrigin == []
    ensures f.io.fromClient == []
  {
  }

  lemma {:induction false} CapIs(c: Conn, s: S.Session)
    requires Shows(c, s)
    ensures s.cap == c.flow.cap
  {
  }

  lemma {:induction false} SessionCap(s: S.Session, es: seq<Event>)
    ensures S.Run(s, es).cap == s.cap
    decreases |es|
  {
    if es != [] {
      StepCap(s, es[0]);
      hide S.Step;
      SessionCap(S.Step(s, es[0]), es[1..]);
    }
  }

  lemma {:induction false} StepCap(s: S.Session, e: Event)
    ensures S.Step(s, e).cap == s.cap
  {
    hide Pipe.ToClient, Pipe.Step, S.BadGreeting, S.WholeGreeting, S.BadCredentials, S.WholeCredentials,
      S.BadRequest, S.WholeRequest,
      S.Target, S.Method, FirstNotRefused;
  }

  lemma {:induction false} StreamFrom(c: Conn, s: S.Session, e: Event, after: seq<Event>)
    requires Inv(c) && Shows(c, s) && c.stm.current == Some(CONNECTING) && Enabled(c, e)
      && (e.BlockNotified? || e.ConnectReady?)
    requires var d := Socks5.Step(c, e); d.flow.live && d.stm.current == Some(COPY) && IsRun(d, after)
    ensures var d := Socks5.Step(c, e);
      var f, p := Socks5.Run(d, after).flow, Pipe.PipeOf(d.flow);
      && G.AllIo(after) && G.LetThrough(c.nego)
      && f.io.toClient + f.outB
         == (if 2 in c.nego.greeting[2..] then [5, 2, 1, 0] else [5, 0]) + e.reply + Pipe.OriginBytes(p, c.flow.cap, G.Ios(after))
      && f.io.toOrigin + f.inB == Pipe.ClientBytes(p, c.flow.cap, G.Ios(after))
  {
    var d, t := Socks5.Step(c, e), S.Step(s, e);
    assert WholeReply(c, e);
    hide Inv, Enabled, Shows, Socks5.Step, S.Step, Socks5.Run, IsRun, G.LetThrough, Pipe.OriginBytes, Pipe.ClientBytes;
    StepShows(c, s, e);
    StepKeeps(c, e);
    StillAlive(c, e);
    BeforeRelay(c, s);
    InRelay(d, t);
    RelayBegins(s, e);
    StepCap(s, e);
    G.RelayDelivers(d, after);
    assert [] + Pipe.ClientBytes(t.pipe, d.flow.cap, G.Ios(after)) == Pipe.ClientBytes(t.pipe, d.flow.cap, G.Ios(after));
  }

  lemma {:induction false} StillAlive(c: Conn, e: Event)
    requires Inv(c) && Enabled(c, e)
    ensures c.flow.live
  {
    if !c.flow.live {
      G.NothingAfterTheEnd(c, e);
    }
  }

  /** While the origin is awaited, only the negotiation has been answered. */
  lemma {:induction false} BeforeRelay(c: Conn, s: S.Session)
    requires Inv(c) && Shows(c, s) && c.flow.live && c.stm.current == Some(CONNECTING)
    ensures G.LetThrough(c.nego) && s.cap == c.flow.cap && (s.phase.Resolving? || s.phase.Connecting? || s.phase.Replying?)
    ensures s.pipe.toOrigin == [] && s.pipe.upload == []
    ensures !s.phase.Replying? ==> s.pipe.toClient + s.pipe.owed == if 2 in c.nego.greeting[2..] then [5, 2, 1, 0] else [5, 0]
  {
    G.PrefaceIs(c.nego);
    hide G.LetThrough, Authorized, Asked, Preface, History, Visits;
  }

  lemma {:induction false} InRelay(c: Conn, s: S.Session)
    requires Shows(c, s) && c.flow.live && c.stm.current == Some(COPY)
    ensures s.phase == S.Relaying && s.pipe == Pipe.PipeOf(c.flow) && s.cap == c.flow.cap
  {
  }

  /** The reply to the request comes first. */
  lemma {:induction false} RelayBegins(s: S.Session, e: Event)
    requires (s.phase.Resolving? || s.phase.Connecting? || s.phase.Replying?) && (e.BlockNotified? || e.ConnectReady?)
    requires S.Step(s, e).phase == S.Relaying
    ensures var p := S.Step(s, e).pipe;
      !s.phase.Replying? && p.toClient + p.owed == s.pipe.toClient + s.pipe.owed + e.reply
      && p.toOrigin == s.pipe.toOrigin && p.upload == s.pipe.upload
  {
    hide FirstNotRefused, Pipe.ToClient;
    assert s.pipe.toClient + (s.pipe.owed + e.reply) == s.pipe.toClient + s.pipe.owed + e.reply;
    forall open
      ensures var q := Pipe.ToClient(s.pipe.(owed := s.pipe.owed + e.reply, originOpen := open), e.send);
        q.toClient + q.owed == s.pipe.toClient + (s.pipe.owed + e.reply) && q.toOrigin == s.pipe.toOrigin && q.upload == s.pipe.upload
    {
      Pipe.SendConserves(s.pipe.(owed := s.pipe.owed + e.reply, originOpen := open), e.send);
    }
  }
}
