// How a message is split into recv chunks does not matter: reading the chunks one by one leaves the
// connection exactly as reading the whole message at once.
module Chunking {
  import opened Bytes
  import opened StateMachine
  import opened Relay
  import opened Socks5
  import A = Automaton
  import AU = AuthParser
  import CR = ConnReqParser

  function WithIn(c: Conn, bs: seq<byte>): Conn { c.(flow := c.flow.(inB := bs)) }

  function Concat(chunks: seq<seq<byte>>): seq<byte> {
    if chunks == [] then [] else chunks[0] + Concat(chunks[1..])
  }

  /** One `socksv5_read` per chunk. */
  function ReadAll(c: Conn, chunks: seq<seq<byte>>, r: Send, env: Env): Conn
    decreases |chunks|
  {
    if chunks == [] then c else ReadAll(ClientRead(c, Received(chunks[0]), r, env), chunks[1..], r, env)
  }

  // ---- Credentials ----

  lemma {:induction false} AuthHead(v: AU.Value, a: seq<byte>)
    requires a != [] && !AU.Stopped(AU.Run(v, a))
    ensures !AU.Stopped(AU.Step(v, a[0])) && AU.Run(v, a) == AU.Run(AU.Step(v, a[0]), a[1..])
  {
    A.FirstByte(AU.Step, v, AU.Stopped, a);
  }

  predicate ReadsCredentials(c: Conn) {
    c.flow.live && c.stm.current == Some(AUTH) && c.stm.au.Some? && c.flow.inB == [] && c.flow.cap > 0
  }

  /** What an unfinished chunk does. */
  lemma {:induction false} AuthReadSplit(c: Conn, a: seq<byte>, b: seq<byte>, r: Send, users: Users)
    requires ReadsCredentials(c) && !AU.Stopped(AU.Run(c.stm.au.value, a))
    ensures var (d, next) := AuthRead(WithIn(c, a), r, users);
      && ReadsCredentials(d) && next == AUTH && d.stm.au.value == AU.Run(c.stm.au.value, a)
      && AuthRead(WithIn(c, a + b), r, users) == AuthRead(WithIn(d, b), r, users)
    decreases |a|
  {
    hide AU.Step;
    if a == [] {
      assert a + b == b && WithIn(c, []) == c;
    } else {
      AuthHead(c.stm.au.value, a);
      var v := AU.Step(c.stm.au.value, a[0]);
      var d := FedCredentials(WithIn(c, a), v);
      assert (a + b)[1..] == a[1..] + b;
      assert WithIn(WithIn(d, []), a[1..]) == d;
      assert WithIn(WithIn(d, []), a[1..] + b) == FedCredentials(WithIn(c, a + b), v);
      AuthReadSplit(WithIn(d, []), a[1..], b, r, users);
    }
  }

  lemma {:induction false} AuthTwoChunks(c: Conn, a: seq<byte>, b: seq<byte>, r: Send, env: Env)
    requires ReadsCredentials(c) && !AU.Stopped(AU.Run(c.stm.au.value, a))
    ensures var d := ClientRead(c, Received(a), r, env);
      && ReadsCredentials(d) && d.stm.au.value == AU.Run(c.stm.au.value, a)
      && ClientRead(c, Received(a + b), r, env) == ClientRead(d, Received(b), r, env)
  {
    AuthReadSplit(c, a, b, r, env.users);
    AuthReadIs(c, a, r, env);
    AuthReadIs(c, a + b, r, env);
    AuthReadIs(AuthRead(WithIn(c, a), r, env.users).0, b, r, env);
  }

  lemma {:induction false} AuthReadIs(c: Conn, a: seq<byte>, r: Send, env: Env)
    requires ReadsCredentials(c)
    ensures var (e, next) := AuthRead(WithIn(c, a), r, env.users);
      ClientRead(c, Received(a), r, env) == Jump(e, next)
  {
    hide AuthRead, HandshakeRead, ConnReqRead, Jump;
    assert [] + a == a && Gained(c, a) == WithIn(c, a);
  }

  /** Credentials in any chunks, of which only the last may complete them, come to the same as in one:
      same fields, same answer, same everything. */
  lemma {:induction false} CredentialsInAnyChunks(c: Conn, chunks: seq<seq<byte>>, r: Send, env: Env)
    requires ReadsCredentials(c) && chunks != []
    requires !AU.Stopped(AU.Run(c.stm.au.value, Concat(chunks[..|chunks| - 1])))
    ensures ReadAll(c, chunks, r, env) == ClientRead(c, Received(Concat(chunks)), r, env)
    decreases |chunks|
  {
    hide ClientRead;
    var first, rest := chunks[0], chunks[1..];
    if rest == [] {
      assert Concat(chunks) == first + [] == first;
    } else {
      var tail := rest[..|rest| - 1];
      assert chunks[..|chunks| - 1][1..] == tail;
      A.RunAppend(AU.Step, c.stm.au.value, first, Concat(tail));
      if AU.Stopped(AU.Run(c.stm.au.value, first)) {
        AU.Absorbing(AU.Run(c.stm.au.value, first), Concat(tail));
      }
      AuthTwoChunks(c, first, Concat(rest), r, env);
      CredentialsInAnyChunks(ClientRead(c, Received(first), r, env), rest, r, env);
    }
  }

  // ---- Requests ----

  lemma {:induction false} RequestHead(v: CR.Value, a: seq<byte>)
    requires a != [] && !CR.Stopped(CR.Run(v, a))
    ensures !CR.Stopped(CR.Step(v, a[0])) && CR.Run(v, a) == CR.Run(CR.Step(v, a[0]), a[1..])
  {
    A.FirstByte(CR.Step, v, CR.Stopped, a);
  }

  predicate ReadsRequest(c: Conn) {
    c.flow.live && c.stm.current == Some(CONNECTION_REQ) && c.stm.cr.Some? && c.flow.inB == [] && c.flow.cap > 0
  }

  lemma {:induction false} RequestReadSplit(c: Conn, a: seq<byte>, b: seq<byte>, resolver: Resolver, reply: seq<byte>)
    requires ReadsRequest(c) && !CR.Stopped(CR.Run(c.stm.cr.value, a))
    ensures var (d, next) := ConnReqRead(WithIn(c, a), resolver, reply);
      && ReadsRequest(d) && next == CONNECTION_REQ && d.stm.cr.value == CR.Run(c.stm.cr.value, a)
      && ConnReqRead(WithIn(c, a + b), resolver, reply) == ConnReqRead(WithIn(d, b), resolver, reply)
    decreases |a|
  {
    hide CR.Step;
    if a == [] {
      assert a + b == b && WithIn(c, []) == c;
    } else {
      RequestHead(c.stm.cr.value, a);
      var v := CR.Step(c.stm.cr.value, a[0]);
      var d := FedRequest(WithIn(c, a), v);
      assert (a + b)[1..] == a[1..] + b;
      assert WithIn(WithIn(d, []), a[1..]) == d;
      assert WithIn(WithIn(d, []), a[1..] + b) == FedRequest(WithIn(c, a + b), v);
      RequestReadSplit(WithIn(d, []), a[1..], b, resolver, reply);
    }
  }

  lemma {:induction false} RequestTwoChunks(c: Conn, a: seq<byte>, b: seq<byte>, r: Send, env: Env)
    requires ReadsRequest(c) && !CR.Stopped(CR.Run(c.stm.cr.value, a))
    ensures var d := ClientRead(c, Received(a), r, env);
      && ReadsRequest(d) && d.stm.cr.value == CR.Run(c.stm.cr.value, a)
      && ClientRead(c, Received(a + b), r, env) == ClientRead(d, Received(b), r, env)
  {
    RequestReadSplit(c, a, b, env.resolver, env.reply);
    RequestReadIs(c, a, r, env);
    RequestReadIs(c, a + b, r, env);
    RequestReadIs(ConnReqRead(WithIn(c, a), env.resolver, env.reply).0, b, r, env);
  }

  lemma {:induction false} RequestReadIs(c: Conn, a: seq<byte>, r: Send, env: Env)
    requires ReadsRequest(c)
    ensures var (e, next) := ConnReqRead(WithIn(c, a), env.resolver, env.reply);
      ClientRead(c, Received(a), r, env) == Jump(e, next)
  {
    hide AuthRead, HandshakeRead, ConnReqRead, Jump;
    assert [] + a == a && Gained(c, a) == WithIn(c, a);
  }

  /** A request in any chunks, of which only the last may complete it, comes to the same as in one. */
  lemma {:induction false} RequestInAnyChunks(c: Conn, chunks: seq<seq<byte>>, r: Send, env: Env)
    requires ReadsRequest(c) && chunks != []
    requires !CR.Stopped(CR.Run(c.stm.cr.value, Concat(chunks[..|chunks| - 1])))
    ensures ReadAll(c, chunks, r, env) == ClientRead(c, Received(Concat(chunks)), r, env)
    decreases |chunks|
  {
    hide ClientRead;
    var first, rest := chunks[0], chunks[1..];
    if rest == [] {
      assert Concat(chunks) == first + [] == first;
    } else {
      var tail := rest[..|rest| - 1];
      assert chunks[..|chunks| - 1][1..] == tail;
      A.RunAppend(CR.Step, c.stm.cr.value, first, Concat(tail));
      if CR.Stopped(CR.Run(c.stm.cr.value, first)) {
        CR.Absorbing(CR.Run(c.stm.cr.value, first), Concat(tail));
      }
      RequestTwoChunks(c, first, Concat(rest), r, env);
      RequestInAnyChunks(ClientRead(c, Received(first), r, env), rest, r, env);
    }
  }
}
