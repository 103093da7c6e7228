// src/server/socks5/parsers/auth_parser.c: the username/password request (section 2 of RFC 1929).
module AuthParser {
  import opened Bytes
  import opened ParserEngine
  import A = Automaton

  datatype State = VERSION | USERNAME_LEN | USERNAME | PASSWORD_LEN | PASSWORD | DONE | ERROR

  const SUBNEGOTIATION_VERSION: byte := 1

  function Row(s: State): seq<Transition<State>> {
    match s
    case VERSION => [On(SUBNEGOTIATION_VERSION, USERNAME_LEN, VERSION), Otherwise(ERROR, ERROR)]
    case USERNAME_LEN => [On(0, ERROR, ERROR), Otherwise(USERNAME, USERNAME_LEN)]
    case USERNAME => [Otherwise(USERNAME, USERNAME)]
    case PASSWORD_LEN => [On(0, ERROR, ERROR), Otherwise(PASSWORD, PASSWORD_LEN)]
    case PASSWORD => [Otherwise(PASSWORD, PASSWORD)]
    case DONE => [Otherwise(DONE, DONE)]
    case ERROR => [Otherwise(ERROR, ERROR)]
  }

  function On(b: byte, dest: State, kind: State): Transition<State> { Transition(Octet(b), dest, kind, None) }

  function Otherwise(dest: State, kind: State): Transition<State> { Transition(Any, dest, kind, None) }

  const DEFINITION: Definition<State> := Definition(Row, VERSION)

  /** Where the table sends a byte. */
  function NextState(s: State, b: byte): State {
    match s
    case VERSION => if b == SUBNEGOTIATION_VERSION then USERNAME_LEN else ERROR
    case USERNAME_LEN => if b == 0 then ERROR else USERNAME
    case USERNAME => USERNAME
    case PASSWORD_LEN => if b == 0 then ERROR else PASSWORD
    case PASSWORD => PASSWORD
    case DONE => DONE
    case ERROR => ERROR
  }

  lemma {:induction false} TableMeansStep(classes: Classes, cur: Cursor<State>, b: byte)
    ensures Fed(DEFINITION, classes, cur, b)
         == Cursor(NextState(cur.state, b),
                   Event(if NextState(cur.state, b) == ERROR then ERROR else cur.state, b, None))
  {
    var k := match cur.state
      case VERSION => if b == 1 then 0 else 1
      case USERNAME_LEN => if b == 0 then 0 else 1
      case PASSWORD_LEN => if b == 0 then 0 else 1
      case _ => 0;
    FirstMatchIs(Row(cur.state), classes[b], b, k);
  }

  /** The parser's value. `uname` and `passwd` are what has been stored, so their lengths are
      `username_count` and `password_count`. */
  datatype Value = Value(state: State, ulen: byte, uname: seq<byte>, plen: byte, passwd: seq<byte>)

  const INIT := Value(VERSION, 0, [], 0, [])

  function Step(v: Value, b: byte): Value {
    match v.state
    case VERSION => v.(state := if b == SUBNEGOTIATION_VERSION then USERNAME_LEN else ERROR)
    case USERNAME_LEN => if b == 0 then v.(state := ERROR) else v.(state := USERNAME, ulen := b)
    case USERNAME => v.(state := if |v.uname| + 1 >= v.ulen then PASSWORD_LEN else USERNAME, uname := v.uname + [b])
    case PASSWORD_LEN => if b == 0 then v.(state := ERROR) else v.(state := PASSWORD, plen := b)
    case PASSWORD => v.(state := if |v.passwd| + 1 >= v.plen then DONE else PASSWORD, passwd := v.passwd + [b])
    case DONE => v
    case ERROR => v
  }

  /** What every reachable value satisfies: no field outgrows its announced length. */
  predicate Sound(v: Value) {
    && |v.uname| <= v.ulen && |v.passwd| <= v.plen
    && (v.state in {VERSION, USERNAME_LEN} ==> v.uname == [] && v.passwd == [])
    && (v.state == USERNAME ==> |v.uname| < v.ulen && v.passwd == [])
    && (v.state == PASSWORD_LEN ==> 1 <= |v.uname| == v.ulen && v.passwd == [])
    && (v.state == PASSWORD ==> 1 <= |v.uname| == v.ulen && |v.passwd| < v.plen)
    && (v.state == DONE ==> 1 <= |v.uname| == v.ulen && 1 <= |v.passwd| == v.plen)
  }

  function Run(v: Value, bs: seq<byte>): Value { A.Run(Step, v, bs) }

  // ---- The parser object ----

  class AuthParser {
    const parser: Parser<State>
    var usernameLen: byte
    var usernameCount: byte
    const username: array<byte>
    var passwordLen: byte
    var passwordCount: byte
    const password: array<byte>

    ghost function AsValue(): Value
      reads this, parser, username, password
      requires username.Length == 256 && password.Length == 256
    {
      Value(parser.state, usernameLen, username[..usernameCount], passwordLen, password[..passwordCount])
    }

    /** Complete fields are NUL-terminated inside their 256 bytes. */
    ghost predicate Valid()
      reads this, parser, username, password
    {
      && parser.def == DEFINITION && username.Length == 256 && password.Length == 256 && username != password
      && Sound(AsValue())
      && (parser.state in {PASSWORD_LEN, PASSWORD, DONE} ==> username[usernameCount] == 0)
      && (parser.state == DONE ==> password[passwordCount] == 0)
    }

    constructor ()
      ensures Valid() && AsValue() == INIT
      ensures fresh(parser) && fresh(username) && fresh(password)
    {
      parser := new Parser(NO_CLASSES, DEFINITION);
      usernameLen, usernameCount, passwordLen, passwordCount := 0, 0, 0, 0;
      username := new byte[256];
      password := new byte[256];
    }

    method FeedTable(b: byte) returns (e: Event<State>)
      requires parser.def == DEFINITION
      modifies parser
      ensures parser.state == NextState(old(parser.state), b)
      ensures e == Event(if parser.state == ERROR then ERROR else old(parser.state), b, None)
    {
      TableMeansStep(parser.classes, parser.AsCursor(), b);
      e := parser.Feed(b);
    }

    /** One more byte of `username`, terminated if it completes the field. */
    method StoreUsernameByte(b: byte)
      requires username.Length == 256 && usernameCount < 255
      modifies this`usernameCount, username
      ensures usernameCount == old(usernameCount) + 1
      ensures username[..usernameCount] == old(username[..usernameCount]) + [b]
      ensures usernameCount >= usernameLen ==> username[usernameCount] == 0
    {
      username[usernameCount] := b;
      usernameCount := Inc8(usernameCount);
      if usernameCount >= usernameLen {
        username[usernameCount] := 0;
      }
    }

    /** One more byte of `password`, terminated if it completes the field. */
    method StorePasswordByte(b: byte)
      requires password.Length == 256 && passwordCount < 255
      modifies this`passwordCount, password
      ensures passwordCount == old(passwordCount) + 1
      ensures password[..passwordCount] == old(password[..passwordCount]) + [b]
      ensures passwordCount >= passwordLen ==> password[passwordCount] == 0
    {
      password[passwordCount] := b;
      passwordCount := Inc8(passwordCount);
      if passwordCount >= passwordLen {
        password[passwordCount] := 0;
      }
    }

    /** `auth_parser_feed`: over any bytes, also past DONE, the uint8 counters never wrap and every
        store, the terminators included, stays within its array. */
    method Feed(b: byte) returns (r: State)
      requires Valid()
      modifies this, parser, username, password
      ensures Valid() && AsValue() == Step(old(AsValue()), b)
      ensures r == DONE <==> AsValue().state == DONE
      ensures r == ERROR <==> AsValue().state == ERROR
    {
      StepSound(AsValue(), b);
      var e := FeedTable(b);
      match e.kind {
      case USERNAME_LEN =>
        usernameLen := e.data;
      case USERNAME =>
        StoreUsernameByte(e.data);
        if usernameCount >= usernameLen {
          parser.Set(PASSWORD_LEN);
          return PASSWORD_LEN;
        }
      case PASSWORD_LEN =>
        passwordLen := e.data;
      case PASSWORD =>
        StorePasswordByte(e.data);
        if passwordCount >= passwordLen {
          parser.Set(DONE);
          return DONE;
        }
      case _ =>
      }
      return e.kind;
    }
  }

  // ---- What the bytes fed so far were ----

  /** The bytes that lead to `v`. */
  function Consumed(v: Value): seq<byte> {
    match v.state
    case VERSION => []
    case USERNAME_LEN => [SUBNEGOTIATION_VERSION]
    case USERNAME => [SUBNEGOTIATION_VERSION, v.ulen] + v.uname
    case PASSWORD_LEN => [SUBNEGOTIATION_VERSION, v.ulen] + v.uname
    case _ => [SUBNEGOTIATION_VERSION, v.ulen] + v.uname + [v.plen] + v.passwd
  }

  lemma {:induction false} StepSound(v: Value, b: byte)
    requires Sound(v)
    ensures Sound(Step(v, b))
  {
  }

  lemma {:induction false} StepConsumes(v: Value, b: byte)
    requires Sound(v) && v.state != DONE && Step(v, b).state != ERROR
    ensures Consumed(Step(v, b)) == Consumed(v) + [b]
  {
  }

  predicate IsDone(v: Value) { v.state == DONE }

  /** `bs` has not been answered with DONE before its last byte. */
  predicate NotDoneEarly(bs: seq<byte>) { A.NotYet(Step, INIT, IsDone, bs) }

  predicate IsError(v: Value) { v.state == ERROR }

  predicate Stopped(v: Value) { v.state == DONE || v.state == ERROR }

  const MACHINE := A.Machine(INIT, Step, IsDone, IsError, Sound, Consumed)

  lemma {:induction false} MachineRemembers()
    ensures A.Remembers(MACHINE)
  {
    forall v, b: byte | Sound(v)
      ensures Sound(Step(v, b))
      ensures v.state != DONE && Step(v, b).state != ERROR ==> Consumed(Step(v, b)) == Consumed(v) + [b]
    {
      StepSound(v, b);
      if v.state != DONE && Step(v, b).state != ERROR {
        StepConsumes(v, b);
      }
    }
  }

  /** Over every byte sequence the value stays sound; until DONE or ERROR it determines the bytes. */
  lemma {:induction false} RunConsumes(bs: seq<byte>)
    ensures Sound(Run(INIT, bs))
    ensures NotDoneEarly(bs) && Run(INIT, bs).state != ERROR ==> Consumed(Run(INIT, bs)) == bs
  {
    MachineRemembers();
    A.RunConsumes(MACHINE, bs);
  }

  /** DONE and ERROR are absorbing: no later byte changes anything. */
  lemma {:induction false} Absorbing(v: Value, bs: seq<byte>)
    requires Stopped(v)
    ensures Run(v, bs) == v
  {
    A.Absorbing(Step, v, bs);
  }

  // ---- Credentials and their encoding ----

  predicate WellFormed(u: seq<byte>, p: seq<byte>) { 1 <= |u| <= 255 && 1 <= |p| <= 255 }

  /** The wire form. */
  function Encode(u: seq<byte>, p: seq<byte>): seq<byte>
    requires WellFormed(u, p)
  {
    [1, |u|] + u + [|p|] + p
  }

  /** `bs` is answered with DONE at its last byte and not before. */
  predicate FirstDoneAtEnd(bs: seq<byte>) {
    Run(INIT, bs).state == DONE && NotDoneEarly(bs)
  }

  lemma {:induction false} UsernameRun(v: Value, u: seq<byte>)
    requires v.state == USERNAME && v.uname == [] && 1 <= v.ulen && |u| <= v.ulen
    ensures Run(v, u) == v.(uname := u, state := if |u| == v.ulen then PASSWORD_LEN else USERNAME)
  {
    if u != [] {
      UsernameRun(v, u[..|u| - 1]);
      assert u[..|u| - 1] + [u[|u| - 1]] == u;
    }
  }

  lemma {:induction false} PasswordRun(v: Value, p: seq<byte>)
    requires v.state == PASSWORD && v.passwd == [] && 1 <= v.plen && |p| <= v.plen
    ensures Run(v, p) == v.(passwd := p, state := if |p| == v.plen then DONE else PASSWORD)
  {
    if p != [] {
      PasswordRun(v, p[..|p| - 1]);
      assert p[..|p| - 1] + [p[|p| - 1]] == p;
    }
  }

  lemma {:induction false} HeadRun(u: seq<byte>, plen: byte)
    requires 1 <= |u| <= 255 && plen != 0
    ensures Run(INIT, [SUBNEGOTIATION_VERSION, |u|] + u + [plen]) == Value(PASSWORD, |u|, u, plen, [])
  {
    var h := [SUBNEGOTIATION_VERSION, |u|];
    assert h[..1][..0] == [] && Run(INIT, []) == INIT;
    assert Run(INIT, h[..1]) == INIT.(state := USERNAME_LEN);
    A.RunAppend(Step, INIT, h, u);
    UsernameRun(Run(INIT, h), u);
    A.RunSnoc(Step, INIT, h + u, plen);
  }

  /** Parsing inverts printing: the encoding of any credentials of 1 to 255 bytes each is answered
      with DONE exactly at its last byte, with those credentials in the fields. */
  lemma {:induction false} EncodingParses(u: seq<byte>, p: seq<byte>)
    requires WellFormed(u, p)
    ensures FirstDoneAtEnd(Encode(u, p))
    ensures Run(INIT, Encode(u, p)) == Value(DONE, |u|, u, |p|, p)
  {
    var head := [SUBNEGOTIATION_VERSION, |u|] + u + [|p|];
    var q, b := p[..|p| - 1], p[|p| - 1];
    HeadRun(u, |p|);
    var v := Run(INIT, head);
    A.RunAppend(Step, INIT, head, p);
    PasswordRun(v, p);
    A.RunAppend(Step, INIT, head, q);
    PasswordRun(v, q);
    A.NotYetSnoc(Step, INIT, IsDone, head + q, b);
    assert Encode(u, p) == head + p && p == q + [b];
    assert head + q + [b] == head + p;
  }

  /** Printing inverts parsing, and the lengths accepted are exactly 1 to 255: a sequence has its
      first DONE at its end if and only if it encodes some credentials, and then those in the fields. */
  lemma {:induction false} AcceptedLanguage(bs: seq<byte>)
    ensures FirstDoneAtEnd(bs) <==> exists u, p :: WellFormed(u, p) && bs == Encode(u, p)
    ensures FirstDoneAtEnd(bs) ==>
      var v := Run(INIT, bs); WellFormed(v.uname, v.passwd) && bs == Encode(v.uname, v.passwd)
  {
    if FirstDoneAtEnd(bs) {
      RunConsumes(bs);
      var v := Run(INIT, bs);
      assert WellFormed(v.uname, v.passwd) && bs == Encode(v.uname, v.passwd);
    }
    forall u, p | WellFormed(u, p) && bs == Encode(u, p)
      ensures FirstDoneAtEnd(bs)
    {
      EncodingParses(u, p);
    }
  }

  /** Any 513 bytes contain the end of the credentials or an error. */
  lemma {:induction false} CredentialsAreBounded(bs: seq<byte>)
    requires |bs| >= 513
    ensures exists k :: 0 <= k <= |bs| && Run(INIT, bs[..k]).state in {DONE, ERROR}
  {
    MachineRemembers();
    A.AnswerIsBounded(MACHINE, 513, bs);
  }

  /** Feeding one more byte to a parser that has not answered. */
  lemma {:induction false} FeedOne(bs: seq<byte>, b: byte)
    requires NotDoneEarly(bs) && Run(INIT, bs).state != DONE
    ensures Run(INIT, bs + [b]) == Step(Run(INIT, bs), b)
    ensures NotDoneEarly(bs + [b])
    ensures Step(Run(INIT, bs), b).state == DONE ==> FirstDoneAtEnd(bs + [b])
  {
    A.RunSnoc(Step, INIT, bs, b);
    A.NotYetSnoc(Step, INIT, IsDone, bs, b);
  }
}
