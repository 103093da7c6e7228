// src/server/socks5/parsers/conn_req_parser.c: the CONNECT/BIND/UDP ASSOCIATE request
// (sections 4 and 5 of RFC 1928).
module ConnReqParser {
  import opened Bytes
  import opened ParserEngine
  import A = Automaton

  datatype State = VERSION | CMD | RSV | ATYP | DOM_LEN | DST_ADDR | DST_PORT_BYTE1 | DST_PORT_BYTE2 | DONE | ERROR

  const SOCKS5_VERSION: byte := 5
  const CONNECT: byte := 1
  const BIND: byte := 2
  const UDP_ASSOCIATE: byte := 3
  const ATYP_IPV4: byte := 1
  const ATYP_DOMAIN_NAME: byte := 3
  const ATYP_IPV6: byte := 4

  function Row(s: State): seq<Transition<State>> {
    match s
    case VERSION => [On(SOCKS5_VERSION, CMD, VERSION), Otherwise(ERROR, ERROR)]
    case CMD => [On(CONNECT, RSV, CMD), On(BIND, RSV, CMD), On(UDP_ASSOCIATE, RSV, CMD), Otherwise(ERROR, ERROR)]
    case RSV => [On(0, ATYP, RSV), Otherwise(ERROR, ERROR)]
    case ATYP => [On(ATYP_IPV4, DST_ADDR, ATYP), On(ATYP_DOMAIN_NAME, DOM_LEN, ATYP),
                  On(ATYP_IPV6, DST_ADDR, ATYP), Otherwise(ERROR, ERROR)]
    case DOM_LEN => [Otherwise(DST_ADDR, DOM_LEN)]
    case DST_ADDR => [Otherwise(DST_ADDR, DST_ADDR)]
    case DST_PORT_BYTE1 => [Otherwise(DST_PORT_BYTE2, DST_PORT_BYTE1)]
    case DST_PORT_BYTE2 => [Otherwise(DONE, DST_PORT_BYTE2)]
    case DONE => [Otherwise(DONE, DONE)]
    case ERROR => [Otherwise(ERROR, ERROR)]
  }

  function On(b: byte, dest: State, kind: State): Transition<State> { Transition(Octet(b), dest, kind, None) }

  function Otherwise(dest: State, kind: State): Transition<State> { Transition(Any, dest, kind, None) }

  const DEFINITION: Definition<State> := Definition(Row, VERSION)

  /** The parser's value. `addr` is what has been stored of `dst_addr`, so its length is
      `dst_addr_count`. */
  datatype Value = Value(state: State, cmd: byte, atyp: byte, len: byte, addr: seq<byte>, port: uint16)

  const INIT := Value(VERSION, 0, 0, 0, [], 0)

  /** How many address bytes are consumed: a domain length of zero still takes one. */
  function AddrBytes(len: byte): byte { if len == 0 then 1 else len }

  /** One byte, in the automaton's own terms. */
  function Step(v: Value, b: byte): Value {
    match v.state
    case VERSION => v.(state := if b == SOCKS5_VERSION then CMD else ERROR)
    case CMD => if b in {CONNECT, BIND, UDP_ASSOCIATE} then v.(state := RSV, cmd := b) else v.(state := ERROR)
    case RSV => v.(state := if b == 0 then ATYP else ERROR)
    case ATYP =>
      if b == ATYP_IPV4 then v.(state := DST_ADDR, atyp := b, len := 4)
      else if b == ATYP_DOMAIN_NAME then v.(state := DOM_LEN, atyp := b)
      else if b == ATYP_IPV6 then v.(state := DST_ADDR, atyp := b, len := 16)
      else v.(state := ERROR)
    case DOM_LEN => v.(state := DST_ADDR, len := b)
    case DST_ADDR => v.(state := if |v.addr| + 1 >= v.len then DST_PORT_BYTE1 else DST_ADDR, addr := v.addr + [b])
    case DST_PORT_BYTE1 => v.(state := DST_PORT_BYTE2, port := b)
    case DST_PORT_BYTE2 => v.(state := DONE, port := (v.port * 0x100) % 0x1_0000 + b)
    case DONE => v
    case ERROR => v
  }

  /** What every reachable value satisfies; in particular the address never outgrows its length. */
  predicate Sound(v: Value) {
    && (v.state in {VERSION, CMD, RSV, ATYP, DOM_LEN, ERROR} ==> v.addr == [])
    && (v.state in {RSV, ATYP, DOM_LEN, DST_ADDR, DST_PORT_BYTE1, DST_PORT_BYTE2, DONE} ==>
      v.cmd in {CONNECT, BIND, UDP_ASSOCIATE})
    && (v.state == DOM_LEN ==> v.atyp == ATYP_DOMAIN_NAME)
    && (v.state in {DST_ADDR, DST_PORT_BYTE1, DST_PORT_BYTE2, DONE} ==>
      && v.atyp in {ATYP_IPV4, ATYP_DOMAIN_NAME, ATYP_IPV6}
      && (v.atyp == ATYP_IPV4 ==> v.len == 4) && (v.atyp == ATYP_IPV6 ==> v.len == 16))
    && (v.state == DST_ADDR ==> |v.addr| < AddrBytes(v.len))
    && (v.state in {DST_PORT_BYTE1, DST_PORT_BYTE2, DONE} ==> |v.addr| == AddrBytes(v.len))
    && (v.state == DST_PORT_BYTE2 ==> v.port < 0x100)
  }

  function Run(v: Value, bs: seq<byte>): Value { A.Run(Step, v, bs) }

  // ---- The parser object ----

  class ConnReqParser {
    const parser: Parser<State>
    var cmd: byte
    var atyp: byte
    var dstAddrLen: byte
    const dstAddr: array<byte>
    var dstAddrCount: byte
    var dstPort: uint16

    ghost function AsValue(): Value
      reads this, parser, dstAddr
      requires dstAddr.Length == 256
    {
      Value(parser.state, cmd, atyp, dstAddrLen, dstAddr[..dstAddrCount], dstPort)
    }

    /** A complete address is NUL-terminated inside its 256 bytes. */
    ghost predicate Valid()
      reads this, parser, dstAddr
    {
      && parser.def == DEFINITION && dstAddr.Length == 256
      && Sound(AsValue())
      && (parser.state in {DST_PORT_BYTE1, DST_PORT_BYTE2, DONE} ==> dstAddr[dstAddrCount] == 0)
    }

    constructor ()
      ensures Valid() && AsValue() == INIT
      ensures fresh(parser) && fresh(dstAddr)
    {
      parser := new Parser(NO_CLASSES, DEFINITION);
      cmd, atyp, dstAddrLen, dstAddrCount, dstPort := 0, 0, 0, 0, 0;
      dstAddr := new byte[256];
    }

    method FeedTable(b: byte) returns (e: Event<State>)
      requires parser.def == DEFINITION
      modifies parser
      ensures parser.state == NextState(old(parser.state), b)
      ensures e == Event(if parser.state == ERROR then ERROR else old(parser.state), b, None)
    {
      TableMeansStep(parser.classes, parser.AsCursor(), b);
      e := parser.Feed(b);
    }

    /** One more byte of `dst_addr`, terminated if it completes the address. */
    method StoreAddrByte(b: byte)
      requires dstAddr.Length == 256 && dstAddrCount < 255
      modifies this`dstAddrCount, dstAddr
      ensures dstAddrCount == old(dstAddrCount) + 1
      ensures dstAddr[..dstAddrCount] == old(dstAddr[..dstAddrCount]) + [b]
      ensures dstAddrCount >= dstAddrLen ==> dstAddr[dstAddrCount] == 0
    {
      dstAddr[dstAddrCount] := b;
      dstAddrCount := Inc8(dstAddrCount);
      if dstAddrCount >= dstAddrLen {
        dstAddr[dstAddrCount] := 0;
      }
    }

    /** `conn_req_parser_feed`: the state is reported back, so DONE and ERROR are told apart from
        progress; every store stays inside `dst_addr` and the uint8 counter never wraps, whatever
        the bytes. */
    method Feed(b: byte) returns (r: State)
      requires Valid()
      modifies this, parser, dstAddr
      ensures Valid() && AsValue() == Step(old(AsValue()), b)
      ensures r == DONE <==> AsValue().state == DONE
      ensures r == ERROR <==> AsValue().state == ERROR
    {
      StepSound(AsValue(), b);
      assert parser.state == DST_ADDR ==> dstAddrCount < 255;
      hide Sound;
      var e := FeedTable(b);
      match e.kind {
      case CMD =>
        cmd := e.data;
      case ATYP =>
        atyp := e.data;
        if atyp == ATYP_IPV4 {
          dstAddrLen := 4;
        } else if atyp == ATYP_DOMAIN_NAME {
        } else if atyp == ATYP_IPV6 {
          dstAddrLen := 16;
        } else {
          return ERROR;
        }
      case DOM_LEN =>
        dstAddrLen := e.data;
      case DST_ADDR =>
        StoreAddrByte(e.data);
        if dstAddrCount >= dstAddrLen {
          parser.Set(DST_PORT_BYTE1);
          return DST_PORT_BYTE1;
        }
      case DST_PORT_BYTE1 =>
        dstPort := e.data;
      case DST_PORT_BYTE2 =>
        dstPort := (dstPort * 0x100) % 0x1_0000 + e.data;
        return DONE;
      case _ =>
      }
      return e.kind;
    }
  }

  /** Where the table sends a byte. */
  function NextState(s: State, b: byte): State {
    match s
    case VERSION => if b == SOCKS5_VERSION then CMD else ERROR
    case CMD => if b in {CONNECT, BIND, UDP_ASSOCIATE} then RSV else ERROR
    case RSV => if b == 0 then ATYP else ERROR
    case ATYP =>
      if b in {ATYP_IPV4, ATYP_IPV6} then DST_ADDR else if b == ATYP_DOMAIN_NAME then DOM_LEN else ERROR
    case DOM_LEN => DST_ADDR
    case DST_ADDR => DST_ADDR
    case DST_PORT_BYTE1 => DST_PORT_BYTE2
    case DST_PORT_BYTE2 => DONE
    case DONE => DONE
    case ERROR => ERROR
  }

  lemma {:induction false} TableMeansStep(classes: Classes, cur: Cursor<State>, b: byte)
    ensures Fed(DEFINITION, classes, cur, b)
         == Cursor(NextState(cur.state, b),
                   Event(if NextState(cur.state, b) == ERROR then ERROR else cur.state, b, None))
  {
    var ts := Row(cur.state);
    var k := match cur.state
      case VERSION => if b == 5 then 0 else 1
      case CMD => if 1 <= b <= 3 then b - 1 else 3
      case RSV => if b == 0 then 0 else 1
      case ATYP => if b == 1 then 0 else if b == 3 then 1 else if b == 4 then 2 else 3
      case _ => 0;
    FirstMatchIs(ts, classes[b], b, k);
  }

  // ---- What the bytes fed so far were ----

  /** The bytes that lead to `v`. */
  function Consumed(v: Value): seq<byte> {
    var header := [SOCKS5_VERSION, v.cmd, 0, v.atyp];
    match v.state
    case VERSION => []
    case CMD => header[..1]
    case RSV => header[..2]
    case ATYP => header[..3]
    case DOM_LEN => header
    case DST_ADDR => UpToAddress(v)
    case DST_PORT_BYTE1 => UpToAddress(v)
    case DST_PORT_BYTE2 => UpToAddress(v) + [v.port % 0x100]
    case DONE => UpToAddress(v) + [v.port / 0x100, v.port % 0x100]
    case ERROR => []
  }

  function UpToAddress(v: Value): seq<byte> { [SOCKS5_VERSION, v.cmd, 0, v.atyp] + LengthByte(v) + v.addr }

  function LengthByte(v: Value): seq<byte> { if v.atyp == ATYP_DOMAIN_NAME then [v.len] else [] }

  lemma {:induction false} StepSound(v: Value, b: byte)
    requires Sound(v)
    ensures Sound(Step(v, b))
  {
  }

  lemma {:induction false} StepConsumes(v: Value, b: byte)
    requires Sound(v) && v.state != DONE && Step(v, b).state != ERROR
    ensures Consumed(Step(v, b)) == Consumed(v) + [b]
  {
    assert SoundFacts(v);
    hide Sound;
    if v.state in {DST_ADDR, DST_PORT_BYTE1, DST_PORT_BYTE2} {
      TailConsumes(v, b);
    }
  }

  lemma {:induction false} TailConsumes(v: Value, b: byte)
    requires SoundFacts(v) && v.state in {DST_ADDR, DST_PORT_BYTE1, DST_PORT_BYTE2}
    ensures Consumed(Step(v, b)) == Consumed(v) + [b]
  {
    var w := Step(v, b);
    if v.state == DST_ADDR {
      assert UpToAddress(w) == UpToAddress(v) + [b];
    } else {
      assert UpToAddress(w) == UpToAddress(v);
      PortBytes(v.port, b);
      hide UpToAddress;
    }
  }

  lemma {:induction false} PortBytes(port: uint16, lo: byte)
    ensures port < 0x100 ==>
      var both := (port * 0x100) % 0x1_0000 + lo; port % 0x100 == port && both / 0x100 == port && both % 0x100 == lo
  {
  }

  predicate SoundFacts(v: Value) {
    && (v.state in {VERSION, CMD, RSV, ATYP, DOM_LEN} ==> v.addr == [])
    && (v.state == DOM_LEN ==> v.atyp == ATYP_DOMAIN_NAME) && (v.state == DST_PORT_BYTE2 ==> v.port < 0x100)
  }

  predicate IsDone(v: Value) { v.state == DONE }

  /** `bs` has not been answered with DONE before its last byte. */
  predicate NotDoneEarly(bs: seq<byte>) { A.NotYet(Step, INIT, IsDone, bs) }

  predicate IsError(v: Value) { v.state == ERROR }

  predicate Stopped(v: Value) { v.state == DONE || v.state == ERROR }

  const MACHINE := A.Machine(INIT, Step, IsDone, IsError, Sound, Consumed)

  lemma {:induction false} MachineRemembers()
    ensures A.Remembers(MACHINE)
  {
    forall v, b: byte | Sound(v)
      ensures Sound(Step(v, b))
      ensures v.state != DONE && Step(v, b).state != ERROR ==> Consumed(Step(v, b)) == Consumed(v) + [b]
    {
      StepSound(v, b);
      if v.state != DONE && Step(v, b).state != ERROR {
        StepConsumes(v, b);
      }
    }
  }

  /** Over every byte sequence the value stays sound; until DONE or ERROR it determines the bytes. */
  lemma {:induction false} RunConsumes(bs: seq<byte>)
    ensures Sound(Run(INIT, bs))
    ensures NotDoneEarly(bs) && Run(INIT, bs).state != ERROR ==> Consumed(Run(INIT, bs)) == bs
  {
    MachineRemembers();
    A.RunConsumes(MACHINE, bs);
  }

  /** DONE and ERROR are absorbing: no later byte changes anything. */
  lemma {:induction false} Absorbing(v: Value, bs: seq<byte>)
    requires Stopped(v)
    ensures Run(v, bs) == v
  {
    A.Absorbing(Step, v, bs);
  }

  // ---- Requests and their encoding ----

  datatype Address = IPv4(octets: seq<byte>) | DomainName(name: seq<byte>) | IPv6(octets: seq<byte>)

  datatype Request = Request(cmd: byte, dst: Address, port: uint16)

  predicate WellFormed(m: Request) {
    && m.cmd in {1, 2, 3}
    && match m.dst
       case IPv4(a) => |a| == 4
       case DomainName(n) => 1 <= |n| <= 255
       case IPv6(a) => |a| == 16
  }

  function Payload(a: Address): seq<byte> {
    match a case IPv4(o) => o case DomainName(n) => n case IPv6(o) => o
  }

  function Type(a: Address): byte {
    match a case IPv4(_) => 1 case DomainName(_) => 3 case IPv6(_) => 4
  }

  function Header(m: Request): seq<byte>
    requires WellFormed(m)
  {
    [5, m.cmd, 0, Type(m.dst)] + (if m.dst.DomainName? then [|m.dst.name|] else [])
  }

  /** The wire form. */
  function Encode(m: Request): seq<byte>
    requires WellFormed(m)
  {
    Header(m) + Payload(m.dst) + [m.port / 0x100, m.port % 0x100]
  }

  /** The request held by the fields of a parser that is done. */
  function Fields(v: Value): Request {
    Request(v.cmd,
            if v.atyp == ATYP_IPV4 then IPv4(v.addr)
            else if v.atyp == ATYP_IPV6 then IPv6(v.addr)
            else DomainName(v.addr),
            v.port)
  }

  /** `bs` is answered with DONE at its last byte and not before. */
  predicate FirstDoneAtEnd(bs: seq<byte>) {
    Run(INIT, bs).state == DONE && NotDoneEarly(bs)
  }

  lemma {:induction false} AddressRun(v: Value, a: seq<byte>)
    requires v.state == DST_ADDR && v.addr == [] && |a| <= AddrBytes(v.len)
    ensures Run(v, a) == v.(addr := a, state := if |a| == AddrBytes(v.len) then DST_PORT_BYTE1 else DST_ADDR)
  {
    if a != [] {
      var p := a[..|a| - 1];
      AddressRun(v, p);
      assert p + [a[|a| - 1]] == a;
    }
  }

  lemma {:induction false} HeaderRun(cmd: byte, atyp: byte)
    requires cmd in {CONNECT, BIND, UDP_ASSOCIATE}
    ensures Run(INIT, [SOCKS5_VERSION, cmd, 0, atyp]) == Step(INIT.(state := ATYP, cmd := cmd), atyp)
  {
    var h := [SOCKS5_VERSION, cmd, 0, atyp];
    assert h[..1][..0] == [] && h[..2][..1] == h[..1] && h[..3][..2] == h[..2] && Run(INIT, []) == INIT;
    assert Run(INIT, h[..1]) == INIT.(state := CMD);
    assert Run(INIT, h[..2]) == INIT.(state := RSV, cmd := cmd);
    assert Run(INIT, h[..3]) == INIT.(state := ATYP, cmd := cmd);
  }

  lemma {:induction false} PortRun(bs: seq<byte>, v: Value, hi: byte, lo: byte)
    requires v == Run(INIT, bs) && v.state == DST_PORT_BYTE1
    ensures Run(INIT, bs + [hi]) == v.(state := DST_PORT_BYTE2, port := hi)
    ensures Run(INIT, bs + [hi] + [lo]) == v.(state := DONE, port := hi * 0x100 + lo)
  {
  }

  /** From the state that the header leaves: the address, then the port. */
  lemma {:induction false} BodyRun(head: seq<byte>, v: Value, a: seq<byte>, port: uint16)
    requires v == Run(INIT, head) && v.state == DST_ADDR && v.addr == [] && |a| == AddrBytes(v.len)
    ensures var bs := head + a + [port / 0x100, port % 0x100];
      Run(INIT, bs) == v.(state := DONE, addr := a, port := port) && FirstDoneAtEnd(bs)
  {
    AddressRun(v, a);
    A.RunAppend(Step, INIT, head, a);
    var hi, lo := port / 0x100, port % 0x100;
    PortRun(head + a, Run(v, a), hi, lo);
    A.NotYetSnoc(Step, INIT, IsDone, head + a + [hi], lo);
    assert head + a + [hi] + [lo] == head + a + [hi, lo];
  }

  lemma {:induction false} HeaderOf(m: Request)
    requires WellFormed(m)
    ensures Run(INIT, Header(m)) == Value(DST_ADDR, m.cmd, Type(m.dst), |Payload(m.dst)|, [], 0)
  {
    var header := [SOCKS5_VERSION, m.cmd, 0, Type(m.dst)];
    HeaderRun(m.cmd, Type(m.dst));
    if m.dst.DomainName? {
      A.RunSnoc(Step, INIT, header, |m.dst.name|);
    } else {
      assert Header(m) == header;
    }
  }

  /** Parsing inverts printing: feeding the encoding of any request reports DONE exactly at the last
      byte, with that request in the fields. */
  lemma {:induction false} EncodingParses(m: Request)
    requires WellFormed(m)
    ensures FirstDoneAtEnd(Encode(m))
    ensures Fields(Run(INIT, Encode(m))) == m
  {
    HeaderOf(m);
    BodyRun(Header(m), Run(INIT, Header(m)), Payload(m.dst), m.port);
  }

  /** Printing inverts parsing, except for the domain of declared length zero: a sequence whose first
      DONE is at its end is the encoding of the parsed fields if and only if it is not that case. In
      that case the parser has taken one address byte that was never announced. */
  lemma {:induction false} ParsedIsEncoding(bs: seq<byte>)
    requires FirstDoneAtEnd(bs)
    ensures var v := Run(INIT, bs);
      && WellFormed(Fields(v))
      && (bs == Encode(Fields(v)) <==> !(v.atyp == ATYP_DOMAIN_NAME && v.len == 0))
      && (v.atyp == ATYP_DOMAIN_NAME && v.len == 0 ==> |v.addr| == 1 && bs == Unannounced(v.cmd, v.addr[0], v.port))
  {
    RunConsumes(bs);
    var v := Run(INIT, bs);
    if v.atyp == ATYP_DOMAIN_NAME && v.len == 0 {
      assert bs[4] == 0 && Encode(Fields(v))[4] == 1;
    }
  }

  /** The request with a zero-length domain name and the byte taken in its place. */
  function Unannounced(cmd: byte, x: byte, port: uint16): seq<byte> {
    [5, cmd, 0, 3, 0] + [x] + [port / 0x100, port % 0x100]
  }

  lemma {:induction false} UnannouncedIsAccepted(cmd: byte, x: byte, port: uint16)
    requires cmd in {1, 2, 3}
    ensures FirstDoneAtEnd(Unannounced(cmd, x, port))
    ensures Fields(Run(INIT, Unannounced(cmd, x, port))) == Request(cmd, DomainName([x]), port)
  {
    var head := [SOCKS5_VERSION, cmd, 0, ATYP_DOMAIN_NAME];
    HeaderRun(cmd, ATYP_DOMAIN_NAME);
    A.RunSnoc(Step, INIT, head, 0);
    assert head + [0] == [SOCKS5_VERSION, cmd, 0, ATYP_DOMAIN_NAME, 0];
    BodyRun(head + [0], Run(INIT, head + [0]), [x], port);
  }

  /** The language accepted is exactly the encodings of requests, and the sequences with a
      zero-length domain name. */
  lemma {:induction false} AcceptedLanguage(bs: seq<byte>)
    ensures FirstDoneAtEnd(bs) <==>
      || (exists m :: WellFormed(m) && bs == Encode(m))
      || (exists cmd: byte, x: byte, port: uint16 :: cmd in {CONNECT, BIND, UDP_ASSOCIATE} && bs == Unannounced(cmd, x, port))
  {
    if FirstDoneAtEnd(bs) {
      ParsedIsEncoding(bs);
      var v := Run(INIT, bs);
      if v.atyp == ATYP_DOMAIN_NAME && v.len == 0 {
        RunConsumes(bs);
        assert bs == Unannounced(v.cmd, v.addr[0], v.port);
      }
    }
    forall m | WellFormed(m) && bs == Encode(m)
      ensures FirstDoneAtEnd(bs)
    {
      EncodingParses(m);
    }
    forall cmd: byte, x: byte, port: uint16 | cmd in {CONNECT, BIND, UDP_ASSOCIATE} && bs == Unannounced(cmd, x, port)
      ensures FirstDoneAtEnd(bs)
    {
      UnannouncedIsAccepted(cmd, x, port);
    }
  }

  /** Any 262 bytes contain the end of the request or an error. */
  lemma {:induction false} RequestIsBounded(bs: seq<byte>)
    requires |bs| >= 262
    ensures exists k :: 0 <= k <= |bs| && Run(INIT, bs[..k]).state in {DONE, ERROR}
  {
    MachineRemembers();
    A.AnswerIsBounded(MACHINE, 262, bs);
  }

  /** A parser that is not done has not been. */
  lemma {:induction false} NeverDone(bs: seq<byte>)
    requires Run(INIT, bs).state != DONE
    ensures NotDoneEarly(bs)
  {
    A.NotYetSnoc(Step, INIT, IsDone, bs, 0);
    A.NotYetPrefix(Step, INIT, IsDone, bs + [0]);
    assert (bs + [0])[..|bs|] == bs;
  }

  /** Feeding one more byte to a parser that has not answered. */
  lemma {:induction false} FeedOne(bs: seq<byte>, b: byte)
    requires Run(INIT, bs).state != DONE
    ensures Run(INIT, bs + [b]) == Step(Run(INIT, bs), b)
    ensures NotDoneEarly(bs + [b])
    ensures Step(Run(INIT, bs), b).state == DONE ==> FirstDoneAtEnd(bs + [b])
  {
    A.RunSnoc(Step, INIT, bs, b);
    A.NotYetSnoc(Step, INIT, IsDone, bs, b);
  }
}
