// src/server/socks5/parsers/handshake_parser.c and the replies of socks5_responses.c: method
// selection (section 3 of RFC 1928).
module HandshakeParser {
  import opened Bytes
  import opened ParserEngine
  import A = Automaton

  datatype State = VERSION | NMETHODS | METHODS | DONE | ERROR

  const SOCKS5_VERSION: byte := 5
  const NO_AUTH: byte := 0
  const GSSAPI: byte := 1
  const USER_PASS: byte := 2
  const NO_ACCEPTABLE: byte := 0xFF

  function Row(s: State): seq<Transition<State>> {
    match s
    case VERSION => [On(SOCKS5_VERSION, NMETHODS, VERSION), Otherwise(ERROR, ERROR)]
    case NMETHODS => [Otherwise(METHODS, NMETHODS)]
    case METHODS => [Otherwise(METHODS, METHODS)]
    case DONE => [Otherwise(DONE, DONE)]
    case ERROR => [Otherwise(ERROR, ERROR)]
  }

  function On(b: byte, dest: State, kind: State): Transition<State> { Transition(Octet(b), dest, kind, None) }

  function Otherwise(dest: State, kind: State): Transition<State> { Transition(Any, dest, kind, None) }

  const DEFINITION: Definition<State> := Definition(Row, VERSION)

  function NextState(s: State, b: byte): State {
    match s
    case VERSION => if b == SOCKS5_VERSION then NMETHODS else ERROR
    case NMETHODS => METHODS
    case METHODS => METHODS
    case DONE => DONE
    case ERROR => ERROR
  }

  lemma {:induction false} TableMeansStep(classes: Classes, cur: Cursor<State>, b: byte)
    ensures Fed(DEFINITION, classes, cur, b)
         == Cursor(NextState(cur.state, b),
                   Event(if NextState(cur.state, b) == ERROR then ERROR else cur.state, b, None))
  {
    FirstMatchIs(Row(cur.state), classes[b], b, if cur.state == VERSION && b != 5 then 1 else 0);
  }

  predicate IsValidMethod(m: byte) { m in {NO_AUTH, GSSAPI, USER_PASS} }

  datatype Value = Value(state: State, nmethods: byte, count: byte, noAuth: bool, userPass: bool)

  const INIT := Value(VERSION, 0, 0, false, false)

  /** One byte: the new value and the state reported. The automaton itself stays in METHODS after
      DONE and after a bad method. */
  function Step(v: Value, b: byte): (Value, State) {
    match v.state
    case VERSION => if b == SOCKS5_VERSION then (v.(state := NMETHODS), VERSION) else (v.(state := ERROR), ERROR)
    case NMETHODS => (v.(state := METHODS, nmethods := b), NMETHODS)
    case METHODS =>
      var w := v.(count := Inc8(v.count));
      if !IsValidMethod(b) then (w, ERROR)
      else if w.nmethods < w.count then (w, DONE)
      else
        var x := w.(noAuth := w.noAuth || b == NO_AUTH, userPass := w.userPass || b == USER_PASS);
        (x, if x.nmethods == x.count then DONE else METHODS)
    case DONE => (v, DONE)
    case ERROR => (v, ERROR)
  }

  /** The value after a byte. */
  function Next(v: Value, b: byte): Value { Step(v, b).0 }

  function Run(v: Value, bs: seq<byte>): Value { A.Run(Next, v, bs) }

  /** What is reported for the last byte of `bs`. */
  function Report(bs: seq<byte>): State
    requires bs != []
  {
    Step(Run(INIT, bs[..|bs| - 1]), bs[|bs| - 1]).1
  }

  class HandshakeParser {
    const parser: Parser<State>
    var nmethods: byte
    var methodCount: byte
    var noAuth: bool
    var userPassAuth: bool

    ghost predicate Valid()
      reads this
    {
      parser.def == DEFINITION
    }

    ghost function AsValue(): Value
      reads this, parser
    {
      Value(parser.state, nmethods, methodCount, noAuth, userPassAuth)
    }

    constructor ()
      ensures Valid() && fresh(parser) && AsValue() == INIT
    {
      parser := new Parser(NO_CLASSES, DEFINITION);
      nmethods, methodCount, noAuth, userPassAuth := 0, 0, false, false;
    }

    method FeedTable(b: byte) returns (e: Event<State>)
      requires Valid()
      modifies parser
      ensures parser.state == NextState(old(parser.state), b)
      ensures e == Event(if parser.state == ERROR then ERROR else old(parser.state), b, None)
    {
      TableMeansStep(parser.classes, parser.AsCursor(), b);
      e := parser.Feed(b);
    }

    method Feed(b: byte) returns (r: State)
      requires Valid()
      modifies this, parser
      ensures Valid() && (AsValue(), r) == Step(old(AsValue()), b)
    {
      var e := FeedTable(b);
      match e.kind {
      case NMETHODS =>
        nmethods := e.data;
      case METHODS =>
        methodCount := Inc8(methodCount);
        if !IsValidMethod(e.data) {
          return ERROR;
        }
        if nmethods < methodCount {
          return DONE;
        }
        noAuth := noAuth || e.data == NO_AUTH;
        userPassAuth := userPassAuth || e.data == USER_PASS;
        if nmethods == methodCount {
          return DONE;
        }
      case _ =>
      }
      return e.kind;
    }
  }

  // ---- The greeting and its answer ----

  /** `create_handshake_response` */
  function Reply(noAuth: bool, userPass: bool): (r: seq<byte>)
    ensures |r| == 2
  {
    [SOCKS5_VERSION, if userPass then USER_PASS else if noAuth then NO_AUTH else NO_ACCEPTABLE]
  }

  /** The greeting that offers `methods`. */
  function Greeting(methods: seq<byte>): seq<byte>
    requires |methods| <= 255
  {
    [5, |methods|] + methods
  }

  /** The method this server should select: 0x02 if offered, else 0x00 if offered, else 0xFF. */
  function Selected(methods: seq<byte>): byte {
    if 2 in methods then 2 else if 0 in methods then 0 else 0xFF
  }

  /** Only 0x00, 0x01 and 0x02. */
  predicate AllValid(methods: seq<byte>) { forall i :: 0 <= i < |methods| ==> methods[i] in {0, 1, 2} }

  lemma {:induction false} OneMoreMethod(ms: seq<byte>, b: byte)
    ensures AllValid(ms + [b]) <==> AllValid(ms) && IsValidMethod(b)
    ensures NO_AUTH in ms + [b] <==> NO_AUTH in ms || b == NO_AUTH
    ensures USER_PASS in ms + [b] <==> USER_PASS in ms || b == USER_PASS
  {
    var all := ms + [b];
    assert all[|ms|] == b && forall i :: 0 <= i < |ms| ==> all[i] == ms[i];
  }

  lemma {:induction false} RunNext(bs: seq<byte>, b: byte)
    ensures Run(INIT, bs + [b]) == Step(Run(INIT, bs), b).0
  {
    A.RunSnoc(Next, INIT, bs, b);
  }

  lemma {:induction false} HeadRun(n: byte)
    ensures Run(INIT, [SOCKS5_VERSION]) == INIT.(state := NMETHODS)
    ensures Run(INIT, [SOCKS5_VERSION, n]) == INIT.(state := METHODS, nmethods := n)
  {
    assert [] + [SOCKS5_VERSION] == [SOCKS5_VERSION] && [SOCKS5_VERSION] + [n] == [SOCKS5_VERSION, n];
    RunNext([], SOCKS5_VERSION);
    RunNext([SOCKS5_VERSION], n);
  }

  lemma {:induction false} StepMethod(n: byte, k: byte, noAuth: bool, userPass: bool, m: byte)
    requires k < n && IsValidMethod(m)
    ensures Step(Value(METHODS, n, k, noAuth, userPass), m).0
         == Value(METHODS, n, k + 1, noAuth || m == NO_AUTH, userPass || m == USER_PASS)
  {
  }

  /** After the first methods of a longer greeting, all of them known. */
  lemma {:induction false} MethodsRun(n: byte, ms: seq<byte>)
    requires |ms| <= n && AllValid(ms)
    ensures Run(INIT, [SOCKS5_VERSION, n] + ms) == Value(METHODS, n, |ms|, NO_AUTH in ms, USER_PASS in ms)
  {
    if ms == [] {
      HeadRun(n);
      assert [SOCKS5_VERSION, n] + [] == [SOCKS5_VERSION, n];
    } else {
      var p, m := ms[..|ms| - 1], ms[|ms| - 1];
      assert p + [m] == ms;
      hide AllValid, Run, IsValidMethod, Step;
      OneMoreMethod(p, m);
      StepMethod(n, |p|, NO_AUTH in p, USER_PASS in p, m);
      MethodsRun(n, p);
      RunNext([SOCKS5_VERSION, n] + p, m);
      assert [SOCKS5_VERSION, n] + p + [m] == [SOCKS5_VERSION, n] + ms;
    }
  }

  /** What is reported at the k-th method. */
  lemma {:induction false} MethodReport(n: byte, ms: seq<byte>)
    requires 1 <= |ms| <= n && AllValid(ms[..|ms| - 1])
    ensures Report([SOCKS5_VERSION, n] + ms)
         == if !IsValidMethod(ms[|ms| - 1]) then ERROR else if |ms| == n then DONE else METHODS
  {
    var p, bs := ms[..|ms| - 1], [SOCKS5_VERSION, n] + ms;
    MethodsRun(n, p);
    assert bs[..|bs| - 1] == [SOCKS5_VERSION, n] + p;
  }

  /** What is reported at the j-th byte of the greeting. */
  function ReportAt(methods: seq<byte>, j: nat): State
    requires |methods| <= 255 && 1 <= j <= 2 + |methods|
  {
    Report(Greeting(methods)[..j])
  }

  lemma {:induction false} HeaderReport(methods: seq<byte>)
    requires |methods| <= 255
    ensures ReportAt(methods, 1) == VERSION && ReportAt(methods, 2) == NMETHODS
  {
  }

  lemma {:induction false} ReportAtMethod(methods: seq<byte>, k: nat)
    requires 1 <= k <= |methods| <= 255 && AllValid(methods[..k - 1])
    ensures ReportAt(methods, 2 + k)
         == if !IsValidMethod(methods[k - 1]) then ERROR else if k == |methods| then DONE else METHODS
  {
    assert methods[..k][..k - 1] == methods[..k - 1];
    hide AllValid;
    MethodReport(|methods|, methods[..k]);
    assert Greeting(methods)[..2 + k] == [SOCKS5_VERSION, |methods|] + methods[..k];
  }

  /** Method selection, for every greeting of 1 to 255 methods. If all are 0x00, 0x01 or 0x02, DONE is
      reported at the last byte and nothing final before it, and the reply then carries the method
      this server should select, whatever the order and repetitions. */
  lemma {:induction false} SelectsMethod(methods: seq<byte>)
    requires 1 <= |methods| <= 255 && AllValid(methods)
    ensures ReportAt(methods, 2 + |methods|) == DONE
    ensures forall j :: 1 <= j < 2 + |methods| ==> ReportAt(methods, j) !in {DONE, ERROR}
    ensures var v := Run(INIT, Greeting(methods));
      && v.noAuth == (0 in methods) && v.userPass == (2 in methods)
      && Reply(v.noAuth, v.userPass) == [5, Selected(methods)]
  {
    MethodsRun(|methods|, methods);
    HeaderReport(methods);
    ReportAtMethod(methods, |methods|);
    forall j | 1 <= j < 2 + |methods|
      ensures ReportAt(methods, j) !in {DONE, ERROR}
    {
      if j > 2 {
        ReportAtMethod(methods, j - 2);
      }
    }
  }

  /** RFC 1928 lets a client offer any method from 0x00 to 0xFE. A greeting is answered if and only if
      it offers none but the three known ones; otherwise the first unknown method is an error. */
  lemma {:induction false} AnsweredIffAllKnown(methods: seq<byte>)
    requires 1 <= |methods| <= 255
    ensures (forall j :: 1 <= j <= 2 + |methods| ==> ReportAt(methods, j) != ERROR) <==> AllValid(methods)
  {
    if AllValid(methods) {
      SelectsMethod(methods);
    } else {
      ReportAtMethod(methods, FirstUnknown(methods) + 1);
    }
  }

  // ---- Any stream of bytes ----

  /** No byte of `bs` has been reported as final. */
  predicate NothingFinal(bs: seq<byte>) {
    forall j :: 1 <= j <= |bs| ==> Report(bs[..j]) !in {DONE, ERROR}
  }

  /** `bs` is reported as DONE at its last byte, with nothing final before. */
  predicate Answered(bs: seq<byte>) {
    bs != [] && NothingFinal(bs[..|bs| - 1]) && Report(bs) == DONE
  }

  lemma {:induction false} NothingFinalPrefix(bs: seq<byte>)
    requires bs != [] && NothingFinal(bs)
    ensures NothingFinal(bs[..|bs| - 1]) && Report(bs) !in {DONE, ERROR}
  {
    var cs := bs[..|bs| - 1];
    assert bs[..|bs|] == bs;
    forall j | 1 <= j <= |cs|
      ensures Report(cs[..j]) !in {DONE, ERROR}
    {
      assert cs[..j] == bs[..j];
    }
  }

  /** Feeding one more byte. */
  lemma {:induction false} FeedOne(bs: seq<byte>, b: byte)
    requires NothingFinal(bs)
    ensures Run(INIT, bs + [b]) == Step(Run(INIT, bs), b).0
    ensures Step(Run(INIT, bs), b).1 !in {DONE, ERROR} ==> NothingFinal(bs + [b])
    ensures Step(Run(INIT, bs), b).1 == DONE ==> Answered(bs + [b])
  {
    hide Step;
    var cs := bs + [b];
    A.RunSnoc(Next, INIT, bs, b);
    assert cs[..|cs| - 1] == bs && cs[..|cs|] == cs && Report(cs) == Step(Run(INIT, bs), b).1;
    hide Run, Report;
    assert forall j :: 1 <= j <= |bs| ==> cs[..j] == bs[..j];
  }

  /** `bs` is the start of a greeting of known methods, and `v` what the parser makes of it. */
  predicate GreetingStart(bs: seq<byte>, v: Value) {
    if |bs| == 0 then v == INIT
    else if |bs| == 1 then bs[0] == SOCKS5_VERSION && v == INIT.(state := NMETHODS)
    else
      && bs[0] == SOCKS5_VERSION && AllValid(bs[2..]) && (|bs| == 2 || |bs| - 2 < bs[1])
      && v == Value(METHODS, bs[1], |bs| - 2, NO_AUTH in bs[2..], USER_PASS in bs[2..])
  }

  lemma {:induction false} StartGrows(bs: seq<byte>, v: Value, b: byte)
    requires GreetingStart(bs, v) && Step(v, b).1 !in {DONE, ERROR}
    ensures GreetingStart(bs + [b], Step(v, b).0)
  {
    if |bs| >= 2 {
      hide AllValid;
      OneMoreMethod(bs[2..], b);
      assert (bs + [b])[2..] == bs[2..] + [b];
    }
  }

  /** As long as nothing is final the stream is the start of a greeting. */
  lemma {:induction false} PendingShape(bs: seq<byte>)
    requires NothingFinal(bs)
    ensures GreetingStart(bs, Run(INIT, bs))
  {
    if bs != [] {
      var cs, b := bs[..|bs| - 1], bs[|bs| - 1];
      NothingFinalPrefix(bs);
      hide NothingFinal, GreetingStart, Step;
      PendingShape(cs);
      StartGrows(cs, Run(INIT, cs), b);
      assert cs + [b] == bs;
    }
  }

  /** `bs` is a greeting of known methods, or the greeting of no methods and one byte more. */
  predicate GreetingDone(bs: seq<byte>, v: Value) {
    && |bs| >= 3 && bs[0] == SOCKS5_VERSION && AllValid(bs[2..])
    && (if bs[1] == 0 then |bs| == 3 && !v.noAuth && !v.userPass
        else
          && |bs| - 2 == bs[1] && bs == Greeting(bs[2..])
          && v.noAuth == (NO_AUTH in bs[2..]) && v.userPass == (USER_PASS in bs[2..]))
  }

  lemma {:induction false} StartEnds(bs: seq<byte>, v: Value, b: byte)
    requires GreetingStart(bs, v) && Step(v, b).1 == DONE
    ensures GreetingDone(bs + [b], Step(v, b).0)
  {
    hide AllValid;
    assert |bs| >= 2;
    OneMoreMethod(bs[2..], b);
    assert (bs + [b])[2..] == bs[2..] + [b];
  }

  /** Whatever stream is answered is such a greeting, and the flags are those of its methods. */
  lemma {:induction false} AnsweredShape(bs: seq<byte>)
    requires Answered(bs)
    ensures GreetingDone(bs, Run(INIT, bs))
  {
    hide NothingFinal, GreetingStart, GreetingDone, Step;
    var cs, b := bs[..|bs| - 1], bs[|bs| - 1];
    PendingShape(cs);
    StartEnds(cs, Run(INIT, cs), b);
    assert cs + [b] == bs;
  }

  function FirstUnknown(methods: seq<byte>): (k: nat)
    requires !AllValid(methods)
    ensures k < |methods| && !IsValidMethod(methods[k]) && AllValid(methods[..k])
  {
    if !IsValidMethod(methods[0]) then 0
    else
      assert methods == [methods[0]] + methods[1..];
      var k := 1 + FirstUnknown(methods[1..]);
      assert methods[..k] == [methods[0]] + methods[1..][..k - 1];
      k
  }

  /** NMETHODS = 0 still takes one method byte, and is then answered with 0xFF. */
  lemma {:induction false} ZeroMethodsTakesOne(m: byte)
    ensures Run(INIT, [5, 0]).state == METHODS
    ensures Report([5, 0]) == NMETHODS
    ensures Report([5, 0, m]) == if m == 0 || m == 1 || m == 2 then DONE else ERROR
    ensures var v := Run(INIT, [5, 0, m]); Reply(v.noAuth, v.userPass) == [5, 0xFF]
  {
    var h: seq<byte> := [SOCKS5_VERSION, 0];
    HeadRun(0);
    RunNext(h, m);
    assert h + [m] == [SOCKS5_VERSION, 0, m] && [SOCKS5_VERSION, 0, m][..2] == h && h[..1] == [SOCKS5_VERSION];
  }
}
