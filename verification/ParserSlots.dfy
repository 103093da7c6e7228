// The three parser pointers of socks5_conn_t: which parser exists, and feeding it.
module ParserSlots {
  import opened Bytes
  import opened StateMachine
  import HS = HandshakeParser
  import AU = AuthParser
  import CR = ConnReqParser

  class ParserSlots {
    var handshakeParser: HS.HandshakeParser?
    var authParser: AU.AuthParser?
    var connReqParser: CR.ConnReqParser?
    ghost var Repr: set<object>

    /** At most one parser exists. */
    ghost predicate Valid()
      reads this, Repr
    {
      && this in Repr
      && (handshakeParser != null ==>
            handshakeParser in Repr && handshakeParser.parser in Repr && handshakeParser.Valid()
            && authParser == null && connReqParser == null)
      && (authParser != null ==>
            authParser in Repr && authParser.parser in Repr && authParser.username in Repr && authParser.password in Repr
            && authParser.Valid() && connReqParser == null)
      && (connReqParser != null ==>
            connReqParser in Repr && connReqParser.parser in Repr && connReqParser.dstAddr in Repr && connReqParser.Valid())
    }

    ghost function Hs(): Option<HS.Value>
      reads this, Repr
      requires Valid()
    {
      if handshakeParser == null then None else Some(handshakeParser.AsValue())
    }

    ghost function Au(): Option<AU.Value>
      reads this, Repr
      requires Valid()
    {
      if authParser == null then None else Some(authParser.AsValue())
    }

    ghost function Cr(): Option<CR.Value>
      reads this, Repr
      requires Valid()
    {
      if connReqParser == null then None else Some(connReqParser.AsValue())
    }

    /** Does the parser of that state exist, if it is one that has a parser? */
    predicate Has(s: State)
      reads this, Repr
      requires Valid()
      ensures s == HANDSHAKE ==> Has(s) == Hs().Some?
      ensures s == AUTH ==> Has(s) == Au().Some?
      ensures s == CONNECTION_REQ ==> Has(s) == Cr().Some?
      ensures s !in {HANDSHAKE, AUTH, CONNECTION_REQ} ==> Has(s)
    {
      match s
      case HANDSHAKE => handshakeParser != null
      case AUTH => authParser != null
      case CONNECTION_REQ => connReqParser != null
      case _ => true
    }

    ghost predicate Empty()
      reads this, Repr
      requires Valid()
      ensures Empty() <==> Hs() == None && Au() == None && Cr() == None
    {
      handshakeParser == null && authParser == null && connReqParser == null
    }

    constructor ()
      ensures Valid() && fresh(Repr) && Empty()
    {
      handshakeParser, authParser, connReqParser := null, null, null;
      Repr := {this};
    }

    /** Every parser is released. */
    method Clear()
      requires Valid()
      modifies this
      ensures Valid() && Repr == old(Repr) && Empty()
    {
      handshakeParser, authParser, connReqParser := null, null, null;
    }

    /** `*_parser_init` for the states that have a parser. */
    method Make(s: State)
      requires Valid() && Empty()
      modifies this
      ensures Valid() && fresh(Repr - old(Repr))
      ensures Hs() == (if s == HANDSHAKE then Some(HS.INIT) else None)
      ensures Au() == (if s == AUTH then Some(AU.INIT) else None)
      ensures Cr() == (if s == CONNECTION_REQ then Some(CR.INIT) else None)
    {
      match s {
      case HANDSHAKE =>
        handshakeParser := new HS.HandshakeParser();
        Repr := Repr + {handshakeParser, handshakeParser.parser};
      case AUTH =>
        authParser := new AU.AuthParser();
        Repr := Repr + {authParser, authParser.parser, authParser.username, authParser.password};
      case CONNECTION_REQ =>
        connReqParser := new CR.ConnReqParser();
        Repr := Repr + {connReqParser, connReqParser.parser, connReqParser.dstAddr};
      case _ =>
      }
    }

    method FeedHandshake(b: byte) returns (report: HS.State)
      requires Valid() && Hs().Some?
      modifies Repr
      ensures Valid() && Repr == old(Repr) && Hs().Some? && Au() == old(Au()) && Cr() == old(Cr())
      ensures (Hs().value, report) == HS.Step(old(Hs()).value, b)
    {
      hide HS.Step;
      report := handshakeParser.Feed(b);
    }

    method FeedAuth(b: byte) returns (report: AU.State)
      requires Valid() && Au().Some?
      modifies Repr
      ensures Valid() && Repr == old(Repr) && Hs() == old(Hs()) && Au() == Some(AU.Step(old(Au()).value, b)) && Cr() == old(Cr())
      ensures report == AU.State.DONE <==> Au().value.state == AU.State.DONE
      ensures report == AU.State.ERROR <==> Au().value.state == AU.State.ERROR
    {
      hide AU.Step;
      report := authParser.Feed(b);
    }

    method FeedConnReq(b: byte) returns (report: CR.State)
      requires Valid() && Cr().Some?
      modifies Repr
      ensures Valid() && Repr == old(Repr) && Hs() == old(Hs()) && Au() == old(Au()) && Cr() == Some(CR.Step(old(Cr()).value, b))
      ensures report == CR.State.DONE <==> Cr().value.state == CR.State.DONE
      ensures report == CR.State.ERROR <==> Cr().value.state == CR.State.ERROR
    {
      hide CR.Step;
      report := connReqParser.Feed(b);
    }

    /** The strings that the user table is asked for. */
    method Credentials() returns (username: seq<byte>, password: seq<byte>)
      requires Valid() && Au().Some? && Au().value.state == AU.State.DONE
      ensures username == CStr(Au().value.uname) && password == CStr(Au().value.passwd)
    {
      Terminated(authParser.username[..], authParser.usernameCount);
      Terminated(authParser.password[..], authParser.passwordCount);
      username, password := CStr(authParser.username[..]), CStr(authParser.password[..]);
      assert authParser.username[..][..authParser.usernameCount] == authParser.username[..authParser.usernameCount];
      assert authParser.password[..][..authParser.passwordCount] == authParser.password[..authParser.passwordCount];
    }

    /** The fields of the request parser. */
    method Request() returns (v: CR.Value)
      requires Valid() && Cr().Some?
      ensures v == Cr().value
    {
      v := CR.Value(connReqParser.parser.state, connReqParser.cmd, connReqParser.atyp, connReqParser.dstAddrLen,
                    connReqParser.dstAddr[..connReqParser.dstAddrCount], connReqParser.dstPort);
    }
  }

  /** A NUL ends a C string, whatever follows it. */
  lemma {:induction false} Terminated(a: seq<byte>, n: nat)
    requires n < |a| && a[n] == 0
    ensures CStr(a) == CStr(a[..n])
    decreases n
  {
    if n > 0 {
      Terminated(a[1..], n - 1);
      assert a[..n][1..] == a[1..][..n - 1];
    }
  }
}
