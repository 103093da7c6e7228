// The connection object of src/server/socks5: its fields, updated in place, and the functions of
// socks5.c, stm.c and states_handlers/* as methods that compute the functions of Socks5.dfy.
module Connection {
  import opened Bytes
  import opened AddressFallback
  import opened StateMachine
  import opened Relay
  import opened Socks5
  import opened Invariant
  import DataPath
  import PS = ParserSlots
  import HS = HandshakeParser
  import AU = AuthParser
  import CR = ConnReqParser

  class Connection {
    const path: DataPath.DataPath
    const parsers: PS.ParserSlots
    const addrInfo: AddressSlot
    var current: Option<State>
    var isError: bool
    var username: seq<byte>
    var destination: Option<Destination>

    // What the fields stand for, and history.
    ghost var stm: Machine
    ghost var dns: Resolution
    ghost var broken: bool
    ghost var resumed: bool
    ghost var nego: Negotiation

    /** The parsers and the list of addresses are the connection's own, and are its machine's. */
    ghost predicate Valid()
      reads this, path.Parts(), parsers, parsers.Repr, addrInfo, addrInfo.nodes
    {
      && path.Valid() && parsers.Valid() && addrInfo.Valid()
      && this !in parsers.Repr && path !in parsers.Repr && path.inBuff !in parsers.Repr && path.outBuff !in parsers.Repr
      && path.inBuff.data !in parsers.Repr && path.outBuff.data !in parsers.Repr
      && addrInfo !in parsers.Repr && parsers.Repr !! addrInfo.nodes
      && stm.current == current && stm.hs == parsers.Hs() && stm.au == parsers.Au() && stm.cr == parsers.Cr()
      && (stm.hs.Some? ==> current == Some(HANDSHAKE)) && (stm.au.Some? ==> current == Some(AUTH))
      && (stm.cr.Some? ==> current == Some(CONNECTION_REQ))
      && dns.addrInfo == addrInfo.AsSeq()
    }

    ghost function AsConn(): Conn
      reads this, path.Parts()
      requires path.Valid()
    {
      Conn(broken, resumed, stm, path.AsFlow(), isError, username, destination, dns, nego)
    }

    /** The parsers are the old ones, or new. */
    twostate predicate Own()
      reads parsers
    {
      forall o :: o in parsers.Repr ==> o in old(parsers.Repr) || fresh(o)
    }

    twostate predicate OwnList()
      reads addrInfo
    {
      forall n :: n in addrInfo.nodes ==> n in old(addrInfo.nodes) || fresh(n)
    }

    constructor (inMemory: array<byte>, outMemory: array<byte>)
      requires inMemory != outMemory && inMemory.Length == outMemory.Length
      ensures Valid() && path.Compact() && AsConn() == Accepted(inMemory.Length)
      ensures fresh(path.Parts() - {inMemory, outMemory}) && fresh(parsers.Repr) && fresh(addrInfo) && addrInfo.nodes == {}
    {
      path := new DataPath.DataPath(inMemory, outMemory);
      parsers := new PS.ParserSlots();
      addrInfo := new AddressSlot();
      current, isError, username, destination := None, false, [], None;
      stm, dns := START, Resolution([], 0, 0, 0, 0);
      broken, resumed, nego := false, false, Negotiation([], [], NoGrant, []);
    }

    // ---- The end of a connection ----

    /** What `socksv5_close` releases besides the sockets. */
    method Release()
      requires Valid()
      modifies this`stm, this`dns, parsers, addrInfo
      ensures Valid() && Own() && addrInfo.nodes == old(addrInfo.nodes)
      ensures AsConn() == old(AsConn()).(stm := Discarded(old(stm)), dns := old(dns).(addrInfo := []))
    {
      hide PS.ParserSlots.Valid, PS.ParserSlots.Hs, PS.ParserSlots.Au, PS.ParserSlots.Cr,
        PS.ParserSlots.Has, PS.ParserSlots.Empty, AddressSlot.Valid, AddressSlot.AsSeq;
      parsers.Clear();
      addrInfo.Free();
      stm, dns := Discarded(stm), dns.(addrInfo := []);
    }

    /** Unregistering both sockets, which runs `socksv5_close` on the client's. */
    method CloseBoth()
      requires Valid()
      modifies this`stm, this`dns, path, parsers, addrInfo
      ensures Valid() && Own() && addrInfo.nodes == old(addrInfo.nodes)
      ensures AsConn() == Close(old(AsConn())) && !path.live
    {
      hide PS.ParserSlots.Valid, PS.ParserSlots.Hs, PS.ParserSlots.Au, PS.ParserSlots.Cr,
        PS.ParserSlots.Has, PS.ParserSlots.Empty, AddressSlot.Valid, AddressSlot.AsSeq,
        Discarded;
      path.CloseBoth();
      assert !path.AsFlow().live;
      Release();
    }

    /** If the data path has ended, the rest goes with it. */
    method ReleaseIfEnded()
      requires Valid() && (!path.live ==> path.AsFlow() == End(path.AsFlow()))
      modifies this`stm, this`dns, parsers, addrInfo
      ensures Valid() && Own() && addrInfo.nodes == old(addrInfo.nodes) && AsConn() == CloseIfEnded(old(AsConn()))
    {
      hide PS.ParserSlots.Valid, PS.ParserSlots.Hs, PS.ParserSlots.Au, PS.ParserSlots.Cr,
        PS.ParserSlots.Has, PS.ParserSlots.Empty, AddressSlot.Valid, AddressSlot.AsSeq,
        Discarded, End;
      if !path.live {
        Release();
      }
    }

    // ---- stm.c ----

    /** `on_departure` of the current state. */
    method OnDeparture()
      requires Valid() && CanDepart(stm)
      modifies this`stm, path`origin, parsers
      ensures Valid() && addrInfo.nodes == old(addrInfo.nodes) && parsers.Repr == old(parsers.Repr) && parsers.Empty()
      ensures AsConn() == old(AsConn()).(stm := Departed(old(stm)),
                flow := if old(current) == Some(COPY) then ReleaseOrigin(old(path.AsFlow())) else old(path.AsFlow()))
    {
      hide PS.ParserSlots.Valid, PS.ParserSlots.Hs, PS.ParserSlots.Au, PS.ParserSlots.Cr,
        PS.ParserSlots.Has, PS.ParserSlots.Empty, AddressSlot.Valid, AddressSlot.AsSeq,
        ReleaseOrigin;
      if current == Some(COPY) {
        path.UnregisterOrigin();
      }
      parsers.Clear();
      stm := Departed(stm);
    }

    /** The new current state, with its parser if it has one. */
    method MakeCurrent(s: State)
      requires Valid() && parsers.Empty()
      modifies this`current, this`stm, parsers
      ensures Valid() && Own() && addrInfo.nodes == old(addrInfo.nodes)
      ensures AsConn() == old(AsConn()).(stm := Entered(old(stm), s)) && current == Some(s)
    {
      hide PS.ParserSlots.Valid, PS.ParserSlots.Hs, PS.ParserSlots.Au, PS.ParserSlots.Cr,
        PS.ParserSlots.Has, PS.ParserSlots.Empty, AddressSlot.Valid, AddressSlot.AsSeq;
      current := Some(s);
      parsers.Make(s);
      stm := Entered(stm, s);
    }

    /** The new current state, and what its `on_arrival` does. */
    method Enter(s: State)
      requires Valid() && parsers.Empty()
      modifies this`current, this`stm, this`dns, path, parsers, addrInfo
      ensures Valid() && Own() && addrInfo.nodes == old(addrInfo.nodes)
      ensures AsConn() == Arrived(old(AsConn()), s) && (s == ERROR ==> !path.live)
    {
      hide PS.ParserSlots.Valid, PS.ParserSlots.Hs, PS.ParserSlots.Au, PS.ParserSlots.Cr,
        PS.ParserSlots.Has, PS.ParserSlots.Empty, AddressSlot.Valid, AddressSlot.AsSeq,
        Close, Entered, RegisterOrigin;
      MakeCurrent(s);
      if s == COPY {
        path.RegisterOriginSocket(CopyHandler, NOOP);
      } else if s == DONE || s == ERROR {
        CloseBoth();
      }
    }

    /** Departure, then arrival. */
    method Move(next: State)
      requires Valid() && path.live && CanDepart(stm) && current != Some(next)
      modifies this`current, this`stm, this`dns, path, parsers, addrInfo
      ensures Valid() && Own() && addrInfo.nodes == old(addrInfo.nodes) && AsConn() == Jump(old(AsConn()), next)
      ensures next == ERROR ==> !path.live
    {
      hide PS.ParserSlots.Valid, PS.ParserSlots.Hs, PS.ParserSlots.Au, PS.ParserSlots.Cr,
        PS.ParserSlots.Has, PS.ParserSlots.Empty, AddressSlot.Valid, AddressSlot.AsSeq,
        Close, Entered, Departed, ReleaseOrigin, RegisterOrigin;
      OnDeparture();
      Enter(next);
    }

    /** `jump`. Nothing is entered on a connection that has ended. */
    method JumpTo(next: State)
      requires Valid()
      modifies this`broken, this`current, this`stm, this`dns, path, parsers, addrInfo
      ensures Valid() && Own() && addrInfo.nodes == old(addrInfo.nodes) && AsConn() == Jump(old(AsConn()), next)
      ensures next == ERROR && old(current) != Some(ERROR) && old(CanDepart(stm)) ==> !path.live
    {
      hide PS.ParserSlots.Valid, PS.ParserSlots.Hs, PS.ParserSlots.Au, PS.ParserSlots.Cr,
        PS.ParserSlots.Has, PS.ParserSlots.Empty, AddressSlot.Valid, AddressSlot.AsSeq,
        Close, Jumped, ReleaseOrigin, RegisterOrigin;
      if path.live && current != Some(next) {
        if current.Some? && !parsers.Has(current.value) {
          broken := true;
          return;
        }
        Move(next);
      }
    }

    method HandleFirstEvent()
      requires Valid()
      modifies this`current, this`stm, this`dns, path, parsers, addrInfo
      ensures Valid() && Own() && addrInfo.nodes == old(addrInfo.nodes) && AsConn() == HandleFirst(old(AsConn()))
    {
      hide PS.ParserSlots.Valid, PS.ParserSlots.Hs, PS.ParserSlots.Au, PS.ParserSlots.Cr,
        PS.ParserSlots.Has, PS.ParserSlots.Empty, AddressSlot.Valid, AddressSlot.AsSeq,
        Entered;
      if current.None? {
        Enter(HANDSHAKE);
      }
    }

    // ---- socksv5_write ----

    /** The `on_write_ready` handlers. */
    method NextAfterWrite() returns (next: State)
      requires Valid() && CanDepart(stm) && current.Some? && HasWriteHandler(current.value)
      ensures next == AfterWrite(AsConn())
    {
      if isError {
        return ERROR;
      }
      match current.value {
      case HANDSHAKE =>
        return if parsers.handshakeParser.userPassAuth then AUTH else CONNECTION_REQ;
      case AUTH =>
        return CONNECTION_REQ;
      case _ =>
        return COPY;
      }
    }

    /** `stm_handler_write`, for the states that have a handler. */
    method StmWrite()
      requires Valid() && CanDepart(stm) && current.Some?
      modifies this`broken, this`current, this`stm, this`dns, path, parsers, addrInfo
      ensures Valid() && Own() && addrInfo.nodes == old(addrInfo.nodes) && AsConn() == WriteReady(old(AsConn()))
    {
      hide PS.ParserSlots.Valid, PS.ParserSlots.Hs, PS.ParserSlots.Au, PS.ParserSlots.Cr,
        PS.ParserSlots.Has, PS.ParserSlots.Empty, AddressSlot.Valid, AddressSlot.AsSeq,
        Jump, AfterWrite;
      if HasWriteHandler(current.value) {
        var next := NextAfterWrite();
        JumpTo(next);
      }
    }

    /** `socksv5_write` */
    method Write(r: Send)
      requires Valid() && path.live && CanDepart(stm) && current.Some?
      modifies this`broken, this`current, this`stm, this`dns, path, path.outBuff, path.outBuff.data, parsers, addrInfo
      ensures Valid() && Own() && addrInfo.nodes == old(addrInfo.nodes) && AsConn() == ClientWrite(old(AsConn()), r)
    {
      hide PS.ParserSlots.Valid, PS.ParserSlots.Hs, PS.ParserSlots.Au, PS.ParserSlots.Cr,
        PS.ParserSlots.Has, PS.ParserSlots.Empty, AddressSlot.Valid, AddressSlot.AsSeq,
        WriteToClient, WriteReady, Close, End;
      WriteEnds(path.AsFlow(), r);
      var sent := path.SendToClient(r);
      if sent {
        StmWrite();
      } else {
        ReleaseIfEnded();
      }
    }

    // ---- Read handlers of the negotiation ----

    /** A reply of the negotiation: queued, announced, and a first send tried. */
    method Reply(bytes: seq<byte>, failed: bool, r: Send)
      requires Valid() && path.live && CanDepart(stm) && current.Some?
      modifies this`isError, this`broken, this`current, this`stm, this`dns, path, path.outBuff, path.outBuff.data, parsers, addrInfo
      ensures Valid() && Own() && addrInfo.nodes == old(addrInfo.nodes)
      ensures AsConn() == ClientWrite(Answer(old(AsConn()), bytes).(isError := failed), r)
    {
      hide PS.ParserSlots.Valid, PS.ParserSlots.Hs, PS.ParserSlots.Au, PS.ParserSlots.Cr,
        PS.ParserSlots.Has, PS.ParserSlots.Empty, AddressSlot.Valid, AddressSlot.AsSeq,
        ClientWrite, Put;
      path.Queue(bytes);
      path.SetClientInterest(WRITE);
      isError := failed;
      Write(r);
    }

    /** `buffer_read(&conn->in_buff)` */
    method NextByte() returns (b: byte)
      requires Valid() && path.AsFlow().inB != []
      modifies path.inBuff, path.inBuff.data
      ensures Valid() && parsers.Repr == old(parsers.Repr) && addrInfo.nodes == old(addrInfo.nodes)
      ensures b == old(path.AsFlow()).inB[0]
      ensures AsConn() == old(AsConn()).(flow := old(path.AsFlow()).(inB := old(path.AsFlow()).inB[1..]))
    {
      hide PS.ParserSlots.Valid, PS.ParserSlots.Hs, PS.ParserSlots.Au, PS.ParserSlots.Cr,
        AddressSlot.Valid, AddressSlot.AsSeq;
      b := path.NextByte();
    }

    /** `handshake_parser_feed(conn->handshake_parser, buffer_read(&conn->in_buff))` */
    method FeedHandshake() returns (report: HS.State)
      requires Valid() && stm.hs.Some? && path.AsFlow().inB != []
      modifies this`stm, this`nego, path.inBuff, path.inBuff.data, parsers.Repr
      ensures Valid() && parsers.Repr == old(parsers.Repr) && addrInfo.nodes == old(addrInfo.nodes) && stm.hs.Some?
      ensures (stm.hs.value, report) == HS.Step(old(stm.hs.value), old(path.AsFlow()).inB[0])
      ensures AsConn() == FedGreeting(old(AsConn()), stm.hs.value)
    {
      hide PS.ParserSlots.Valid, PS.ParserSlots.Hs, PS.ParserSlots.Au, PS.ParserSlots.Cr,
        HS.Step, AddressSlot.Valid, AddressSlot.AsSeq;
      var b := NextByte();
      report := parsers.FeedHandshake(b);
      stm := stm.(hs := parsers.Hs());
      nego := nego.(greeting := nego.greeting + [b]);
    }

    /** The reply to a complete greeting. */
    method Greet(r: Send)
      requires Valid() && path.live && current == Some(HANDSHAKE) && stm.hs.Some?
      modifies this`isError, this`broken, this`current, this`stm, this`dns, path, path.outBuff, path.outBuff.data, parsers, addrInfo
      ensures Valid() && Own() && addrInfo.nodes == old(addrInfo.nodes)
      ensures AsConn() == AnswerGreeting(old(AsConn()), old(stm.hs.value), r)
    {
      hide ClientWrite, HS.Reply, PS.ParserSlots.Valid, AddressSlot.Valid, AddressSlot.AsSeq;
      var noAuth, userPass := parsers.handshakeParser.noAuth, parsers.handshakeParser.userPassAuth;
      Reply(HS.Reply(noAuth, userPass), !(noAuth || userPass), r);
    }

    /** The loop goes on, unless the connection has ended meanwhile. */
    method GreetAndGoOn(r: Send) returns (stop: bool, next: State)
      requires Valid() && path.live && current == Some(HANDSHAKE) && stm.hs.Some?
      modifies this, path.Parts(), parsers, addrInfo
      ensures Valid() && Own() && addrInfo.nodes == old(addrInfo.nodes) && path.live == !stop
      ensures path.live ==> path.AsFlow().inB == old(path.AsFlow()).inB && (stm.hs.Some? ==> current == Some(HANDSHAKE))
      ensures var e := AnswerGreeting(old(AsConn()), old(stm.hs.value), r);
        AsConn() == (if e.flow.live then e else e.(resumed := true)) && (stop ==> next == CurrentOr(e, ERROR))
    {
      hide PS.ParserSlots.Valid, PS.ParserSlots.Hs, PS.ParserSlots.Au, PS.ParserSlots.Cr,
        PS.ParserSlots.Has, PS.ParserSlots.Empty, AddressSlot.Valid, AddressSlot.AsSeq,
        AnswerGreeting;
      AnswerStays(AsConn(), stm.hs.value, r);
      AnswerKeepsInput(AsConn(), stm.hs.value, r);
      Greet(r);
      if !path.live {
        resumed := true;
      }
      return !path.live, if current.Some? then current.value else ERROR;
    }

    /** One turn of the loop of `handshake_read`. */
    method HandshakeTurn(r: Send) returns (stop: bool, next: State)
      requires Valid() && path.live && (stm.hs.Some? ==> current == Some(HANDSHAKE)) && path.AsFlow().inB != []
      modifies this, path.Parts(), parsers, parsers.Repr, addrInfo
      ensures Valid() && Own() && addrInfo.nodes == old(addrInfo.nodes)
      ensures stop ==> (AsConn(), next) == HandshakeRead(old(AsConn()), r)
      ensures stop && path.live && !broken ==> next == ERROR && current == Some(HANDSHAKE) && CanDepart(stm)
      ensures !stop ==>
        && path.live && (stm.hs.Some? ==> current == Some(HANDSHAKE)) && |path.AsFlow().inB| < old(|path.AsFlow().inB|)
        && HandshakeRead(AsConn(), r) == HandshakeRead(old(AsConn()), r)
    {
      hide PS.ParserSlots.Valid, PS.ParserSlots.Hs, PS.ParserSlots.Au, PS.ParserSlots.Cr,
        PS.ParserSlots.Has, PS.ParserSlots.Empty, AddressSlot.Valid, AddressSlot.AsSeq,
        HS.Step, AnswerGreeting, HandshakeRead, FedGreeting;
      GreetingTurn(AsConn(), r);
      if !parsers.Has(HANDSHAKE) {
        broken := true;
        return true, ERROR;
      }
      ghost var c := AsConn();
      var report := FeedHandshake();
      FedIsShorter(c, stm.hs.value);
      if report == HS.State.ERROR {
        return true, ERROR;
      } else if report == HS.State.DONE {
        stop, next := GreetAndGoOn(r);
        return;
      }
      return false, ERROR;
    }

    method HandshakeReadReady(r: Send) returns (next: State)
      requires Valid() && path.live && current == Some(HANDSHAKE) && stm.hs.Some?
      modifies this, path.Parts(), parsers, parsers.Repr, addrInfo
      ensures Valid() && Own() && addrInfo.nodes == old(addrInfo.nodes)
      ensures (AsConn(), next) == HandshakeRead(old(AsConn()), r)
      ensures path.live && !broken ==> Drained() || (next == ERROR && current == Some(HANDSHAKE) && CanDepart(stm))
    {
      hide PS.ParserSlots.Valid, PS.ParserSlots.Hs, PS.ParserSlots.Au, PS.ParserSlots.Cr,
        PS.ParserSlots.Has, PS.ParserSlots.Empty, AddressSlot.Valid, AddressSlot.AsSeq,
        HS.Step, AnswerGreeting;
      while path.inBuff.CanRead()
        invariant Valid() && Own() && addrInfo.nodes == old(addrInfo.nodes) && path.live
        invariant stm.hs.Some? ==> current == Some(HANDSHAKE)
        invariant HandshakeRead(AsConn(), r) == HandshakeRead(old(AsConn()), r)
        decreases |path.AsFlow().inB|
      {
        var stop;
        stop, next := HandshakeTurn(r);
        if stop {
          return;
        }
      }
      next := if current.Some? then current.value else ERROR;
    }

    ghost predicate Drained()
      reads path.Parts()
      requires path.Valid()
    {
      path.AsFlow().inB == []
    }

    /** `auth_parser_feed(conn->auth_parser, buffer_read(&conn->in_buff))` */
    method FeedAuth() returns (report: AU.State)
      requires Valid() && stm.au.Some? && path.AsFlow().inB != []
      modifies this`stm, this`nego, path.inBuff, path.inBuff.data, parsers.Repr
      ensures Valid() && parsers.Repr == old(parsers.Repr) && addrInfo.nodes == old(addrInfo.nodes)
      ensures stm.au == Some(AU.Step(old(stm.au.value), old(path.AsFlow()).inB[0]))
      ensures report == AU.State.DONE <==> stm.au.value.state == AU.State.DONE
      ensures report == AU.State.ERROR <==> stm.au.value.state == AU.State.ERROR
      ensures AsConn() == FedCredentials(old(AsConn()), stm.au.value)
    {
      hide PS.ParserSlots.Valid, PS.ParserSlots.Hs, PS.ParserSlots.Au, PS.ParserSlots.Cr,
        AU.Step, AddressSlot.Valid, AddressSlot.AsSeq;
      var b := NextByte();
      report := parsers.FeedAuth(b);
      stm := stm.(au := parsers.Au());
      nego := nego.(credentials := nego.credentials + [b]);
    }

    /** Complete credentials: whatever follows them in the buffer is dropped. */
    method AnswerAuth(r: Send, users: Users)
      requires Valid() && path.live && current == Some(AUTH) && stm.au.Some? && stm.au.value.state == AU.State.DONE
      modifies this`isError, this`username, this`nego, this`broken, this`current, this`stm, this`dns,
               path.Parts(), parsers, addrInfo
      ensures Valid() && Own() && addrInfo.nodes == old(addrInfo.nodes) && path.AsFlow().inB == []
      ensures AsConn() == AnswerCredentials(old(AsConn()), old(stm.au.value), r, users)
    {
      hide PS.ParserSlots.Valid, PS.ParserSlots.Hs, PS.ParserSlots.Au, PS.ParserSlots.Cr,
        PS.ParserSlots.Has, PS.ParserSlots.Empty, AddressSlot.Valid, AddressSlot.AsSeq,
        ClientWrite, Judged;
      ghost var c := AsConn();
      JudgedIs(c, stm.au.value, users);
      Judge(users);
      ClientWriteKeepsInput(AsConn(), r);
      Write(r);
    }

    /** The user table is asked, and its answer queued. */
    method Judge(users: Users)
      requires Valid() && stm.au.Some? && stm.au.value.state == AU.State.DONE
      modifies this`isError, this`username, this`nego, path.Parts()
      ensures Valid() && parsers.Repr == old(parsers.Repr) && addrInfo.nodes == old(addrInfo.nodes)
      ensures AsConn() == Judged(old(AsConn()), stm.au.value, users)
    {
      hide PS.ParserSlots.Valid, PS.ParserSlots.Hs, PS.ParserSlots.Au, PS.ParserSlots.Cr,
        PS.ParserSlots.Has, PS.ParserSlots.Empty, AddressSlot.Valid, AddressSlot.AsSeq,
        Answer, DropIn, Accepts;
      var ok, name := CheckAuth(users);
      QueueVerdict(ok);
      if ok {
        TakeName(users, name);
      }
    }

    method TakeName(users: Users, name: seq<byte>)
      requires Valid() && stm.au.Some?
      modifies this`username, this`nego
      ensures Valid() && parsers.Repr == old(parsers.Repr) && addrInfo.nodes == old(addrInfo.nodes)
      ensures var v := stm.au.value;
        AsConn() == old(AsConn()).(username := name, nego := old(nego).(grant := Granted(users, v.uname, v.passwd)))
    {
      username := name;
      nego := nego.(grant := Granted(users, stm.au.value.uname, stm.au.value.passwd));
    }

    method QueueVerdict(ok: bool)
      requires Valid()
      modifies this`isError, path.Parts()
      ensures Valid() && parsers.Repr == old(parsers.Repr) && addrInfo.nodes == old(addrInfo.nodes)
      ensures AsConn() == DropIn(Answer(old(AsConn()), AuthReply(ok))).(isError := !ok)
    {
      hide PS.ParserSlots.Valid, PS.ParserSlots.Hs, PS.ParserSlots.Au, PS.ParserSlots.Cr,
        PS.ParserSlots.Has, PS.ParserSlots.Empty, AddressSlot.Valid, AddressSlot.AsSeq,
        Put;
      path.Queue(AuthReply(ok));
      path.DropInput();
      isError := !ok;
      path.SetClientInterest(WRITE);
    }

    /** `auth_check_credentials`, on the parser's strings; UserTable.dfy has the table. */
    method CheckAuth(users: Users) returns (ok: bool, name: seq<byte>)
      requires Valid() && stm.au.Some? && stm.au.value.state == AU.State.DONE
      ensures ok == Accepts(users, stm.au.value.uname, stm.au.value.passwd) && name == CStr(stm.au.value.uname)
    {
      hide PS.ParserSlots.Valid, PS.ParserSlots.Hs, PS.ParserSlots.Au, PS.ParserSlots.Cr,
        AddressSlot.Valid, AddressSlot.AsSeq;
      var password;
      name, password := parsers.Credentials();
      ok := name in users && users[name] == password;
    }

    /** One turn of the loop of `auth_read`. */
    method AuthTurn(r: Send, users: Users) returns (stop: bool, next: State)
      requires Valid() && path.live && current == Some(AUTH) && stm.au.Some? && path.AsFlow().inB != []
      modifies this, path.Parts(), parsers, parsers.Repr, addrInfo
      ensures Valid() && Own() && addrInfo.nodes == old(addrInfo.nodes)
      ensures stop ==> (AsConn(), next) == AuthRead(old(AsConn()), r, users)
      ensures stop && path.live ==> Drained() || (next == ERROR && current == old(current) && CanDepart(stm))
      ensures !stop ==>
        && path.live && current == Some(AUTH) && stm.au.Some? && |path.AsFlow().inB| < old(|path.AsFlow().inB|)
        && AuthRead(AsConn(), r, users) == AuthRead(old(AsConn()), r, users)
    {
      hide PS.ParserSlots.Valid, PS.ParserSlots.Hs, PS.ParserSlots.Au, PS.ParserSlots.Cr,
        PS.ParserSlots.Has, PS.ParserSlots.Empty, AddressSlot.Valid, AddressSlot.AsSeq,
        AU.Step, AnswerCredentials, AuthRead, FedCredentials;
      ghost var c := AsConn();
      CredentialsTurn(c, r, users);
      var report := FeedAuth();
      FedAuthIsShorter(c, stm.au.value);
      if report == AU.State.ERROR {
        return true, ERROR;
      } else if report == AU.State.DONE {
        next := AnswerAndReturn(r, users);
        return true, next;
      }
      return false, ERROR;
    }

    /** The loop finds its buffer empty, whether or not the connection is still there. */
    method AnswerAndReturn(r: Send, users: Users) returns (next: State)
      requires Valid() && path.live && current == Some(AUTH) && stm.au.Some? && stm.au.value.state == AU.State.DONE
      modifies this, path.Parts(), parsers, addrInfo
      ensures Valid() && Own() && addrInfo.nodes == old(addrInfo.nodes) && path.AsFlow().inB == []
      ensures var e := AnswerCredentials(old(AsConn()), old(stm.au.value), r, users);
        AsConn() == (if e.flow.live then e else e.(resumed := true)) && next == CurrentOr(e, ERROR)
    {
      hide PS.ParserSlots.Valid, PS.ParserSlots.Hs, PS.ParserSlots.Au, PS.ParserSlots.Cr,
        PS.ParserSlots.Has, PS.ParserSlots.Empty, AddressSlot.Valid, AddressSlot.AsSeq,
        AnswerCredentials;
      AnswerAuth(r, users);
      if !path.live {
        resumed := true;
      }
      return if current.Some? then current.value else ERROR;
    }

    method AuthReadReady(r: Send, users: Users) returns (next: State)
      requires Valid() && path.live && current == Some(AUTH) && stm.au.Some?
      modifies this, path.Parts(), parsers, parsers.Repr, addrInfo
      ensures Valid() && Own() && addrInfo.nodes == old(addrInfo.nodes)
      ensures (AsConn(), next) == AuthRead(old(AsConn()), r, users)
      ensures path.live ==> Drained() || (next == ERROR && current == old(current) && CanDepart(stm))
    {
      hide PS.ParserSlots.Valid, PS.ParserSlots.Hs, PS.ParserSlots.Au, PS.ParserSlots.Cr,
        PS.ParserSlots.Has, PS.ParserSlots.Empty, AddressSlot.Valid, AddressSlot.AsSeq,
        AU.Step, AnswerCredentials, Accepts;
      while path.inBuff.CanRead()
        invariant Valid() && Own() && addrInfo.nodes == old(addrInfo.nodes) && path.live
        invariant current == Some(AUTH) && stm.au.Some?
        invariant AuthRead(AsConn(), r, users) == AuthRead(old(AsConn()), r, users)
        decreases |path.AsFlow().inB|
      {
        var stop;
        stop, next := AuthTurn(r, users);
        if stop {
          return;
        }
      }
      next := AUTH;
    }

    /** `conn_req_parser_feed(conn->conn_req_parser, buffer_read(&conn->in_buff))` */
    method FeedConnReq() returns (report: CR.State)
      requires Valid() && stm.cr.Some? && path.AsFlow().inB != []
      modifies this`stm, this`nego, path.inBuff, path.inBuff.data, parsers.Repr
      ensures Valid() && parsers.Repr == old(parsers.Repr) && addrInfo.nodes == old(addrInfo.nodes)
      ensures stm.cr == Some(CR.Step(old(stm.cr.value), old(path.AsFlow()).inB[0]))
      ensures report == CR.State.DONE <==> stm.cr.value.state == CR.State.DONE
      ensures report == CR.State.ERROR <==> stm.cr.value.state == CR.State.ERROR
      ensures AsConn() == FedRequest(old(AsConn()), stm.cr.value)
    {
      hide PS.ParserSlots.Valid, PS.ParserSlots.Hs, PS.ParserSlots.Au, PS.ParserSlots.Cr,
        CR.Step, AddressSlot.Valid, AddressSlot.AsSeq;
      var b := NextByte();
      report := parsers.FeedConnReq(b);
      stm := stm.(cr := parsers.Cr());
      nego := nego.(asked := nego.asked + [b]);
    }

    /** The fields of a complete request. */
    method Requested() returns (v: CR.Value)
      requires Valid() && stm.cr.Some?
      ensures v == stm.cr.value
    {
      hide PS.ParserSlots.Valid, PS.ParserSlots.Hs, PS.ParserSlots.Au, PS.ParserSlots.Cr,
        AddressSlot.Valid, AddressSlot.AsSeq;
      v := parsers.Request();
    }

    /** What a complete request leads to. */
    method AnswerConnReq(resolver: Resolver, reply: seq<byte>) returns (next: State)
      requires Valid() && stm.cr.Some?
      modifies this`isError, this`destination, this`dns, path, path.outBuff, path.outBuff.data, addrInfo
      ensures Valid() && parsers.Repr == old(parsers.Repr) && OwnList()
      ensures (AsConn(), next) == AnswerRequest(old(AsConn()), old(stm.cr.value), resolver, reply)
    {
      hide PS.ParserSlots.Valid, PS.ParserSlots.Hs, PS.ParserSlots.Au, PS.ParserSlots.Cr,
        PS.ParserSlots.Has, PS.ParserSlots.Empty, AddressSlot.Valid, AddressSlot.AsSeq,
        DestinationOf, Refuse, Ask;
      var v := Requested();
      if v.cmd != CR.CONNECT {
        RefuseRequest(reply);
        return CONNECTION_REQ;
      }
      Accept(v);
      next := StartResolution(v.atyp == CR.ATYP_DOMAIN_NAME, resolver);
    }

    /** The client waits, and the destination is taken down. */
    method Accept(v: CR.Value)
      requires Valid()
      modifies this`destination, path`client
      ensures Valid() && parsers.Repr == old(parsers.Repr) && addrInfo.nodes == old(addrInfo.nodes)
      ensures AsConn() == Ask(old(AsConn()), v)
    {
      hide PS.ParserSlots.Valid, PS.ParserSlots.Hs, PS.ParserSlots.Au, PS.ParserSlots.Cr,
        PS.ParserSlots.Has, PS.ParserSlots.Empty, AddressSlot.Valid, AddressSlot.AsSeq,
        DestinationOf;
      path.SetClientInterest(NOOP);
      destination := Some(DestinationOf(v));
    }

    /** A thread for a name, and an immediate resolution for a numeric address. */
    method StartResolution(byName: bool, resolver: Resolver) returns (next: State)
      requires Valid()
      modifies this`dns, addrInfo
      ensures Valid() && parsers.Repr == old(parsers.Repr) && OwnList()
      ensures AsConn() == old(AsConn()).(dns := dns)
      ensures dns == if !byName then
          old(dns).(addrInfo := resolver.numeric, jobs := old(dns).jobs + 1, requested := old(dns).requested + 1)
        else if resolver.threadStarts then
          old(dns).(resolving := old(dns).resolving + 1, requested := old(dns).requested + 1)
        else old(dns)
      ensures next == if byName && !resolver.threadStarts then ERROR else CONNECTING
    {
      hide PS.ParserSlots.Valid, PS.ParserSlots.Hs, PS.ParserSlots.Au, PS.ParserSlots.Cr;
      if !byName {
        addrInfo.Store(resolver.numeric);
        dns := dns.(addrInfo := resolver.numeric, jobs := dns.jobs + 1, requested := dns.requested + 1);
      } else if resolver.threadStarts {
        dns := dns.(resolving := dns.resolving + 1, requested := dns.requested + 1);
      } else {
        return ERROR;
      }
      return CONNECTING;
    }

    /** An error reply: queued and announced, to be sent once the client can be written to. */
    method RefuseRequest(reply: seq<byte>)
      requires Valid()
      modifies this`isError, path, path.outBuff, path.outBuff.data
      ensures Valid() && parsers.Repr == old(parsers.Repr) && addrInfo.nodes == old(addrInfo.nodes)
      ensures AsConn() == Refuse(old(AsConn()), reply)
    {
      hide PS.ParserSlots.Valid, PS.ParserSlots.Hs, PS.ParserSlots.Au, PS.ParserSlots.Cr,
        PS.ParserSlots.Has, PS.ParserSlots.Empty, AddressSlot.Valid, AddressSlot.AsSeq,
        Put;
      path.Queue(reply);
      isError := true;
      path.SetClientInterest(WRITE);
    }

    /** One turn of the loop of `connection_req_read`. */
    method RequestTurn(resolver: Resolver, reply: seq<byte>) returns (stop: bool, next: State)
      requires Valid() && current == Some(CONNECTION_REQ) && stm.cr.Some? && path.AsFlow().inB != []
      modifies this, path.Parts(), parsers, parsers.Repr, addrInfo
      ensures Valid() && parsers.Repr == old(parsers.Repr) && OwnList()
      ensures current == Some(CONNECTION_REQ) && path.AsFlow().inB == old(path.AsFlow()).inB[1..]
      ensures stm.cr == Some(CR.Step(old(stm.cr.value), old(path.AsFlow()).inB[0]))
      ensures !stop ==> addrInfo.nodes == old(addrInfo.nodes)
      ensures stop == (stm.cr.value.state in {CR.State.DONE, CR.State.ERROR})
      ensures stm.cr.value.state == CR.State.ERROR ==> next == ERROR
      ensures if stop then (AsConn(), next) == ConnReqRead(old(AsConn()), resolver, reply)
        else ConnReqRead(AsConn(), resolver, reply) == ConnReqRead(old(AsConn()), resolver, reply)
    {
      hide PS.ParserSlots.Valid, PS.ParserSlots.Hs, PS.ParserSlots.Au, PS.ParserSlots.Cr,
        PS.ParserSlots.Has, PS.ParserSlots.Empty, AddressSlot.Valid, AddressSlot.AsSeq,
        CR.Step, AnswerRequest, ConnReqRead, FedRequest;
      ghost var c := AsConn();
      ConnReqTurn(c, resolver, reply);
      var report := FeedConnReq();
      FedRequestIsShorter(c, stm.cr.value);
      if report == CR.State.ERROR {
        return true, ERROR;
      } else if report == CR.State.DONE {
        AnswerKeeps(AsConn(), stm.cr.value, resolver, reply);
        next := AnswerConnReq(resolver, reply);
        return true, next;
      }
      return false, ERROR;
    }

    method ConnReqReadReady(resolver: Resolver, reply: seq<byte>) returns (next: State)
      requires Valid() && current == Some(CONNECTION_REQ) && stm.cr.Some?
      modifies this, path.Parts(), parsers, parsers.Repr, addrInfo
      ensures Valid() && parsers.Repr == old(parsers.Repr) && OwnList()
      ensures (AsConn(), next) == ConnReqRead(old(AsConn()), resolver, reply)
    {
      hide PS.ParserSlots.Valid, PS.ParserSlots.Hs, PS.ParserSlots.Au, PS.ParserSlots.Cr,
        PS.ParserSlots.Has, PS.ParserSlots.Empty, AddressSlot.Valid, AddressSlot.AsSeq,
        CR.Step, AnswerRequest;
      while path.inBuff.CanRead()
        invariant Valid() && parsers.Repr == old(parsers.Repr) && addrInfo.nodes == old(addrInfo.nodes)
        invariant current == Some(CONNECTION_REQ) && stm.cr.Some?
        invariant ConnReqRead(AsConn(), resolver, reply) == ConnReqRead(old(AsConn()), resolver, reply)
        decreases |path.AsFlow().inB|
      {
        var stop;
        stop, next := RequestTurn(resolver, reply);
        if stop {
          return;
        }
      }
      return CONNECTION_REQ;
    }

    // ---- The relay ----

    /** `copy_write_handler` */
    method CopyWriteHandler(r: Send)
      requires Valid() && path.Compact() && path.live
      modifies this`stm, this`dns, path, path.inBuff, path.inBuff.data, parsers, addrInfo
      ensures Valid() && Own() && addrInfo.nodes == old(addrInfo.nodes) && path.Compact()
      ensures AsConn() == CopyWrite(old(AsConn()), r)
    {
      hide PS.ParserSlots.Valid, PS.ParserSlots.Hs, PS.ParserSlots.Au, PS.ParserSlots.Cr,
        PS.ParserSlots.Has, PS.ParserSlots.Empty, AddressSlot.Valid, AddressSlot.AsSeq,
        WriteToOrigin, Close, End;
      WriteToOriginEnds(path.AsFlow(), r);
      path.SendToOrigin(r);
      ReleaseIfEnded();
    }

    /** `copy_read` */
    method CopyReadReadyHandler(r: Send) returns (next: State)
      requires Valid() && path.Compact() && path.live && path.originFd != 0
      modifies this`resumed, this`stm, this`dns, path, path.inBuff, path.inBuff.data, parsers, addrInfo
      ensures Valid() && Own() && addrInfo.nodes == old(addrInfo.nodes) && path.Compact()
      ensures (AsConn(), next) == CopyReadReady(old(AsConn()), r)
    {
      hide PS.ParserSlots.Valid, PS.ParserSlots.Hs, PS.ParserSlots.Au, PS.ParserSlots.Cr,
        PS.ParserSlots.Has, PS.ParserSlots.Empty, AddressSlot.Valid, AddressSlot.AsSeq,
        WriteToOrigin, CloseIfEnded;
      SetOriginLives(path.AsFlow());
      var ok := path.SetOriginInterest(WRITE);
      if !ok {
        return ERROR;
      }
      CopyWriteHandler(r);
      if !path.live {
        resumed := true;
      }
      return COPY;
    }

    /** `copy_read_handler` */
    method CopyReadHandler(recv: Recv, r: Send)
      requires Valid() && path.live && CanDepart(stm) && current.Some?
      requires recv.Received? && path.outBuff.CanWrite() ==> |recv.bytes| <= path.outBuff.AsView().Free()
      modifies this`broken, this`current, this`stm, this`dns, path, path.outBuff, path.outBuff.data, parsers, addrInfo
      ensures Valid() && Own() && addrInfo.nodes == old(addrInfo.nodes)
      ensures AsConn() == OriginRead(old(AsConn()), recv, r)
    {
      hide PS.ParserSlots.Valid, PS.ParserSlots.Hs, PS.ParserSlots.Au, PS.ParserSlots.Cr,
        PS.ParserSlots.Has, PS.ParserSlots.Empty, AddressSlot.Valid, AddressSlot.AsSeq,
        SetOrigin, Close, ClientWrite, ReleaseOrigin, FromOrigin;
      ReadStays(path.AsFlow());
      if !path.outBuff.CanWrite() {
        StopOrigin();
      } else if recv.Received? {
        Forward(recv.bytes, r);
      } else if recv.Closed? {
        LoseOrigin();
      } else if recv.RecvFailed? {
        CloseOnce(AsConn());
        CloseBoth();
      }
    }

    method StopOrigin()
      requires Valid()
      modifies path`origin, path`stray, path`client
      ensures Valid() && parsers.Repr == old(parsers.Repr) && addrInfo.nodes == old(addrInfo.nodes)
      ensures AsConn() == old(AsConn()).(flow := SetClient(SetOrigin(old(path.AsFlow()), NOOP), WRITE))
    {
      hide PS.ParserSlots.Valid, PS.ParserSlots.Hs, PS.ParserSlots.Au, PS.ParserSlots.Cr,
        PS.ParserSlots.Has, PS.ParserSlots.Empty, AddressSlot.Valid, AddressSlot.AsSeq,
        SetOrigin;
      var _ := path.SetOriginInterest(NOOP);
      path.SetClientInterest(WRITE);
    }

    /** Bytes from the origin are on their way to the client. */
    method Forward(bytes: seq<byte>, r: Send)
      requires Valid() && path.live && CanDepart(stm) && current.Some? && |bytes| <= path.outBuff.AsView().Free()
      modifies this`broken, this`current, this`stm, this`dns, path, path.outBuff, path.outBuff.data, parsers, addrInfo
      ensures Valid() && Own() && addrInfo.nodes == old(addrInfo.nodes)
      ensures AsConn() == ClientWrite(old(AsConn()).(flow := SetClient(FromOrigin(old(path.AsFlow()), bytes), WRITE)), r)
    {
      hide PS.ParserSlots.Valid, PS.ParserSlots.Hs, PS.ParserSlots.Au, PS.ParserSlots.Cr,
        PS.ParserSlots.Has, PS.ParserSlots.Empty, AddressSlot.Valid, AddressSlot.AsSeq,
        ClientWrite, FromOrigin;
      ReadStays(path.AsFlow());
      path.ReceiveFromOrigin(bytes);
      path.SetClientInterest(WRITE);
      Write(r);
    }

    method LoseOrigin()
      requires Valid()
      modifies path`origin, path`io
      ensures Valid() && parsers.Repr == old(parsers.Repr) && addrInfo.nodes == old(addrInfo.nodes)
      ensures var f := ReleaseOrigin(old(path.AsFlow()));
        AsConn() == old(AsConn()).(flow := f.(io := f.io.(originClosed := true)))
    {
      hide PS.ParserSlots.Valid, PS.ParserSlots.Hs, PS.ParserSlots.Au, PS.ParserSlots.Cr,
        PS.ParserSlots.Has, PS.ParserSlots.Empty, AddressSlot.Valid, AddressSlot.AsSeq,
        ReleaseOrigin;
      path.UnregisterOrigin();
      path.SeeOriginEnd();
    }

    // ---- socksv5_read ----

    /** The `on_read_ready` handlers. */
    method ReadStateHandler(r: Send, env: Env) returns (next: State)
      requires Valid() && path.live && current.Some? && Readable(AsConn()) && (current == Some(COPY) ==> path.Compact())
      modifies this, path.Parts(), parsers, parsers.Repr, addrInfo
      ensures Valid() && Own() && OwnList() && (AsConn(), next) == ReadHandler(old(AsConn()), r, env)
      ensures old(current) == Some(COPY) ==> path.Compact()
      ensures old(ChunkAlone(AsConn())) && path.live && !broken ==>
        Drained() || (next == ERROR && CanDepart(stm) && current != Some(ERROR))
    {
      hide PS.ParserSlots.Valid, PS.ParserSlots.Hs, PS.ParserSlots.Au, PS.ParserSlots.Cr,
        PS.ParserSlots.Has, PS.ParserSlots.Empty, AddressSlot.Valid, AddressSlot.AsSeq,
        HandshakeRead, AuthRead, ConnReqRead, CopyReadReady, RequestAlone;
      match current.value {
      case HANDSHAKE =>
        next := HandshakeReadReady(r);
      case AUTH =>
        next := AuthReadReady(r, env.users);
      case CONNECTION_REQ =>
        ghost var c := AsConn();
        if RequestAlone(c.stm.cr.value, c.flow.inB) {
          RequestDrains(c, env.resolver, env.reply);
        }
        next := ConnReqReadReady(env.resolver, env.reply);
      case CONNECTING =>
        next := COPY;
      case COPY =>
        next := CopyReadReadyHandler(r);
      case _ =>
        broken := true;
        next := ERROR;
      }
    }

    /** The handler of the current state, and the jump to where it leads. */
    method ReadAndJump(r: Send, env: Env)
      requires Valid() && path.live && current.Some? && Readable(AsConn()) && (current == Some(COPY) ==> path.Compact())
      modifies this, path.Parts(), parsers, parsers.Repr, addrInfo
      ensures Valid() && Own() && OwnList()
      ensures var (e, next) := ReadHandler(old(AsConn()), r, env); AsConn() == Jump(e, next)
      ensures old(current) == Some(COPY) ==> path.Compact()
      ensures old(ChunkAlone(AsConn())) && path.live && !broken ==> Drained()
    {
      hide PS.ParserSlots.Valid, PS.ParserSlots.Hs, PS.ParserSlots.Au, PS.ParserSlots.Cr,
        PS.ParserSlots.Has, PS.ParserSlots.Empty, AddressSlot.Valid, AddressSlot.AsSeq,
        ReadHandler, Jump, RequestAlone, Readable, ChunkAlone;
      var next := ReadStateHandler(r, env);
      JumpKeepsInput(AsConn(), next);
      JumpKeepsFlags(AsConn(), next);
      JumpTo(next);
    }

    /** `stm_handler_read` */
    method StmRead(r: Send, env: Env)
      requires Valid() && path.live && Readable(AsConn()) && (current == Some(COPY) ==> path.Compact())
      modifies this, path.Parts(), parsers, parsers.Repr, addrInfo
      ensures Valid() && Own() && OwnList() && AsConn() == ReadReady(old(AsConn()), r, env)
      ensures old(current) == Some(COPY) ==> path.Compact()
      ensures old(ChunkAlone(AsConn())) && path.live && !broken ==> Drained()
    {
      hide PS.ParserSlots.Valid, PS.ParserSlots.Hs, PS.ParserSlots.Au, PS.ParserSlots.Cr,
        PS.ParserSlots.Has, PS.ParserSlots.Empty, AddressSlot.Valid, AddressSlot.AsSeq,
        ReadHandler, Jump, Entered, Readable, ChunkAlone;
      FirstMeans(AsConn());
      HandleFirstEvent();
      ReadAndJump(r, env);
    }

    /** `socksv5_read` */
    method Read(recv: Recv, r: Send, env: Env)
      requires Valid() && path.live && path.Compact()
      requires recv.Received? && path.inBuff.CanWrite() ==>
        |recv.bytes| <= path.inBuff.AsView().Free() && Readable(Gained(AsConn(), recv.bytes))
      modifies this, path.Parts(), parsers, parsers.Repr, addrInfo
      ensures Valid() && Own() && OwnList() && AsConn() == ClientRead(old(AsConn()), recv, r, env)
      ensures old(current) == Some(COPY) || !recv.Received? || !old(path.inBuff.CanWrite()) ==> path.Compact()
      ensures (recv.Received? && old(path.inBuff.CanWrite()) && old(ChunkAlone(Gained(AsConn(), recv.bytes)))
               && path.live && !broken) ==> Drained()
    {
      hide PS.ParserSlots.Valid, PS.ParserSlots.Hs, PS.ParserSlots.Au, PS.ParserSlots.Cr,
        PS.ParserSlots.Has, PS.ParserSlots.Empty, AddressSlot.Valid, AddressSlot.AsSeq,
        ReadReady, Close, PauseClient, Readable, ChunkAlone;
      if !path.inBuff.CanWrite() {
        path.Pause();
      } else if recv.Received? {
        path.Receive(recv.bytes, current == Some(COPY));
        StmRead(r, env);
      } else if recv.Closed? || recv.RecvFailed? {
        CloseBoth();
      }
    }

    // ---- Connecting ----

    /** The CONNECT reply: queued and announced, with earlier input dropped and a first send tried. */
    method StartRelay(reply: seq<byte>, r: Send)
      requires Valid() && path.live && CanDepart(stm) && current.Some?
      modifies this`broken, this`current, this`stm, this`dns, path.Parts(), parsers, addrInfo
      ensures Valid() && Own() && addrInfo.nodes == old(addrInfo.nodes) && path.Compact()
      ensures AsConn() == Start(old(AsConn()), reply, r)
    {
      hide PS.ParserSlots.Valid, PS.ParserSlots.Hs, PS.ParserSlots.Au, PS.ParserSlots.Cr,
        PS.ParserSlots.Has, PS.ParserSlots.Empty, AddressSlot.Valid, AddressSlot.AsSeq,
        ClientWrite, PutReply;
      PutReplyLives(path.AsFlow(), reply);
      path.QueueReply(reply);
      path.SetClientInterest(WRITE);
      path.DropInput();
      Write(r);
    }

    /** `connect_to_host`, on the connection's own list and origin descriptor. */
    method Connect(verdicts: seq<Attempt>, fd: int) returns (result: Result)
      requires Valid() && |verdicts| == |dns.addrInfo|
      modifies this`dns, path`originFd, addrInfo, addrInfo.nodes
      ensures Valid() && parsers.Repr == old(parsers.Repr) && addrInfo.nodes == old(addrInfo.nodes)
      ensures result == ConnectTo(old(dns.addrInfo), verdicts).result
      ensures AsConn() == old(AsConn()).(flow := old(path.AsFlow()).(originFd := fd),
                                         dns := old(dns).(addrInfo := ConnectTo(old(dns.addrInfo), verdicts).kept))
    {
      hide PS.ParserSlots.Valid, PS.ParserSlots.Hs, PS.ParserSlots.Au, PS.ParserSlots.Cr,
        AddressSlot.Valid, AddressSlot.AsSeq;
      result := addrInfo.Connect(verdicts);
      path.originFd := fd;
      dns := dns.(addrInfo := ConnectTo(dns.addrInfo, verdicts).kept);
    }

    /** An attempt in progress is watched, if the selector takes it. */
    method WatchAttempt() returns (next: State)
      requires Valid()
      modifies path`client, path`origin
      ensures Valid() && parsers.Repr == old(parsers.Repr) && addrInfo.nodes == old(addrInfo.nodes)
      ensures AsConn() == old(AsConn()).(flow := RegisterOrigin(SetClient(old(path.AsFlow()), NOOP), ConnectingHandler, WRITE))
      ensures next == if OriginRegistered(path.AsFlow()) then CONNECTING else ERROR
    {
      hide PS.ParserSlots.Valid, PS.ParserSlots.Hs, PS.ParserSlots.Au, PS.ParserSlots.Cr,
        PS.ParserSlots.Has, PS.ParserSlots.Empty, AddressSlot.Valid, AddressSlot.AsSeq,
        RegisterOrigin;
      path.SetClientInterest(NOOP);
      path.RegisterOriginSocket(ConnectingHandler, WRITE);
      return if path.origin.Registered? && path.origin.fd == path.originFd then CONNECTING else ERROR;
    }

    /** `connecting_on_block_ready` */
    method OnBlockReady(verdicts: seq<Attempt>, fd: int, reply: seq<byte>, r: Send) returns (next: State)
      requires Valid() && path.live && current == Some(CONNECTING) && |verdicts| == |dns.addrInfo|
      modifies this, path.Parts(), parsers, addrInfo, addrInfo.nodes
      ensures Valid() && Own() && addrInfo.nodes == old(addrInfo.nodes) && (old(path.Compact()) ==> path.Compact())
      ensures (AsConn(), next) == ConnectingOnBlock(old(AsConn()), verdicts, fd, reply, r)
    {
      hide PS.ParserSlots.Valid, PS.ParserSlots.Hs, PS.ParserSlots.Au, PS.ParserSlots.Cr,
        PS.ParserSlots.Has, PS.ParserSlots.Empty, AddressSlot.Valid, AddressSlot.AsSeq,
        ConnectTo, Start, RegisterOrigin, Refuse;
      if addrInfo.IsNull() {
        RefuseRequest(reply);
        return CONNECTION_REQ;
      }
      var result := Connect(verdicts, fd);
      match result {
      case CONNECTION_IN_PROGRESS =>
        next := WatchAttempt();
      case CONNECTION_SUCCESS =>
        StartRelay(reply, r);
        return COPY;
      case CONNECTION_FAILED =>
        return ERROR;
      }
    }

    /** `socksv5_block`, on a notification taken from the selector's list; `jump` and the last lines use
        the connection whether or not it is still there. */
    method BlockReady(verdicts: seq<Attempt>, fd: int, reply: seq<byte>, r: Send)
      requires Valid() && path.live && current == Some(CONNECTING) && dns.jobs > 0 && |verdicts| == |dns.addrInfo|
      modifies this, path.Parts(), parsers, addrInfo, addrInfo.nodes
      ensures Valid() && Own() && addrInfo.nodes == old(addrInfo.nodes) && (old(path.Compact()) ==> path.Compact())
      ensures AsConn() == Block(old(AsConn()), verdicts, fd, reply, r)
    {
      hide PS.ParserSlots.Valid, PS.ParserSlots.Hs, PS.ParserSlots.Au, PS.ParserSlots.Cr,
        PS.ParserSlots.Has, PS.ParserSlots.Empty, AddressSlot.Valid, AddressSlot.AsSeq,
        ConnectingOnBlock, Jump, Resume;
      TakeNotification();
      var next := OnBlockReady(verdicts, fd, reply, r);
      JumpOrResume(next);
      if next == ERROR {
        Linger();
      }
    }

    ghost method TakeNotification()
      requires Valid() && dns.jobs > 0
      modifies this`dns
      ensures Valid() && parsers.Repr == old(parsers.Repr) && addrInfo.nodes == old(addrInfo.nodes)
      ensures AsConn() == old(AsConn()).(dns := old(dns).(jobs := old(dns).jobs - 1, notified := old(dns).notified + 1))
    {
      hide PS.ParserSlots.Valid, PS.ParserSlots.Hs, PS.ParserSlots.Au, PS.ParserSlots.Cr,
        PS.ParserSlots.Has, PS.ParserSlots.Empty, AddressSlot.Valid, AddressSlot.AsSeq;
      dns := dns.(jobs := dns.jobs - 1, notified := dns.notified + 1);
    }

    /** The connection is used once more. */
    ghost method Linger()
      requires Valid()
      modifies this`resumed
      ensures Valid() && parsers.Repr == old(parsers.Repr) && addrInfo.nodes == old(addrInfo.nodes)
      ensures AsConn() == Resume(old(AsConn()))
    {
      hide PS.ParserSlots.Valid, PS.ParserSlots.Hs, PS.ParserSlots.Au, PS.ParserSlots.Cr,
        PS.ParserSlots.Has, PS.ParserSlots.Empty, AddressSlot.Valid, AddressSlot.AsSeq;
      if !path.live {
        resumed := true;
      }
    }

    method JumpOrResume(next: State)
      requires Valid()
      modifies this`resumed, this`broken, this`current, this`stm, this`dns, path, parsers, addrInfo
      ensures Valid() && Own() && addrInfo.nodes == old(addrInfo.nodes) && AsConn() == Jump(Resume(old(AsConn())), next)
    {
      hide PS.ParserSlots.Valid, PS.ParserSlots.Hs, PS.ParserSlots.Au, PS.ParserSlots.Cr,
        PS.ParserSlots.Has, PS.ParserSlots.Empty, AddressSlot.Valid, AddressSlot.AsSeq,
        Jump, Resume;
      Linger();
      JumpTo(next);
    }

    /** `resolve_host_name` at the end of its thread. */
    method ResolutionDone(list: seq<Endpoint>)
      requires Valid() && path.live && dns.resolving > 0
      modifies this`dns, addrInfo
      ensures Valid() && parsers.Repr == old(parsers.Repr) && OwnList() && AsConn() == Resolved(old(AsConn()), list)
    {
      hide PS.ParserSlots.Valid, PS.ParserSlots.Hs, PS.ParserSlots.Au, PS.ParserSlots.Cr;
      if list != [] {
        addrInfo.Store(list);
        dns := dns.(addrInfo := list);
      }
      dns := dns.(resolving := dns.resolving - 1, jobs := dns.jobs + 1);
    }

    /** `handle_write_connecting` after a failed attempt. */
    method AttemptFailed(verdicts: seq<Attempt>, fd: int, reply: seq<byte>)
      requires Valid() && |verdicts| == |dns.addrInfo|
      modifies this`isError, this`dns, path, path.outBuff, path.outBuff.data, addrInfo, addrInfo.nodes
      ensures Valid() && parsers.Repr == old(parsers.Repr) && addrInfo.nodes == old(addrInfo.nodes)
      ensures AsConn() == ConnectDone(old(AsConn()), true, verdicts, fd, reply, Sent(0))
    {
      hide PS.ParserSlots.Valid, PS.ParserSlots.Hs, PS.ParserSlots.Au, PS.ParserSlots.Cr,
        PS.ParserSlots.Has, PS.ParserSlots.Empty, AddressSlot.Valid, AddressSlot.AsSeq,
        Refuse, ConnectTo, ReleaseOrigin;
      NoneFails(verdicts);
      if !addrInfo.IsNull() {
        var result := Connect(verdicts, fd);
        if result == CONNECTION_IN_PROGRESS {
          return;
        }
      }
      GiveUp(reply);
    }

    method GiveUp(reply: seq<byte>)
      requires Valid()
      modifies this`isError, path, path.outBuff, path.outBuff.data
      ensures Valid() && parsers.Repr == old(parsers.Repr) && addrInfo.nodes == old(addrInfo.nodes)
      ensures AsConn() == Refuse(old(AsConn()).(flow := ReleaseOrigin(old(path.AsFlow())).(originFd := -1)), reply)
    {
      hide PS.ParserSlots.Valid, PS.ParserSlots.Hs, PS.ParserSlots.Au, PS.ParserSlots.Cr,
        PS.ParserSlots.Has, PS.ParserSlots.Empty, AddressSlot.Valid, AddressSlot.AsSeq,
        Refuse, ReleaseOrigin;
      path.UnregisterOrigin();
      path.originFd := -1;
      RefuseRequest(reply);
    }

    /** `handle_write_connecting` */
    method ConnectHandler(failed: bool, verdicts: seq<Attempt>, fd: int, reply: seq<byte>, r: Send)
      requires Valid() && path.live && current == Some(CONNECTING) && |verdicts| == |dns.addrInfo|
      modifies this, path.Parts(), parsers, parsers.Repr, addrInfo, addrInfo.nodes
      ensures Valid() && Own() && OwnList() && (old(path.Compact()) ==> path.Compact())
      ensures AsConn() == ConnectDone(old(AsConn()), failed, verdicts, fd, reply, r)
    {
      hide PS.ParserSlots.Valid, PS.ParserSlots.Hs, PS.ParserSlots.Au, PS.ParserSlots.Cr,
        PS.ParserSlots.Has, PS.ParserSlots.Empty, AddressSlot.Valid, AddressSlot.AsSeq,
        Start, Refuse, ReleaseOrigin, ConnectTo;
      if failed {
        AttemptFailed(verdicts, fd, reply);
      } else {
        LeaveAttempt();
        ToCopy(r);
        StartRelay(reply, r);
      }
    }

    /** The list and the first handler are given up. */
    method LeaveAttempt()
      requires Valid()
      modifies this`dns, path`origin, addrInfo
      ensures Valid() && parsers.Repr == old(parsers.Repr) && addrInfo.nodes == old(addrInfo.nodes)
      ensures AsConn() == old(AsConn()).(flow := ReleaseOrigin(old(path.AsFlow())), dns := old(dns).(addrInfo := []))
    {
      hide PS.ParserSlots.Valid, PS.ParserSlots.Hs, PS.ParserSlots.Au, PS.ParserSlots.Cr,
        PS.ParserSlots.Has, PS.ParserSlots.Empty, AddressSlot.Valid, AddressSlot.AsSeq,
        ReleaseOrigin;
      addrInfo.Free();
      dns := dns.(addrInfo := []);
      path.UnregisterOrigin();
    }

    /** `stm_handler_read`, which leads from CONNECTING to COPY. */
    method ToCopy(r: Send)
      requires Valid() && path.live && current == Some(CONNECTING)
      modifies this, path.Parts(), parsers, parsers.Repr, addrInfo
      ensures Valid() && Own() && OwnList() && path.live && CanDepart(stm) && current.Some?
      ensures AsConn() == ReadReady(old(AsConn()), r, Env(map[], Resolver(false, []), []))
    {
      hide PS.ParserSlots.Valid, PS.ParserSlots.Hs, PS.ParserSlots.Au, PS.ParserSlots.Cr,
        PS.ParserSlots.Has, PS.ParserSlots.Empty, AddressSlot.Valid, AddressSlot.AsSeq,
        ReadReady;
      ReadyToCopy(AsConn(), r);
      StmRead(r, Env(map[], Resolver(false, []), []));
    }

    // ---- Every event ----

    /** What holds between events. */
    ghost predicate Ready()
      reads this, path.Parts(), parsers, parsers.Repr, addrInfo, addrInfo.nodes
    {
      Valid() && (path.live ==> path.Compact()) && Inv(AsConn())
    }

    /** The selector's dispatch to the handlers of this connection. */
    method Dispatch(e: Event)
      requires Ready() && Socks5.Enabled(AsConn(), e) && WholeReply(AsConn(), e)
      modifies this, path.Parts(), parsers, parsers.Repr, addrInfo, addrInfo.nodes
      ensures Valid() && Own() && OwnList() && AsConn() == Step(old(AsConn()), e)
      ensures path.live && !broken ==> path.Compact()
    {
      hide PS.ParserSlots.Valid, PS.ParserSlots.Hs, PS.ParserSlots.Au, PS.ParserSlots.Cr,
        PS.ParserSlots.Has, PS.ParserSlots.Empty, AddressSlot.Valid, AddressSlot.AsSeq,
        Inv, ClientRead, ClientWrite, OriginRead, CopyWrite, ConnectDone, Block, Resolved, Readable, ChunkAlone, NotPipelined;
      ghost var c := AsConn();
      match e {
      case Io(ClientReadable(recv, send), env) =>
        if recv.Received? && path.inBuff.CanWrite() {
          ReadableMeans(c, recv, send, env);
        }
        Read(recv, send, env);
      case Io(ClientWritable(send), _) =>
        WritableMeans(c);
        Write(send);
      case Io(OriginReadable(recv, send), _) =>
        CopyHandlerMeansCopy(c);
        CopyReadHandler(recv, send);
      case Io(OriginWritable(send), _) =>
        CopyWriteHandler(send);
      case ConnectReady(failed, verdicts, fd, reply, send) =>
        ConnectingHandlerMeansConnecting(c);
        ConnectHandler(failed, verdicts, fd, reply, send);
      case ResolverDone(list) =>
        ResolvingMeans(c);
        ResolutionDone(list);
      case BlockNotified(verdicts, fd, reply, send) =>
        NotifiedInConnecting(c);
        BlockReady(verdicts, fd, reply, send);
      }
    }

    /** Every event on the object is the step of the model, and leaves it ready for the next. */
    method Handle(e: Event)
      requires Ready() && Socks5.Enabled(AsConn(), e) && WholeReply(AsConn(), e)
      modifies this, path.Parts(), parsers, parsers.Repr, addrInfo, addrInfo.nodes
      ensures Ready() && Own() && OwnList() && AsConn() == Step(old(AsConn()), e)
    {
      hide PS.ParserSlots.Valid, PS.ParserSlots.Hs, PS.ParserSlots.Au, PS.ParserSlots.Cr,
        PS.ParserSlots.Has, PS.ParserSlots.Empty, AddressSlot.Valid, AddressSlot.AsSeq,
        Inv, Step, Socks5.Enabled, WholeReply;
      StepKeeps(AsConn(), e);
      Dispatch(e);
      InvIsWhole(AsConn());
    }

    /** From its acceptance on, the object goes through the runs of Socks5.dfy. */
    method HandleAll(es: seq<Event>)
      requires Ready() && IsRun(AsConn(), es)
      modifies this, path.Parts(), parsers, parsers.Repr, addrInfo, addrInfo.nodes
      ensures Ready() && AsConn() == Run(old(AsConn()), es)
    {
      hide PS.ParserSlots.Valid, PS.ParserSlots.Hs, PS.ParserSlots.Au, PS.ParserSlots.Cr,
        PS.ParserSlots.Has, PS.ParserSlots.Empty, AddressSlot.Valid, AddressSlot.AsSeq,
        Inv, Step, Socks5.Enabled, WholeReply;
      for i := 0 to |es|
        invariant Ready() && Own() && OwnList() && IsRun(AsConn(), es[i..])
        invariant Run(AsConn(), es[i..]) == Run(old(AsConn()), es)
      {
        assert es[i..][0] == es[i] && es[i..][1..] == es[i + 1..];
        Handle(es[i]);
      }
    }
  }

  lemma {:induction false} WriteEnds(f: Flow, r: Send)
    requires f.live
    ensures var g := WriteToClient(f, r); !g.live ==> g == End(g) && !(f.outB != [] && SomeSent(r))
  {
  }

  lemma {:induction false} FedIsShorter(c: Conn, v: HS.Value)
    requires c.flow.inB != []
    ensures var d := FedGreeting(c, v);
      |d.flow.inB| == |c.flow.inB| - 1 && d.stm == c.stm.(hs := Some(v)) && d.flow.live == c.flow.live
  {
  }

  /** How the function for the loop unfolds. */
  lemma {:induction false} GreetingTurn(c: Conn, r: Send)
    requires c.flow.inB != []
    ensures HandshakeRead(c, r) ==
      if c.stm.hs.None? then (Break(c), ERROR)
      else
        var (v, report) := HS.Step(c.stm.hs.value, c.flow.inB[0]);
        var d := FedGreeting(c, v);
        if report == HS.State.ERROR then (d, ERROR)
        else if report != HS.State.DONE then HandshakeRead(d, r)
        else
          var e := AnswerGreeting(d, v, r);
          if e.flow.live then HandshakeRead(e, r) else (e.(resumed := true), CurrentOr(e, ERROR))
  {
    hide HS.Step, AnswerGreeting;
  }

  /** After the answer to a greeting the handshake parser exists only if the state has not moved on. */
  lemma {:induction false} AnswerStays(c: Conn, v: HS.Value, r: Send)
    requires c.stm.current == Some(HANDSHAKE) && c.stm.hs.Some? && c.flow.live
    ensures var e := AnswerGreeting(c, v, r);
      e.flow.live && e.stm.hs.Some? ==> e.stm.current == Some(HANDSHAKE)
  {
    hide SentToClient, Put, ReleaseOrigin, RegisterOrigin;
  }

  lemma {:induction false} JudgedIs(c: Conn, v: AU.Value, users: Users)
    ensures forall r :: AnswerCredentials(c, v, r, users) == ClientWrite(Judged(c, v, users), r)
    ensures Judged(c, v, users).flow.inB == [] && Judged(c, v, users).stm == c.stm && Judged(c, v, users).flow.live == c.flow.live
  {
    hide Accepts, ClientWrite;
  }

  lemma {:induction false} FedAuthIsShorter(c: Conn, v: AU.Value)
    requires c.flow.inB != []
    ensures var d := FedCredentials(c, v);
      |d.flow.inB| == |c.flow.inB| - 1 && d.stm == c.stm.(au := Some(v)) && d.flow.live == c.flow.live
  {
  }

  lemma {:induction false} CredentialsTurn(c: Conn, r: Send, users: Users)
    requires c.flow.inB != [] && c.stm.au.Some?
    ensures AuthRead(c, r, users) ==
      var v := AU.Step(c.stm.au.value, c.flow.inB[0]);
      var d := FedCredentials(c, v);
      if v.state == AU.State.DONE then
        var e := AnswerCredentials(d, v, r, users);
        (if e.flow.live then e else e.(resumed := true), CurrentOr(e, ERROR))
      else if v.state == AU.State.ERROR then (d, ERROR)
      else AuthRead(d, r, users)
  {
    hide AU.Step, AnswerCredentials;
  }

  lemma {:induction false} FedRequestIsShorter(c: Conn, v: CR.Value)
    requires c.flow.inB != []
    ensures var d := FedRequest(c, v);
      d.flow.inB == c.flow.inB[1..] && d.stm == c.stm.(cr := Some(v)) && d.flow.live == c.flow.live
  {
  }

  /** A request that is alone in its chunk leaves nothing behind, unless it is the end. */
  lemma {:induction false} RequestDrains(c: Conn, resolver: Resolver, reply: seq<byte>)
    requires c.stm.cr.Some? && RequestAlone(c.stm.cr.value, c.flow.inB)
    ensures var (e, next) := ConnReqRead(c, resolver, reply);
      e.flow.inB == [] || (next == ERROR && e.stm.current == c.stm.current && e.stm.cr.Some?)
    decreases |c.flow.inB|
  {
    hide CR.Step, DestinationOf, Put;
    if c.flow.inB != [] {
      var v := CR.Step(c.stm.cr.value, c.flow.inB[0]);
      if v.state !in {CR.State.DONE, CR.State.ERROR} {
        RequestDrains(FedRequest(c, v), resolver, reply);
      } else {
        AnswerKeeps(FedRequest(c, v), v, resolver, reply);
      }
    }
  }

  lemma {:induction false} ConnReqTurn(c: Conn, resolver: Resolver, reply: seq<byte>)
    requires c.flow.inB != [] && c.stm.cr.Some?
    ensures ConnReqRead(c, resolver, reply) ==
      var v := CR.Step(c.stm.cr.value, c.flow.inB[0]);
      var d := FedRequest(c, v);
      if v.state == CR.State.DONE then AnswerRequest(d, v, resolver, reply)
      else if v.state == CR.State.ERROR then (d, ERROR)
      else ConnReqRead(d, resolver, reply)
  {
    hide CR.Step, AnswerRequest;
  }

  lemma {:induction false} AnswerKeeps(c: Conn, v: CR.Value, resolver: Resolver, reply: seq<byte>)
    ensures var e := AnswerRequest(c, v, resolver, reply).0; e.flow.inB == c.flow.inB && e.stm == c.stm
  {
  }

  lemma {:induction false} WriteToOriginEnds(f: Flow, r: Send)
    requires f.live
    ensures var g := WriteToOrigin(f, r); !g.live ==> g == End(g)
  {
  }

  lemma {:induction false} SetOriginLives(f: Flow)
    ensures forall i :: SetOrigin(f, i).live == f.live
  {
  }

  lemma {:induction false} ReadStays(f: Flow)
    ensures forall i :: SetOrigin(f, i).live == f.live
    ensures forall bytes :: FromOrigin(f, bytes).live == f.live
    ensures ReleaseOrigin(f).live == f.live && ReleaseOrigin(f).io == f.io
  {
  }

  lemma {:induction false} CloseOnce(c: Conn)
    ensures Close(c.(flow := End(c.flow))) == Close(c)
  {
  }

  /** A chunk of the negotiation that does not go past a request. */
  predicate ChunkAlone(c: Conn) {
    && c.stm.current in {None, Some(HANDSHAKE), Some(AUTH), Some(CONNECTION_REQ)}
    && (c.stm.current == Some(CONNECTION_REQ) && c.stm.cr.Some? ==> RequestAlone(c.stm.cr.value, c.flow.inB))
  }

  /** The state's parser is there. */
  predicate Readable(c: Conn) {
    match c.stm.current
    case Some(HANDSHAKE) => c.stm.hs.Some?
    case Some(AUTH) => c.stm.au.Some?
    case Some(CONNECTION_REQ) => c.stm.cr.Some?
    case Some(COPY) => c.flow.originFd != 0
    case _ => true
  }

  lemma {:induction false} JumpKeepsFlags(c: Conn, next: State)
    ensures (c.broken ==> Jump(c, next).broken) && (!c.flow.live ==> !Jump(c, next).flow.live)
  {
    hide Jumped, CanDepart;
  }

  /** The first event only enters HANDSHAKE. */
  lemma {:induction false} FirstMeans(c: Conn)
    requires Readable(c)
    ensures var d := HandleFirst(c);
      && d.flow == c.flow && d.stm.current.Some? && Readable(d) && (ChunkAlone(c) ==> ChunkAlone(d))
      && (d.stm.current == Some(COPY) <==> c.stm.current == Some(COPY))
  {
    hide RequestAlone;
  }

  lemma {:induction false} PutReplyLives(f: Flow, reply: seq<byte>)
    ensures PutReply(f, reply).live == f.live
  {
  }

  lemma {:induction false} NoneFails(verdicts: seq<Attempt>)
    ensures verdicts == [] ==> ConnectTo([], verdicts).result == CONNECTION_FAILED
  {
  }

  lemma {:induction false} ReadyToCopy(c: Conn, r: Send)
    requires c.flow.live && c.stm.current == Some(CONNECTING)
    ensures var d := ReadReady(c, r, Env(map[], Resolver(false, []), []));
      d.flow.live && CanDepart(d.stm) && d.stm.current.Some?
  {
  }

  lemma {:induction false} InvIsWhole(c: Conn)
    requires Inv(c)
    ensures !c.broken
  {
  }

  lemma {:induction false} ReadableMeans(c: Conn, recv: Recv, r: Send, env: Env)
    requires Inv(c) && Socks5.Enabled(c, Io(ClientReadable(recv, r), env)) && recv.Received? && |c.flow.inB| < c.flow.cap
    ensures Readable(Gained(c, recv.bytes))
    ensures c.stm.current != Some(COPY) ==> c.flow.inB == [] && ChunkAlone(Gained(c, recv.bytes))
  {
    hide GreetingAlone, RequestAlone;
    assert [] + recv.bytes == recv.bytes;
    if c.stm.current == Some(COPY) {
      CopyIsRelay(c);
      hide Inv;
    } else {
      BetweenChunks(c);
      hide Inv;
    }
  }

  lemma {:induction false} WritableMeans(c: Conn)
    requires Inv(c) && c.flow.live && c.flow.client == WRITE
    ensures c.stm.current.Some? && CanDepart(c.stm)
  {
  }

  lemma {:induction false} ResolvingMeans(c: Conn)
    requires Inv(c) && c.dns.resolving > 0
    ensures c.flow.live
  {
  }
}
