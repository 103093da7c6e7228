// What the handlers pass to `close`, and when they pass the same number twice:
// src/server/socks5/states_handlers/socks5_connecting.c:93-117, src/server/utils/netutils.c:142-180,
// src/server/socks5/socks5.c:183-195.
module Closing {
  import opened AddressFallback
  import opened Socks5
  import opened Invariant
  import Aftermath
  import Outcomes

  datatype Call = Opens(fd: int) | Closes(fd: int)

  /** Is a number closed that has been closed, and not opened since? `closed` are those at the start. */
  predicate Twice(calls: seq<Call>, closed: set<int>)
    decreases |calls|
  {
    calls != [] &&
    match calls[0]
    case Opens(fd) => Twice(calls[1..], closed - {fd})
    case Closes(fd) => fd in closed || Twice(calls[1..], closed + {fd})
  }

  /** The last socket of `connect_to_host`. Those of addresses refused before it were opened and closed in
      turn. */
  function Walk(list: seq<Endpoint>, verdicts: seq<Attempt>, fd: int): seq<Call>
    requires |verdicts| == |list|
  {
    var o := ConnectTo(list, verdicts);
    if list == [] || !o.hasSocket then []
    else if o.result == CONNECTION_FAILED then [Opens(fd), Closes(fd)]
    else [Opens(fd)]
  }

  /** `socksv5_close` */
  function AtEnd(a: int, originFd: int): seq<Call> {
    [Closes(a)] + if originFd > 0 then [Closes(originFd)] else []
  }

  /** `handle_write_connecting` after a failed attempt. */
  function RetryCalls(originFd: int, list: seq<Endpoint>, verdicts: seq<Attempt>, fd: int): seq<Call>
    requires |verdicts| == |list|
  {
    [Closes(originFd)] + Walk(list, verdicts, fd)
    + if ConnectTo(list, verdicts).result == CONNECTION_IN_PROGRESS then []
      else [Closes(if list == [] then originFd else fd)]
  }

  /** What an event of the connection whose client has descriptor a opens and closes. */
  function Calls(a: int, c: Conn, e: Event): seq<Call>
    requires Enabled(c, e)
  {
    var ended := c.flow.live && !Step(c, e).flow.live;
    match e
    case ConnectReady(failed, verdicts, fd, _, _) =>
      if failed then RetryCalls(c.flow.originFd, c.dns.addrInfo, verdicts, fd)
      else if ended then AtEnd(a, c.flow.originFd) else []
    case BlockNotified(verdicts, fd, _, _) =>
      Walk(c.dns.addrInfo, verdicts, fd)
      + if ended then AtEnd(a, if c.dns.addrInfo == [] then c.flow.originFd else fd) else []
    case _ => if ended then AtEnd(a, c.flow.originFd) else []
  }

  /** An event closes a number twice if and only if it is a failed attempt, or a notification with
      addresses, after which no address is left and none was connected to. */
  lemma {:induction false} ClosesTwiceExactly(a: int, c: Conn, e: Event)
    requires Inv(c) && Enabled(c, e) && WholeReply(c, e) && a > 0 && a != c.flow.originFd
    requires e.BlockNotified? ==> e.fd != a
    requires e.ConnectReady? && e.failed ==> e.fd != a
    ensures Twice(Calls(a, c, e), {}) <==>
      match e
      case ConnectReady(failed, verdicts, _, _, _) =>
        failed && ConnectTo(c.dns.addrInfo, verdicts).result == CONNECTION_FAILED
      case BlockNotified(verdicts, _, _, _) =>
        c.dns.addrInfo != [] && ConnectTo(c.dns.addrInfo, verdicts).result == CONNECTION_FAILED
      case _ => false
  {
    hide Inv, React, ConnectDone, Block, ConnectTo;
    match e
    case Io(io, env) => OnceAtEnd(a, c.flow.originFd);
    case ResolverDone(list) => OnceAtEnd(a, c.flow.originFd);
    case ConnectReady(failed, verdicts, fd, reply, send) =>
      if failed {
        RetryTwice(c.flow.originFd, c.dns.addrInfo, verdicts, fd);
      } else {
        OnceAtEnd(a, c.flow.originFd);
      }
    case BlockNotified(verdicts, fd, reply, send) =>
      Aftermath.Notification(c);
      Outcomes.BlockFate(c, verdicts, fd, reply, send);
      if c.dns.addrInfo != [] {
        BlockTwice(a, c.dns.addrInfo, verdicts, fd);
        assert Walk(c.dns.addrInfo, verdicts, fd) + [] == Walk(c.dns.addrInfo, verdicts, fd);
      }
  }

  lemma {:induction false} OnceAtEnd(a: int, originFd: int)
    requires a != originFd
    ensures !Twice(AtEnd(a, originFd), {}) && !Twice([], {})
  {
    var calls := AtEnd(a, originFd);
    assert calls[1..] == (if originFd > 0 then [Closes(originFd)] else []) && [Closes(originFd)][1..] == [];
    assert !Twice([], {} + {a} + {originFd}) && !Twice([], {} + {a});
    assert !Twice([Closes(originFd)], {} + {a});
  }

  lemma {:induction false} ClosedAgain(m: int)
    ensures Twice([Closes(m), Closes(m)], {}) && !Twice([Closes(m)], {})
  {
    assert [Closes(m), Closes(m)][1..] == [Closes(m)] && [Closes(m)][1..] == [];
    assert Twice([Closes(m)], {} + {m});
  }

  lemma {:induction false} ReplacedOnce(m: int, fd: int)
    ensures !Twice([Closes(m), Opens(fd)], {}) && !Twice([Closes(m), Opens(fd), Closes(fd)], {})
  {
    var n, x := Opens(fd), Closes(fd);
    assert [Closes(m), n][1..] == [n] && [Closes(m), n, x][1..] == [n, x] && [n, x][1..] == [x] && [n][1..] == [] && [x][1..] == [];
    assert !Twice([x], {} + {m} - {fd});
    assert !Twice([n, x], {} + {m}) && !Twice([n], {} + {m});
  }

  lemma {:induction false} ReplacedTwice(m: int, fd: int)
    ensures Twice([Closes(m), Opens(fd), Closes(fd), Closes(fd)], {})
  {
    var n, x := Opens(fd), Closes(fd);
    assert [Closes(m), n, x, x][1..] == [n, x, x] && [n, x, x][1..] == [x, x] && [x, x][1..] == [x];
    assert Twice([x], {} + {m} - {fd} + {fd});
    assert Twice([x, x], {} + {m} - {fd});
    assert Twice([n, x, x], {} + {m});
  }

  lemma {:induction false} RetryTwice(originFd: int, list: seq<Endpoint>, verdicts: seq<Attempt>, fd: int)
    requires |verdicts| == |list|
    ensures Twice(RetryCalls(originFd, list, verdicts, fd), {}) <==> ConnectTo(list, verdicts).result == CONNECTION_FAILED
  {
    TriedIsPrefix(list, verdicts);
    ClosedAgain(originFd);
    ReplacedOnce(originFd, fd);
    ReplacedTwice(originFd, fd);
    hide ConnectTo, Twice;
    var o, calls := ConnectTo(list, verdicts), RetryCalls(originFd, list, verdicts, fd);
    var m, n, x := Closes(originFd), Opens(fd), Closes(fd);
    assert calls ==
      if list == [] then [m, m]
      else if !o.hasSocket then [m]
      else if o.result == CONNECTION_FAILED then [m, n, x, x]
      else if o.result == CONNECTION_IN_PROGRESS then [m, n]
      else [m, n, x];
  }

  lemma {:induction false} EndedOnce(a: int, fd: int)
    requires a != fd
    ensures !Twice([Opens(fd)], {}) && !Twice([Closes(a)], {}) && !Twice([Opens(fd), Closes(a), Closes(fd)], {})
  {
    var n, x, y := Opens(fd), Closes(fd), Closes(a);
    assert [n, y, x][1..] == [y, x] && [y, x][1..] == [x] && [x][1..] == [] && [y][1..] == [] && [n][1..] == [];
    assert !Twice([x], {} - {fd} + {a});
    assert !Twice([y, x], {} - {fd});
  }

  lemma {:induction false} EndedTwice(a: int, fd: int)
    ensures Twice([Opens(fd), Closes(fd), Closes(a), Closes(fd)], {})
  {
    var n, x, y := Opens(fd), Closes(fd), Closes(a);
    assert [n, x, y, x][1..] == [x, y, x] && [x, y, x][1..] == [y, x] && [y, x][1..] == [x];
    assert Twice([x], {} - {fd} + {fd} + {a});
    assert Twice([y, x], {} - {fd} + {fd});
    assert Twice([x, y, x], {} - {fd});
  }

  lemma {:induction false} BlockTwice(a: int, list: seq<Endpoint>, verdicts: seq<Attempt>, fd: int)
    requires |verdicts| == |list| && list != [] && a != fd && SocketIs(list, verdicts, fd)
    ensures ConnectTo(list, verdicts).result != CONNECTION_FAILED ==> !Twice(Walk(list, verdicts, fd), {})
    ensures Twice(Walk(list, verdicts, fd) + AtEnd(a, fd), {}) <==> ConnectTo(list, verdicts).result == CONNECTION_FAILED
  {
    TriedIsPrefix(list, verdicts);
    EndedOnce(a, fd);
    EndedTwice(a, fd);
    assert !Twice([], {});
    var o := ConnectTo(list, verdicts);
    hide ConnectTo, Twice;
    var n, x, y := Opens(fd), Closes(fd), Closes(a);
    assert Walk(list, verdicts, fd) + AtEnd(a, fd) ==
      if !o.hasSocket then [y] else if o.result == CONNECTION_FAILED then [n, x, y, x] else [n, y, x];
  }
}
