// src/server/utils/netutils.c, connect_to_host: walking, cutting and releasing the resolver's list.
module AddressFallback {
  /** The address of one `addrinfo`. */
  type Endpoint = nat

  /** What a non-blocking `connect` says at once; or there is no socket for it, as when a process has all
      the descriptors it may have. */
  datatype Attempt = Connected | InProgress | Refused | NoSocket

  datatype Result = CONNECTION_SUCCESS | CONNECTION_IN_PROGRESS | CONNECTION_FAILED

  /** Which addresses a call tried and which it leaves for a retry. Without a socket the call returns -1,
      the number of CONNECTION_IN_PROGRESS, and leaves the whole list. */
  datatype Outcome = Outcome(result: Result, tried: seq<Endpoint>, kept: seq<Endpoint>, hasSocket: bool)

  /** One verdict per address, used as far as the walk gets. */
  function ConnectTo(list: seq<Endpoint>, verdicts: seq<Attempt>): Outcome
    requires |verdicts| == |list|
  {
    if list == [] then Outcome(CONNECTION_FAILED, [], [], true)
    else match verdicts[0]
      case Connected => Outcome(CONNECTION_SUCCESS, [list[0]], [], true)
      case InProgress => Outcome(CONNECTION_IN_PROGRESS, [list[0]], list[1..], true)
      case NoSocket => Outcome(CONNECTION_IN_PROGRESS, [], list, false)
      case Refused =>
        var o := ConnectTo(list[1..], verdicts[1..]);
        o.(tried := [list[0]] + o.tried, kept := if o.hasSocket then o.kept else list)
  }

  /** Can the call leave this number in its caller's descriptor? */
  predicate SocketIs(list: seq<Endpoint>, verdicts: seq<Attempt>, fd: int)
    requires |verdicts| == |list|
  {
    if ConnectTo(list, verdicts).hasSocket then fd > 0 else fd == -1
  }

  /** `struct addrinfo` */
  class AddrInfo {
    const addr: Endpoint
    var next: AddrInfo?

    constructor (addr: Endpoint, next: AddrInfo?)
      ensures this.addr == addr && this.next == next
    {
      this.addr, this.next := addr, next;
    }
  }

  /** The nodes of `spine` are different and linked in order from `head` to null. */
  ghost predicate IsList(head: AddrInfo?, spine: seq<AddrInfo>)
    reads spine
  {
    && head == Nth(spine, 0)
    && (forall i, j :: 0 <= i < |spine| && j == i + 1 ==> spine[i].next == Nth(spine, j))
    && (forall i, j :: 0 <= i < j < |spine| ==> spine[i] != spine[j])
  }

  ghost function Nth(spine: seq<AddrInfo>, i: nat): AddrInfo? {
    if i < |spine| then spine[i] else null
  }

  ghost function Addrs(spine: seq<AddrInfo>): seq<Endpoint> {
    seq(|spine|, i requires 0 <= i < |spine| => spine[i].addr)
  }

  /** The list that a resolution returns. */
  method ListOf(addrs: seq<Endpoint>) returns (head: AddrInfo?, ghost spine: seq<AddrInfo>)
    ensures IsList(head, spine) && Addrs(spine) == addrs && fresh(spine)
    decreases |addrs|
  {
    if addrs == [] {
      return null, [];
    }
    var next: AddrInfo?, rest := ListOf(addrs[1..]);
    var node := new AddrInfo(addrs[0], next);
    spine := [node] + rest;
    forall i, j | 0 <= i < |spine| && j == i + 1
      ensures spine[i].next == Nth(spine, j)
    {
      assert i > 0 ==> spine[i] == rest[i - 1] && rest[i - 1].next == Nth(rest, i);
    }
    assert Addrs(spine) == [addrs[0]] + Addrs(rest);
    return node, spine;
  }

  /** `freeaddrinfo`: releases every node it can reach. */
  method FreeAddrInfo(head: AddrInfo?, ghost spine: seq<AddrInfo>) returns (ghost released: seq<AddrInfo>)
    requires IsList(head, spine)
    ensures released == spine
  {
    var p := head;
    ghost var k := 0;
    while p != null
      invariant 0 <= k <= |spine| && p == Nth(spine, k)
      decreases |spine| - k
    {
      p := p.next;
      k := k + 1;
    }
    released := spine[..k];
  }

  /** The walk of `connect_to_host`, up to the first address that is not refused. */
  method Walk(res: AddrInfo?, verdicts: seq<Attempt>, ghost spine: seq<AddrInfo>) returns (rp: AddrInfo?, k: nat)
    requires IsList(res, spine) && |verdicts| == |spine|
    ensures k <= |spine| && rp == Nth(spine, k)
    ensures StopsAt(verdicts, k)
  {
    rp, k := res, 0;
    while rp != null && verdicts[k] == Refused
      invariant k <= |spine| && rp == Nth(spine, k)
      invariant forall j :: 0 <= j < k ==> verdicts[j] == Refused
      decreases |spine| - k
    {
      rp := rp.next;
      k := k + 1;
    }
  }

  predicate StopsAt(verdicts: seq<Attempt>, k: nat) {
    && k <= |verdicts|
    && (forall j :: 0 <= j < k ==> verdicts[j] == Refused)
    && (k < |verdicts| ==> verdicts[k] != Refused)
  }

  function FirstNotRefused(verdicts: seq<Attempt>): (k: nat)
    ensures StopsAt(verdicts, k)
  {
    if verdicts == [] || verdicts[0] != Refused then 0 else FirstNotRefused(verdicts[1..]) + 1
  }

  lemma {:induction false} StopDecides(list: seq<Endpoint>, verdicts: seq<Attempt>, k: nat)
    requires |verdicts| == |list| && StopsAt(verdicts, k)
    ensures ConnectTo(list, verdicts) ==
      if k == |list| then Outcome(CONNECTION_FAILED, list, [], true)
      else if verdicts[k] == Connected then Outcome(CONNECTION_SUCCESS, list[..k + 1], [], true)
      else if verdicts[k] == InProgress then Outcome(CONNECTION_IN_PROGRESS, list[..k + 1], list[k + 1..], true)
      else Outcome(CONNECTION_IN_PROGRESS, list[..k], list, false)
    decreases k
  {
    if k > 0 {
      StopDecides(list[1..], verdicts[1..], k - 1);
      assert [list[0]] + list[1..] == list;
      if k < |list| {
        assert [list[0]] + list[1..][..k] == list[..k + 1] && list[1..][k..] == list[k + 1..];
        assert [list[0]] + list[1..][..k - 1] == list[..k];
      }
    }
  }

  function AllRefused(n: nat): seq<Attempt> { seq(n, _ => Refused) }

  lemma {:induction false} AllRefusedHaveSockets(list: seq<Endpoint>)
    ensures ConnectTo(list, AllRefused(|list|)).hasSocket
  {
    StopDecides(list, AllRefused(|list|), |list|);
  }

  lemma {:induction false} TailIsList(head: AddrInfo?, spine: seq<AddrInfo>, k: nat)
    requires IsList(head, spine) && k < |spine|
    ensures IsList(spine[k].next, spine[k + 1..]) && spine[k] !in spine[k + 1..]
  {
    var back := spine[k + 1..];
    forall i, j | 0 <= i < |back| && j == i + 1
      ensures back[i].next == Nth(back, j)
    {
      assert spine[k + 1 + i].next == Nth(spine, k + 1 + j);
    }
    assert spine[k].next == Nth(spine, k + 1) == Nth(back, 0);
  }

  /** The list splits at the address in progress: what was walked is cut off and released, and the
      rest is kept. Without a socket all of it is kept, and any other result releases everything. */
  method ConnectToHost(res: AddrInfo?, verdicts: seq<Attempt>, ghost spine: seq<AddrInfo>)
    returns (result: Result, kept: AddrInfo?, ghost released: seq<AddrInfo>, ghost keptSpine: seq<AddrInfo>)
    requires IsList(res, spine) && |verdicts| == |spine|
    modifies spine
    ensures result == ConnectTo(Addrs(spine), verdicts).result
    ensures released + keptSpine == spine && IsList(kept, keptSpine)
    ensures Addrs(keptSpine) == ConnectTo(Addrs(spine), verdicts).kept
    ensures result == CONNECTION_IN_PROGRESS ==>
      var o := ConnectTo(Addrs(spine), verdicts); Addrs(released) == if o.hasSocket then o.tried else []
    ensures result != CONNECTION_IN_PROGRESS ==> kept == null && released == spine
  {
    var rp, k := Walk(res, verdicts, spine);
    StopDecides(Addrs(spine), verdicts, k);
    if rp != null && verdicts[k] == Connected {
      released := FreeAddrInfo(res, spine);
      return CONNECTION_SUCCESS, null, released, [];
    } else if rp != null && verdicts[k] == NoSocket {
      return CONNECTION_IN_PROGRESS, res, [], spine;
    } else if rp != null {
      kept := rp.next;
      ghost var front, back := spine[..k + 1], spine[k + 1..];
      TailIsList(res, spine, k);
      rp.next := null;
      forall i, j | 0 <= i < |front| && j == i + 1
        ensures front[i].next == Nth(front, j)
      {
        assert i < k ==> spine[i] != spine[k] && old(spine[i].next) == Nth(spine, j);
      }
      released := FreeAddrInfo(res, front);
      return CONNECTION_IN_PROGRESS, kept, released, back;
    }
    released := [];
    if res != null {
      released := FreeAddrInfo(res, spine);
    }
    return CONNECTION_FAILED, null, released, [];
  }

  /** `conn->addr_info` */
  class AddressSlot {
    var head: AddrInfo?
    ghost var spine: seq<AddrInfo>
    ghost var nodes: set<AddrInfo>

    ghost predicate Valid()
      reads this, nodes
    {
      (forall n :: n in spine ==> n in nodes) && IsList(head, spine)
    }

    ghost function AsSeq(): seq<Endpoint>
      reads this
    {
      Addrs(spine)
    }

    constructor ()
      ensures Valid() && nodes == {} && AsSeq() == []
    {
      head, spine, nodes := null, [], {};
    }

    predicate IsNull()
      reads this, nodes
      requires Valid()
      ensures IsNull() <==> AsSeq() == []
    {
      head == null
    }

    method Free()
      requires Valid()
      modifies this
      ensures Valid() && nodes == old(nodes) && AsSeq() == []
    {
      if head != null {
        var _ := FreeAddrInfo(head, spine);
      }
      head, spine := null, [];
    }

    method Store(addrs: seq<Endpoint>)
      requires Valid()
      modifies this
      ensures Valid() && fresh(nodes - old(nodes)) && AsSeq() == addrs
    {
      head, spine := ListOf(addrs);
      nodes := nodes + set n | n in spine;
    }

    method Connect(verdicts: seq<Attempt>) returns (result: Result)
      requires Valid() && |verdicts| == |AsSeq()|
      modifies this, nodes
      ensures Valid() && nodes == old(nodes)
      ensures result == ConnectTo(old(AsSeq()), verdicts).result && AsSeq() == ConnectTo(old(AsSeq()), verdicts).kept
    {
      ghost var released;
      result, head, released, spine := ConnectToHost(head, verdicts, spine);
    }
  }

  // ---- The first connection and all the retries ----

  /** A call tries the addresses in order and keeps exactly what it has not tried, if anything. */
  lemma {:induction false} TriedIsPrefix(list: seq<Endpoint>, verdicts: seq<Attempt>)
    requires |verdicts| == |list|
    ensures var o := ConnectTo(list, verdicts);
      && o.tried <= list
      && (o.result == CONNECTION_IN_PROGRESS && o.hasSocket ==> o.tried + o.kept == list && |o.kept| < |list|)
      && (!o.hasSocket ==> o.result == CONNECTION_IN_PROGRESS && o.kept == list != [])
      && (o.result == CONNECTION_FAILED ==> o.tried == list)
      && (o.result != CONNECTION_IN_PROGRESS ==> o.kept == [])
  {
    var k := FirstNotRefused(verdicts);
    StopDecides(list, verdicts, k);
    hide ConnectTo;
    if k < |list| {
      assert list[..k + 1] + list[k + 1..] == list && list[..k] <= list;
    }
  }

  /** The verdicts of the successive calls, each on what the one before kept. Without a socket there is
      nothing to wait for, and so no other call. */
  predicate Rounds(list: seq<Endpoint>, rounds: seq<seq<Attempt>>)
    decreases |rounds|
  {
    rounds == [] ||
    (|rounds[0]| == |list| &&
     var o := ConnectTo(list, rounds[0]); (o.hasSocket || |rounds| == 1) && Rounds(o.kept, rounds[1..]))
  }

  function AllTried(list: seq<Endpoint>, rounds: seq<seq<Attempt>>): seq<Endpoint>
    requires Rounds(list, rounds)
    decreases |rounds|
  {
    if rounds == [] then []
    else var o := ConnectTo(list, rounds[0]); o.tried + AllTried(o.kept, rounds[1..])
  }

  predicate Distinct(s: seq<Endpoint>) {
    forall i, j :: 0 <= i < j < |s| ==> s[i] != s[j]
  }

  /** Over the first connection and every retry, the addresses tried are a prefix of the resolver's
      list, in its order; so none is tried twice unless it was listed twice. */
  lemma {:induction false} FallbackInOrder(list: seq<Endpoint>, rounds: seq<seq<Attempt>>)
    requires Rounds(list, rounds)
    ensures AllTried(list, rounds) <= list
    ensures Distinct(list) ==> Distinct(AllTried(list, rounds))
    decreases |rounds|
  {
    if rounds != [] {
      var o := ConnectTo(list, rounds[0]);
      TriedIsPrefix(list, rounds[0]);
      FallbackInOrder(o.kept, rounds[1..]);
      if o.result != CONNECTION_IN_PROGRESS {
        assert AllTried(o.kept, rounds[1..]) == [];
      }
    }
  }

  /** A retry always has fewer addresses left, so there are at most as many calls as addresses. */
  lemma {:induction false} RetriesRunOut(list: seq<Endpoint>, rounds: seq<seq<Attempt>>)
    requires Rounds(list, rounds)
    requires forall i :: 0 <= i < |rounds| ==> rounds[i] != []
    ensures |rounds| <= |list|
    decreases |rounds|
  {
    if rounds != [] {
      TriedIsPrefix(list, rounds[0]);
      RetriesRunOut(ConnectTo(list, rounds[0]).kept, rounds[1..]);
    }
  }
}
