// The data path's own slots are the selector's table: what Relay.dfy does to the slots of one connection is
// what `selector_set_interest`, `selector_unregister_fd` and `selector_register` do to the table of all of
// them (src/server/utils/selector.c:341-430).
module SelectorCalls {
  import opened Relay
  import opened Invariant
  import opened Resolver
  import opened Descriptors
  import Socks5
  import S = Selector

  function With(conns: map<int, Conn>, a: int, f: Flow): map<int, Conn>
    requires a in conns
  {
    conns[a := conns[a].(flow := f)]
  }

  /** A live connection whose slots the selector can have. */
  predicate Registrable(conns: map<int, Conn>, a: int) {
    && Disjoint(conns) && a in conns && conns[a].flow.live && ValidFd(a)
    && (conns[a].flow.origin.Registered? ==> ValidFd(conns[a].flow.origin.fd) && conns[a].flow.origin.fd > 0)
  }

  lemma {:induction false} StaysDisjoint(conns: map<int, Conn>, a: int, f: Flow)
    requires Disjoint(conns) && a in conns && conns[a].flow.live && OriginNumbers(f) <= OriginNumbers(conns[a].flow)
    ensures Disjoint(With(conns, a, f)) && Held(With(conns, a, f), a) <= Held(conns, a)
  {
    var after := With(conns, a, f);
    forall b | b in conns && b != a
      ensures Held(after, b) == Held(conns, b) && Held(after, b) !! Held(after, a)
    {
      assert Held(conns, a) !! Held(conns, b);
    }
    hide Held, OriginNumbers;
    ReplaceIsDisjoint(conns, after, a);
  }

  lemma {:induction false} NobodyElse(conns: map<int, Conn>, after: map<int, Conn>, a: int, fd: int)
    requires Disjoint(conns) && Disjoint(after) && a in conns && a in after && after == conns[a := after[a]]
    requires fd in Held(conns, a) && fd !in Held(after, a)
    ensures fd !in Table(after) && fd !in Slots(a, after[a])
  {
    assert forall b | b in after :: b > 0;
    hide Disjoint, Slots, OriginNumbers;
    if fd in Slots(a, after[a]) {
      SlotsAreHeld(after, a, fd);
    }
    if fd in Table(after) {
      var b :| b in after && fd in Slots(b, after[b]) && Table(after)[fd] == Slots(b, after[b])[fd];
      SlotsAreHeld(after, b, fd);
      assert fd in Held(conns, b);
      HeldByOne(conns, a, b, fd);
    }
  }

  lemma {:induction false} EntryStays(conns: map<int, Conn>, after: map<int, Conn>, a: int, fd: int)
    requires Disjoint(conns) && Disjoint(after) && (forall b | b in conns && b != a :: b in after && after[b] == conns[b])
    requires fd !in Held(conns, a) && fd in Table(conns)
    ensures fd in Table(after) && Table(after)[fd] == Table(conns)[fd]
  {
    assert forall b | b in conns :: b > 0;
    hide Disjoint, Slots, OriginNumbers, Held;
    var b :| b in conns && fd in Slots(b, conns[b]) && Table(conns)[fd] == Slots(b, conns[b])[fd];
    SlotsAreHeld(conns, b, fd);
    hide Table;
    SlotOfAny(after, b, fd);
  }

  lemma {:induction false} SlotOfAny(conns: map<int, Conn>, b: int, fd: int)
    requires Disjoint(conns) && b in conns && fd in Slots(b, conns[b])
    ensures fd in Table(conns) && Table(conns)[fd] == Slots(b, conns[b])[fd]
  {
    SlotsAreHeld(conns, b, fd);
    SlotOf(conns, b, fd);
  }

  /** One connection's slots change: those numbers are as they are there, and all others as before. */
  lemma {:induction false} TableAt(conns: map<int, Conn>, a: int, f: Flow, fd: int)
    requires Disjoint(conns) && a in conns && conns[a].flow.live && OriginNumbers(f) <= OriginNumbers(conns[a].flow)
    ensures var after := With(conns, a, f);
      && Disjoint(after)
      && var own := if fd in Held(conns, a) then Slots(a, after[a]) else Table(conns);
      (fd in Table(after) <==> fd in own) && (fd in own ==> Table(after)[fd] == own[fd])
  {
    var after := With(conns, a, f);
    StaysDisjoint(conns, a, f);
    assert forall b | b in conns :: b > 0;
    hide Disjoint, Slots, OriginNumbers;
    if fd in Held(after, a) {
      SlotOf(after, a, fd);
    } else if fd in Held(conns, a) {
      NobodyElse(conns, after, a, fd);
    } else {
      if fd in Table(conns) {
        EntryStays(conns, after, a, fd);
      }
      if fd in Table(after) {
        EntryStays(after, conns, a, fd);
      }
    }
  }

  /** `selector_set_interest(s, client_fd, i)` */
  lemma {:induction false} SetClientIs(conns: map<int, Conn>, a: int, i: Interest)
    requires Registrable(conns, a)
    ensures var after := With(conns, a, SetClient(conns[a].flow, i));
      Disjoint(after) && Table(after) == S.Apply(Table(conns), S.SetInterest(a, Interests(i))).0
  {
    Changed(conns, a, SetClient(conns[a].flow, i), S.SetInterest(a, Interests(i)));
  }

  /** `selector_set_interest(s, origin_fd, i)` */
  lemma {:induction false} SetOriginIs(conns: map<int, Conn>, a: int, i: Interest)
    requires Registrable(conns, a)
    ensures var f := conns[a].flow;
      var after := With(conns, a, SetOrigin(f, i));
      Disjoint(after) && Table(after) == S.Apply(Table(conns), S.SetInterest(f.originFd, Interests(i))).0
  {
    Changed(conns, a, SetOrigin(conns[a].flow, i), S.SetInterest(conns[a].flow.originFd, Interests(i)));
  }

  /** `selector_unregister_fd(s, origin_fd)` */
  lemma {:induction false} ReleaseOriginIs(conns: map<int, Conn>, a: int)
    requires Registrable(conns, a)
    ensures var f := conns[a].flow;
      var after := With(conns, a, ReleaseOrigin(f));
      Disjoint(after) && Table(after) == S.Apply(Table(conns), S.Unregister(f.originFd)).0
  {
    Changed(conns, a, ReleaseOrigin(conns[a].flow), S.Unregister(conns[a].flow.originFd));
  }

  /** `selector_register(s, origin_fd, handler, i, conn)`, where no slot has been left behind. */
  lemma {:induction false} RegisterOriginIs(conns: map<int, Conn>, a: int, handler: Handler, i: Interest)
    requires Registrable(conns, a) && Socks5.Pollable(conns[a].flow) && conns[a].flow.originFd != 0
    ensures var f := conns[a].flow;
      var after := With(conns, a, RegisterOrigin(f, handler, i));
      Disjoint(after) && Table(after) == S.Apply(Table(conns), S.Register(f.originFd, Interests(i), a)).0
  {
    RegisterSlots(conns[a], a, handler, i);
    hide Disjoint, Slots, Table, OriginNumbers, RegisterOrigin, S.Apply;
    Changed(conns, a, RegisterOrigin(conns[a].flow, handler, i), S.Register(conns[a].flow.originFd, Interests(i), a));
  }

  lemma {:induction false} RegisterSlots(c: Conn, a: nat, handler: Handler, i: Interest)
    requires c.flow.live && a > 0 && Socks5.Pollable(c.flow) && c.flow.originFd != 0 && a !in OriginNumbers(c.flow)
    ensures var g := RegisterOrigin(c.flow, handler, i);
      && OriginNumbers(g) <= OriginNumbers(c.flow) && (c.flow.originFd > 0 ==> c.flow.originFd in OriginNumbers(c.flow))
      && Slots(a, c.(flow := g)) == S.Apply(Slots(a, c), S.Register(c.flow.originFd, Interests(i), a)).0
  {
  }

  /** Both sockets of a connection are unregistered at its end. */
  lemma {:induction false} EndIs(conns: map<int, Conn>, a: int)
    requires Registrable(conns, a) && Releasable(conns[a].flow)
    ensures var f := conns[a].flow;
      var after := With(conns, a, End(f));
      Disjoint(after) &&
      Table(after) ==
        var t := if f.originFd > 0 then S.Apply(Table(conns), S.Unregister(f.originFd)).0 else Table(conns);
        S.Apply(t, S.Unregister(a)).0
  {
    var f := conns[a].flow;
    var g := if f.originFd > 0 then ReleaseOrigin(f) else f;
    var between := With(conns, a, g);
    EndSlots(conns[a], a);
    WithTwice(conns, a, g, End(f));
    hide Table, Slots, Disjoint, Held, OriginNumbers, End, S.Apply, With, Releasable;
    if f.originFd > 0 {
      ReleaseOriginIs(conns, a);
    }
    hide ReleaseOrigin;
    Changed(between, a, End(f), S.Unregister(a));
  }

  lemma {:induction false} WithTwice(conns: map<int, Conn>, a: int, g: Flow, f: Flow)
    requires a in conns
    ensures var between := With(conns, a, g);
      && between[a] == conns[a].(flow := g) && With(between, a, f) == With(conns, a, f)
      && (conns[a].flow == g ==> between == conns)
  {
  }

  lemma {:induction false} EndSlots(c: Conn, a: nat)
    requires c.flow.live && ValidFd(a) && a > 0 && Releasable(c.flow) && a !in OriginNumbers(c.flow)
    ensures var g := if c.flow.originFd > 0 then ReleaseOrigin(c.flow) else c.flow;
      && a !in OriginNumbers(g) && g.live && g.origin == Unregistered && OriginNumbers(End(c.flow)) <= OriginNumbers(g)
      && Slots(a, c.(flow := End(c.flow))) == S.Apply(Slots(a, c.(flow := g)), S.Unregister(a)).0
  {
  }

  // ---- A new connection ----

  /** `selector_register(s, client_fd, handler, OP_READ, conn)`: an accepted socket becomes a connection if and
      only if the table takes its number. */
  lemma {:induction false} AcceptIs(w: World, fd: int, bufferSize: nat)
    requires Good(w) && Enabled(w, Accept(fd, bufferSize))
    ensures var v := Step(w, Accept(fd, bufferSize));
      && Disjoint(w.conns) && Disjoint(v.conns)
      && var (t, status) := S.Apply(Table(w.conns), S.Register(fd, S.Interest(true, false), fd));
         Table(v.conns) == t
         && v.conns == if status == S.SUCCESS then w.conns[fd := Socks5.Accepted(bufferSize)] else w.conns
  {
    GoodIsDisjoint(w);
    AcceptIsGood(w, fd, bufferSize);
    hide Good, Table, Disjoint;
    if IsLeft(w.conns, fd) && ValidFd(fd) {
      LeftIsInUse(w.conns, fd, S.Interest(true, false), fd);
    } else if ValidFd(fd) {
      NewNumber(w.conns, fd);
      AcceptedSlot(w.conns, fd, Socks5.Accepted(bufferSize));
    }
  }

  /** A number that no socket has, and no slot left behind, has no slot. */
  lemma {:induction false} NewNumber(conns: map<int, Conn>, fd: int)
    requires Disjoint(conns) && CanGet(conns, fd, fd) && !IsLeft(conns, fd)
    ensures fd !in Table(conns) && Held(conns, fd) == {}
  {
    if fd in Table(conns) {
      OwnerOf(conns, fd);
    }
  }

  lemma {:induction false} AcceptedSlot(conns: map<int, Conn>, fd: int, c: Conn)
    requires Disjoint(conns) && Disjoint(conns[fd := c]) && fd !in Table(conns) && Held(conns, fd) == {}
    requires c.flow.live && c.flow.client == READ && c.flow.origin == Unregistered && c.flow.originFd == 0
    ensures Table(conns[fd := c]) == Table(conns)[fd := S.Registration(S.Interest(true, false), fd)]
  {
    var after := conns[fd := c];
    var t := Table(conns)[fd := S.Registration(S.Interest(true, false), fd)];
    AcceptedSlotIs(after, fd);
    assert Same(Table(after), t, fd);
    hide Disjoint, Table, Slots, OriginNumbers, Held, Same;
    forall g: int
      ensures Same(Table(after), t, g)
    {
      if g != fd {
        OtherSlot(conns, fd, c, S.Registration(S.Interest(true, false), fd), g);
      }
    }
    SameEverywhere(Table(after), t);
  }

  lemma {:induction false} AcceptedSlotIs(conns: map<int, Conn>, fd: int)
    requires Disjoint(conns) && fd in conns
    requires var c := conns[fd]; c.flow.live && c.flow.client == READ && c.flow.origin == Unregistered && c.flow.originFd == 0
    ensures fd in Table(conns) && Table(conns)[fd] == S.Registration(S.Interest(true, false), fd) && Held(conns, fd) == {fd}
  {
    SlotOf(conns, fd, fd);
  }

  lemma {:induction false} OtherSlot(conns: map<int, Conn>, fd: int, c: Conn, x: S.Registration, g: int)
    requires Disjoint(conns) && Disjoint(conns[fd := c]) && Held(conns, fd) == {} && Held(conns[fd := c], fd) == {fd} && g != fd
    ensures Same(Table(conns[fd := c]), Table(conns)[fd := x], g)
  {
    hide Disjoint, Table, Slots, OriginNumbers, Held;
    var after := conns[fd := c];
    if g in Table(conns) {
      EntryStays(conns, after, fd, g);
    }
    if g in Table(after) {
      EntryStays(after, conns, fd, g);
    }
  }

  // ---- A slot left behind ----

  /** Registering its number for another connection is refused. */
  lemma {:induction false} LeftIsInUse(conns: map<int, Conn>, n: int, i: S.Interest, data: nat)
    requires Disjoint(conns) && IsLeft(conns, n) && ValidFd(n) && n > 0
    ensures S.Apply(Table(conns), S.Register(n, i, data)) == (Table(conns), S.FDINUSE)
  {
    var a :| a in conns && Left(conns[a], n);
    assert n in Slots(a, conns[a]);
    SlotOf(conns, a, n);
  }

  /** Unregistering it removes the other connection's slot, and nothing else. */
  lemma {:induction false} ClearedIs(conns: map<int, Conn>, a: int, n: int)
    requires Registrable(conns, a) && Left(conns[a], n)
    ensures var after := With(conns, a, Without(conns[a], n).flow);
      && Disjoint(after) && after == Cleared(conns, n)
      && S.Apply(Table(conns), S.Unregister(n)) == (Table(after), S.SUCCESS)
  {
    var c := conns[a];
    LeftSlots(c, a, n);
    SlotOf(conns, a, n);
    ClearedIsOne(conns, a, n);
    hide Table, Slots, Disjoint, OriginNumbers, Left, Without, Cleared, S.Apply, With;
    Changed(conns, a, Without(c, n).flow, S.Unregister(n));
  }

  lemma {:induction false} LeftSlots(c: Conn, a: nat, n: int)
    requires Left(c, n) && n > 0 && n != a && ValidFd(n)
    ensures n in Slots(a, c) && OriginNumbers(Without(c, n).flow) <= OriginNumbers(c.flow) && n in OriginNumbers(c.flow)
    ensures Slots(a, c.(flow := Without(c, n).flow)) == S.Apply(Slots(a, c), S.Unregister(n)).0
    ensures c.(flow := Without(c, n).flow) == Without(c, n)
  {
  }

  lemma {:induction false} ClearedIsOne(conns: map<int, Conn>, a: int, n: int)
    requires Disjoint(conns) && a in conns && Left(conns[a], n) && n > 0
    ensures n in Held(conns, a) && Cleared(conns, n) == With(conns, a, Without(conns[a], n).flow)
  {
    OnlyOneLeft(conns, a, n);
    forall b | b in conns
      ensures Without(conns[b], n) == With(conns, a, Without(conns[a], n).flow)[b]
    {
      if b != a {
        assert !Left(conns[b], n);
      }
    }
  }

  lemma {:induction false} OnlyOneLeft(conns: map<int, Conn>, a: int, n: int)
    requires Disjoint(conns) && a in conns && Left(conns[a], n) && n > 0
    ensures forall b | b in conns && Left(conns[b], n) :: b == a
  {
    forall b | b in conns && Left(conns[b], n)
      ensures b == a
    {
      HeldByOne(conns, a, b, n);
    }
  }

  function Target(op: S.Op): int {
    match op
    case Register(fd, _, _) => fd
    case Unregister(fd) => fd
    case SetInterest(fd, _) => fd
  }

  predicate Same(t: S.Table, u: S.Table, fd: int) { (fd in t <==> fd in u) && (fd in t ==> t[fd] == u[fd]) }

  /** An operation does the same at a descriptor of two tables that have the same there and at its target. */
  lemma {:induction false} ApplyAt(t: S.Table, u: S.Table, op: S.Op, fd: int)
    requires Same(t, u, Target(op)) && Same(t, u, fd)
    ensures Same(S.Apply(t, op).0, S.Apply(u, op).0, fd)
  {
  }

  lemma {:induction false} ElsewhereSame(t: S.Table, op: S.Op, fd: int)
    requires fd != Target(op) || fd < 0 || (fd == 0 && fd !in t && !op.Register?)
    ensures Same(t, S.Apply(t, op).0, fd)
  {
  }

  lemma {:induction false} NoneBelowOne(conns: map<int, Conn>, a: int, fd: int)
    requires Disjoint(conns) && a in conns && fd <= 0
    ensures fd !in Table(conns) && fd !in Slots(a, conns[a])
  {
  }

  /** An operation on a number of the connection: if it does to the connection's slots what the change does,
      it does to the table what the change does. */
  lemma {:induction false} Changed(conns: map<int, Conn>, a: int, f: Flow, op: S.Op)
    requires Registrable(conns, a) && OriginNumbers(f) <= OriginNumbers(conns[a].flow)
    requires Target(op) in Held(conns, a) || Target(op) < 0 || (Target(op) == 0 && !op.Register?)
    requires Slots(a, conns[a].(flow := f)) == S.Apply(Slots(a, conns[a]), op).0
    ensures var after := With(conns, a, f); Disjoint(after) && Table(after) == S.Apply(Table(conns), op).0
  {
    var after := With(conns, a, f);
    StaysDisjoint(conns, a, f);
    var applied := S.Apply(Table(conns), op).0;
    hide Slots, Table, Disjoint, OriginNumbers, Held, S.Apply;
    forall fd: int
      ensures Same(Table(after), applied, fd)
    {
      ChangedAt(conns, a, f, op, fd);
    }
    SameEverywhere(Table(after), applied);
  }

  lemma {:induction false} SameEverywhere(t: S.Table, u: S.Table)
    requires forall fd: int :: Same(t, u, fd)
    ensures t == u
  {
    forall fd | fd in t
      ensures fd in u && t[fd] == u[fd]
    {
      assert Same(t, u, fd);
    }
    forall fd | fd in u
      ensures fd in t
    {
      assert Same(t, u, fd);
    }
    assert t.Keys == u.Keys;
  }

  lemma {:induction false} ChangedAt(conns: map<int, Conn>, a: int, f: Flow, op: S.Op, fd: int)
    requires Registrable(conns, a) && OriginNumbers(f) <= OriginNumbers(conns[a].flow)
    requires Target(op) in Held(conns, a) || Target(op) < 0 || (Target(op) == 0 && !op.Register?)
    requires Slots(a, conns[a].(flow := f)) == S.Apply(Slots(a, conns[a]), op).0
    ensures Disjoint(With(conns, a, f)) && Same(Table(With(conns, a, f)), S.Apply(Table(conns), op).0, fd)
  {
    TableAt(conns, a, f, fd);
    hide Slots, OriginNumbers, Held, S.Apply;
    if Target(op) <= 0 && Target(op) !in Held(conns, a) {
      NoneBelowOne(conns, a, Target(op));
    } else {
      SlotOf(conns, a, Target(op));
    }
    if fd in Held(conns, a) {
      SlotOf(conns, a, fd);
      ApplyAt(Slots(a, conns[a]), Table(conns), op, fd);
    } else {
      ElsewhereSame(Table(conns), op, fd);
    }
  }
}
