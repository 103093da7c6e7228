// src/server/utils/selector.c: the table of registered descriptors, its two descriptor sets and the
// cached maximum; the scan that serves them, and the list of finished blocking jobs.
module Selector {
  import opened Bytes

  /** OP_READ and OP_WRITE. */
  datatype Interest = Interest(read: bool, write: bool)

  const NOOP := Interest(false, false)

  /** A slot of the jump table; `data` stands for the handler and its attachment. */
  datatype Item = Item(fd: int, interest: Interest, data: nat)

  const FD_UNUSED := -1
  const UNUSED := Item(FD_UNUSED, NOOP, 0)

  /** FD_SETSIZE */
  const ITEMS_MAX_SIZE := 1024

  /** The results of the operations. OUTSIDE is not one of the source's: it stands for looking at a slot
      outside the table, which the source does not notice. */
  datatype Status = SUCCESS | ENOMEM | MAXFD | IARGS | FDINUSE | OUTSIDE

  predicate InvalidFd(fd: int) { fd < 0 || fd >= ITEMS_MAX_SIZE }

  // ---- What the selector means: a map from descriptors to registrations ----

  datatype Registration = Registration(interest: Interest, data: nat)

  type Table = map<int, Registration>

  datatype Op =
    | Register(fd: int, interest: Interest, data: nat)
    | Unregister(fd: int)
    | SetInterest(fd: int, interest: Interest)

  function Apply(t: Table, op: Op): (Table, Status) {
    match op
    case Register(fd, interest, data) =>
      if InvalidFd(fd) then (t, IARGS)
      else if fd in t then (t, FDINUSE)
      else (t[fd := Registration(interest, data)], SUCCESS)
    case Unregister(fd) =>
      if InvalidFd(fd) || fd !in t then (t, IARGS) else (t - {fd}, SUCCESS)
    case SetInterest(fd, interest) =>
      if InvalidFd(fd) || fd !in t then (t, IARGS) else (t[fd := t[fd].(interest := interest)], SUCCESS)
  }

  function ApplyAll(t: Table, ops: seq<Op>): Table
    decreases |ops|
  {
    if ops == [] then t else ApplyAll(Apply(t, ops[0]).0, ops[1..])
  }

  /** Which operations are accepted, what the others are answered, and what is changed: nothing but the
      registration of the descriptor itself. */
  lemma {:induction false} AppliedExactly(t: Table, op: Op)
    ensures var (u, status) := Apply(t, op);
      && (status == SUCCESS <==> 0 <= op.fd < 1024 && (op.Register? <==> op.fd !in t))
      && (status == FDINUSE <==> 0 <= op.fd < 1024 && op.Register? && op.fd in t)
      && status in {SUCCESS, FDINUSE, IARGS} && (status != SUCCESS ==> u == t)
      && (status == SUCCESS ==>
            u.Keys == (if op.Unregister? then t.Keys - {op.fd} else t.Keys + {op.fd}) &&
            (!op.Unregister? ==> u[op.fd] == Registration(op.interest, if op.Register? then op.data else t[op.fd].data)))
      && (forall g | g in t && g != op.fd :: g in u && u[g] == t[g])
  {
  }

  // ---- A scan, whose handlers change the table ----

  /** A handler call: its descriptor and direction, the attachment in the key it was given, and the
      table at that moment. */
  datatype Call = Call(fd: int, reading: bool, data: nat, table: Table)

  datatype Progress = Progress(table: Table, calls: seq<Call>)

  /** What the handlers do to the table: the k-th call makes the k-th list of changes. */
  type Script = seq<seq<Op>>

  function OpsOf(script: Script, k: nat): seq<Op> { if k < |script| then script[k] else [] }

  function Called(p: Progress, fd: int, reading: bool, data: nat, script: Script): Progress {
    Progress(ApplyAll(p.table, OpsOf(script, |p.calls|)), p.calls + [Call(fd, reading, data, p.table)])
  }

  predicate Wants(t: Table, fd: int, reading: bool) {
    fd in t && if reading then t[fd].interest.read else t[fd].interest.write
  }

  function ReadPart(p: Progress, fd: int, r: set<int>, script: Script): Progress {
    if fd in r && Wants(p.table, fd, true) then Called(p, fd, true, p.table[fd].data, script) else p
  }

  /** One slot. The key's attachment is taken once, before the read handler runs. */
  function Visited(p: Progress, fd: int, r: set<int>, w: set<int>, script: Script): Progress {
    if fd !in p.table then p
    else
      var q := ReadPart(p, fd, r, script);
      if fd in w && Wants(q.table, fd, false) then Called(q, fd, false, p.table[fd].data, script) else q
  }

  /** The slots below `bound`, with r and w the descriptors that the kernel found ready. */
  function Scan(t: Table, bound: nat, r: set<int>, w: set<int>, script: Script): Progress {
    if bound == 0 then Progress(t, []) else Visited(Scan(t, bound - 1, r, w, script), bound - 1, r, w, script)
  }

  function Key(c: Call): int { 2 * c.fd + if c.reading then 0 else 1 }

  predicate Due(c: Call, r: set<int>, w: set<int>) {
    Wants(c.table, c.fd, c.reading) && c.fd in (if c.reading then r else w)
  }

  predicate ReadsOwnKey(c: Call) { c.reading && c.fd in c.table ==> c.data == c.table[c.fd].data }

  /** What one slot adds: its read handler if that is due, then its write handler if that is. */
  lemma {:induction false} VisitAdds(p: Progress, fd: int, r: set<int>, w: set<int>, script: Script)
    ensures var n, after := |p.calls|, Visited(p, fd, r, w, script).calls;
      && p.calls <= after && |after| <= n + 2
      && (forall k | n <= k < |after| :: after[k].fd == fd && Due(after[k], r, w) && ReadsOwnKey(after[k]))
      && (fd in r && Wants(p.table, fd, true) <==> |after| > n && after[n].reading)
      && ((fd in w && fd in p.table && Wants(ReadPart(p, fd, r, script).table, fd, false)) <==>
          (|after| > n && !after[|after| - 1].reading))
      && (|after| == n + 2 ==> after[n].reading && !after[n + 1].reading)
  {
  }

  predicate Ascending(calls: seq<Call>) { forall j, k | 0 <= j < k < |calls| :: Key(calls[j]) < Key(calls[k]) }

  predicate AllDue(calls: seq<Call>, bound: nat, r: set<int>, w: set<int>) {
    forall k | 0 <= k < |calls| :: Due(calls[k], r, w) && 0 <= calls[k].fd < bound && ReadsOwnKey(calls[k])
  }

  /** One slot's calls after those of the slots before it. */
  lemma {:induction false} VisitExtends(p: Progress, bound: nat, r: set<int>, w: set<int>, script: Script)
    requires bound > 0 && AllDue(p.calls, bound - 1, r, w) && Ascending(p.calls)
    ensures var after := Visited(p, bound - 1, r, w, script).calls; AllDue(after, bound, r, w) && Ascending(after)
  {
    hide Visited, Due, ReadsOwnKey, Wants, ReadPart;
    VisitAdds(p, bound - 1, r, w, script);
    var after := Visited(p, bound - 1, r, w, script).calls;
    assert forall k | 0 <= k < |p.calls| :: after[k] == p.calls[k];
  }

  /** Whatever the handlers do to the table, a scan calls only handlers whose slot is in use and
      interested at that moment, in ascending order, and so at most once per descriptor and direction;
      a read handler is always given its own slot's attachment. */
  lemma {:induction false} ScanCallsDueOnce(t: Table, bound: nat, r: set<int>, w: set<int>, script: Script)
    ensures AllDue(Scan(t, bound, r, w, script).calls, bound, r, w) && Ascending(Scan(t, bound, r, w, script).calls)
  {
    if bound > 0 {
      hide Visited, AllDue, Ascending;
      ScanCallsDueOnce(t, bound - 1, r, w, script);
      VisitExtends(Scan(t, bound - 1, r, w, script), bound, r, w, script);
    }
  }

  predicate HasCall(calls: seq<Call>, fd: int, reading: bool) {
    exists k :: 0 <= k < |calls| && calls[k].fd == fd && calls[k].reading == reading
  }

  /** A longer scan makes the calls of a shorter one, then calls for later slots. */
  lemma {:induction false} LaterCallsAreLater(t: Table, bound: nat, more: nat, r: set<int>, w: set<int>, script: Script)
    requires bound <= more
    ensures var a, b := Scan(t, bound, r, w, script).calls, Scan(t, more, r, w, script).calls;
      a <= b && forall k | |a| <= k < |b| :: b[k].fd >= bound
    decreases more
  {
    if bound < more {
      hide Visited;
      LaterCallsAreLater(t, bound, more - 1, r, w, script);
      VisitAdds(Scan(t, more - 1, r, w, script), more - 1, r, w, script);
    }
  }

  /** Nothing due is skipped: the read handler of a slot is called if and only if, when the scan
      reaches it, the slot is interested in reading and the kernel found it ready; and its write
      handler, if the slot was in use then and, after its read handler, is interested in writing. */
  lemma {:induction false} CallsExactlyDue(t: Table, fd: nat, bound: nat, r: set<int>, w: set<int>, script: Script)
    requires fd < bound
    ensures var calls, p := Scan(t, bound, r, w, script).calls, Scan(t, fd, r, w, script);
      && (HasCall(calls, fd, true) <==> fd in r && Wants(p.table, fd, true))
      && (HasCall(calls, fd, false) <==> fd in w && fd in p.table && Wants(ReadPart(p, fd, r, script).table, fd, false))
  {
    hide Visited, Wants;
    var p := Scan(t, fd, r, w, script);
    var n, calls, after := |p.calls|, Scan(t, bound, r, w, script).calls, Scan(t, fd + 1, r, w, script).calls;
    VisitAdds(p, fd, r, w, script);
    LaterCallsAreLater(t, fd + 1, bound, r, w, script);
    ScanCallsDueOnce(t, fd, r, w, script);
    assert forall k :: 0 <= k < |after| ==> calls[k] == after[k];
    assert forall k :: 0 <= k < n ==> after[k] == p.calls[k];
  }

  /** Whose slot it is after the operations: the data of the last registration that took effect, or
      nobody's. A registration takes effect if the slot is free at that point. */
  function OwnerAfter(owner: Option<nat>, ops: seq<Op>, fd: int): Option<nat>
    decreases |ops|
  {
    if ops == [] then owner
    else
      var next := match ops[0]
        case Register(g, _, data) => if g == fd && owner.None? then Some(data) else owner
        case Unregister(g) => if g == fd then None else owner
        case SetInterest(_, _) => owner;
      OwnerAfter(next, ops[1..], fd)
  }

  function Owner(t: Table, fd: int): Option<nat> { if fd in t then Some(t[fd].data) else None }

  lemma {:induction false} OwnerIs(t: Table, ops: seq<Op>, fd: int)
    requires !InvalidFd(fd)
    ensures Owner(ApplyAll(t, ops), fd) == OwnerAfter(Owner(t, fd), ops, fd)
    decreases |ops|
  {
    if ops != [] {
      OwnerIs(Apply(t, ops[0]).0, ops[1..], fd);
    }
  }

  /** The operations that are done to the table between taking the key and calling the write handler. */
  function Between(p: Progress, fd: int, r: set<int>, script: Script): seq<Op> {
    if fd in r && Wants(p.table, fd, true) then OpsOf(script, |p.calls|) else []
  }

  /** A write handler that is called is given its own slot's attachment if and only if the owner after
      the read handler's operations, if any, is still one with the same data: that is, unless the slot was
      unregistered and its last effective registration after that carries other data. */
  lemma {:induction false} WriteKeyIsOwnExactly(p: Progress, fd: int, r: set<int>, w: set<int>, script: Script)
    requires !InvalidFd(fd) && fd in p.table && fd in w && Wants(ReadPart(p, fd, r, script).table, fd, false)
    ensures var calls := Visited(p, fd, r, w, script).calls;
      |calls| > 0 &&
      var c := calls[|calls| - 1];
      && c.fd == fd && !c.reading && fd in c.table
      && (c.data == c.table[fd].data <==>
          OwnerAfter(Some(p.table[fd].data), Between(p, fd, r, script), fd) == Some(p.table[fd].data))
  {
    OwnerIs(p.table, OpsOf(script, |p.calls|), fd);
  }

  /** A number that is registered again at once: the new owner's write handler is given the old owner's
      attachment. */
  lemma {:induction false} WriteKeyCanBeStale(fd: nat, before: nat, after: nat)
    requires fd < ITEMS_MAX_SIZE
    ensures var t: Table := map[fd := Registration(Interest(true, true), before)];
      var script := [[Unregister(fd), Register(fd, Interest(false, true), after)]];
      var calls := Visited(Progress(t, []), fd, {fd}, {fd}, script).calls;
      |calls| == 2 && calls[1].data == before && calls[1].table[fd].data == after
  {
    var t: Table := map[fd := Registration(Interest(true, true), before)];
    var ops := [Unregister(fd), Register(fd, Interest(false, true), after)];
    assert ops[1..][1..] == [] && ops[1..][0] == ops[1];
    var u := Apply(t, ops[0]).0;
    assert ApplyAll(u, ops[1..]) == ApplyAll(Apply(u, ops[1]).0, ops[1..][1..]) == Apply(u, ops[1]).0;
  }

  // ---- Growth ----

  function Pow2(bits: nat): nat { if bits == 0 then 1 else 2 * Pow2(bits - 1) }

  /** The number of binary digits of n. */
  function BitLength(n: nat): nat { if n == 0 then 0 else 1 + BitLength(n / 2) }

  lemma {:induction false} BitLengthBounds(n: nat)
    ensures n < Pow2(BitLength(n))
    ensures n > 0 ==> Pow2(BitLength(n)) <= 2 * n
  {
    if n > 0 {
      BitLengthBounds(n / 2);
    }
  }

  function Min(a: nat, b: nat): nat { if a < b then a else b }

  /** One more than the next power of two above n, or than the platform's limit. */
  method NextCapacity(n: nat) returns (r: nat)
    requires n <= ITEMS_MAX_SIZE
    ensures r == Min(Pow2(BitLength(n)), ITEMS_MAX_SIZE) + 1
    ensures r > n
  {
    var bits: nat := 0;
    var tmp: nat := n;
    while tmp != 0
      invariant bits + BitLength(tmp) == BitLength(n)
    {
      tmp := tmp / 2;
      bits := bits + 1;
    }
    BitLengthBounds(n);
    tmp := Pow2(bits);
    if tmp > ITEMS_MAX_SIZE {
      tmp := ITEMS_MAX_SIZE;
    }
    return tmp + 1;
  }

  /** The server asks for 1024 and gets a slot for every valid descriptor, and one more. */
  lemma {:induction false} ServerCapacity()
    ensures Min(Pow2(BitLength(ITEMS_MAX_SIZE)), ITEMS_MAX_SIZE) + 1 == 1025
  {
    BitLengthBounds(ITEMS_MAX_SIZE);
  }

  // ---- The slots, the sets and the maximum agree ----

  predicate Used(s: seq<Item>, i: int) { 0 <= i < |s| && s[i].fd != FD_UNUSED }

  predicate OwnIndices(s: seq<Item>) {
    forall i | 0 <= i < |s| :: s[i].fd == FD_UNUSED || s[i].fd == i < ITEMS_MAX_SIZE
  }

  /** The largest used descriptor, or 0. */
  ghost predicate IsMax(s: seq<Item>, m: nat) {
    (m != 0 ==> Used(s, m)) && (forall i :: Used(s, i) ==> i <= m)
  }

  ghost predicate Agree(s: seq<Item>, maxFd: nat, r: set<int>, w: set<int>) {
    && OwnIndices(s) && IsMax(s, maxFd)
    && (forall i :: i in r <==> Used(s, i) && s[i].interest.read)
    && (forall i :: i in w <==> Used(s, i) && s[i].interest.write)
  }

  /** Slots not in use are blank. So they are from the start, and after use; `realloc` leaves in new ones
      what it finds. */
  predicate Blank(s: seq<Item>) {
    forall i | 0 <= i < |s| :: s[i].fd == FD_UNUSED ==> s[i] == UNUSED
  }

  function TableOf(s: seq<Item>): Table {
    map i | 0 <= i < |s| && s[i].fd != FD_UNUSED :: Registration(s[i].interest, s[i].data)
  }

  function If(c: bool, fd: int): set<int> { if c then {fd} else {} }

  /** Filling a slot, used or not. */
  lemma {:induction false} PutAgrees(s: seq<Item>, m: nat, r: set<int>, w: set<int>, fd: nat, interest: Interest, data: nat)
    requires Agree(s, m, r, w) && fd < |s| && fd < ITEMS_MAX_SIZE
    ensures var t := s[fd := Item(fd, interest, data)];
      && Agree(t, if fd > m then fd else m, r - {fd} + If(interest.read, fd), w - {fd} + If(interest.write, fd))
      && TableOf(t) == TableOf(s)[fd := Registration(interest, data)]
  {
    var t := s[fd := Item(fd, interest, data)];
    assert forall i :: Used(t, i) <==> i == fd || Used(s, i);
  }

  /** Clearing a slot. */
  lemma {:induction false} ClearAgrees(s: seq<Item>, m: nat, r: set<int>, w: set<int>, fd: nat, max: nat)
    requires Agree(s, m, r, w) && Used(s, fd) && IsMax(s[fd := UNUSED], max)
    ensures Agree(s[fd := UNUSED], max, r - {fd}, w - {fd})
    ensures TableOf(s[fd := UNUSED]) == TableOf(s) - {fd}
  {
  }

  class Selector {
    var fds: array<Item>
    var maxFd: nat
    var masterR: set<int>
    var masterW: set<int>

    ghost predicate Valid()
      reads this, fds
    {
      fds.Length <= ITEMS_MAX_SIZE + 1 && Agree(fds[..], maxFd, masterR, masterW)
    }

    ghost function AsTable(): Table
      reads this, fds
    {
      TableOf(fds[..])
    }

    constructor (initialElements: nat)
      requires initialElements <= ITEMS_MAX_SIZE
      ensures Valid() && Blank(fds[..]) && AsTable() == map[] && fresh(fds)
      ensures fds.Length == Min(Pow2(BitLength(initialElements)), ITEMS_MAX_SIZE) + 1
    {
      var size := NextCapacity(initialElements);
      fds := new Item[size](_ => UNUSED);
      maxFd, masterR, masterW := 0, {}, {};
    }

    /** Makes room for slot n, if there is memory; `junk` is what `realloc` finds in it. */
    method EnsureCapacity(n: nat, memory: bool, junk: Item) returns (ret: Status)
      requires Valid()
      modifies this`fds
      ensures Valid() && AsTable() == old(AsTable())
      ensures ret == if n < old(fds.Length) then SUCCESS else if n > ITEMS_MAX_SIZE then MAXFD else if memory then SUCCESS else ENOMEM
      ensures ret == SUCCESS ==> n < fds.Length
      ensures fds == old(fds) || fresh(fds)
      ensures n < old(fds.Length) || ret != SUCCESS ==> fds == old(fds)
    {
      if n < fds.Length {
        return SUCCESS;
      } else if n > ITEMS_MAX_SIZE {
        return MAXFD;
      }
      var size := NextCapacity(n);
      if !memory {
        return ENOMEM;
      }
      var before := fds;
      var tmp := new Item[size](i requires 0 <= i < size reads before =>
        if i < before.Length then before[i] else junk.(fd := FD_UNUSED));
      fds := tmp;
      assert forall i :: Used(fds[..], i) <==> Used(before[..], i);
      return SUCCESS;
    }

    /** `items_update_fdset_for_fd` */
    method UpdateFdSets(fd: nat)
      requires fd < fds.Length
      modifies this`masterR, this`masterW
      ensures masterR == old(masterR) - {fd} + If(fds[fd].interest.read, fd)
      ensures masterW == old(masterW) - {fd} + If(fds[fd].interest.write, fd)
    {
      masterR, masterW := masterR - {fd}, masterW - {fd};
      if fds[fd].interest.read {
        masterR := masterR + {fd};
      }
      if fds[fd].interest.write {
        masterW := masterW + {fd};
      }
    }

    /** `items_max_fd`: the table is searched up to the old maximum. */
    method ItemsMaxFd() returns (max: nat)
      requires OwnIndices(fds[..]) && forall i :: Used(fds[..], i) ==> i <= maxFd
      ensures IsMax(fds[..], max)
    {
      max := 0;
      var i := 0;
      while i <= maxFd && i < fds.Length
        invariant 0 <= i && (max != 0 ==> Used(fds[..], max))
        invariant forall j :: Used(fds[..], j) && j < i ==> j <= max
      {
        if fds[i].fd != FD_UNUSED && fds[i].fd > max {
          max := fds[i].fd;
        }
        i := i + 1;
      }
    }

    /** Insert-if-absent. The table grows for descriptors above its size only, so for the one that equals
        it the slot is outside. */
    method RegisterFd(fd: int, interest: Interest, data: nat, memory: bool, junk: Item) returns (ret: Status)
      requires Valid()
      modifies this, fds
      ensures Valid() && (fds == old(fds) ==> Blank(old(fds[..])) ==> Blank(fds[..]))
      ensures fds == old(fds) || (fresh(fds) && !InvalidFd(fd) && fd > old(fds.Length))
      ensures ret == OUTSIDE <==> !InvalidFd(fd) && fd == old(fds.Length)
      ensures ret == ENOMEM <==> !InvalidFd(fd) && fd > old(fds.Length) && !memory
      ensures if ret in {OUTSIDE, ENOMEM} then AsTable() == old(AsTable())
        else (AsTable(), ret) == Apply(old(AsTable()), Register(fd, interest, data))
    {
      hide Agree, TableOf;
      if InvalidFd(fd) {
        return IARGS;
      }
      if fd > fds.Length {
        ret := EnsureCapacity(fd, memory, junk);
        if ret != SUCCESS {
          return;
        }
      }
      if fd >= fds.Length {
        return OUTSIDE;
      }
      TableHas(fds[..], fd);
      if fds[fd].fd != FD_UNUSED {
        return FDINUSE;
      }
      PutAgrees(fds[..], maxFd, masterR, masterW, fd, interest, data);
      fds[fd] := Item(fd, interest, data);
      if fd > maxFd {
        maxFd := fd;
      }
      UpdateFdSets(fd);
      return SUCCESS;
    }

    method UnregisterFd(fd: int) returns (ret: Status)
      requires Valid()
      modifies this, fds
      ensures Valid() && fds == old(fds) && (Blank(old(fds[..])) ==> Blank(fds[..]))
      ensures ret == OUTSIDE <==> !InvalidFd(fd) && fd >= fds.Length
      ensures if ret == OUTSIDE then AsTable() == old(AsTable())
        else (AsTable(), ret) == Apply(old(AsTable()), Unregister(fd))
    {
      hide TableOf;
      if InvalidFd(fd) {
        return IARGS;
      }
      if fd >= fds.Length {
        return OUTSIDE;
      }
      TableHas(fds[..], fd);
      if fds[fd].fd == FD_UNUSED {
        return IARGS;
      }
      ghost var before, m, r, w := fds[..], maxFd, masterR, masterW;
      fds[fd] := fds[fd].(interest := NOOP);
      UpdateFdSets(fd);
      fds[fd] := UNUSED;
      assert fds[..] == before[fd := UNUSED];
      assert forall i :: Used(fds[..], i) ==> Used(before, i);
      maxFd := ItemsMaxFd();
      ClearAgrees(before, m, r, w, fd, maxFd);
      return SUCCESS;
    }

    method SetInterestOf(fd: int, interest: Interest) returns (ret: Status)
      requires Valid()
      modifies fds, this
      ensures Valid() && fds == old(fds) && (Blank(old(fds[..])) ==> Blank(fds[..]))
      ensures ret == OUTSIDE <==> !InvalidFd(fd) && fd >= fds.Length
      ensures if ret == OUTSIDE then AsTable() == old(AsTable())
        else (AsTable(), ret) == Apply(old(AsTable()), SetInterest(fd, interest))
    {
      hide TableOf;
      if InvalidFd(fd) {
        return IARGS;
      }
      if fd >= fds.Length {
        return OUTSIDE;
      }
      TableHas(fds[..], fd);
      if fds[fd].fd == FD_UNUSED {
        return IARGS;
      }
      PutAgrees(fds[..], maxFd, masterR, masterW, fd, interest, fds[fd].data);
      assert Used(fds[..], fd);
      fds[fd] := fds[fd].(interest := interest);
      UpdateFdSets(fd);
      return SUCCESS;
    }

    // ---- The scan ----

    /** The server's table: a slot for every valid descriptor from the start, and so never grown. */
    ghost predicate Full()
      reads this, fds
    {
      fds.Length == ITEMS_MAX_SIZE + 1 && Blank(fds[..])
    }

    /** What a handler does to the table. */
    method Perform(ops: seq<Op>)
      requires Valid() && Full()
      modifies this, fds
      ensures Valid() && Full() && fds == old(fds) && AsTable() == ApplyAll(old(AsTable()), ops)
    {
      hide Agree, TableOf;
      for i := 0 to |ops|
        invariant Valid() && Full() && fds == old(fds) && ApplyAll(AsTable(), ops[i..]) == ApplyAll(old(AsTable()), ops)
      {
        assert ops[i..][0] == ops[i] && ops[i..][1..] == ops[i + 1..];
        var st;
        match ops[i] {
        case Register(fd, interest, data) => st := RegisterFd(fd, interest, data, true, UNUSED);
        case Unregister(fd) => st := UnregisterFd(fd);
        case SetInterest(fd, interest) => st := SetInterestOf(fd, interest);
        }
      }
    }

    /** A handler call, recorded with the table it finds. */
    method Dispatch(fd: int, reading: bool, data: nat, calls: seq<Call>, script: Script) returns (more: seq<Call>)
      requires Valid() && Full()
      modifies this, fds
      ensures Valid() && Full() && fds == old(fds)
      ensures Progress(AsTable(), more) == Called(Progress(old(AsTable()), calls), fd, reading, data, script)
    {
      hide Agree, ApplyAll;
      ghost var t := AsTable();
      more := calls + [Call(fd, reading, data, TableOf(fds[..]))];
      Perform(OpsOf(script, |calls|));
    }

    /** One turn of `handle_iteration`: the item is looked at again before its write handler. */
    method Visit(i: nat, slaveR: set<int>, slaveW: set<int>, calls: seq<Call>, script: Script) returns (more: seq<Call>)
      requires Valid() && Full() && i < fds.Length
      modifies this, fds
      ensures Valid() && Full() && fds == old(fds)
      ensures Progress(AsTable(), more) == Visited(Progress(old(AsTable()), calls), i, slaveR, slaveW, script)
    {
      hide Agree, TableOf, Called;
      more := calls;
      TableHas(fds[..], i);
      SlotMeans(fds[..], maxFd, masterR, masterW, i);
      if fds[i].fd != FD_UNUSED {
        var fd, data := fds[i].fd, fds[i].data;
        if fd in slaveR && fds[i].interest.read {
          more := Dispatch(fd, true, data, more, script);
        }
        TableHas(fds[..], i);
        SlotMeans(fds[..], maxFd, masterR, masterW, i);
        if i in slaveW && fds[i].interest.write {
          more := Dispatch(fd, false, data, more, script);
        }
      }
    }

    /** `handle_iteration`: up to the maximum as it was when the scan began. */
    method HandleIteration(slaveR: set<int>, slaveW: set<int>, script: Script) returns (calls: seq<Call>)
      requires Valid() && Full()
      modifies this, fds
      ensures Valid() && Full() && fds == old(fds)
      ensures Progress(AsTable(), calls) == Scan(old(AsTable()), old(maxFd) + 1, slaveR, slaveW, script)
    {
      hide Agree, TableOf, Visited;
      MaxIsInside(fds[..], maxFd, masterR, masterW);
      var n := maxFd;
      calls := [];
      for i := 0 to n + 1
        invariant Valid() && Full() && fds == old(fds)
        invariant Progress(AsTable(), calls) == Scan(old(AsTable()), i, slaveR, slaveW, script)
      {
        calls := Visit(i, slaveR, slaveW, calls, script);
      }
    }
  }

  /** A used slot has its own index, and a cleared one no interest. */
  lemma {:induction false} SlotMeans(s: seq<Item>, m: nat, r: set<int>, w: set<int>, i: nat)
    requires Agree(s, m, r, w) && Blank(s) && i < |s|
    ensures s[i].fd == FD_UNUSED ==> s[i].interest == NOOP
    ensures s[i].fd != FD_UNUSED ==> s[i].fd == i
  {
  }

  lemma {:induction false} MaxIsInside(s: seq<Item>, m: nat, r: set<int>, w: set<int>)
    requires Agree(s, m, r, w) && |s| == ITEMS_MAX_SIZE + 1
    ensures m < |s|
  {
  }

  lemma {:induction false} TableHas(s: seq<Item>, fd: nat)
    requires fd < |s|
    ensures fd in TableOf(s) <==> Used(s, fd)
    ensures Used(s, fd) ==> TableOf(s)[fd] == Registration(s[fd].interest, s[fd].data)
  {
  }
}
