// src/shared/buffer.c: a bounded byte queue over an array, with a read and a
// write pointer and compaction by an overlapping move.
module ByteBuffer {
  import opened Bytes

  /** The buffer's value: how much room it has, how far the read pointer has moved, and the bytes
      between the read and the write pointer. */
  datatype View = View(capacity: nat, read: nat, contents: seq<byte>) {
    predicate Valid() { read + |contents| <= capacity }

    function Free(): nat
      requires Valid()
    {
      capacity - read - |contents|
    }
  }

  function Compacted(v: View): View { v.(read := 0) }

  function Emptied(v: View): View { v.(read := 0, contents := []) }

  function Appended(v: View, bytes: seq<byte>): View { v.(contents := v.contents + bytes) }

  /** `buffer_read_adv`: consuming the last byte rewinds both pointers. */
  function Advanced(v: View, n: nat): View
    requires n <= |v.contents|
  {
    if n == |v.contents| then Emptied(v) else v.(read := v.read + n, contents := v.contents[n..])
  }

  /** `buffer_write_struct`: all of the bytes or, silently, none of them. */
  function StructPut(v: View, bytes: seq<byte>): View
    requires v.Valid()
  {
    if v.Free() > 0 && |bytes| <= v.Free() then Appended(v, bytes) else v
  }

  class Buffer {
    const data: array<byte>
    var read: nat
    var write: nat

    ghost predicate Valid()
      reads this
    {
      read <= write <= data.Length
    }

    ghost function AsView(): View
      reads this, data
      requires Valid()
      ensures AsView().Valid()
    {
      View(data.Length, read, data[read..write])
    }

    constructor (memory: array<byte>)
      ensures Valid() && data == memory
      ensures AsView() == View(memory.Length, 0, [])
    {
      data := memory;
      read, write := 0, 0;
    }

    method Reset()
      requires Valid()
      modifies this
      ensures Valid() && AsView() == Emptied(old(AsView()))
    {
      read, write := 0, 0;
    }

    predicate CanWrite()
      reads this
      requires Valid()
    {
      data.Length - write > 0
    }

    predicate CanRead()
      reads this
      requires Valid()
    {
      write - read > 0
    }

    /** A `recv` into the free region followed by `buffer_write_adv`. */
    method Fill(bytes: seq<byte>)
      requires Valid() && |bytes| <= AsView().Free()
      modifies this`write, data
      ensures Valid() && AsView() == Appended(old(AsView()), bytes)
    {
      forall i | 0 <= i < |bytes| {
        data[write + i] := bytes[i];
      }
      write := write + |bytes|;
      assert data[read..write] == old(data[read..write]) + bytes;
    }

    method ReadAdv(n: nat)
      requires Valid() && n <= |AsView().contents|
      modifies this, data
      ensures Valid() && AsView() == Advanced(old(AsView()), n)
    {
      read := read + n;
      if read == write {
        Compact();
      }
    }

    method Read() returns (b: byte)
      requires Valid()
      modifies this, data
      ensures Valid()
      ensures old(AsView().contents) == [] ==> b == 0 && AsView() == old(AsView())
      ensures old(AsView().contents) != [] ==>
        b == old(AsView().contents[0]) && AsView() == Advanced(old(AsView()), 1)
    {
      if CanRead() {
        b := data[read];
        ReadAdv(1);
      } else {
        b := 0;
      }
    }

    /** The move is done forwards, so that no byte is overwritten before it has been copied. */
    method Compact()
      requires Valid()
      modifies this, data
      ensures Valid() && AsView() == Compacted(old(AsView()))
    {
      if read == 0 {
      } else if read == write {
        read, write := 0, 0;
      } else {
        var start, n := read, write - read;
        ghost var before := data[..];
        for i := 0 to n
          modifies data
          invariant forall j :: 0 <= j < i ==> data[j] == before[start + j]
          invariant forall j :: start + i <= j < start + n ==> data[j] == before[j]
        {
          data[i] := data[start + i];
        }
        read, write := 0, n;
      }
    }

    method WriteStruct(bytes: seq<byte>)
      requires Valid()
      modifies this`write, data
      ensures Valid() && AsView() == StructPut(old(AsView()), bytes)
    {
      if CanWrite() && |bytes| <= data.Length - write {
        Fill(bytes);
      }
    }
  }

  // ---- Any sequence of operations behaves as a bounded first-in first-out queue ----

  datatype Op = Receive(bytes: seq<byte>) | Put(bytes: seq<byte>) | Take(n: nat) | Compaction | Clear

  predicate Allowed(v: View, op: Op) {
    && v.Valid()
    && (op.Receive? ==> |op.bytes| <= v.Free())
    && (op.Take? ==> op.n <= |v.contents|)
  }

  function Apply(v: View, op: Op): View
    requires Allowed(v, op)
  {
    match op
    case Receive(bytes) => Appended(v, bytes)
    case Put(bytes) => StructPut(v, bytes)
    case Take(n) => Advanced(v, n)
    case Compaction => Compacted(v)
    case Clear => Emptied(v)
  }

  function Added(v: View, op: Op): seq<byte>
    requires Allowed(v, op)
  {
    match op
    case Receive(bytes) => bytes
    case Put(bytes) => if v.Free() > 0 && |bytes| <= v.Free() then bytes else []
    case _ => []
  }

  function Removed(v: View, op: Op): seq<byte>
    requires Allowed(v, op)
  {
    match op
    case Take(n) => v.contents[..n]
    case Clear => v.contents
    case _ => []
  }

  predicate AllowedRun(v: View, ops: seq<Op>)
    decreases |ops|
  {
    ops == [] || (Allowed(v, ops[0]) && AllowedRun(Apply(v, ops[0]), ops[1..]))
  }

  function Run(v: View, ops: seq<Op>): View
    requires AllowedRun(v, ops)
    decreases |ops|
  {
    if ops == [] then v else Run(Apply(v, ops[0]), ops[1..])
  }

  function AllAdded(v: View, ops: seq<Op>): seq<byte>
    requires AllowedRun(v, ops)
    decreases |ops|
  {
    if ops == [] then [] else Added(v, ops[0]) + AllAdded(Apply(v, ops[0]), ops[1..])
  }

  function AllRemoved(v: View, ops: seq<Op>): seq<byte>
    requires AllowedRun(v, ops)
    decreases |ops|
  {
    if ops == [] then [] else Removed(v, ops[0]) + AllRemoved(Apply(v, ops[0]), ops[1..])
  }

  lemma StepIsFifo(v: View, op: Op)
    requires Allowed(v, op)
    ensures Apply(v, op).Valid() && Apply(v, op).capacity == v.capacity
    ensures v.contents + Added(v, op) == Removed(v, op) + Apply(v, op).contents
  {
  }

  /** Whatever was in the buffer, followed by whatever any run of operations put into it, is what
      the run took out followed by what is left: nothing is lost, repeated or reordered, and the
      pointers stay ordered. */
  lemma {:induction false} RunIsFifo(v: View, ops: seq<Op>)
    requires v.Valid() && AllowedRun(v, ops)
    ensures Run(v, ops).Valid() && Run(v, ops).capacity == v.capacity
    ensures v.contents + AllAdded(v, ops) == AllRemoved(v, ops) + Run(v, ops).contents
    decreases |ops|
  {
    if ops == [] {
    } else {
      var w := Apply(v, ops[0]);
      StepIsFifo(v, ops[0]);
      RunIsFifo(w, ops[1..]);
      var a, r := AllAdded(w, ops[1..]), AllRemoved(w, ops[1..]);
      Reassociated(v.contents, Added(v, ops[0]), a, Removed(v, ops[0]), w.contents, r, Run(w, ops[1..]).contents);
    }
  }

  lemma {:induction false} Reassociated(
    before: seq<byte>, in1: seq<byte>, in2: seq<byte>, out1: seq<byte>, between: seq<byte>, out2: seq<byte>, after: seq<byte>)
    requires before + in1 == out1 + between && between + in2 == out2 + after
    ensures before + (in1 + in2) == (out1 + out2) + after
  {
    assert before + (in1 + in2) == (before + in1) + in2 == out1 + (between + in2) == out1 + (out2 + after);
  }

  /** A queue bounded by `capacity` accepts a block exactly when it fits. */
  function QueueOffer(capacity: nat, q: seq<byte>, bytes: seq<byte>): seq<byte> {
    if |q| + |bytes| <= capacity then q + bytes else q
  }

  /** Storing a block agrees with the bounded queue unless the bytes already consumed, and not yet
      compacted away, are what it is short of; after a compaction it always agrees. */
  lemma StructPutIsQueueOffer(v: View, bytes: seq<byte>)
    requires v.Valid() && bytes != []
    ensures StructPut(v, bytes).contents == QueueOffer(v.capacity, v.contents, bytes)
       <==> !(v.Free() < |bytes| <= v.capacity - |v.contents|)
    ensures StructPut(Compacted(v), bytes).contents == QueueOffer(v.capacity, v.contents, bytes)
    ensures Compacted(v).Free() == v.capacity - |v.contents|
  {
  }
}
