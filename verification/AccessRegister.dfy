// src/server/s5admin/access_register.c: a ring that keeps the newest entries.
module AccessRegister {
  const REGISTER_MAX_ENTRIES := 100

  /** The newest entries, oldest first. */
  function Newest<T>(s: seq<T>): seq<T> {
    if |s| <= REGISTER_MAX_ENTRIES then s else s[|s| - REGISTER_MAX_ENTRIES..]
  }

  /** i modulo the size of the ring, for i below twice the size. */
  function Wrap(i: nat): nat { if i < REGISTER_MAX_ENTRIES then i else i - REGISTER_MAX_ENTRIES }

  /** `count` slots of the ring, from `head`. */
  function Slots<T>(ring: seq<T>, head: nat, count: nat): (s: seq<T>)
    requires |ring| == REGISTER_MAX_ENTRIES && head < REGISTER_MAX_ENTRIES && count <= REGISTER_MAX_ENTRIES
  {
    seq(count, i requires 0 <= i < count => ring[Wrap(head + i)])
  }

  /** Writing the slot after the last one. */
  lemma {:induction false} SlotsExtend<T>(ring: seq<T>, head: nat, count: nat, entry: T)
    requires |ring| == REGISTER_MAX_ENTRIES && head < REGISTER_MAX_ENTRIES && count <= REGISTER_MAX_ENTRIES
    ensures var after := ring[Wrap(head + count) := entry];
      Newest(Slots(ring, head, count) + [entry]) ==
        if count < REGISTER_MAX_ENTRIES then Slots(after, head, count + 1) else Slots(after, Wrap(head + 1), count)
  {
    var after := ring[Wrap(head + count) := entry];
    var longer := Slots(ring, head, count) + [entry];
    if count == REGISTER_MAX_ENTRIES {
      var next := Slots(after, Wrap(head + 1), count);
      forall i | 0 <= i < count
        ensures longer[1..][i] == next[i]
      {
        assert i < count - 1 ==> Wrap(Wrap(head + 1) + i) == Wrap(head + (i + 1)) != Wrap(head + count);
      }
      assert longer[1..] == next;
    } else {
      var next := Slots(after, head, count + 1);
      forall i | 0 <= i < count
        ensures longer[i] == next[i]
      {
        assert Wrap(head + i) != Wrap(head + count);
      }
      assert longer == next;
    }
  }

  class AccessRegister<T(0)> {
    const entries: array<T>
    var head: nat
    var tail: nat
    var count: nat

    ghost predicate Valid()
      reads this
    {
      && entries.Length == REGISTER_MAX_ENTRIES && head < REGISTER_MAX_ENTRIES && count <= REGISTER_MAX_ENTRIES
      && tail == (head + count) % REGISTER_MAX_ENTRIES
    }

    /** From the oldest entry to the newest. */
    ghost function AsSeq(): seq<T>
      reads this, entries
      requires Valid()
    {
      Slots(entries[..], head, count)
    }

    constructor ()
      ensures Valid() && fresh(entries) && AsSeq() == []
    {
      entries := new T[REGISTER_MAX_ENTRIES];
      head, tail, count := 0, 0, 0;
    }

    method AddEntry(entry: T)
      requires Valid()
      modifies this, entries
      ensures Valid() && AsSeq() == Newest(old(AsSeq()) + [entry])
    {
      hide Slots, Newest;
      SlotsExtend(entries[..], head, count, entry);
      entries[tail] := entry;
      tail := (tail + 1) % REGISTER_MAX_ENTRIES;
      if count < REGISTER_MAX_ENTRIES {
        count := count + 1;
      } else {
        head := (head + 1) % REGISTER_MAX_ENTRIES;
      }
    }

    /** `access_register_print`: the header, every row from the oldest to the newest, and END, as far as
        they fit. */
    method Print(header: seq<char>, row: T -> seq<char>, size: nat) returns (response: seq<char>, written: nat)
      requires Valid()
      ensures (response, written) == Listing(header, Rows(AsSeq(), row), size)
    {
      hide Body, Prefixed, Ending;
      response, written := Fitting(header, size), 0;
      if |header| >= size {
        return;
      }
      written := |header|;
      ghost var rows := Rows(AsSeq(), row);
      ghost var whole := Prefixed(header, written, Body(rows, size - written));
      assert rows[0..] == rows;
      var idx, i, more := head, 0, true;
      while i < count && more
        invariant i <= count && written < size && (more ==> idx == (head + i) % REGISTER_MAX_ENTRIES)
        invariant Prefixed(response, written, if more then Body(rows[i..], size - written) else Ending(size - written)) == whole
        decreases count - i, more
      {
        assert idx == Wrap(head + i);
        BodyStep(rows, i, response, written, size);
        var line := row(entries[idx]);
        if |line| >= size - written {
          more := false;
        } else {
          response, written := response + line, written + |line|;
          idx := (idx + 1) % REGISTER_MAX_ENTRIES;
          i := i + 1;
        }
      }
      EndsWith(rows[i..], response, written, size);
      response := response + Fitting(END_LINE, size - written);
      if |END_LINE| < size - written {
        written := written + |END_LINE|;
      }
    }
  }

  // ---- Printing ----

  const END_LINE: seq<char> := "END\n"

  /** What `snprintf` leaves of a line in the room it is given. */
  function Fitting(line: seq<char>, room: nat): seq<char> {
    if |line| < room then line else if room == 0 then [] else line[..room - 1]
  }

  function Rows<T>(entries: seq<T>, row: T -> seq<char>): seq<seq<char>> {
    seq(|entries|, i requires 0 <= i < |entries| => row(entries[i]))
  }

  /** END, and its length if it fits. */
  function Ending(room: nat): (seq<char>, nat) {
    (Fitting(END_LINE, room), if |END_LINE| < room then |END_LINE| else 0)
  }

  /** The rows up to the first that does not fit, over which END is then written. */
  function Body(rows: seq<seq<char>>, room: nat): (seq<char>, nat) {
    if rows == [] || |rows[0]| >= room then Ending(room)
    else Prefixed(rows[0], |rows[0]|, Body(rows[1..], room - |rows[0]|))
  }

  function Prefixed(response: seq<char>, written: nat, rest: (seq<char>, nat)): (seq<char>, nat) {
    (response + rest.0, written + rest.1)
  }

  /** Without room for the header there is nothing else. */
  function Listing(header: seq<char>, rows: seq<seq<char>>, size: nat): (seq<char>, nat) {
    if |header| >= size then (Fitting(header, size), 0) else Prefixed(header, |header|, Body(rows, size - |header|))
  }

  /** One more row: it is printed if it fits, and otherwise END is next. */
  lemma {:induction false} BodyStep(rows: seq<seq<char>>, i: nat, response: seq<char>, written: nat, size: nat)
    requires i < |rows| && written < size
    ensures Prefixed(response, written, Body(rows[i..], size - written)) ==
      var line := rows[i];
      if |line| >= size - written then Prefixed(response, written, Ending(size - written))
      else Prefixed(response + line, written + |line|, Body(rows[i + 1..], size - written - |line|))
  {
    var line := rows[i];
    if |line| < size - written {
      var rest := Body(rows[i + 1..], size - written - |line|);
      assert rows[i..][1..] == rows[i + 1..];
      assert response + (line + rest.0) == response + line + rest.0;
    }
  }

  lemma {:induction false} EndsWith(rows: seq<seq<char>>, response: seq<char>, written: nat, size: nat)
    requires written < size
    ensures Prefixed(response, written, Ending(size - written)) ==
      (response + Fitting(END_LINE, size - written), if |END_LINE| < size - written then written + |END_LINE| else written)
    ensures rows == [] ==> Body(rows, size - written) == Ending(size - written)
  {
  }

  function Joined(rows: seq<seq<char>>): seq<char> {
    if rows == [] then [] else rows[0] + Joined(rows[1..])
  }

  /** The response is complete, every row and END, if and only if there is room for all of it. */
  lemma {:induction false} PrintComplete(header: seq<char>, rows: seq<seq<char>>, size: nat)
    ensures Listing(header, rows, size) == (header + Joined(rows) + END_LINE, |header| + |Joined(rows)| + |END_LINE|)
       <==> |header| + |Joined(rows)| + |END_LINE| < size
  {
    if |header| < size {
      BodyComplete(rows, size - |header|);
      var whole := Joined(rows) + END_LINE;
      var body := Body(rows, size - |header|).0;
      assert header + Joined(rows) + END_LINE == header + whole;
      assert (header + body)[|header|..] == body && (header + whole)[|header|..] == whole;
    }
  }

  lemma {:induction false} BodyComplete(rows: seq<seq<char>>, room: nat)
    ensures Body(rows, room) == (Joined(rows) + END_LINE, |Joined(rows)| + |END_LINE|) <==> |Joined(rows)| + |END_LINE| < room
  {
    if rows == [] {
      assert [] + END_LINE == END_LINE;
    } else if |rows[0]| < room {
      BodyComplete(rows[1..], room - |rows[0]|);
      var line, rest := rows[0], Joined(rows[1..]) + END_LINE;
      var body := Body(rows[1..], room - |line|).0;
      assert Joined(rows) + END_LINE == line + rest;
      assert (line + body)[|line|..] == body && (line + rest)[|line|..] == rest;
    }
  }

  /** A text with room for a NUL, and END as far as it fits, which counts only if it is whole. */
  function Closed(text: seq<char>, size: nat): (seq<char>, nat)
    requires |text| < size
  {
    var left := size - |text|;
    if left > 4 then (text + "END\n", |text| + 4) else (text + "END\n"[..left - 1], |text|)
  }

  lemma {:induction false} ClosedAfter(line: seq<char>, text: seq<char>, size: nat)
    requires |line| + |text| < size
    ensures Prefixed(line, |line|, Closed(text, size - |line|)) == Closed(line + text, size)
  {
    var left := size - |line| - |text|;
    if left > 4 {
      assert line + (text + "END\n") == line + text + "END\n";
    } else {
      assert line + (text + "END\n"[..left - 1]) == line + text + "END\n"[..left - 1];
    }
  }

  lemma {:induction false} BodyExactly(rows: seq<seq<char>>, room: nat, k: nat)
    requires k <= |rows| && |Joined(rows[..k])| < room && (k < |rows| ==> |Joined(rows[..k + 1])| >= room)
    ensures Body(rows, room) == Closed(Joined(rows[..k]), room)
  {
    if k == 0 {
      NothingFits(rows, room);
    } else {
      assert rows[..k][0] == rows[0] && rows[..k][1..] == rows[1..][..k - 1];
      assert k < |rows| ==> rows[..k + 1][0] == rows[0] && rows[..k + 1][1..] == rows[1..][..k];
      hide Closed;
      BodyExactly(rows[1..], room - |rows[0]|, k - 1);
      ClosedAfter(rows[0], Joined(rows[1..][..k - 1]), room);
    }
  }

  lemma {:induction false} NothingFits(rows: seq<seq<char>>, room: nat)
    requires 0 < room && (rows != [] ==> |Joined(rows[..1])| >= room)
    ensures Body(rows, room) == Closed(Joined(rows[..0]), room)
  {
    assert [] + END_LINE == END_LINE && rows[..0] == [];
    if rows != [] {
      assert rows[..1] == [rows[0]] && [rows[0]][1..] == [] && Joined([rows[0]]) == rows[0] + [];
    }
    assert room <= 4 ==> [] + END_LINE[..room - 1] == END_LINE[..room - 1];
  }

  /** What is printed for any room: the header, as many rows from the oldest on as leave room for a NUL, and
      as much of END as does. */
  lemma {:induction false} PrintExactly(header: seq<char>, rows: seq<seq<char>>, size: nat, k: nat)
    requires k <= |rows| && |header| + |Joined(rows[..k])| < size
    requires k < |rows| ==> |header| + |Joined(rows[..k + 1])| >= size
    ensures Listing(header, rows, size) == Closed(header + Joined(rows[..k]), size)
  {
    hide Closed, Body;
    BodyExactly(rows, size - |header|, k);
    ClosedAfter(header, Joined(rows[..k]), size);
  }

  /** What is kept after adding entries one by one. */
  function Kept<T>(entries: seq<T>): seq<T> {
    if entries == [] then [] else Newest(Kept(entries[..|entries| - 1]) + [entries[|entries| - 1]])
  }

  lemma {:induction false} NewestOf<T>(s: seq<T>, e: T)
    ensures Newest(Newest(s) + [e]) == Newest(s + [e])
  {
    if |s| >= REGISTER_MAX_ENTRIES {
      var k := |s| - REGISTER_MAX_ENTRIES;
      assert (s[k..] + [e])[1..] == (s + [e])[k + 1..];
    }
  }

  /** After any number of additions the register holds the newest hundred, in order. */
  lemma {:induction false} KeepsNewest<T>(entries: seq<T>)
    ensures Kept(entries) == if |entries| <= 100 then entries else entries[|entries| - 100..]
  {
    KeptIsNewest(entries);
  }

  lemma {:induction false} KeptIsNewest<T>(entries: seq<T>)
    ensures Kept(entries) == Newest(entries)
  {
    if entries != [] {
      var before, last := entries[..|entries| - 1], entries[|entries| - 1];
      KeptIsNewest(before);
      NewestOf(before, last);
      assert entries == before + [last];
    }
  }
}
