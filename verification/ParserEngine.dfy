// src/server/utils/parser.c: a table automaton that takes, for every byte, the first transition of
// the current state whose condition holds.
module ParserEngine {
  import opened Bytes

  /** `when`: a byte, ANY, or a mask of class bits. */
  datatype Condition = Octet(b: byte) | Any | Class(bits: set<nat>)

  /** `act1` and the optional `act2` label the events that the transition produces. */
  datatype Transition<S> = Transition(when: Condition, dest: S, act1: S, act2: Option<S>)

  datatype Definition<!S> = Definition(states: S -> seq<Transition<S>>, start: S)

  datatype Event<S> = Event(kind: S, data: byte, next: Option<(S, byte)>)

  datatype Cursor<S> = Cursor(state: S, event: Event<S>)

  /** The class bits of the 256 bytes. */
  type Classes = c: seq<set<nat>> | |c| == 256 witness seq(256, _ => {})

  const NO_CLASSES: Classes := seq(256, _ => {})

  predicate Matches(when: Condition, bits: set<nat>, c: byte) {
    match when
    case Octet(b) => c == b
    case Any => true
    case Class(mask) => bits * mask != {}
  }

  /** The position of the first transition that matches, or the number of transitions. */
  function FirstMatch<S>(ts: seq<Transition<S>>, bits: set<nat>, c: byte): (r: nat)
    ensures r <= |ts|
    ensures r < |ts| ==> Matches(ts[r].when, bits, c)
    ensures forall j :: 0 <= j < r ==> !Matches(ts[j].when, bits, c)
  {
    if ts == [] || Matches(ts[0].when, bits, c) then 0 else 1 + FirstMatch(ts[1..], bits, c)
  }

  /** One byte. Without a match the state stays, and the event is the previous one, unlinked. */
  function Fed<S>(def: Definition<S>, classes: Classes, cur: Cursor<S>, c: byte): Cursor<S> {
    var ts := def.states(cur.state);
    var k := FirstMatch(ts, classes[c], c);
    if k == |ts| then cur.(event := cur.event.(next := None))
    else
      var next := match ts[k].act2 case None => None case Some(kind) => Some((kind, c));
      Cursor(ts[k].dest, Event(ts[k].act1, c, next))
  }

  class Parser<S> {
    const classes: Classes
    const def: Definition<S>
    var state: S
    var event: Event<S>

    ghost function AsCursor(): Cursor<S>
      reads this
    {
      Cursor(state, event)
    }

    /** The first event is all zeroes, and state 0 is the start state of every table. */
    constructor (classes: Classes, def: Definition<S>)
      ensures this.classes == classes && this.def == def
      ensures AsCursor() == Cursor(def.start, Event(def.start, 0, None))
    {
      this.classes, this.def := classes, def;
      state, event := def.start, Event(def.start, 0, None);
    }

    method Set(s: S)
      modifies this
      ensures AsCursor() == old(AsCursor()).(state := s)
    {
      state := s;
    }

    method Feed(c: byte) returns (e: Event<S>)
      modifies this
      ensures AsCursor() == Fed(def, classes, old(AsCursor()), c) && e == event
    {
      var bits := classes[c];
      event := event.(next := None);
      var ts := def.states(state);
      var i := 0;
      var matched := false;
      while i < |ts| && !matched
        invariant 0 <= i <= |ts|
        invariant !matched ==>
          && state == old(state) && event == old(event).(next := None)
          && (forall j :: 0 <= j < i ==> !Matches(ts[j].when, bits, c))
        invariant matched ==>
          && i < |ts| && FirstMatch(ts, bits, c) == i
          && AsCursor() == Fed(def, classes, old(AsCursor()), c)
        decreases |ts| - i, !matched
      {
        matched := Matches(ts[i].when, bits, c);
        if matched {
          FirstMatchIs(ts, bits, c, i);
          event := Event(ts[i].act1, c, None);
          if ts[i].act2.Some? {
            event := event.(next := Some((ts[i].act2.value, c)));
          }
          state := ts[i].dest;
        } else {
          i := i + 1;
        }
      }
      return event;
    }
  }

  lemma FirstMatchIs<S>(ts: seq<Transition<S>>, bits: set<nat>, c: byte, i: nat)
    requires i < |ts| && Matches(ts[i].when, bits, c)
    requires forall j :: 0 <= j < i ==> !Matches(ts[j].when, bits, c)
    ensures FirstMatch(ts, bits, c) == i
  {
  }
}
