// src/server/utils/stm.c with the state table and the arrival and departure handlers of
// src/server/socks5/socks5_stm.c: one connection's state machine and its per-state parsers.
module StateMachine {
  import opened Bytes
  import HS = HandshakeParser
  import AU = AuthParser
  import CR = ConnReqParser

  datatype State = HANDSHAKE | AUTH | CONNECTION_REQ | CONNECTING | COPY | DONE | ERROR

  datatype Callback = Arrival(s: State) | Departure(s: State)

  /** How many parsers of one kind were created and how many released. */
  datatype Tally = Tally(made: nat, freed: nat)

  /** `visits`, `callbacks` and the tallies are history: no handler looks at them. */
  datatype Machine = Machine(
    current: Option<State>,
    hs: Option<HS.Value>,
    au: Option<AU.Value>,
    cr: Option<CR.Value>,
    visits: seq<State>,         // every state made current, in order
    callbacks: seq<Callback>,   // every on_arrival and on_departure run, in order
    handshakes: Tally, auths: Tally, requests: Tally)

  const START := Machine(None, None, None, None, [], [], Tally(0, 0), Tally(0, 0), Tally(0, 0))

  function Freed(t: Tally, present: bool): Tally { if present then t.(freed := t.freed + 1) else t }

  function Made(t: Tally): Tally { t.(made := t.made + 1) }

  function Ran(m: Machine, cb: Callback): Machine { m.(callbacks := m.callbacks + [cb]) }

  /** The departure handlers release a parser without checking that there is one. */
  predicate CanDepart(m: Machine) {
    match m.current
    case Some(HANDSHAKE) => m.hs.Some?
    case Some(AUTH) => m.au.Some?
    case Some(CONNECTION_REQ) => m.cr.Some?
    case _ => true
  }

  /** `on_departure` of the current state, if it has one. */
  function Departed(m: Machine): Machine
    requires CanDepart(m)
  {
    match m.current
    case Some(HANDSHAKE) => Ran(m.(hs := None, handshakes := Freed(m.handshakes, true)), Departure(HANDSHAKE))
    case Some(AUTH) => Ran(m.(au := None, auths := Freed(m.auths, true)), Departure(AUTH))
    case Some(CONNECTION_REQ) => Ran(m.(cr := None, requests := Freed(m.requests, true)), Departure(CONNECTION_REQ))
    case Some(COPY) => Ran(m, Departure(COPY))
    case _ => m
  }

  /** A new current state and its `on_arrival`, if it has one. */
  function Entered(m: Machine, s: State): Machine {
    var n := m.(current := Some(s), visits := m.visits + [s]);
    match s
    case HANDSHAKE => Ran(n.(hs := Some(HS.INIT), handshakes := Made(m.handshakes)), Arrival(s))
    case AUTH => Ran(n.(au := Some(AU.INIT), auths := Made(m.auths)), Arrival(s))
    case CONNECTION_REQ => Ran(n.(cr := Some(CR.INIT), requests := Made(m.requests)), Arrival(s))
    case CONNECTING => n
    case _ => Ran(n, Arrival(s))
  }

  /** What `socksv5_close` releases. */
  function Discarded(m: Machine): Machine {
    m.(hs := None, au := None, cr := None,
       handshakes := Freed(m.handshakes, m.hs.Some?), auths := Freed(m.auths, m.au.Some?),
       requests := Freed(m.requests, m.cr.Some?))
  }

  // ---- What the history looks like ----

  /** The transitions that the handlers of this protocol make. */
  predicate Edge(a: State, b: State) {
    match a
    case HANDSHAKE => b in {AUTH, CONNECTION_REQ, ERROR}
    case AUTH => b in {CONNECTION_REQ, ERROR}
    case CONNECTION_REQ => b in {CONNECTING, ERROR}
    case CONNECTING => b in {COPY, CONNECTION_REQ, ERROR}
    case COPY => b == ERROR
    case _ => false
  }

  predicate Path(visits: seq<State>) {
    && (visits != [] ==> visits[0] == HANDSHAKE)
    && (forall i, j | 0 <= i < |visits| && 0 <= j < |visits| && j == i + 1 :: Edge(visits[i], visits[j]))
  }

  function DepartureOf(s: State): seq<Callback> {
    if s in {HANDSHAKE, AUTH, CONNECTION_REQ, COPY} then [Departure(s)] else []
  }

  function ArrivalOf(s: State): seq<Callback> { if s == CONNECTING then [] else [Arrival(s)] }

  /** The handlers that a sequence of visits calls for: each state's arrival when it becomes current,
      and its departure when the next one does. */
  function CallbacksOf(visits: seq<State>): seq<Callback> {
    if visits == [] then []
    else
      var init := visits[..|visits| - 1];
      CallbacksOf(init) + (if init == [] then [] else DepartureOf(init[|init| - 1])) + ArrivalOf(visits[|visits| - 1])
  }

  predicate VisitsMatch(m: Machine) {
    && Path(m.visits) && m.callbacks == CallbacksOf(m.visits)
    && m.current == (if m.visits == [] then None else Some(m.visits[|m.visits| - 1]))
  }

  /** Every parser exists exactly while its state is current on a live connection. */
  predicate ParsersMatch(m: Machine, live: bool) {
    && m.hs.Some? == (live && m.current == Some(HANDSHAKE))
    && m.au.Some? == (live && m.current == Some(AUTH))
    && m.cr.Some? == (live && m.current == Some(CONNECTION_REQ))
  }

  function Visits(visits: seq<State>, s: State): nat {
    if visits == [] then 0 else Visits(visits[..|visits| - 1], s) + if visits[|visits| - 1] == s then 1 else 0
  }

  /** One parser was created per visit, and each was released once unless it still exists. */
  predicate Counted(t: Tally, visits: nat, present: bool) {
    t.made == visits == t.freed + if present then 1 else 0
  }

  predicate ParsersCounted(m: Machine) {
    && Counted(m.handshakes, Visits(m.visits, HANDSHAKE), m.hs.Some?)
    && Counted(m.auths, Visits(m.visits, AUTH), m.au.Some?)
    && Counted(m.requests, Visits(m.visits, CONNECTION_REQ), m.cr.Some?)
  }

  predicate History(m: Machine, live: bool) {
    VisitsMatch(m) && ParsersMatch(m, live) && ParsersCounted(m)
  }

  lemma {:induction false} PathExtends(visits: seq<State>, s: State)
    requires Path(visits)
    requires if visits == [] then s == HANDSHAKE else Edge(visits[|visits| - 1], s)
    ensures Path(visits + [s])
    ensures CallbacksOf(visits + [s])
         == CallbacksOf(visits) + (if visits == [] then [] else DepartureOf(visits[|visits| - 1])) + ArrivalOf(s)
    ensures forall t :: Visits(visits + [s], t) == Visits(visits, t) + if s == t then 1 else 0
  {
  }

  /** `jump`, for a state other than the current one. */
  function Jumped(m: Machine, next: State): Machine
    requires CanDepart(m)
  {
    Entered(Departed(m), next)
  }

  /** What a jump adds to the history. */
  lemma {:induction false} JumpRecords(m: Machine, next: State)
    requires m.current.Some? && CanDepart(m)
    ensures var n := Jumped(m, next);
      && n.current == Some(next) && n.visits == m.visits + [next]
      && n.callbacks == m.callbacks + DepartureOf(m.current.value) + ArrivalOf(next)
  {
    var d := Departed(m);
    assert d.visits == m.visits && d.callbacks == m.callbacks + DepartureOf(m.current.value);
  }

  lemma {:induction false} JumpKeepsVisits(m: Machine, next: State)
    requires VisitsMatch(m) && m.current.Some? && Edge(m.current.value, next) && CanDepart(m)
    ensures VisitsMatch(Jumped(m, next))
    ensures forall s :: Visits(Jumped(m, next).visits, s) == Visits(m.visits, s) + if s == next then 1 else 0
  {
    hide Jumped, Path, CanDepart, DepartureOf, ArrivalOf, Edge, CallbacksOf;
    JumpRecords(m, next);
    PathExtends(m.visits, next);
  }

  /** The state just entered has a new parser, and no other state has any. */
  predicate JustEntered(m: Machine, s: State) {
    && m.current == Some(s) && m.hs == (if s == HANDSHAKE then Some(HS.INIT) else None)
    && m.au == (if s == AUTH then Some(AU.INIT) else None)
    && m.cr == (if s == CONNECTION_REQ then Some(CR.INIT) else None)
  }

  /** The parsers and the tallies after a jump. */
  lemma {:induction false} JumpMovesParsers(m: Machine, next: State)
    requires ParsersMatch(m, true) && m.current.Some? && Edge(m.current.value, next)
    ensures CanDepart(m)
    ensures var n := Jumped(m, next);
      && JustEntered(n, next)
      && n.handshakes == Freed(m.handshakes, m.hs.Some?)
      && n.auths == (if next == AUTH then Made(m.auths) else Freed(m.auths, m.au.Some?))
      && n.requests == (if next == CONNECTION_REQ then Made(m.requests) else Freed(m.requests, m.cr.Some?))
  {
  }

  /** A jump along an edge runs the departure of the old state and the arrival of the new one, once
      each, and leaves the parsers as they should be. */
  lemma {:induction false} JumpKeepsHistory(m: Machine, next: State)
    requires History(m, true) && m.current.Some? && Edge(m.current.value, next)
    ensures CanDepart(m) && History(Jumped(m, next), true) && JustEntered(Jumped(m, next), next)
    ensures Visits(Jumped(m, next).visits, CONNECTING) == Visits(m.visits, CONNECTING) + if next == CONNECTING then 1 else 0
  {
    hide Jumped, VisitsMatch, Visits, CanDepart;
    JumpMovesParsers(m, next);
    JumpKeepsVisits(m, next);
  }

  lemma {:induction false} FirstKeepsHistory(m: Machine)
    requires History(m, true) && m.current.None?
    ensures var n := Entered(m, HANDSHAKE);
      History(n, true) && JustEntered(n, HANDSHAKE) && Visits(n.visits, CONNECTING) == Visits(m.visits, CONNECTING)
  {
    PathExtends(m.visits, HANDSHAKE);
  }

  /** Feeding a parser. */
  lemma {:induction false} FeedKeepsHistory(m: Machine, hs: Option<HS.Value>, au: Option<AU.Value>, cr: Option<CR.Value>)
    requires History(m, true) && hs.Some? == m.hs.Some? && au.Some? == m.au.Some? && cr.Some? == m.cr.Some?
    ensures History(m.(hs := hs, au := au, cr := cr), true)
  {
  }

  lemma {:induction false} CloseKeepsHistory(m: Machine)
    requires History(m, true)
    ensures History(Discarded(m), false)
  {
  }
}
