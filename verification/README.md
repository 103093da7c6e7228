# A verified model of the SOCKS5 proxy

The proxy is a single-threaded, non-blocking SOCKS5 server (RFC 1928, with username/password
authentication as in RFC 1929). This project models its protocol logic in Dafny and proves what a
connection, and the server's tables, do over every run. The kernel is an adversary: it decides how many
bytes each `recv` and `send` moves, when a call would block, fails or meets the end of a stream, what
`connect` says, which numbers new sockets get, and when resolver threads finish.

`dafny verify dfyconfig.toml` checks everything.

| file | models |
|---|---|
| `Relay.dfy` | the data path: two buffers, two sockets' interests, the read and write handlers of COPY |
| `Pipe.dfy` | what the two ends see of the relay: a pair of queues, and the proof that the relay is that |
| `StateMachine.dfy` | the state machine, its table of states, the parsers that exist per state |
| `Socks5.dfy` | a whole connection as functions: handlers, nested jumps, events, runs |
| `Invariant.dfy` | what holds between any two events of a connection, and why |
| `Guarantees.dfy` | what follows: the authentication gate, final errors, delivery, callbacks |
| `Session.dfy` | what client and origin see of a whole connection: a session of messages, replies and phases, with its numbers written out |
| `Refinement.dfy` | the proof that every connection is such a session, over every run |
| `Retries.dfy` | the slot that a retried connection attempt leaves behind, and exactly when |
| `Aftermath.dfy` | the handlers that go on using a connection they have freed, and exactly when |
| `Outcomes.dfy` | what becomes of a request: relayed, turned down, or left without an answer |
| `Progress.dfy` | runs that get to COPY, or to a refusal, for every login and request, and one that gets stuck |
| `Resolver.dfy` | the whole server: many connections, turns of the selector, resolver threads and the list of finished jobs |
| `Descriptors.dfy` | whose descriptor is whose, what a turn dispatches, and the one selector's table |
| `SelectorCalls.dfy` | a connection's slots against the operations on that table |
| `Turns.dfy` | when the server can begin another turn |
| `Closing.dfy` | which events close a descriptor twice |
| `Chunking.dfy` | splitting a message into chunks makes no difference |
| `Connection.dfy`, `DataPath.dfy`, `ParserSlots.dfy` | the connection object with its buffers, parsers and list of addresses, updated in place, proved to compute `Socks5.dfy` |
| `Automaton.dfy` | byte automata: runs, splitting, and automata whose value determines what was fed |
| `ParserEngine.dfy`, `ConnReqParser.dfy`, `AuthParser.dfy`, `HandshakeParser.dfy` | the table automaton and the three message parsers |
| `ByteBuffer.dfy` | the bounded byte buffer |
| `Selector.dfy` | the descriptor table, its sets and maximum, and the scan that serves it |
| `AddressFallback.dfy` | walking, cutting and releasing the resolved addresses |
| `UserTable.dfy` | the chained hash table of users |
| `AdminCommand.dfy` | the admin tokenizer and command parser |
| `AccessRegister.dfy` | the ring of accesses and its listing |

A connection exists twice: as a value (`Socks5.Conn`), whose next value after an event is a function,
and as an object (`Connection.Connection`) whose methods follow the C code, on real buffers, parser
objects and a linked list of addresses, and are proved to reach that value. Properties of runs are proved
about the value; some fields of it are history that no handler looks at (bytes received and sent, states
visited, handlers run). Three flags record what must not happen: `broken` stands for reaching `abort()`,
a null parser, or a thread or job that outlives its connection; `stray` for touching a slot that is not
the connection's; `resumed` for a handler that goes on with the connection after it has been freed. No
run in the environment described below sets the first two. Runs do set the third, at their end:
`FreedMemoryExactly` says which.

Beside both stands a reference: a session (`Session.Session`), which knows only the bytes received, the
results of the calls and the text of RFC 1928 and RFC 1929 as this server reads it. `EverySession` proves that
every connection, with its parsers, buffers, interests, jumps and callbacks, shows both ends exactly what
its session does; `Pipe.IoRunIsPipe` does the same for the relay alone.

## Where the code is not what it seems

Each but the last is a theorem, with the exact condition.

- The state advances on any positive send (`src/server/socks5/socks5.c:135-155`). With the two bytes of
  a reply split, the authentication gate does not hold (`GateNeedsWholeReplies`, `SplitReplyPassesGate`).
- A handler whose nested write ends the connection goes on reading the freed connection
  (`src/server/socks5/states_handlers/handshake.c:16`, `src/server/socks5/states_handlers/auth.c:31`,
  `src/server/socks5/socks5.c:175-180`). A greeting that offers only 0x01 is enough, if its refusal is
  sent at once (`GreetingExactly`, `CredentialsExactly`, `ResumesExactly`, `FreedMemoryExactly`).
- Bytes sent together with a greeting, after it, are fed to a parser that is gone, unless the reply
  could not be sent yet (`GreetingExactly`). Bytes sent together with a request that is refused make the
  refusal touch descriptor 0's slot (`PipelinedRefusalStrays`).
- A failed attempt opens a new socket but keeps the selector's slot of the old one, so it is watched only
  if it gets the same number. With any other number nobody waits for the client any more, or a slot is
  left for a closed descriptor (`WatchedIffNumbersKept`; `RetryOnAnotherNumber` has the runs). Unless
  another connection gets the closed number in the same turn, the next `pselect` fails
  (`src/server/utils/selector.c:541-558`) and the server stops (`src/server/server.c:64`): `PolledExactly`,
  `LastTurn`. If another gets it, the selector refuses to register it, that connection ends and takes the
  slot with it, and the first client waits for ever (`ReusedNumberIsReleased`, `StrandedForEver`).
- A failed attempt with no address left closes its descriptor twice, and so does a notification whose
  addresses are all refused at once (`ClosesTwiceExactly`).
- A retry that connects at once is answered as a failure
  (`src/server/socks5/states_handlers/socks5_connecting.c:97-117`): `RetryRefusedExactly`,
  `InstantRetryIsRefused`.
- Without a socket, `connect_to_host` returns -1, which is the number of CONNECTION_IN_PROGRESS
  (`src/server/utils/netutils.c:146-149`, `src/server/include/netutils.h:19`): a retry then waits for
  nothing, as with another number.
- If the first connection fails for every address, or has no socket or one past the selector's limit,
  the connection ends without a reply (`src/server/socks5/states_handlers/socks5_connecting.c:23-46`):
  `UnansweredExactly`. `FateIsDecided` has all the fates of a request over whole runs.
- The origin is registered without any interest and is read only after the client's first bytes have been
  written to it (`src/server/socks5/states_handlers/socks5_copy.c:11-32`): a service that speaks first is
  never heard by a client that waits for it (`ServerSpeaksInVain`).
- A client that closes its sending side ends the relay at once, and what it sent last may never reach
  the origin (`src/server/socks5/socks5.c:101-106`): `UploadAtClientEof`, `UploadCanBeLost`. The other
  direction is drained (`RelayDelivers`).
- A greeting with a method other than 0x00, 0x01 or 0x02 is refused, where RFC 1928, section 3, lets the
  server ignore it (`AnsweredIffAllKnown`).
- NMETHODS = 0 and a domain name of length 0 each take one byte that was not announced
  (`ZeroMethodsTakesOne`, `ParsedIsEncoding`).
- A domain name over 253 bytes is resolved cut short, although 255 are parsed, and one announced as
  empty is resolved as the empty name (`src/server/socks5/states_handlers/conn_req.c:83-87`);
  `DestinationIsAskedFor` says when a connection goes where it was asked to.
- `selector_register` grows the table for `fd > fd_size` only, so a descriptor equal to the size is
  outside the array, as is any descriptor past it for the other operations; the result OUTSIDE stands for
  that. With the server's 1025 slots it cannot happen (`ServerCapacity`).
- A scan can hand a write handler the data of a slot's previous owner (`WriteKeyIsOwnExactly`,
  `WriteKeyCanBeStale`). The handlers of connections are not among those it happens to
  (`WriteHandlersGetTheirOwn`).
- An admin argument of 256 bytes is accepted but stored without a terminator (`StoredIntact`).
- An admin line of nothing but separators has no first token, and the command comparison is then given a
  null pointer: `ParseCommand` returns false exactly there (`BlankExactly`).
- `parser_no_classes` documents 256 entries (`src/server/include/parser.h:64`) and has 255; the model
  has 256. The three message parsers test no classes.

## What the environment is taken to do

Stated in `Socks5.Enabled` and `Socks5.WholeReply`: the two-byte negotiation replies are not split into
single bytes; a client waits for the reply to its greeting and to its request before it sends more;
the reply to a request that is served has 10 or 22 bytes, and one that refuses it is 05, its code, 00 01 and
six zeros; new sockets have positive numbers, and -1
stands for one that could not be opened; while a connection has a slot for a descriptor it has closed, it
gets no events. The first two are not promised by anyone: `GateNeedsWholeReplies`, `GreetingExactly` and
`PipelinedRefusalStrays` say what follows without them. The last is proved of the whole server
(`DescriptorsStayDisjoint`); there, a new socket never gets the number of another that is open
(`Resolver.CanGet`). Buffers have at least 256 bytes, which the server's settings enforce
(`src/server/server_data.c:33-37`).

## Model

| member | source | states |
|---|---|---|
| Relay.IoStepKeeps | src/server/socks5/states_handlers/socks5_copy.c:24-120 | Every event of the relay, with any partial read, partial send or refusal, keeps it in half duplex: at most one buffer is in use, pending input iff the origin waits to be written, pending output iff the client does, a paused client only with a full input buffer, a paused origin (after the first client byte) only with a full output buffer; and keeps both streams in order, what was received being what had been and the bytes that the event brought. |
| Relay.IoRunKeeps | src/server/socks5/states_handlers/socks5_copy.c:24-120 | Half duplex, and both streams in order against what is recorded as received, over every run of the relay (Pipe.IoRunIsPipe and Pipe.Conserves have the streams in terms of the events alone). |
| Relay.AlwaysAwake | src/server/socks5/socks5.c:119-155 | In every run, pending bytes have their writer armed; with none pending the client is read, and so is the origin, unless it is gone, if and only if the client has sent something. |
| Relay.PausesEnd | src/server/socks5/states_handlers/socks5_copy.c:81-106 | From any state, the sends the sockets accept, in whatever portions, empty both buffers in at most as many events as bytes; until then one is always enabled, and afterwards both sides are read again. |
| Relay.DrainsAfterClose | src/server/socks5/states_handlers/socks5_copy.c:67-70 | With the origin's end and a failed send to the client as recorded (Pipe.RunRecords says for which events they are), a relay that ends has sent the client everything received from the origin. Pipe.DrainsAfterOrigin has it in terms of the events. |
| Relay.ClientEofExactly | src/server/socks5/socks5.c:101-106 | The other direction: when the client finishes, the relay ends, and what it sent has reached the origin if and only if the input buffer was empty then. |
| Relay.UploadCanBeLost | src/server/socks5/socks5.c:101-106 | From every idle relay, a byte that the origin does not take at once, followed by the client's end, is never sent. |
| Relay.FullDuplexWouldStrand | src/server/socks5/socks5.c:130-148 | Why the invariant is needed: with both buffers in use and the output full, a send to the client leaves input pending and nobody waiting to write it. |
| Relay.StartThenRegister | src/server/socks5/states_handlers/socks5_connecting.c:37-45 | Sending the CONNECT reply before the origin is registered, as for a connection made at once, comes to the same as sending it after. |
| Pipe.IoStepIsPipe | src/server/socks5/states_handlers/socks5_copy.c:24-120 | To its two ends the relay is a pair of queues driven by the results of the calls alone, with no interests, descriptors or history: every event changes the bytes sent and the bytes pending in each direction, whether the origin is open, and whether all is over, as it does there. |
| Pipe.IoRunIsPipe | src/server/socks5/states_handlers/socks5_copy.c:24-120 | The same over every run. |
| Pipe.Conserves | src/server/socks5/states_handlers/socks5_copy.c:57-99 | Over every run, in both directions, what has been sent on and what is pending are what there was and the bytes that the events brought, in order. |
| Pipe.ClientSpeaksFirst | src/server/socks5/states_handlers/socks5_copy.c:11-32 | In every run of a new relay in which the client sends nothing, nothing is received from the origin and no event is the origin's. |
| Pipe.OriginEofExactly | src/server/socks5/states_handlers/socks5_copy.c:67-70 | The origin's end, with room for more, unregisters the origin and changes nothing else: the relay goes on, with all that is pending. |
| Pipe.RunRecords | src/server/socks5/states_handlers/socks5_copy.c:57-73 | In every run the origin is recorded as closed, or the client as lost, if and only if there was an event of that kind. |
| Pipe.DrainsAfterOrigin | src/server/socks5/states_handlers/socks5_copy.c:67-70 | In every run in which the origin finishes and no send to the client fails, a relay that has ended has sent the client all it was owed and all the bytes that the events brought. |
| Pipe.ReceiveExactly | src/server/socks5/states_handlers/socks5_copy.c:57-73 | A receive that would block changes nothing, and one that fails ends the relay. |
| StateMachine.JumpKeepsHistory | src/server/utils/stm.c:35-49 | A jump runs the old state's departure and the new state's arrival once each, frees the old state's parser and makes the new state's; all other parsers stay absent and the counts match the visits. |
| StateMachine.FirstKeepsHistory | src/server/utils/stm.c:25-33 | The first event enters HANDSHAKE, runs its arrival and makes its parser. |
| StateMachine.CloseKeepsHistory | src/server/socks5/socks5.c:183-209 | Closing releases exactly the parsers that still exist. |
| Invariant.AcceptedInv | src/server/socks5/socks5.c:19-74 | A connection just accepted, with buffers of at least 256 bytes, satisfies the connection invariant. |
| Invariant.HandshakeReadKeeps | src/server/socks5/states_handlers/handshake.c:14-33 | Reading a chunk of a greeting that ends with it, with the nested write and the nested jump, keeps the invariant, whether or not the nested write ends the connection (Aftermath has what the handler does then). |
| Invariant.AuthReadKeeps | src/server/socks5/states_handlers/auth.c:9-32 | The same for credentials. |
| Invariant.ConnReqReadKeeps | src/server/socks5/states_handlers/conn_req.c:11-57 | The same for a request, whether it is refused, resolved by a thread, or resolved at once (Refinement.RequestShows and Progress.OtherCommandsAreRefused have what it is answered). |
| Invariant.ResolvedKeeps | src/server/utils/netutils.c:128-139 | A resolver thread ends while its connection is still there, and leaves it the very list it found, empty or not, with no other thread and exactly one notification queued; the invariant is kept. |
| Invariant.OnBlockKeeps | src/server/socks5/states_handlers/socks5_connecting.c:9-47 | The notification of a resolution, in all its outcomes, keeps the invariant. |
| Invariant.StartThenJump | src/server/socks5/states_handlers/socks5_connecting.c:37-45 | For a connection made at once, the reply goes out in CONNECTING and its write handler enters COPY; the outcome is the same as entering COPY first. |
| Invariant.ConnectDoneKeeps | src/server/socks5/states_handlers/socks5_connecting.c:80-133 | The origin's first event, success, failure, or a retry on any number, keeps the invariant. |
| Invariant.CopyRefinesRelay | src/server/socks5/states_handlers/socks5_copy.c:24-120 | In COPY, what the connection's handlers do to the data path is what the relay's do. |
| Invariant.BetweenChunks | src/server/socks5/socks5.c:76-96 | Before COPY, whenever the client is read, the input buffer is empty with its full capacity, no resolution is under way, and the parser of the current state is there. |
| Invariant.NotifiedInConnecting | src/server/utils/selector.c:482-503 | A connection with a queued notification is live, in CONNECTING, with its client paused, and has only that one. |
| Invariant.StepKeeps | src/server/socks5/socks5.c:76-181 | Every event the selector can dispatch keeps the connection invariant. |
| Invariant.RunKeeps | src/server/socks5/socks5.c:76-181 | Every run keeps it: no run reaches abort(), a missing parser or another connection's slot, and no thread or notification outlives its connection. |
| Guarantees.HandlersRunOncePerVisit | src/server/socks5/socks5_stm.c:15-57 | Over every run, re-entrant jumps included, arrivals and departures run exactly once per visit and in order, each parser exists exactly while its state is current and is released exactly once, and abort() is never reached. |
| Guarantees.AuthenticationGate | src/server/socks5/states_handlers/auth.c:15-41 | Every run in CONNECTION_REQ, CONNECTING or COPY either offered 0x00 and not 0x02, or had the user table accept exactly the username and password of its byte stream. |
| Guarantees.GateNeedsWholeReplies | src/server/socks5/socks5.c:135-155 | The gate holds over all runs whose sends move at least n bytes or none if and only if n is at least 2: with one-byte sends a client that offers only 0x02 passes without credentials. |
| Guarantees.SplitReplyPassesGate | src/server/socks5/socks5.c:135-155 | The concrete run for that: a three-byte greeting and two sends of one byte. |
| Guarantees.SelectionDecidesState | src/server/socks5/states_handlers/handshake.c:35-45 | A connection answering a greeting holds exactly the method that should be selected, and when that is sent it enters the state that goes with it. |
| Guarantees.DestinationIsAskedFor | src/server/socks5/states_handlers/conn_req.c:75-88 | What is resolved is the destination of the request parsed if and only if its bytes are that request's wire form and a name has at most 253 bytes and no NUL. |
| Guarantees.ServesItsRequest | src/server/socks5/states_handlers/conn_req.c:29-47 | In every run, in CONNECTING and COPY the connection is past the gate and is for the very CONNECT request that the client sent, with the destination as above, and it is logged under the name the gate accepted. |
| Guarantees.GateAsksTheTable | src/server/utils/auth_table.c:87-100 | What the gate accepts is what the hash table holds, for the C strings in the parsed fields. |
| Guarantees.ErrorIsFinal | src/server/socks5/states_handlers/socks5_connecting.c:54-61 | From any point with an error reply, every continuation enters no state, or only ERROR with which it ends; it never reaches COPY. |
| Guarantees.BackwardOnlyInError | src/server/socks5/states_handlers/socks5_connecting.c:13-21 | Back in CONNECTION_REQ after CONNECTING, the error flag is set. |
| Guarantees.CopyRunIsRelayRun | src/server/socks5/states_handlers/socks5_copy.c:11-120 | From COPY on, every run of the connection is a run of the relay on the same data path. |
| Guarantees.RelayDelivers | src/server/socks5/states_handlers/socks5_copy.c:57-99 | Over every run from any moment in COPY: half duplex and no lost wake-up while live; in each direction the bytes sent on and the buffer are those of that moment and the bytes that the events brought, in order; the metric is the number of bytes sent to the client; and if an event is the origin's end, and none a failed send to the client, the connection ends with nothing left to send to it. |
| Guarantees.UploadAtClientEof | src/server/socks5/socks5.c:101-106 | The client's end ends every connection in COPY, and then the origin has everything the client sent if and only if the input buffer was empty. |
| Guarantees.ClientStream | src/server/socks5/socks5.c:130-152 | In COPY the client has been sent, or is owed, exactly 05 and 02 followed by 01 00 if its greeting offered 02, and otherwise 05 00, then the CONNECT reply, then the origin's bytes. |
| Guarantees.NothingQueuedIsDropped | src/shared/buffer.c:98-103 | With 256 bytes of room, no reply that was queued is ever dropped. |
| Refinement.GreetingShows | src/server/socks5/states_handlers/handshake.c:14-45 | What a chunk makes of a greeting, by the bytes so far: the end for a first byte other than 05 or a method over 02, else waiting for 05, n and n methods, else 05 and 02, 00 or FF, sent as far as the first send goes, and credentials, a request or the end to follow. |
| Refinement.CredentialsShow | src/server/socks5/states_handlers/auth.c:9-41 | The same for credentials: 01, u, u bytes, p, p bytes, answered 01 00 if the users have that name with that password as C strings, and else 01 01 and the end. |
| Refinement.CredentialsAnswered | src/server/socks5/socks5_responses.c:11-16 | Whenever complete credentials have been read, in whatever chunks, the connection is live and queues 01 00 if the table has them, and otherwise 01 01 with the error flag. |
| Refinement.RequestShows | src/server/socks5/states_handlers/conn_req.c:11-88 | The same for a request: refused with 05 07 for any command but CONNECT, and else resolved, for the destination that the bytes name. |
| Refinement.NotificationShows | src/server/socks5/states_handlers/socks5_connecting.c:9-47 | What a notification makes of the session: 05 04 and the end without addresses; otherwise the first that is not refused decides, and it is relayed, awaited, or over. |
| Refinement.FailedShows | src/server/socks5/states_handlers/socks5_connecting.c:93-117 | What a failed attempt makes of it: the next attempt if that is in progress, and otherwise the error reply and the end. |
| Refinement.StepShows | src/server/socks5/socks5.c:76-181 | Every event of a connection is that event of its session: a reference of a SOCKS5 session in terms of messages, replies and phases, with no parsers, buffers, interests or callbacks, and every number written out (Session.dfy). |
| Refinement.EverySession | src/server/socks5/socks5.c:19-181 | Over every run from its acceptance a connection is the session of its events: the same bytes sent to both ends, the same owed, the same name and destination logged, over at the same moment, and its client's socket waiting for what the phase waits for. |
| Refinement.ServedStream | src/server/socks5/states_handlers/socks5_connecting.c:37-45 | For every run through COPY, everything that both ends are sent from the acceptance on: to the client 05 02 01 00 or 05 00, the reply of the event that connected, and the bytes that the origin's events brought; to the origin the bytes that the client's events brought since. |
| Refinement.ServerSpeaksInVain | src/server/socks5/states_handlers/socks5_copy.c:11-32 | For every run through COPY: until the client sends something after the reply to its request, no event is the origin's, and the client is not sent a byte of what the origin says. |
| Retries.StepIsPollable | src/server/socks5/states_handlers/socks5_connecting.c:93-117 | An event leaves every slot of a connection on an open descriptor if and only if it is not a retry that gets another number than the one just closed, or no socket at all. |
| Retries.OrphanIsStuck | src/server/socks5/states_handlers/socks5_connecting.c:97-113 | A connection that has a slot for a closed descriptor is in CONNECTING, its client's socket still registered, with no thread and no notification. (That it then gets no event repeats Socks5.Enabled; that this leaves nothing out is Descriptors.DispatchedIsEnabled.) |
| Retries.WatchedIffNumbersKept | src/server/socks5/states_handlers/socks5_connecting.c:93-117 | In every run, a client paused before COPY is awaited by exactly one of a resolver thread, a queued notification or the open socket of an attempt, and every slot is for an open descriptor, if and only if every retry on the way got the number of the socket closed before it. |
| Aftermath.GreetingExactly | src/server/socks5/states_handlers/handshake.c:14-33 | For every chunk and every result of the nested send: a missing parser is fed if and only if bytes follow an acceptable greeting whose reply was sent; and the handler goes on with a freed connection if and only if the greeting is complete and the send fails or sends a refusal. |
| Aftermath.CredentialsExactly | src/server/socks5/states_handlers/auth.c:9-32 | The same for credentials: never a missing parser, and a freed connection if and only if they are complete and the send fails or sends a refusal. |
| Aftermath.PipelinedRefusalStrays | src/server/socks5/socks5.c:143-148 | Sending a refused request's reply touches descriptor 0's slot if and only if bytes followed the request. |
| Aftermath.ResumesExactly | src/server/socks5/socks5.c:76-181 | For every event in every reachable state, the exact condition on the event under which a handler goes on with the connection it has freed. |
| Aftermath.FreedMemoryExactly | src/server/socks5/socks5.c:76-181 | A run has used freed memory if and only if it contains such an event. |
| Outcomes.UnansweredExactly | src/server/socks5/states_handlers/socks5_connecting.c:23-46 | A notification ends the connection with nothing queued for the client if and only if there were addresses and either all were refused at once, or the attempt has no socket or one past the selector's limit. |
| Outcomes.RetryRefusedExactly | src/server/socks5/states_handlers/socks5_connecting.c:93-117 | After a failed attempt the connection is answered with an error, and holds exactly that reply for the client, if and only if no further attempt is in progress; the connection stays, and keeps the addresses not tried. |
| Outcomes.InstantRetryIsRefused | src/server/socks5/states_handlers/socks5_connecting.c:97-117 | The witness: a retry whose first address connects at once is answered as a failure. |
| Outcomes.FateIsDecided | src/server/socks5/states_handlers/socks5_connecting.c:9-133 | Over every run from the resolution on, the request is relayed, turned down with a reply, left unanswered or pending exactly as the verdicts of its connects say. |
| Resolver.NotifiedExactlyOnce | src/server/utils/selector.c:482-528 | In every interleaving of turns, connections, resolver threads and deliveries: jobs pushed are jobs served plus jobs pending, none is ever stale, each pending job is the only one of a live connection waiting in CONNECTING, and each entry into CONNECTING is notified exactly once. |
| Resolver.DeliverOneKeeps | src/server/utils/selector.c:482-503 | A delivered job reaches the live connection that asked for it. |
| Resolver.NewestFirst | src/server/utils/selector.c:505-528 | A finished job goes before those that wait, of which none is for the same connection. |
| Resolver.OnlyTheNotification | src/server/utils/netutils.c:128-139 | While a notification is queued, nothing else can happen to its connection. |
| Resolver.AcceptKeeps | src/server/connection_helper.c:3-35 | A descriptor can be reused by a new connection as soon as the old one has ended: no job is left for it; a number whose slot is used, or past the limit, is refused. |
| Resolver.HandleBlockNotifications | src/server/utils/selector.c:482-503 | The loop delivers the whole list, newest first, unless a connection takes a socket whose slot is another's. |
| Descriptors.StepHolds | src/server/socks5/states_handlers/socks5_connecting.c:93-117 | An event of a connection leaves it with no descriptor, open or registered, but those it had and the last socket that the event opened. |
| Descriptors.DispatchedIsEnabled | src/server/utils/selector.c:449-480 | What the scan can dispatch to a connection, in any reachable state of the server, finds all its slots on its own open sockets: for a slot left behind nothing is dispatched, because what `pselect` had found there has been served. |
| Descriptors.DescriptorsStayDisjoint | src/server/utils/selector.c:341-411 | From the server's start, in every interleaving, until a connection keeps a socket whose slot is another's: no two connections hold the same descriptor, open or registered, although the system may give out numbers whose slots were left behind; and whatever can be dispatched is enabled. |
| Descriptors.WantsIffServes | src/server/utils/selector.c:449-480 | With all slots of all connections in one table, at every moment of a scan and for whatever `pselect` found: the slot is interested if and only if its connection has an event that can be dispatched there, and its attachment is that connection. |
| Descriptors.OthersKeepTheirSlots | src/server/utils/selector.c:379-430 | An event of one connection leaves every slot of another as it is, except that a slot left behind goes if and only if the event gets its number and gives it back. |
| Descriptors.WriteHandlersGetTheirOwn | src/server/utils/selector.c:457-477 | Although the key is taken before the read handler runs, a connection's write handler in the same visit is given its own connection. |
| SelectorCalls.SetClientIs | src/server/utils/selector.c:413-430 | On one connection's slots SetClient is `selector_set_interest` on the table of all of them. |
| SelectorCalls.SetOriginIs | src/server/utils/selector.c:413-430 | The same for SetOrigin, its failures included. |
| SelectorCalls.ReleaseOriginIs | src/server/utils/selector.c:379-411 | ReleaseOrigin is `selector_unregister_fd` on that table. |
| SelectorCalls.RegisterOriginIs | src/server/utils/selector.c:341-377 | RegisterOrigin is `selector_register` on that table, its failures included. |
| SelectorCalls.EndIs | src/server/socks5/socks5_stm.c:88-103 | The end of a connection is unregistering its origin, if it has one, and its client. |
| SelectorCalls.AcceptIs | src/server/connection_helper.c:3-35 | An accepted socket is registered for reading with `selector_register`, and becomes a connection if and only if the table takes its number. |
| SelectorCalls.LeftIsInUse | src/server/utils/selector.c:357-361 | Registering a number whose slot was left behind is refused as in use. |
| SelectorCalls.ClearedIs | src/server/utils/selector.c:379-411 | Unregistering it removes its owner's slot, and changes nothing else. |
| Turns.PolledExactly | src/server/utils/selector.c:530-570 | From the server's start, in every interleaving, with numbers left behind given out again or not: the slots left behind are exactly the numbers that retries have lost and no other connection has got since and given back; a connection works on a socket whose slot is another's if and only if it got such a number and kept it; and otherwise all slots are on open sockets, so that `pselect` works, if and only if there is no such number. |
| Turns.KeptNumbersArePolled | src/server/utils/selector.c:530-570 | As long as every retry gets the number of the socket it closed, `pselect` works. |
| Turns.LastTurn | src/server/server.c:62-69 | If a turn ends with a number left behind it is the last one: nothing happens any more but the end of resolver threads. |
| Turns.ReusedNumberIsReleased | src/server/socks5/socks5_stm.c:88-103 | A notification that gets a number left behind and does not start to relay at once ends its own connection, and the slot's owner goes on without its slot. |
| Turns.StrandedForEver | src/server/socks5/states_handlers/socks5_connecting.c:97-101 | A connection that has lost its slot that way while waiting stays as it is in every continuation: never read, answered or closed. |
| Progress.RequestIsServed | src/server/socks5/states_handlers/socks5_connecting.c:9-133 | For every login that the gate admits (0x00, or 0x02 with credentials the table accepts), every CONNECT request, numeric or by name, and every first verdicts that are not all refusals and do not lack a socket, whether the connection is made at once or completes later, there is a run from acceptance to COPY. |
| Progress.OtherCommandsAreRefused | src/server/socks5/states_handlers/conn_req.c:20-27 | For every login that the gate admits and every well-formed request for another command, the run leaves the connection live in CONNECTION_REQ with the error flag, the client waiting to be written, and exactly the reply 05 07 00 01 and six zeros pending; with that sent the client has it at the end of its stream, and the connection ends. |
| Progress.RetryOnAnotherNumber | src/server/socks5/states_handlers/socks5_connecting.c:93-117 | For every such request whose first attempt is in progress with addresses left: if it fails and the next socket has another number or there is none, the connection is live and not watched, with a slot left behind; it gets no event any more (which is Socks5.Enabled's condition; Turns has what that means for the server). |
| Chunking.CredentialsInAnyChunks | src/server/socks5/states_handlers/auth.c:9-32 | Credentials read in any chunks leave the connection exactly as read in one. |
| Chunking.RequestInAnyChunks | src/server/socks5/states_handlers/conn_req.c:11-57 | A request read in any chunks leaves the connection exactly as read in one. |
| Connection.Connection.constructor | src/server/socks5/socks5.c:19-74 | The new object is an accepted connection over the two memories. |
| Connection.Connection.JumpTo | src/server/utils/stm.c:35-49 | Updates the object in place as the transition function says. |
| Connection.Connection.Write | src/server/socks5/socks5.c:119-167 | `socksv5_write` on the two buffer objects, with the nested state machine reaction. |
| DataPath.DataPath.SendToClient | src/server/socks5/socks5.c:119-167 | On the two pointer buffers and the slots: metric, consumption, compaction and the overwritten interests after a send, or the end after a failed one. |
| DataPath.DataPath.SendToOrigin | src/server/socks5/states_handlers/socks5_copy.c:81-120 | The same towards the origin. |
| ParserSlots.ParserSlots.Credentials | src/server/socks5/states_handlers/auth.c:15-41 | The C strings in the parser's arrays are the credentials parsed, cut at their first NUL: complete fields are terminated, whatever follows. |
| AddressFallback.AddressSlot.Connect | src/server/utils/netutils.c:142-180 | The connection's own list becomes the addresses left for a retry. |
| Connection.Connection.HandshakeReadReady | src/server/socks5/states_handlers/handshake.c:14-33 | The draining loop on the buffer and the parser object, including the write in the middle of it, a parser that is gone and a connection that is freed; afterwards the buffer is drained unless the greeting was refused. |
| Connection.Connection.AuthReadReady | src/server/socks5/states_handlers/auth.c:9-32 | The same for credentials. |
| Connection.Connection.ConnReqReadReady | src/server/socks5/states_handlers/conn_req.c:11-57 | The same for a request. |
| Connection.Connection.CopyReadReadyHandler | src/server/socks5/states_handlers/socks5_copy.c:24-33 | `copy_read`: arms the origin and tries a first send. |
| Connection.Connection.CopyWriteHandler | src/server/socks5/states_handlers/socks5_copy.c:81-120 | `copy_write_handler`: sends input to the origin, compacts, and resumes the paused side. |
| Connection.Connection.CopyReadHandler | src/server/socks5/states_handlers/socks5_copy.c:47-79 | `copy_read_handler`: receives from the origin, back-pressure and the origin's end. |
| Connection.Connection.Read | src/server/socks5/socks5.c:76-117 | `socksv5_read`; the input buffer is compacted again afterwards. |
| Connection.Connection.OnBlockReady | src/server/socks5/states_handlers/socks5_connecting.c:9-47 | `connecting_on_block_ready`. |
| Connection.Connection.BlockReady | src/server/socks5/socks5.c:169-181 | `socksv5_block`, up to the use of a connection that ERROR has freed. |
| Connection.Connection.ConnectHandler | src/server/socks5/states_handlers/socks5_connecting.c:80-133 | `handle_write_connecting`, with the nested read event that enters COPY. |
| Connection.Connection.Handle | src/server/utils/selector.c:449-503 | Every event on the object is the step of the model, and keeps the invariant and both buffers compacted. |
| Connection.Connection.HandleAll | src/server/utils/selector.c:530-570 | So the object goes through exactly the model's runs. |
| ParserEngine.Parser.Feed | src/server/utils/parser.c:46-78 | Takes the first transition that matches, or none, and links its events. |
| ParserEngine.FirstMatchIs | src/server/utils/parser.c:46-78 | A transition that matches and has none matching before it is the one taken. |
| Automaton.RunAppend | src/server/utils/parser.c:46-78 | Splitting the input of a byte automaton anywhere changes nothing. |
| Automaton.NotYetSnoc | src/server/utils/parser.c:46-78 | If done values stay, an input whose last byte but one left the automaton unfinished was never done before. |
| Automaton.RunConsumes | src/server/utils/parser.c:46-78 | An automaton whose steps keep a condition and record their byte does so over every input, until it is done or fails. |
| Automaton.AnswerIsBounded | src/server/utils/parser.c:46-78 | If fewer than n bytes lead to each of its unanswered values, any n bytes contain its answer. |
| ConnReqParser.ConnReqParser.Feed | src/server/socks5/parsers/conn_req_parser.c:243-284 | One byte, over any input: the step of the automaton with its counters; stores stay within the 256 bytes and the uint8 counter never wraps. |
| ConnReqParser.TableMeansStep | src/server/socks5/parsers/conn_req_parser.c:76-226 | The transition tables, under first match, are the automaton that the feed function expects. |
| ConnReqParser.EncodingParses | src/server/socks5/parsers/conn_req_parser.c:243-284 | For every command, address and port, the encoding is answered with DONE exactly at its last byte, with those fields. |
| ConnReqParser.ParsedIsEncoding | src/server/socks5/parsers/conn_req_parser.c:148-154 | A sequence first done at its end is the encoding of its fields if and only if it is not a domain of declared length zero. |
| ConnReqParser.UnannouncedIsAccepted | src/server/socks5/parsers/conn_req_parser.c:268-274 | A domain of declared length zero still takes one byte as its name. |
| ConnReqParser.AcceptedLanguage | src/server/socks5/parsers/conn_req_parser.c:76-284 | The sequences accepted are exactly the encodings and those zero-length requests. |
| ConnReqParser.RunConsumes | src/server/socks5/parsers/conn_req_parser.c:243-284 | Over every byte sequence the fields stay within their lengths, and until an answer they determine the bytes. |
| ConnReqParser.Absorbing | src/server/socks5/parsers/conn_req_parser.c:198-220 | No byte changes anything after DONE or ERROR. |
| ConnReqParser.RequestIsBounded | src/server/socks5/parsers/conn_req_parser.c:243-284 | Any 262 bytes contain the end of a request or an error. |
| AuthParser.AuthParser.Feed | src/server/socks5/parsers/auth_parser.c:133-162 | One byte, over any input and also past DONE: counters never wrap and every store, terminators included, stays within 256 bytes. |
| AuthParser.TableMeansStep | src/server/socks5/parsers/auth_parser.c:57-116 | The tables are the automaton that the feed function expects. |
| AuthParser.EncodingParses | src/server/socks5/parsers/auth_parser.c:133-162 | The encoding of any credentials of 1 to 255 bytes each is done exactly at its last byte, with those credentials. |
| AuthParser.AcceptedLanguage | src/server/socks5/parsers/auth_parser.c:57-162 | A sequence is first done at its end if and only if it encodes credentials of 1 to 255 bytes, and then those in the fields. |
| AuthParser.RunConsumes | src/server/socks5/parsers/auth_parser.c:133-162 | Over every byte sequence the fields stay within their lengths, and until an answer they determine the bytes. |
| AuthParser.Absorbing | src/server/socks5/parsers/auth_parser.c:84-90 | No byte changes anything after DONE or ERROR. |
| AuthParser.CredentialsAreBounded | src/server/socks5/parsers/auth_parser.c:133-162 | Any 513 bytes contain the end of the credentials or an error. |
| HandshakeParser.HandshakeParser.Feed | src/server/socks5/parsers/handshake_parser.c:102-127 | One byte: the step of the automaton, and what is reported, which is not absorbing. |
| HandshakeParser.SelectsMethod | src/server/socks5/parsers/handshake_parser.c:102-127 | For every list of 1 to 255 known methods the parser is done exactly at the last byte, and the reply is 0x02 if offered, else 0x00 if offered, else 0xFF, whatever the order and repetitions. |
| HandshakeParser.AnsweredIffAllKnown | src/server/socks5/parsers/handshake_parser.c:136-141 | A greeting is answered without error if and only if it offers only 0x00, 0x01 and 0x02. |
| HandshakeParser.AnsweredShape | src/server/socks5/parsers/handshake_parser.c:102-127 | Conversely, whatever stream is answered is a greeting of known methods with these flags, or one with no methods and one byte more. |
| HandshakeParser.ZeroMethodsTakesOne | src/server/socks5/parsers/handshake_parser.c:48-50 | NMETHODS = 0 still takes one byte, and is then answered with 0xFF. |
| ByteBuffer.Buffer.Compact | src/shared/buffer.c:84-95 | The overlapping move keeps the contents and gives back all the room. |
| ByteBuffer.Buffer.ReadAdv | src/shared/buffer.c:51-62 | Consuming takes from the front; the last byte rewinds the buffer. |
| ByteBuffer.Buffer.WriteStruct | src/shared/buffer.c:98-103 | A block is stored whole or, silently, not at all. |
| ByteBuffer.RunIsFifo | src/shared/buffer.c:43-103 | Over any sequence of operations, what was there and what was put in is what came out and what is left, in order. |
| ByteBuffer.StructPutIsQueueOffer | src/shared/buffer.c:98-103 | Storing a block agrees with a bounded queue if and only if consumed bytes not yet compacted away are not what it is short of; after compaction it always does. |
| AddressFallback.ConnectToHost | src/server/utils/netutils.c:142-180 | The linked list splits into what was tried, released, and a kept tail that is still a list; without a socket all of it is kept; any other result releases all of it. |
| AddressFallback.FallbackInOrder | src/server/utils/netutils.c:142-180 | Over the first connection and all retries, of which one without a socket is the last, the addresses tried are a prefix of the list, in order, without repetition. |
| AddressFallback.RetriesRunOut | src/server/socks5/states_handlers/socks5_connecting.c:97-107 | There are at most as many calls as addresses. |
| Closing.ClosesTwiceExactly | src/server/socks5/states_handlers/socks5_connecting.c:93-117 | An event closes a number that is closed already if and only if it is a failed attempt, or a notification with addresses, whose walk ends in CONNECTION_FAILED. |
| Selector.NextCapacity | src/server/utils/selector.c:188-202 | One more than the next power of two or the platform's limit, and always more than asked for. |
| Selector.ServerCapacity | src/server/utils/selector.c:297-313 | The 1024 slots the server asks for become 1025, so every valid descriptor has one. |
| Selector.AppliedExactly | src/server/utils/selector.c:341-430 | On the abstract table: which operations succeed (a descriptor from 0 to 1023, not in use to register it and in use for the others), what the others answer, and that only that descriptor's registration changes, and how. |
| Selector.PutAgrees | src/server/utils/selector.c:361-373 | Filling a slot keeps slots, descriptor sets and maximum in agreement, and updates the abstract table at that descriptor only. |
| Selector.ClearAgrees | src/server/utils/selector.c:402-407 | Clearing a slot, with a recomputed maximum, keeps them in agreement and removes that descriptor only. |
| Selector.Selector.RegisterFd | src/server/utils/selector.c:341-377 | For any descriptor and any table: insert-if-absent with its error cases, out of memory included; the slot is outside the array if and only if the descriptor is the array's own size. |
| Selector.Selector.UnregisterFd | src/server/utils/selector.c:379-411 | Deletion with its error cases; outside the array if and only if the descriptor is valid and not below its size. |
| Selector.Selector.SetInterestOf | src/server/utils/selector.c:413-430 | Replaces one descriptor's interest, with its error cases; outside the array as for deletion. |
| Selector.Selector.ItemsMaxFd | src/server/utils/selector.c:221-232 | The largest used descriptor, or 0. |
| Selector.Selector.EnsureCapacity | src/server/utils/selector.c:254-295 | Growing keeps every registration, whatever realloc finds in the new slots, or reports that the platform's limit is passed or that there is no memory. |
| Selector.Selector.HandleIteration | src/server/utils/selector.c:449-480 | The scan over the array, with handlers that change the table, is the scan over the abstract table. |
| Selector.ScanCallsDueOnce | src/server/utils/selector.c:449-480 | Whatever handlers do to the table, only handlers whose slot is in use and interested at that moment are called, in ascending order, at most once per direction. |
| Selector.CallsExactlyDue | src/server/utils/selector.c:449-480 | And no due handler is skipped. |
| Selector.WriteKeyIsOwnExactly | src/server/utils/selector.c:457-477 | A write handler is given its own slot's data if and only if, after what the read handler just before did, the last registration in effect for that descriptor carries the same data. |
| Selector.WriteKeyCanBeStale | src/server/utils/selector.c:457-477 | The witness: a slot unregistered and registered again in the read handler; the new owner's write handler is given the old owner's data. |
| UserTable.HashOf | src/server/utils/auth_table.c:14-21 | djb2 as a loop (BucketIs has what it comes to). |
| UserTable.BucketIs | src/server/utils/auth_table.c:14-21 | The bucket in closed form: 5381 and then the characters, from -128 to 127, as the digits of a number in base 33, modulo 2 to the 64th, modulo 1031. |
| UserTable.UserTable.AddUser | src/server/utils/auth_table.c:41-68 | On the linked chains: insertion at the head, unless the name is there. |
| UserTable.UserTable.RemoveUser | src/server/utils/auth_table.c:70-85 | On the linked chains: the first entry of that name is unlinked and the rest stays linked in order. |
| UserTable.UserTable.CheckCredentials | src/server/utils/auth_table.c:87-100 | True if and only if an entry with that name and password is in the chain. |
| UserTable.UserTable.ListUsers | src/server/utils/auth_table.c:102-119 | The response text and the reported length, for any room. |
| UserTable.AddIsInsert | src/server/utils/auth_table.c:41-68 | Insert-if-absent on the finite map; names stay unique and in their own buckets. |
| UserTable.RemoveIsDelete | src/server/utils/auth_table.c:70-85 | Deletion on the finite map. |
| UserTable.CheckIsLookup | src/server/utils/auth_table.c:87-100 | Checking is comparing with the password looked up. |
| UserTable.TableIsMap | src/server/utils/auth_table.c:41-100 | Over any sequence of additions and removals the table is that map. |
| UserTable.AddThenCheck | src/server/utils/auth_table.c:57-60 | A user just added is let in if and only if name and password have at most 255 bytes. |
| UserTable.AddThenRemove | src/server/utils/auth_table.c:70-85 | Removing a user just added restores the table. |
| UserTable.ListsEveryUserOnce | src/server/utils/auth_table.c:102-119 | The names listed are the users, each once. |
| UserTable.AddedIsListed | src/server/utils/auth_table.c:41-68 | A new name is listed after all names in lower buckets and before all others; these keep their order. |
| UserTable.RemovedIsListed | src/server/utils/auth_table.c:70-85 | Removing a name takes it out of the list, and leaves the others in their order. |
| UserTable.ListingComplete | src/server/utils/auth_table.c:102-119 | The list is complete, END included, if and only if there is room for all of it and a NUL. |
| UserTable.ListingExactly | src/server/utils/auth_table.c:102-119 | For any room and any names: the text is the whole list cut to the room less one byte; the length reported is that of the lines that fit whole, and of END, 4, if it was reached, cut or not. |
| AdminCommand.Line.NextToken | src/shared/s5admin_parser.c:21-36 | strtok_r: the next token of the rest of the line, cut off in place; the rest keeps the other tokens. |
| AdminCommand.ParseArgs | src/shared/s5admin_parser.c:38-108 | The arguments as the command's arity asks for, or the first complaint. |
| AdminCommand.ParseCommand | src/shared/s5admin_parser.c:21-36 | For every line: the fields, or false if and only if the line is blank. |
| AdminCommand.BlankExactly | src/shared/s5admin_parser.c:25-29 | There is no first token to compare if and only if the line has nothing but spaces, carriage returns and line feeds. |
| AdminCommand.CommandIff | src/shared/s5admin_parser.c:6-19 | A line that is not blank is a command if and only if its first token is one of the twelve names, the others are as many as that command takes, and none exceeds 256 bytes; the number is the command's, 0 to 11, and otherwise 12. |
| AdminCommand.ComplaintIs | src/shared/s5admin_parser.c:90-108 | What the answer to any other line says: the first thing that is wrong with it, word for word. |
| AdminCommand.PrintParses | src/shared/s5admin_parser.c:21-36 | Words without spaces, carriage returns, line feeds and NULs, printed with any runs of those three characters between them, are the tokens again. |
| AdminCommand.PrintedCommandParses | src/shared/s5admin_parser.c:21-108 | Any command with as many arguments of 1 to 255 bytes as it takes parses back to its number and its arguments, NUL-terminated. |
| AdminCommand.StoredIntact | src/shared/s5admin_parser.c:49-56 | A stored argument is NUL-terminated if and only if it is shorter than 256 bytes. |
| AccessRegister.AccessRegister.AddEntry | src/server/s5admin/access_register.c:16-40 | The oldest entry makes room for the newest. |
| AccessRegister.AccessRegister.Print | src/server/s5admin/access_register.c:51-86 | The response and its reported length, for any room: the header, the rows from the oldest entry to the newest up to the first that does not fit, and END over the last one cut. |
| AccessRegister.PrintComplete | src/server/s5admin/access_register.c:51-86 | The listing is complete if and only if there is room for all of it and a NUL. |
| AccessRegister.PrintExactly | src/server/s5admin/access_register.c:51-86 | For any room with the header: as many rows as leave room for a NUL, and then as much of END as does; END counts only if it is whole. |
| AccessRegister.KeepsNewest | src/server/s5admin/access_register.c:34-39 | After any number of additions the register holds the newest hundred, in order. |

## Left out

- Aftermath.FreedMemoryExactly: that a freed connection is used, and when, is stated; what the process then does is not modelled.
- Connection.Connection.BlockReady: the second unregistering at `src/server/socks5/socks5.c:175-180`, on the freed connection, is recorded by `resumed`; its effect is not modelled.
- Connection.Connection.ConnectHandler: a failing `getsockopt` is not modelled, nor what a second `close` does; ClosesTwiceExactly says when there is one.
- Connection.Connection.ConnReqReadReady: numeric addresses are taken to keep their value through their text form.
- AddressFallback.ConnectToHost: setting non-blocking mode (`fcntl` on a socket just opened) is taken to succeed.
- Turns.PolledExactly: once a connection keeps a socket whose slot is another's (`crossed`), what their handlers do to each other is not modelled; nor are sockets other than the connections' that may get such a number.
- Descriptors.WriteHandlersGetTheirOwn: that the calls of a whole handler make the table of the next state is not put together from SelectorCalls' theorems about each call, and so is a premise.
- Selector.Selector.HandleIteration: only for a table as large as the server's; a smaller one can be reallocated by a handler while the scan holds a pointer into it.
- Resolver.NotifiedExactlyOnce: a thread's end is one step, and delivering the list, which happens under the mutex, is another; finer interleavings of a thread with the loop touch no shared field but `addr_info`.
- Selector.Selector.UnregisterFd: `handle_close` is taken not to touch the table, as `socksv5_close` does not.
- Selector.Selector.RegisterFd: for a slot outside the table only the fact is stated, not what is found or overwritten there.
- UserTable.TableIsMap: names over 255 bytes, which only an admin argument of 256 bytes can be, are stored cut short and possibly in the bucket of their full length; AddThenCheck says what they are worth.
- AdminCommand.ParseCommand: what comparing a null pointer does.
- AccessRegister.AccessRegister.AddEntry: an entry is opaque; formatting, dates and truncation of its fields are not modelled.
- The bytes of the reply to a request that is served (`create_conn_req_response`, `getsockname`): an opaque string of its declared length.
- Running out of memory other than in the selector, signals, shutdown, logging, `pselect` itself, the text of addresses, and errno mapping.
- Start-up and arguments (`server.c`, `args.c`), the admin client and its connection loop, configuration setters, and metrics other than the bytes transferred.
- A limit on the number of connections: the accept loop is not part of this model.
