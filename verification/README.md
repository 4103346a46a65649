# A verified model of the Civ VI LAN relay

The relay lets players of Civilization VI meet in rooms over a WireGuard tunnel. A router keeps the rooms,
their members, the members' host sessions, discovery requests and gameplay sessions; a UDP dispatcher feeds
it datagrams in a small binary envelope; an HTTP control plane creates rooms and admits peers; a client-side
session keeps the path alive. This project models those parts and proves what they promise.

## How it is laid out

- `Protocol`, `Codec`, `CodecProofs`: the envelope. `Codec` has the layout as functions, and the writer and
  the reader as classes that append to a buffer and advance a cursor; `CodecProofs` shows them inverse.
  `WireFormat` is the format once more as a relation between bytes and messages, every number written out, which
  the encoder and the decoder are each proved to realise exactly.
- `RouterTables`: the router's meaning, on its primary tables alone. Each operation is a function from tables
  to tables and a result. `Inv` is the invariant everything else rests on: unique codes and addresses, every
  route between current members of one room, at most one host session per peer, every gameplay session
  created from a host session that is still there, and the five limits.
- `RouterInvariant`: every operation keeps `Inv`. `RouterIndexes`, `RouterPasses`: how the redundant indexes
  follow the tables, and how the collect-then-remove passes compose.
- `RoomRouter` (module `RoomRouterClass`): the program, a class over eight maps. `Valid()` says that every
  index answers what a full scan would, and that `Inv` holds. Each method is proved to do to the tables
  exactly what `RouterTables` says; that no map lookup can fail is part of each proof.
- `RouterAnswers`: for each operation of the router, when it succeeds, with which error it fails otherwise, and
  what the tables hold afterwards, in terms of their entries alone. `RouteEndings`, `HostLeases`: which steps of a
  run end a route, and who keeps one.
- `RouterRuns`, `PeerLeases`, `LeaseRuns`, `Sweeps`, `SuspendedPeers`, `Conservation`, `DiscoveryRuns`: theorems
  over all runs of the router.
- `RateLimiter`, `Relay`, `RelayDelivery`, `RelayDispatcher`, `RateBounds`, `Sequences`: the dispatcher, the
  limiter and the sequence tracker, and what the last two let through; `RateWindows` has the limiter without its
  counters. `Acceptance`, `RoundTrips`, `ServerLimits`: which datagrams the server accepts, what it sends for them,
  and whole datagrams there and back. `ServerRuns`, `ConnectionEpochs`,
  `ServerSequences`, `DiscoveryTrips`, `ServerAsRouter`, `SilentPeers`: theorems over all runs of the server,
  which is datagrams, control-plane operations and sweeps in any order. `ServerAsRouter` shows each of them to
  be a run of the router, so the router theorems carry over.
- `Restore`, `ControlPlane`, `AppState`, `HandlerAnswers`, `KeyRuns`: restart, address allocation, the handlers with
  their roll-backs and what they answer, and the key table over runs.
- `SessionSpec`, `RelaySession`, `SessionRuns`, `SessionStates`, `SessionNumbers`, `ClientAndServer`: the client's
  probe-and-reconnect loop, its state and waits, the numbers it sends, and the loop with the server's resume as its callback.

## Conventions

- Times are integers in any one unit and are parameters, as are random ids. A new host session id is taken
  to be one not in use; so is a new gameplay session id where a roll-back is concerned. No other freshness is
  assumed. Where a theorem needs the clock not to go back, its precondition says so.
- Hash iteration order is left open: methods visit sets in an arbitrary order, and a fan-out list is any
  listing of the specified set.
- `origin` in the tables is a history variable. The program does not store which host session a gameplay
  session came from; the model records it in order to state the theorems about it.
- Integers of the program are bounded where the bound shows: epochs, sequence numbers and round-trip times
  saturate at 2^64-1, failure and attempt counters at 2^32-1, ports and lengths are 16 bits wide.

## Statements that are weaker than one might expect, because the code is

- A suspended peer owns nothing right after the sweep that suspends it, and goes on owning nothing if and only
  if none of the steps is its own successful registration, request or selection
  (`SuspendedPeers.OwnsNothingExactly`). Suspension prevents none of these in the control plane, which asks for
  membership alone (`SuspendedPeers.SuspendedPeerMayHost`, `SuspendedPeers.SuspendedPeerMaySelect`); the relay
  itself refuses everything from a suspended peer (`SuspendedPeers.SuspendedPeerIsRefused`).
- The roll-back of host registration is exact if and only if the peer had no host session before; otherwise a
  failing database write costs it the session it had (`ControlPlane.UnregisterUndoesRegisterExactly`).
- The sequence tracker refuses a packet if and only if it repeats its peer's largest number since the table was
  last cleared; repeats of smaller numbers pass as reordered, and so do repeats of what was cleared
  (`Sequences.DispositionExactly`). It does not know epochs, so a pair of epoch and number that was never sent is
  refused when the number meets the largest of another epoch (`ServerSequences.FreshPairRefusedExactly`).
- A client's (epoch, sequence) pairs rise if and only if every reconnect brings a later epoch
  (`SessionNumbers.SentPairsRiseExactly`). The server's resume does so if and only if it had suspended the peer:
  one that is still connected keeps its epoch (`ClientAndServer.PairsRiseWhenSuspended`).
- Re-encoding an accepted packet gives it back except when its path marker is 0 and its path byte is not
  (`CodecProofs.ReencodesToItselfExactly`).
- The rate limiter keeps the limit in every window (`RateBounds.EveryWindowKeepsLimit`), but in every span of
  one window's length if and only if the limit is at most 1 or the window at most one tick
  (`RateBounds.NeverOverExactly`); a span may hold up to 2*limit-1 grants, and no more
  (`RateLimiter.SlidingBound`, `RateBounds.SlidingBoundIsReached`).
- A sweep that drops a peer leaves its WireGuard key behind, and nothing deletes such a key until the peer joins
  again (`KeyRuns.KeysOfMembersAndDropped`, `KeyRuns.DroppedKeyCannotBeDeleted`).

## Model

| member | source | states |
|---|---|---|
| `Codec.EncodePacket` | crates/protocol/src/relay.rs:175-275 | the appending encoder produces the specified frame, or the specified error |
| `Codec.DecodePacket` | crates/protocol/src/relay.rs:277-363 | the cursor-driven decoder reads what stands at the fixed offsets, with every error case |
| `Codec.ByteWriter.WriteMeta` | crates/protocol/src/relay.rs:365-376 | the 26 metadata bytes are appended |
| `Codec.ByteReader.ReadMeta` | crates/protocol/src/relay.rs:378-409 | the metadata at the cursor is read, and a path marker above 1 refused |
| `Codec.ByteWriter.WriteMessage` | crates/protocol/src/relay.rs:184-261 | fields then payload are appended for each of the eight kinds; only an over-long payload fails |
| `Codec.ByteReader.ReadMessage` | crates/protocol/src/relay.rs:314-362 | each kind's fields and payload are read, nothing may trail |
| `Codec.BigEndianRoundTrip` | crates/protocol/src/relay.rs:365-376 | reading back a big-endian integer of any width that fits gives it back |
| `Codec.FromBigEndianRoundTrip` | crates/protocol/src/relay.rs:378-409 | writing back an integer read from bytes gives the bytes back |
| `CodecProofs.EncodeSucceedsExactly` | crates/protocol/src/relay.rs:17-20 | encoding fails exactly for payloads over 4096 bytes, its body-size branch is unreachable, every packet fits the receive buffer |
| `CodecProofs.RoundTripV2` | crates/protocol/src/relay.rs:175-363 | decoding an encoded v2 packet gives the message and all its metadata back |
| `CodecProofs.RoundTripLegacy` | crates/protocol/src/relay.rs:175-363 | decoding an encoded v1 packet gives the message back with default metadata |
| `CodecProofs.DecodeInverse` | crates/protocol/src/relay.rs:277-409 | any accepted packet re-encodes, under its own version, to itself with an idle path byte zeroed |
| `CodecProofs.ReencodesToItselfExactly` | crates/protocol/src/relay.rs:378-409 | re-encoding gives the very packet if and only if its idle path byte is not set |
| `CodecProofs.DecodeInjective` | crates/protocol/src/relay.rs:277-363 | accepted packets of one version that decode alike agree up to the idle path byte; v1 packets agree entirely |
| `WireFormat.DecodesExactly` | crates/protocol/src/relay.rs:277-363 | a packet is accepted and read as a message with metadata if and only if its bytes say so: magic, version, kind number, size and each field at its place |
| `WireFormat.EncodesExactly` | crates/protocol/src/relay.rs:175-275 | encoding with metadata gives the one version 2 packet that says message and metadata, with a zero where there is no path, and fails if there is none |
| `WireFormat.EncodesLegacyExactly` | crates/protocol/src/relay.rs:175-275 | encoding without metadata gives the one version 1 packet that says the message |
| `WireFormat.MetaExactly` | crates/protocol/src/relay.rs:365-409 | 26 bytes are read as metadata exactly if sequence, epoch and time stand there most significant byte first, then the path marker and the path |
| `WireFormat.HeaderRefused` | crates/protocol/src/relay.rs:277-312 | size, magic, version and length are tested in that order, each with its own error, then the kind of a version 1 packet |
| `RoomRouterClass.RoomRouter.constructor` | crates/router/src/lib.rs:281-293 | a new router is valid and empty |
| `RoomRouterClass.RoomRouter.CreateRoomWithId` | crates/router/src/lib.rs:376-400 | adds the room and its code, or refuses: limit, then duplicate code, then duplicate id |
| `RoomRouterClass.RoomRouter.RemoveEmptyRoom` | crates/router/src/lib.rs:402-414 | removes exactly a room without members and host sessions |
| `RoomRouterClass.RoomRouter.RoomIdForCode` | crates/router/src/lib.rs:416-418 | the code index finds the room with that code, or there is none |
| `RoomRouterClass.RoomRouter.PeerForVirtualIp` | crates/router/src/lib.rs:448-450 | the address index finds the member holding the address, or there is none |
| `RoomRouterClass.RoomRouter.IsVirtualIpAvailable` | crates/router/src/lib.rs:452-454 | true exactly when no peer in the table holds the address |
| `RoomRouterClass.RoomRouter.JoinRoom` | crates/router/src/lib.rs:456-500 | admits a peer with epoch 1, or refuses with the first of the five errors that applies |
| `RoomRouterClass.RoomRouter.MarkPeerSeen` | crates/router/src/lib.rs:514-524 | renews a connected peer's activity; a suspended one is refused |
| `RoomRouterClass.RoomRouter.ResumePeer` | crates/router/src/lib.rs:548-575 | reconnects within the grace; only a suspended peer's epoch moves on |
| `RoomRouterClass.RoomRouter.LeaveRoom` | crates/router/src/lib.rs:577-629 | the three passes and the member's removal drop the peer and all it takes part in, and nothing else |
| `RoomRouterClass.RoomRouter.RegisterHost` | crates/router/src/lib.rs:631-677 | refreshes a live session, or replaces an expired one if the room has space; `RouterAnswers.RegisterKeepsLiveSession`, `RouterAnswers.RegisterReplacesExpired` and `RouterAnswers.RegisterRefuses` give each outcome by the entries of the tables |
| `RoomRouterClass.RoomRouter.HeartbeatHost` | crates/router/src/lib.rs:679-694 | extends the lease of a live host session; `RouterAnswers.HeartbeatAnswers` says when it is accepted and how it is refused |
| `RoomRouterClass.RoomRouter.HeartbeatHostForRoom` | crates/router/src/lib.rs:696-712 | the same, for the session's own room and peer only; `RouterAnswers.RoomHeartbeatAnswers` gives each outcome |
| `RoomRouterClass.RoomRouter.UnregisterHost` | crates/router/src/lib.rs:731-737 | drops the host session and the gameplay sessions created from it |
| `RoomRouterClass.RoomRouter.BeginDiscovery` | crates/router/src/lib.rs:739-788 | caches or refreshes the request and lists each live host session of the room once; a conflicting reuse of the id fails |
| `RoomRouterClass.RoomRouter.RouteDiscoveryResponse` | crates/router/src/lib.rs:790-818 | names the asking client if request and host are live and of one room |
| `RoomRouterClass.RoomRouter.SelectHost` | crates/router/src/lib.rs:820-858 | creates a gameplay session between a member and a live host of its room, within the limit |
| `RoomRouterClass.RoomRouter.RouteGameplayDatagram` | crates/router/src/lib.rs:860-895 | routes to the other end and renews the session; outsiders are refused; `RouterAnswers.RouteAnswers` says when, where to and with which errors |
| `RoomRouterClass.RoomRouter.RemoveGameplaySession` | crates/router/src/lib.rs:916-925 | removes exactly that session |
| `RoomRouterClass.RoomRouter.RemoveHost` | crates/router/src/lib.rs:1062-1073 | matching sessions by room and host peer drops exactly those created from the host session |
| `RoomRouterClass.RoomRouter.DisconnectPeer` | crates/router/src/lib.rs:1041-1060 | stamps the peer suspended and drops all it takes part in |
| `RoomRouterClass.RoomRouter.EvictPeers` | crates/router/src/lib.rs:979-983 | the ignored result of leaving is always success, and all the given peers go |
| `RoomRouterClass.RoomRouter.Expire` | crates/router/src/lib.rs:927-990 | the five passes are one filter over all the tables, and the report counts the expired leases |
| `RoomRouterClass.RoomRouter.MemberState` | crates/router/src/lib.rs:1015-1032 | gives a member's record, whether suspended or not |
| `RoomRouterClass.RoomRouter.ValidatePayload` | crates/router/src/lib.rs:1034-1039 | refuses payloads over 4096 bytes or the configured size; `RelayDelivery.ForwardedFits` says what follows |
| `RelayDelivery.ForwardedFits` | crates/router/src/lib.rs:1034-1039 | nothing the server forwards carries more than 4096 bytes |
| `RoomRouterClass.RoomRouter.Dispatch` | crates/router/src/lib.rs:295-368 | the relay action for each ingress, with the fan-out listed in some order |
| `RouterAnswers.CreateAnswers` | crates/router/src/lib.rs:376-400 | a room is created if and only if there is space and neither its code nor its id is in use; each refusal at its exact condition |
| `RouterAnswers.RemoveRoomAnswers` | crates/router/src/lib.rs:402-414 | a room is removed if and only if nobody is in it and no host session belongs to it |
| `RouterAnswers.JoinAnswers` | crates/router/src/lib.rs:456-500 | a peer is admitted if and only if the room exists, room and router have space, and neither id nor address is in use; each refusal at its exact condition |
| `RouterAnswers.LeaveAnswers` | crates/router/src/lib.rs:577-629 | a peer leaves if and only if it is a member of that room |
| `RouterAnswers.LeavingTakes` | crates/router/src/lib.rs:577-629 | exactly the host sessions, requests and games that it takes part in go with it, and every other stays as it was |
| `RouterAnswers.SeenAnswers` | crates/router/src/lib.rs:514-524 | a peer is seen if and only if it is there and not suspended; both refusals at their exact conditions |
| `RouterAnswers.ResumeAnswers` | crates/router/src/lib.rs:548-575 | a resume succeeds if and only if the peer is of that room and, if suspended, within its grace; what it then is, with its exact epoch, and the three refusals |
| `RouterAnswers.RegisterKeepsLiveSession` | crates/router/src/lib.rs:640-646 | a member with a live host session that registers gets that session back with its lease renewed, and nothing else changes |
| `RouterAnswers.RegisterReplacesExpired` | crates/router/src/lib.rs:640-677 | without a live one it gets the new session, and what goes is exactly its expired session and the games on it |
| `RouterAnswers.RegisterRefuses` | crates/router/src/lib.rs:637-659 | strangers are refused, and members without a session while the room is full; who is refused changes nothing |
| `RouterAnswers.HeartbeatAnswers` | crates/router/src/lib.rs:679-694 | a heartbeat is accepted if and only if the session is there and its lease runs; not found and expired at their exact conditions |
| `RouterAnswers.RoomHeartbeatAnswers` | crates/router/src/lib.rs:696-712 | through the control plane if and only if it also is of that room and peer; the three refusals |
| `RouterAnswers.UnregisterAnswers` | crates/router/src/lib.rs:731-737 | a host session that is there goes, with exactly the games of its peer as host |
| `RouterAnswers.DiscoverAnswers` | crates/router/src/lib.rs:739-788 | a request is taken if and only if its port is 62900 to 62999, the client is a member and the id is free or its own for that port; it is then asked of exactly the live host sessions of the room |
| `RouterAnswers.ReplyAnswers` | crates/router/src/lib.rs:790-818 | a reply is routed, to the asking client, if and only if both leases run and both are of one room; each refusal at its exact condition |
| `RouterAnswers.SelectAnswers` | crates/router/src/lib.rs:820-858 | a game is created if and only if the client is a member, the host session live and of its room, and there is space; its exact entry and each refusal |
| `RouterAnswers.RouteAnswers` | crates/router/src/lib.rs:860-895 | a datagram is routed if and only if its game is live and it comes from one of the two ends: from the client to the host, from the host to the client; both refusals at their exact conditions |
| `RouterAnswers.RemoveGameAnswers` | crates/router/src/lib.rs:916-925 | a game that is there is removed, and no other |
| `RouterAnswers.SweepLeavesPeers` | crates/router/src/lib.rs:958-983 | a peer within its lease or grace stays as it is, one past its lease is suspended if there is a grace, every other is gone |
| `RouterAnswers.SweepLeavesHosts` | crates/router/src/lib.rs:927-990 | a host session survives a sweep if and only if its own lease runs and its peer is in time |
| `RouterAnswers.SweepLeavesRequests` | crates/router/src/lib.rs:927-990 | a request survives a sweep if and only if its own lease runs and its client is in time |
| `RouterAnswers.SweepLeavesGames` | crates/router/src/lib.rs:927-990 | a game survives a sweep if and only if its own lease and that of a host session of its host peer run and both peers are in time |
| `RouterAnswers.SweepAccounts` | crates/router/src/lib.rs:927-957 | the reported counts, what is left, and what went along with a peer or a host session add up to what there was |
| `RouterAnswers.DispatchesDiscovery` | crates/router/src/lib.rs:295-368 | a discovery request is dispatched if and only if its payload is within both limits, its port a discovery port, its source a peer and its id free; oversize, unknown source and wrong port at their exact conditions |
| `RouterAnswers.DispatchesResponse` | crates/router/src/lib.rs:295-368 | the same for a reply, and the tables stay as they were |
| `RouterAnswers.DispatchesGameplay` | crates/router/src/lib.rs:295-368 | the same for a gameplay packet, whose port has to be 62056 |
| `RouteEndings.HostEndsExactly` | crates/router/src/lib.rs:577-990 | at every step of every run a host session goes if and only if it is unregistered, its peer leaves, its peer registers after its lease, or a sweep finds its lease or its peer over |
| `RouteEndings.RequestEndsExactly` | crates/router/src/lib.rs:577-990 | a request goes if and only if its client leaves or a sweep finds its lease or its client over |
| `RouteEndings.GameEndsExactly` | crates/router/src/lib.rs:577-990 | a game goes if and only if it is removed, its client leaves, a sweep finds its lease or its client over, or its host session goes |
| `RouteEndings.GamesEndForAReason` | crates/router/src/lib.rs:577-990 | a game that is gone after a run ended at some step by one of these |
| `RouteEndings.RegistrationsSpareLiveGames` | crates/router/src/lib.rs:640-651 | in no reachable state does a registration, by whomever, end a game whose host session is live |
| `HostLeases.RenewedExactly` | crates/router/src/lib.rs:640-694 | a step renews a host session if and only if it is a heartbeat for it, or a registration by its owner, while the lease runs |
| `HostLeases.ExpiredStaysExpired` | crates/router/src/lib.rs:688-693 | over any run past the end of its lease a host session is never renewed |
| `HostLeases.ActiveMemberStays` | crates/router/src/lib.rs:958-983 | over any run a member that is active less than a lease before every sweep stays connected |
| `HostLeases.SteadyHostStays` | crates/router/src/lib.rs:679-694 | a connected member that sends heartbeats less than a lease apart keeps its host session through every sweep and whatever else happens |
| `HostLeases.GameInUseStays` | crates/router/src/lib.rs:860-895 | a game between a connected client and such a host goes on as long as datagrams of either end come less than an idle lease apart |
| `RouterPasses.SweepPhases` | crates/router/src/lib.rs:927-990 | dropping expired leases, suspending the stale and evicting those beyond grace equals one filter |
| `RouterPasses.LeavingDropsRoutes` | crates/router/src/lib.rs:577-619 | the passes restricted to one room miss nothing of the peer |
| `RouterPasses.SuspendingDropsRoutes` | crates/router/src/lib.rs:1041-1060 | the passes of a disconnect together drop everything the peer takes part in |
| `RouterIndexes.SessionsMatchedByHost` | crates/router/src/lib.rs:1062-1073 | sessions matched by room and host peer are those created from that host session |
| `RouterIndexes.HostByPeerAnswers` | crates/router/src/lib.rs:640-649 | the index entry of a room and peer is the set of all their host sessions |
| `RouterInvariant.SweptOk` | crates/router/src/lib.rs:927-990 | a sweep keeps the routing invariant |
| `RouterInvariant.RegisterHostOk` | crates/router/src/lib.rs:631-677 | registering keeps the routing invariant |
| `RouterInvariant.SelectHostOk` | crates/router/src/lib.rs:820-858 | selecting a host keeps the routing invariant |
| `RouterInvariant.DispatchOk` | crates/router/src/lib.rs:295-368 | dispatching keeps the routing invariant |
| `RouterRuns.RunOk` | crates/router/src/lib.rs:268-278 | every sequence of operations, at any times, keeps the invariant |
| `RouterRuns.LimitsHoldForever` | crates/router/src/lib.rs:381-383 | no reachable router exceeds any of the five configured limits |
| `RouterRuns.GameplayProvenance` | crates/router/src/lib.rs:820-858 | in every reachable state a gameplay session's host peer has exactly one host session, the one it was created from, and both ends are members under the stored addresses |
| `RouterRuns.OriginIsTheSelectedHost` | crates/router/src/lib.rs:820-895 | a step either selects a host for the session or leaves its ends and provenance alone |
| `RouterRuns.SelectedHostNeverLeft` | crates/router/src/lib.rs:1062-1073 | the host session selected for a gameplay session has been registered ever since |
| `PeerLeases.PeerEvolvesAlone` | crates/router/src/lib.rs:514-575 | what an operation makes of a member depends on that member's record alone |
| `PeerLeases.PeerRunsAlone` | crates/router/src/lib.rs:958-983 | over whole runs a member's fate is the fold of its own record |
| `PeerLeases.NeverEvictedEarly` | crates/router/src/lib.rs:958-983 | a member keeps room, address and epoch order unless it left or was swept no earlier than last activity plus lease plus grace |
| `PeerLeases.AddressReserved` | crates/router/src/lib.rs:478-480 | nobody is granted the address of a peer in the table |
| `PeerLeases.GoneByDeadline` | crates/router/src/lib.rs:958-983 | with sweeps at most d apart, a silent peer is gone from every table by last activity plus lease plus grace plus 2d |
| `Sweeps.SweepingTwiceIsIdle` | crates/router/src/lib.rs:927-990 | a second sweep at the same time changes nothing and reports zeros |
| `Sweeps.SweepTiming` | crates/router/src/lib.rs:927-990 | an earlier sweep in between changes neither the routes nor who is connected at the later one |
| `Sweeps.OnlyTheLastSweepCounts` | server/src/relay.rs:278-316 | the same for any series of ticks |
| `SuspendedPeers.FreshlySuspendedOwnNothing` | crates/router/src/lib.rs:1041-1060 | what a sweep has just suspended has no host session, request or gameplay session |
| `SuspendedPeers.RouteGainedExactly` | crates/router/src/lib.rs:631-858 | a peer without routes gets one by a step if and only if the step is its own successful registration, request or selection |
| `SuspendedPeers.OwnsNothingExactly` | crates/router/src/lib.rs:1041-1060 | over whole runs a peer goes on owning nothing if and only if no step is its own successful registration, request or selection |
| `SuspendedPeers.SuspendedStaysWithoutRoutes` | crates/router/src/lib.rs:958-983 | after the sweep that suspends it a peer owns nothing while no registration, request or selection names it |
| `SuspendedPeers.SuspendedPeerMayHost` | crates/router/src/lib.rs:1015-1032 | a suspended member may register if and only if it has a session or its room has space, and then owns one while still suspended |
| `SuspendedPeers.SuspendedPeerMaySelect` | crates/router/src/lib.rs:820-858 | a suspended member may select any live host of its room while there are sessions left, and then is the client of one |
| `SuspendedPeers.SuspendedPeerIsRefused` | server/src/relay.rs:104-114 | whatever comes from a suspended peer's address is refused and leaves the router as it was |
| `Conservation.MembersAddUp` | crates/router/src/lib.rs:427-438 | the rooms' member counts add up to the number of peers |
| `Conservation.HostsAddUp` | crates/router/src/lib.rs:992-999 | the rooms' host counts add up to the number of host sessions |
| `Conservation.OwnerAlwaysReregisters` | crates/router/src/lib.rs:640-659 | the host limit never stops a member that already has a session, live or expired |
| `Conservation.RegisterSucceedsExactly` | crates/router/src/lib.rs:631-677 | registering succeeds if and only if the peer is a member and has a session or the room has space |
| `Conservation.FanoutIsEachLiveHostOnce` | crates/router/src/lib.rs:772-787 | a fan-out names each live host session of the room once, no other, all at different addresses of members |
| `DiscoveryRuns.ReplyGoesToTheAsker` | crates/router/src/lib.rs:790-818 | in every reachable state a reply is routed only to a peer that asked that request, in the replying host's room, less than a lease ago |
| `DiscoveryRuns.PendingWasAsked` | crates/router/src/lib.rs:739-771 | a cached request was asked at some step and has been unchanged since |
| `DiscoveryRuns.RequestKeepsItsOwner` | crates/router/src/lib.rs:752-770 | while a request is cached, no step changes its room, client or port |
| `DiscoveryTrips.DiscoveryRoundTrip` | server/src/relay.rs:182-254 | a request reaches the host, and after any events that leave request and host session there, the host's answer within the leases reaches the client at its address, and nobody else |
| `DiscoveryTrips.HostKeepsOwner` | crates/router/src/lib.rs:631-694 | while a host session is there, no step changes its room, peer or address |
| `LeaseRuns.HostStep` | crates/router/src/lib.rs:631-694 | a step renews a host session's lease from its own time on, or leaves the session exactly as it was |
| `LeaseRuns.HostWasRenewed` | crates/router/src/lib.rs:631-694 | every host session was registered or renewed at some step and its lease has run from there since |
| `LeaseRuns.FanoutReachesRecentHosts` | crates/router/src/lib.rs:772-787 | in every reachable state a fan-out reaches only hosts that registered or sent a heartbeat less than a lease ago |
| `LeaseRuns.SessionWasUsed` | crates/router/src/lib.rs:820-895 | every gameplay session was created or carried a datagram at some step and its idle lease has run from there since |
| `LeaseRuns.RoutedOnlyWhenRecent` | crates/router/src/lib.rs:860-895 | in every reachable state a datagram is routed only in a session used less than an idle lease ago |
| `RateLimiter.FixedWindowRateLimiter.Allow` | server/src/state.rs:52-73 | purges, opens or keeps the key's window, and counts the call if it is granted |
| `RateLimiter.OtherKeysDoNotMatter` | server/src/state.rs:58-72 | which calls of a key are granted depends on that key's calls alone, whatever is purged |
| `RateLimiter.RefusedExactlyWhenSpent` | server/src/state.rs:67-69 | a call is refused if and only if the key's window, less than one length old, has had the whole limit |
| `RateLimiter.SlidingBound` | server/src/state.rs:52-73 | a half-open span of one window's length holds fewer than 2*limit grants to a key |
| `RateWindows.GrantedExactly` | server/src/state.rs:52-73 | a call is granted if and only if it is among the first so many calls of its key in the window open for it |
| `ServerLimits.RateLimitedExactly` | server/src/relay.rs:84-87 | in every reachable state a well-formed IPv4 datagram is refused for its rate if and only if its address has already sent as many in the window open for it |
| `RateBounds.EveryWindowKeepsLimit` | server/src/state.rs:63-71 | every window a key ever has in the table sees at most limit of its calls granted, however the run goes on |
| `RateBounds.SlidingBoundIsReached` | server/src/state.rs:52-73 | for every limit and every window of at least two ticks, some history is granted 2*limit-1 calls in one span of a window's length |
| `RateBounds.NeverOverExactly` | server/src/state.rs:52-73 | the limit bounds every span of one window's length if and only if it is at most 1 or the window at most one tick |
| `RelayDispatcherClass.SequenceTracker.RecordSequence` | server/src/metrics.rs:127-151 | classifies the number and keeps the table, clearing it when full; `Sequences.DispositionExactly` says what that means over histories |
| `Sequences.DispositionExactly` | server/src/metrics.rs:127-151 | after any history, clearings included, a packet is a duplicate, reordered or new as its number equals, is below or is above its peer's largest since the last clearing |
| `Sequences.NothingClearedAtFirst` | server/src/metrics.rs:134-138 | until more numbered senders than the table holds have come, nothing is cleared |
| `Sequences.OlderRepeatGetsThrough` | server/src/metrics.rs:143-146 | after any history, a repeat of any non-zero number below that largest passes as reordered |
| `ServerSequences.DuplicateRefusedExactly` | server/src/relay.rs:115-122 | in every reachable state a datagram is refused as a duplicate if and only if it gets to the check with its peer's largest number since the last clearing |
| `ServerSequences.FreshPairRefusedExactly` | server/src/relay.rs:115-122 | a never-sent pair of epoch and number is refused exactly when the number meets that largest, which then is of another epoch |
| `RelayDispatcherClass.RelayDispatcher.HandleDatagram` | server/src/relay.rs:74-180 | decode, source, rate limit, address, epoch, liveness, sequence and dispatch, in that order, with the state each stage leaves; the rows of `Acceptance` say what is accepted, what is sent for it, and which test refuses the rest |
| `RelayDispatcherClass.RelayDispatcher.MessageIngress` | server/src/relay.rs:124-178 | the router input for each message, a reply only from the host session's own peer; `ServerRuns.ForwardDelivers` says what comes of it |
| `RelayDispatcherClass.RelayDispatcher.ActionToDatagrams` | server/src/relay.rs:182-254 | one datagram per target, each once |
| `RelayDispatcherClass.RelayDispatcher.ReceiveAndReply` | server/src/relay.rs:282-292 | everything the dispatcher decides to send is encoded and sent; encoding never fails |
| `RelayDispatcherClass.RelayDispatcher.Run` | server/src/relay.rs:278-319 | the loop's state after any datagrams and ticks is the specified run |
| `RelayDelivery.HandledFits` | server/src/relay.rs:288-290 | every outgoing datagram can be encoded, so the loop never ends on one |
| `ServerRuns.ServerRunOk` | server/src/relay.rs:278-319 | any series of datagrams, control operations and sweeps keeps the router invariant |
| `ServerRuns.ForwardDelivers` | server/src/relay.rs:182-254 | what a peer sends goes to members of its room, unaltered, under its own address; the fallbacks for a vanished peer never occur |
| `ServerRuns.GameplayStaysInSession` | crates/router/src/lib.rs:860-895 | a gameplay packet yields one datagram, to the other end of its session |
| `ServerRuns.HandleDelivers` | server/src/relay.rs:74-180 | the same for a whole datagram; an unknown source is always the sender's own unregistered address |
| `ServerRuns.RefusedEarlyLeavesNoTrace` | server/src/relay.rs:79-103 | a datagram refused up to the epoch check is nobody's activity and changes neither router nor sequence table; a malformed one not even the limiter |
| `ServerRuns.RoomIsolation` | server/src/relay.rs:74-254 | after any history, every datagram sent is a probe's answer or goes to a current member of the sender's current room |
| `Acceptance.HandleAdmits` | server/src/relay.rs:79-92 | a malformed datagram, an IPv6 source, the rate and an unknown address are tested in that order, each with its own error and without a trace in the router |
| `Acceptance.MemberAdmitted` | server/src/relay.rs:93-123 | of a member, a stale epoch, then suspension is refused; otherwise a probe is acknowledged and anything else goes to the sequence check, with the member seen |
| `Acceptance.ProbeAnswered` | server/src/relay.rs:104-113 | a probe from a connected member, of epoch 0 or the current one and within the rate, is answered with exactly one acknowledgement to where it came from, and the member has been seen |
| `Acceptance.MessageRefused` | server/src/relay.rs:115-178 | a repeated number, messages only the server sends, replies for unknown host sessions and replies for somebody else's are refused in that order |
| `Acceptance.DiscoveryAccepted` | server/src/relay.rs:74-254 | for a whole datagram: a request is accepted if and only if its sender is admitted and it is new, small, on a discovery port and under a free id; and then exactly the live host sessions of the room get it |
| `Acceptance.ResponseAccepted` | server/src/relay.rs:74-254 | a reply is accepted if and only if its sender is admitted and owns the host session, both leases run, and it is new, small and on a discovery port; and then exactly the asking client gets it |
| `Acceptance.GameplayForwarded` | server/src/relay.rs:160-254 | from the sequence check on, a gameplay packet from either end of a live game, new, small and on port 62056, goes to exactly the other end; every other is refused |
| `Acceptance.GameplayAccepted` | server/src/relay.rs:74-254 | for a whole datagram: the same if and only if the sender is admitted, and the game is renewed |
| `RoundTrips.GameplayRoundTrip` | server/src/relay.rs:74-254 | the client's packet reaches the host peer, and after any events that leave the game there and live the host peer's packet reaches the client at the address it sent from, each alone and unaltered |
| `RoundTrips.DiscoveryDatagramsRoundTrip` | server/src/relay.rs:74-254 | the round trip of a request and its reply for whole datagrams, with any events in between |
| `ConnectionEpochs.MembershipLasts` | crates/router/src/lib.rs:548-575 | until it is released a member keeps room and address and its epoch never goes back, over server runs |
| `ConnectionEpochs.ResumeMovesEpoch` | crates/router/src/lib.rs:548-575 | a suspended member's resume succeeds if and only if its grace lasts, and then raises the epoch short of saturation |
| `ConnectionEpochs.ResumeRaisesEpochExactly` | crates/router/src/lib.rs:562-568 | a successful resume answers with a later epoch if and only if the peer was suspended, short of the last epoch |
| `ConnectionEpochs.AcceptedEpochIsCurrent` | server/src/relay.rs:93-103 | an answered datagram carries epoch 0 or the member's current one |
| `ConnectionEpochs.AcceptedEpochsRise` | server/src/relay.rs:93-123 | non-zero epochs accepted from one membership never decrease |
| `ConnectionEpochs.RetiredEpochsAreRefused` | server/src/relay.rs:93-123 | after a suspended member resumes, nothing with an earlier non-zero epoch is accepted from it again |
| `ServerAsRouter.ServerRunIsRun` | server/src/relay.rs:278-319 | every server run does to the router what one run of router operations does |
| `SilentPeers.ServerForgetsQuietPeer` | server/src/relay.rs:278-319 | the deadline for silent peers holds for the server, whatever else arrives |
| `AppStateClass.AppState.RestorePersistedState` | server/src/state.rs:128-142 | rooms then peers are put back in order, stopping at the first refusal; the keys are those of the peers put back before it |
| `Restore.RestoredExactly` | server/src/state.rs:128-142 | a restart succeeds if and only if the snapshot is consistent and within the limits; the router then is valid and equals it, every epoch 1, without routes |
| `Restore.KeysRestoredExactly` | server/src/state.rs:137-140 | every restored peer has its own WireGuard key back and there is no other |
| `KeyRuns.KeysOfMembersAndDropped` | server/src/api.rs:363-434 | over every run in which peers bring keys, the key table holds those of the members and of the peers a sweep has dropped and that have not come back |
| `KeyRuns.OnlySweepsDrop` | server/src/relay.rs:314-316 | of the router's operations beside the handlers only a sweep drops a peer, past lease and grace, and so leaves its key |
| `KeyRuns.DroppedKeyCannotBeDeleted` | server/src/api.rs:612-634 | deleting a peer that is no longer there answers not found and so leaves its key |
| `AppStateClass.AppState.FindFreeIp` | server/src/state.rs:161-167 | the search over the address index is the allocation |
| `ControlPlane.FirstFree` | server/src/state.rs:161-167 | the first free address from an octet on, or all are taken |
| `ControlPlane.AllocatedIsLowestFree` | server/src/state.rs:161-167 | the allocated address is the lowest free one of 2 to 254, joining never refuses it as in use, and none is found only if all are taken |
| `HandlerAnswers.RequestedAddress` | server/src/api.rs:366-382 | a requested address is given if and only if it has the server's prefix, ends in 2 or more, and is free; bad request and conflict at their exact conditions |
| `HandlerAnswers.GivenAddress` | server/src/state.rs:161-167 | without a request the lowest free address from 2 to 254 is given, and none only if all are held |
| `HandlerAnswers.JoinSucceedsExactly` | server/src/api.rs:341-434 | joining under a known code succeeds if and only if the keys are as they should be, there is an address and space, and no store fails; the answer, and the order of the errors |
| `HandlerAnswers.UnknownCode` | server/src/api.rs:363-365 | an unknown code is not found, once the keys are as they should be |
| `HandlerAnswers.DeleteSucceedsExactly` | server/src/api.rs:612-676 | deleting succeeds if and only if the peer is a member of the room with that code, its key is known where a store needs it, and no store fails |
| `HandlerAnswers.AddressesStayInPool` | server/src/api.rs:366-382 | over every run of handlers and router operations every peer has an address of the server's own pool |
| `ControlPlane.LeaveUndoesJoin` | server/src/api.rs:392-419 | leaving after joining restores every table |
| `ControlPlane.RemoveUndoesCreate` | server/src/api.rs:322-337 | removing after creating a room restores every table |
| `ControlPlane.RemoveUndoesSelect` | server/src/api.rs:562-580 | removing after creating a gameplay session restores every table |
| `ControlPlane.UnregisterAfterRegister` | server/src/api.rs:490-505 | unregistering after registering leaves what dropping the earlier session would have left |
| `ControlPlane.UnregisterUndoesRegisterExactly` | server/src/api.rs:490-505 | that roll-back is exact if and only if there was no earlier session |
| `AppStateClass.AppState.CreateRoom` | server/src/api.rs:315-339 | creates the room, or fails and leaves no trace |
| `AppStateClass.AppState.JoinRoom` | server/src/api.rs:341-434 | admits the peer under the requested or lowest free address and stores its key, or fails for the first applicable reason and leaves no trace |
| `AppStateClass.AppState.RegisterHost` | server/src/api.rs:475-508 | registers, or on a failed write drops the new session together with any earlier one |
| `AppStateClass.AppState.CreateGameplaySession` | server/src/api.rs:543-582 | creates the session, or fails and leaves no trace |
| `AppStateClass.AppState.DeletePeer` | server/src/api.rs:612-676 | removes the peer, its routes and its key once the stores agree, or changes nothing; the final leave never fails |
| `RelaySessionClass.RelaySession.RecordProbeFailure` | crates/client-core/src/lib.rs:588-597 | counts up to saturation and says whether the threshold is reached |
| `RelaySessionClass.RelaySession.NextEnvelopeMeta` | crates/client-core/src/lib.rs:603-610 | the next sequence number, with the current epoch and path |
| `RelaySessionClass.RelaySession.ProbeOnce` | crates/client-core/src/lib.rs:612-641 | one numbered probe, and its statistics if it is answered |
| `RelaySessionClass.RelaySession.RecordProbeSuccess` | crates/client-core/src/lib.rs:735-747 | the window of 128 samples slides, and the percentiles are taken from a sorted copy |
| `RelaySessionClass.RelaySession.ReconnectDelay` | crates/client-core/src/lib.rs:749-756 | the wait before the next attempt; `SessionRuns.BackoffDoubles` and `SessionRuns.WaitsDouble` say what it is without the formula |
| `SessionRuns.BackoffGrows` | crates/client-core/src/lib.rs:749-756 | more failed attempts never mean a shorter wait, nor one beyond the maximum |
| `RelaySessionClass.RelaySession.SendGameplay` | crates/client-core/src/lib.rs:692-696 | a message within the safe size gets the next number; a larger one is refused and costs none |
| `RelaySessionClass.RelaySession.MarkAuthenticated` | crates/client-core/src/lib.rs:573-576 | takes over the epoch and keeps the numbering |
| `RelaySessionClass.RelaySession.RunWithReconnect` | crates/client-core/src/lib.rs:647-690 | the nested loops leave the specified state and log for any outcomes |
| `SessionRuns.CallbackOnlyAtThreshold` | crates/client-core/src/lib.rs:643-690 | for a loop entered with any session, callbacks and backoffs happen only when at least max(1, threshold) probes in a row are lost, exactly as many unless it came with the threshold reached, and nothing else happens then; every backoff follows the formula |
| `SessionRuns.WaitsNeverShrink` | crates/client-core/src/lib.rs:749-756 | for a loop entered with any session, within one outage waits never get shorter nor exceed the maximum |
| `SessionRuns.BackoffDoubles` | crates/client-core/src/lib.rs:749-756 | the first wait is the initial backoff, each of the next five twice the one before, none over the maximum, and then they stay |
| `SessionRuns.WaitsDouble` | crates/client-core/src/lib.rs:668-686 | read off the log of any run: the first wait of an outage is the initial backoff, after each of the first five failed callbacks it is twice the wait before, capped, and constant afterwards; every wait is followed by a callback and that, if it fails, by the next wait |
| `SessionStates.LogTellsSession` | crates/client-core/src/lib.rs:588-690 | after any run the log alone tells the session's state, epoch and number, and every message went out with the epoch and number due at that point |
| `SessionStates.OutageShows` | crates/client-core/src/lib.rs:591-592 | while the loop recovers the session shows as degraded before its first wait and as reconnecting from then on |
| `SessionStates.RecoveryShows` | crates/client-core/src/lib.rs:655-681 | a successful callback shows as resynced, the next answered probe as healthy; a lost one below the threshold changes nothing |
| `SessionStates.HealthyWasAnswered` | crates/client-core/src/lib.rs:655-660 | a session is healthy only if it was at the start or a probe has been answered since |
| `SessionStates.AuthenticatedNext` | crates/client-core/src/lib.rs:573-576 | the first message after an authentication carries its epoch, and the numbers go on |
| `SessionNumbers.SentPairsRise` | crates/client-core/src/lib.rs:603-610 | for a loop entered with any session, whatever was sent before: while reconnects bring later epochs, and short of 2^64 packets, (epoch, sequence) pairs rise strictly across outages |
| `SessionNumbers.SentPairsRiseExactly` | crates/client-core/src/lib.rs:676-683 | the pairs rise strictly if and only if every reconnect that another turn followed brought a later epoch |
| `SessionNumbers.LifePairsRise` | crates/client-core/src/lib.rs:573-696 | over a session's whole life of loops, messages of its own and authentications, the pairs rise strictly while epochs never go back and reconnects bring later ones |
| `ClientAndServer.PairsRiseWhenSuspended` | crates/router/src/lib.rs:548-575 | with the server's resume as the callback, the pairs rise strictly if and only if the server had suspended the peer, short of the last epoch, at every resume that another turn followed |
| `SessionRuns.PercentileIsOrderStatistic` | crates/client-core/src/lib.rs:743-746 | the element of a rank in the sorted copy has at most that many samples below it and more at most it |
| `SessionRuns.RttStatistics` | crates/client-core/src/lib.rs:735-747 | after any run, entered with any session, the buffer is the last 128 round-trip times in order, and p50 and p95, with p50 at most p95, are its order statistics |

## Left out

- Concurrency: locks, and control-plane requests interleaving between their stages; each router operation is atomic and a handler's stages follow each other.
- HTTP routing, JSON, bearer checks, passwords, user accounts and client-side HTTP calls: no state the router depends on.
- The database and WireGuard themselves: they appear as calls that succeed or fail, and their own roll-backs are not modelled.
- `delete_room`, `delete_host`, `resume_room` and `heartbeat_host` handlers: a lookup and one router call each.
- Snapshots and counts that only copy fields (`room_snapshot`, `host_snapshot`, `stats` and the like).
- Sockets, timers and the async runtime: arrival times, ticks and probe outcomes are inputs, and sleeping leaves a log entry or none.
- `Instant` overflow: times are unbounded integers.
- Metric counters and the packet fingerprint cache of server/src/metrics.rs: they decide nothing.
- Room code parsing: a code is an already parsed, comparable value.
- `send_discovery_with_retry` of the client session: it numbers each retry as `send_gameplay` does, with the same payload check.
- RelaySessionClass.RelaySession.ProbeOnce: a send that fails and an answer that never comes are one outcome, a lost probe, which is how the loop treats them; a log entry `Sent` stands for a number given out.
- AppStateClass.AppState.JoinRoom: public keys are validated elsewhere; whether one is valid is an input.
- RateLimiter.FixedWindowRateLimiter.Allow: a poisoned lock, for which the program grants the call, cannot occur in the model.
- RelayDispatcherClass.RelayDispatcher.HandleDatagram: the limiter's key is the source address itself rather than its printed form.
- server/civ6-relay.py, the user interface, scripts and deployment files: superseded or unrelated to routing.
