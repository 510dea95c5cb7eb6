# A verified model of the RTC session gateway

The gateway connects SIP calls (through drachtio) and media sessions (through rtpbridge) to control clients.
Its core is a set of shared tables that many asynchronous operations change, each of which can be overtaken at
every `await` by a socket close, an owner disconnect, a timer, a DTMF event or a drain. This project models that
core in Dafny and proves what holds in every interleaving. `dafny verify dfyconfig.toml` checks all of it.

## How the model is built

- **Values and steps.** The tables of each component are a datatype, and what the code does between two awaits is
  one function on it. A step system per component (`MediaSystem`, `SipCalls`, `ControlHub`, `RtpbridgeClient`,
  `GatewayLifecycle`) lets the environment choose the order of events and whether an RPC succeeds, fails or never
  answers; an event that cannot happen in a state leaves it unchanged. `StateAfter(events)` is the state after a run.
  The main results hold for every run.
- **Objects.** Code that updates an object in place is a class with the same fields and loops. Its public methods are
  the synchronous stretches of the source, split at the awaits: each takes one step of the step system, named in its
  contract, and keeps `Valid()`, which is the run invariant itself (`DrachtioGateway`, `GatewayLifecycle`,
  `ControlHub`, `RtpbridgeClient`) or says that the fields are those after a run (`MediaOperations`,
  `FileEndpointCatalog`, `GatherRun`). So what is proved of runs is true of these objects between any two of their
  methods. What a suspended call captured is a field of the object that it belongs to.
  The call registry, the backend manager and the synchronous helpers of `MediaSessionService` are parts of these
  objects and are specified by functions on their tables.
- **The whole.** `Gateway` wires lifecycle, SIP calls and media sessions together as `src/index.ts` does: `track`
  counts the operations, the lifecycle counts the resources of the other two, the registry answers whether a call is
  active, and the stop hook and a lost control connection change both in one step. `GatewayProcess` does the same with
  the objects.

| file | component |
|---|---|
| `BackendPins.dfy` | backend selection, round robin, call-to-backend pins |
| `MediaCore.dfy`, `MediaSystem.dfy` | media session tables and the interleavings of their operations |
| `MediaTables.dfy`, `MediaInvariants.dfy`, `MediaPins.dfy` | their invariants |
| `MediaTheorems.dfy`, `MediaIndex.dfy`, `MediaTeardown.dfy`, `MediaOwners.dfy`, `MediaBridges.dfy`, `MediaOrigins.dfy` | results about sessions: in general, stale index entries, lost sessions, lost owners, bridges and backends, which request made what |
| `MediaSessionService.dfy`, `MediaOperations.dfy` | the media session service as objects: tables and helpers, and the asynchronous methods |
| `DtmfGather.dfy` | digit collection on a clock, against a specification of the event trace |
| `CallIds.dfy`, `CallRegistry.dfy` | normal form of call ids, reservation of ids |
| `SipCalls.dfy`, `SipTheorems.dfy`, `SipOwners.dfy`, `SipOrigins.dfy`, `DrachtioGateway.dfy` | SIP calls: steps, results, lost owners, which request made which call, objects |
| `GatewayLifecycle.dfy` | admission, draining and stopping on a clock |
| `Tracking.dfy`, `SipTracking.dfy`, `MediaTracking.dfy` | which stretches begin and finish a tracked operation |
| `Gateway.dfy`, `GatewayTheorems.dfy`, `GatewayRuns.dfy`, `GatewayProcess.dfy` | the whole gateway: steps, results, its runs as runs of its parts, objects |
| `RequestTable.dfy`, `ControlHub.dfy`, `RtpbridgeClient.dfy` | the two request tables, routes, event numbers, close handlers |
| `PcapMerge.dfy` | merging capture files |
| `PercentEncoding.dfy`, `RecordingPaths.dfy` | recording paths |
| `EndpointCatalog.dfy` | the endpoint catalog file and readiness |

Session, endpoint, connection, dialog and request ids are fresh when they first appear, as the UUIDs and rtpbridge ids
of the source are. Timers are punctual: the clock does not pass an armed timer. Randomness, clocks, the network and
file contents are parameters of the events.

## What does not hold

Where a natural reading of the code is false, the model keeps the code as it is, gives a concrete run or input, and
states exactly when the property does hold.

- A session creation, from the discovery of its backend on, and an INVITE waiting in `createUAS` are not checked again
  when their owner has gone. A session of a lost owner can come back exactly when the gateway was not stopping and a
  creation of the owner was open at the disconnect (`SessionsComeBackIff`, `CreationOutlivesOwner`); a call can exactly
  when the gateway was not stopping and an INVITE of the owner was in `createUAS` (`CallsComeBackIff`, and for each id
  `CallComesBackIff`). An INVITE that still waited for the owner's answer does not come back
  (`AskingOfLostOwnerNeverConnects`): the hub has rejected what it asked before anyone hears of the loss
  (`LostConnectionNeverAnswers`).
- When a session goes, the peers of its bridge endpoints lose their claims but are not cancelled, so a gather on such
  an endpoint is never told; it ends only by its own digits or timer. In an owner disconnect this happens to a session
  of the same owner too. `TeardownCancels` says of every run which are told and which are not, `LostPeerLeavesGather`
  is a run.
- An endpoint whose RPC answers after its session went is indexed all the same (`LateEndpointIsIndexed`); those are the
  only entries of the index that name a session that is gone (`StaleIffAnsweredLate`).
- `bye`, and the destroy event of a dialog, end whatever call their id names by then. If the call was gone already and a
  new INVITE took the id, the new call leaves the registry and is reported although its dialog is still up
  (`RemovalEndsWhatTheIdNames`, with the runs `SlowByeEndsTheNextCall` and `LateDestroyEndsTheNextCall`).
- An event whose send throws, or fails in its callback, has used up its sequence number. What a client receives is free
  of gaps exactly when no event that arrives comes after one that does not (`ReceivedNumbersIncrease`,
  `LostEventLeavesGap`).
- Readiness and selection count backends with different filters, which agree because the catalog parser demands a
  boolean (`FiltersAgree`, `FiltersDiffer`). Without a catalog readiness only looks at the configuration: it is positive
  while a pick fails exactly when DNS answers with no SRV record and an empty list of addresses
  (`DnsReadyButPickFails`).
- A DTMF digit of several characters is compared with the terminator as a whole and can carry a terminator character
  into the result (`LongDigitCarriesTerminator`, `TerminatorFreeIff`).
- `normalizeCallId` takes one `sip:` scheme off, so normalizing twice can differ (`NormalizeTwice`, `TwoSchemes`).
- A path strictly below the recordings root is still refused when its first name begins with two dots
  (`AcceptedIffUnderRoot`, at the input `..foo` in `DottedNameRefused`), although the error message speaks of paths
  outside the root.
- A recording name with a percent sign is decoded before it is encoded again, so its download path names something else
  or is refused (`DownloadPathNamesRecording`, with the inputs `PercentNameIsMisread` and `PercentNameIsRefused`).

## Model

| member | source | states |
|---|---|---|
| `BackendPins.PickHonoursPin` | src/media-server-manager.ts:157-205 | a pinned call gets its own backend or an error, an explicit choice likewise; such picks leave the round-robin position; a failed pick changes nothing; existing pins keep backend and count |
| `BackendPins.PickFailures` | src/media-server-manager.ts:157-186 | which picks fail and with which error: without a catalog, against another pin, for a wanted backend that is not listed or refuses, and when all refuse; every other pick succeeds |
| `BackendPins.PickRenewsAge` | src/media-server-manager.ts:198-205 | a pick makes the pin of its call as old as itself, keeps its references and touches no other pin |
| `BackendPins.RoundRobinBalanced` | src/media-server-manager.ts:183-185 | over any k consecutive unpinned picks on n accepting backends each gets floor(k/n) or ceil(k/n), whatever index was left behind |
| `BackendPins.MediaServerManager.SelectBackend` | src/media-server-manager.ts:173-186 | the object selects as specified: preferred backend or its error, else the next accepting one |
| `BackendPins.MediaServerManager.PickBackend` | src/media-server-manager.ts:157-171 | catalog check, pin conflict, selection and pinning, with every table change |
| `BackendPins.MediaServerManager.RegisterCall` | src/media-server-manager.ts:71-80 | adds a reference or refuses a call pinned elsewhere and then changes nothing |
| `BackendPins.RegisterCounts` | src/media-server-manager.ts:71-80 | refused exactly for a call pinned elsewhere; else the pin has one client more, or its first one, and no other pin changes |
| `BackendPins.MediaServerManager.UnregisterCall` | src/media-server-manager.ts:82-95 | gives one reference back, and drops the pin with the last one unless the call is active |
| `BackendPins.UnregisterCounts` | src/media-server-manager.ts:82-95 | a client of the pinned backend, or one that names none, gives a reference back: the pin stays exactly when it had more than one or its call is active, as old as this; a client of another backend changes nothing, and no other pin changes |
| `BackendPins.MediaServerManager.SweepStaleEntries` | src/media-server-manager.ts:188-196 | removes exactly the pins without references that are older than four hours and belong to no active call |
| `BackendPins.SweepTakesTheOld` | src/media-server-manager.ts:188-196 | a pin survives a sweep exactly when somebody holds it, its call is active, or its last use is at most four hours ago; and then it is unchanged |
| `MediaTheorems.PinCountsClients` | src/media-server-manager.ts:53-95 | in every run a call with registered clients has a pin, its count is the number of clients registered and not yet unregistered, and all of them use the pinned backend |
| `MediaTheorems.OneCallOneBackend` | src/media-session-service.ts:288-298 | two live sessions of one call are on one backend, so bridging them never meets the cross-backend refusal |
| `MediaTheorems.PinDoesNotMove` | src/media-server-manager.ts:157-205 | while a call has clients its pin does not change backend |
| `MediaTheorems.IndexIsInverse` | src/media-session-service.ts:590-622 | for live sessions the endpoint index is the exact inverse of the endpoint maps, in every run |
| `MediaTheorems.LateEndpointIsIndexed` | src/media-session-service.ts:166-178 | a run after which the index names an endpoint of a session that is gone |
| `MediaIndex.StaleIffAnsweredLate` | src/media-session-service.ts:590-622 | in every run an index entry names a session that is gone exactly when the answer that brought its endpoint came after the session went |
| `MediaTheorems.BridgesArePaired` | src/media-session-service.ts:300-313 | every live bridge endpoint names an endpoint of another live session that names it back, through unbridge, stop, destroy, owner teardown and socket close |
| `MediaBridges.BridgesStayOnOneBackend` | src/media-session-service.ts:294-296 | in every run the two sessions of a bridge request that waits for rtpbridge, and those of the two ends of a live bridge, are recorded on one backend |
| `MediaBridges.BridgeStartsIff` | src/media-session-service.ts:288-297 | a bridge request goes out exactly when both sessions are live and distinct and recorded on one backend |
| `MediaBridges.CrossBackendIsRefused` | src/media-session-service.ts:294-296 | a request for two sessions on different backends changes nothing |
| `MediaBridges.GatherStartsIff` | src/media-session-service.ts:842-847 | a gather gets under way exactly when its endpoint is in the live session, no sensitive gather is on it, and it is free where it has to be free at once |
| `MediaBridges.LeaveStartsIff` | src/media-session-service.ts:389-392 | a leave-message gets under way exactly when its endpoint is in the live session and free |
| `MediaTheorems.OneClaimPerEndpoint` | src/media-session-service.ts:821-832 | a tracked endpoint has at most one unreleased gather or leave-message run, and that run holds the claim |
| `MediaTheorems.FinishedRunsRelease` | src/media-session-service.ts:389-425 | once an operation is over, on whatever path, its claim is gone |
| `MediaTeardown.ReleaseIsOwn` | src/media-session-service.ts:821-840 | a claim is lost only when its own run ends, its gather is stopped with the endpoint, or the endpoint goes; no other operation that ends and no teardown of other sessions takes it |
| `MediaTeardown.TeardownCancels` | src/media-session-service.ts:607-622 | in a destroy, a lost socket, an owner disconnect and the shutdown alike: a gather is cancelled and released, and a leave-message run told to abort, exactly when its own session is dropped and that of its bridge peer was not dropped before; every other run is left as it is, and an endpoint that goes without its run being told is one whose peer's session is dropped first |
| `MediaTeardown.TeardownTakesSessions` | src/media-session-service.ts:607-622 | the sessions that those steps drop are exactly the ones that are no longer live, and a shutdown lists all that are |
| `MediaTeardown.StopTellsTheAction` | src/media-session-service.ts:272-276 | a request to remove an endpoint first tells the unreleased action on it and no other; a gather has let it go by then |
| `MediaTeardown.RemovalTakes` | src/media-session-service.ts:788-813 | when rtpbridge has answered, the endpoint stays only if the removal failed and it is still there; else it is in no table, nor is the other end of its bridge in a live session, and every other endpoint stays |
| `MediaTeardown.LostPeerLeavesGather` | src/media-session-service.ts:799-819 | a run of an owner with two bridged sessions whose disconnect leaves a gather unresolved |
| `MediaTheorems.SensitiveDigitsAreMasked` | src/media-session-service.ts:842-888 | from the start of a sensitive gather until disabling is confirmed every digit published for the tracked endpoint is masked |
| `MediaTheorems.FlaggedDigitsAreMasked` | src/media-session-service.ts:1007-1025 | in every run a digit that rtpbridge flagged goes to the owner as exactly one masked event, whatever the sensitive set holds and whether or not the event names an endpoint |
| `MediaTheorems.ForwardedOnce` | src/media-session-service.ts:880-888 | an event of a session makes exactly one event for its owner, or none without one; it is masked exactly when it is a digit that is flagged or whose endpoint is in the sensitive set, else it arrives as it came |
| `MediaTheorems.ClearDigitsWereNotFlagged` | src/media-session-service.ts:1014-1016 | whatever was ever sent in a run as a digit other than `~` was not flagged |
| `MediaTheorems.OtherDigitsPass` | src/media-session-service.ts:1007-1025 | events of other kinds and digits of unshielded endpoints go out unchanged |
| `MediaTheorems.OneSensitiveHolder` | src/media-session-service.ts:842-847 | an endpoint has at most one sensitive gather |
| `MediaTheorems.StuckStays` | src/media-session-service.ts:869-876 | an endpoint whose disabling failed is never forgotten in any continuation |
| `MediaTheorems.FailedDisableKeepsMasking` | src/media-session-service.ts:866-877 | after a failed disable the digits of the endpoint stay masked in every continuation while it is tracked |
| `MediaTheorems.OwnerTakesItsSessions` | src/media-session-service.ts:446-448 | the synchronous part of an owner disconnect leaves no live session of that owner and takes no other |
| `MediaTheorems.NewSessionsComeFromCreations` | src/media-session-service.ts:118-147 | in every run a session appears exactly when a creation completes on a running gateway, and it belongs to the owner of that creation |
| `MediaOrigins.SessionsAreAsRequested` | src/media-session-service.ts:117-138 | every session has the call and the owner that one creation request named, a backend that discovery offered to it, and was confirmed by rtpbridge |
| `MediaOrigins.EndpointsAreAsRequested` | src/media-session-service.ts:590-601 | every endpoint is of the kind that was asked for in its session, a prompt of an operation there, or an end of a bridge between the two sessions asked for |
| `MediaOrigins.CollectsAsRequested` | src/media-session-service.ts:340-380 | digits are collected only for a valid request on that endpoint, after its prompt started if it has one and sensitive mode is confirmed if it asks for it |
| `MediaOrigins.ResultsAreAsReported` | src/media-session-service.ts:656-661 | the outcome of a gather is a result that its collection reported, or a cancellation |
| `MediaOrigins.EndingResolves` | src/media-session-service.ts:648-661 | the first end of an open gather is its outcome, and any end releases its claim |
| `MediaTheorems.CreationOutlivesOwner` | src/media-session-service.ts:118-138 | a run in which a session appears after its owner has gone |
| `MediaOwners.SessionsComeBackIff` | src/media-session-service.ts:117-147 | after a disconnect some continuation without new requests of the owner gives it a session exactly when the gateway was not stopping and the owner had a creation that was discovering backends, picked, opening or configuring, whatever its call was pinned to by then |
| `MediaTheorems.StoppingAddsNoSession` | src/media-session-service.ts:124-137 | once stopping, no step adds a session |
| `MediaTheorems.ShutdownLeavesNoSession` | src/media-session-service.ts:149-164 | when the shutdown has destroyed the sessions it listed none is left |
| `MediaSessionService.MediaSessionService.PublishSession` | src/media-session-service.ts:125-137 | a new session is live, recorded and has no endpoints; nothing else changes |
| `MediaSessionService.MediaSessionService.AddEndpoint` | src/media-session-service.ts:590-601 | the endpoint enters the record, under its kind, and the index; every other endpoint and session stays as it is |
| `MediaSessionService.MediaSessionService.BridgeRequest` | src/media-session-service.ts:288-297 | the refusals of a bridge request in their order, over the fields: nothing is refused exactly when both sessions are live and distinct and their recorded backends agree |
| `MediaSessionService.MediaSessionService.BridgeResume` | src/media-session-service.ts:299-313 | after the RPC both sessions are looked up again; either both ends are added, naming each other, or nothing |
| `MediaSessionService.MediaSessionService.RemoveEndpointSnapshot` | src/media-session-service.ts:799-806 | the endpoint leaves record, index, claims and sensitive set |
| `MediaSessionService.MediaSessionService.RemovePairedBridgeEndpoint` | src/media-session-service.ts:808-813 | the peer of a bridge endpoint goes the same way if its session is live |
| `MediaSessionService.MediaSessionService.RemoveTrackedResume` | src/media-session-service.ts:788-797 | after the remove RPC: kept exactly when it failed and the endpoint is still there, else it goes with its captured peer |
| `MediaSessionService.MediaSessionService.ClaimEndpointAction` | src/media-session-service.ts:821-826 | a claim succeeds exactly when the endpoint has none |
| `MediaSessionService.MediaSessionService.ReleaseAction` | src/media-session-service.ts:826-831 | the release closure: once only, and only its own claim |
| `MediaSessionService.MediaSessionService.CancelEndpointAction` | src/media-session-service.ts:834-836 | a gather resolves as cancelled and is released, a leave-message is told to abort |
| `MediaSessionService.MediaSessionService.CancelSessionActions` | src/media-session-service.ts:838-840 | all endpoints of the session, in any order, as one cancellation |
| `MediaSessionService.MediaSessionService.DropPairedBridgeEndpoints` | src/media-session-service.ts:815-819 | all peers of the session's bridge endpoints in live sessions go, and only those |
| `MediaSessionService.MediaSessionService.DropSession` | src/media-session-service.ts:607-622 | the whole teardown of a session, also when it is gone already |
| `MediaSessionService.MediaSessionService.DestroySessionsForOwner` | src/media-session-service.ts:446-448 | the loop over the owner's sessions tears down each of them once and no other |
| `MediaSessionService.MediaSessionService.RequireEndpointInSession` | src/media-session-service.ts:581-588 | found exactly when the session is live, holds the endpoint and the index agrees |
| `MediaSessionService.MediaSessionService.PublishRtpbridgeEvent` | src/media-session-service.ts:880-888 | nothing without an owner; else exactly one event to the owner, masked exactly when it is a digit that is flagged or whose endpoint is in the sensitive set, and as it came otherwise |
| `MediaOperations.MediaOperations.CreateSession` | src/media-session-service.ts:112-118 | refused exactly while stopping; else the operation is tracked and waits for the discovery of backends; the object stays in the state of a run |
| `MediaOperations.MediaOperations.BackendsResolved` | src/media-server-manager.ts:157-171 | after discovery the pin is read again and a backend picked, or the operation ends, whether or not the gateway drains or stops by then; the object stays in the state of a run |
| `MediaOperations.MediaOperations.BeginPlayback` | src/media-session-service.ts:741-743 | a leave-message starts its playback on the session that it captured, also when that session is gone by then; the object stays in the state of a run |
| `MediaOperations.MediaOperations.SessionConfigured` | src/media-session-service.ts:121-147 | the session is published, or unwound when the RPCs failed or the gateway stops; the object stays in the state of a run |
| `MediaOperations.MediaOperations.Bridged` | src/media-session-service.ts:299-313 | after the RPC both ends are added exactly when both sessions are still there; the object stays in the state of a run |
| `MediaOperations.MediaOperations.BeginGather` | src/media-session-service.ts:842-856 | starts exactly when the endpoint is in the session, no sensitive gather is under way on it, and a sensitive one finds no action; the object stays in the state of a run |
| `MediaOperations.MediaOperations.StartSensitive` | src/media-session-service.ts:849-856 | the endpoint is masked when the request to rtpbridge goes out |
| `MediaOperations.MediaOperations.SensitiveDisabled` | src/media-session-service.ts:866-877 | masking ends only when rtpbridge confirmed it; the object stays in the state of a run |
| `MediaOperations.MediaOperations.DestroySessionsForOwner` | src/media-session-service.ts:446-448 | the loop takes the step of the run that drops each session of the owner once |
| `MediaOperations.MediaOperations.Shutdown` | src/media-session-service.ts:162-164 | every live session is going to be destroyed; with it the run of a stopping gateway begins |
| `DtmfGather.ResolvedByFirstEnd` | src/media-session-service.ts:649-697 | a gather is resolved by the first ending event of its trace, with the digits up to it and its reason, and not before |
| `DtmfGather.AcceptedGrows` | src/media-session-service.ts:681 | what was collected stays in front of what is collected later |
| `DtmfGather.DigitStandsBehind` | src/media-session-service.ts:673-681 | each accepted digit stands, in upper case, right behind what was collected before it |
| `DtmfGather.ResultSpellsDigits` | src/media-session-service.ts:673-689 | with one-character digits the result has one character per accepted event, and the k-th accepted event gives character k |
| `DtmfGather.ReasonIsTheEnd` | src/media-session-service.ts:656-693 | the reason says which event ended the gather; with every reason but `digits` that event adds no digit |
| `DtmfGather.TimeoutIsSilence` | src/media-session-service.ts:663-671 | a timeout comes exactly one delay after the last digit, or without a digit after the end of the prompt, or else after the start |
| `DtmfGather.ResolveDefaults` | src/media-session-service.ts:636-639 | which parameters are refused, and the values that stand for those not given |
| `DtmfGather.UpperKeys` | src/media-session-service.ts:675 | what upper-casing does to letters and telephone keys |
| `DtmfGather.IncludesIff` | src/media-session-service.ts:676 | the terminator test is substring containment |
| `DtmfGather.ResolvesOnce` | src/media-session-service.ts:656-661 | no later event changes the result |
| `DtmfGather.DigitsReasonIffEnough` | src/media-session-service.ts:686-689 | the reason is `digits` exactly when the requested number was reached |
| `DtmfGather.TerminatorFreeIff` | src/media-session-service.ts:673-681 | the result holds no terminator character exactly when no accepted digit event brought one along |
| `DtmfGather.SingleDigitIsClean` | src/media-session-service.ts:673-681 | one-character digits never bring one along |
| `DtmfGather.LongDigitCarriesTerminator` | src/media-session-service.ts:676-681 | a run in which a two-character digit does |
| `DtmfGather.GatherEndsInTime` | src/media-session-service.ts:663-697 | it ends by its armed deadline, and an n-digit gather at most (n - 1) inter-digit delays after the deadline armed when its first digit came |
| `DtmfGather.GatherRun.constructor` | src/media-session-service.ts:636-697 | the closure variables agree with the specification before any event |
| `DtmfGather.GatherRun.OnDtmf` | src/media-session-service.ts:673-691 | an accepted digit is appended in upper case behind the digits so far; a terminator or the last digit wanted finishes with its reason, anything else arms the inter-digit delay; and the closure variables agree with the specification of the trace |
| `DtmfGather.GatherRun.OnTimeoutReset` | src/media-session-service.ts:668-671 | a finished playback arms its own delay exactly while no digit is there; the variables agree with the specification |
| `DtmfGather.GatherRun.Cancel` | src/media-session-service.ts:693 | a cancellation resolves an unfinished gather with its digits; the variables agree with the specification |
| `DtmfGather.GatherRun.OnTimer` | src/media-session-service.ts:663-666 | the timer resolves it as timed out; the variables agree with the specification |
| `CallIds.CallIdIsNormal` | src/call-id.ts:5-16 | every call id is non-empty, path-safe, with no doubled, leading or trailing dash |
| `CallIds.CallIdSpelled` | src/call-id.ts:5-16 | what a Call-ID becomes: quotes, brackets and blanks around it go, one `sip:` goes, and of the rest the words stay with one dash wherever something else stood between two of them; without words a fresh id takes its place |
| `CallIds.EmptyCallId` | src/call-id.ts:15 | an empty Call-ID becomes `call-` and a fresh id |
| `CallIds.NormalFormIsKept` | src/call-id.ts:5-16 | an id in normal form is kept exactly when it does not begin with a `sip:` scheme |
| `CallIds.NormalizeTwice` | src/call-id.ts:5-16 | normalizing is idempotent exactly when no second scheme is left |
| `CallIds.TwoSchemes` | src/call-id.ts:10 | an input for which it is not |
| `CallRegistry.Pigeonhole` | src/call-registry.ts:41-52 | the first k candidates are k different ids, so a finite registry cannot hold them all |
| `CallRegistry.CandidateSpelled` | src/call-registry.ts:41-52 | the first candidate is the base itself, the n-th after it the base, a dash and the decimal number n + 1 |
| `CallRegistry.ReservationIsUnique` | src/call-registry.ts:41-52 | the first free candidate is determined by calls and reservations |
| `CallRegistry.ReservedIdIsNormal` | src/call-registry.ts:41-52 | the reserved id is in normal form, suffix included |
| `CallRegistry.CallRegistry.ReserveCallId` | src/call-registry.ts:41-52 | the suffix loop terminates and takes the first candidate absent from calls and reservations |
| `CallRegistry.CallRegistry.ReleaseReservation` | src/call-registry.ts:54-56 | removes that reservation only |
| `CallRegistry.CallRegistry.Activate` | src/call-registry.ts:58-62 | the reservation becomes the call |
| `CallRegistry.CallRegistry.Remove` | src/call-registry.ts:72-77 | removes and returns the call, or nothing |
| `SipTheorems.IdsAreExclusive` | src/drachtio-gateway.ts:187-283 | in every run reservations and calls share no id, and a finished INVITE handler has left no reservation |
| `SipTheorems.OneNoticePerCall` | src/drachtio-gateway.ts:423-499 | each call record is reported at most once, and only after it left the registry, however BYE, remote destroy and owner disconnect race |
| `SipOrigins.CallsAreAsRequested` | src/drachtio-gateway.ts:231-253 | every call there ever was belongs to who asked for it: a call of an attempt to the owner that the attempt was created with, a call of an INVITE to the connection it was routed to, which answered it |
| `SipOrigins.RejectedInviteIsOver` | src/drachtio-gateway.ts:218-223 | an INVITE that is rejected, or whose question failed, is over: its id is free and no call came of it |
| `SipTheorems.RemovalEndsWhatTheIdNames` | src/drachtio-gateway.ts:423-499 | a successful BYE and a destroy event report the call that they are about exactly when the id still names it, else they end and report the call that has the id now, and no other; the notice names its kind |
| `SipTheorems.SlowByeEndsTheNextCall` | src/drachtio-gateway.ts:423-445 | a run in which a BYE ends a later call with the same id |
| `SipTheorems.LateDestroyEndsTheNextCall` | src/drachtio-gateway.ts:488-499 | a run in which the destroy event of a lost owner's dialog does |
| `SipTheorems.OwnerTakesItsCalls` | src/drachtio-gateway.ts:448-456 | an owner disconnect takes exactly the registered calls of that owner and cancels exactly its attempts; every other call and attempt stays as it is |
| `SipOrigins.OwnerLeftTakesItsAttempts` | src/drachtio-gateway.ts:448-456 | after a disconnect no registered call comes from an attempt that the connection ever created |
| `SipOrigins.LostDialogIsReported` | src/drachtio-gateway.ts:457-480 | a dialog of a lost owner is reported, as terminated, when it went down, and not otherwise |
| `SipOrigins.CancelledNeverConnects` | src/drachtio-gateway.ts:389-405 | a cancel from the owner of an attempt keeps it from ever becoming a call, whenever createUAC answers; one from anybody else changes nothing |
| `SipOrigins.StoppingCancelsAttempts` | src/drachtio-gateway.ts:407-416 | in every run of a stopping gateway all attempts still pending are cancelled |
| `SipOrigins.FailedByeKeepsTheCall` | src/drachtio-gateway.ts:423-433 | a BYE that fails leaves the call registered and reports nothing |
| `SipTheorems.LostOwnersAttemptsNeverConnect` | src/drachtio-gateway.ts:349-352 | no attempt pending at the disconnect ever becomes a call, whenever createUAC resolves |
| `SipOwners.CallComesBackIff` | src/drachtio-gateway.ts:231-253 | after a disconnect an id can come to name a call of that owner, in some continuation without new attempts of the owner, exactly when it is the id of an INVITE of the owner that waited in createUAS and the gateway was not stopping |
| `SipOwners.CallsComeBackIff` | src/drachtio-gateway.ts:231-253 | so a call of a lost owner can come back exactly when an INVITE of it waited in createUAS and the gateway was not stopping |
| `SipOwners.AskingOfLostOwnerNeverConnects` | src/drachtio-gateway.ts:600-616 | an INVITE that waited for the answer of its owner when the owner left never becomes a call, and neither does a later one under its id, in any continuation |
| `SipTheorems.DrainOnlyShrinks` | src/drachtio-gateway.ts:178-185 | from the start of a drain reservations plus attempts plus calls never grow, in any continuation |
| `SipTheorems.StoppedCallsOnlyLeave` | src/drachtio-gateway.ts:216-248 | once stopping, calls only leave |
| `SipTheorems.ShutdownLeavesFailedByes` | src/drachtio-gateway.ts:407-421 | a settled shutdown leaves no reservation, no attempt, and only calls whose BYE failed |
| `SipTheorems.ShutdownCanSettle` | src/drachtio-gateway.ts:412-418 | a shutdown is never stuck: from every state of a stopping gateway some order of the answers still to come settles it |
| `DrachtioGateway.StepKeeps` | src/drachtio-gateway.ts:178-499 | whichever method runs, ids stay exclusive, notices single, lost attempts cancelled, and the open operations are the handlers and attempts in the tables: what `Valid()` of the object says |
| `DrachtioGateway.DrachtioGateway.HandleInvite` | src/drachtio-gateway.ts:178-211 | refused while draining, or without a route; else a free id is reserved, the handler is pending and tracked; `Valid()` is kept |
| `DrachtioGateway.DrachtioGateway.InviteAction` | src/drachtio-gateway.ts:212-230 | what the backend's answer does, also while stopping, and whether the operation ends with it; from an owner that is gone comes only the failure that the hub reports; `Valid()` is kept |
| `DrachtioGateway.DrachtioGateway.UasReturned` | src/drachtio-gateway.ts:231-283 | the answered dialog becomes the call, owned by the connection that answered, or is unwound while stopping, or the handler fails; `Valid()` is kept |
| `DrachtioGateway.DrachtioGateway.CreateOutbound` | src/drachtio-gateway.ts:308-319 | admitted and tracked exactly when not draining and the attempt id is not in use, as an attempt of its owner; `Valid()` is kept |
| `DrachtioGateway.DrachtioGateway.CancelOutbound` | src/drachtio-gateway.ts:389-405 | accepted exactly from the owner of a pending attempt, which is then cancelled |
| `DrachtioGateway.DrachtioGateway.UacReturned` | src/drachtio-gateway.ts:349-387 | a dialog is kept exactly when its attempt is not cancelled and the gateway runs; then a free id names it and its record has the owner of the attempt; `Valid()` is kept |
| `DrachtioGateway.DrachtioGateway.Bye` | src/drachtio-gateway.ts:423-431 | the call is captured, if there is one |
| `DrachtioGateway.DrachtioGateway.ByeReturned` | src/drachtio-gateway.ts:429-445 | removal by id and notice after success, nothing but an error after failure |
| `DrachtioGateway.DrachtioGateway.OnDestroy` | src/drachtio-gateway.ts:488-499 | removal by id and notice, if the id still names a call |
| `DrachtioGateway.DrachtioGateway.CancelEach` | src/drachtio-gateway.ts:449-451 | the loop cancels exactly the chosen attempts |
| `DrachtioGateway.DrachtioGateway.TerminateCallsForControlConnection` | src/drachtio-gateway.ts:448-459 | the synchronous part: attempts cancelled, calls removed, their dialogs being destroyed |
| `DrachtioGateway.DrachtioGateway.Shutdown` | src/drachtio-gateway.ts:407-418 | called when the lifecycle has begun to stop, the loops release the reservations, cancel the attempts and start a BYE for every call; with that `Valid()` holds again |
| `DrachtioGateway.DrachtioGateway.ShutdownByeReturned` | src/drachtio-gateway.ts:417-418 | what each of those BYEs does when it returns |
| `GatewayLifecycle.PendingCountsOpenOperations` | src/gateway-lifecycle.ts:38-56 | the counter is the number of operations begun and not finished, however often finish is called |
| `GatewayLifecycle.StopsOnceAndGracefullyWhenIdle` | src/gateway-lifecycle.ts:66-73 | stop runs once, and unforced only when nothing is open |
| `GatewayLifecycle.DrainIsOnce` | src/gateway-lifecycle.ts:58-70 | repeated drains, like all other events, never move the deadline |
| `GatewayLifecycle.DrainCompletesInTime` | src/gateway-lifecycle.ts:58-91 | completion comes within maxWaitMs plus cleanupTimeoutMs of the first drain |
| `GatewayLifecycle.DrainStarts` | src/gateway-lifecycle.ts:58-70 | the first drain starts the wait and the polls from then |
| `GatewayLifecycle.DrainingLooksSoon` | src/gateway-lifecycle.ts:66-68 | a draining gateway that does not stop yet has a poll due within 100 ms that the clock cannot pass |
| `GatewayLifecycle.IdleLookStops` | src/gateway-lifecycle.ts:66-73 | a poll of a draining gateway stops it exactly when nothing is open; then at that moment, unforced, for good, and the drain is complete within cleanupTimeoutMs |
| `GatewayLifecycle.ForcedAtTheDeadline` | src/gateway-lifecycle.ts:69-91 | a forced stop comes exactly maxWaitMs after the drain began, and a cleanup is cut off exactly at its limit |
| `GatewayLifecycle.GatewayLifecycle.BeginOperation` | src/gateway-lifecycle.ts:38-40 | refused exactly while stopping, else one more operation |
| `GatewayLifecycle.GatewayLifecycle.Stop` | src/gateway-lifecycle.ts:72-83 | the first call disarms the timers, records the stop and starts the cleanup limit, later ones do nothing |
| `GatewayLifecycle.GatewayLifecycle.OnPoll` | src/gateway-lifecycle.ts:66-68 | over the fields: stopping afterwards exactly when no operation and no resource is open, with the stop recorded as unforced; else it polls again in 100 ms |
| `SipTracking.SipMarksRight` | src/drachtio-gateway.ts:178-387 | the calls of beginOperation and finish, exit path by exit path, begin and end exactly the handlers and attempts that enter and leave the tables, and none begins while draining |
| `MediaTracking.MediaMarksRight` | src/media-session-service.ts:112-147 | the same for session creations and their suspended calls, from admission on, which a stopping gateway refuses |
| `GatewayTheorems.OpenOperationsAreWorkUnderWay` | src/gateway-lifecycle.ts:38-56 | with begin and finish called by `track` alone, the counter is at every moment the number of operations under way: an INVITE, an attempt or a session creation holds its operation for exactly as long as it is in the tables |
| `GatewayTheorems.DrainingAdmitsKnownCallsOnly` | src/session-commands.ts:136-141 | what a draining gateway takes on are sessions of calls it already has and nothing else; a creation admitted before the drain goes on |
| `GatewayTheorems.GracefulStopLeavesNothing` | src/gateway-lifecycle.ts:66-73 | after a graceful stop there is no call, reservation, session, handler, attempt or creation, then or later |
| `GatewayRuns.PartsRun` | src/index.ts:33-64 | in every run of the gateway its lifecycle, its calls and its sessions are each in the state of a run of their own, so every result about those holds of the gateway |
| `GatewayRuns.IdleGatewayStops` | src/gateway-lifecycle.ts:66-73 | a poll of a draining gateway stops all its parts exactly when nothing is open anywhere; then unforced, for good, and complete within cleanupTimeoutMs |
| `GatewayRuns.IdleDrainIsGraceful` | src/gateway-lifecycle.ts:58-73 | a run that reaches a graceful stop: an idle gateway is gone 100 ms after it is told to drain |
| `GatewayRuns.CreationAdmittedIff` | src/session-commands.ts:136-141 | a session creation is admitted exactly when the gateway does not stop and, if it drains, the creation is for a registered or reserved call |
| `GatewayTheorems.StoppingAddsNothing` | src/gateway-lifecycle.ts:72-91 | once stopping, forced or not, no step adds a call or a session |
| `GatewayTheorems.CleanShutdownLeavesFailedByes` | src/index.ts:37-42 | when the stop hook settles in time no session, reservation or attempt is left and only calls whose BYE failed, from then on |
| `GatewayTheorems.DisconnectTakesEverything` | src/index.ts:56-64 | the step that loses a control connection leaves no session, no call and no uncancelled attempt of that owner, and takes nothing of anybody else |
| `GatewayRuns.DisconnectTakesItsAttempts` | src/index.ts:56-64 | after that step no registered call comes from an attempt that the connection created |
| `GatewayTheorems.OwnedOrderExists` | src/media-session-service.ts:446-448 | that step is never blocked |
| `GatewayTheorems.CallKeepsItsBackend` | src/index.ts:54 | while a call is registered or reserved its pin stays on one backend, also without any session and for any length of time |
| `GatewayRuns.PinGoesWithItsCall` | src/media-server-manager.ts:82-95 | when the last client of a call goes and the call is neither registered nor reserved, its pin goes too |
| `GatewayProcess.GatewayProcess.OnPoll` | src/index.ts:33-42 | the objects take the step of the whole gateway: stopping afterwards exactly when there is no operation, call, reservation or session, then unforced and with both stop hooks run |
| `GatewayProcess.GatewayProcess.OnDeadline` | src/index.ts:33-42 | likewise, forced |
| `GatewayProcess.GatewayProcess.OnDisconnect` | src/index.ts:56-64 | the clean-up of the objects is the step in which the whole gateway loses an owner, first its calls and then its sessions |
| `ControlHub.RouteKeyInjective` | src/control-hub.ts:285-287 | different routes have different keys, whatever their values contain |
| `ControlHub.RouteKeysAreUnique` | src/control-hub.ts:257-276 | in every run no route key is held twice, by two connections or by one |
| `ControlHub.OwnRoutesStayAvailable` | src/control-hub.ts:257-276 | a connection can register any list without duplicates of routes that nobody else has, its own among them |
| `ControlHub.EachRequestSettlesOnce` | src/control-hub.ts:92-128 | a request is pending on a live connection or settled exactly once, and a result came from the connection asked |
| `ControlHub.SettledForItsReason` | src/control-hub.ts:92-128 | in every run a request was resolved only by an answer of its connection that said ok, refused only by one that did not, and rejected otherwise only by its timer, its send, or the state or loss of its connection |
| `ControlHub.AnswerSettles` | src/control-hub.ts:203-207 | an answer of the connection asked settles a pending request at once, as resolved exactly when it said ok |
| `ControlHub.LostConnectionNeverAnswers` | src/control-hub.ts:230-241 | in every continuation of a loss, what was asked of the connection no longer waits, was asked before, and was rejected because of the loss if it was still open; so nothing resolves a question to a connection that is gone |
| `ControlHub.SessionEventsAreNumbered` | src/control-hub.ts:279-283 | the events handed to a connection about a session are numbered 1, 2, 3 and so on |
| `ControlHub.ReceivedNumbersIncrease` | src/control-hub.ts:130-162 | what arrives is strictly increasing, and numbered without a gap exactly when no event that arrives comes after one whose send threw or failed |
| `ControlHub.LostEventLeavesGap` | src/control-hub.ts:130-162 | a run with a gap |
| `ControlHub.ControlHub.AssertRoutesAvailable` | src/control-hub.ts:257-276 | the loops accept exactly lists without duplicates and without routes of other connections |
| `ControlHub.ControlHub.SetRoutes` | src/control-hub.ts:66-76 | replaces the routes or reports the error and changes nothing |
| `ControlHub.ControlHub.Ask` | src/control-hub.ts:92-128 | a request stays pending only when it was handed to an open socket, else it is rejected at once |
| `ControlHub.ControlHub.HandleResponse` | src/control-hub.ts:188-212 | settles exactly a pending request of the same connection, as resolved exactly when the answer said ok |
| `ControlHub.ControlHub.RejectPending` | src/control-hub.ts:249-255 | rejects a request that is still pending, else nothing |
| `ControlHub.ControlHub.RemoveConnection` | src/control-hub.ts:230-241 | the connection goes and the loop rejects exactly its requests |
| `ControlHub.ControlHub.SendEvent` | src/control-hub.ts:130-162 | numbering and delivery of one event |
| `RtpbridgeClient.EachRequestSettlesOnce` | src/rtpbridge-client.ts:244-331 | a request is pending or settled by exactly one settlement |
| `RtpbridgeClient.SettledForItsReason` | src/rtpbridge-client.ts:244-331 | in every run a request was resolved only by an answer without an error, and rejected only by one with an error, its timer, its send or the loss of the socket |
| `RtpbridgeClient.EmptyAfterClose` | src/rtpbridge-client.ts:80-83 | from the close event on the table is empty after every step of any continuation |
| `RtpbridgeClient.HandlersFireAtMostOnce` | src/rtpbridge-client.ts:333-340 | no close handler is called twice, and those called were registered first |
| `RtpbridgeClient.LossCallsAllHandlers` | src/rtpbridge-client.ts:76-83 | an unexpected error or close calls every handler registered so far, in order |
| `RtpbridgeClient.NoHandlerAfterClose` | src/rtpbridge-client.ts:237-242 | after a deliberate close, as after a loss, no handler is called in any continuation |
| `RtpbridgeClient.DeliberateCloseIsSilent` | src/rtpbridge-client.ts:237-242 | after `close` the socket is neither open nor connecting and no handler is called, whatever comes |
| `RtpbridgeClient.RtpbridgeClient.SendRequest` | src/rtpbridge-client.ts:255-274 | a request stays pending only when it was handed to an open socket |
| `RtpbridgeClient.RtpbridgeClient.HandleMessage` | src/rtpbridge-client.ts:294-314 | a response settles its request if it is still pending, as resolved exactly when it carries no error |
| `RtpbridgeClient.RtpbridgeClient.RejectAllPending` | src/rtpbridge-client.ts:325-331 | the loop rejects every pending request once and empties the table |
| `RtpbridgeClient.RtpbridgeClient.FireHandlers` | src/rtpbridge-client.ts:333-340 | the handlers are called in order, unless the close was deliberate |
| `RtpbridgeClient.RtpbridgeClient.CloseByOwner` | src/rtpbridge-client.ts:237-242 | a deliberate close forgets the handlers and closes the socket |
| `RtpbridgeClient.RtpbridgeClient.OnSocketClose` | src/rtpbridge-client.ts:80-83 | the close event rejects all requests and then calls the handlers |
| `PcapMerge.MergePcapFiles` | src/media-session-service.ts:1078-1099 | succeeds exactly for a non-empty list of long enough files with one header, writes that header and the bodies in order, else reports the first faulty segment |
| `PcapMerge.ReadPcapHeader` | src/media-session-service.ts:1101-1111 | the first 24 bytes, or an invalid segment |
| `PcapMerge.MergedLength` | src/media-session-service.ts:1078-1122 | the length is 24 plus the sum of the body lengths |
| `PcapMerge.SegmentStandsAt` | src/media-session-service.ts:1078-1122 | the body of segment i stands, byte for byte, behind the header and the bodies of the segments before it |
| `PcapMerge.MergeIsAssociative` | src/media-session-service.ts:1078-1099 | merging groups first and then their results gives the merge of all |
| `PcapMerge.WalkConcat` | src/media-session-service.ts:1113-1122 | walking packet records is a homomorphism |
| `PcapMerge.MergedRecords` | src/media-session-service.ts:1078-1122 | the merged file holds the packet records of well-formed segments in order and only those |
| `PcapMerge.LastSegmentDecides` | src/media-session-service.ts:1078-1122 | after well-formed segments the merged file is well formed exactly when the last one is |
| `PcapMerge.WalkOfWritten` | src/media-session-service.ts:1113-1122 | the walk reads back what a writer of either byte order wrote |
| `PercentEncoding.DecodeOfEncode` | src/media-session-service.ts:1049-1053 | decodeURIComponent undoes encodeURIComponent for every text |
| `PercentEncoding.KeptCharacters` | src/media-session-service.ts:1049-1053 | which characters are kept as they are |
| `PercentEncoding.OneByteCodes` | src/media-session-service.ts:1049-1053 | the codes of slash, blank, percent sign and backslash |
| `PercentEncoding.TwoByteCode` | src/media-session-service.ts:1049-1053 | the code of a character of two bytes |
| `PercentEncoding.ThreeByteCode` | src/media-session-service.ts:1049-1053 | and of three |
| `PercentEncoding.FourByteCode` | src/media-session-service.ts:1049-1053 | and of four |
| `PercentEncoding.DecodesToItself` | src/media-session-service.ts:1061-1066 | a segment decodes to itself exactly when it contains no percent sign |
| `RecordingPaths.AcceptedIffUnderRoot` | src/media-session-service.ts:911-921 | for any mix of dots, slashes and backslashes a path is accepted exactly when it resolves strictly below the root to a first name that does not begin with two dots |
| `RecordingPaths.ResolveWalks` | src/media-session-service.ts:911-914 | resolving follows a path step by step, an absolute one from the top |
| `RecordingPaths.ResolveOneStep` | src/media-session-service.ts:911-914 | a step down, up, or none, never above the top |
| `RecordingPaths.ClimbingOutIsRefused` | src/media-session-service.ts:911-921 | paths that climb out of the root, with either kind of slash, and the root itself are refused |
| `RecordingPaths.DottedNameRefused` | src/media-session-service.ts:911-921 | the input `..foo`, which lies below the root and is refused |
| `RecordingPaths.AcceptedIffOwned` | src/media-session-service.ts:911-932 | with a prefix a path is accepted exactly when it resolves to a file directly below the root whose name does not begin with two dots and decodes to a safe name that carries the prefix |
| `RecordingPaths.RelativePathRejoins` | src/media-session-service.ts:901-909 | the relative path of an accepted recording, resolved against the root, is its file |
| `RecordingPaths.ForeignPathIsKept` | src/media-session-service.ts:901-909 | a path outside the root is passed on as it is, without its leading slash |
| `RecordingPaths.RootIsClean` | src/media-session-service.ts:934-936 | the root is normalized and holds no backslash |
| `RecordingPaths.RootIsAsConfigured` | src/media-session-service.ts:934-936 | the root is the configured directory, from the top or from the working directory, whatever slashes stand behind it |
| `RecordingPaths.DownloadPathNamesRecording` | src/media-session-service.ts:890-899 | decoding the download path gives the same segments exactly when no name contains a percent sign |
| `RecordingPaths.PercentNameIsMisread` | src/media-session-service.ts:890-899 | a name with a percent sign whose download path names another file |
| `RecordingPaths.PercentNameIsRefused` | src/media-session-service.ts:890-899 | and one that is refused |
| `RecordingPaths.ReadsSafeSegments` | src/media-session-service.ts:1049-1076 | what a client decodes from a download path is what the safe-segment check let through |
| `RecordingPaths.SafeSegmentsArePlain` | src/media-session-service.ts:1055-1076 | a path is accepted exactly when it has names, all of them decode, and each decodes to a plain one; those are returned |
| `EndpointCatalog.ParseBackends` | src/endpoint-catalog.ts:60-91 | accepts exactly lists of at most 128 entries with valid distinct ids, sound fields and a boolean acceptNew, and keeps their ids, decisions and order |
| `EndpointCatalog.ParsedAsWritten` | src/endpoint-catalog.ts:60-91 | an accepted document has the revision, the expiry and the backends that the file states |
| `EndpointCatalog.ViewIsLastAccepted` | src/endpoint-catalog.ts:130-153 | the view is the last document taken over, and there is none exactly when none was ever good |
| `EndpointCatalog.ValidUntilExpiry` | src/endpoint-catalog.ts:108-119 | in every run the view is valid exactly while the expiry written in the content taken over last is absent or still to come; before it all listed backends are offered, from it on none |
| `EndpointCatalog.ExpiredIsRejected` | src/endpoint-catalog.ts:141 | content that has expired at the time of the look is not taken over and leaves an error |
| `EndpointCatalog.ErrorOfTheLastLook` | src/endpoint-catalog.ts:137-149 | there is an error exactly when the last look at something other than the document in use could not take it over |
| `EndpointCatalog.ValidityNeedsNewDocument` | src/endpoint-catalog.ts:108-153 | an invalid catalog becomes valid again only through a good document with a new signature, under a monotone clock |
| `EndpointCatalog.RejectedKeepsExpiry` | src/endpoint-catalog.ts:92 | a rejected replacement leaves view and validity as they were |
| `EndpointCatalog.ReadyIffPickSucceeds` | src/media-server-manager.ts:111-186 | in every run readiness reports an eligible backend exactly when an unpinned pick on the same snapshot succeeds, although one counts with `acceptNew` and the other with `acceptNew !== false` |
| `EndpointCatalog.FiltersAgree` | src/endpoint-catalog.ts:115 | the two filters give the same list when every entry has decided, as the parser demands |
| `EndpointCatalog.FiltersDiffer` | src/media-server-manager.ts:181 | an entry found through DNS, on which they differ |
| `EndpointCatalog.DnsReadyButPickFails` | src/media-server-manager.ts:111-147 | without a catalog readiness is positive and a pick fails exactly when SRV gives nothing and the address lookup an empty list |
| `EndpointCatalog.PickedHostIsDiscovered` | src/media-server-manager.ts:120-147 | without a catalog an unpinned pick gives the configured address, else one of the SRV targets, else one of the addresses, and the name itself only when looking it up failed |
| `EndpointCatalog.FileEndpointCatalog.Look` | src/endpoint-catalog.ts:130-153 | one refresh, with every reason to keep the view |
| `EndpointCatalog.FileEndpointCatalog.TakeSnapshot` | src/endpoint-catalog.ts:108-119 | the getter refreshes first and reports the backends and how many of them accept; that number is positive exactly when an unpinned pick on them succeeds |

## Left out

- HTTP, WebSocket and axios plumbing, command parsing, configuration and log scrubbing: thin dispatch and single-branch checks.
- drachtio and rtpbridge themselves: each RPC is an event that succeeds, fails or never comes.
- TLS, request signing, TURN credentials and ICE configuration.
- ICE restarts and their de-duplication, SDP texts, endpoint directions and the `updatedAt` stamps.
- The table of running recordings and the HTTP proxying of recordings; paths, names and merging are modelled.
- An asynchronous method is split at its awaits, so `playAndGather`, `withSensitiveDtmf`, `leaveMessage` and the others are several methods of `MediaOperations` each; that the source runs the stretches of one call in their order is what the captured phase says.
- `playToCompletion` and `waitForLeaveMessageTerminator`: the claim and the abort of a leave-message run and the endpoint of its playback are modelled, not what ends the wait.
- Final SIP responses, re-INVITEs and the delivery of follow-up events; a notice is the decision to send one.
- The pending record of an outbound attempt is a value in its table, so the identity check before its removal is not modelled: an id cannot be used again while its attempt is pending.
- Route lookup for a destination and the parsing of SIP URIs; a route value is an opaque normalized text.
- Events without a session id carry no number and are not part of `ControlHub`.
- A request to rtpbridge before its socket is ready: it waits, and is part of the model only once the socket opened.
- `isCallActive` also looks for a media session whose id equals the call id; the two kinds of ids are distinct here, so only the registry answers.
- The operation that tracks the clean-up after a lost control connection, and every other tracked operation besides INVITEs, attempts and session creations, is an anonymous one in `Gateway`.
- DNS discovery of backends: waiting for the resolver is modelled and its answers are parameters; sorting them and trimming the names is left out.
- Validation of catalog entries beyond acceptance or rejection, and the text of the last error.
- File handles, temporary directories and stream back-pressure; files are byte sequences.
- PercentEncoding: texts are sequences of Unicode scalar values, so a lone surrogate, for which `encodeURIComponent` throws, does not occur.
- DtmfGather: upper-casing a digit is that of ASCII; timers are punctual.
- RecordingPaths.RelativePathRejoins: assumes a root without backslashes, which `RootIsClean` shows for every configured path unless the working directory itself has one.
