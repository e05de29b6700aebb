# Verified model of the pipane rendezvous, protocol and client logic

A Dafny model of the parts of pipane whose correctness spans many calls:

- the **rendezvous**: the trust store (accounts, devices, pairings, tickets, invites, revocations), the hub that
  routes browsers to backends, and the HTTP handlers, as one transition system (`TrustModel`, `HubModel`,
  `ServerModel`; what each operation is for in `TrustLaws`, `HubLaws`, `ServerLaws`; invariants in `TrustInvariants`,
  `HubInvariants`, `RouteSafety`; whole runs in `TrustRuns`, `RendezvousRuns`, `BindingRuns`, `SlippingTicket`);
- the **backend's authorizer** with its own trust store, its calls interleaved freely while they wait for the
  rendezvous (`BackendModel`, `BackendLaws`, `BackendRuns`);
- the **request protocol** between several clients and one backend handler: duplicate suppression, a bounded answer
  cache, reconnects and timeouts (`ProtocolModel`, `ProtocolRuns`, `ProtocolLaws`);
- the **session list** built from untrusted parent links, cycles included (`SessionForest`, `SessionRows`,
  `ProjectList`), and the **session cache** in IndexedDB (`SessionCacheModel`, `SessionCacheRuns`,
  `SessionCacheLaws`);
- **chunked uploads** and the backend's store for them, the **STUN codec** (RFC 8489, section 14), **base64url**, **path
  normalisation**, **fenced markdown** and **slash-command ranking**.

What the program does by changing things step by step is a class or a loop here as well (`TrustStore`,
`RendezvousHub`, `RendezvousServer`, `BackendAuthorizer`, `BackendProtocol`, `SessionCache`, `StunServer`,
`FileUpload`, `UploadStore`, `DeviceIdentity`, and loops in `SessionForest`, `ProjectList`, `Paths`, `Fences`,
`SlashCommands`). Each such method is proved against a specification function on values; the lemmas below are about those
functions, over every run, with the clock readings, random identifiers, signatures and network deliveries as parameters.

`dafny verify dfyconfig.toml` checks the whole project.

## Model

| member | source | states |
|---|---|---|
| TrustRuns.StateAlwaysReloads | src/rendezvous/trust-store.ts:578-600 | after any sequence of store operations the state passes the cross-reference check made when it is loaded, so a restart never rejects what the store wrote |
| TrustRuns.DiscoveryIsExact | src/rendezvous/trust-store.ts:294-298 | in every run a discovery is answered if and only if it is signed, in time and by an active device, and then names exactly the backends owned by that device's account, each once, although owners and account lists are stored apart |
| TrustRuns.OwnerMovesThroughNobody | src/rendezvous/trust-store.ts:358-370 | no step of a run hands a backend from one account directly to another |
| TrustRuns.DeviceIsForGood | src/rendezvous/trust-store.ts:245-292 | a device once known stays known, with its key and account, and a revoked one never becomes active again |
| TrustRuns.CompletionIsForGood | src/rendezvous/trust-store.ts:247-289 | the record of a completed pairing is never changed or dropped |
| TrustRuns.CompletedPairingAnswersTheSame | src/rendezvous/trust-store.ts:245-251 | at any later time the ticket that completed a pairing gets the first answer again and every other ticket for it is refused, both without a change of the store |
| TrustRuns.TicketIsUsedOnceIff | src/rendezvous/trust-store.ts:236-243 | the exact law of single use: a consumed ticket passes again if and only if it expires between the two clock readings of that later call |
| TrustRuns.TicketCanBeUsedTwice | src/rendezvous/trust-store.ts:236-243 | a concrete ticket and clock for which it does pass again, and the neighbouring clock for which it does not |
| TrustRuns.ChallengeAuthorisesOnce | src/rendezvous/trust-store.ts:386-399 | over the whole life of the store, and across the seven operations that take one, a challenge is presented at most once while open, in time, for its purpose and with a valid signature |
| TrustRuns.NothingWithoutSignature | src/rendezvous/trust-store.ts:386-399 | in every run an operation that takes a challenge and is not presented it so strikes the challenge and changes nothing else |
| TrustRuns.InviteAdmitsOnce | src/rendezvous/trust-store.ts:317-346 | once an invite has admitted a device, it admits no other, whoever tries |
| TrustRuns.RevokedDeviceIsConfirmedIff | src/rendezvous/trust-store.ts:258-264 | for every store: an inactive device completes a new pairing if and only if it was revoked at time 0, its key and account are those of the ticket, and nobody else owns the backend |
| TrustRuns.RevokedDeviceConfirmsNothing | src/rendezvous/trust-store.ts:258-264 | in every run, where the clock is positive: at any time after its revocation a device confirms no new pairing and changes nothing |
| TrustRuns.RevocationAtTimeZeroIsIgnored | src/rendezvous/trust-store.ts:258-264 | an input: a device revoked at time 0 is confirmed and gets the backend |
| TrustLaws.ChallengeIsCreatedIff | src/rendezvous/trust-store.ts:171-190 | a challenge is created if and only if the fields of its purpose are there and the request speaks for a device: a known, active one with its own key, or, to pair or join, the one whose id is the fingerprint of the key; what it holds, and what pruning leaves |
| TrustLaws.PairingTicketIsIssuedIff | src/rendezvous/trust-store.ts:192-209 | a pairing ticket is signed if and only if its challenge was answered with a valid signature, in time and for that purpose; its claims, and the store after refusal and success |
| TrustLaws.ConnectionTicketIsIssuedIff | src/rendezvous/trust-store.ts:211-230 | the same for connection tickets, which also need the backend's owner and an active device of that account |
| TrustLaws.TicketPassesIff | src/rendezvous/trust-store.ts:232-243 | a route ticket passes if and only if it was signed here unchanged, is within its dates and not recorded as used beyond the pruning; what is recorded then and forgotten |
| TrustLaws.PairingSucceedsIff | src/rendezvous/trust-store.ts:253-292 | a first confirmation succeeds if and only if the backend is unowned or the account's, and the device new or one of that account with that key and no revocation but at time 0; owner, device, account and completion afterwards |
| TrustLaws.BackendsAreListedIff | src/rendezvous/trust-store.ts:294-298 | for every store: who gets the list, and which |
| TrustLaws.InviteIsCreatedIff | src/rendezvous/trust-store.ts:300-315 | an invite is made if and only if an active device signed for it; for whose account, with which hash and expiry |
| TrustLaws.DeviceJoinsIff | src/rendezvous/trust-store.ts:317-346 | a device joins if and only if it signed a challenge for this very invite, which is open, brings its secret, and has no account yet; account, device and invite afterwards |
| TrustLaws.DeviceIsRevokedIff | src/rendezvous/trust-store.ts:348-356 | a device is revoked if and only if an active device of its account signed for that; nothing else changes |
| TrustLaws.BackendIsRevokedIff | src/rendezvous/trust-store.ts:358-370 | a backend is given up if and only if an active device of its owner signed for that; owner, list and record afterwards |
| TrustStore.RendezvousTrustStore.CreateChallenge | src/rendezvous/trust-store.ts:171-190 | the new state and answer are those of the specification, pruning included |
| TrustStore.RendezvousTrustStore.ConsumeRouteTicket | src/rendezvous/trust-store.ts:236-243 | the ticket check at one clock reading and the pruning at a later one leave the specified state |
| TrustStore.RendezvousTrustStore.ConfirmPairing | src/rendezvous/trust-store.ts:245-292 | the repeated and the first confirmation, with each reason for refusal, leave the specified state and answer |
| TrustStore.RendezvousTrustStore.AcceptDeviceInvite | src/rendezvous/trust-store.ts:317-346 | the specified state and answer, the challenge being spent on failure too |
| TrustStore.RendezvousTrustStore.RevokeDevice | src/rendezvous/trust-store.ts:348-356 | the specified state and answer |
| TrustStore.RendezvousTrustStore.RevokeBackend | src/rendezvous/trust-store.ts:358-370 | the specified state and answer |
| TrustStore.RendezvousTrustStore.Prune | src/rendezvous/trust-store.ts:463-480 | the three deletion loops leave exactly the entries that have not expired |
| RendezvousRuns.UnsafeRouteMisfired | src/rendezvous/rendezvous-hub.ts:389-451 | the safety theorem, for every run: a live route that is a connection or a confirmed pairing has the rights it claims (its account owns the backend, its device is an active device of that account), revocations included; or else an earlier step of this run misfired with the ticket of this very route |
| RendezvousRuns.RoutesAreAlwaysAuthorised | src/rendezvous/rendezvous-hub.ts:109-131 | a run in which no step misfires has only authorised routes, at every moment |
| RendezvousRuns.StepIsSafeIff | src/rendezvous/rendezvous-hub.ts:398-428 | at any safe moment of any run, whatever slipped before, the next step (any event) leaves it safe if and only if it does not misfire |
| RendezvousRuns.MisfireIsUnsafe | src/rendezvous/rendezvous-hub.ts:389-451 | a step that meets the misfire condition does open the unsafe route |
| RendezvousRuns.ConfirmedAgainIsAuthorisedIff | src/rendezvous/rendezvous-hub.ts:271-298 | how such a route gets its rights back: a new confirmation by its backend makes it authorised if and only if the account of the completed pairing still owns the backend and the device is still active |
| SlippingTicket.RunCanEndUnsafe | src/rendezvous/rendezvous-hub.ts:398-428 | a run of twelve steps from the empty system that ends with a route for a completed pairing and no rights |
| RendezvousRuns.RoutesAlwaysAgree | src/rendezvous/rendezvous-hub.ts:430-451 | in every run the two route maps are inverse bijections, every route leads to a registered backend, and whatever a browser was sent about a connection was about the one last announced to it and not yet closed |
| RendezvousRuns.ServerStateAlwaysReloads | src/rendezvous/trust-store.ts:520-541 | in every run of the whole server the stored state passes the load-time check |
| RendezvousHub.RendezvousHub.NotifyRevocation | src/rendezvous/rendezvous-hub.ts:109-131 | the two loops over backends and routes tell every backend concerned and close exactly the affected routes |
| RendezvousHub.RendezvousHub.RegisterBackend | src/rendezvous/rendezvous-hub.ts:208-254 | the specified hub, the replaced registration and its routes included |
| RendezvousHub.RendezvousHub.ConfirmPairing | src/rendezvous/rendezvous-hub.ts:271-298 | the specified hub and store, the account being written into the shared route object |
| RendezvousHub.RendezvousHub.RelayBackendBinding | src/rendezvous/rendezvous-hub.ts:313-337 | the specified hub for a binding that is relayed and for one that ends its route (HubLaws.BindingIsRelayedIff says which) |
| RendezvousHub.RendezvousHub.HandleBackendMessage | src/rendezvous/rendezvous-hub.ts:163-206 | for every message: the specified hub and store, and both maps still hold the same route objects |
| RendezvousHub.RendezvousHub.ConnectBrowser | src/rendezvous/rendezvous-hub.ts:389-451 | the specified hub and store for every outcome (offline, bad ticket, refused, duplicate connection, opened in place of an earlier route), with the clock readings of the ticket check, the pruning and the pairing lookup apart |
| RendezvousHub.RendezvousHub.HandleBrowserMessage | src/rendezvous/rendezvous-hub.ts:346-387 | for every message: the specified hub and store |
| RendezvousHub.RendezvousHub.RemoveBackendSocket | src/rendezvous/rendezvous-hub.ts:462-482 | the registration, its pairings and its routes go, and each of their browsers is told |
| HubLaws.ConnectionOpensIff | src/rendezvous/rendezvous-hub.ts:389-451 | for every hub and store: a browser gets a route if and only if the backend is online, the ticket for it is signed here, in time and unused, its account owns the backend and its device is active, or its pairing is open there, and the connection id is free; which route, what both ends hear last, and the use on record; otherwise no route changes and the browser hears why |
| HubLaws.EarlierRouteGoes | src/rendezvous/rendezvous-hub.ts:433-444 | of the routes there were exactly the browser's earlier one is gone, and its backend hears of it before anything else |
| HubLaws.BackendSignalIsRelayedIff | src/rendezvous/rendezvous-hub.ts:300-311 | a backend's signal reaches the browser of its own route, and an answer is recorded, if and only if it is no offer; else only the backend hears |
| HubLaws.BrowserSignalIsRelayedIff | src/rendezvous/rendezvous-hub.ts:368-378 | a browser's signal reaches the backend of its route, and an offer is recorded, if and only if it is no answer |
| HubLaws.StrangersAreRefused | src/rendezvous/rendezvous-hub.ts:356-366 | commands for a connection of another browser, or to a backend that is gone: who hears what, and which route ends |
| HubLaws.BrowserCloses | src/rendezvous/rendezvous-hub.ts:379-386 | a browser's close ends its route, and exactly its backend hears |
| HubLaws.BackendClosesIff | src/rendezvous/rendezvous-hub.ts:339-344 | a backend's close ends exactly a route of its own |
| HubLaws.BindingIsRelayedIff | src/rendezvous/rendezvous-hub.ts:313-337 | a binding is relayed, routes left alone, if and only if it is signed under this backend's id and key for this connection and expiry and hashes the offer and the answer on record in their own fields; any other ends the route |
| BindingRuns.BindingsAreGenuine | src/rendezvous/rendezvous-hub.ts:313-337 | in every run each binding in a browser's log came from the backend registered for its route, signed under that backend's id and key, and hashes the last answer that this log had relayed before it and the last offer that this browser had sent on the connection |
| HubLaws.PairingOpensIff | src/rendezvous/rendezvous-hub.ts:256-269 | a pairing is opened if and only if it ends within the next fifteen minutes and no other online backend has it open |
| HubLaws.ConfirmationSucceedsIff | src/rendezvous/rendezvous-hub.ts:271-298 | a confirmation succeeds if and only if it is for a pairing route of this backend whose pairing this backend has open, and the store agrees; route, pairing and message afterwards |
| HubLaws.BackendRegistersIff | src/rendezvous/rendezvous-hub.ts:208-254 | a backend is registered if and only if the signature is valid and the key has a fingerprint; what an earlier socket of it loses, and what both hear |
| HubLaws.OutOfTurnIsRefused | src/rendezvous/rendezvous-hub.ts:163-206 | nothing else before registration, and no second registration |
| HubLaws.LeavingEndsIff | src/rendezvous/rendezvous-hub.ts:462-482 | a closing socket ends the registration that is still its own, with its routes and pairings, and no other |
| HubLaws.RevocationIsAnnounced | src/rendezvous/rendezvous-hub.ts:109-131 | each backend that a revocation is about hears of it, exactly the routes of that account, backend and device are gone, and exactly their browsers hear |
| RendezvousServer.RendezvousServer.PostChallenge | src/rendezvous/server.ts:115-130 | store and hub after the handler are those of the transition system |
| RendezvousServer.RendezvousServer.PostPairingTicket | src/rendezvous/server.ts:131-143 | the same for pairing tickets: one is handed out if and only if the pairing is open, the ticket issued and for that pairing and backend; one that does not match is signed all the same |
| RendezvousServer.RendezvousServer.PostRevokeDevice | src/rendezvous/server.ts:179-184 | the same for device revocations: the store revokes first, then the hub ends the routes |
| ServerLaws.StoreIsReachedIff | src/rendezvous/server.ts:115-190 | every event has exactly the store operation it asks for if its pairing is open or its backend online, where it names one, and else none |
| ServerLaws.RevocationsAreAnnouncedIff | src/rendezvous/server.ts:179-190 | a revocation handler has the hub announce exactly the revocations that succeed |
| ServerLaws.SocketsAreServed | src/rendezvous/rendezvous-hub.ts:133-161 | messages and closings of sockets reach the hub, and a new backend socket gets its challenge |
| BackendRuns.CapabilityAuthorisesOnce | src/server/backend-connection-authorizer.ts:15-33 | however suspended calls interleave, a pairing capability yields at most one authorization |
| BackendRuns.TicketAuthorisesOnceWhileValid | src/server/backend-connection-authorizer.ts:15-33 | two authorizations share a ticket only if it is a connection ticket and the second comes after its expiry |
| BackendRuns.GrantedTicketPassesIff | src/server/backend-trust-store.ts:94-109 | in every run a ticket that was granted is granted again if and only if it is a connection ticket, expired at the pruning, whose account still owns the backend and whose device is not revoked |
| BackendRuns.ExpiredTicketPassesAgain | src/server/backend-trust-store.ts:126-140 | a concrete ticket that is granted, refused while valid, and granted again at its expiry |
| BackendRuns.WaiterSucceedsIff | src/server/backend-connection-authorizer.ts:20-32 | a suspended call succeeds if and only if the rendezvous confirms its own pairing and device, for the owner or for the first owner: its ticket is never found used |
| BackendRuns.AuthorizedAccountIsOwner | src/server/backend-trust-store.ts:111-117 | the step that authorizes an account leaves it the owner, and admits no revoked device to a connection |
| BackendRuns.OwnerMovesThroughNobody | src/server/backend-trust-store.ts:111-124 | between two different owners there is a moment without one |
| BackendRuns.RevokedDeviceNeverConnects | src/server/backend-trust-store.ts:119-124 | from its revocation on a device gets no connection in the rest of the run; only a pairing |
| BackendLaws.PairingWaitsIff | src/server/backend-trust-store.ts:82-103 | a pairing call gets to wait for the rendezvous if and only if its ticket is not recorded as used and its capability is there, unexpired, unused and its secret right; revocations play no part; that capability is used then |
| BackendLaws.ConnectionIsGrantedIff | src/server/backend-trust-store.ts:94-109 | a connection is granted, at once, if and only if its ticket is not recorded as used, its account owns the backend and its device is not revoked; its use is on record then |
| BackendLaws.PairingFinishesIff | src/server/backend-connection-authorizer.ts:20-33 | the rest of a pairing succeeds if and only if the confirmation names its pairing and device and no other owner is in the way; owner and ticket afterwards |
| BackendLaws.CapabilityIsMadeIff | src/server/backend-trust-store.ts:59-73 | a capability is made if and only if it lasts up to fifteen minutes, with the hash of its secret |
| BackendLaws.RevocationAppliesIff | src/server/backend-trust-store.ts:119-124 | a revocation has its effect if and only if it comes from the owner |
| BackendRuns.RevokedDevicePairs | src/server/backend-trust-store.ts:94-103 | a run of seven steps in which a device pairs, is revoked, and pairs again |
| BackendAuthorizer.BackendConnectionAuthorizer.Begin | src/server/backend-connection-authorizer.ts:15-20 | `authorize` up to where it waits leaves the specified store, with the two clock readings apart |
| BackendAuthorizer.BackendConnectionAuthorizer.Finish | src/server/backend-connection-authorizer.ts:21-33 | the rest of `authorize`, on any answer, leaves the specified store |
| BackendAuthorizer.BackendTrustStore.Prune | src/server/backend-trust-store.ts:126-140 | both deletion loops leave exactly what has not expired |
| ProtocolRuns.TablesAreDisjointAndBounded | src/server/backend-protocol-handler.ts:24-62 | in every run nothing is both running and remembered; at most 64 requests run and at most 128 answers are remembered |
| ProtocolRuns.DispatchesAreConserved | src/server/backend-protocol-handler.ts:24-62 | each dispatch of a key is running, remembered or was forgotten, exactly one of these; so no request runs twice unless its answer was forgotten in between |
| ProtocolRuns.AnswerIsRememberedIff | src/server/backend-protocol-handler.ts:133-139 | a remembered answer stays, unchanged, for exactly the next 127 remembered answers |
| ProtocolRuns.PromiseSettlesOnce | src/client/data-channel-backend-api.ts:208-253 | in every run a request is pending if and only if it has not ended, and it ends at most once, whatever is delivered, lost, repeated or timed out |
| ProtocolRuns.FulfilledByItsOwnRequest | src/client/data-channel-backend-api.ts:238-253 | end to end: a promise is fulfilled only with what the API returned for that very request of that very client, and fails with an API error only if the API failed so on it |
| ProtocolRuns.MethodsAlwaysMatch | src/client/data-channel-backend-api.ts:238-253 | with this handler at the other end no answer is ever rejected for naming another method |
| ProtocolLaws.AskIsSentIff | src/client/data-channel-backend-api.ts:208-236 | in every run: a call over an open connection is sent under a new name and waits, unless the send fails; any other is rejected at once |
| ProtocolLaws.FrameSettlesIff | src/client/data-channel-backend-api.ts:238-253 | in every run: a frame for a waiting promise ends exactly that promise, fulfilled with the result if the verdict is a success and rejected with the error if it is a failure; any other frame is ignored |
| ProtocolLaws.AnyFrameEndsIff | src/client/data-channel-backend-api.ts:238-253 | for any client and frame, in a run or not: the same, but that a frame for another method rejects the promise |
| ProtocolLaws.TimeOutEndsIff | src/client/data-channel-backend-api.ts:208-236 | a time-out ends exactly a promise that still waits |
| ProtocolLaws.EndingHasItsCause | src/client/data-channel-backend-api.ts:208-253 | in every run each ending, of whatever kind, was made by an earlier step that has that effect: a frame with that verdict, a time-out, a failed send or a call without a connection |
| ProtocolLaws.RequestIsServedIff | src/server/backend-protocol-handler.ts:24-62 | in every run: a request is answered from memory, joins the running one as a waiter, is refused when 64 run, or is dispatched; the tables, the dispatches and what is sent |
| ProtocolLaws.CompletionAnswersAll | src/server/backend-protocol-handler.ts:44-62 | in every run: a completed request no longer runs, and each waiter whose connection is open gets the answer, as often as it waits; nobody else gets anything |
| ProtocolLaws.WaiterIsAnswered | src/server/backend-protocol-handler.ts:24-62 | no request is lost: one that is not answered from memory or refused is answered over its connection, if still open, with the next verdict on its key |
| ProtocolRuns.ReconnectResendsEachPendingOnce | src/client/data-channel-backend-api.ts:56-62 | in every run: a reconnect hands each pending request to the transport once, oldest first, under the name and with the content it was issued with, but for those whose send throws; any other change of the connection sends nothing |
| ProtocolRuns.RepeatedRequestIsReplayed | src/server/backend-protocol-handler.ts:41-45 | in every run: a request whose answer is among the last 128 remembered gets exactly that answer, and nothing else changes |
| ProtocolRuns.CacheKeyTellsAll | src/server/backend-protocol-handler.ts:40-40 | the cache key tells devices and request names apart, unless one device id with a colon behind it begins the other |
| ProtocolRuns.CacheKeysCollideIff | src/server/backend-protocol-handler.ts:40-40 | two devices can share a key if and only if one id with a colon behind it begins the other |
| ProtocolRuns.CacheKeysCollideWithColons | src/server/backend-protocol-handler.ts:40-40 | two devices, one with a colon in its id, that share a key |
| BackendProtocol.BackendProtocolHandler.OnMessage | src/server/backend-protocol-handler.ts:24-62 | replay, joining a running request, conflict, overload or dispatch: the specified handler |
| BackendProtocol.BackendProtocolHandler.Complete | src/server/backend-protocol-handler.ts:44-62 | the answer is remembered and sent to every waiter, in order |
| BackendProtocol.DataChannelBackendApi.Ask | src/client/data-channel-backend-api.ts:208-236 | the specified client, a failed send included |
| BackendProtocol.DataChannelBackendApi.HandleFrame | src/client/data-channel-backend-api.ts:238-253 | the specified client for answers known, unknown and of another method |
| BackendProtocol.DataChannelBackendApi.ConnectionChange | src/client/data-channel-backend-api.ts:56-62 | the loop over the pending requests leaves the specified client, sends that throw included |
| SessionForest.HasCycle | src/client/session-picker.ts:1300-1307 | the walk with its set of seen keys answers true if and only if the chain of parents never ends |
| SessionForest.BuildForest | src/client/session-picker.ts:1309-1319 | the loop leaves exactly the roots and children of the parent links cut where a chain never ends, in list order |
| SessionForest.KeptIsAcyclic | src/client/session-picker.ts:1293-1319 | whatever the parent links were, those kept have no cycle |
| ProjectList.Render | src/client/session-picker.ts:1897-1915 | forest, ordering and truncation together leave the specified list (ProjectList.ShownRootsIff, ProjectList.UnfoldedIff and the rows below say what that is) |
| ProjectList.RootsArePermuted | src/client/session-picker.ts:1902-1914 | running conversations come first and are never hidden, every conversation is there once, and shown and hidden add up |
| ProjectList.ShownRootsIff | src/client/session-picker.ts:1902-1914 | the conversations in which a session runs come first, then the others, each part in the order of the forest; shown are all of an expanded group, else the first of them, as many as there are, but at most the larger of the limit and the number of running ones |
| ProjectList.UnfoldedIff | src/client/session-picker.ts:1326-1341 | a listed session is unfolded if and only if it has children and the user unfolded it, or left it and something below it runs or is open; the number of its children |
| ProjectList.RootRunsIff | src/client/session-picker.ts:1321-1324 | a conversation counts as running if and only if some session below it runs |
| ProjectList.RenderedOnceIff | src/client/session-picker.ts:1326-1341 | a session is listed once if its conversation is shown and everything above it unfolded, and else not at all |
| ProjectList.RunningIsRenderedIff | src/client/session-picker.ts:1326-1341 | a running session is on the list, once, if and only if the user folded none of its ancestors, whatever the truncation |
| ProjectList.UnfoldedListIsComplete | src/client/session-picker.ts:1326-1341 | with everything unfolded each session of the group is listed once: cyclic parents lose and repeat nothing |
| ProjectList.ChildrenFollowParents | src/client/session-picker.ts:1326-1341 | each row of a session whose parent link was kept comes after its parent's, one deeper, with no shallower row in between, so the parent is the row it is indented under; every other row is a root's, at depth 0 |
| ProjectList.SiblingsKeepGroupOrder | src/client/session-picker.ts:1309-1341 | rows of the same parent stand in the order of the group, and roots in display order |
| SessionCacheRuns.StoresAlwaysAgree | src/client/session-state-cache.ts:165-204 | in every run, prunes between any two transactions included, both stores hold the same keys and each entry is one save's, with its hash and size |
| SessionCacheRuns.LoadReturnsTheLastSave | src/client/session-state-cache.ts:132-163 | in every run a load returns nothing, or the state last saved when it read |
| SessionCacheRuns.LoadRefusesIff | src/client/session-state-cache.ts:142-153 | in every run a load refuses what it reads if and only if that was saved under another hash, undecodable, or with another number of messages |
| SessionCacheRuns.LateRemovalDropsLoadableIff | src/client/session-state-cache.ts:136-153 | in every run: when a load that refused an entry comes to remove it, what it deletes could be loaded if and only if a loadable state was saved under the key since it read and is still there |
| SessionCacheRuns.LateRemovalDropsALoadableState | src/client/session-state-cache.ts:136-153 | a run of four steps in which that happens |
| SessionCacheRuns.LatePruneDropsIff | src/client/session-state-cache.ts:256-279 | in every run: what the write of a prune deletes is what its listing put beyond the budget, whatever was saved in between |
| SessionCacheRuns.LatePruneDropsTheNewest | src/client/session-state-cache.ts:256-279 | an input: the only entry, saved while a prune was under way and within the budget, is deleted by it |
| SessionCacheRuns.PreviewIsOfTheLastSave | src/client/session-state-cache.ts:118-130 | with a hash that tells states apart, a shown preview is that of the last saved state |
| SessionCacheRuns.PruneMeetsTheBudget | src/client/session-state-cache.ts:256-279 | what a prune without interruption leaves is within the number of sessions and the number of bytes |
| SessionCacheRuns.NewestIsKept | src/client/session-state-cache.ts:256-279 | a prune puts the most recently used entry that it lists beyond the budget only if it does not fit at all |
| SessionCacheRuns.PreviewFitsAndRenders | src/client/session-state-cache.ts:88-102 | a preview is within its byte limit, starts with something renderable if there is anything, and holds at most the allowed number of those |
| SessionCacheRuns.NoPreviewOnlyIfNothingFits | src/client/session-state-cache.ts:88-102 | there is no preview only if the shortest candidate is too long |
| SessionCacheLaws.PreviewIsLongestTriedIff | src/client/session-state-cache.ts:88-102 | of the ends with as many rendered messages as there are, up to the limit, and then a quarter fewer each time, the preview is the first that fits, and there is none if and only if none fits |
| SessionCacheLaws.CandidateStarts | src/client/session-state-cache.ts:88-94 | the candidates are exactly the starts from which one, two and so on messages are rendered |
| SessionCacheLaws.SavedIsLoadedIff | src/client/session-state-cache.ts:132-195 | a save is loaded again if and only if its hash and its number of messages are right; the new entry, and nothing else, is different |
| SessionCacheLaws.PreviewIsShownIff | src/client/session-state-cache.ts:118-130 | the stored preview is shown if and only if it decodes and fits its hash |
| SessionCacheLaws.BackfillAddsIff | src/client/session-state-cache.ts:220-241 | a preview is added if and only if the snapshot is still the one it was made of and has none; its bytes count then |
| SessionCacheLaws.TouchMovesToFront | src/client/session-state-cache.ts:243-254 | an entry touched later than all others is the first that a prune lists, and nothing else changes |
| SessionCacheLaws.EntryIsSparedIff | src/client/session-state-cache.ts:261-271 | from the newest on, an entry is spared if and only if its place is within the number of sessions and its bytes, with those of all spared before it, within the number of bytes |
| SessionCache.IndexedDbSessionStateCache.Save | src/client/session-state-cache.ts:165-195 | both stores as specified |
| SessionCache.IndexedDbSessionStateCache.Load | src/client/session-state-cache.ts:132-163 | the specified result of its one reading transaction, and whether the entry is to be removed later |
| SessionCache.IndexedDbSessionStateCache.ChooseEvicted | src/client/session-state-cache.ts:262-271 | the loop over the entries, newest first, chooses exactly those beyond either budget |
| StunRoundTrip.BuildParseRoundTripIff | e2e/mock-turn-server.ts:243-262 | parsing gives back what was built if and only if the type has 14 bits and the id 12 bytes |
| StunRoundTrip.AuthenticatedRoundTripIff | e2e/mock-turn-server.ts:264-269 | the same for authenticated messages, whose last attribute is the integrity of everything before it |
| StunRoundTrip.ParsedLieInPacket | e2e/mock-turn-server.ts:249-255 | for every packet, each parsed attribute is a piece of it at a four-byte boundary behind the header |
| StunRoundTrip.XorAddressRoundTripIff | e2e/mock-turn-server.ts:310-329 | decoding undoes encoding if and only if no octet exceeds 255; larger ones lose their upper bits |
| StunRoundTrip.BuildSucceedsIff | e2e/mock-turn-server.ts:259-286 | a message is built if and only if type, length and every attribute's fields fit into sixteen bits |
| StunRoundTrip.HeaderLayout | e2e/mock-turn-server.ts:271-278 | the bytes of a built header after section 5 of RFC 8489: type, length, cookie and id, most significant byte first |
| StunRoundTrip.AttributeLayout | e2e/mock-turn-server.ts:280-286 | where each attribute of a built message stands and its bytes after section 14 of RFC 8489, padding included |
| StunRoundTrip.ParsedIff | e2e/mock-turn-server.ts:243-257 | a packet is recognised, as this message, if and only if it has a type of fourteen bits, the cookie, and within its length exactly these attributes one behind the other |
| StunRoundTrip.XorAddressLayout | e2e/mock-turn-server.ts:310-319 | the eight bytes after section 14.2 of RFC 8489 |
| StunRoundTrip.XorBits | e2e/mock-turn-server.ts:310-329 | the exclusive or is one bit by bit |
| StunServer.ParseStun | e2e/mock-turn-server.ts:243-257 | the loop reads only inside the packet, ends, and gives the specified message or none |
| StunServer.EncodeAttribute | e2e/mock-turn-server.ts:280-286 | the bytes of the attribute, padded with zeros |
| StunServer.StunHeader | e2e/mock-turn-server.ts:271-278 | the twenty bytes of the header, ids of other lengths cut or padded |
| StunServer.XorAddress | e2e/mock-turn-server.ts:310-319 | the eight bytes written field by field |
| Base64.UrlRoundTripIff | src/client/device-identity.ts:205-219 | decoding undoes encoding for every byte string but the empty one |
| Base64.UrlEncodesSixBits | src/client/device-identity.ts:205-210 | the text has a character of the base64url alphabet for each six bits, most significant first, and nothing else |
| Base64.UrlDecodesIff | src/client/device-identity.ts:212-219 | exactly what is accepted: some characters of that alphabet, and not one more than whole groups of four |
| DeviceIdentity.EncodeBase64Url | src/client/device-identity.ts:205-210 | the loop over the bytes gives the specified text |
| DeviceIdentity.DecodeBase64Url | src/client/device-identity.ts:212-219 | the loop over the characters gives the specified bytes, or fails as specified |
| FileUpload.UploadAttachmentFile | src/client/file-upload.ts:14-61 | completes or aborts, never both; completes if and only if all content was cut, every chunk acknowledged at its own end and the sizes agree; at most four chunks are unanswered |
| UploadTiling.ChunksTile | src/client/file-upload.ts:26-42 | for base64 content the chunks tile the decoded file without gap or overlap |
| UploadTiling.UploadSucceedsIff | src/client/file-upload.ts:44-51 | the upload of base64 content completes if and only if its size is the decoded length and the backend agrees |
| UploadStore.ActiveUpload.AppendFileUpload | src/server/local-backend-api.ts:337-372 | up to its wait: bad data, sizes, repeats, conflicts and overlaps (with writes under way too) are answered, and the table and the writes under way left, as specified |
| UploadStore.ActiveUpload.WriteDone | src/server/local-backend-api.ts:369-371 | the file and the count after a write that succeeds are as specified |
| UploadStore.ActiveUpload.WriteFailed | src/server/local-backend-api.ts:373-378 | the table loses the chunk of a write that fails, and the file may hold any part of it |
| UploadStore.ChunkIsAcceptedIff | src/server/local-backend-api.ts:337-368 | at any moment of any upload a chunk is accepted if and only if it decodes, is of a legal size and within the file, and is a repeat or lies on bytes that no chunk in the table has; only a new chunk changes anything |
| UploadStore.CompletesIffCovered | src/server/local-backend-api.ts:382-397 | whatever was sent and however the writes overlapped, ended or failed: the count of received bytes equals the size if and only if every byte was written, and then no write is under way |
| UploadStore.AcceptedIsAcknowledgedWhenWritten | src/server/local-backend-api.ts:369-379 | a chunk that was accepted is acknowledged once its write is done, whatever happens in between but a failure of that write |
| UploadStore.AcknowledgedIsWritten | src/server/local-backend-api.ts:337-380 | whatever else is sent before or after and however its writes end: the bytes of an acknowledged chunk are in the file and stay there |
| UploadStore.DeliveredIff | src/server/local-backend-api.ts:337-397 | fed with chunks that tile a content, in any order, repeated, overlapping in time or failing: none is refused, the upload can complete if and only if every one was acknowledged, and then the file is the content |
| UploadStore.UploadSucceedsEndToEndIff | src/client/file-upload.ts:25-52 | client and backend together: the upload of base64 content succeeds if and only if every chunk is acknowledged in the end, whatever the order of arrival, repetitions and failed writes, and then the content is in the file |
| Paths.NormalizePath | src/client/file-preview-panel.ts:121-129 | the loop with its stack of segments gives the specified path |
| Paths.SegmentsAreClean | src/client/file-preview-panel.ts:121-129 | a normal form has no empty, `.` or `..` segment |
| Paths.EachSegmentLeads | src/client/file-preview-panel.ts:121-129 | where one more segment leads: `.` and nothing nowhere, `..` one up but never above the root, any other into it |
| Paths.NormalizeIsIdempotent | src/client/file-preview-panel.ts:121-129 | normalising twice is normalising once |
| Paths.NormalizeComposes | src/client/file-preview-panel.ts:121-129 | resolving from a path or from its normal form is the same |
| Paths.SameNormalFormIff | src/client/file-preview-panel.ts:121-129 | equal normal forms if and only if the same segments |
| Paths.DirectoryIsParent | src/client/file-preview-panel.ts:131-135 | the directory of a path is where `..` leads |
| Paths.LinksIgnoreBaseSpelling | src/client/file-preview-panel.ts:374-379 | a link resolves the same however its base directory is spelt, and always to a normal form |
| Paths.LinkNamesIff | src/client/file-preview-panel.ts:374-379 | a link resolves if and only if the base is absolute and the link decodes to something; an absolute link names its own path, a relative one that path from the base |
| Fences.LinkifyPreviewableInlineCode | src/client/file-preview-panel.ts:321-361 | the nested loops linkify exactly the pieces outside fences |
| Fences.ScannedTextIsWellCut | src/client/file-preview-panel.ts:326-358 | for every text: a fenced piece runs from its opening line to just behind the first line that closes it or to the end, and no line of a plain piece opens a fence |
| Fences.PiecesMakeUpTheText | src/client/file-preview-panel.ts:326-360 | no text is lost or moved |
| Fences.IdentityLinkifierIsIdentity | src/client/file-preview-panel.ts:321-361 | a linkifier that changes nothing leaves the markdown unchanged |
| Fences.ClosingLineIff | src/client/file-preview-panel.ts:345-348 | any line closes a fence if and only if, indented by at most three spaces, it has the same marker, at least as often, and only blanks behind |
| Fences.OpeningLineIff | src/client/file-preview-panel.ts:330-331 | any line opens a fence if and only if, indented by at most three spaces, it has three or more of one marker |
| SlashCommands.ScoreFuzzySlashCommand | src/client/slash-commands.ts:59-91 | the loop over the query gives the specified score |
| SlashCommands.ScoreIffSubsequence | src/client/slash-commands.ts:69-86 | there is a score if and only if the query is a subsequence of the name: the greedy search misses none |
| SlashCommands.ScoreIsMadeOf | src/client/slash-commands.ts:59-91 | what the score of any match is made of, on the leftmost places of the query in the name: characters, word starts, neighbours, beginning, first place and length |
| SlashCommands.ExactThenPrefixThenOther | src/client/slash-commands.ts:59-91 | for names of up to 1600 characters: exact before beginning before anything else |
| SlashCommands.PrefixOutranksExactIff | src/client/slash-commands.ts:59-91 | for every query and longer name that it begins: the exact condition, on lengths and separators, under which that name outranks the exact match |
| SlashCommands.DashesOutrankExactIff | src/client/slash-commands.ts:59-91 | a family of names for which it happens, from 1668 characters on |
| SlashCommands.FilterRanksMatches | src/client/slash-commands.ts:94-107 | the result is the one ranking of the matching commands by score and then by source order |
| SlashCommands.MergeSlashCommands | src/client/slash-commands.ts:36-56 | the loop with its set of names appends exactly the new commands |
| SlashCommands.NewNamesAreDistinct | src/client/slash-commands.ts:36-56 | no two new commands, and no new command and a taken name, differ only in case |
| SlashCommands.EveryNameIsThere | src/client/slash-commands.ts:36-56 | every command's name is there afterwards, in some case |
| SlashCommands.NewAreTheFirsts | src/client/slash-commands.ts:36-56 | the new commands are exactly the first of each name that is not taken, in order, under their own names and descriptions |

## Findings

Properties that the code does not have in full. Each has an input and the exact condition.

- **A used ticket passes again.** `consumeRouteTicket` (src/rendezvous/trust-store.ts:236-243) checks the expiry at
  one clock reading and prunes the used tickets at a later one. A ticket that expires at 10 passes at 5, and again
  when it is checked at 9 and the store pruned at 10. A consumed ticket passes again if and only if
  `verifiedAt < expiresAt <= prunedAt` (TrustRuns.TicketIsUsedOnceIff, TrustRuns.TicketCanBeUsedTwice).
- **The unsafe route that this opens.** When the ticket is the one that completed a pairing, and its backend has
  opened that pairing again, the second use gives a route that counts as confirmed without having rights: the ticket
  of a new device names no account, and an account or device it names may have been revoked since. A step misfires if
  and only if all of these hold before it: the ticket was signed here and `verifiedAt < expiresAt <= prunedAt`, it is
  not recorded as used beyond `prunedAt`, it completed its pairing, its backend is online and has that pairing open at
  the third reading, `now`, its connection id is free, and the account in it does not own the backend or its device is
  not an active device of that account (RouteSafety.Misfires). A safe system stays safe over a step if and only if the
  step does not misfire (RendezvousRuns.StepIsSafeIff); every unsafe route of any run comes from a misfire with its
  own ticket (RendezvousRuns.UnsafeRouteMisfired); so a run is safe again as soon as those routes are closed, or
  confirmed again while the rights exist (RendezvousRuns.ConfirmedAgainIsAuthorisedIff).
  SlippingTicket.RunCanEndUnsafe is such a run.
- **A revocation at time 0 does not count.** `confirmPairing` tests `revokedAt` for truth
  (src/rendezvous/trust-store.ts:259). An inactive device completes a new pairing if and only if it was revoked at
  time 0 and the ticket's key and account are its own and nobody else owns the backend
  (TrustRuns.RevokedDeviceIsConfirmedIff); TrustRuns.RevocationAtTimeZeroIsIgnored is an input. With a positive clock
  it confirms nothing (TrustRuns.RevokedDeviceConfirmsNothing).
- **The backend grants an expired ticket again.** `authorize` leaves the expiry of a ticket to its caller
  (src/server/backend-connection-authorizer.ts:15-33), and pruning forgets an expired ticket's use
  (src/server/backend-trust-store.ts:126-140). A ticket granted at 4 that expires at 5 is granted again at 5. A
  granted ticket passes again if and only if it is a connection ticket, expired, with its rights intact
  (BackendRuns.GrantedTicketPassesIff, BackendRuns.ExpiredTicketPassesAgain).
- **A revoked device may still pair at its backend.** `authorizeTicket` tests revocations for connection tickets only
  (src/server/backend-trust-store.ts:97-102). In BackendRuns.RevokedDevicePairs device 1 pairs, is revoked and pairs
  again. A pairing call waits, and a waiting call succeeds, under exact conditions that do not mention revocations
  (BackendLaws.PairingWaitsIff, BackendRuns.WaiterSucceedsIff); connections it gets none
  (BackendRuns.RevokedDeviceNeverConnects).
- **Cache keys can collide.** The key is `device:id` (src/server/backend-protocol-handler.ts:40). Two devices `d` and
  `e` can share one if and only if `d:` begins `e` or `e:` begins `d` (ProtocolRuns.CacheKeysCollideIff); "a:b" with
  "c" and "a" with "b:c" do (ProtocolRuns.CacheKeysCollideWithColons). The ids that the program derives have no colon.
- **A load can delete a good state.** `load` reads, waits for a hash, and removes in a second transaction what it
  refused (src/client/session-state-cache.ts:136-153). A state saved in between goes with it
  (SessionCacheRuns.LateRemovalDropsALoadableState). What it deletes could be loaded if and only if a loadable state
  was saved under that key since it read and is still there (SessionCacheRuns.LateRemovalDropsLoadableIff).
- **A prune can delete what was just saved.** `prune` lists in one transaction and deletes in another
  (src/client/session-state-cache.ts:256-279). An entry of the moment of the deletion goes if and only if its key was
  beyond the budget in the listing (SessionCacheRuns.LatePruneDropsIff), even when a smaller state has taken its place
  (SessionCacheRuns.LatePruneDropsTheNewest).
- **A longer name can outrank the exact match.** A name of `n` characters that begins with a query of `m`, `s`
  separators among the first `m - 1`, scores 50 002 + 17 m + 14 s - n, the exact match 100 000
  (src/client/slash-commands.ts:59-91; SlashCommands.PrefixOutranksExactIff). For 1669 dashes and a query of 1668 the
  longer name is first (SlashCommands.DashesOutrankExactIff). In the same way a long name that begins with the query
  falls behind a name that merely contains it: the exact condition is SlashCommands.OtherOutranksPrefixIff, and "ab"
  outranks a name that begins with "b" from 50 020 characters on (SlashCommands.LongNameIsOutrankedIff).
- **Three codecs do not round-trip everywhere.** base64url fails on the empty byte string only
  (src/client/device-identity.ts:213; Base64.UrlRoundTripIff). `xorAddress` cuts octets above 255
  (e2e/mock-turn-server.ts:310-319; StunRoundTrip.XorAddressRoundTripIff). `buildStun` accepts types of 15 and 16
  bits, which `parseStun` rejects, and ids that are not 12 bytes, which it cuts or pads
  (e2e/mock-turn-server.ts:259-278; StunRoundTrip.BuildParseRoundTripIff).

## Left out

- TrustStore.RendezvousTrustStore.ConsumeRouteTicket: two clock readings, ticket check and pruning. Every other
  operation of the store has one reading for all that the program reads in it (creating, consuming and pruning
  challenges included).
- RendezvousHub.RendezvousHub.ConnectBrowser: three readings (ticket check, pruning, pairing lookup). Every other step
  of the hub and of the handlers has one reading.
- BackendAuthorizer.BackendConnectionAuthorizer.Begin: pruning and pairing have their own clock readings; the two
  readings inside `consumePairing`, and those inside `createPairing`, are one.
- HubLaws.BackendSignalIsRelayedIff: like most of `HubLaws`, for hubs whose maps agree, as those of every run do
  (RendezvousRuns.RoutesAlwaysAgree).
- TrustLaws.ChallengeIsCreatedIff: for stores that keep devices under their own ids, as every run does.
- BackendLaws.PairingFinishesIff: for a ticket that is not on record as used, as every suspended call finds its own
  (BackendRuns.WaiterSucceedsIff).
- RendezvousRuns.StepIsSafeIff: nothing forces a misfired route to be closed; that it ends is not promised by the
  code.
- SlashCommands.ScoreFuzzySlashCommand: names and queries are lower case already, and characters are UTF-16 units
  where the program walks code points.
- SlashCommands.MergeSlashCommands: lower-casing is an arbitrary function and the built-in list a parameter; the
  fields `source` and `argumentHint` are not modelled.
- UploadStore.ActiveUpload.AppendFileUpload: the manifest on disk, the limit on open uploads and their cleanup are not
  modelled, nor offsets that are no natural number; its `prior.operation` is the write of that chunk, waited for.
- UploadStore.ActiveUpload.WriteFailed: the failure of a write and the deletion from the table are one step.
- UploadStore.AcknowledgedIsWritten: needs a digest that tells bytes apart, since a repeat is recognised by its
  digest.
- UploadTiling.UploadSucceedsIff: `Base64.Decode` is stricter than a browser's `atob`, which drops whitespace and
  accepts missing padding; for content that it does not accept, FileUpload.UploadAttachmentFile alone speaks.
- DeviceIdentity.DecodeBase64Url: the same decoder; its input is padded before, as in the program.
- StunServer.XorAddress: an address is four octets and a port; its decimal text is not modelled.
- StunRoundTrip.AuthenticatedRoundTripIff: HMAC-SHA1 is an arbitrary function with 20-byte results.
- SessionCacheRuns.PreviewIsOfTheLastSave: needs a hash without collisions, and saves under the hash of what they
  save; hashes, JSON and their sizes are parameters.
- SessionCacheRuns.PruneMeetsTheBudget: one prune, with no write between its listing and its eviction; with one, only
  SessionCacheRuns.LatePruneDropsIff is promised. The library's sort is taken to sort.
- SessionCache.IndexedDbSessionStateCache.Load: the objects of the messages, by hash, are not part of its result; the
  update of the access time and the backfill that it sets off are steps of their own.
- ProjectList.Render: session keys within a group are distinct; grouping, searching and sorting come before.
- Fences.LinkifyPreviewableInlineCode: `linkifyInlineCode` is an arbitrary function of a piece.
- Paths.LinksIgnoreBaseSpelling: `decodeFileHref` is an arbitrary partial function.
- ProtocolRuns.FulfilledByItsOwnRequest: request parameters and results are opaque values; the client's checks of the
  shape of each result are not modelled.
- Signatures, key derivation, hashes and the comparison of secrets are abstract: a signature is valid or not, and a
  ticket is valid if and only if this store signed it.
- Random identifiers are numbers that are new when drawn; time never runs backwards and is positive.
- Files: writing, loading and repairing the two trust files and the signing key, and the shape checks of loaded JSON.
  Of loading, only the cross-reference check is modelled.
- Express and WebSocket plumbing: decoding, size limits, status codes, malformed messages, error texts.
- The handlers for discovery, for invites and for accepting them are one store call each in `ServerModel`, without a
  method.
- Timers of the hub (a backend that never registers), `close`, backend metadata, registration listeners, ICE servers.
- WebRTC itself, the relay loop of the mock TURN server, and everything that draws.
