/**
 What each event of the rendezvous is for: exactly when it reaches the store, and what sockets hear.
 */
module ServerLaws {
  import opened Wrappers
  import opened TrustProtocol
  import opened TrustModel
  import TrustRuns
  import H = HubModel
  import opened HubInvariants
  import opened HubLaws
  import opened ServerModel
  import opened RendezvousRuns

  /** The event gets as far as the store: its pairing is open, its backend online, where it names one. */
  predicate Reaches(h: H.Hub, e: Event, now: Millis) {
    match e
    case PostChallenge(r, _) =>
      && (r.purpose == ToPair ==> r.backendId.Some? && PairingOpen(h, r.pairId, r.backendId.value, now))
      && (r.purpose == ToConnect && r.backendId.Some? ==> Online(h, r.backendId.value))
    case PostPairingTicket(pairId, _, _) => pairId in h.pairings && PairingOpen(h, Some(pairId), h.pairings[pairId].backendId, now)
    case BrowserSays(_, ConnectCommand(backendId, _, _, _)) => Online(h, backendId)
    case _ => Asked(e).Some?
  }

  /** The store does what the event asks for exactly if the event gets that far, and else nothing. */
  lemma StoreIsReachedIff(cfg: ServerConfig, sys: System, e: Event, now: Millis)
    requires Complete(sys.store) && !Confirms(e)
    ensures Reaches(sys.hub, e, now) ==> Asked(e).Some?
    ensures Handle(cfg, sys, e, now).store
         == if Reaches(sys.hub, e, now) then TrustRuns.Act(cfg.trust, sys.store, Step(Asked(e).value, AskedAt(e, now))) else sys.store
  {
    match e
    case PostChallenge(_, _) => ChallengeReachesIff(cfg, sys, e, now);
    case PostPairingTicket(_, _, _) => PairingTicketReachesIff(cfg, sys, e, now);
    case PostConnectionTicket(_, _) => TicketOrDiscoveryStore(cfg, sys, e, now);
    case PostDiscover(_) => TicketOrDiscoveryStore(cfg, sys, e, now);
    case PostInvite(_, _, _) => InvitationStore(cfg, sys, e, now);
    case PostAccept(_, _, _) => InvitationStore(cfg, sys, e, now);
    case PostRevokeDevice(signed) => DeviceRevocationStore(cfg, sys, signed, now);
    case PostRevokeBackend(signed) => BackendRevocationStore(cfg, sys, signed, now);
    case BackendSays(socket, order) => OtherOrdersLeaveStore(cfg.hub, sys.hub, sys.store, socket, order, now);
    case BrowserSays(_, _) => BrowserReachesIff(cfg, sys, e, now);
    case _ => SocketEventLeavesStore(cfg, sys, e, now);
  }

  lemma ChallengeReachesIff(cfg: ServerConfig, sys: System, e: Event, now: Millis)
    requires Complete(sys.store) && e.PostChallenge?
    ensures Handle(cfg, sys, e, now).store
         == if Reaches(sys.hub, e, now) then CreateChallenge(cfg.trust, sys.store, e.request, e.challengeId, now).0 else sys.store
  {
  }

  lemma PairingTicketReachesIff(cfg: ServerConfig, sys: System, e: Event, now: Millis)
    requires Complete(sys.store) && e.PostPairingTicket?
    ensures Handle(cfg, sys, e, now).store
         == if Reaches(sys.hub, e, now) then IssuePairingTicket(cfg.trust, sys.store, e.signed, e.ticketId, now).0 else sys.store
  {
  }

  lemma BrowserReachesIff(cfg: ServerConfig, sys: System, e: Event, now: Millis)
    requires Complete(sys.store) && e.BrowserSays?
    ensures Handle(cfg, sys, e, now).store
         == if Reaches(sys.hub, e, now)
            then ConsumeRouteTicket(sys.store, e.command.ticket, e.command.verifiedAt, e.command.prunedAt).0 else sys.store
  {
  }

  /** A revocation that succeeds is announced by the hub; one that fails leaves the hub alone. */
  lemma RevocationsAreAnnouncedIff(cfg: ServerConfig, sys: System, e: Event, now: Millis)
    requires HubInv(sys.hub) && Complete(sys.store) && Revokes(e)
    ensures var answer := if e.PostRevokeDevice? then RevokeDevice(sys.store, e.signed, now).1 else RevokeBackend(sys.store, e.signed, now).1;
            var next := Handle(cfg, sys, e, now);
            if answer.Ok? then MadeKnown(sys.hub, next.hub, next.store.state, answer.value) else next.hub == sys.hub
  {
    var (t, answer) := if e.PostRevokeDevice? then RevokeDevice(sys.store, e.signed, now) else RevokeBackend(sys.store, e.signed, now);
    assert Handle(cfg, sys, e, now) == AnswerRevocation(sys, (t, answer));
    if answer.Ok? { RevocationIsAnnounced(sys.hub, t.state, answer.value); }
  }

  /** What a browser, a backend and their sockets' closing do to the hub: nothing but what `HubLaws` says. */
  lemma SocketsAreServed(cfg: ServerConfig, sys: System, e: Event, now: Millis)
    requires Complete(sys.store)
    ensures var next := Handle(cfg, sys, e, now);
            match e
            case BackendSays(socket, order) => (next.hub, next.store) == H.HandleBackendCommand(cfg.hub, sys.hub, sys.store, socket, order, now)
            case BrowserSays(socket, command) => (next.hub, next.store) == H.HandleBrowserCommand(sys.hub, sys.store, socket, command, now)
            case BackendLeaves(socket) =>
              next.hub == H.RemoveBackendSocket(sys.hub.(openBackends := sys.hub.openBackends - {socket}), socket)
            case BrowserLeaves(socket) =>
              next.hub == H.DropPrevious(sys.hub.(openBrowsers := sys.hub.openBrowsers - {socket}), socket)
            case BackendArrives(socket, nonce) =>
              && socket in next.hub.openBackends && socket in next.hub.handshakes && next.hub.handshakes[socket] == H.Handshake(nonce, None)
              && Last(H.LogOf(next.hub.backendLog, socket)) == Some(H.ChallengeSent(nonce))
            case BrowserArrives(socket) => next.hub == sys.hub.(openBrowsers := sys.hub.openBrowsers + {socket})
            case _ => next.hub.routes == sys.hub.routes || Revokes(e)
  {
  }
}
