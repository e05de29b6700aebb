/**
 Whole runs of the rendezvous.
 */
module RendezvousRuns {
  import opened Wrappers
  import opened TrustProtocol
  import opened TrustModel
  import opened TrustInvariants
  import TrustRuns
  import H = HubModel
  import opened HubInvariants
  import opened ServerModel
  import opened RouteSafety

  // ---- The hub over any run, whatever the clock does -----------------------------------------

  lemma ConfirmHubKeeps(sys: System, backend: H.RegisteredBackend, id: Id, drawnAccount: Id, now: Millis)
    requires HubInv(sys.hub)
    ensures HubInv(H.ConfirmPairing(sys.hub, sys.store, backend, id, drawnAccount, now).0)
  {
    if Confirmable(sys.hub, backend, id, now) {
      var route := sys.hub.routes[id];
      assert RouteOk(sys.hub, id);
      var a := TrustModel.ConfirmPairing(sys.store, route.claims, drawnAccount, now).1;
      if a.Ok? { PutRouteKeeps(sys.hub, route.(claims := route.claims.(accountId := Some(a.value.accountId)))); }
      AskedHub(sys, backend, id, drawnAccount, now);
      SameRoutingKeeps(ConfirmedHub(sys, route, drawnAccount, now), H.ConfirmPairing(sys.hub, sys.store, backend, id, drawnAccount, now).0);
    } else {
      RefusedHub(sys, backend, id, drawnAccount, now);
      SameRoutingKeeps(sys.hub, H.ConfirmPairing(sys.hub, sys.store, backend, id, drawnAccount, now).0);
    }
  }

  lemma ConnectHubKeeps(sys: System, socket: nat, backendId: Id, ticket: Claims, verifiedAt: Millis, prunedAt: Millis, now: Millis)
    requires HubInv(sys.hub)
    ensures HubInv(H.ConnectBrowser(sys.hub, sys.store, socket, backendId, ticket, verifiedAt, prunedAt, now).0)
  {
    if !H.IsBackendOnline(sys.hub, backendId) {
      TellBrowserKeeps(sys.hub, socket, H.BrowserError(H.BackendOffline, None));
    } else if ConsumeRouteTicket(sys.store, ticket, verifiedAt, prunedAt).1.Err? {
      TellBrowserKeeps(sys.hub, socket, H.BrowserError(H.InvalidTicket, None));
    } else {
      AfterConsumptionKeeps(sys, socket, backendId, ticket, verifiedAt, prunedAt, now);
    }
  }

  lemma AfterConsumptionKeeps(sys: System, socket: nat, backendId: Id, ticket: Claims, verifiedAt: Millis, prunedAt: Millis, now: Millis)
    requires HubInv(sys.hub) && H.IsBackendOnline(sys.hub, backendId)
    ensures HubInv(HubAfterConsumption(sys, socket, backendId, ticket, verifiedAt, prunedAt, now))
  {
    var t := ConsumeRouteTicket(sys.store, ticket, verifiedAt, prunedAt).0;
    var h1 := H.AfterChecks(sys.hub, backendId, ticket, now);
    ChecksKeep(sys.hub, backendId, ticket, now);
    if !H.Admits(sys.hub, t.state, backendId, ticket, now) || ticket.connectionId in h1.routes {
      TellBrowserKeeps(h1, socket, H.BrowserError(H.InvalidTicket, None));
    } else {
      DropPreviousKeeps(h1, socket);
      InstallRouteKeeps(H.DropPrevious(h1, socket), socket, backendId, ticket);
    }
  }

  /** A backend message that does not concern the store keeps the hub in order and opens no route. */
  lemma BackendOrderKeeps(cfg: H.HubConfig, h: H.Hub, store: Store, socket: nat, order: H.BackendCommand, now: Millis)
    requires HubInv(h) && !order.ConfirmPairingCommand?
    ensures var (k, s) := H.HandleBackendCommand(cfg, h, store, socket, order, now);
            HubInv(k) && RoutesShrink(h, k) && s == store
  {
    if socket !in h.handshakes || (h.handshakes[socket].registered.None? && !order.RegisterBackendCommand?) {
      TellBackendKeeps(h, socket, H.BackendError(H.UnauthorizedConnection, None));
    } else if h.handshakes[socket].registered.None? {
      RegisterBackendKeeps(cfg, h, store.state, socket, order.publicKey, order.signatureValid);
    } else {
      var backend := h.handshakes[socket].registered.value;
      match order
      case RegisterBackendCommand(_, _) => TellBackendKeeps(h, socket, H.BackendError(H.InvalidMessage, None));
      case OpenPairingCommand(pairId, expiresAt) => OpenPairingKeeps(h, backend, pairId, expiresAt, now);
      case BackendSignalCommand(id, signal) => RelayBackendSignalKeeps(h, backend, id, signal);
      case BindingCommand(id, binding) => RelayBackendBindingKeeps(cfg, h, backend, id, binding);
      case BackendCloseCommand(id) => CloseFromBackendKeeps(h, backend, id);
    }
  }

  predicate IsSocketEvent(e: Event) {
    || e.GetPairing? || e.BackendArrives? || e.BackendStopsListening? || e.BackendLeaves?
    || e.BrowserArrives? || e.BrowserStopsListening? || e.BrowserLeaves?
  }

  /** Socket events and pairing lookups end routes at most. */
  lemma SocketEventKeeps(cfg: ServerConfig, sys: System, clock: Millis, e: Event, now: Millis)
    requires HubInv(sys.hub) && Complete(sys.store) && Possible(sys, clock, e, now)
    requires IsSocketEvent(e)
    ensures HubInv(Handle(cfg, sys, e, now).hub) && RoutesShrink(sys.hub, Handle(cfg, sys, e, now).hub)
  {
    if e.BackendArrives? || e.BackendStopsListening? || e.BackendLeaves? {
      BackendEventKeeps(cfg, sys, clock, e, now);
    } else if e.GetPairing? {
      DropDeadPairingKeeps(sys.hub, e.pairId, now);
    } else {
      BrowserEventKeeps(cfg, sys, clock, e, now);
    }
  }

  lemma BackendEventKeeps(cfg: ServerConfig, sys: System, clock: Millis, e: Event, now: Millis)
    requires HubInv(sys.hub) && Complete(sys.store) && Possible(sys, clock, e, now)
    requires e.BackendArrives? || e.BackendStopsListening? || e.BackendLeaves?
    ensures HubInv(Handle(cfg, sys, e, now).hub) && RoutesShrink(sys.hub, Handle(cfg, sys, e, now).hub)
  {
    match e
    case BackendArrives(socket, nonce) => AcceptBackendKeeps(sys.hub, socket, nonce);
    case BackendStopsListening(socket) => SameRoutingKeeps(sys.hub, sys.hub.(openBackends := sys.hub.openBackends - {socket}));
    case BackendLeaves(socket) => BackendLeavesKeeps(sys.hub, socket);
  }

  lemma BrowserEventKeeps(cfg: ServerConfig, sys: System, clock: Millis, e: Event, now: Millis)
    requires HubInv(sys.hub) && Complete(sys.store) && Possible(sys, clock, e, now)
    requires e.BrowserArrives? || e.BrowserStopsListening? || e.BrowserLeaves?
    ensures HubInv(Handle(cfg, sys, e, now).hub) && RoutesShrink(sys.hub, Handle(cfg, sys, e, now).hub)
  {
    match e
    case BrowserArrives(socket) => BrowserArrivesKeeps(sys.hub, socket);
    case BrowserStopsListening(socket) => SameRoutingKeeps(sys.hub, sys.hub.(openBrowsers := sys.hub.openBrowsers - {socket}));
    case BrowserLeaves(socket) => BrowserLeavesKeeps(sys.hub, socket);
  }

  lemma BackendLeavesKeeps(h: H.Hub, socket: nat)
    requires HubInv(h)
    ensures var k := H.RemoveBackendSocket(h.(openBackends := h.openBackends - {socket}), socket); HubInv(k) && RoutesShrink(h, k)
  {
    SameRoutingKeeps(h, h.(openBackends := h.openBackends - {socket}));
    RemoveBackendSocketKeeps(h.(openBackends := h.openBackends - {socket}), socket);
  }

  lemma BrowserLeavesKeeps(h: H.Hub, socket: nat)
    requires HubInv(h)
    ensures var k := H.RemoveBrowser(h.(openBrowsers := h.openBrowsers - {socket}), socket); HubInv(k) && RoutesShrink(h, k)
  {
    SameRoutingKeeps(h, h.(openBrowsers := h.openBrowsers - {socket}));
    DropPreviousKeeps(h.(openBrowsers := h.openBrowsers - {socket}), socket);
  }

  lemma BrowserArrivesKeeps(h: H.Hub, socket: nat)
    requires HubInv(h) && socket !in h.browserRoutes
    ensures var k := h.(openBrowsers := h.openBrowsers + {socket}); HubInv(k) && RoutesShrink(h, k)
  {
    var k := h.(openBrowsers := h.openBrowsers + {socket});
    forall id | id in k.routes ensures RouteOk(k, id) { assert RouteOk(h, id); }
    forall b | b in k.browserRoutes ensures BrowserOk(k, b) { assert BrowserOk(h, b); }
    forall id | id in k.backends ensures BackendOk(k, id) { assert BackendOk(h, id); }
    forall b | b in k.browserLog ensures LogOk(k, b) { assert LogOk(h, b); }
  }

  lemma HandlerHubKeeps(cfg: ServerConfig, sys: System, e: Event, now: Millis)
    requires HubInv(sys.hub) && Complete(sys.store)
    requires e.PostChallenge? || e.PostPairingTicket? || e.PostConnectionTicket? || e.PostDiscover?
          || e.PostInvite? || e.PostAccept? || e.PostRevokeDevice? || e.PostRevokeBackend?
    ensures HubInv(Handle(cfg, sys, e, now).hub) && RoutesShrink(sys.hub, Handle(cfg, sys, e, now).hub)
  {
    match e
    case PostChallenge(r, _) => if r.pairId.Some? { DropDeadPairingKeeps(sys.hub, r.pairId.value, now); }
    case PostPairingTicket(pairId, _, _) => DropDeadPairingKeeps(sys.hub, pairId, now);
    case PostRevokeDevice(signed) => AnswerKeepsHub(sys, RevokeDevice(sys.store, signed, now));
    case PostRevokeBackend(signed) => AnswerKeepsHub(sys, RevokeBackend(sys.store, signed, now));
    case _ =>
  }

  lemma AnswerKeepsHub(sys: System, revoked: (Store, Answer<RevocationResult>))
    requires HubInv(sys.hub)
    ensures HubInv(AnswerRevocation(sys, revoked).hub) && RoutesShrink(sys.hub, AnswerRevocation(sys, revoked).hub)
  {
    if revoked.1.Ok? { NotifyRevocationKeeps(sys.hub, revoked.0.state, revoked.1.value); }
  }

  // ---- Every event's effect on the store -----------------------------------------------------

  predicate Confirms(e: Event) {
    e.BackendSays? && e.order.ConfirmPairingCommand?
  }

  predicate Connects(e: Event) {
    e.BrowserSays? && e.command.ConnectCommand?
  }

  predicate Revokes(e: Event) {
    e.PostRevokeDevice? || e.PostRevokeBackend?
  }

  /** The store operation that an event asks for, other than a confirmation. */
  function Asked(e: Event): Option<TrustRuns.Action> {
    match e
    case PostChallenge(r, id) => Some(TrustRuns.CreateChallengeOp(r, id))
    case PostPairingTicket(_, signed, id) => Some(TrustRuns.PairingTicketOp(signed, id))
    case PostConnectionTicket(signed, id) => Some(TrustRuns.ConnectionTicketOp(signed, id))
    case PostDiscover(signed) => Some(TrustRuns.DiscoverOp(signed))
    case PostInvite(signed, id, secret) => Some(TrustRuns.InviteOp(signed, id, secret))
    case PostAccept(signed, id, secret) => Some(TrustRuns.AcceptOp(signed, id, secret))
    case PostRevokeDevice(signed) => Some(TrustRuns.RevokeDeviceOp(signed))
    case PostRevokeBackend(signed) => Some(TrustRuns.RevokeBackendOp(signed))
    case BrowserSays(_, ConnectCommand(_, ticket, verifiedAt, _)) => Some(TrustRuns.ConsumeTicketOp(ticket, verifiedAt))
    case _ => None
  }

  /** When the store does it: a connection reads the clock once more for the pairing. */
  function AskedAt(e: Event, now: Millis): Millis {
    if Connects(e) then e.command.prunedAt else now
  }

  /** The store does what was asked, or nothing. */
  ghost predicate Does(cfg: ServerConfig, s: Store, clock: Millis, asked: Option<TrustRuns.Action>, now: Millis, t: Store) {
    || t == s
    || (&& Complete(s) && asked.Some?
        && TrustRuns.Enabled(cfg.trust, s, clock, Step(asked.value, now))
        && t == TrustRuns.Act(cfg.trust, s, Step(asked.value, now)))
  }

  lemma StoreEffect(cfg: ServerConfig, sys: System, clock: Millis, e: Event, now: Millis)
    requires Complete(sys.store) && Possible(sys, clock, e, now) && !Confirms(e)
    ensures Does(cfg, sys.store, clock, Asked(e), AskedAt(e, now), Handle(cfg, sys, e, now).store)
  {
    if e.BackendSays? {
      OtherOrdersLeaveStore(cfg.hub, sys.hub, sys.store, e.backend, e.order, now);
    } else if e.BrowserSays? {
      BrowserStoreEffect(cfg, sys, clock, e, now);
    } else if IsSocketEvent(e) {
      SocketEventLeavesStore(cfg, sys, e, now);
    } else {
      HandlerStoreEffect(cfg, sys, clock, e, now);
    }
  }

  lemma SocketEventLeavesStore(cfg: ServerConfig, sys: System, e: Event, now: Millis)
    requires Complete(sys.store) && IsSocketEvent(e)
    ensures Handle(cfg, sys, e, now).store == sys.store
  {
  }

  lemma HandlerStoreEffect(cfg: ServerConfig, sys: System, clock: Millis, e: Event, now: Millis)
    requires Complete(sys.store) && Possible(sys, clock, e, now) && !e.BackendSays? && !e.BrowserSays? && !IsSocketEvent(e)
    ensures Does(cfg, sys.store, clock, Asked(e), AskedAt(e, now), Handle(cfg, sys, e, now).store)
  {
    if e.PostChallenge? {
      ChallengeStoreEffect(cfg, sys, clock, e, now);
    } else if e.PostPairingTicket? {
      PairingTicketStoreEffect(cfg, sys, clock, e, now);
    } else if Revokes(e) {
      RevocationStoreEffect(cfg, sys, clock, e, now);
    } else {
      AccountStoreEffect(cfg, sys, clock, e, now);
    }
  }

  lemma RevocationStoreEffect(cfg: ServerConfig, sys: System, clock: Millis, e: Event, now: Millis)
    requires Complete(sys.store) && Possible(sys, clock, e, now) && Revokes(e)
    ensures Does(cfg, sys.store, clock, Asked(e), AskedAt(e, now), Handle(cfg, sys, e, now).store)
  {
    if e.PostRevokeDevice? {
      DeviceRevocationStore(cfg, sys, e.signed, now);
      RevokingDoes(cfg, sys.store, clock, TrustRuns.RevokeDeviceOp(e.signed), now, Handle(cfg, sys, e, now).store);
    } else {
      BackendRevocationStore(cfg, sys, e.signed, now);
      RevokingDoes(cfg, sys.store, clock, TrustRuns.RevokeBackendOp(e.signed), now, Handle(cfg, sys, e, now).store);
    }
  }

  lemma RevokingDoes(cfg: ServerConfig, s: Store, clock: Millis, action: TrustRuns.Action, now: Millis, t: Store)
    requires Complete(s) && 0 < now && clock <= now && (action.RevokeDeviceOp? || action.RevokeBackendOp?)
    requires t == TrustRuns.Act(cfg.trust, s, Step(action, now))
    ensures Does(cfg, s, clock, Some(action), now, t)
  {
  }

  lemma DeviceRevocationStore(cfg: ServerConfig, sys: System, signed: SignedChallenge, now: Millis)
    requires Complete(sys.store)
    ensures Handle(cfg, sys, PostRevokeDevice(signed), now).store
         == TrustRuns.Act(cfg.trust, sys.store, Step(TrustRuns.RevokeDeviceOp(signed), now))
  {
    AnswerIsStore(sys, RevokeDevice(sys.store, signed, now));
  }

  lemma BackendRevocationStore(cfg: ServerConfig, sys: System, signed: SignedChallenge, now: Millis)
    requires Complete(sys.store)
    ensures Handle(cfg, sys, PostRevokeBackend(signed), now).store
         == TrustRuns.Act(cfg.trust, sys.store, Step(TrustRuns.RevokeBackendOp(signed), now))
  {
    AnswerIsStore(sys, RevokeBackend(sys.store, signed, now));
  }

  lemma AnswerIsStore(sys: System, revoked: (Store, Answer<RevocationResult>))
    ensures AnswerRevocation(sys, revoked).store == revoked.0
  {
  }

  lemma ChallengeStoreEffect(cfg: ServerConfig, sys: System, clock: Millis, e: Event, now: Millis)
    requires Complete(sys.store) && Possible(sys, clock, e, now) && e.PostChallenge?
    ensures Does(cfg, sys.store, clock, Asked(e), now, AnswerChallenge(cfg, sys, e.request, e.challengeId, now).store)
  {
  }

  lemma PairingTicketStoreEffect(cfg: ServerConfig, sys: System, clock: Millis, e: Event, now: Millis)
    requires Complete(sys.store) && Possible(sys, clock, e, now) && e.PostPairingTicket?
    ensures Does(cfg, sys.store, clock, Asked(e), now, AnswerPairingTicket(cfg, sys, e.pairId, e.signed, e.ticketId, now).store)
  {
  }

  lemma AccountStoreEffect(cfg: ServerConfig, sys: System, clock: Millis, e: Event, now: Millis)
    requires Complete(sys.store) && Possible(sys, clock, e, now)
    requires e.PostConnectionTicket? || e.PostDiscover? || e.PostInvite? || e.PostAccept?
    ensures Does(cfg, sys.store, clock, Asked(e), AskedAt(e, now), Handle(cfg, sys, e, now).store)
  {
    if e.PostConnectionTicket? || e.PostDiscover? {
      TicketOrDiscoveryStore(cfg, sys, e, now);
    } else {
      InvitationStore(cfg, sys, e, now);
    }
  }

  lemma TicketOrDiscoveryStore(cfg: ServerConfig, sys: System, e: Event, now: Millis)
    requires Complete(sys.store) && (e.PostConnectionTicket? || e.PostDiscover?)
    ensures Handle(cfg, sys, e, now).store == TrustRuns.Act(cfg.trust, sys.store, Step(Asked(e).value, now))
  {
  }

  lemma InvitationStore(cfg: ServerConfig, sys: System, e: Event, now: Millis)
    requires Complete(sys.store) && (e.PostInvite? || e.PostAccept?)
    ensures Handle(cfg, sys, e, now).store == TrustRuns.Act(cfg.trust, sys.store, Step(Asked(e).value, now))
  {
  }

  lemma OtherOrdersLeaveStore(cfg: H.HubConfig, h: H.Hub, store: Store, socket: nat, order: H.BackendCommand, now: Millis)
    requires !order.ConfirmPairingCommand?
    ensures H.HandleBackendCommand(cfg, h, store, socket, order, now).1 == store
  {
  }

  lemma BrowserStoreEffect(cfg: ServerConfig, sys: System, clock: Millis, e: Event, now: Millis)
    requires Complete(sys.store) && Possible(sys, clock, e, now) && e.BrowserSays?
    ensures Does(cfg, sys.store, clock, Asked(e), AskedAt(e, now), H.HandleBrowserCommand(sys.hub, sys.store, e.browser, e.command, now).1)
  {
  }

  /** An event that neither connects nor confirms opens no route. */
  lemma HubEffect(cfg: ServerConfig, sys: System, clock: Millis, e: Event, now: Millis)
    requires HubInv(sys.hub) && Complete(sys.store) && Possible(sys, clock, e, now) && !Confirms(e) && !Connects(e)
    ensures HubInv(Handle(cfg, sys, e, now).hub) && RoutesShrink(sys.hub, Handle(cfg, sys, e, now).hub)
  {
    match e
    case BackendSays(socket, order) => BackendOrderKeeps(cfg.hub, sys.hub, sys.store, socket, order, now);
    case BrowserSays(socket, command) => RouteCommandKeeps(sys.hub, sys.store, socket, command, now);
    case PostChallenge(_, _) => HandlerHubKeeps(cfg, sys, e, now);
    case PostPairingTicket(_, _, _) => HandlerHubKeeps(cfg, sys, e, now);
    case PostConnectionTicket(_, _) => HandlerHubKeeps(cfg, sys, e, now);
    case PostDiscover(_) => HandlerHubKeeps(cfg, sys, e, now);
    case PostInvite(_, _, _) => HandlerHubKeeps(cfg, sys, e, now);
    case PostAccept(_, _, _) => HandlerHubKeeps(cfg, sys, e, now);
    case PostRevokeDevice(_) => HandlerHubKeeps(cfg, sys, e, now);
    case PostRevokeBackend(_) => HandlerHubKeeps(cfg, sys, e, now);
    case _ => SocketEventKeeps(cfg, sys, clock, e, now);
  }

  // ---- The claims of routes, whatever the clock does -----------------------------------------

  ghost predicate TicketClaims(cfg: ServerConfig, s: Store, c: Claims) {
    && c.ticketId in s.minted && c == s.minted[c.ticketId].(accountId := c.accountId)
    && ClaimsFit(cfg.trust, s.state, c)
  }

  /** What holds in every run. */
  ghost predicate Orderly(cfg: ServerConfig, sys: System) {
    && StoreInv(cfg.trust, sys.store)
    && HubInv(sys.hub)
    && (forall id {:trigger id in sys.hub.routes} | id in sys.hub.routes :: TicketClaims(cfg, sys.store, sys.hub.routes[id].claims))
    && CompletionsFit(sys.store)
  }

  ghost predicate MintedKept(s: Store, t: Store) {
    forall k {:trigger k in t.minted} | k in s.minted :: k in t.minted && t.minted[k] == s.minted[k]
  }

  lemma TicketClaimsKept(cfg: ServerConfig, s: Store, t: Store, c: Claims)
    requires TicketClaims(cfg, s, c) && MintedKept(s, t) && DevicesKept(s.state, t.state)
    ensures TicketClaims(cfg, t, c)
  {
    ClaimsStillFit(cfg.trust, s.state, t.state, c);
  }

  lemma CompletionsKept(s: Store, t: Store)
    requires MintedKept(s, t) && DevicesKept(s.state, t.state) && t.state.pairingCompletions == s.state.pairingCompletions
    requires CompletionsFit(s)
    ensures CompletionsFit(t)
  {
    forall p | p in t.state.pairingCompletions ensures CompletionFits(t, p) {
      assert CompletionFits(s, p);
      assert DeviceKept(s.state, t.state, s.state.pairingCompletions[p].deviceId);
    }
  }

  /** A store step other than a confirmation keeps tickets, devices and completions. */
  lemma AskedKeeps(cfg: ServerConfig, sys: System, clock: Millis, e: Event, now: Millis)
    requires StoreInv(cfg.trust, sys.store) && Possible(sys, clock, e, now) && !Confirms(e)
    ensures Complete(sys.store)
    ensures var t := Handle(cfg, sys, e, now).store;
            && StoreInv(cfg.trust, t) && MintedKept(sys.store, t) && DevicesKept(sys.store.state, t.state)
            && t.state.pairingCompletions == sys.store.state.pairingCompletions
  {
    InvIsComplete(cfg.trust, sys.store);
    StoreEffect(cfg, sys, clock, e, now);
    DoesKeeps(cfg, sys.store, clock, Asked(e), AskedAt(e, now), Handle(cfg, sys, e, now).store);
  }

  lemma DoesKeeps(cfg: ServerConfig, s: Store, clock: Millis, asked: Option<TrustRuns.Action>, now: Millis, t: Store)
    requires StoreInv(cfg.trust, s) && Does(cfg, s, clock, asked, now, t)
    requires asked.Some? ==> !asked.value.ConfirmOp?
    ensures && StoreInv(cfg.trust, t) && MintedKept(s, t) && DevicesKept(s.state, t.state)
            && t.state.pairingCompletions == s.state.pairingCompletions
  {
    if t != s {
      var step := Step(asked.value, now);
      TrustRuns.ActKeeps(cfg.trust, s, clock, step);
      TrustRuns.ActGrows(cfg.trust, s, clock, step);
      ActLeavesCompletions(cfg, s, clock, step);
    }
  }

  lemma ActLeavesCompletions(cfg: ServerConfig, s: Store, clock: Millis, step: Step<TrustRuns.Action>)
    requires StoreInv(cfg.trust, s) && TrustRuns.Enabled(cfg.trust, s, clock, step) && !step.action.ConfirmOp?
    ensures Complete(s)
    ensures TrustRuns.Act(cfg.trust, s, step).state.pairingCompletions == s.state.pairingCompletions
  {
    InvIsComplete(cfg.trust, s);
    match step.action
    case RevokeDeviceOp(signed) => RevokeDeviceKeeps(cfg.trust, s, signed, step.now);
    case RevokeBackendOp(signed) => RevokeBackendKeeps(cfg.trust, s, signed, step.now);
    case _ => QuietActIsCalm(cfg, s, clock, step);
  }

  lemma OrderlyStep(cfg: ServerConfig, sys: System, clock: Millis, e: Event, now: Millis)
    requires Orderly(cfg, sys) && Possible(sys, clock, e, now)
    ensures Complete(sys.store)
    ensures Orderly(cfg, Handle(cfg, sys, e, now))
  {
    InvIsComplete(cfg.trust, sys.store);
    if Confirms(e) {
      OrderlyConfirm(cfg, sys, clock, e.backend, e.order, now);
    } else {
      AskedKeeps(cfg, sys, clock, e, now);
      var next := Handle(cfg, sys, e, now);
      CompletionsKept(sys.store, next.store);
      if Connects(e) {
        OrderlyConnect(cfg, sys, e.browser, e.command, next, now);
      } else {
        HubEffect(cfg, sys, clock, e, now);
        forall id | id in next.hub.routes ensures TicketClaims(cfg, next.store, next.hub.routes[id].claims) {
          TicketClaimsKept(cfg, sys.store, next.store, sys.hub.routes[id].claims);
        }
      }
    }
  }

  lemma OrderlyConnect(cfg: ServerConfig, sys: System, socket: nat, command: H.BrowserCommand, next: System, now: Millis)
    requires Orderly(cfg, sys) && command.ConnectCommand?
    requires (next.hub, next.store)
          == H.ConnectBrowser(sys.hub, sys.store, socket, command.backendId, command.ticket, command.verifiedAt, command.prunedAt, now)
    requires StoreInv(cfg.trust, next.store) && MintedKept(sys.store, next.store) && DevicesKept(sys.store.state, next.store.state)
    requires CompletionsFit(next.store)
    ensures Orderly(cfg, next)
  {
    ConnectHubKeeps(sys, socket, command.backendId, command.ticket, command.verifiedAt, command.prunedAt, now);
    forall id | id in next.hub.routes ensures TicketClaims(cfg, next.store, next.hub.routes[id].claims) {
      NewOrOldRoute(sys, socket, command, now, id);
      if id in sys.hub.routes && next.hub.routes[id] == sys.hub.routes[id] {
        TicketClaimsKept(cfg, sys.store, next.store, sys.hub.routes[id].claims);
      } else {
        assert TicketFits(cfg.trust, next.store, command.ticket.ticketId);
      }
    }
  }

  lemma NewOrOldRoute(sys: System, socket: nat, command: H.BrowserCommand, now: Millis, id: Id)
    requires command.ConnectCommand?
    requires id in H.ConnectBrowser(sys.hub, sys.store, socket, command.backendId, command.ticket, command.verifiedAt, command.prunedAt, now).0.routes
    ensures var (hub, store) := H.ConnectBrowser(sys.hub, sys.store, socket, command.backendId, command.ticket, command.verifiedAt, command.prunedAt, now);
            || (id in sys.hub.routes && hub.routes[id] == sys.hub.routes[id])
            || (hub.routes[id].claims == command.ticket && command.ticket.ticketId in store.minted
                && store.minted[command.ticket.ticketId] == command.ticket)
  {
    if H.IsBackendOnline(sys.hub, command.backendId)
       && ConsumeRouteTicket(sys.store, command.ticket, command.verifiedAt, command.prunedAt).1.Ok? {
      RoutesAfterConsumption(sys, socket, command.backendId, command.ticket, command.verifiedAt, command.prunedAt, now);
    }
  }

  lemma RoutesAfterConsumption(sys: System, socket: nat, backendId: Id, ticket: Claims, verifiedAt: Millis, prunedAt: Millis, now: Millis)
    requires H.IsBackendOnline(sys.hub, backendId)
    ensures var h := HubAfterConsumption(sys, socket, backendId, ticket, verifiedAt, prunedAt, now);
            forall id | id in h.routes ::
              (id in sys.hub.routes && h.routes[id] == sys.hub.routes[id]) || h.routes[id].claims == ticket
  {
    var h1 := H.AfterChecks(sys.hub, backendId, ticket, now);
    assert h1.routes == sys.hub.routes;
    var h2 := H.DropPrevious(h1, socket);
    DropPreviousLosesRoutes(h1, socket);
    InstalledRoute(h2, socket, backendId, ticket);
  }

  lemma DropPreviousLosesRoutes(h: H.Hub, socket: nat)
    ensures H.DropPrevious(h, socket).backends == h.backends
    ensures forall id | id in H.DropPrevious(h, socket).routes :: id in h.routes && H.DropPrevious(h, socket).routes[id] == h.routes[id]
  {
  }

  lemma OrderlyConfirm(cfg: ServerConfig, sys: System, clock: Millis, socket: nat, order: H.BackendCommand, now: Millis)
    requires Orderly(cfg, sys) && order.ConfirmPairingCommand? && 0 < now && clock <= now && order.drawnAccount !in sys.store.drawn
    ensures var (hub, store) := H.HandleBackendCommand(cfg.hub, sys.hub, sys.store, socket, order, now);
            Orderly(cfg, System(store, hub))
  {
    if socket !in sys.hub.handshakes || sys.hub.handshakes[socket].registered.None? {
      ConfirmationNeedsRegistration(cfg, sys, socket, order, now);
      SameRoutingKeeps(sys.hub, H.TellBackend(sys.hub, socket, H.BackendError(H.UnauthorizedConnection, None)));
    } else {
      ConfirmationIsServed(cfg, sys, socket, order, now);
      OrderlyConfirmation(cfg, sys, sys.hub.handshakes[socket].registered.value, order.connectionId, order.drawnAccount, now);
    }
  }

  lemma OrderlyConfirmation(cfg: ServerConfig, sys: System, backend: H.RegisteredBackend, id: Id, drawnAccount: Id, now: Millis)
    requires Orderly(cfg, sys) && drawnAccount !in sys.store.drawn
    ensures var (hub, store) := H.ConfirmPairing(sys.hub, sys.store, backend, id, drawnAccount, now);
            Orderly(cfg, System(store, hub))
  {
    var hub := H.ConfirmPairing(sys.hub, sys.store, backend, id, drawnAccount, now).0;
    ConfirmHubKeeps(sys, backend, id, drawnAccount, now);
    if Confirmable(sys.hub, backend, id, now) {
      AskedHub(sys, backend, id, drawnAccount, now);
      assert RouteOk(sys.hub, id);
      OrderlyGrant(cfg, sys, sys.hub.routes[id], drawnAccount, now, hub);
    } else {
      RefusedHub(sys, backend, id, drawnAccount, now);
    }
  }

  lemma OrderlyGrant(cfg: ServerConfig, sys: System, route: H.Route, drawnAccount: Id, now: Millis, hub: H.Hub)
    requires Orderly(cfg, sys) && route.claims.kind.Pairing? && drawnAccount !in sys.store.drawn
    requires route.connectionId in sys.hub.routes && sys.hub.routes[route.connectionId] == route
    requires HubInv(hub) && SameRouting(ConfirmedHub(sys, route, drawnAccount, now), hub)
    ensures Orderly(cfg, System(ConfirmPairing(sys.store, route.claims, drawnAccount, now).0, hub))
  {
    var c := route.claims;
    assert TicketClaims(cfg, sys.store, c);
    ConfirmPairingKeeps(cfg.trust, sys.store, c, drawnAccount, now);
    GrantCompletions(cfg, sys.store, c, drawnAccount, now);
    GrantTicketClaims(cfg, sys, route, drawnAccount, now, hub);
  }

  lemma GrantCompletions(cfg: ServerConfig, s: Store, c: Claims, drawnAccount: Id, now: Millis)
    requires StoreInv(cfg.trust, s) && TicketClaims(cfg, s, c) && c.pairId.Some?
    requires CompletionsFit(s)
    ensures CompletionsFit(ConfirmPairing(s, c, drawnAccount, now).0)
  {
    var t := ConfirmPairing(s, c, drawnAccount, now).0;
    forall p | p in t.state.pairingCompletions ensures CompletionFits(t, p) { GrantCompletion(cfg, s, c, drawnAccount, now, p); }
  }

  lemma GrantTicketClaims(cfg: ServerConfig, sys: System, route: H.Route, drawnAccount: Id, now: Millis, hub: H.Hub)
    requires Orderly(cfg, sys) && route.claims.kind.Pairing? && drawnAccount !in sys.store.drawn
    requires route.connectionId in sys.hub.routes && sys.hub.routes[route.connectionId] == route
    requires hub.routes == ConfirmedHub(sys, route, drawnAccount, now).routes
    requires TicketClaims(cfg, sys.store, route.claims)
    requires CompletionsFit(ConfirmPairing(sys.store, route.claims, drawnAccount, now).0)
    ensures var t := ConfirmPairing(sys.store, route.claims, drawnAccount, now).0;
            forall id {:trigger id in hub.routes} | id in hub.routes :: TicketClaims(cfg, t, hub.routes[id].claims)
  {
    var t := ConfirmPairing(sys.store, route.claims, drawnAccount, now).0;
    ConfirmPairingKeeps(cfg.trust, sys.store, route.claims, drawnAccount, now);
    forall id | id in hub.routes ensures TicketClaims(cfg, t, hub.routes[id].claims) {
      RouteAfterConfirmation(sys, route, drawnAccount, now, id);
      TicketClaimsKept(cfg, sys.store, t, sys.hub.routes[id].claims);
      if id == route.connectionId { ConfirmedTicketClaims(cfg, sys, route, drawnAccount, now); }
    }
  }

  lemma RouteAfterConfirmation(sys: System, route: H.Route, drawnAccount: Id, now: Millis, id: Id)
    requires route.connectionId in sys.hub.routes && sys.hub.routes[route.connectionId] == route
    requires id in ConfirmedHub(sys, route, drawnAccount, now).routes
    ensures id in sys.hub.routes
    ensures id != route.connectionId ==> ConfirmedHub(sys, route, drawnAccount, now).routes[id] == sys.hub.routes[id]
  {
  }

  lemma ConfirmedTicketClaims(cfg: ServerConfig, sys: System, route: H.Route, drawnAccount: Id, now: Millis)
    requires StoreInv(cfg.trust, sys.store) && drawnAccount !in sys.store.drawn && route.claims.kind.Pairing?
    requires route.connectionId in sys.hub.routes && sys.hub.routes[route.connectionId] == route
    requires TicketClaims(cfg, sys.store, route.claims)
    requires TicketClaims(cfg, ConfirmPairing(sys.store, route.claims, drawnAccount, now).0, route.claims)
    requires CompletionsFit(ConfirmPairing(sys.store, route.claims, drawnAccount, now).0)
    ensures var t, hub := ConfirmPairing(sys.store, route.claims, drawnAccount, now).0, ConfirmedHub(sys, route, drawnAccount, now);
            route.connectionId in hub.routes && TicketClaims(cfg, t, hub.routes[route.connectionId].claims)
  {
    var (t, a) := ConfirmPairing(sys.store, route.claims, drawnAccount, now);
    if a.Ok? { assert CompletionFits(t, route.claims.pairId.value); }
  }

  lemma GrantCompletion(cfg: ServerConfig, s: Store, c: Claims, drawnAccount: Id, now: Millis, p: Id)
    requires StoreInv(cfg.trust, s) && TicketClaims(cfg, s, c) && c.pairId.Some?
    requires CompletionsFit(s)
    requires Evolves(s.state, ConfirmPairing(s, c, drawnAccount, now).0.state)
    requires p in ConfirmPairing(s, c, drawnAccount, now).0.state.pairingCompletions
    ensures CompletionFits(ConfirmPairing(s, c, drawnAccount, now).0, p)
  {
    var t := ConfirmPairing(s, c, drawnAccount, now).0;
    if p in s.state.pairingCompletions {
      assert CompletionFits(s, p);
      assert DeviceKept(s.state, t.state, s.state.pairingCompletions[p].deviceId);
    }
  }

  lemma {:induction false} RunIsOrderly(cfg: ServerConfig, trace: seq<System>, steps: seq<Step<Event>>, i: nat)
    requires Run(cfg, trace, steps) && i < |trace|
    ensures Orderly(cfg, trace[i])
    decreases i
  {
    if i > 0 {
      RunIsOrderly(cfg, trace, steps, i - 1);
      assert StepAt(cfg, trace, steps, i - 1);
      OrderlyStep(cfg, trace[i - 1], ClockBefore(steps, i - 1), steps[i - 1].action, steps[i - 1].now);
    }
  }

  // ---- Main results --------------------------------------------------------------------------

  /**
   In every run, at every moment: the two route maps are inverse bijections, every route leads to a
   registered backend, and whatever a browser was sent about a connection was about the connection
   last announced to it and not yet closed.
   */
  lemma RoutesAlwaysAgree(cfg: ServerConfig, trace: seq<System>, steps: seq<Step<Event>>, i: nat)
    requires Run(cfg, trace, steps) && i < |trace|
    ensures var h := trace[i].hub;
            && (forall id | id in h.routes ::
                  && h.routes[id].connectionId == id && h.routes[id].backendId in h.backends
                  && h.routes[id].browser in h.browserRoutes && h.browserRoutes[h.routes[id].browser] == h.routes[id])
            && (forall b | b in h.browserRoutes ::
                  && h.browserRoutes[b].browser == b
                  && h.browserRoutes[b].connectionId in h.routes && h.routes[h.browserRoutes[b].connectionId] == h.browserRoutes[b])
            && (forall b | b in h.browserLog :: Coherent(h.browserLog[b]))
  {
    RunIsOrderly(cfg, trace, steps, i);
    RouteMapsAreInverse(trace[i].hub);
    forall b | b in trace[i].hub.browserLog ensures Coherent(trace[i].hub.browserLog[b]) {
      assert LogOk(trace[i].hub, b);
    }
  }

  /** In every run the stored state would pass the load-time check, so a restart accepts it. */
  lemma ServerStateAlwaysReloads(cfg: ServerConfig, trace: seq<System>, steps: seq<Step<Event>>, i: nat)
    requires Run(cfg, trace, steps) && i < |trace|
    ensures HasConsistentReferences(cfg.trust, trace[i].store.state)
  {
    RunIsOrderly(cfg, trace, steps, i);
    ConsistentPassesTheLoadCheck(cfg.trust, trace[i].store.state);
  }

  // ---- Safety --------------------------------------------------------------------------------

  /** The tickets that slipped through for rights that they do not have: at most one for each step. */
  function Slip(sys: System, e: Event, now: Millis): set<Id> {
    if Connects(e) && Misfires(sys, e.command.backendId, e.command.ticket, e.command.verifiedAt, e.command.prunedAt, now)
    then {e.command.ticket.ticketId}
    else {}
  }

  function Slipped(trace: seq<System>, steps: seq<Step<Event>>, i: nat): set<Id>
    requires |trace| == |steps| + 1 && i <= |steps|
  {
    if i == 0 then {} else Slipped(trace, steps, i - 1) + Slip(trace[i - 1], steps[i - 1].action, steps[i - 1].now)
  }

  lemma SafeStep(cfg: ServerConfig, slipped: set<Id>, sys: System, clock: Millis, e: Event, now: Millis)
    requires SystemInv(cfg, slipped, sys, clock) && CompletionsFit(sys.store) && Possible(sys, clock, e, now)
    ensures Complete(sys.store)
    ensures SystemInv(cfg, slipped + Slip(sys, e, now), Handle(cfg, sys, e, now), now)
  {
    InvIsComplete(cfg.trust, sys.store);
    var more := slipped + Slip(sys, e, now);
    MoreSlipped(cfg, slipped, more, sys, clock);
    if Confirms(e) {
      SafeConfirmation(cfg, more, sys, clock, e, now);
    } else if Connects(e) {
      ConnectionIsHandled(cfg, sys, e, now);
      SafeConnect(cfg, more, sys, clock, e, now, Handle(cfg, sys, e, now));
    } else if Revokes(e) {
      RevocationEventKeeps(cfg, more, sys, clock, e, now);
    } else {
      SafeQuiet(cfg, more, sys, clock, e, now);
    }
  }

  lemma ConnectionIsHandled(cfg: ServerConfig, sys: System, e: Event, now: Millis)
    requires Connects(e) && Complete(sys.store)
    ensures var c := e.command;
            var (hub, store) := H.ConnectBrowser(sys.hub, sys.store, e.browser, c.backendId, c.ticket, c.verifiedAt, c.prunedAt, now);
            Handle(cfg, sys, e, now) == System(store, hub)
  {
  }

  lemma SafeConnect(cfg: ServerConfig, slipped: set<Id>, sys: System, clock: Millis, e: Event, now: Millis, next: System)
    requires SystemInv(cfg, slipped, sys, clock) && CompletionsFit(sys.store) && Possible(sys, clock, e, now) && Connects(e)
    requires Slip(sys, e, now) <= slipped
    requires var c := e.command;
             (next.hub, next.store) == H.ConnectBrowser(sys.hub, sys.store, e.browser, c.backendId, c.ticket, c.verifiedAt, c.prunedAt, now)
    ensures SystemInv(cfg, slipped, next, now)
  {
    var c := e.command;
    assert Misfires(sys, c.backendId, c.ticket, c.verifiedAt, c.prunedAt, now) ==> c.ticket.ticketId in Slip(sys, e, now);
    ConnectKeeps(cfg, slipped, sys, clock, e.browser, c.backendId, c.ticket, c.verifiedAt, c.prunedAt, now);
  }

  lemma SafeQuiet(cfg: ServerConfig, slipped: set<Id>, sys: System, clock: Millis, e: Event, now: Millis)
    requires SystemInv(cfg, slipped, sys, clock) && Possible(sys, clock, e, now) && Complete(sys.store)
    requires !Confirms(e) && !Connects(e) && !Revokes(e)
    ensures SystemInv(cfg, slipped, Handle(cfg, sys, e, now), now)
  {
    StoreEffect(cfg, sys, clock, e, now);
    HubEffect(cfg, sys, clock, e, now);
    SafeOther(cfg, slipped, sys, clock, Asked(e), now, Handle(cfg, sys, e, now));
  }

  lemma SafeOther(cfg: ServerConfig, slipped: set<Id>, sys: System, clock: Millis, asked: Option<TrustRuns.Action>, now: Millis, next: System)
    requires SystemInv(cfg, slipped, sys, clock) && clock <= now && Does(cfg, sys.store, clock, asked, now, next.store)
    requires asked.Some? ==> !asked.value.ConfirmOp? && !asked.value.RevokeDeviceOp? && !asked.value.RevokeBackendOp?
    requires HubInv(next.hub) && RoutesShrink(sys.hub, next.hub)
    ensures SystemInv(cfg, slipped, next, now)
  {
    if next.store == sys.store {
      HubStepKeeps(cfg, slipped, sys, clock, next.hub, now);
    } else {
      QuietKeeps(cfg, slipped, sys, clock, Step(asked.value, now), next);
    }
  }

  lemma ConfirmationNeedsRegistration(cfg: ServerConfig, sys: System, socket: nat, order: H.BackendCommand, now: Millis)
    requires order.ConfirmPairingCommand?
    requires socket !in sys.hub.handshakes || sys.hub.handshakes[socket].registered.None?
    ensures H.HandleBackendCommand(cfg.hub, sys.hub, sys.store, socket, order, now)
         == (H.TellBackend(sys.hub, socket, H.BackendError(H.UnauthorizedConnection, None)), sys.store)
  {
  }

  lemma SafeConfirmation(cfg: ServerConfig, slipped: set<Id>, sys: System, clock: Millis, e: Event, now: Millis)
    requires SystemInv(cfg, slipped, sys, clock) && CompletionsFit(sys.store) && Possible(sys, clock, e, now) && Confirms(e)
    requires Complete(sys.store)
    ensures SystemInv(cfg, slipped, Handle(cfg, sys, e, now), now)
  {
    var out := H.HandleBackendCommand(cfg.hub, sys.hub, sys.store, e.backend, e.order, now);
    assert Handle(cfg, sys, e, now) == System(out.1, out.0) && e.order.drawnAccount !in sys.store.drawn;
    if e.backend !in sys.hub.handshakes || sys.hub.handshakes[e.backend].registered.None? {
      ConfirmationNeedsRegistration(cfg, sys, e.backend, e.order, now);
      SafeRefusal(cfg, slipped, sys, clock, e.backend, now, out.0);
    } else {
      ConfirmationIsServed(cfg, sys, e.backend, e.order, now);
      SafeConfirm(cfg, slipped, sys, clock, sys.hub.handshakes[e.backend].registered.value, e.order.connectionId,
                  e.order.drawnAccount, now, out);
    }
  }

  lemma SafeRefusal(cfg: ServerConfig, slipped: set<Id>, sys: System, clock: Millis, socket: nat, now: Millis, hub: H.Hub)
    requires SystemInv(cfg, slipped, sys, clock) && clock <= now
    requires hub == H.TellBackend(sys.hub, socket, H.BackendError(H.UnauthorizedConnection, None))
    ensures SystemInv(cfg, slipped, System(sys.store, hub), now)
  {
    SameRoutingKeeps(sys.hub, hub);
    HubStepKeeps(cfg, slipped, sys, clock, hub, now);
  }

  lemma SafeConfirm(
    cfg: ServerConfig, slipped: set<Id>, sys: System, clock: Millis, backend: H.RegisteredBackend, id: Id, drawnAccount: Id,
    now: Millis, out: (H.Hub, Store))
    requires SystemInv(cfg, slipped, sys, clock) && CompletionsFit(sys.store)
    requires 0 < now && clock <= now && drawnAccount !in sys.store.drawn
    requires out == H.ConfirmPairing(sys.hub, sys.store, backend, id, drawnAccount, now)
    ensures SystemInv(cfg, slipped, System(out.1, out.0), now)
  {
    ConfirmKeeps(cfg, slipped, sys, clock, backend, id, drawnAccount, now);
  }

  lemma ConfirmationIsServed(cfg: ServerConfig, sys: System, socket: nat, order: H.BackendCommand, now: Millis)
    requires order.ConfirmPairingCommand? && socket in sys.hub.handshakes && sys.hub.handshakes[socket].registered.Some?
    ensures H.HandleBackendCommand(cfg.hub, sys.hub, sys.store, socket, order, now)
         == H.ConfirmPairing(sys.hub, sys.store, sys.hub.handshakes[socket].registered.value, order.connectionId, order.drawnAccount, now)
  {
  }

  lemma RunFitsCompletions(cfg: ServerConfig, trace: seq<System>, steps: seq<Step<Event>>, i: nat)
    requires Run(cfg, trace, steps) && i < |trace|
    ensures CompletionsFit(trace[i].store)
  {
    RunIsOrderly(cfg, trace, steps, i);
  }

  lemma EmptyKeepsInv(cfg: ServerConfig)
    ensures SystemInv(cfg, {}, EmptySystem, 0)
  {
  }

  lemma {:induction false} RunKeepsInv(cfg: ServerConfig, trace: seq<System>, steps: seq<Step<Event>>, i: nat)
    requires Run(cfg, trace, steps) && i < |trace|
    ensures SystemInv(cfg, Slipped(trace, steps, i), trace[i], ClockBefore(steps, i)) && CompletionsFit(trace[i].store)
    decreases i
  {
    RunFitsCompletions(cfg, trace, steps, i);
    if i == 0 {
      EmptyKeepsInv(cfg);
    } else {
      RunKeepsInv(cfg, trace, steps, i - 1);
      assert StepAt(cfg, trace, steps, i - 1);
      SafeStep(cfg, Slipped(trace, steps, i - 1), trace[i - 1], ClockBefore(steps, i - 1), steps[i - 1].action, steps[i - 1].now);
    }
  }

  /** The `j`-th step opened a route with the ticket although it had no rights. */
  predicate MisfiredAt(trace: seq<System>, steps: seq<Step<Event>>, j: nat, ticketId: Id)
    requires |trace| == |steps| + 1 && j < |steps|
  {
    ticketId in Slip(trace[j], steps[j].action, steps[j].now)
  }

  lemma {:induction false} SlippedBy(trace: seq<System>, steps: seq<Step<Event>>, i: nat, ticketId: Id) returns (j: nat)
    requires |trace| == |steps| + 1 && i <= |steps| && ticketId in Slipped(trace, steps, i)
    ensures j < i && MisfiredAt(trace, steps, j, ticketId)
    decreases i
  {
    if MisfiredAt(trace, steps, i - 1, ticketId) { j := i - 1; } else { j := SlippedBy(trace, steps, i - 1, ticketId); }
  }

  /**
   The safety theorem, for every run and every moment. A live route that is a connection or a
   confirmed pairing belongs to the account that owns its backend, and its device is an active
   device of that account; or else an earlier step misfired with the ticket of this very route.
   Revocations included: a route that lost its rights is gone.
   */
  lemma UnsafeRouteMisfired(cfg: ServerConfig, trace: seq<System>, steps: seq<Step<Event>>, i: nat, id: Id) returns (j: nat)
    requires Run(cfg, trace, steps) && i < |trace| && id in trace[i].hub.routes
    requires Decided(trace[i].store.state, trace[i].hub.routes[id].claims)
    requires !Authorised(trace[i].store.state, trace[i].hub.routes[id].claims)
    ensures j < i && MisfiredAt(trace, steps, j, trace[i].hub.routes[id].claims.ticketId)
  {
    RunKeepsInv(cfg, trace, steps, i);
    SlippedRoutesAreTheUnsafe(cfg, Slipped(trace, steps, i), trace[i], ClockBefore(steps, i));
    j := SlippedBy(trace, steps, i, trace[i].hub.routes[id].claims.ticketId);
  }

  /** No step misfires. */
  ghost predicate SteadyRun(trace: seq<System>, steps: seq<Step<Event>>)
    requires |trace| == |steps| + 1
  {
    forall j: nat | j < |steps| :: Slip(trace[j], steps[j].action, steps[j].now) == {}
  }

  lemma {:induction false} SteadyRunSlipsNothing(trace: seq<System>, steps: seq<Step<Event>>, i: nat)
    requires |trace| == |steps| + 1 && i <= |steps| && SteadyRun(trace, steps)
    ensures Slipped(trace, steps, i) == {}
    decreases i
  {
    if i > 0 { SteadyRunSlipsNothing(trace, steps, i - 1); }
  }

  lemma RoutesAreAlwaysAuthorised(cfg: ServerConfig, trace: seq<System>, steps: seq<Step<Event>>, i: nat)
    requires Run(cfg, trace, steps) && SteadyRun(trace, steps) && i < |trace|
    ensures Safe(trace[i])
  {
    RunKeepsInv(cfg, trace, steps, i);
    SteadyRunSlipsNothing(trace, steps, i);
    InvIsSafe(cfg, trace[i], ClockBefore(steps, i));
  }

  /**
   At any moment of any run, when the system is safe: the next step leaves it safe if and only if
   it does not misfire. Once the routes that a misfire opened are gone, or have got their rights,
   this holds again.
   */
  lemma StepIsSafeIff(cfg: ServerConfig, trace: seq<System>, steps: seq<Step<Event>>, i: nat)
    requires Run(cfg, trace, steps) && i < |steps| && Safe(trace[i])
    ensures Safe(trace[i + 1]) <==> Slip(trace[i], steps[i].action, steps[i].now) == {}
  {
    var clock := ClockBefore(steps, i);
    RunKeepsInv(cfg, trace, steps, i);
    SafetyForgetsSlips(cfg, Slipped(trace, steps, i), trace[i], clock);
    assert StepAt(cfg, trace, steps, i);
    SafeStepIff(cfg, trace[i], clock, steps[i].action, steps[i].now, trace[i + 1]);
  }

  lemma SafeStepIff(cfg: ServerConfig, sys: System, clock: Millis, e: Event, now: Millis, next: System)
    requires SystemInv(cfg, {}, sys, clock) && CompletionsFit(sys.store) && Possible(sys, clock, e, now)
    requires Complete(sys.store) ==> next == Handle(cfg, sys, e, now)
    ensures Safe(next) <==> Slip(sys, e, now) == {}
  {
    SafeStep(cfg, {}, sys, clock, e, now);
    if Slip(sys, e, now) == {} {
      assert {} + Slip(sys, e, now) == {};
      InvIsSafe(cfg, next, now);
    } else {
      MisfireIsUnsafe(sys, e.browser, e.command.backendId, e.command.ticket, e.command.verifiedAt, e.command.prunedAt, now);
      ConnectionIsHandled(cfg, sys, e, now);
    }
  }

  /** A misfire leaves the system unsafe, whatever it was before. */
  lemma MisfireIsUnsafe(sys: System, socket: nat, backendId: Id, ticket: Claims, verifiedAt: Millis, prunedAt: Millis, now: Millis)
    requires Misfires(sys, backendId, ticket, verifiedAt, prunedAt, now)
    ensures var (hub, store) := H.ConnectBrowser(sys.hub, sys.store, socket, backendId, ticket, verifiedAt, prunedAt, now);
            && ticket.connectionId in hub.routes && hub.routes[ticket.connectionId].claims == ticket
            && !Safe(System(store, hub))
  {
    PassesIff(sys.store, ticket, verifiedAt, prunedAt);
    ConsumptionKeepsAdmission(sys.hub, sys.store, backendId, ticket, verifiedAt, prunedAt, now);
    ConsumptionKeepsRights(sys.store, ticket, verifiedAt, prunedAt, ticket);
    OpenedRoute(sys, socket, backendId, ticket, verifiedAt, prunedAt, now);
  }

  lemma OpenedRoute(sys: System, socket: nat, backendId: Id, ticket: Claims, verifiedAt: Millis, prunedAt: Millis, now: Millis)
    requires H.IsBackendOnline(sys.hub, backendId) && ConsumeRouteTicket(sys.store, ticket, verifiedAt, prunedAt).1.Ok?
    requires H.Admits(sys.hub, ConsumeRouteTicket(sys.store, ticket, verifiedAt, prunedAt).0.state, backendId, ticket, now)
    requires ticket.connectionId !in sys.hub.routes
    ensures var (hub, store) := H.ConnectBrowser(sys.hub, sys.store, socket, backendId, ticket, verifiedAt, prunedAt, now);
            && store == ConsumeRouteTicket(sys.store, ticket, verifiedAt, prunedAt).0
            && ticket.connectionId in hub.routes && hub.routes[ticket.connectionId].claims == ticket
  {
    var h1 := H.AfterChecks(sys.hub, backendId, ticket, now);
    assert h1 == sys.hub.(pairings := h1.pairings);
    DropPreviousLosesRoutes(h1, socket);
    InstalledRoute(H.DropPrevious(h1, socket), socket, backendId, ticket);
  }

  /**
   How an unsafe route gets its rights: when its backend confirms it again, while its pairing is
   open, it is authorised if and only if the account of the completed pairing still owns the
   backend and the device is still active.
   */
  lemma ConfirmedAgainIsAuthorisedIff(
    cfg: ServerConfig, trace: seq<System>, steps: seq<Step<Event>>, i: nat, backend: H.RegisteredBackend, id: Id, drawnAccount: Id, now: Millis)
    requires Run(cfg, trace, steps) && i < |trace|
    requires Confirmable(trace[i].hub, backend, id, now) && Confirmed(trace[i].store.state, trace[i].hub.routes[id].claims)
    ensures var s, c := trace[i].store.state, trace[i].hub.routes[id].claims;
            var (hub, store) := H.ConfirmPairing(trace[i].hub, trace[i].store, backend, id, drawnAccount, now);
            && id in hub.routes
            && (Authorised(store.state, hub.routes[id].claims)
                <==> BackendOwner(s, c.backendId) == Some(s.pairingCompletions[c.pairId.value].accountId) && IsDeviceActive(s, c.deviceId))
  {
    RunIsOrderly(cfg, trace, steps, i);
    assert RouteOk(trace[i].hub, id) && TicketClaims(cfg, trace[i].store, trace[i].hub.routes[id].claims);
    ConfirmedAccount(trace[i].store, trace[i].hub.routes[id].claims);
    AskedHub(trace[i], backend, id, drawnAccount, now);
  }
}
