/**
 What each operation of the hub is for, on its maps and on what was sent: exactly when it does what it
 was asked, and what is different then.
 */
module HubLaws {
  import opened Wrappers
  import opened TrustProtocol
  import TrustModel
  import TrustLaws
  import opened HubModel
  import opened HubInvariants

  // ---- What was sent -------------------------------------------------------------------------

  /** From `h` to `k` the backend's socket was sent exactly these messages, if it is open at all. */
  predicate BackendHears(h: Hub, k: Hub, socket: BackendSocket, messages: seq<BackendMessage>) {
    LogOf(k.backendLog, socket) == LogOf(h.backendLog, socket) + (if socket in h.openBackends then messages else [])
  }

  predicate BrowserHears(h: Hub, k: Hub, socket: BrowserSocket, messages: seq<BrowserMessage>) {
    LogOf(k.browserLog, socket) == LogOf(h.browserLog, socket) + (if socket in h.openBrowsers then messages else [])
  }

  ghost predicate OnlyBackendHears(h: Hub, k: Hub, socket: BackendSocket, messages: seq<BackendMessage>) {
    BackendHears(h, k, socket, messages) && k.browserLog == h.browserLog && k.openBrowsers == h.openBrowsers
    && forall b | b != socket :: LogOf(k.backendLog, b) == LogOf(h.backendLog, b)
  }

  /** Of the browsers, only this one. */
  ghost predicate OneBrowserHears(h: Hub, k: Hub, socket: BrowserSocket, messages: seq<BrowserMessage>) {
    BrowserHears(h, k, socket, messages) && k.openBrowsers == h.openBrowsers && forall b | b != socket :: LogOf(k.browserLog, b) == LogOf(h.browserLog, b)
  }

  ghost predicate OnlyBrowserHears(h: Hub, k: Hub, socket: BrowserSocket, messages: seq<BrowserMessage>) {
    OneBrowserHears(h, k, socket, messages) && k.backendLog == h.backendLog
  }

  predicate SameRoutes(h: Hub, k: Hub) {
    k.routes == h.routes && k.browserRoutes == h.browserRoutes && k.backends == h.backends && k.handshakes == h.handshakes
  }

  lemma TellingBackend(h: Hub, socket: BackendSocket, m: BackendMessage)
    ensures var k := TellBackend(h, socket, m);
            k == h.(backendLog := k.backendLog) && OnlyBackendHears(h, k, socket, [m])
  {
  }

  lemma TellingBrowser(h: Hub, socket: BrowserSocket, m: BrowserMessage)
    ensures var k := TellBrowser(h, socket, m);
            k == h.(browserLog := k.browserLog) && OnlyBrowserHears(h, k, socket, [m])
  {
  }

  /** What was heard does not depend on routes and pairings. */
  lemma SameHearing(h: Hub, h1: Hub, k: Hub)
    requires h1 == h.(routes := h1.routes, browserRoutes := h1.browserRoutes, pairings := h1.pairings)
    ensures forall b, list :: OnlyBackendHears(h1, k, b, list) <==> OnlyBackendHears(h, k, b, list)
    ensures forall b, list :: OnlyBrowserHears(h1, k, b, list) <==> OnlyBrowserHears(h, k, b, list)
  {
  }

  /** The backend is registered on a socket that is open. */
  predicate Online(h: Hub, backendId: Id) {
    backendId in h.backends && h.backends[backendId].socket in h.openBackends
  }

  /** The pairing is open, unexpired, for this backend. */
  predicate PairingOpen(h: Hub, pairId: Option<Id>, backendId: Id, now: Millis) {
    && pairId.Some? && pairId.value in h.pairings
    && h.pairings[pairId.value].backendId == backendId && now < h.pairings[pairId.value].expiresAt
    && Online(h, backendId)
  }

  /** The connection is one that leads to this backend. */
  predicate IsRouteOf(h: Hub, backend: RegisteredBackend, connectionId: Id) {
    connectionId in h.routes && h.routes[connectionId].backendId == backend.backendId
  }

  // ---- Connecting ----------------------------------------------------------------------------

  /**
   What a connection takes: its backend online, a ticket for it that was signed here, is valid at
   `verifiedAt` and not recorded as used at `prunedAt`, and behind the ticket an owner with an active device, or a
   pairing that is open at `now`.
   */
  predicate MayConnect(
    h: Hub, s: TrustModel.Store, backendId: Id, ticket: Claims, verifiedAt: Millis, prunedAt: Millis, now: Millis)
  {
    && backendId in h.backends && h.backends[backendId].socket in h.openBackends
    && ticket.ticketId in s.minted && s.minted[ticket.ticketId] == ticket
    && ticket.issuedAt < ticket.expiresAt && verifiedAt < ticket.expiresAt && ticket.issuedAt <= verifiedAt + TrustModel.MAX_ISSUE_SKEW_MS
    && (ticket.ticketId in s.state.usedTickets ==> s.state.usedTickets[ticket.ticketId] <= prunedAt)
    && ticket.backendId == backendId
    && match ticket.kind
       case Connection =>
         && ticket.accountId.Some? && backendId in s.state.backendOwners && s.state.backendOwners[backendId] == ticket.accountId.value
         && ticket.deviceId in s.state.devices && s.state.devices[ticket.deviceId].revokedAt == None
       case Pairing =>
         && ticket.pairId.Some? && ticket.pairId.value in h.pairings
         && h.pairings[ticket.pairId.value].backendId == backendId && now < h.pairings[ticket.pairId.value].expiresAt
  }

  /**
   The browser gets a route exactly if that is given and the connection id is free: which route, and who
   hears of it. Otherwise no route changes, and only the browser hears, of the reason.
   */
  lemma ConnectionOpensIff(
    h: Hub, s: TrustModel.Store, socket: BrowserSocket, backendId: Id, ticket: Claims,
    verifiedAt: Millis, prunedAt: Millis, now: Millis)
    ensures var (k, t) := HandleBrowserCommand(h, s, socket, ConnectCommand(backendId, ticket, verifiedAt, prunedAt), now);
            if MayConnect(h, s, backendId, ticket, verifiedAt, prunedAt, now) && ticket.connectionId !in h.routes then
              && Opened(h, k, socket, backendId, ticket)
              && ticket.ticketId in t.state.usedTickets && t.state.usedTickets[ticket.ticketId] == ticket.expiresAt
            else Refused(h, k, socket, if Online(h, backendId) then InvalidTicket else BackendOffline)
  {
    TrustLaws.TicketPassesIff(s, ticket, verifiedAt, prunedAt);
    var t := TrustModel.ConsumeRouteTicket(s, ticket, verifiedAt, prunedAt);
    if !Online(h, backendId) {
      TellingBrowser(h, socket, BrowserError(BackendOffline, None));
    } else if t.1.Err? {
      TellingBrowser(h, socket, BrowserError(InvalidTicket, None));
    } else {
      AdmittedIff(h, t.0.state, socket, backendId, ticket, now);
    }
  }

  /** The route of the ticket is there, in both maps, and both ends hear of it last. */
  ghost predicate Opened(h: Hub, k: Hub, socket: BrowserSocket, backendId: Id, ticket: Claims) {
    && ticket.connectionId in k.routes
    && k.routes[ticket.connectionId] == Route(ticket.connectionId, backendId, socket, ticket, ticket, None, None)
    && socket in k.browserRoutes && k.browserRoutes[socket] == k.routes[ticket.connectionId]
    && OneBrowserHears(h, k, socket, [BackendConnected(backendId, ticket.connectionId)])
    && backendId in h.backends
    && Last(LogOf(k.backendLog, h.backends[backendId].socket)) == Some(ConnectionRequest(ticket.connectionId, ticket))
  }

  ghost predicate Refused(h: Hub, k: Hub, socket: BrowserSocket, code: ErrorCode) {
    SameRoutes(h, k) && OnlyBrowserHears(h, k, socket, [BrowserError(code, None)])
  }

  function Last<T>(list: seq<T>): Option<T> {
    if list == [] then None else Some(list[|list| - 1])
  }

  /** What is checked once the ticket is consumed. */
  predicate MayEnter(h: Hub, s: TrustModel.State, backendId: Id, ticket: Claims, now: Millis) {
    && ticket.backendId == backendId
    && if ticket.kind.Pairing? then PairingOpen(h, ticket.pairId, backendId, now)
       else
         && ticket.accountId.Some? && backendId in s.backendOwners && s.backendOwners[backendId] == ticket.accountId.value
         && ticket.deviceId in s.devices && s.devices[ticket.deviceId].revokedAt == None
  }

  lemma EntersIff(h: Hub, s: TrustModel.State, backendId: Id, ticket: Claims, now: Millis)
    requires Online(h, backendId)
    ensures Admits(h, s, backendId, ticket, now) <==> MayEnter(h, s, backendId, ticket, now)
    ensures var h1 := AfterChecks(h, backendId, ticket, now); h1 == h.(pairings := h1.pairings)
  {
  }

  lemma AdmittedIff(h: Hub, s: TrustModel.State, socket: BrowserSocket, backendId: Id, ticket: Claims, now: Millis)
    requires Online(h, backendId)
    ensures var k := AdmitBrowser(h, s, socket, backendId, ticket, now);
            if MayEnter(h, s, backendId, ticket, now) && ticket.connectionId !in h.routes
            then Opened(h, k, socket, backendId, ticket)
            else Refused(h, k, socket, InvalidTicket)
  {
    var h1 := AfterChecks(h, backendId, ticket, now);
    EntersIff(h, s, backendId, ticket, now);
    if MayEnter(h, s, backendId, ticket, now) && ticket.connectionId !in h.routes {
      SwitchOpens(h, h1, socket, backendId, ticket);
    } else {
      TellingBrowser(h1, socket, BrowserError(InvalidTicket, None));
      SameHearing(h, h1, TellBrowser(h1, socket, BrowserError(InvalidTicket, None)));
    }
  }

  lemma SwitchOpens(h: Hub, h1: Hub, socket: BrowserSocket, backendId: Id, ticket: Claims)
    requires Online(h, backendId) && h1 == h.(pairings := h1.pairings)
    ensures backendId in DropPrevious(h1, socket).backends
    ensures Opened(h, InstallRoute(DropPrevious(h1, socket), socket, backendId, ticket), socket, backendId, ticket)
  {
    var h2 := DropPrevious(h1, socket);
    DroppingKeepsBrowsers(h1, socket);
    InstallIsHeard(h2, socket, backendId, ticket);
    OpenedFrom(h, h2, InstallRoute(h2, socket, backendId, ticket), socket, backendId, ticket);
  }

  lemma DroppingKeepsBrowsers(h: Hub, socket: BrowserSocket)
    ensures var k := DropPrevious(h, socket);
            k.backends == h.backends && k.openBackends == h.openBackends && k.openBrowsers == h.openBrowsers && k.browserLog == h.browserLog
  {
  }

  lemma OpenedFrom(h: Hub, h2: Hub, k: Hub, socket: BrowserSocket, backendId: Id, ticket: Claims)
    requires Online(h, backendId) && h2.backends == h.backends && h2.openBackends == h.openBackends
    requires h2.openBrowsers == h.openBrowsers && h2.browserLog == h.browserLog
    requires var route := Route(ticket.connectionId, backendId, socket, ticket, ticket, None, None);
             k.routes == h2.routes[ticket.connectionId := route] && k.browserRoutes == h2.browserRoutes[socket := route]
    requires OneBrowserHears(h2, k, socket, [BackendConnected(backendId, ticket.connectionId)])
    requires BackendHears(h2, k, h.backends[backendId].socket, [ConnectionRequest(ticket.connectionId, ticket)])
    ensures Opened(h, k, socket, backendId, ticket)
  {
  }

  lemma InstallIsHeard(h: Hub, socket: BrowserSocket, backendId: Id, ticket: Claims)
    requires backendId in h.backends
    ensures var k, id := InstallRoute(h, socket, backendId, ticket), ticket.connectionId;
            && k.routes == h.routes[id := Route(id, backendId, socket, ticket, ticket, None, None)]
            && k.browserRoutes == h.browserRoutes[socket := Route(id, backendId, socket, ticket, ticket, None, None)]
            && OneBrowserHears(h, k, socket, [BackendConnected(backendId, id)])
            && BackendHears(h, k, h.backends[backendId].socket, [ConnectionRequest(id, ticket)])
            && forall b | b != h.backends[backendId].socket :: LogOf(k.backendLog, b) == LogOf(h.backendLog, b)
  {
    var route := Route(ticket.connectionId, backendId, socket, ticket, ticket, None, None);
    var h1, b := PutRoute(h, route), h.backends[backendId].socket;
    TellingBackend(h1, b, ConnectionRequest(ticket.connectionId, ticket));
    TellingBrowser(TellBackend(h1, b, ConnectionRequest(ticket.connectionId, ticket)), socket, BackendConnected(backendId, ticket.connectionId));
  }

  /** The browser's route, if it has one, goes from both maps, and its backend hears of it. */
  lemma PreviousIsDropped(h: Hub, socket: BrowserSocket)
    requires HubInv(h)
    ensures var k := DropPrevious(h, socket);
            if socket !in h.browserRoutes then k == h
            else
              var earlier := h.browserRoutes[socket];
              && k.routes == h.routes - {earlier.connectionId} && k.browserRoutes == h.browserRoutes - {socket}
              && k == h.(routes := k.routes, browserRoutes := k.browserRoutes, backendLog := k.backendLog)
              && earlier.backendId in h.backends && earlier.connectionId in h.routes && h.routes[earlier.connectionId] == earlier
              && OnlyBackendHears(h, k, h.backends[earlier.backendId].socket, [ClosedByBrowser(earlier.connectionId)])
  {
    if socket in h.browserRoutes {
      assert BrowserOk(h, socket) && RouteOk(h, h.browserRoutes[socket].connectionId);
    }
  }

  /** Of the routes there were, exactly the browser's earlier one is gone, and its backend hears of that first. */
  lemma EarlierRouteGoes(
    h: Hub, s: TrustModel.Store, socket: BrowserSocket, backendId: Id, ticket: Claims,
    verifiedAt: Millis, prunedAt: Millis, now: Millis)
    requires HubInv(h) && MayConnect(h, s, backendId, ticket, verifiedAt, prunedAt, now) && ticket.connectionId !in h.routes
    ensures var k := HandleBrowserCommand(h, s, socket, ConnectCommand(backendId, ticket, verifiedAt, prunedAt), now).0;
            && (forall id | id in h.routes :: id in k.routes <==> h.routes[id].browser != socket)
            && (forall id | id in k.routes && id != ticket.connectionId :: id in h.routes && k.routes[id] == h.routes[id])
            && (socket in h.browserRoutes ==>
                  var earlier := h.browserRoutes[socket];
                  && earlier.backendId in h.backends
                  && var asked := [ConnectionRequest(ticket.connectionId, ticket)];
                     BackendHears(h, k, h.backends[earlier.backendId].socket,
                       [ClosedByBrowser(earlier.connectionId)] + (if earlier.backendId == backendId then asked else [])))
  {
    var h1 := AfterChecks(h, backendId, ticket, now);
    ConnectionSwitches(h, s, socket, backendId, ticket, verifiedAt, prunedAt, now);
    SameRoutingKeeps(h, h1);
    SwitchIsHeard(h1, DropPrevious(h1, socket), socket, backendId, ticket);
  }

  lemma ConnectionSwitches(
    h: Hub, s: TrustModel.Store, socket: BrowserSocket, backendId: Id, ticket: Claims,
    verifiedAt: Millis, prunedAt: Millis, now: Millis)
    requires MayConnect(h, s, backendId, ticket, verifiedAt, prunedAt, now) && ticket.connectionId !in h.routes
    ensures var h1 := AfterChecks(h, backendId, ticket, now);
            && h1 == h.(pairings := h1.pairings) && backendId in DropPrevious(h1, socket).backends
            && HandleBrowserCommand(h, s, socket, ConnectCommand(backendId, ticket, verifiedAt, prunedAt), now).0
            == InstallRoute(DropPrevious(h1, socket), socket, backendId, ticket)
  {
    TrustLaws.TicketPassesIff(s, ticket, verifiedAt, prunedAt);
    EntersIff(h, TrustModel.ConsumeRouteTicket(s, ticket, verifiedAt, prunedAt).0.state, backendId, ticket, now);
  }

  lemma SwitchIsHeard(h: Hub, h2: Hub, socket: BrowserSocket, backendId: Id, ticket: Claims)
    requires HubInv(h) && h2 == DropPrevious(h, socket) && backendId in h.backends && ticket.connectionId !in h.routes
    ensures backendId in h2.backends
    ensures var k := InstallRoute(h2, socket, backendId, ticket);
            && (forall id | id in h.routes :: id in k.routes <==> h.routes[id].browser != socket)
            && (forall id | id in k.routes && id != ticket.connectionId :: id in h.routes && k.routes[id] == h.routes[id])
            && (socket in h.browserRoutes ==>
                  var earlier := h.browserRoutes[socket];
                  && earlier.backendId in h.backends
                  && var asked := [ConnectionRequest(ticket.connectionId, ticket)];
                     BackendHears(h, k, h.backends[earlier.backendId].socket,
                       [ClosedByBrowser(earlier.connectionId)] + (if earlier.backendId == backendId then asked else [])))
  {
    PreviousIsDropped(h, socket);
    InstallIsHeard(h2, socket, backendId, ticket);
    forall id | id in h.routes ensures id in h2.routes <==> h.routes[id].browser != socket {
      assert RouteOk(h, id);
    }
    if socket in h.browserRoutes {
      assert BackendOk(h, h.browserRoutes[socket].backendId) && BackendOk(h, backendId);
    }
  }

  /** The backend registered over this socket. */
  predicate Serves(h: Hub, socket: BackendSocket, backend: RegisteredBackend) {
    socket in h.handshakes && h.handshakes[socket].registered == Some(backend)
  }

  lemma IsServed(
    cfg: HubConfig, h: Hub, s: TrustModel.Store, socket: BackendSocket, backend: RegisteredBackend, command: BackendCommand, now: Millis)
    requires Serves(h, socket, backend)
    ensures HandleBackendCommand(cfg, h, s, socket, command, now) == ServeBackend(cfg, h, s, backend, socket, command, now)
  {
  }

  // ---- Signals and bindings ------------------------------------------------------------------

  /** The same routes, but for one route's descriptions. */
  predicate Describes(h: Hub, k: Hub, r: Route) {
    && k.routes == h.routes[r.connectionId := r] && k.browserRoutes == h.browserRoutes[r.browser := r]
    && k.backends == h.backends && k.pairings == h.pairings
  }

  /** A backend's signal goes to the browser of its own route, exactly unless it is an offer; an answer is recorded. */
  lemma BackendSignalIsRelayedIff(
    cfg: HubConfig, h: Hub, s: TrustModel.Store, socket: BackendSocket, backend: RegisteredBackend, connectionId: Id, signal: Signal, now: Millis)
    requires HubInv(h) && Serves(h, socket, backend)
    ensures var (k, t) := HandleBackendCommand(cfg, h, s, socket, BackendSignalCommand(connectionId, signal), now);
            t == s && if IsRouteOf(h, backend, connectionId) && (signal.Description? ==> !signal.isOffer) then
              var r := h.routes[connectionId];
              && OnlyBrowserHears(h, k, r.browser, [SignalFromBackend(connectionId, signal)])
              && Describes(h, k, if signal.Description? then r.(answerSdp := Some(signal.sdp)) else r)
            else
              && SameRoutes(h, k)
              && OnlyBackendHears(h, k, backend.socket, [BackendError(
                   if IsRouteOf(h, backend, connectionId) then InvalidMessage else UnauthorizedConnection, Some(connectionId))])
  {
    IsServed(cfg, h, s, socket, backend, BackendSignalCommand(connectionId, signal), now);
    TellingBackend(h, backend.socket, BackendError(UnauthorizedConnection, Some(connectionId)));
    TellingBackend(h, backend.socket, BackendError(InvalidMessage, Some(connectionId)));
    if IsRouteOf(h, backend, connectionId) {
      assert RouteOk(h, connectionId) && BrowserOk(h, h.routes[connectionId].browser);
      var r := h.routes[connectionId];
      var h1 := if signal.Description? then PutRoute(h, r.(answerSdp := Some(signal.sdp))) else h;
      TellingBrowser(h1, r.browser, SignalFromBackend(connectionId, signal));
      SameHearing(h, h1, RelayBackendSignal(h, backend, connectionId, signal));
    }
  }

  /** The browser's own route is this connection. */
  predicate Owns(h: Hub, socket: BrowserSocket, connectionId: Id) {
    socket in h.browserRoutes && h.browserRoutes[socket].connectionId == connectionId
  }

  /** A browser's signal goes to the backend of its own route, exactly unless it is an answer; an offer is recorded. */
  lemma BrowserSignalIsRelayedIff(h: Hub, s: TrustModel.Store, socket: BrowserSocket, connectionId: Id, signal: Signal, now: Millis)
    requires HubInv(h) && Owns(h, socket, connectionId) && Online(h, h.browserRoutes[socket].backendId)
    ensures var (k, t) := HandleBrowserCommand(h, s, socket, BrowserSignalCommand(connectionId, signal), now);
            var r := h.browserRoutes[socket];
            && t == s
            && if signal.Description? ==> signal.isOffer then
                 && OnlyBackendHears(h, k, h.backends[r.backendId].socket, [SignalFromBrowser(connectionId, signal)])
                 && Describes(h, k, if signal.Description? then r.(offerSdp := Some(signal.sdp)) else r)
               else
                 && SameRoutes(h, k)
                 && OnlyBrowserHears(h, k, socket, [BrowserError(InvalidMessage, Some(connectionId))])
  {
    assert BrowserOk(h, socket) && RouteOk(h, connectionId);
  }

  /** What a browser that asks for a connection of its own gets when the backend is gone, and for another's. */
  lemma StrangersAreRefused(h: Hub, s: TrustModel.Store, socket: BrowserSocket, command: BrowserCommand, now: Millis)
    requires HubInv(h) && !command.ConnectCommand?
    ensures var (k, t) := HandleBrowserCommand(h, s, socket, command, now);
            var id := command.connectionId;
            && t == s
            && (!Owns(h, socket, id) ==>
                  SameRoutes(h, k) && OnlyBrowserHears(h, k, socket, [BrowserError(UnauthorizedConnection, Some(id))]))
            && (Owns(h, socket, id) && !Online(h, h.browserRoutes[socket].backendId) ==>
                  && k.routes == h.routes - {id} && k.browserRoutes == h.browserRoutes - {socket}
                  && OnlyBrowserHears(h, k, socket, [BrowserError(BackendOffline, Some(id))]))
  {
    var id := command.connectionId;
    TellingBrowser(h, socket, BrowserError(UnauthorizedConnection, Some(id)));
    if Owns(h, socket, id) {
      assert BrowserOk(h, socket) && RouteOk(h, id);
      var h1 := RemoveRoute(h, h.browserRoutes[socket]);
      TellingBrowser(h1, socket, BrowserError(BackendOffline, Some(id)));
      SameHearing(h, h1, HandleBrowserCommand(h, s, socket, command, now).0);
    }
  }

  lemma BrowserCloses(h: Hub, s: TrustModel.Store, socket: BrowserSocket, connectionId: Id, now: Millis)
    requires HubInv(h) && Owns(h, socket, connectionId) && Online(h, h.browserRoutes[socket].backendId)
    ensures var (k, t) := HandleBrowserCommand(h, s, socket, BrowserCloseCommand(connectionId), now);
            && t == s && k.routes == h.routes - {connectionId} && k.browserRoutes == h.browserRoutes - {socket}
            && OnlyBackendHears(h, k, h.backends[h.browserRoutes[socket].backendId].socket, [ClosedByBrowser(connectionId)])
  {
    assert BrowserOk(h, socket) && RouteOk(h, connectionId);
  }

  /** The connection is gone from both maps, and its browser hears of it. */
  ghost predicate Closed(h: Hub, k: Hub, r: Route) {
    && k.routes == h.routes - {r.connectionId} && k.browserRoutes == h.browserRoutes - {r.browser}
    && k.backends == h.backends && k.pairings == h.pairings
    && OneBrowserHears(h, k, r.browser, [ConnectionClosed(r.connectionId)])
  }

  lemma BackendClosesIff(
    cfg: HubConfig, h: Hub, s: TrustModel.Store, socket: BackendSocket, backend: RegisteredBackend, connectionId: Id, now: Millis)
    requires HubInv(h) && Serves(h, socket, backend)
    ensures var (k, t) := HandleBackendCommand(cfg, h, s, socket, BackendCloseCommand(connectionId), now);
            t == s && if IsRouteOf(h, backend, connectionId) then
              Closed(h, k, h.routes[connectionId]) && k.backendLog == h.backendLog
            else SameRoutes(h, k) && OnlyBackendHears(h, k, backend.socket, [BackendError(UnauthorizedConnection, Some(connectionId))])
  {
    IsServed(cfg, h, s, socket, backend, BackendCloseCommand(connectionId), now);
    TellingBackend(h, backend.socket, BackendError(UnauthorizedConnection, Some(connectionId)));
    if IsRouteOf(h, backend, connectionId) {
      assert RouteOk(h, connectionId) && BrowserOk(h, h.routes[connectionId].browser);
      var h1 := RemoveRoute(h, h.routes[connectionId]);
      TellingBrowser(h1, h.routes[connectionId].browser, ConnectionClosed(connectionId));
      SameHearing(h, h1, CloseFromBackend(h, backend, connectionId));
    }
  }

  /** The binding is signed by this backend for this route, and for the very descriptions that were relayed. */
  predicate Fits(cfg: HubConfig, r: Route, backend: RegisteredBackend, b: Binding) {
    && b.signatureValid && b.backendId == backend.backendId && b.publicKey == backend.publicKey
    && b.connectionId == r.connectionId && b.expiresAt == r.claims.expiresAt
    && r.offerSdp.Some? && b.offerSha256 == cfg.sha256(r.offerSdp.value)
    && r.answerSdp.Some? && b.answerSha256 == cfg.sha256(r.answerSdp.value)
    && cfg.dtlsFingerprint(r.answerSdp.value) == Some(b.dtlsFingerprint)
  }

  /** A binding is relayed, and the routes left alone, exactly if it fits; any other ends the route. */
  lemma BindingIsRelayedIff(
    cfg: HubConfig, h: Hub, s: TrustModel.Store, socket: BackendSocket, backend: RegisteredBackend, connectionId: Id, b: Binding, now: Millis)
    requires HubInv(h) && Serves(h, socket, backend)
    ensures var (k, t) := HandleBackendCommand(cfg, h, s, socket, BindingCommand(connectionId, b), now);
            t == s && if !IsRouteOf(h, backend, connectionId) then
              SameRoutes(h, k) && OnlyBackendHears(h, k, backend.socket, [BackendError(UnauthorizedConnection, Some(connectionId))])
            else if Fits(cfg, h.routes[connectionId], backend, b) then
              SameRoutes(h, k) && OnlyBrowserHears(h, k, h.routes[connectionId].browser, [ConnectionBinding(connectionId, b)])
            else
              && Closed(h, k, h.routes[connectionId])
              && BackendHears(h, k, backend.socket, [BackendError(InvalidMessage, Some(connectionId))])
  {
    IsServed(cfg, h, s, socket, backend, BindingCommand(connectionId, b), now);
    TellingBackend(h, backend.socket, BackendError(UnauthorizedConnection, Some(connectionId)));
    if IsRouteOf(h, backend, connectionId) {
      assert RouteOk(h, connectionId) && BrowserOk(h, h.routes[connectionId].browser);
      TellingBrowser(h, h.routes[connectionId].browser, ConnectionBinding(connectionId, b));
      var told := TellBackend(h, backend.socket, BackendError(InvalidMessage, Some(connectionId)));
      TellingBackend(h, backend.socket, BackendError(InvalidMessage, Some(connectionId)));
      TellBackendKeeps(h, backend.socket, BackendError(InvalidMessage, Some(connectionId)));
      BackendClosesIff(cfg, told, s, socket, backend, connectionId, now);
      IsServed(cfg, told, s, socket, backend, BackendCloseCommand(connectionId), now);
    }
  }

  // ---- Pairings ------------------------------------------------------------------------------

  predicate HeldByAnother(h: Hub, pairId: Id, backendId: Id, now: Millis) {
    && pairId in h.pairings && h.pairings[pairId].backendId != backendId
    && now < h.pairings[pairId].expiresAt && Online(h, h.pairings[pairId].backendId)
  }

  /** A backend opens a pairing exactly within the next quarter of an hour, and unless another has it open. */
  lemma PairingOpensIff(
    cfg: HubConfig, h: Hub, s: TrustModel.Store, socket: BackendSocket, backend: RegisteredBackend, pairId: Id, expiresAt: Millis, now: Millis)
    requires Serves(h, socket, backend)
    ensures var (k, t) := HandleBackendCommand(cfg, h, s, socket, OpenPairingCommand(pairId, expiresAt), now);
            && t == s && SameRoutes(h, k)
            && if && now < expiresAt <= now + 900_000
                  && !HeldByAnother(h, pairId, backend.backendId, now)
               then
                 && k.pairings == h.pairings[pairId := ActivePairing(pairId, backend.backendId, expiresAt)]
                 && OnlyBackendHears(h, k, backend.socket, [PairingOpened(pairId, expiresAt)])
               else k.pairings == h.pairings && OnlyBackendHears(h, k, backend.socket, [BackendError(InvalidPairing, None)])
  {
    IsServed(cfg, h, s, socket, backend, OpenPairingCommand(pairId, expiresAt), now);
    DroppingIsQuiet(h, pairId, now);
    var h1 := DropDeadPairing(h, pairId, now);
    var h2 := h1.(pairings := h1.pairings[pairId := ActivePairing(pairId, backend.backendId, expiresAt)]);
    var k := OpenPairing(h, backend, pairId, expiresAt, now);
    TellingBackend(h, backend.socket, BackendError(InvalidPairing, None));
    TellingBackend(h1, backend.socket, BackendError(InvalidPairing, None));
    TellingBackend(h2, backend.socket, PairingOpened(pairId, expiresAt));
    SameHearing(h, h1, k);
    SameHearing(h, h2, k);
  }

  /** A backend confirms exactly what came over its own route with a pairing that it has open, when the store agrees. */
  lemma ConfirmationSucceedsIff(
    cfg: HubConfig, h: Hub, s: TrustModel.Store, socket: BackendSocket, backend: RegisteredBackend, connectionId: Id, drawnAccount: Id, now: Millis)
    requires HubInv(h) && Serves(h, socket, backend)
    ensures var (k, t) := HandleBackendCommand(cfg, h, s, socket, ConfirmPairingCommand(connectionId, drawnAccount), now);
            if !IsRouteOf(h, backend, connectionId) then
              t == s && SameRoutes(h, k) && OnlyBackendHears(h, k, backend.socket, [BackendError(UnauthorizedConnection, Some(connectionId))])
            else
              var r := h.routes[connectionId];
              var (store, answer) := TrustModel.ConfirmPairing(s, r.claims, drawnAccount, now);
              if r.claims.kind.Pairing? && PairingOpen(h, r.claims.pairId, backend.backendId, now) && answer.Ok? then
                && t == store && k.pairings == h.pairings - {r.claims.pairId.value}
                && Describes(h.(pairings := k.pairings), k, r.(claims := r.claims.(accountId := Some(answer.value.accountId))))
                && OnlyBackendHears(h, k, backend.socket,
                     [PairingConfirmed(connectionId, r.claims.pairId.value, answer.value.accountId, answer.value.deviceId)])
              else
                && t == s && SameRoutes(h, k)
                && OnlyBackendHears(h, k, backend.socket, [BackendError(InvalidPairing, Some(connectionId))])
  {
    IsServed(cfg, h, s, socket, backend, ConfirmPairingCommand(connectionId, drawnAccount), now);
    TellingBackend(h, backend.socket, BackendError(UnauthorizedConnection, Some(connectionId)));
    TellingBackend(h, backend.socket, BackendError(InvalidPairing, Some(connectionId)));
    if IsRouteOf(h, backend, connectionId) {
      assert RouteOk(h, connectionId) && BrowserOk(h, h.routes[connectionId].browser);
      var r := h.routes[connectionId];
      if r.claims.kind.Pairing? && r.claims.pairId.Some? { RouteIsConfirmedIff(h, s, backend, r, r.claims.pairId.value, drawnAccount, now); }
    }
  }

  lemma RouteIsConfirmedIff(
    h: Hub, s: TrustModel.Store, backend: RegisteredBackend, r: Route, pairId: Id, drawnAccount: Id, now: Millis)
    requires r.claims.pairId == Some(pairId)
    ensures var (k, t) := ConfirmRoute(h, s, backend, r, pairId, drawnAccount, now);
            var (store, answer) := TrustModel.ConfirmPairing(s, r.claims, drawnAccount, now);
            if PairingOpen(h, r.claims.pairId, backend.backendId, now) && answer.Ok? then
              && t == store && k.pairings == h.pairings - {pairId}
              && Describes(h.(pairings := k.pairings), k, r.(claims := r.claims.(accountId := Some(answer.value.accountId))))
              && OnlyBackendHears(h, k, backend.socket,
                   [PairingConfirmed(r.connectionId, pairId, answer.value.accountId, answer.value.deviceId)])
            else
              && t == s && SameRoutes(h, k)
              && OnlyBackendHears(h, k, backend.socket, [BackendError(InvalidPairing, Some(r.connectionId))])
  {
    var h1 := DropDeadPairing(h, pairId, now);
    DroppingIsQuiet(h, pairId, now);
    var k := ConfirmRoute(h, s, backend, r, pairId, drawnAccount, now).0;
    TellingBackend(h1, backend.socket, BackendError(InvalidPairing, Some(r.connectionId)));
    SameHearing(h, h1, k);
    var answer := TrustModel.ConfirmPairing(s, r.claims, drawnAccount, now).1;
    if answer.Ok? {
      var known := PutRoute(h, r.(claims := r.claims.(accountId := Some(answer.value.accountId))));
      var h2 := known.(pairings := known.pairings - {pairId});
      TellingBackend(h2, backend.socket, PairingConfirmed(r.connectionId, pairId, answer.value.accountId, answer.value.deviceId));
      SameHearing(h, h2, k);
    }
  }

  lemma DroppingIsQuiet(h: Hub, pairId: Id, now: Millis)
    ensures var k := DropDeadPairing(h, pairId, now); k == h.(pairings := k.pairings)
    ensures OpenPairingOf(h, pairId, now).Some? ==> DropDeadPairing(h, pairId, now) == h
  {
  }

  // ---- Registrations -------------------------------------------------------------------------

  /** The registration `id` was ended, and its routes and pairings with it. */
  ghost predicate Ended(h: Hub, k: Hub, id: Id) {
    k.backends == h.backends - {id} && k.backendLog == h.backendLog && Cleared(h, k, id)
  }

  lemma RegistrationEnds(h: Hub, backend: RegisteredBackend)
    requires forall b {:trigger BrowserOk(h, b)} | b in h.browserRoutes :: BrowserOk(h, b)
    requires backend.backendId in h.backends && h.backends[backend.backendId] == backend
    ensures Ended(h, RemoveRegisteredBackend(h, backend), backend.backendId)
  {
    forall b | b in h.browserRoutes ensures h.browserRoutes[b].connectionId in RoutesTo(h, backend.backendId)
                                            <==> h.browserRoutes[b].backendId == backend.backendId
    {
      assert BrowserOk(h, b);
    }
  }

  /** A socket that closes ends the registration that is still its own, and no other. */
  lemma LeavingEndsIff(h: Hub, socket: BackendSocket, id: Id)
    requires HubInv(h)
    ensures var k := RemoveBackendSocket(h, socket);
            && (id in h.backends && h.backends[id].socket == socket ==> Ended(h, k, id))
            && ((forall i | i in h.backends :: h.backends[i].socket != socket) ==> k == h.(handshakes := h.handshakes - {socket}))
  {
    if id in h.backends && h.backends[id].socket == socket {
      assert BackendOk(h, id);
      var h1 := h.(handshakes := h.handshakes - {socket});
      forall b | b in h1.browserRoutes ensures BrowserOk(h1, b) { assert BrowserOk(h, b); }
      RegistrationEnds(h1, h.backends[id]);
      EndedWithoutHandshake(h, h1, RemoveRegisteredBackend(h1, h.backends[id]), id);
    }
  }

  lemma EndedWithoutHandshake(h: Hub, h1: Hub, k: Hub, id: Id)
    requires h1 == h.(handshakes := h1.handshakes) && Ended(h1, k, id)
    ensures Ended(h, k, id)
  {
    forall b ensures BrowserHears(h, k, b, if b in h.browserRoutes && h.browserRoutes[b].backendId == id
                                           then [ConnectionClosed(h.browserRoutes[b].connectionId)] else [])
    {
      assert BrowserHears(h1, k, b, if b in h1.browserRoutes && h1.browserRoutes[b].backendId == id
                                    then [ConnectionClosed(h1.browserRoutes[b].connectionId)] else []);
    }
  }

  /** A socket gets its backend registered exactly with a valid signature and a key that has a fingerprint. */
  lemma BackendRegistersIff(
    cfg: HubConfig, h: Hub, s: TrustModel.Store, socket: BackendSocket, publicKey: PublicKey, signatureValid: bool, now: Millis)
    requires HubInv(h) && socket in h.handshakes && h.handshakes[socket].registered == None
    ensures var (k, t) := HandleBackendCommand(cfg, h, s, socket, RegisterBackendCommand(publicKey, signatureValid), now);
            && t == s
            && match cfg.deriveBackendId(publicKey)
               case Some(id) =>
                 if signatureValid then Registers(h, k, s.state, RegisteredBackend(id, publicKey, socket))
                 else TurnedAway(h, k, socket, UnauthorizedConnection)
               case None => TurnedAway(h, k, socket, if signatureValid then InvalidMessage else UnauthorizedConnection)
  {
    RegistrationIsCalled(cfg, h, s, socket, publicKey, signatureValid, now);
    var id := cfg.deriveBackendId(publicKey);
    if signatureValid && id.Some? {
      RegistrationIsHeard(h, s.state, RegisteredBackend(id.value, publicKey, socket));
    } else {
      TellingBackend(h, socket, BackendError(if signatureValid then InvalidMessage else UnauthorizedConnection, None));
    }
  }

  lemma RegistrationIsCalled(
    cfg: HubConfig, h: Hub, s: TrustModel.Store, socket: BackendSocket, publicKey: PublicKey, signatureValid: bool, now: Millis)
    requires socket in h.handshakes && h.handshakes[socket].registered == None
    ensures HandleBackendCommand(cfg, h, s, socket, RegisterBackendCommand(publicKey, signatureValid), now)
         == (RegisterBackend(cfg, h, s.state, socket, publicKey, signatureValid), s)
  {
  }

  /** Before that it can do nothing else, and afterwards not register again. */
  lemma OutOfTurnIsRefused(cfg: HubConfig, h: Hub, s: TrustModel.Store, socket: BackendSocket, command: BackendCommand, now: Millis)
    requires socket in h.handshakes ==> (command.RegisterBackendCommand? <==> h.handshakes[socket].registered.Some?)
    ensures var (k, t) := HandleBackendCommand(cfg, h, s, socket, command, now);
            && t == s && SameRoutes(h, k) && k.pairings == h.pairings && k.openBackends == h.openBackends
            && OnlyBackendHears(h, k, socket, [BackendError(
                 if socket in h.handshakes && command.RegisterBackendCommand? then InvalidMessage else UnauthorizedConnection, None)])
  {
    TellingBackend(h, socket, BackendError(InvalidMessage, None));
    TellingBackend(h, socket, BackendError(UnauthorizedConnection, None));
  }

  /** The socket is told why and closed. */
  ghost predicate TurnedAway(h: Hub, k: Hub, socket: BackendSocket, code: ErrorCode) {
    SameRoutes(h, k) && k.openBackends == h.openBackends - {socket} && OnlyBackendHears(h, k, socket, [BackendError(code, None)])
  }

  /** The backend is registered on its socket and told so, and told if its owner gave it up; an earlier socket lost everything. */
  ghost predicate Registers(h: Hub, k: Hub, s: TrustModel.State, backend: RegisteredBackend) {
    var id := backend.backendId;
    && id in k.backends && k.backends == h.backends[id := backend]
    && backend.socket in k.handshakes && k.handshakes[backend.socket].registered == Some(backend)
    && BackendHears(h, k, backend.socket,
         [Registered(id)] + (if id in s.backendRevocations then [AuthorizationRevoked(s.backendRevocations[id].accountId, None)] else []))
    && if id in h.backends && h.backends[id].socket != backend.socket then
         k.openBackends == h.openBackends - {h.backends[id].socket} && Cleared(h, k, id)
       else
         && k.openBackends == h.openBackends && k.openBrowsers == h.openBrowsers && k.browserLog == h.browserLog
         && k.routes == h.routes && k.pairings == h.pairings
  }

  /** The routes and the pairings of this backend are gone, its browsers heard of it, and nothing else changed for browsers. */
  ghost predicate Cleared(h: Hub, k: Hub, id: Id) {
    && (forall c :: c in k.routes <==> c in h.routes && h.routes[c].backendId != id)
    && (forall c | c in k.routes :: k.routes[c] == h.routes[c])
    && (forall p :: p in k.pairings <==> p in h.pairings && h.pairings[p].backendId != id)
    && (forall p | p in k.pairings :: k.pairings[p] == h.pairings[p])
    && (forall b :: BrowserHears(h, k, b, if b in h.browserRoutes && h.browserRoutes[b].backendId == id
                                          then [ConnectionClosed(h.browserRoutes[b].connectionId)] else []))
    && k.openBrowsers == h.openBrowsers
  }

  /** The earlier socket of a backend that reconnects is closed, and lost everything; any other hub is as it was. */
  lemma EarlierSocketIsCleared(h: Hub, id: Id, socket: BackendSocket)
    requires HubInv(h)
    ensures var k := ReplacePrevious(h, id, socket);
            && (if id in h.backends && h.backends[id].socket != socket
                then Ended(h, k, id) && k.openBackends == h.openBackends - {h.backends[id].socket}
                else k == h)
            && k.handshakes == h.handshakes && k.backendLog == h.backendLog && k.openBrowsers == h.openBrowsers
  {
    if id in h.backends {
      assert BackendOk(h, id);
      RegistrationEnds(h, h.backends[id]);
    }
  }

  lemma RegistrationIsHeard(h: Hub, s: TrustModel.State, backend: RegisteredBackend)
    requires HubInv(h) && backend.socket in h.handshakes
    ensures var id := backend.backendId;
            var cleared := ReplacePrevious(h, id, backend.socket);
            && backend.socket in cleared.handshakes
            && var enrolled := Enroll(cleared, backend);
               Registers(h, match TrustModel.PendingBackendRevocation(s, id)
                            case Some(r) => TellBackend(enrolled, backend.socket, AuthorizationRevoked(r.accountId, None))
                            case None => enrolled, s, backend)
  {
    var id := backend.backendId;
    var cleared := ReplacePrevious(h, id, backend.socket);
    EarlierSocketIsCleared(h, id, backend.socket);
    var more := if id in s.backendRevocations then [AuthorizationRevoked(s.backendRevocations[id].accountId, None)] else [];
    EnrollmentIsHeard(cleared, s, backend, more);
    var enrolled := Enroll(cleared, backend);
    var k := match TrustModel.PendingBackendRevocation(s, id)
             case Some(r) => TellBackend(enrolled, backend.socket, AuthorizationRevoked(r.accountId, None))
             case None => enrolled;
    EnrolledRegisters(h, cleared, k, s, backend);
  }

  lemma EnrollmentIsHeard(h: Hub, s: TrustModel.State, backend: RegisteredBackend, more: seq<BackendMessage>)
    requires backend.socket in h.handshakes
    requires more == if backend.backendId in s.backendRevocations
                     then [AuthorizationRevoked(s.backendRevocations[backend.backendId].accountId, None)] else []
    ensures var enrolled := Enroll(h, backend);
            var k := match TrustModel.PendingBackendRevocation(s, backend.backendId)
                     case Some(r) => TellBackend(enrolled, backend.socket, AuthorizationRevoked(r.accountId, None))
                     case None => enrolled;
            && k == h.(handshakes := k.handshakes, backends := h.backends[backend.backendId := backend], backendLog := k.backendLog)
            && backend.socket in k.handshakes && k.handshakes[backend.socket].registered == Some(backend)
            && BackendHears(h, k, backend.socket, [Registered(backend.backendId)] + more)
  {
  }

  /** What enrolment adds to a hub whose earlier socket was cleared. */
  ghost predicate Enrolls(cleared: Hub, k: Hub, s: TrustModel.State, backend: RegisteredBackend) {
    && k == cleared.(handshakes := k.handshakes, backends := cleared.backends[backend.backendId := backend], backendLog := k.backendLog)
    && backend.socket in k.handshakes && k.handshakes[backend.socket].registered == Some(backend)
    && BackendHears(cleared, k, backend.socket, [Registered(backend.backendId)]
         + (if backend.backendId in s.backendRevocations
            then [AuthorizationRevoked(s.backendRevocations[backend.backendId].accountId, None)] else []))
  }

  lemma EnrolledRegisters(h: Hub, cleared: Hub, k: Hub, s: TrustModel.State, backend: RegisteredBackend)
    requires var id := backend.backendId;
             && (if id in h.backends && h.backends[id].socket != backend.socket
                 then Ended(h, cleared, id) && cleared.openBackends == h.openBackends - {h.backends[id].socket}
                 else cleared == h)
             && cleared.handshakes == h.handshakes && cleared.backendLog == h.backendLog && cleared.openBrowsers == h.openBrowsers
    requires Enrolls(cleared, k, s, backend)
    ensures Registers(h, k, s, backend)
  {
    var id := backend.backendId;
    assert cleared.backends[id := backend] == h.backends[id := backend];
    if Ended(h, cleared, id) { StaysCleared(h, cleared, k, id); }
  }

  lemma StaysCleared(h: Hub, cleared: Hub, k: Hub, id: Id)
    requires Cleared(h, cleared, id) && k == cleared.(handshakes := k.handshakes, backends := k.backends, backendLog := k.backendLog)
    ensures Cleared(h, k, id)
  {
    forall b ensures BrowserHears(h, k, b, if b in h.browserRoutes && h.browserRoutes[b].backendId == id
                                           then [ConnectionClosed(h.browserRoutes[b].connectionId)] else [])
    {
      assert BrowserHears(h, cleared, b, if b in h.browserRoutes && h.browserRoutes[b].backendId == id
                                         then [ConnectionClosed(h.browserRoutes[b].connectionId)] else []);
    }
  }

  // ---- Revocations ---------------------------------------------------------------------------

  /** The revocation is about this backend, or about any backend that the account owns. */
  predicate About(s: TrustModel.State, r: TrustModel.RevocationResult, backendId: Id) {
    match r.backendId
    case Some(only) => backendId == only
    case None => backendId in s.backendOwners && s.backendOwners[backendId] == r.accountId
  }

  /** The route is one of the account's, and of the backend or the device if one is named. */
  predicate Revoked(r: TrustModel.RevocationResult, route: Route) {
    && route.claims.accountId == Some(r.accountId)
    && (r.backendId == None || r.backendId == Some(route.backendId))
    && (r.deviceId == None || r.deviceId == Some(route.claims.deviceId))
  }

  /** Each backend it is about hears of it, exactly the revoked routes are gone, and their browsers hear of that. */
  ghost predicate MadeKnown(h: Hub, k: Hub, s: TrustModel.State, r: TrustModel.RevocationResult) {
    && k.backends == h.backends && k.handshakes == h.handshakes && k.pairings == h.pairings && k.openBrowsers == h.openBrowsers
    && (forall id | id in h.backends ::
          BackendHears(h, k, h.backends[id].socket, if About(s, r, id) then [AuthorizationRevoked(r.accountId, r.deviceId)] else []))
    && (forall c :: c in k.routes <==> c in h.routes && !Revoked(r, h.routes[c]))
    && (forall c | c in k.routes :: k.routes[c] == h.routes[c])
    && (forall b :: BrowserHears(h, k, b, if b in h.browserRoutes && Revoked(r, h.browserRoutes[b])
                                          then [ConnectionClosed(h.browserRoutes[b].connectionId)] else []))
  }

  lemma RevocationIsAnnounced(h: Hub, s: TrustModel.State, r: TrustModel.RevocationResult)
    requires HubInv(h)
    ensures MadeKnown(h, NotifyRevocation(h, s, r), s, r)
  {
    var told := TellBackends(h, Informed(h, s, r, {}), AuthorizationRevoked(r.accountId, r.deviceId));
    var k := CloseRoutes(told, Affected(h, r));
    RevokedAreAffected(h, r);
    RoutesAreClosed(h, told, Affected(h, r), r);
    forall id | id in h.backends
      ensures BackendHears(h, k, h.backends[id].socket, if About(s, r, id) then [AuthorizationRevoked(r.accountId, r.deviceId)] else [])
    {
      InformedIff(h, s, r, id);
      InformedHears(h, Informed(h, s, r, {}), AuthorizationRevoked(r.accountId, r.deviceId), h.backends[id].socket);
    }
  }

  lemma RevokedAreAffected(h: Hub, r: TrustModel.RevocationResult)
    requires HubInv(h)
    ensures forall b | b in h.browserRoutes :: h.browserRoutes[b].connectionId in Affected(h, r) <==> Revoked(r, h.browserRoutes[b])
  {
    forall b | b in h.browserRoutes ensures h.browserRoutes[b].connectionId in Affected(h, r) <==> Revoked(r, h.browserRoutes[b]) {
      assert BrowserOk(h, b);
    }
  }

  lemma InformedHears(h: Hub, sockets: set<BackendSocket>, m: BackendMessage, socket: BackendSocket)
    ensures BackendHears(h, TellBackends(h, sockets, m), socket, if socket in sockets then [m] else [])
  {
    assert LogOf(h.backendLog, socket) + [] == LogOf(h.backendLog, socket);
  }

  /** The routes with these ids go, and the browsers that have them hear of it. */
  lemma RoutesAreClosed(h: Hub, told: Hub, ids: set<Id>, r: TrustModel.RevocationResult)
    requires told == h.(backendLog := told.backendLog) && ids == Affected(h, r)
    requires forall b | b in h.browserRoutes :: h.browserRoutes[b].connectionId in ids <==> Revoked(r, h.browserRoutes[b])
    ensures var k := CloseRoutes(told, ids);
            && k.backends == h.backends && k.handshakes == h.handshakes && k.pairings == h.pairings && k.openBrowsers == h.openBrowsers
            && k.backendLog == told.backendLog
            && (forall c :: c in k.routes <==> c in h.routes && !Revoked(r, h.routes[c]))
            && (forall c | c in k.routes :: k.routes[c] == h.routes[c])
            && (forall b :: BrowserHears(h, k, b, if b in h.browserRoutes && Revoked(r, h.browserRoutes[b])
                                                  then [ConnectionClosed(h.browserRoutes[b].connectionId)] else []))
  {
    forall b ensures LogOf(h.browserLog, b) + [] == LogOf(h.browserLog, b) {}
  }

  lemma InformedIff(h: Hub, s: TrustModel.State, r: TrustModel.RevocationResult, id: Id)
    requires HubInv(h) && id in h.backends
    ensures h.backends[id].socket in Informed(h, s, r, {}) <==> About(s, r, id)
  {
    forall other | other in h.backends && h.backends[other].socket == h.backends[id].socket ensures other == id {
      assert BackendOk(h, other) && BackendOk(h, id);
    }
    if About(s, r, id) { assert Concerns(s, r, id); }
  }
}
