/**
 The hub's maps always agree, and each browser hears only of the connection last announced to it.
 */
module HubInvariants {
  import opened Wrappers
  import opened TrustProtocol
  import TrustModel
  import opened HubModel

  // ---- What a browser hears ------------------------------------------------------------------

  /** The connection last announced in the log and not closed since. */
  function Announced(log: seq<BrowserMessage>): Option<Id> {
    if log == [] then None else
    match log[|log| - 1]
    case BackendConnected(_, id) => Some(id)
    case ConnectionClosed(_) => None
    case _ => Announced(log[..|log| - 1])
  }

  /** Every signal, binding and close names the connection that is announced at that point. */
  predicate Coherent(log: seq<BrowserMessage>) {
    log == [] ||
    (var before := log[..|log| - 1];
     && Coherent(before)
     && match log[|log| - 1]
        case SignalFromBackend(id, _) => Announced(before) == Some(id)
        case ConnectionBinding(id, _) => Announced(before) == Some(id)
        case ConnectionClosed(id) => Announced(before) == Some(id)
        case _ => true)
  }

  lemma LogGrows(log: seq<BrowserMessage>, m: BrowserMessage)
    ensures Announced(log + [m]) == match m case BackendConnected(_, id) => Some(id) case ConnectionClosed(_) => None case _ => Announced(log)
    ensures Coherent(log + [m]) <==> Coherent(log) && match m
              case SignalFromBackend(id, _) => Announced(log) == Some(id)
              case ConnectionBinding(id, _) => Announced(log) == Some(id)
              case ConnectionClosed(id) => Announced(log) == Some(id)
              case _ => true
  {
    assert (log + [m])[..|log|] == log;
  }

  // ---- The invariant -------------------------------------------------------------------------

  ghost predicate RouteOk(h: Hub, id: Id)
    requires id in h.routes
  {
    var r := h.routes[id];
    && r.connectionId == id && r.claims.connectionId == id
    && r.claims.backendId == r.backendId && r.backendId in h.backends
    && r.browser in h.browserRoutes && h.browserRoutes[r.browser] == r
  }

  ghost predicate BrowserOk(h: Hub, b: BrowserSocket)
    requires b in h.browserRoutes
  {
    var r := h.browserRoutes[b];
    && r.browser == b && r.connectionId in h.routes && h.routes[r.connectionId] == r
    && (b in h.openBrowsers ==> Announced(LogOf(h.browserLog, b)) == Some(r.connectionId))
  }

  ghost predicate BackendOk(h: Hub, id: Id)
    requires id in h.backends
  {
    var backend := h.backends[id];
    && backend.backendId == id
    && backend.socket in h.handshakes && h.handshakes[backend.socket].registered == Some(backend)
  }

  ghost predicate LogOk(h: Hub, b: BrowserSocket)
    requires b in h.browserLog
  {
    Coherent(h.browserLog[b])
  }

  ghost predicate HubInv(h: Hub) {
    && (forall id {:trigger RouteOk(h, id)} | id in h.routes :: RouteOk(h, id))
    && (forall b {:trigger BrowserOk(h, b)} | b in h.browserRoutes :: BrowserOk(h, b))
    && (forall id {:trigger BackendOk(h, id)} | id in h.backends :: BackendOk(h, id))
    && (forall b {:trigger LogOk(h, b)} | b in h.browserLog :: LogOk(h, b))
  }

  /** The two route maps are inverse bijections, and every route leads to a registered backend. */
  lemma RouteMapsAreInverse(h: Hub)
    requires HubInv(h)
    ensures forall id | id in h.routes ::
              h.routes[id].browser in h.browserRoutes && h.browserRoutes[h.routes[id].browser] == h.routes[id]
    ensures forall b | b in h.browserRoutes ::
              h.browserRoutes[b].connectionId in h.routes && h.routes[h.browserRoutes[b].connectionId] == h.browserRoutes[b]
    ensures forall id | id in h.routes :: h.routes[id].connectionId == id && h.routes[id].backendId in h.backends
    ensures forall b | b in h.browserRoutes :: h.browserRoutes[b].browser == b
    ensures forall id, id' | id in h.routes && id' in h.routes && h.routes[id].browser == h.routes[id'].browser :: id == id'
  {
    forall id | id in h.routes ensures RouteOk(h, id) {}
    forall b | b in h.browserRoutes ensures BrowserOk(h, b) {}
  }

  // ---- How the routes may change -------------------------------------------------------------

  /** No route appears, and those that stay keep their claims. */
  ghost predicate RoutesShrink(h: Hub, k: Hub) {
    forall id {:trigger id in k.routes} | id in k.routes ::
      id in h.routes && k.routes[id].claims == h.routes[id].claims && k.routes[id].backendId == h.routes[id].backendId
  }

  // ---- Primitive changes keep the invariant --------------------------------------------------

  /** What the invariant reads; the rest can change freely. */
  ghost predicate SameRouting(h: Hub, k: Hub) {
    && k.routes == h.routes && k.browserRoutes == h.browserRoutes && k.backends == h.backends
    && k.openBrowsers <= h.openBrowsers && k.browserLog == h.browserLog
    && forall s | s in h.handshakes && h.handshakes[s].registered.Some? :: s in k.handshakes && k.handshakes[s] == h.handshakes[s]
  }

  lemma SameRoutingKeeps(h: Hub, k: Hub)
    requires HubInv(h) && SameRouting(h, k)
    ensures HubInv(k) && RoutesShrink(h, k)
  {
    forall id | id in k.routes ensures RouteOk(k, id) { assert RouteOk(h, id); }
    forall b | b in k.browserRoutes ensures BrowserOk(k, b) { assert BrowserOk(h, b); }
    forall id | id in k.backends ensures BackendOk(k, id) { assert BackendOk(h, id); }
    forall b | b in k.browserLog ensures LogOk(k, b) { assert LogOk(h, b); }
  }

  /** What a backend is told, and which pairings are open, does not matter to the routing. */
  lemma TellIsSame(h: Hub, k: Hub, socket: BackendSocket, m: BackendMessage)
    requires SameRouting(h, k)
    ensures SameRouting(h, TellBackend(k, socket, m))
  {
  }

  lemma PairingsAreSame(h: Hub, pairings: map<Id, ActivePairing>)
    ensures SameRouting(h, h.(pairings := pairings))
  {
  }

  lemma TellBackendKeeps(h: Hub, socket: BackendSocket, m: BackendMessage)
    requires HubInv(h)
    ensures HubInv(TellBackend(h, socket, m)) && RoutesShrink(h, TellBackend(h, socket, m))
  {
    TellIsSame(h, h, socket, m);
    SameRoutingKeeps(h, TellBackend(h, socket, m));
  }

  lemma TellBrowserKeeps(h: Hub, socket: BrowserSocket, m: BrowserMessage)
    requires HubInv(h)
    requires match m
             case BackendConnected(_, _) => false
             case ConnectionClosed(_) => false
             case BrowserError(_, _) => true
             case _ => socket in h.browserRoutes && h.browserRoutes[socket].connectionId == m.connectionId
    ensures HubInv(TellBrowser(h, socket, m))
  {
    var k := TellBrowser(h, socket, m);
    if socket in h.openBrowsers {
      LogGrows(LogOf(h.browserLog, socket), m);
      if socket in h.browserRoutes { assert BrowserOk(h, socket); }
      if socket in h.browserLog { assert LogOk(h, socket); }
    }
    forall id | id in k.routes ensures RouteOk(k, id) { assert RouteOk(h, id); }
    forall b | b in k.browserRoutes ensures BrowserOk(k, b) { assert BrowserOk(h, b); }
    forall id | id in k.backends ensures BackendOk(k, id) { assert BackendOk(h, id); }
    forall b | b in k.browserLog ensures LogOk(k, b) { if b in h.browserLog { assert LogOk(h, b); } }
  }

  lemma CloseRoutesKeeps(h: Hub, ids: set<Id>)
    requires HubInv(h)
    ensures HubInv(CloseRoutes(h, ids)) && RoutesShrink(h, CloseRoutes(h, ids))
  {
    var k := CloseRoutes(h, ids);
    forall id | id in k.routes ensures RouteOk(k, id) { assert RouteOk(h, id); }
    forall b | b in k.browserRoutes ensures BrowserOk(k, b) { assert BrowserOk(h, b); }
    forall id | id in k.backends ensures BackendOk(k, id) { assert BackendOk(h, id); }
    forall b | b in k.browserLog ensures LogOk(k, b) {
      if b in h.browserLog { assert LogOk(h, b); }
      if b in h.browserRoutes {
        assert BrowserOk(h, b);
        LogGrows(LogOf(h.browserLog, b), ConnectionClosed(h.browserRoutes[b].connectionId));
      }
    }
  }

  lemma RemoveRouteKeeps(h: Hub, b: BrowserSocket)
    requires HubInv(h) && b in h.browserRoutes
    ensures var k := RemoveRoute(h, h.browserRoutes[b]);
            HubInv(k) && RoutesShrink(h, k) && b !in k.browserRoutes && k.routes.Keys <= h.routes.Keys
  {
    var k := RemoveRoute(h, h.browserRoutes[b]);
    assert BrowserOk(h, b);
    forall id | id in k.routes ensures RouteOk(k, id) { assert RouteOk(h, id); }
    forall c | c in k.browserRoutes ensures BrowserOk(k, c) { assert BrowserOk(h, c); }
    forall id | id in k.backends ensures BackendOk(k, id) { assert BackendOk(h, id); }
    forall c | c in k.browserLog ensures LogOk(k, c) { assert LogOk(h, c); }
  }

  lemma PutRouteKeeps(h: Hub, r: Route)
    requires HubInv(h) && r.connectionId in h.routes
    requires r.browser == h.routes[r.connectionId].browser && r.backendId == h.routes[r.connectionId].backendId
    requires r.claims.connectionId == r.connectionId && r.claims.backendId == r.backendId
    ensures HubInv(PutRoute(h, r))
    ensures r.claims == h.routes[r.connectionId].claims ==> RoutesShrink(h, PutRoute(h, r))
  {
    var k := PutRoute(h, r);
    assert RouteOk(h, r.connectionId);
    forall id | id in k.routes ensures RouteOk(k, id) { assert RouteOk(h, id); }
    forall b | b in k.browserRoutes ensures BrowserOk(k, b) { assert BrowserOk(h, b); }
    forall id | id in k.backends ensures BackendOk(k, id) { assert BackendOk(h, id); }
    forall b | b in k.browserLog ensures LogOk(k, b) { assert LogOk(h, b); }
  }

  lemma InstallRouteKeeps(h: Hub, socket: BrowserSocket, backendId: Id, claims: Claims)
    requires HubInv(h) && backendId in h.backends && socket !in h.browserRoutes && claims.connectionId !in h.routes
    requires claims.backendId == backendId
    ensures HubInv(InstallRoute(h, socket, backendId, claims))
  {
    InstalledRoute(h, socket, backendId, claims);
    RoutesAfterInstall(h, InstallRoute(h, socket, backendId, claims),
                       Route(claims.connectionId, backendId, socket, claims, claims, None, None));
  }

  lemma InstalledRoute(h: Hub, socket: BrowserSocket, backendId: Id, claims: Claims)
    requires backendId in h.backends
    ensures var k := InstallRoute(h, socket, backendId, claims);
            var r := Route(claims.connectionId, backendId, socket, claims, claims, None, None);
            && k.routes == h.routes[claims.connectionId := r] && k.browserRoutes == h.browserRoutes[socket := r]
            && k.backends == h.backends && k.handshakes == h.handshakes && k.openBrowsers == h.openBrowsers
            && k.browserLog == TellBrowser(h, socket, BackendConnected(backendId, claims.connectionId)).browserLog
  {
    var r := Route(claims.connectionId, backendId, socket, claims, claims, None, None);
    var asked := TellBackend(PutRoute(h, r), h.backends[backendId].socket, ConnectionRequest(r.connectionId, claims));
    assert asked == PutRoute(h, r).(backendLog := asked.backendLog);
  }

  lemma RoutesAfterInstall(h: Hub, k: Hub, r: Route)
    requires HubInv(h) && r.browser !in h.browserRoutes && r.connectionId !in h.routes && r.backendId in h.backends
    requires r.claims.connectionId == r.connectionId && r.claims.backendId == r.backendId
    requires k.routes == h.routes[r.connectionId := r] && k.browserRoutes == h.browserRoutes[r.browser := r]
    requires k.backends == h.backends && k.handshakes == h.handshakes && k.openBrowsers == h.openBrowsers
    requires k.browserLog == TellBrowser(h, r.browser, BackendConnected(r.backendId, r.connectionId)).browserLog
    ensures HubInv(k)
  {
    forall id | id in k.routes ensures RouteOk(k, id) { if id in h.routes { assert RouteOk(h, id); } }
    forall b | b in k.browserRoutes ensures BrowserOk(k, b) { InstalledBrowser(h, k, r, b); }
    forall id | id in k.backends ensures BackendOk(k, id) { assert BackendOk(h, id); }
    forall b | b in k.browserLog ensures LogOk(k, b) { InstalledLog(h, k, r, b); }
  }

  lemma InstalledBrowser(h: Hub, k: Hub, r: Route, b: BrowserSocket)
    requires HubInv(h) && r.browser !in h.browserRoutes && r.connectionId !in h.routes
    requires k.routes == h.routes[r.connectionId := r] && k.browserRoutes == h.browserRoutes[r.browser := r]
    requires k.openBrowsers == h.openBrowsers && b in k.browserRoutes
    requires k.browserLog == TellBrowser(h, r.browser, BackendConnected(r.backendId, r.connectionId)).browserLog
    ensures BrowserOk(k, b)
  {
    if b == r.browser {
      LogGrows(LogOf(h.browserLog, b), BackendConnected(r.backendId, r.connectionId));
    } else {
      assert BrowserOk(h, b);
    }
  }

  lemma InstalledLog(h: Hub, k: Hub, r: Route, b: BrowserSocket)
    requires HubInv(h) && b in k.browserLog
    requires k.browserLog == TellBrowser(h, r.browser, BackendConnected(r.backendId, r.connectionId)).browserLog
    ensures LogOk(k, b)
  {
    if b in h.browserLog { assert LogOk(h, b); }
    if b == r.browser { LogGrows(LogOf(h.browserLog, b), BackendConnected(r.backendId, r.connectionId)); }
  }

  /** Closing one route the long way is closing the set of that one route. */
  lemma CloseOne(h: Hub, r: Route)
    requires HubInv(h) && r.connectionId in h.routes && h.routes[r.connectionId] == r
    ensures TellBrowser(RemoveRoute(h, r), r.browser, ConnectionClosed(r.connectionId)) == CloseRoutes(h, {r.connectionId})
  {
    assert RouteOk(h, r.connectionId);
    forall b | b in h.browserRoutes && h.browserRoutes[b].connectionId == r.connectionId ensures b == r.browser {
      assert BrowserOk(h, b);
    }
    var k := TellBrowser(RemoveRoute(h, r), r.browser, ConnectionClosed(r.connectionId));
    assert k.browserRoutes == CloseRoutes(h, {r.connectionId}).browserRoutes;
    assert k.browserLog == CloseRoutes(h, {r.connectionId}).browserLog;
  }

  // ---- Each hub operation keeps the invariant ------------------------------------------------

  lemma DropPreviousKeeps(h: Hub, socket: BrowserSocket)
    requires HubInv(h)
    ensures var k := DropPrevious(h, socket);
            && HubInv(k) && RoutesShrink(h, k) && socket !in k.browserRoutes && k.routes.Keys <= h.routes.Keys
            && k.backends == h.backends
  {
    if socket in h.browserRoutes {
      RemoveRouteKeeps(h, socket);
      SameRoutingKeeps(RemoveRoute(h, h.browserRoutes[socket]), DropPrevious(h, socket));
    }
  }

  lemma DropDeadPairingKeeps(h: Hub, pairId: Id, now: Millis)
    requires HubInv(h)
    ensures HubInv(DropDeadPairing(h, pairId, now)) && RoutesShrink(h, DropDeadPairing(h, pairId, now))
  {
    SameRoutingKeeps(h, DropDeadPairing(h, pairId, now));
  }

  lemma NotifyRevocationKeeps(h: Hub, s: TrustModel.State, r: TrustModel.RevocationResult)
    requires HubInv(h)
    ensures HubInv(NotifyRevocation(h, s, r)) && RoutesShrink(h, NotifyRevocation(h, s, r))
  {
    var told := TellBackends(h, Informed(h, s, r, {}), AuthorizationRevoked(r.accountId, r.deviceId));
    SameRoutingKeeps(h, told);
    CloseRoutesKeeps(told, Affected(h, r));
  }

  /** A registration that goes leaves no route behind, so the others stay in order. */
  lemma RemoveRegisteredBackendKeeps(h: Hub, backend: RegisteredBackend)
    requires HubInv(h) && backend.backendId in h.backends && h.backends[backend.backendId] == backend
    ensures var k := RemoveRegisteredBackend(h, backend);
            && HubInv(k) && RoutesShrink(h, k) && k.backends == h.backends - {backend.backendId}
            && (forall id | id in k.routes :: k.routes[id].backendId != backend.backendId)
  {
    var closed := CloseRoutes(h, RoutesTo(h, backend.backendId));
    CloseRoutesKeeps(h, RoutesTo(h, backend.backendId));
    var k := RemoveRegisteredBackend(h, backend);
    assert k.routes == closed.routes && k.browserRoutes == closed.browserRoutes && k.browserLog == closed.browserLog;
    forall id | id in k.routes ensures RouteOk(k, id) { assert RouteOk(closed, id); }
    forall b | b in k.browserRoutes ensures BrowserOk(k, b) { assert BrowserOk(closed, b); }
    forall id | id in k.backends ensures BackendOk(k, id) { assert BackendOk(h, id); }
    forall b | b in k.browserLog ensures LogOk(k, b) { assert LogOk(closed, b); }
  }

  lemma AcceptBackendKeeps(h: Hub, socket: BackendSocket, nonce: Id)
    requires HubInv(h) && socket !in h.handshakes
    ensures HubInv(AcceptBackend(h, socket, nonce)) && RoutesShrink(h, AcceptBackend(h, socket, nonce))
  {
    SameRoutingKeeps(h, AcceptBackend(h, socket, nonce));
  }

  lemma RefuseBackendKeeps(h: Hub, socket: BackendSocket, code: ErrorCode)
    requires HubInv(h)
    ensures HubInv(RefuseBackend(h, socket, code)) && RoutesShrink(h, RefuseBackend(h, socket, code))
  {
    var told := TellBackend(h, socket, BackendError(code, None));
    TellIsSame(h, h, socket, BackendError(code, None));
    SameRoutingKeeps(h, told.(openBackends := told.openBackends - {socket}));
  }

  lemma RegisterBackendKeeps(
    cfg: HubConfig, h: Hub, s: TrustModel.State, socket: BackendSocket, publicKey: PublicKey, signatureValid: bool)
    requires HubInv(h) && socket in h.handshakes && h.handshakes[socket].registered.None?
    ensures var k := RegisterBackend(cfg, h, s, socket, publicKey, signatureValid); HubInv(k) && RoutesShrink(h, k)
  {
    if !signatureValid {
      RefuseBackendKeeps(h, socket, UnauthorizedConnection);
    } else if cfg.deriveBackendId(publicKey).None? {
      RefuseBackendKeeps(h, socket, InvalidMessage);
    } else {
      var k := RegisterBackend(cfg, h, s, socket, publicKey, true);
      var id := cfg.deriveBackendId(publicKey).value;
      ReplacePreviousKeeps(h, id, socket);
      var h1 := ReplacePrevious(h, id, socket);
      var registered := RegisteredBackend(id, publicKey, socket);
      EnrollKeeps(h1, registered);
      AfterEnrolment(cfg, h, s, socket, publicKey);
      SameRoutingKeeps(Enroll(h1, registered), k);
    }
  }

  lemma AfterEnrolment(cfg: HubConfig, h: Hub, s: TrustModel.State, socket: BackendSocket, publicKey: PublicKey)
    requires socket in h.handshakes && cfg.deriveBackendId(publicKey).Some?
    ensures var id := cfg.deriveBackendId(publicKey).value;
            SameRouting(Enroll(ReplacePrevious(h, id, socket), RegisteredBackend(id, publicKey, socket)),
                        RegisterBackend(cfg, h, s, socket, publicKey, true))
  {
  }

  lemma ReplacePreviousKeeps(h: Hub, id: Id, socket: BackendSocket)
    requires HubInv(h) && socket in h.handshakes && h.handshakes[socket].registered.None?
    ensures var k := ReplacePrevious(h, id, socket);
            HubInv(k) && RoutesShrink(h, k) && id !in k.backends && k.handshakes == h.handshakes
  {
    if id in h.backends {
      assert BackendOk(h, id);
      RemoveRegisteredBackendKeeps(h, h.backends[id]);
      SameRoutingKeeps(RemoveRegisteredBackend(h, h.backends[id]), ReplacePrevious(h, id, socket));
    }
  }

  lemma EnrollKeeps(h: Hub, registered: RegisteredBackend)
    requires HubInv(h) && registered.socket in h.handshakes && h.handshakes[registered.socket].registered.None?
    requires registered.backendId !in h.backends
    ensures HubInv(Enroll(h, registered)) && RoutesShrink(h, Enroll(h, registered))
  {
    var k := Enroll(h, registered);
    forall i | i in k.routes ensures RouteOk(k, i) { assert RouteOk(h, i); }
    forall b | b in k.browserRoutes ensures BrowserOk(k, b) { assert BrowserOk(h, b); }
    forall i | i in k.backends ensures BackendOk(k, i) { if i in h.backends { assert BackendOk(h, i); } }
    forall b | b in k.browserLog ensures LogOk(k, b) { assert LogOk(h, b); }
  }

  lemma OpenPairingKeeps(h: Hub, backend: RegisteredBackend, pairId: Id, expiresAt: Millis, now: Millis)
    requires HubInv(h)
    ensures var k := OpenPairing(h, backend, pairId, expiresAt, now); HubInv(k) && RoutesShrink(h, k)
  {
    OpenPairingSame(h, backend, pairId, expiresAt, now);
    SameRoutingKeeps(h, OpenPairing(h, backend, pairId, expiresAt, now));
  }

  lemma OpenPairingSame(h: Hub, backend: RegisteredBackend, pairId: Id, expiresAt: Millis, now: Millis)
    ensures SameRouting(h, OpenPairing(h, backend, pairId, expiresAt, now))
  {
    if expiresAt <= now || expiresAt > now + MAX_PAIRING_LIFETIME_MS {
      TellIsSame(h, h, backend.socket, BackendError(InvalidPairing, None));
    } else {
      var h1, existing := DropDeadPairing(h, pairId, now), OpenPairingOf(h, pairId, now);
      assert h1 == h.(pairings := h1.pairings);
      PairingsAreSame(h, h1.pairings);
      if existing.Some? && existing.value.backendId != backend.backendId {
        TellIsSame(h, h1, backend.socket, BackendError(InvalidPairing, None));
      } else {
        var pairings := h1.pairings[pairId := ActivePairing(pairId, backend.backendId, expiresAt)];
        PairingsAreSame(h, pairings);
        TellIsSame(h, h.(pairings := pairings), backend.socket, PairingOpened(pairId, expiresAt));
      }
    }
  }

  lemma RelayBackendSignalKeeps(h: Hub, backend: RegisteredBackend, id: Id, signal: Signal)
    requires HubInv(h)
    ensures var k := RelayBackendSignal(h, backend, id, signal); HubInv(k) && RoutesShrink(h, k)
  {
    if RouteForBackend(h, backend, id).None? {
      TellBackendKeeps(h, backend.socket, BackendError(UnauthorizedConnection, Some(id)));
    } else {
      RelayAnswerKeeps(h, backend, id, signal);
    }
  }

  lemma RelayAnswerKeeps(h: Hub, backend: RegisteredBackend, id: Id, signal: Signal)
    requires HubInv(h) && id in h.routes
    ensures var k := RelayAnswer(h, backend, h.routes[id], signal); HubInv(k) && RoutesShrink(h, k)
  {
    var route := h.routes[id];
    assert RouteOk(h, id);
    if signal.Description? && signal.isOffer {
      TellBackendKeeps(h, backend.socket, BackendError(InvalidMessage, Some(id)));
    } else if signal.Description? {
      PutRouteKeeps(h, route.(answerSdp := Some(signal.sdp)));
      TellBrowserKeeps(PutRoute(h, route.(answerSdp := Some(signal.sdp))), route.browser, SignalFromBackend(id, signal));
    } else {
      TellBrowserKeeps(h, route.browser, SignalFromBackend(id, signal));
    }
  }

  lemma CloseFromBackendKeeps(h: Hub, backend: RegisteredBackend, id: Id)
    requires HubInv(h)
    ensures var k := CloseFromBackend(h, backend, id); HubInv(k) && RoutesShrink(h, k)
  {
    if RouteForBackend(h, backend, id).None? {
      SameRoutingKeeps(h, CloseFromBackend(h, backend, id));
    } else {
      assert RouteOk(h, id);
      CloseOne(h, h.routes[id]);
      CloseRoutesKeeps(h, {id});
    }
  }

  lemma RelayBackendBindingKeeps(cfg: HubConfig, h: Hub, backend: RegisteredBackend, id: Id, b: Binding)
    requires HubInv(h)
    ensures var k := RelayBackendBinding(cfg, h, backend, id, b); HubInv(k) && RoutesShrink(h, k)
  {
    if RouteForBackend(h, backend, id).None? {
      TellBackendKeeps(h, backend.socket, BackendError(UnauthorizedConnection, Some(id)));
    } else if BindingMatches(cfg, h.routes[id], backend, id, b) {
      assert RouteOk(h, id);
      TellBrowserKeeps(h, h.routes[id].browser, ConnectionBinding(id, b));
    } else {
      var told := TellBackend(h, backend.socket, BackendError(InvalidMessage, Some(id)));
      TellBackendKeeps(h, backend.socket, BackendError(InvalidMessage, Some(id)));
      CloseFromBackendKeeps(told, backend, id);
    }
  }

  lemma RemoveBackendSocketKeeps(h: Hub, socket: BackendSocket)
    requires HubInv(h)
    ensures HubInv(RemoveBackendSocket(h, socket)) && RoutesShrink(h, RemoveBackendSocket(h, socket))
  {
    if socket in h.handshakes {
      var k := RemoveBackendSocket(h, socket);
      forall id | id in h.backends && h.backends[id].socket == socket ensures h.handshakes[socket].registered == Some(h.backends[id]) && h.backends[id].backendId == id {
        assert BackendOk(h, id);
      }
      var registered := h.handshakes[socket].registered;
      if registered.Some? && registered.value.backendId in h.backends && h.backends[registered.value.backendId].socket == socket {
        RemoveRegisteredBackendKeeps(h, registered.value);
        SettleSocket(RemoveRegisteredBackend(h, registered.value), k, socket);
      } else {
        SettleSocket(h, k, socket);
      }
    }
  }

  /** A handshake that no registration uses can go. */
  lemma SettleSocket(h: Hub, k: Hub, socket: BackendSocket)
    requires HubInv(h) && k == h.(handshakes := h.handshakes - {socket})
    requires forall id | id in h.backends :: h.backends[id].socket != socket
    ensures HubInv(k) && RoutesShrink(h, k)
  {
    forall id | id in k.routes ensures RouteOk(k, id) { assert RouteOk(h, id); }
    forall b | b in k.browserRoutes ensures BrowserOk(k, b) { assert BrowserOk(h, b); }
    forall id | id in k.backends ensures BackendOk(k, id) { assert BackendOk(h, id); }
    forall b | b in k.browserLog ensures LogOk(k, b) { assert LogOk(h, b); }
  }

  lemma RouteCommandKeeps(h: Hub, store: TrustModel.Store, socket: BrowserSocket, command: BrowserCommand, now: Millis)
    requires HubInv(h) && !command.ConnectCommand?
    ensures var k := HandleBrowserCommand(h, store, socket, command, now).0; HubInv(k) && RoutesShrink(h, k)
  {
    if socket !in h.browserRoutes || h.browserRoutes[socket].connectionId != command.connectionId {
      TellBrowserKeeps(h, socket, BrowserError(UnauthorizedConnection, Some(command.connectionId)));
    } else if !IsBackendOnline(h, h.browserRoutes[socket].backendId) {
      BackendOfflineKeeps(h, store, socket, command, now);
    } else if command.BrowserCloseCommand? {
      BrowserCloseKeeps(h, store, socket, command, now);
    } else {
      BrowserSignalKeeps(h, store, socket, command, now);
    }
  }

  lemma BackendOfflineKeeps(h: Hub, store: TrustModel.Store, socket: BrowserSocket, command: BrowserCommand, now: Millis)
    requires HubInv(h) && !command.ConnectCommand?
    requires socket in h.browserRoutes && h.browserRoutes[socket].connectionId == command.connectionId
    requires !IsBackendOnline(h, h.browserRoutes[socket].backendId)
    ensures var k := HandleBrowserCommand(h, store, socket, command, now).0; HubInv(k) && RoutesShrink(h, k)
  {
    RemoveRouteKeeps(h, socket);
    TellBrowserKeeps(RemoveRoute(h, h.browserRoutes[socket]), socket, BrowserError(BackendOffline, Some(command.connectionId)));
  }

  lemma BrowserCloseKeeps(h: Hub, store: TrustModel.Store, socket: BrowserSocket, command: BrowserCommand, now: Millis)
    requires HubInv(h) && command.BrowserCloseCommand?
    requires socket in h.browserRoutes && h.browserRoutes[socket].connectionId == command.connectionId
    requires IsBackendOnline(h, h.browserRoutes[socket].backendId)
    ensures var k := HandleBrowserCommand(h, store, socket, command, now).0; HubInv(k) && RoutesShrink(h, k)
  {
    RemoveRouteKeeps(h, socket);
    SameRoutingKeeps(RemoveRoute(h, h.browserRoutes[socket]), HandleBrowserCommand(h, store, socket, command, now).0);
  }

  lemma BrowserSignalKeeps(h: Hub, store: TrustModel.Store, socket: BrowserSocket, command: BrowserCommand, now: Millis)
    requires HubInv(h) && command.BrowserSignalCommand?
    requires socket in h.browserRoutes && h.browserRoutes[socket].connectionId == command.connectionId
    requires IsBackendOnline(h, h.browserRoutes[socket].backendId)
    ensures var k := HandleBrowserCommand(h, store, socket, command, now).0; HubInv(k) && RoutesShrink(h, k)
  {
    var k := HandleBrowserCommand(h, store, socket, command, now).0;
    assert BrowserOk(h, socket) && RouteOk(h, command.connectionId);
    if command.signal.Description? && !command.signal.isOffer {
      TellBrowserKeeps(h, socket, BrowserError(InvalidMessage, Some(command.connectionId)));
    } else if command.signal.Description? {
      var r := h.browserRoutes[socket].(offerSdp := Some(command.signal.sdp));
      PutRouteKeeps(h, r);
      SameRoutingKeeps(PutRoute(h, r), k);
    } else {
      SameRoutingKeeps(h, k);
    }
  }
}
