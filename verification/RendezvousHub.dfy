/**
 The hub as the program runs it. A route is one object, reachable from two maps; handlers update
 the maps and the routes in place. Each method is proved against the function of the same name
 in `HubModel`.
 */
module RendezvousHub {
  import opened Wrappers
  import opened TrustProtocol
  import TrustModel
  import TrustStore
  import Model = HubModel
  import opened HubModel

  // ---- One element more ----------------------------------------------------------------------

  lemma CloseNone(h: Hub)
    ensures CloseRoutes(h, {}) == h
  {
    assert ClosedLog(h, {}) == h.browserLog;
    assert CloseRoutes(h, {}).browserRoutes == h.browserRoutes;
  }

  /** `r` is the only route of its browser and under its connection id. */
  ghost predicate Alone(h: Hub, r: Route) {
    && r.connectionId in h.routes && h.routes[r.connectionId] == r
    && r.browser in h.browserRoutes && h.browserRoutes[r.browser] == r
    && (forall b | b in h.browserRoutes && h.browserRoutes[b].connectionId == r.connectionId :: b == r.browser)
  }

  /** Closing one more route, after those in `done`, by removing it and telling its browser. */
  lemma CloseOneMore(h: Hub, done: set<Id>, r: Route)
    requires Alone(h, r) && r.connectionId !in done
    ensures TellBrowser(Model.RemoveRoute(CloseRoutes(h, done), r), r.browser, ConnectionClosed(r.connectionId))
         == CloseRoutes(h, done + {r.connectionId})
  {
    var removed := Model.RemoveRoute(CloseRoutes(h, done), r);
    RemoveOneMore(h, done, r);
    LogOneMore(h, done, r);
    var next := CloseRoutes(h, done + {r.connectionId});
    assert next == removed.(browserLog := next.browserLog);
  }

  /** The same, seen from the routes that are still to be closed. */
  lemma CloseNext(h: Hub, ids: set<Id>, left: set<Id>, id: Id)
    requires id in left && left <= ids && id in h.routes && h.routes[id].connectionId == id && Alone(h, h.routes[id])
    ensures var k, r := CloseRoutes(h, ids - left), h.routes[id];
            && id in k.routes && k.routes[id] == r
            && TellBrowser(Model.RemoveRoute(k, r), r.browser, ConnectionClosed(id)) == CloseRoutes(h, ids - (left - {id}))
  {
    CloseOneMore(h, ids - left, h.routes[id]);
    assert ids - (left - {id}) == ids - left + {id};
  }

  lemma RemoveOneMore(h: Hub, done: set<Id>, r: Route)
    requires Alone(h, r) && r.connectionId !in done
    ensures var removed := Model.RemoveRoute(CloseRoutes(h, done), r);
            && removed == CloseRoutes(h, done).(routes := removed.routes, browserRoutes := removed.browserRoutes)
            && removed.routes == h.routes - (done + {r.connectionId})
            && removed.browserRoutes == CloseRoutes(h, done + {r.connectionId}).browserRoutes
  {
    assert r.browser in CloseRoutes(h, done).browserRoutes;
  }

  lemma LogOneMore(h: Hub, done: set<Id>, r: Route)
    requires Alone(h, r) && r.connectionId !in done
    ensures TellBrowser(CloseRoutes(h, done), r.browser, ConnectionClosed(r.connectionId)).browserLog
         == ClosedLog(h, done + {r.connectionId})
  {
    var all := BrowsersOf(h, done + {r.connectionId});
    if r.browser in h.openBrowsers {
      assert all == BrowsersOf(h, done) + {r.browser};
      assert LogOf(ClosedLog(h, done), r.browser) == LogOf(h.browserLog, r.browser);
    } else {
      assert all == BrowsersOf(h, done);
    }
  }

  lemma TellNone(h: Hub, m: BackendMessage)
    ensures TellBackends(h, {}, m) == h
  {
    assert TellBackends(h, {}, m).backendLog == h.backendLog;
  }

  /** Telling one more socket, after those in `done`. */
  lemma TellOneMore(h: Hub, done: set<BackendSocket>, socket: BackendSocket, m: BackendMessage)
    requires socket !in done
    ensures TellBackend(TellBackends(h, done, m), socket, m) == TellBackends(h, done + {socket}, m)
  {
    var once, all := TellBackends(h, done, m), TellBackends(h, done + {socket}, m);
    assert LogOf(once.backendLog, socket) == LogOf(h.backendLog, socket);
    if socket in h.openBackends {
      assert once.backendLog[socket := LogOf(h.backendLog, socket) + [m]] == all.backendLog;
    } else {
      assert once.backendLog == all.backendLog;
    }
  }

  /** One backend fewer that has yet to hear of a revocation. */
  lemma InformOneMore(h: Hub, s: TrustModel.State, r: TrustModel.RevocationResult, left: set<Id>, id: Id)
    requires id in left && id in h.backends
    requires forall i | i in h.backends && h.backends[i].socket == h.backends[id].socket :: i == id
    ensures Concerns(s, r, id) ==> h.backends[id].socket !in Informed(h, s, r, left)
    ensures Informed(h, s, r, left - {id}) == Informed(h, s, r, left) + (if Concerns(s, r, id) then {h.backends[id].socket} else {})
  {
  }

  lemma InformNext(h: Hub, s: TrustModel.State, r: TrustModel.RevocationResult, left: set<Id>, id: Id, m: BackendMessage)
    requires id in left && id in h.backends
    requires forall i | i in h.backends && h.backends[i].socket == h.backends[id].socket :: i == id
    ensures var told := TellBackends(h, Informed(h, s, r, left), m);
            && TellBackends(h, Informed(h, s, r, left - {id}), m)
            == (if Concerns(s, r, id) then TellBackend(told, h.backends[id].socket, m) else told)
  {
    InformOneMore(h, s, r, left, id);
    if Concerns(s, r, id) {
      TellOneMore(h, Informed(h, s, r, left), h.backends[id].socket, m);
    } else {
      assert Informed(h, s, r, left - {id}) == Informed(h, s, r, left);
    }
  }

  lemma RoutesToIgnores(h: Hub, k: Hub, backendId: Id)
    requires k.routes == h.routes
    ensures RoutesTo(k, backendId) == RoutesTo(h, backendId)
  {
  }

  lemma AffectedIgnoresLogs(h: Hub, k: Hub, r: TrustModel.RevocationResult)
    requires k.routes == h.routes
    ensures Affected(k, r) == Affected(h, r)
  {
  }

  // ---- The classes ---------------------------------------------------------------------------

  /** A browser's route to a backend. */
  class BrowserRoute {
    const connectionId: Id
    const backendId: Id
    const browser: BrowserSocket
    const ticket: Claims
    var claims: Claims
    var offerSdp: Option<Sdp>
    var answerSdp: Option<Sdp>

    constructor (backendId: Id, browser: BrowserSocket, ticket: Claims)
      ensures Value() == Route(ticket.connectionId, backendId, browser, ticket, ticket, None, None)
    {
      this.connectionId := ticket.connectionId;
      this.backendId := backendId;
      this.browser := browser;
      this.ticket := ticket;
      claims := ticket;
      offerSdp := None;
      answerSdp := None;
    }

    function Value(): Route
      reads this
    {
      Route(connectionId, backendId, browser, ticket, claims, offerSdp, answerSdp)
    }
  }

  class RendezvousHub {
    const cfg: HubConfig
    const trustStore: TrustStore.RendezvousTrustStore
    var handshakes: map<BackendSocket, Handshake>
    var backends: map<Id, RegisteredBackend>
    var browserRoutes: map<BrowserSocket, BrowserRoute>
    var routes: map<Id, BrowserRoute>
    var pairings: map<Id, ActivePairing>
    /** The sockets that are open, and what was sent to each. */
    var openBackends: set<BackendSocket>
    var openBrowsers: set<BrowserSocket>
    var backendLog: map<BackendSocket, seq<BackendMessage>>
    var browserLog: map<BrowserSocket, seq<BrowserMessage>>
    /** The hub as a value. */
    ghost var view: Hub

    /** The view shows the fields; both maps hold the same route objects, each under its own keys. */
    ghost predicate Linked()
      reads this, routes.Values
    {
      && view == Hub(handshakes, backends, view.browserRoutes, view.routes, pairings, openBackends, openBrowsers, backendLog, browserLog)
      && routes.Keys == view.routes.Keys && browserRoutes.Keys == view.browserRoutes.Keys
      && (forall id | id in routes ::
            && routes[id].connectionId == id && routes[id].Value() == view.routes[id]
            && routes[id].browser in browserRoutes && browserRoutes[routes[id].browser] == routes[id])
      && (forall b | b in browserRoutes ::
            && browserRoutes[b].browser == b
            && browserRoutes[b].connectionId in routes && routes[browserRoutes[b].connectionId] == browserRoutes[b]
            && view.browserRoutes[b] == view.routes[browserRoutes[b].connectionId])
    }

    /** Each registered backend is the one that its socket registered. */
    ghost predicate Enrolled()
      reads this`handshakes, this`backends
    {
      forall id | id in backends ::
        && backends[id].backendId == id
        && backends[id].socket in handshakes && handshakes[backends[id].socket].registered == Some(backends[id])
    }

    ghost predicate Valid()
      reads this, routes.Values
    {
      Linked() && Enrolled()
    }

    constructor (cfg: HubConfig, trustStore: TrustStore.RendezvousTrustStore)
      ensures this.cfg == cfg && this.trustStore == trustStore && Valid() && view == EmptyHub
    {
      this.cfg := cfg;
      this.trustStore := trustStore;
      handshakes, backends, browserRoutes, routes, pairings := map[], map[], map[], map[], map[];
      openBackends, openBrowsers, backendLog, browserLog := {}, {}, map[], map[];
      view := EmptyHub;
    }

    // ---- Sending -----------------------------------------------------------------------------

    method SendBackend(socket: BackendSocket, m: BackendMessage)
      requires Linked()
      modifies this`backendLog, this`view
      ensures Linked() && view == TellBackend(old(view), socket, m)
    {
      if socket !in openBackends { return; }
      backendLog := backendLog[socket := LogOf(backendLog, socket) + [m]];
      view := view.(backendLog := backendLog);
    }

    method SendBrowser(socket: BrowserSocket, m: BrowserMessage)
      requires Linked()
      modifies this`browserLog, this`view
      ensures Linked() && view == TellBrowser(old(view), socket, m)
    {
      if socket !in openBrowsers { return; }
      browserLog := browserLog[socket := LogOf(browserLog, socket) + [m]];
      view := view.(browserLog := browserLog);
    }

    // ---- Routes ------------------------------------------------------------------------------

    method RemoveRoute(route: BrowserRoute)
      requires Linked() && route in routes.Values
      modifies this`routes, this`browserRoutes, this`view
      ensures Linked() && view == Model.RemoveRoute(old(view), old(route.Value()))
      ensures routes == old(routes) - {route.connectionId} && browserRoutes == old(browserRoutes) - {route.browser}
    {
      ghost var gone := route.Value();
      if route.connectionId in routes && routes[route.connectionId] == route { routes := routes - {route.connectionId}; }
      if route.browser in browserRoutes && browserRoutes[route.browser] == route { browserRoutes := browserRoutes - {route.browser}; }
      view := Model.RemoveRoute(view, gone);
    }

    method SetAnswer(route: BrowserRoute, sdp: Sdp)
      requires Linked() && route in routes.Values
      modifies route`answerSdp, this`view
      ensures Linked() && view == PutRoute(old(view), old(route.Value()).(answerSdp := Some(sdp)))
    {
      route.answerSdp := Some(sdp);
      view := PutRoute(view, route.Value());
    }

    method SetOffer(route: BrowserRoute, sdp: Sdp)
      requires Linked() && route in routes.Values
      modifies route`offerSdp, this`view
      ensures Linked() && view == PutRoute(old(view), old(route.Value()).(offerSdp := Some(sdp)))
    {
      route.offerSdp := Some(sdp);
      view := PutRoute(view, route.Value());
    }

    method SetAccount(route: BrowserRoute, accountId: Id)
      requires Linked() && route in routes.Values
      modifies route`claims, this`view
      ensures Linked() && view == PutRoute(old(view), old(route.Value()).(claims := old(route.claims).(accountId := Some(accountId))))
    {
      route.claims := route.claims.(accountId := Some(accountId));
      view := PutRoute(view, route.Value());
    }

    method GetOpenPairing(pairId: Id, now: Millis) returns (pairing: Option<ActivePairing>)
      requires Linked()
      modifies this`pairings, this`view
      ensures Linked() && view == DropDeadPairing(old(view), pairId, now)
      ensures pairing == OpenPairingOf(old(view), pairId, now)
    {
      if pairId !in pairings {
        assert pairings - {pairId} == pairings;
        return None;
      }
      var found := pairings[pairId];
      var online := found.backendId in backends && backends[found.backendId].socket in openBackends;
      if found.expiresAt <= now || !online {
        pairings := pairings - {pairId};
        view := view.(pairings := pairings);
        return None;
      }
      return Some(found);
    }

    method RouteForBackend(backend: RegisteredBackend, connectionId: Id) returns (route: Option<BrowserRoute>)
      requires Linked()
      modifies this`backendLog, this`view
      ensures Linked()
      ensures route.Some? ==> connectionId in routes && routes[connectionId] == route.value
      ensures match Model.RouteForBackend(old(view), backend, connectionId)
              case None => route.None? && view == NoSuchRoute(old(view), backend, connectionId)
              case Some(r) => route.Some? && route.value.Value() == r && view == old(view)
    {
      if connectionId !in routes || routes[connectionId].backendId != backend.backendId {
        SendBackend(backend.socket, BackendError(UnauthorizedConnection, Some(connectionId)));
        return None;
      }
      return Some(routes[connectionId]);
    }

    /** Removes a route and tells its browser. */
    method CloseRoute(route: BrowserRoute)
      requires Linked() && route in routes.Values
      modifies this`routes, this`browserRoutes, this`browserLog, this`view
      ensures Linked() && routes == old(routes) - {route.connectionId}
      ensures view == TellBrowser(Model.RemoveRoute(old(view), old(route.Value())), route.browser, ConnectionClosed(route.connectionId))
    {
      RemoveRoute(route);
      SendBrowser(route.browser, ConnectionClosed(route.connectionId));
    }

    /** Closes the routes in `ids`, one after the other. */
    method EndRoutes(ids: set<Id>)
      requires Linked() && ids <= routes.Keys
      modifies this`routes, this`browserRoutes, this`browserLog, this`view
      ensures Linked() && view == CloseRoutes(old(view), ids)
    {
      ghost var before := view;
      var left := ids;
      CloseNone(before);
      RoutesAreAlone();
      assert ids - left == {};
      while left != {}
        invariant Linked() && left <= ids && left <= routes.Keys
        invariant view == CloseRoutes(before, ids - left)
        decreases left
      {
        var id :| id in left;
        CloseNext(before, ids, left, id);
        CloseRoute(routes[id]);
        left := left - {id};
      }
      assert ids - left == ids;
    }

    lemma RoutesAreAlone()
      requires Linked()
      ensures forall id | id in view.routes :: view.routes[id].connectionId == id && Alone(view, view.routes[id])
    {
    }

    method NotifyRevocation(r: TrustModel.RevocationResult)
      requires Valid()
      modifies this`routes, this`browserRoutes, this`browserLog, this`backendLog, this`view
      ensures Valid() && view == Model.NotifyRevocation(old(view), trustStore.state, r)
    {
      InformBackends(r);
      var ids := AffectedRoutes(r);
      AffectedIgnoresLogs(old(view), view, r);
      EndRoutes(ids);
    }

    method AffectedRoutes(r: TrustModel.RevocationResult) returns (ids: set<Id>)
      requires Linked()
      ensures ids == Affected(view, r) && ids <= routes.Keys
    {
      ids := set id | id in routes
                      && routes[id].claims.accountId == Some(r.accountId)
                      && (r.backendId.Some? ==> routes[id].backendId == r.backendId.value)
                      && (r.deviceId.Some? ==> routes[id].claims.deviceId == r.deviceId.value);
    }

    method InformBackends(r: TrustModel.RevocationResult)
      requires Valid()
      modifies this`backendLog, this`view
      ensures Linked()
      ensures view == TellBackends(old(view), Informed(old(view), trustStore.state, r, {}), AuthorizationRevoked(r.accountId, r.deviceId))
    {
      ghost var before := view;
      var message := AuthorizationRevoked(r.accountId, r.deviceId);
      var left := backends.Keys;
      TellNone(before, message);
      assert Informed(before, trustStore.state, r, left) == {};
      while left != {}
        invariant Linked() && left <= backends.Keys
        invariant view == TellBackends(before, Informed(before, trustStore.state, r, left), message)
        decreases left
      {
        var id :| id in left;
        InformNext(before, trustStore.state, r, left, id, message);
        if Concerns(trustStore.state, r, id) { SendBackend(backends[id].socket, message); }
        left := left - {id};
      }
    }

    method RemoveRegisteredBackend(backend: RegisteredBackend)
      requires Linked()
      modifies this`backends, this`pairings, this`routes, this`browserRoutes, this`browserLog, this`view
      ensures Linked() && view == Model.RemoveRegisteredBackend(old(view), backend)
    {
      ForgetBackend(backend);
      ForgetPairings(backend.backendId);
      RoutesToIgnores(old(view), view, backend.backendId);
      EndRoutesTo(backend.backendId);
    }

    method EndRoutesTo(backendId: Id)
      requires Linked()
      modifies this`routes, this`browserRoutes, this`browserLog, this`view
      ensures Linked() && view == CloseRoutes(old(view), RoutesTo(old(view), backendId))
    {
      var ids := set id | id in routes && routes[id].backendId == backendId;
      assert ids == RoutesTo(view, backendId);
      EndRoutes(ids);
    }

    method ForgetBackend(backend: RegisteredBackend)
      requires Linked()
      modifies this`backends, this`view
      ensures Linked()
      ensures view == old(view).(backends := WithoutRegistration(old(view).backends, backend))
    {
      if backend.backendId in backends && backends[backend.backendId].socket == backend.socket {
        backends := backends - {backend.backendId};
        view := view.(backends := backends);
      }
    }

    method ForgetPairings(backendId: Id)
      requires Linked()
      modifies this`pairings, this`view
      ensures Linked()
      ensures view == old(view).(pairings := WithoutPairingsOf(old(view).pairings, backendId))
    {
      var left := pairings.Keys;
      while left != {}
        invariant left <= pairings.Keys
        invariant forall p :: p in pairings <==> p in old(pairings) && (p in left || old(pairings)[p].backendId != backendId)
        invariant forall p | p in pairings :: pairings[p] == old(pairings)[p]
        invariant view == old(view)
        decreases left
      {
        var p :| p in left;
        if pairings[p].backendId == backendId { pairings := pairings - {p}; }
        left := left - {p};
      }
      assert pairings == WithoutPairingsOf(old(pairings), backendId);
      view := view.(pairings := pairings);
    }

    // ---- Backend sockets ---------------------------------------------------------------------

    method AcceptBackend(socket: BackendSocket, nonce: Id)
      requires Valid() && socket !in handshakes
      modifies this`openBackends, this`handshakes, this`backendLog, this`view
      ensures Valid() && view == Model.AcceptBackend(old(view), socket, nonce)
    {
      openBackends := openBackends + {socket};
      handshakes := handshakes[socket := Handshake(nonce, None)];
      view := view.(openBackends := openBackends, handshakes := handshakes);
      SendBackend(socket, ChallengeSent(nonce));
    }

    method RefuseBackend(socket: BackendSocket, code: ErrorCode)
      requires Linked()
      modifies this`openBackends, this`backendLog, this`view
      ensures Linked() && view == Model.RefuseBackend(old(view), socket, code)
    {
      SendBackend(socket, BackendError(code, None));
      openBackends := openBackends - {socket};
      view := view.(openBackends := openBackends);
    }

    method ReplacePrevious(id: Id, socket: BackendSocket)
      requires Valid()
      modifies this`openBackends, this`backends, this`pairings, this`routes, this`browserRoutes, this`browserLog, this`view
      ensures Valid() && view == Model.ReplacePrevious(old(view), id, socket)
    {
      if id in backends && backends[id].socket != socket {
        var previous := backends[id];
        RemoveRegisteredBackend(previous);
        openBackends := openBackends - {previous.socket};
        view := view.(openBackends := openBackends);
      }
    }

    method Enroll(registered: RegisteredBackend)
      requires Valid() && registered.socket in handshakes && handshakes[registered.socket].registered.None?
      modifies this`handshakes, this`backends, this`backendLog, this`view
      ensures Valid() && view == Model.Enroll(old(view), registered)
    {
      handshakes := handshakes[registered.socket := handshakes[registered.socket].(registered := Some(registered))];
      backends := backends[registered.backendId := registered];
      view := view.(handshakes := handshakes, backends := backends);
      SendBackend(registered.socket, Registered(registered.backendId));
    }

    method RegisterBackend(socket: BackendSocket, publicKey: PublicKey, signatureValid: bool)
      requires Valid() && socket in handshakes && handshakes[socket].registered.None?
      modifies this`openBackends, this`handshakes, this`backends, this`pairings, this`routes, this`browserRoutes,
               this`backendLog, this`browserLog, this`view
      ensures Valid() && view == Model.RegisterBackend(cfg, old(view), trustStore.state, socket, publicKey, signatureValid)
    {
      if !signatureValid {
        RefuseBackend(socket, UnauthorizedConnection);
        return;
      }
      var derived := cfg.deriveBackendId(publicKey);
      if derived.None? {
        RefuseBackend(socket, InvalidMessage);
        return;
      }
      var id := derived.value;
      ReplacePrevious(id, socket);
      Enroll(RegisteredBackend(id, publicKey, socket));
      var pending := TrustModel.PendingBackendRevocation(trustStore.state, id);
      if pending.Some? { SendBackend(socket, AuthorizationRevoked(pending.value.accountId, None)); }
    }

    method OpenPairing(backend: RegisteredBackend, pairId: Id, expiresAt: Millis, now: Millis)
      requires Valid()
      modifies this`pairings, this`backendLog, this`view
      ensures Valid() && view == Model.OpenPairing(old(view), backend, pairId, expiresAt, now)
    {
      if expiresAt <= now || expiresAt > now + MAX_PAIRING_LIFETIME_MS {
        SendBackend(backend.socket, BackendError(InvalidPairing, None));
        return;
      }
      var existing := GetOpenPairing(pairId, now);
      if existing.Some? && existing.value.backendId != backend.backendId {
        SendBackend(backend.socket, BackendError(InvalidPairing, None));
        return;
      }
      pairings := pairings[pairId := ActivePairing(pairId, backend.backendId, expiresAt)];
      view := view.(pairings := pairings);
      SendBackend(backend.socket, PairingOpened(pairId, expiresAt));
    }

    method ConfirmPairing(backend: RegisteredBackend, connectionId: Id, drawnAccount: Id, now: Millis)
      requires Valid()
      modifies this`pairings, this`backendLog, this`view, trustStore, routes.Values
      ensures Valid()
      ensures (view, trustStore.View())
           == Model.ConfirmPairing(old(view), old(trustStore.View()), backend, connectionId, drawnAccount, now)
    {
      var found := RouteForBackend(backend, connectionId);
      if found.Some? { ConfirmIfPairing(backend, found.value, drawnAccount, now); }
    }

    method ConfirmIfPairing(backend: RegisteredBackend, route: BrowserRoute, drawnAccount: Id, now: Millis)
      requires Linked() && route in routes.Values
      modifies this`pairings, this`backendLog, this`view, trustStore, route`claims
      ensures Linked()
      ensures (view, trustStore.View())
           == if old(route.claims).kind != Pairing || old(route.claims).pairId.None?
              then (TellBackend(old(view), backend.socket, BackendError(InvalidPairing, Some(route.connectionId))), old(trustStore.View()))
              else Model.ConfirmRoute(old(view), old(trustStore.View()), backend, old(route.Value()),
                                      old(route.claims).pairId.value, drawnAccount, now)
    {
      if route.claims.kind != Pairing || route.claims.pairId.None? {
        SendBackend(backend.socket, BackendError(InvalidPairing, Some(route.connectionId)));
      } else {
        ConfirmRoute(backend, route, route.claims.pairId.value, drawnAccount, now);
      }
    }

    method ConfirmRoute(backend: RegisteredBackend, route: BrowserRoute, pairId: Id, drawnAccount: Id, now: Millis)
      requires Linked() && route in routes.Values
      modifies this`pairings, this`backendLog, this`view, trustStore, route`claims
      ensures Linked()
      ensures (view, trustStore.View())
           == Model.ConfirmRoute(old(view), old(trustStore.View()), backend, old(route.Value()), pairId, drawnAccount, now)
    {
      var pairing := GetOpenPairing(pairId, now);
      ConfirmIfOpen(pairing, backend, route, pairId, drawnAccount, now);
    }

    method ConfirmIfOpen(
      pairing: Option<ActivePairing>, backend: RegisteredBackend, route: BrowserRoute, pairId: Id, drawnAccount: Id, now: Millis)
      requires Linked() && route in routes.Values
      modifies this`pairings, this`backendLog, this`view, trustStore, route`claims
      ensures Linked()
      ensures (view, trustStore.View())
           == if pairing.None? || pairing.value.backendId != backend.backendId
              then (TellBackend(old(view), backend.socket, BackendError(InvalidPairing, Some(route.connectionId))), old(trustStore.View()))
              else Model.AskStore(old(view), old(trustStore.View()), backend, old(route.Value()), pairId, drawnAccount, now)
    {
      if pairing.None? || pairing.value.backendId != backend.backendId {
        SendBackend(backend.socket, BackendError(InvalidPairing, Some(route.connectionId)));
      } else {
        AskStore(backend, route, pairId, drawnAccount, now);
      }
    }

    method AskStore(backend: RegisteredBackend, route: BrowserRoute, pairId: Id, drawnAccount: Id, now: Millis)
      requires Linked() && route in routes.Values
      modifies this`pairings, this`backendLog, this`view, trustStore, route`claims
      ensures Linked()
      ensures (view, trustStore.View())
           == Model.AskStore(old(view), old(trustStore.View()), backend, old(route.Value()), pairId, drawnAccount, now)
    {
      var confirmation := trustStore.ConfirmPairing(route.claims, drawnAccount, now);
      if confirmation.Err? {
        SendBackend(backend.socket, BackendError(InvalidPairing, Some(route.connectionId)));
        return;
      }
      CompletePairing(backend, route, pairId, confirmation.value);
    }

    method CompletePairing(backend: RegisteredBackend, route: BrowserRoute, pairId: Id, c: TrustModel.Confirmation)
      requires Linked() && route in routes.Values
      modifies this`pairings, this`backendLog, this`view, route`claims
      ensures Linked() && view == Model.CompletePairing(old(view), backend, old(route.Value()), pairId, c)
    {
      SetAccount(route, c.accountId);
      ClosePairing(pairId);
      SendBackend(backend.socket, PairingConfirmed(route.connectionId, pairId, c.accountId, c.deviceId));
    }

    method ClosePairing(pairId: Id)
      requires Linked()
      modifies this`pairings, this`view
      ensures Linked() && view == old(view).(pairings := old(view).pairings - {pairId})
    {
      pairings := pairings - {pairId};
      view := view.(pairings := pairings);
    }

    method RelayBackendSignal(backend: RegisteredBackend, connectionId: Id, signal: Signal)
      requires Valid()
      modifies this`backendLog, this`browserLog, this`view, routes.Values
      ensures Valid() && view == Model.RelayBackendSignal(old(view), backend, connectionId, signal)
    {
      var found := RouteForBackend(backend, connectionId);
      if found.None? { return; }
      RelayAnswer(backend, found.value, signal);
    }

    method RelayAnswer(backend: RegisteredBackend, route: BrowserRoute, signal: Signal)
      requires Linked() && route in routes.Values
      modifies this`backendLog, this`browserLog, this`view, route`answerSdp
      ensures Linked() && view == Model.RelayAnswer(old(view), backend, old(route.Value()), signal)
    {
      if signal.Description? {
        if signal.isOffer {
          SendBackend(backend.socket, BackendError(InvalidMessage, Some(route.connectionId)));
          return;
        }
        SetAnswer(route, signal.sdp);
      }
      SendBrowser(route.browser, SignalFromBackend(route.connectionId, signal));
    }

    method RelayBackendBinding(backend: RegisteredBackend, connectionId: Id, b: Binding)
      requires Valid()
      modifies this`routes, this`browserRoutes, this`backendLog, this`browserLog, this`view
      ensures Valid() && view == Model.RelayBackendBinding(cfg, old(view), backend, connectionId, b)
    {
      var found := RouteForBackend(backend, connectionId);
      if found.None? { return; }
      JudgeBinding(backend, found.value, connectionId, b);
    }

    method JudgeBinding(backend: RegisteredBackend, route: BrowserRoute, connectionId: Id, b: Binding)
      requires Valid() && route in routes.Values
      modifies this`routes, this`browserRoutes, this`backendLog, this`browserLog, this`view
      ensures Valid() && view == Model.JudgeBinding(cfg, old(view), backend, old(route.Value()), connectionId, b)
    {
      if BindingMatches(cfg, route.Value(), backend, connectionId, b) {
        SendBrowser(route.browser, ConnectionBinding(connectionId, b));
      } else {
        RefuseBinding(backend, connectionId);
      }
    }

    method RefuseBinding(backend: RegisteredBackend, connectionId: Id)
      requires Valid()
      modifies this`routes, this`browserRoutes, this`backendLog, this`browserLog, this`view
      ensures Valid()
      ensures view == Model.CloseFromBackend(
                        TellBackend(old(view), backend.socket, BackendError(InvalidMessage, Some(connectionId))), backend, connectionId)
    {
      SendBackend(backend.socket, BackendError(InvalidMessage, Some(connectionId)));
      CloseFromBackend(backend, connectionId);
    }

    method CloseFromBackend(backend: RegisteredBackend, connectionId: Id)
      requires Valid()
      modifies this`routes, this`browserRoutes, this`backendLog, this`browserLog, this`view
      ensures Valid() && view == Model.CloseFromBackend(old(view), backend, connectionId)
    {
      var found := RouteForBackend(backend, connectionId);
      if found.None? { return; }
      CloseRoute(found.value);
    }

    method HandleBackendMessage(socket: BackendSocket, command: BackendCommand, now: Millis)
      requires Valid()
      modifies this, trustStore, routes.Values
      ensures Valid()
      ensures (view, trustStore.View())
           == HandleBackendCommand(cfg, old(view), old(trustStore.View()), socket, command, now)
    {
      if socket !in handshakes {
        SendBackend(socket, BackendError(UnauthorizedConnection, None));
        return;
      }
      var registered := handshakes[socket].registered;
      if registered.None? {
        if !command.RegisterBackendCommand? {
          SendBackend(socket, BackendError(UnauthorizedConnection, None));
          return;
        }
        RegisterBackend(socket, command.publicKey, command.signatureValid);
        return;
      }
      ServeBackend(registered.value, socket, command, now);
    }

    method ServeBackend(backend: RegisteredBackend, socket: BackendSocket, command: BackendCommand, now: Millis)
      requires Valid()
      modifies this`pairings, this`routes, this`browserRoutes, this`backendLog, this`browserLog, this`view, trustStore, routes.Values
      ensures Valid()
      ensures (view, trustStore.View())
           == Model.ServeBackend(cfg, old(view), old(trustStore.View()), backend, socket, command, now)
    {
      match command
      case RegisterBackendCommand(_, _) => SendBackend(socket, BackendError(InvalidMessage, None));
      case OpenPairingCommand(pairId, expiresAt) => OpenPairing(backend, pairId, expiresAt, now);
      case ConfirmPairingCommand(id, drawnAccount) => ConfirmPairing(backend, id, drawnAccount, now);
      case BackendSignalCommand(id, signal) => RelayBackendSignal(backend, id, signal);
      case BindingCommand(id, binding) => RelayBackendBinding(backend, id, binding);
      case BackendCloseCommand(id) => CloseFromBackend(backend, id);
    }

    method RemoveBackendSocket(socket: BackendSocket)
      requires Valid()
      modifies this`handshakes, this`backends, this`pairings, this`routes, this`browserRoutes, this`browserLog, this`view
      ensures Valid() && view == Model.RemoveBackendSocket(old(view), socket)
    {
      if socket !in handshakes { return; }
      var registered := handshakes[socket].registered;
      handshakes := handshakes - {socket};
      view := view.(handshakes := handshakes);
      if registered.Some? && registered.value.backendId in backends && backends[registered.value.backendId].socket == socket {
        RemoveRegisteredBackend(registered.value);
      }
    }

    // ---- Browser sockets ---------------------------------------------------------------------

    method ConnectBrowser(socket: BrowserSocket, backendId: Id, ticket: Claims, verifiedAt: Millis, prunedAt: Millis, now: Millis)
      requires Valid()
      modifies this`pairings, this`routes, this`browserRoutes, this`backendLog, this`browserLog, this`view, trustStore
      ensures Valid() && fresh(routes.Values - old(routes.Values))
      ensures (view, trustStore.View())
           == Model.ConnectBrowser(old(view), old(trustStore.View()), socket, backendId, ticket, verifiedAt, prunedAt, now)
    {
      if backendId !in backends || backends[backendId].socket !in openBackends {
        SendBrowser(socket, BrowserError(BackendOffline, None));
        return;
      }
      var consumed := trustStore.ConsumeRouteTicket(ticket, verifiedAt, prunedAt);
      if consumed.Err? {
        SendBrowser(socket, BrowserError(InvalidTicket, None));
        return;
      }
      AdmitBrowser(socket, backendId, consumed.value, now);
    }

    method AdmitBrowser(socket: BrowserSocket, backendId: Id, claims: Claims, now: Millis)
      requires Linked() && backendId in backends
      modifies this`pairings, this`routes, this`browserRoutes, this`backendLog, this`browserLog, this`view
      ensures Linked() && fresh(routes.Values - old(routes.Values))
      ensures view == Model.AdmitBrowser(old(view), trustStore.state, socket, backendId, claims, now)
    {
      var admitted := CheckTicket(backendId, claims, now);
      if !admitted || claims.connectionId in routes {
        SendBrowser(socket, BrowserError(InvalidTicket, None));
        return;
      }
      SwitchRoute(socket, backendId, claims);
    }

    /** The browser's earlier route gives way to the new one. */
    method SwitchRoute(socket: BrowserSocket, backendId: Id, claims: Claims)
      requires Linked() && backendId in backends && claims.connectionId !in routes
      modifies this`routes, this`browserRoutes, this`backendLog, this`browserLog, this`view
      ensures Linked() && fresh(routes.Values - old(routes.Values))
      ensures view == Model.InstallRoute(Model.DropPrevious(old(view), socket), socket, backendId, claims)
    {
      DropPrevious(socket);
      InstallRoute(socket, backendId, claims);
    }

    /** The checks of a consumed ticket. */
    method CheckTicket(backendId: Id, claims: Claims, now: Millis) returns (admitted: bool)
      requires Linked()
      modifies this`pairings, this`view
      ensures Linked() && view == AfterChecks(old(view), backendId, claims, now)
      ensures admitted == Admits(old(view), trustStore.state, backendId, claims, now)
    {
      if claims.backendId != backendId { return false; }
      if claims.kind.Pairing? {
        if claims.pairId.None? { return false; }
        var pairing := GetOpenPairing(claims.pairId.value, now);
        return pairing.Some? && pairing.value.backendId == backendId;
      }
      return claims.accountId.Some?
          && TrustModel.BackendOwner(trustStore.state, backendId) == claims.accountId
          && TrustModel.IsDeviceActive(trustStore.state, claims.deviceId);
    }

    method DropPrevious(socket: BrowserSocket)
      requires Linked()
      modifies this`routes, this`browserRoutes, this`backendLog, this`view
      ensures Linked() && view == Model.DropPrevious(old(view), socket)
      ensures routes.Values <= old(routes.Values) && routes.Keys <= old(routes.Keys) && socket !in browserRoutes
    {
      if socket !in browserRoutes { return; }
      var previous := browserRoutes[socket];
      RemoveRoute(previous);
      if previous.backendId in backends {
        SendBackend(backends[previous.backendId].socket, ClosedByBrowser(previous.connectionId));
      }
    }

    method AddRoute(backendId: Id, socket: BrowserSocket, claims: Claims)
      requires Linked() && claims.connectionId !in routes && socket !in browserRoutes
      modifies this`routes, this`browserRoutes, this`view
      ensures Linked() && fresh(routes.Values - old(routes.Values))
      ensures view == PutRoute(old(view), Route(claims.connectionId, backendId, socket, claims, claims, None, None))
    {
      var route := new BrowserRoute(backendId, socket, claims);
      ghost var before, browsers := routes, browserRoutes;
      routes := routes[claims.connectionId := route];
      browserRoutes := browserRoutes[socket := route];
      view := PutRoute(view, route.Value());
      assert routes.Values <= before.Values + {route};
      forall id | id in routes
        ensures && routes[id].connectionId == id && routes[id].Value() == view.routes[id]
                && routes[id].browser in browserRoutes && browserRoutes[routes[id].browser] == routes[id]
      {
        if id != claims.connectionId { assert routes[id] == before[id] && before[id].browser != socket; }
      }
      forall b | b in browserRoutes
        ensures && browserRoutes[b].browser == b
                && browserRoutes[b].connectionId in routes && routes[browserRoutes[b].connectionId] == browserRoutes[b]
                && view.browserRoutes[b] == view.routes[browserRoutes[b].connectionId]
      {
        if b != socket { assert browserRoutes[b] == browsers[b] && browsers[b].connectionId != claims.connectionId; }
      }
    }

    method InstallRoute(socket: BrowserSocket, backendId: Id, claims: Claims)
      requires Linked() && backendId in backends && claims.connectionId !in routes && socket !in browserRoutes
      modifies this`routes, this`browserRoutes, this`backendLog, this`browserLog, this`view
      ensures Linked() && fresh(routes.Values - old(routes.Values))
      ensures view == Model.InstallRoute(old(view), socket, backendId, claims)
    {
      AddRoute(backendId, socket, claims);
      SendBackend(backends[backendId].socket, ConnectionRequest(claims.connectionId, claims));
      SendBrowser(socket, BackendConnected(backendId, claims.connectionId));
    }

    method HandleBrowserMessage(socket: BrowserSocket, command: BrowserCommand, now: Millis)
      requires Valid()
      modifies this, trustStore, routes.Values
      ensures Valid() && fresh(routes.Values - old(routes.Values))
      ensures (view, trustStore.View())
           == HandleBrowserCommand(old(view), old(trustStore.View()), socket, command, now)
    {
      if command.ConnectCommand? {
        ConnectBrowser(socket, command.backendId, command.ticket, command.verifiedAt, command.prunedAt, now);
        return;
      }
      RouteCommand(socket, command, now);
    }

    /** What a browser asks of the route it has. */
    method RouteCommand(socket: BrowserSocket, command: BrowserCommand, now: Millis)
      requires Linked() && !command.ConnectCommand?
      modifies this`routes, this`browserRoutes, this`backendLog, this`browserLog, this`view, routes.Values
      ensures Linked() && routes.Values <= old(routes.Values)
      ensures view == HandleBrowserCommand(old(view), trustStore.View(), socket, command, now).0
    {
      if socket !in browserRoutes || browserRoutes[socket].connectionId != command.connectionId {
        SendBrowser(socket, BrowserError(UnauthorizedConnection, Some(command.connectionId)));
        return;
      }
      var route := browserRoutes[socket];
      if route.backendId !in backends || backends[route.backendId].socket !in openBackends {
        RemoveRoute(route);
        SendBrowser(socket, BrowserError(BackendOffline, Some(command.connectionId)));
        return;
      }
      var backend := backends[route.backendId].socket;
      if command.BrowserSignalCommand? {
        RelayBrowserSignal(route, backend, command.signal);
        return;
      }
      RemoveRoute(route);
      SendBackend(backend, ClosedByBrowser(command.connectionId));
    }

    method RelayBrowserSignal(route: BrowserRoute, backend: BackendSocket, signal: Signal)
      requires Linked() && route in routes.Values
      modifies this`backendLog, this`browserLog, this`view, route`offerSdp
      ensures Linked() && view == Model.RelayBrowserSignal(old(view), old(route.Value()), backend, signal)
    {
      if signal.Description? {
        if !signal.isOffer {
          SendBrowser(route.browser, BrowserError(InvalidMessage, Some(route.connectionId)));
          return;
        }
        SetOffer(route, signal.sdp);
      }
      SendBackend(backend, SignalFromBrowser(route.connectionId, signal));
    }

    method RemoveBrowser(socket: BrowserSocket)
      requires Valid()
      modifies this`routes, this`browserRoutes, this`backendLog, this`view
      ensures Valid() && view == Model.RemoveBrowser(old(view), socket)
    {
      DropPrevious(socket);
    }
  }
}
