/**
 What each message, handler and socket event does to the rendezvous hub.

 The hub's maps are values here: the two route maps hold the same route, and `HubInvariants`
 shows that they always agree. `RendezvousHub.RendezvousHub` holds each route once, as an object.
 Sockets are numbers; what was sent to a socket is kept as that socket's log.
 */
module HubModel {
  import opened Wrappers
  import opened TrustProtocol
  import TrustModel

  type BackendSocket = nat
  type BrowserSocket = nat
  type Sdp = nat

  const MAX_PAIRING_LIFETIME_MS: Millis := 15 * 60_000

  /** The foreign calls: backend fingerprint, SDP hash and DTLS fingerprint extraction. */
  datatype HubConfig = HubConfig(
    deriveBackendId: PublicKey -> Option<Id>,
    sha256: Sdp -> Digest,
    dtlsFingerprint: Sdp -> Option<Digest>)

  datatype Signal = Candidate(data: nat) | Description(isOffer: bool, sdp: Sdp)

  datatype Binding = Binding(
    backendId: Id,
    publicKey: PublicKey,
    connectionId: Id,
    offerSha256: Digest,
    answerSha256: Digest,
    dtlsFingerprint: Digest,
    expiresAt: Millis,
    signatureValid: bool)

  datatype ErrorCode = UnauthorizedConnection | InvalidMessage | InvalidPairing | BackendOffline | InvalidTicket

  datatype BackendMessage =
    | ChallengeSent(nonce: Id)
    | Registered(backendId: Id)
    | AuthorizationRevoked(accountId: Id, onlyDevice: Option<Id>)
    | PairingOpened(pairId: Id, expiresAt: Millis)
    | PairingConfirmed(connectionId: Id, pairId: Id, accountId: Id, deviceId: Id)
    | ConnectionRequest(connectionId: Id, ticket: Claims)
    | SignalFromBrowser(connectionId: Id, signal: Signal)
    | ClosedByBrowser(connectionId: Id)
    | BackendError(code: ErrorCode, about: Option<Id>)

  datatype BrowserMessage =
    | BackendConnected(backendId: Id, connectionId: Id)
    | SignalFromBackend(connectionId: Id, signal: Signal)
    | ConnectionBinding(connectionId: Id, binding: Binding)
    | ConnectionClosed(connectionId: Id)
    | BrowserError(code: ErrorCode, about: Option<Id>)

  datatype RegisteredBackend = RegisteredBackend(backendId: Id, publicKey: PublicKey, socket: BackendSocket)

  datatype Handshake = Handshake(nonce: Id, registered: Option<RegisteredBackend>)

  /** `ticket` is what the browser presented; `claims` gains the account when a pairing is confirmed. */
  datatype Route = Route(
    connectionId: Id,
    backendId: Id,
    browser: BrowserSocket,
    ticket: Claims,
    claims: Claims,
    offerSdp: Option<Sdp>,
    answerSdp: Option<Sdp>)

  datatype ActivePairing = ActivePairing(pairId: Id, backendId: Id, expiresAt: Millis)

  datatype Hub = Hub(
    handshakes: map<BackendSocket, Handshake>,
    backends: map<Id, RegisteredBackend>,
    browserRoutes: map<BrowserSocket, Route>,
    routes: map<Id, Route>,
    pairings: map<Id, ActivePairing>,
    openBackends: set<BackendSocket>,
    openBrowsers: set<BrowserSocket>,
    backendLog: map<BackendSocket, seq<BackendMessage>>,
    browserLog: map<BrowserSocket, seq<BrowserMessage>>)

  const EmptyHub := Hub(map[], map[], map[], map[], map[], {}, {}, map[], map[])

  // ---- Sending -------------------------------------------------------------------------------

  function LogOf<M>(log: map<nat, seq<M>>, socket: nat): seq<M> {
    if socket in log then log[socket] else []
  }

  /** A message to a socket that is no longer open is dropped. */
  function TellBackend(h: Hub, socket: BackendSocket, m: BackendMessage): Hub {
    if socket !in h.openBackends then h
    else h.(backendLog := h.backendLog[socket := LogOf(h.backendLog, socket) + [m]])
  }

  function TellBrowser(h: Hub, socket: BrowserSocket, m: BrowserMessage): Hub {
    if socket !in h.openBrowsers then h
    else h.(browserLog := h.browserLog[socket := LogOf(h.browserLog, socket) + [m]])
  }

  /** The same message to each of `sockets`. */
  function TellBackends(h: Hub, sockets: set<BackendSocket>, m: BackendMessage): Hub {
    h.(backendLog := map s | s in h.backendLog.Keys + (sockets * h.openBackends) ::
         if s in sockets && s in h.openBackends then LogOf(h.backendLog, s) + [m] else h.backendLog[s])
  }

  // ---- Routes --------------------------------------------------------------------------------

  function RemoveRoute(h: Hub, r: Route): Hub {
    h.(routes := if r.connectionId in h.routes && h.routes[r.connectionId] == r then h.routes - {r.connectionId} else h.routes,
       browserRoutes := if r.browser in h.browserRoutes && h.browserRoutes[r.browser] == r
                        then h.browserRoutes - {r.browser} else h.browserRoutes)
  }

  /** A changed route, in both maps. */
  function PutRoute(h: Hub, r: Route): Hub {
    h.(routes := h.routes[r.connectionId := r], browserRoutes := h.browserRoutes[r.browser := r])
  }

  /** The open browsers whose route is among these. */
  function BrowsersOf(h: Hub, ids: set<Id>): set<BrowserSocket> {
    set b | b in h.browserRoutes && h.browserRoutes[b].connectionId in ids && b in h.openBrowsers
  }

  /** The browser logs after those browsers were told that their connection closed. */
  function ClosedLog(h: Hub, ids: set<Id>): map<BrowserSocket, seq<BrowserMessage>> {
    map b | b in h.browserLog.Keys + BrowsersOf(h, ids) ::
      if b in BrowsersOf(h, ids) then LogOf(h.browserLog, b) + [ConnectionClosed(h.browserRoutes[b].connectionId)] else h.browserLog[b]
  }

  /** Removes the routes with these connection ids and tells each browser that its connection closed. */
  function CloseRoutes(h: Hub, ids: set<Id>): Hub {
    h.(routes := h.routes - ids,
       browserRoutes := map b | b in h.browserRoutes && h.browserRoutes[b].connectionId !in ids :: h.browserRoutes[b],
       browserLog := ClosedLog(h, ids))
  }

  predicate IsBackendOnline(h: Hub, backendId: Id) {
    backendId in h.backends && h.backends[backendId].socket in h.openBackends
  }

  /** The answer of `getOpenPairing`. */
  function OpenPairingOf(h: Hub, pairId: Id, now: Millis): Option<ActivePairing> {
    if pairId in h.pairings && h.pairings[pairId].expiresAt > now && IsBackendOnline(h, h.pairings[pairId].backendId)
    then Some(h.pairings[pairId]) else None
  }

  /** The effect of `getOpenPairing`: a pairing that expired or lost its backend is dropped. */
  function DropDeadPairing(h: Hub, pairId: Id, now: Millis): Hub {
    if OpenPairingOf(h, pairId, now).None? then h.(pairings := h.pairings - {pairId}) else h
  }

  /** The routes that a revocation ends. */
  function Affected(h: Hub, r: TrustModel.RevocationResult): set<Id> {
    set id | id in h.routes
             && h.routes[id].claims.accountId == Some(r.accountId)
             && (r.backendId.Some? ==> h.routes[id].backendId == r.backendId.value)
             && (r.deviceId.Some? ==> h.routes[id].claims.deviceId == r.deviceId.value)
  }

  /** Whether the backend `id` is to hear of a revocation. */
  predicate Concerns(s: TrustModel.State, r: TrustModel.RevocationResult, id: Id) {
    if r.backendId.Some? then id == r.backendId.value else TrustModel.BackendOwner(s, id) == Some(r.accountId)
  }

  /** The sockets of the backends that are to hear of a revocation, but for those in `left`. */
  function Informed(h: Hub, s: TrustModel.State, r: TrustModel.RevocationResult, left: set<Id>): set<BackendSocket> {
    set id | id in h.backends && id !in left && Concerns(s, r, id) :: h.backends[id].socket
  }

  function NotifyRevocation(h: Hub, s: TrustModel.State, r: TrustModel.RevocationResult): Hub {
    CloseRoutes(TellBackends(h, Informed(h, s, r, {}), AuthorizationRevoked(r.accountId, r.deviceId)), Affected(h, r))
  }

  function RoutesTo(h: Hub, backendId: Id): set<Id> {
    set id | id in h.routes && h.routes[id].backendId == backendId
  }

  function WithoutRegistration(backends: map<Id, RegisteredBackend>, backend: RegisteredBackend): map<Id, RegisteredBackend> {
    if backend.backendId in backends && backends[backend.backendId].socket == backend.socket
    then backends - {backend.backendId} else backends
  }

  function WithoutPairingsOf(pairings: map<Id, ActivePairing>, backendId: Id): map<Id, ActivePairing> {
    map p | p in pairings && pairings[p].backendId != backendId :: pairings[p]
  }

  /** A backend registration ends: its pairings and its routes go with it. */
  function RemoveRegisteredBackend(h: Hub, backend: RegisteredBackend): Hub {
    CloseRoutes(h.(backends := WithoutRegistration(h.backends, backend),
                   pairings := WithoutPairingsOf(h.pairings, backend.backendId)),
                RoutesTo(h, backend.backendId))
  }

  // ---- Backend sockets -----------------------------------------------------------------------

  datatype BackendCommand =
    | RegisterBackendCommand(publicKey: PublicKey, signatureValid: bool)
    | OpenPairingCommand(pairId: Id, expiresAt: Millis)
    | ConfirmPairingCommand(connectionId: Id, drawnAccount: Id)
    | BackendSignalCommand(connectionId: Id, signal: Signal)
    | BindingCommand(connectionId: Id, binding: Binding)
    | BackendCloseCommand(connectionId: Id)

  function AcceptBackend(h: Hub, socket: BackendSocket, nonce: Id): Hub {
    TellBackend(h.(openBackends := h.openBackends + {socket}, handshakes := h.handshakes[socket := Handshake(nonce, None)]),
                socket, ChallengeSent(nonce))
  }

  function RefuseBackend(h: Hub, socket: BackendSocket, code: ErrorCode): Hub {
    var told := TellBackend(h, socket, BackendError(code, None));
    told.(openBackends := told.openBackends - {socket})
  }

  /** A backend that reconnects first loses its previous socket, with everything that hangs on it. */
  function ReplacePrevious(h: Hub, id: Id, socket: BackendSocket): Hub {
    if id in h.backends && h.backends[id].socket != socket then
      var gone := RemoveRegisteredBackend(h, h.backends[id]);
      gone.(openBackends := gone.openBackends - {h.backends[id].socket})
    else h
  }

  function Enroll(h: Hub, registered: RegisteredBackend): Hub
    requires registered.socket in h.handshakes
  {
    var handshake := h.handshakes[registered.socket].(registered := Some(registered));
    TellBackend(h.(handshakes := h.handshakes[registered.socket := handshake],
                   backends := h.backends[registered.backendId := registered]),
                registered.socket, Registered(registered.backendId))
  }

  function RegisterBackend(
    cfg: HubConfig, h: Hub, s: TrustModel.State, socket: BackendSocket, publicKey: PublicKey, signatureValid: bool): Hub
    requires socket in h.handshakes
  {
    if !signatureValid then RefuseBackend(h, socket, UnauthorizedConnection)
    else if cfg.deriveBackendId(publicKey).None? then RefuseBackend(h, socket, InvalidMessage)
    else
      var id := cfg.deriveBackendId(publicKey).value;
      var enrolled := Enroll(ReplacePrevious(h, id, socket), RegisteredBackend(id, publicKey, socket));
      match TrustModel.PendingBackendRevocation(s, id)
      case Some(r) => TellBackend(enrolled, socket, AuthorizationRevoked(r.accountId, None))
      case None => enrolled
  }

  function OpenPairing(h: Hub, backend: RegisteredBackend, pairId: Id, expiresAt: Millis, now: Millis): Hub {
    if expiresAt <= now || expiresAt > now + MAX_PAIRING_LIFETIME_MS then
      TellBackend(h, backend.socket, BackendError(InvalidPairing, None))
    else
      var existing := OpenPairingOf(h, pairId, now);
      var h1 := DropDeadPairing(h, pairId, now);
      if existing.Some? && existing.value.backendId != backend.backendId then
        TellBackend(h1, backend.socket, BackendError(InvalidPairing, None))
      else
        TellBackend(h1.(pairings := h1.pairings[pairId := ActivePairing(pairId, backend.backendId, expiresAt)]),
                    backend.socket, PairingOpened(pairId, expiresAt))
  }

  /** The route `connectionId`, if it leads to this backend. */
  function RouteForBackend(h: Hub, backend: RegisteredBackend, connectionId: Id): Option<Route> {
    if connectionId in h.routes && h.routes[connectionId].backendId == backend.backendId then Some(h.routes[connectionId]) else None
  }

  function NoSuchRoute(h: Hub, backend: RegisteredBackend, connectionId: Id): Hub {
    TellBackend(h, backend.socket, BackendError(UnauthorizedConnection, Some(connectionId)))
  }

  function ConfirmPairing(
    h: Hub, store: TrustModel.Store, backend: RegisteredBackend, connectionId: Id, drawnAccount: Id, now: Millis)
    : (Hub, TrustModel.Store)
  {
    match RouteForBackend(h, backend, connectionId)
    case None => (NoSuchRoute(h, backend, connectionId), store)
    case Some(route) =>
      if route.claims.kind != Pairing || route.claims.pairId.None? then
        (TellBackend(h, backend.socket, BackendError(InvalidPairing, Some(connectionId))), store)
      else
        ConfirmRoute(h, store, backend, route, route.claims.pairId.value, drawnAccount, now)
  }

  function ConfirmRoute(
    h: Hub, store: TrustModel.Store, backend: RegisteredBackend, route: Route, pairId: Id, drawnAccount: Id, now: Millis)
    : (Hub, TrustModel.Store)
  {
    var pairing := OpenPairingOf(h, pairId, now);
    var h1 := DropDeadPairing(h, pairId, now);
    if pairing.None? || pairing.value.backendId != backend.backendId then
      (TellBackend(h1, backend.socket, BackendError(InvalidPairing, Some(route.connectionId))), store)
    else AskStore(h1, store, backend, route, pairId, drawnAccount, now)
  }

  function AskStore(
    h: Hub, store: TrustModel.Store, backend: RegisteredBackend, route: Route, pairId: Id, drawnAccount: Id, now: Millis)
    : (Hub, TrustModel.Store)
  {
    match TrustModel.ConfirmPairing(store, route.claims, drawnAccount, now)
    case (t, Err(_)) => (TellBackend(h, backend.socket, BackendError(InvalidPairing, Some(route.connectionId))), t)
    case (t, Ok(c)) => (CompletePairing(h, backend, route, pairId, c), t)
  }

  /** The route learns its account, the pairing is over, and the backend hears of it. */
  function CompletePairing(h: Hub, backend: RegisteredBackend, route: Route, pairId: Id, c: TrustModel.Confirmation): Hub {
    var known := PutRoute(h, route.(claims := route.claims.(accountId := Some(c.accountId))));
    TellBackend(known.(pairings := known.pairings - {pairId}),
                backend.socket, PairingConfirmed(route.connectionId, pairId, c.accountId, c.deviceId))
  }

  function RelayBackendSignal(h: Hub, backend: RegisteredBackend, connectionId: Id, signal: Signal): Hub {
    match RouteForBackend(h, backend, connectionId)
    case None => NoSuchRoute(h, backend, connectionId)
    case Some(route) => RelayAnswer(h, backend, route, signal)
  }

  function RelayAnswer(h: Hub, backend: RegisteredBackend, route: Route, signal: Signal): Hub {
    if signal.Description? && signal.isOffer then
      TellBackend(h, backend.socket, BackendError(InvalidMessage, Some(route.connectionId)))
    else
      var h1 := if signal.Description? then PutRoute(h, route.(answerSdp := Some(signal.sdp))) else h;
      TellBrowser(h1, route.browser, SignalFromBackend(route.connectionId, signal))
  }

  /** The binding names this backend and this route, and hashes exactly the descriptions that were relayed. */
  predicate BindingMatches(cfg: HubConfig, route: Route, backend: RegisteredBackend, connectionId: Id, b: Binding) {
    && route.offerSdp.Some? && route.answerSdp.Some?
    && b.backendId == backend.backendId && b.publicKey == backend.publicKey && b.connectionId == connectionId
    && b.offerSha256 == cfg.sha256(route.offerSdp.value)
    && b.answerSha256 == cfg.sha256(route.answerSdp.value)
    && cfg.dtlsFingerprint(route.answerSdp.value) == Some(b.dtlsFingerprint)
    && b.expiresAt == route.claims.expiresAt
    && b.signatureValid
  }

  function RelayBackendBinding(cfg: HubConfig, h: Hub, backend: RegisteredBackend, connectionId: Id, b: Binding): Hub {
    match RouteForBackend(h, backend, connectionId)
    case None => NoSuchRoute(h, backend, connectionId)
    case Some(route) => JudgeBinding(cfg, h, backend, route, connectionId, b)
  }

  function JudgeBinding(cfg: HubConfig, h: Hub, backend: RegisteredBackend, route: Route, connectionId: Id, b: Binding): Hub {
    if BindingMatches(cfg, route, backend, connectionId, b) then
      TellBrowser(h, route.browser, ConnectionBinding(connectionId, b))
    else
      CloseFromBackend(TellBackend(h, backend.socket, BackendError(InvalidMessage, Some(connectionId))), backend, connectionId)
  }

  function CloseFromBackend(h: Hub, backend: RegisteredBackend, connectionId: Id): Hub {
    match RouteForBackend(h, backend, connectionId)
    case None => NoSuchRoute(h, backend, connectionId)
    case Some(route) => TellBrowser(RemoveRoute(h, route), route.browser, ConnectionClosed(connectionId))
  }

  function HandleBackendCommand(
    cfg: HubConfig, h: Hub, store: TrustModel.Store, socket: BackendSocket, command: BackendCommand, now: Millis)
    : (Hub, TrustModel.Store)
  {
    if socket !in h.handshakes then (TellBackend(h, socket, BackendError(UnauthorizedConnection, None)), store)
    else if h.handshakes[socket].registered.None? then
      if !command.RegisterBackendCommand? then (TellBackend(h, socket, BackendError(UnauthorizedConnection, None)), store)
      else (RegisterBackend(cfg, h, store.state, socket, command.publicKey, command.signatureValid), store)
    else ServeBackend(cfg, h, store, h.handshakes[socket].registered.value, socket, command, now)
  }

  /** What a registered backend asks for. */
  function ServeBackend(
    cfg: HubConfig, h: Hub, store: TrustModel.Store, backend: RegisteredBackend, socket: BackendSocket, command: BackendCommand,
    now: Millis): (Hub, TrustModel.Store)
  {
    match command
    case RegisterBackendCommand(_, _) => (TellBackend(h, socket, BackendError(InvalidMessage, None)), store)
    case OpenPairingCommand(pairId, expiresAt) => (OpenPairing(h, backend, pairId, expiresAt, now), store)
    case ConfirmPairingCommand(id, drawnAccount) => ConfirmPairing(h, store, backend, id, drawnAccount, now)
    case BackendSignalCommand(id, signal) => (RelayBackendSignal(h, backend, id, signal), store)
    case BindingCommand(id, binding) => (RelayBackendBinding(cfg, h, backend, id, binding), store)
    case BackendCloseCommand(id) => (CloseFromBackend(h, backend, id), store)
  }

  function RemoveBackendSocket(h: Hub, socket: BackendSocket): Hub {
    if socket !in h.handshakes then h else
    var registered := h.handshakes[socket].registered;
    var h1 := h.(handshakes := h.handshakes - {socket});
    if registered.Some? && registered.value.backendId in h.backends && h.backends[registered.value.backendId].socket == socket
    then RemoveRegisteredBackend(h1, registered.value)
    else h1
  }

  // ---- Browser sockets -----------------------------------------------------------------------

  datatype BrowserCommand =
    | ConnectCommand(backendId: Id, ticket: Claims, verifiedAt: Millis, prunedAt: Millis)
    | BrowserSignalCommand(connectionId: Id, signal: Signal)
    | BrowserCloseCommand(connectionId: Id)

  /** The checks of a consumed ticket against the pairings and the store. */
  predicate Admits(h: Hub, s: TrustModel.State, backendId: Id, claims: Claims, now: Millis) {
    && claims.backendId == backendId
    && if claims.kind.Pairing? then
         && claims.pairId.Some?
         && OpenPairingOf(h, claims.pairId.value, now).Some?
         && OpenPairingOf(h, claims.pairId.value, now).value.backendId == backendId
       else
         && claims.accountId.Some?
         && TrustModel.BackendOwner(s, backendId) == claims.accountId
         && TrustModel.IsDeviceActive(s, claims.deviceId)
  }

  /** The pairing lookup that the checks of a pairing ticket make. */
  function AfterChecks(h: Hub, backendId: Id, claims: Claims, now: Millis): Hub {
    if claims.backendId == backendId && claims.kind.Pairing? && claims.pairId.Some?
    then DropDeadPairing(h, claims.pairId.value, now) else h
  }

  /** The clock is read for the ticket check, for the pruning, and at `now` for the pairing. */
  function ConnectBrowser(
    h: Hub, store: TrustModel.Store, socket: BrowserSocket, backendId: Id, ticket: Claims,
    verifiedAt: Millis, prunedAt: Millis, now: Millis)
    : (Hub, TrustModel.Store)
  {
    if !IsBackendOnline(h, backendId) then (TellBrowser(h, socket, BrowserError(BackendOffline, None)), store) else
    match TrustModel.ConsumeRouteTicket(store, ticket, verifiedAt, prunedAt)
    case (t, Err(_)) => (TellBrowser(h, socket, BrowserError(InvalidTicket, None)), t)
    case (t, Ok(claims)) => (AdmitBrowser(h, t.state, socket, backendId, claims, now), t)
  }

  function AdmitBrowser(h: Hub, s: TrustModel.State, socket: BrowserSocket, backendId: Id, claims: Claims, now: Millis): Hub
    requires backendId in h.backends
  {
    var h1 := AfterChecks(h, backendId, claims, now);
    if !Admits(h, s, backendId, claims, now) || claims.connectionId in h1.routes
    then TellBrowser(h1, socket, BrowserError(InvalidTicket, None))
    else InstallRoute(DropPrevious(h1, socket), socket, backendId, claims)
  }

  /** The browser's earlier route, if any, ends; only its backend hears of it. */
  function DropPrevious(h: Hub, socket: BrowserSocket): Hub {
    if socket !in h.browserRoutes then h else
    var previous := h.browserRoutes[socket];
    var h1 := RemoveRoute(h, previous);
    if previous.backendId in h1.backends
    then TellBackend(h1, h1.backends[previous.backendId].socket, ClosedByBrowser(previous.connectionId)) else h1
  }

  function InstallRoute(h: Hub, socket: BrowserSocket, backendId: Id, claims: Claims): Hub
    requires backendId in h.backends
  {
    var route := Route(claims.connectionId, backendId, socket, claims, claims, None, None);
    var asked := TellBackend(PutRoute(h, route), h.backends[backendId].socket, ConnectionRequest(route.connectionId, claims));
    TellBrowser(asked, socket, BackendConnected(backendId, route.connectionId))
  }

  function HandleBrowserCommand(
    h: Hub, store: TrustModel.Store, socket: BrowserSocket, command: BrowserCommand, now: Millis): (Hub, TrustModel.Store)
  {
    if command.ConnectCommand? then
      ConnectBrowser(h, store, socket, command.backendId, command.ticket, command.verifiedAt, command.prunedAt, now)
    else
    var id := command.connectionId;
    if socket !in h.browserRoutes || h.browserRoutes[socket].connectionId != id then
      (TellBrowser(h, socket, BrowserError(UnauthorizedConnection, Some(id))), store)
    else
      var route := h.browserRoutes[socket];
      if !IsBackendOnline(h, route.backendId) then
        (TellBrowser(RemoveRoute(h, route), socket, BrowserError(BackendOffline, Some(id))), store)
      else
        var backend := h.backends[route.backendId].socket;
        if command.BrowserCloseCommand? then (TellBackend(RemoveRoute(h, route), backend, ClosedByBrowser(id)), store)
        else (RelayBrowserSignal(h, route, backend, command.signal), store)
  }

  function RelayBrowserSignal(h: Hub, route: Route, backend: BackendSocket, signal: Signal): Hub {
    if signal.Description? && !signal.isOffer then TellBrowser(h, route.browser, BrowserError(InvalidMessage, Some(route.connectionId)))
    else
      var h1 := if signal.Description? then PutRoute(h, route.(offerSdp := Some(signal.sdp))) else h;
      TellBackend(h1, backend, SignalFromBrowser(route.connectionId, signal))
  }

  function RemoveBrowser(h: Hub, socket: BrowserSocket): Hub {
    DropPrevious(h, socket)
  }
}
