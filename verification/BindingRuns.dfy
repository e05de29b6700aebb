/**
 What a browser may conclude from a binding that reaches it, in any run of the rendezvous.
 */
module BindingRuns {
  import opened Wrappers
  import opened TrustProtocol
  import TrustModel
  import opened HubModel
  import opened HubInvariants
  import opened HubLaws
  import opened ServerModel
  import opened ServerLaws
  import RendezvousRuns
  import TrustInvariants

  /** The description that the log last relayed on this connection. */
  function LastAnswer(log: seq<BrowserMessage>, id: Id): Option<Sdp> {
    if log == [] then None
    else match log[|log| - 1]
      case SignalFromBackend(on, Description(_, sdp)) => if on == id then Some(sdp) else LastAnswer(log[..|log| - 1], id)
      case _ => LastAnswer(log[..|log| - 1], id)
  }

  /** The event is this browser's offer on this connection. */
  function Offer(e: Event, browser: BrowserSocket, id: Id): Option<Sdp> {
    match e
    case BrowserSays(from, BrowserSignalCommand(on, Description(isOffer, sdp))) =>
      if from == browser && on == id && isOffer then Some(sdp) else None
    case _ => None
  }

  /** The last offer that the browser sent on the connection, in the first `i` steps. */
  function LastOffer(steps: seq<Step<Event>>, i: nat, browser: BrowserSocket, id: Id): Option<Sdp>
    requires i <= |steps|
  {
    if i == 0 then None
    else
      var sent := Offer(steps[i - 1].action, browser, id);
      if sent.Some? then sent else LastOffer(steps, i - 1, browser, id)
  }

  // ---- What a step does to descriptions and logs ---------------------------------------------

  /** At most one message more, and neither a binding nor a description. */
  ghost predicate Mild(before: seq<BrowserMessage>, after: seq<BrowserMessage>) {
    || after == before
    || (&& |after| == |before| + 1 && after[..|before|] == before
        && !after[|before|].ConnectionBinding?
        && !(after[|before|].SignalFromBackend? && after[|before|].signal.Description?))
  }

  ghost predicate LogsMild(h: Hub, k: Hub) {
    forall b :: Mild(LogOf(h.browserLog, b), LogOf(k.browserLog, b))
  }

  /** The route is the one that there was, with the same descriptions, or has none yet. */
  ghost predicate RouteCarried(h: Hub, k: Hub, id: Id)
    requires id in k.routes
  {
    var r := k.routes[id];
    || (r.offerSdp.None? && r.answerSdp.None?)
    || (&& id in h.routes && h.routes[id].browser == r.browser
        && h.routes[id].offerSdp == r.offerSdp && h.routes[id].answerSdp == r.answerSdp
        && (r.browser in k.openBrowsers ==> r.browser in h.openBrowsers))
  }

  ghost predicate Carried(h: Hub, k: Hub) {
    && LogsMild(h, k)
    && forall id {:trigger RouteCarried(h, k, id)} | id in k.routes :: RouteCarried(h, k, id)
  }

  lemma SilenceIsMild(h: Hub, k: Hub)
    requires k.browserLog == h.browserLog
    ensures LogsMild(h, k)
  {
  }

  lemma NoticeIsMild(h: Hub, k: Hub, browser: BrowserSocket, m: BrowserMessage)
    requires OneBrowserHears(h, k, browser, [m])
    requires !m.ConnectionBinding? && !(m.SignalFromBackend? && m.signal.Description?)
    ensures LogsMild(h, k)
  {
    forall b ensures Mild(LogOf(h.browserLog, b), LogOf(k.browserLog, b)) {
      if b == browser { HearingIsMild(h, k, b, [m]); }
    }
  }

  lemma HearingIsMild(h: Hub, k: Hub, b: BrowserSocket, messages: seq<BrowserMessage>)
    requires BrowserHears(h, k, b, messages) && |messages| <= 1
    requires forall m | m in messages :: !m.ConnectionBinding? && !(m.SignalFromBackend? && m.signal.Description?)
    ensures Mild(LogOf(h.browserLog, b), LogOf(k.browserLog, b))
  {
    var before, after := LogOf(h.browserLog, b), LogOf(k.browserLog, b);
    assert before + [] == before;
    if after != before { assert after == before + messages && after[|before|] in messages && after[..|before|] == before; }
  }

  /** Routes that stay as they are, or go. */
  lemma FewerRoutesAreCarried(h: Hub, k: Hub)
    requires LogsMild(h, k) && k.openBrowsers <= h.openBrowsers
    requires forall id | id in k.routes :: id in h.routes && k.routes[id] == h.routes[id]
    ensures Carried(h, k)
  {
  }

  // ---- Backends ------------------------------------------------------------------------------

  /** A backend relays an answer over the route. */
  ghost predicate AnswerRelayed(h: Hub, k: Hub, id: Id, sdp: Sdp) {
    && id in h.routes && k.routes == h.routes[id := h.routes[id].(answerSdp := Some(sdp))]
    && k.openBrowsers == h.openBrowsers
    && OnlyBrowserHears(h, k, h.routes[id].browser, [SignalFromBackend(id, Description(false, sdp))])
  }

  /** The backend of the socket relays a binding that fits the route. */
  ghost predicate BindingRelayed(cfg: HubConfig, h: Hub, k: Hub, socket: BackendSocket, id: Id, b: Binding) {
    && socket in h.handshakes && h.handshakes[socket].registered.Some? && id in h.routes
    && var backend := h.handshakes[socket].registered.value;
    && h.routes[id].backendId == backend.backendId && h.routes[id].connectionId == id && Fits(cfg, h.routes[id], backend, b)
    && k.routes == h.routes && k.openBrowsers == h.openBrowsers
    && OnlyBrowserHears(h, k, h.routes[id].browser, [ConnectionBinding(id, b)])
  }

  lemma BackendCommandCarries(cfg: HubConfig, h: Hub, s: TrustModel.Store, socket: BackendSocket, order: BackendCommand, now: Millis)
    requires HubInv(h)
    ensures var k := HandleBackendCommand(cfg, h, s, socket, order, now).0;
            || Carried(h, k)
            || (order.BackendSignalCommand? && order.signal.Description? && AnswerRelayed(h, k, order.connectionId, order.signal.sdp))
            || (order.BindingCommand? && BindingRelayed(cfg, h, k, socket, order.connectionId, order.binding))
  {
    var k := HandleBackendCommand(cfg, h, s, socket, order, now).0;
    if socket !in h.handshakes || (order.RegisterBackendCommand? <==> h.handshakes[socket].registered.Some?) {
      OutOfTurnIsRefused(cfg, h, s, socket, order, now);
      SilenceIsMild(h, k);
    } else if order.RegisterBackendCommand? {
      RegistrationCarries(cfg, h, s, socket, order.publicKey, order.signatureValid, now);
    } else {
      ServiceCarries(cfg, h, s, socket, h.handshakes[socket].registered.value, order, now);
    }
  }

  lemma RegistrationCarries(
    cfg: HubConfig, h: Hub, s: TrustModel.Store, socket: BackendSocket, publicKey: PublicKey, signatureValid: bool, now: Millis)
    requires HubInv(h) && socket in h.handshakes && h.handshakes[socket].registered == None
    ensures Carried(h, HandleBackendCommand(cfg, h, s, socket, RegisterBackendCommand(publicKey, signatureValid), now).0)
  {
    var k := HandleBackendCommand(cfg, h, s, socket, RegisterBackendCommand(publicKey, signatureValid), now).0;
    BackendRegistersIff(cfg, h, s, socket, publicKey, signatureValid, now);
    var id := cfg.deriveBackendId(publicKey);
    if signatureValid && id.Some? {
      RegisteringIsMild(h, k, s.state, RegisteredBackend(id.value, publicKey, socket));
    } else {
      SilenceIsMild(h, k);
    }
    FewerRoutesAreCarried(h, k);
  }

  lemma RegisteringIsMild(h: Hub, k: Hub, s: TrustModel.State, backend: RegisteredBackend)
    requires Registers(h, k, s, backend)
    ensures LogsMild(h, k)
  {
    if k.browserLog == h.browserLog { SilenceIsMild(h, k); } else { ClearingIsMild(h, k, backend.backendId); }
  }

  lemma ClearingIsMild(h: Hub, k: Hub, id: Id)
    requires Cleared(h, k, id)
    ensures LogsMild(h, k)
  {
    forall b ensures Mild(LogOf(h.browserLog, b), LogOf(k.browserLog, b)) {
      if b in h.browserRoutes && h.browserRoutes[b].backendId == id {
        HearingIsMild(h, k, b, [ConnectionClosed(h.browserRoutes[b].connectionId)]);
      } else {
        HearingIsMild(h, k, b, []);
      }
    }
  }

  lemma ServiceCarries(
    cfg: HubConfig, h: Hub, s: TrustModel.Store, socket: BackendSocket, backend: RegisteredBackend, order: BackendCommand, now: Millis)
    requires HubInv(h) && Serves(h, socket, backend) && !order.RegisterBackendCommand?
    ensures var k := HandleBackendCommand(cfg, h, s, socket, order, now).0;
            || Carried(h, k)
            || (order.BackendSignalCommand? && order.signal.Description? && AnswerRelayed(h, k, order.connectionId, order.signal.sdp))
            || (order.BindingCommand? && BindingRelayed(cfg, h, k, socket, order.connectionId, order.binding))
  {
    var k := HandleBackendCommand(cfg, h, s, socket, order, now).0;
    match order
    case OpenPairingCommand(pairId, expiresAt) =>
      PairingOpensIff(cfg, h, s, socket, backend, pairId, expiresAt, now);
      SilenceIsMild(h, k);
    case ConfirmPairingCommand(id, drawnAccount) =>
      ConfirmationSucceedsIff(cfg, h, s, socket, backend, id, drawnAccount, now);
      SilenceIsMild(h, k);
      if id in h.routes { assert RouteOk(h, id); }
    case BackendSignalCommand(id, signal) => SignalCarries(cfg, h, s, socket, backend, id, signal, now);
    case BindingCommand(id, b) => BindingCarries(cfg, h, s, socket, backend, id, b, now);
    case BackendCloseCommand(id) =>
      BackendClosesIff(cfg, h, s, socket, backend, id, now);
      if IsRouteOf(h, backend, id) {
        assert RouteOk(h, id);
        NoticeIsMild(h, k, h.routes[id].browser, ConnectionClosed(id));
      } else {
        SilenceIsMild(h, k);
      }
  }

  lemma SignalCarries(
    cfg: HubConfig, h: Hub, s: TrustModel.Store, socket: BackendSocket, backend: RegisteredBackend, id: Id, signal: Signal, now: Millis)
    requires HubInv(h) && Serves(h, socket, backend)
    ensures var k := HandleBackendCommand(cfg, h, s, socket, BackendSignalCommand(id, signal), now).0;
            Carried(h, k) || (signal.Description? && AnswerRelayed(h, k, id, signal.sdp))
  {
    var k := HandleBackendCommand(cfg, h, s, socket, BackendSignalCommand(id, signal), now).0;
    BackendSignalIsRelayedIff(cfg, h, s, socket, backend, id, signal, now);
    if IsRouteOf(h, backend, id) && (signal.Description? ==> !signal.isOffer) {
      assert RouteOk(h, id);
      if signal.Description? {
        assert signal == Description(false, signal.sdp);
      } else {
        NoticeIsMild(h, k, h.routes[id].browser, SignalFromBackend(id, signal));
      }
    } else {
      SilenceIsMild(h, k);
    }
  }

  lemma BindingCarries(
    cfg: HubConfig, h: Hub, s: TrustModel.Store, socket: BackendSocket, backend: RegisteredBackend, id: Id, b: Binding, now: Millis)
    requires HubInv(h) && Serves(h, socket, backend)
    ensures var k := HandleBackendCommand(cfg, h, s, socket, BindingCommand(id, b), now).0;
            Carried(h, k) || BindingRelayed(cfg, h, k, socket, id, b)
  {
    var k := HandleBackendCommand(cfg, h, s, socket, BindingCommand(id, b), now).0;
    BindingIsRelayedIff(cfg, h, s, socket, backend, id, b, now);
    if !IsRouteOf(h, backend, id) {
      SilenceIsMild(h, k);
    } else if Fits(cfg, h.routes[id], backend, b) {
      assert RouteOk(h, id);
    } else {
      assert RouteOk(h, id);
      NoticeIsMild(h, k, h.routes[id].browser, ConnectionClosed(id));
    }
  }

  // ---- Browsers ------------------------------------------------------------------------------

  /** A browser's offer goes to its backend. */
  ghost predicate OfferRelayed(h: Hub, k: Hub, browser: BrowserSocket, id: Id, sdp: Sdp) {
    && id in h.routes && h.routes[id].browser == browser && k.routes == h.routes[id := h.routes[id].(offerSdp := Some(sdp))]
    && k.openBrowsers == h.openBrowsers && k.browserLog == h.browserLog
  }

  /** No route of this browser's on this connection; an offer over it led nowhere. */
  ghost predicate NotOn(k: Hub, browser: BrowserSocket, id: Id) {
    id in k.routes ==> k.routes[id].browser != browser
  }

  lemma BrowserCommandCarries(h: Hub, s: TrustModel.Store, socket: BrowserSocket, command: BrowserCommand, now: Millis)
    requires HubInv(h)
    ensures var k := HandleBrowserCommand(h, s, socket, command, now).0;
            var offers := command.BrowserSignalCommand? && command.signal.Description? && command.signal.isOffer;
            || (Carried(h, k) && (offers ==> NotOn(k, socket, command.connectionId)))
            || (offers && OfferRelayed(h, k, socket, command.connectionId, command.signal.sdp))
  {
    var k := HandleBrowserCommand(h, s, socket, command, now).0;
    if command.ConnectCommand? {
      ConnectionCarries(h, s, socket, command.backendId, command.ticket, command.verifiedAt, command.prunedAt, now);
    } else if !Owns(h, socket, command.connectionId) || !Online(h, h.browserRoutes[socket].backendId) {
      StrangersAreRefused(h, s, socket, command, now);
      var code := if Owns(h, socket, command.connectionId) then BackendOffline else UnauthorizedConnection;
      NoticeIsMild(h, k, socket, BrowserError(code, Some(command.connectionId)));
      if command.connectionId in h.routes { assert RouteOk(h, command.connectionId); }
    } else if command.BrowserCloseCommand? {
      BrowserCloses(h, s, socket, command.connectionId, now);
      SilenceIsMild(h, k);
    } else {
      OwnSignalCarries(h, s, socket, command.connectionId, command.signal, now);
    }
  }

  lemma OwnSignalCarries(h: Hub, s: TrustModel.Store, socket: BrowserSocket, id: Id, signal: Signal, now: Millis)
    requires HubInv(h) && Owns(h, socket, id) && Online(h, h.browserRoutes[socket].backendId)
    ensures var k := HandleBrowserCommand(h, s, socket, BrowserSignalCommand(id, signal), now).0;
            if signal.Description? && signal.isOffer then OfferRelayed(h, k, socket, id, signal.sdp) else Carried(h, k)
  {
    var k := HandleBrowserCommand(h, s, socket, BrowserSignalCommand(id, signal), now).0;
    assert BrowserOk(h, socket) && RouteOk(h, id);
    BrowserSignalIsRelayedIff(h, s, socket, id, signal, now);
    if signal.Description? && !signal.isOffer {
      NoticeIsMild(h, k, socket, BrowserError(InvalidMessage, Some(id)));
    } else {
      SilenceIsMild(h, k);
    }
  }

  lemma ConnectionCarries(
    h: Hub, s: TrustModel.Store, socket: BrowserSocket, backendId: Id, ticket: Claims, verifiedAt: Millis, prunedAt: Millis, now: Millis)
    requires HubInv(h)
    ensures Carried(h, HandleBrowserCommand(h, s, socket, ConnectCommand(backendId, ticket, verifiedAt, prunedAt), now).0)
  {
    var k := HandleBrowserCommand(h, s, socket, ConnectCommand(backendId, ticket, verifiedAt, prunedAt), now).0;
    ConnectionOpensIff(h, s, socket, backendId, ticket, verifiedAt, prunedAt, now);
    if MayConnect(h, s, backendId, ticket, verifiedAt, prunedAt, now) && ticket.connectionId !in h.routes {
      EarlierRouteGoes(h, s, socket, backendId, ticket, verifiedAt, prunedAt, now);
      OpeningCarries(h, k, socket, backendId, ticket);
    } else {
      RefusalCarries(h, k, socket, if Online(h, backendId) then InvalidTicket else BackendOffline);
    }
  }

  lemma OpeningCarries(h: Hub, k: Hub, socket: BrowserSocket, backendId: Id, ticket: Claims)
    requires Opened(h, k, socket, backendId, ticket)
    requires forall id | id in k.routes && id != ticket.connectionId :: id in h.routes && k.routes[id] == h.routes[id]
    ensures Carried(h, k)
  {
    NoticeIsMild(h, k, socket, BackendConnected(backendId, ticket.connectionId));
  }

  lemma RefusalCarries(h: Hub, k: Hub, socket: BrowserSocket, code: ErrorCode)
    requires Refused(h, k, socket, code)
    ensures Carried(h, k)
  {
    NoticeIsMild(h, k, socket, BrowserError(code, None));
  }

  // ---- Every event ---------------------------------------------------------------------------

  /** What an event does to descriptions and logs. */
  ghost predicate Moves(cfg: HubConfig, h: Hub, e: Event, k: Hub) {
    match e
    case BackendSays(_, BackendSignalCommand(id, Description(_, sdp))) => Carried(h, k) || AnswerRelayed(h, k, id, sdp)
    case BackendSays(socket, BindingCommand(id, b)) => Carried(h, k) || BindingRelayed(cfg, h, k, socket, id, b)
    case BrowserSays(browser, BrowserSignalCommand(id, Description(true, sdp))) =>
      (Carried(h, k) && NotOn(k, browser, id)) || OfferRelayed(h, k, browser, id, sdp)
    case _ => Carried(h, k)
  }

  lemma EventMoves(cfg: ServerConfig, sys: System, clock: Millis, e: Event, now: Millis)
    requires HubInv(sys.hub) && TrustModel.Complete(sys.store) && Possible(sys, clock, e, now)
    ensures Moves(cfg.hub, sys.hub, e, Handle(cfg, sys, e, now).hub)
  {
    match e
    case BackendSays(socket, order) => BackendCommandCarries(cfg.hub, sys.hub, sys.store, socket, order, now);
    case BrowserSays(socket, command) => BrowserCommandCarries(sys.hub, sys.store, socket, command, now);
    case PostRevokeDevice(_) => RevocationCarries(cfg, sys, e, now);
    case PostRevokeBackend(_) => RevocationCarries(cfg, sys, e, now);
    case BackendLeaves(socket) => BackendLeavingCarries(sys.hub, socket);
    case BrowserArrives(socket) => ArrivalCarries(sys.hub, socket);
    case BrowserLeaves(socket) => BrowserLeavingCarries(sys.hub, socket);
    case _ => QuietEventCarries(cfg, sys, e, now);
  }

  lemma QuietEventCarries(cfg: ServerConfig, sys: System, e: Event, now: Millis)
    requires TrustModel.Complete(sys.store) && !e.BackendSays? && !e.BrowserSays? && !RendezvousRuns.Revokes(e)
    requires !e.BackendLeaves? && !e.BrowserLeaves? && !e.BrowserArrives?
    ensures Carried(sys.hub, Handle(cfg, sys, e, now).hub)
  {
    QuietEventIsQuiet(cfg, sys, e, now);
    SilenceIsMild(sys.hub, Handle(cfg, sys, e, now).hub);
    FewerRoutesAreCarried(sys.hub, Handle(cfg, sys, e, now).hub);
  }

  lemma QuietEventIsQuiet(cfg: ServerConfig, sys: System, e: Event, now: Millis)
    requires TrustModel.Complete(sys.store) && !e.BackendSays? && !e.BrowserSays? && !RendezvousRuns.Revokes(e)
    requires !e.BackendLeaves? && !e.BrowserLeaves? && !e.BrowserArrives?
    ensures var h, k := sys.hub, Handle(cfg, sys, e, now).hub;
            k.routes == h.routes && k.browserLog == h.browserLog && k.openBrowsers <= h.openBrowsers
  {
  }

  lemma RevocationCarries(cfg: ServerConfig, sys: System, e: Event, now: Millis)
    requires HubInv(sys.hub) && TrustModel.Complete(sys.store) && RendezvousRuns.Revokes(e)
    ensures Carried(sys.hub, Handle(cfg, sys, e, now).hub)
  {
    RevocationsAreAnnouncedIff(cfg, sys, e, now);
    var h, next := sys.hub, Handle(cfg, sys, e, now);
    var answer := if e.PostRevokeDevice? then TrustModel.RevokeDevice(sys.store, e.signed, now).1
                  else TrustModel.RevokeBackend(sys.store, e.signed, now).1;
    if answer.Ok? { AnnouncementCarries(h, next.hub, next.store.state, answer.value); }
  }

  lemma AnnouncementCarries(h: Hub, k: Hub, s: TrustModel.State, r: TrustModel.RevocationResult)
    requires MadeKnown(h, k, s, r)
    ensures Carried(h, k)
  {
    forall b ensures Mild(LogOf(h.browserLog, b), LogOf(k.browserLog, b)) {
      if b in h.browserRoutes && Revoked(r, h.browserRoutes[b]) {
        HearingIsMild(h, k, b, [ConnectionClosed(h.browserRoutes[b].connectionId)]);
      } else {
        HearingIsMild(h, k, b, []);
      }
    }
  }

  lemma BackendLeavingCarries(h: Hub, socket: BackendSocket)
    requires HubInv(h)
    ensures Carried(h, RemoveBackendSocket(h.(openBackends := h.openBackends - {socket}), socket))
  {
    var h1 := h.(openBackends := h.openBackends - {socket});
    var k := RemoveBackendSocket(h1, socket);
    SameRoutingKeeps(h, h1);
    if id :| id in h1.backends && h1.backends[id].socket == socket {
      LeavingEndsIff(h1, socket, id);
      ClearingIsMild(h1, k, id);
    } else {
      LeavingEndsIff(h1, socket, 0);
      SilenceIsMild(h, k);
    }
    FewerRoutesAreCarried(h, k);
  }

  lemma ArrivalCarries(h: Hub, socket: BrowserSocket)
    requires HubInv(h) && socket !in h.browserRoutes
    ensures Carried(h, h.(openBrowsers := h.openBrowsers + {socket}))
  {
    var k := h.(openBrowsers := h.openBrowsers + {socket});
    SilenceIsMild(h, k);
    forall id | id in k.routes ensures RouteCarried(h, k, id) { assert RouteOk(h, id); }
  }

  lemma BrowserLeavingCarries(h: Hub, socket: BrowserSocket)
    requires HubInv(h)
    ensures Carried(h, RemoveBrowser(h.(openBrowsers := h.openBrowsers - {socket}), socket))
  {
    var h1 := h.(openBrowsers := h.openBrowsers - {socket});
    SameRoutingKeeps(h, h1);
    PreviousIsDropped(h1, socket);
    SilenceIsMild(h, RemoveBrowser(h1, socket));
    FewerRoutesAreCarried(h, RemoveBrowser(h1, socket));
  }

  // ---- What the hub remembers ----------------------------------------------------------------

  /** A route's descriptions are the last offer of its browser and the last answer that this browser was sent. */
  ghost predicate RouteRemembers(h: Hub, steps: seq<Step<Event>>, i: nat, id: Id)
    requires i <= |steps| && id in h.routes
  {
    var r := h.routes[id];
    && (r.offerSdp.Some? ==> LastOffer(steps, i, r.browser, id) == r.offerSdp)
    && (r.answerSdp.Some? && r.browser in h.openBrowsers ==> LastAnswer(LogOf(h.browserLog, r.browser), id) == r.answerSdp)
  }

  ghost predicate Remembers(h: Hub, steps: seq<Step<Event>>, i: nat)
    requires i <= |steps|
  {
    forall id {:trigger RouteRemembers(h, steps, i, id)} | id in h.routes :: RouteRemembers(h, steps, i, id)
  }

  lemma MildKeepsAnswer(before: seq<BrowserMessage>, after: seq<BrowserMessage>, id: Id)
    requires Mild(before, after)
    ensures LastAnswer(after, id) == LastAnswer(before, id)
  {
  }

  lemma OneMoreMessage(log: seq<BrowserMessage>, m: BrowserMessage, id: Id)
    ensures LastAnswer(log + [m], id)
         == match m
            case SignalFromBackend(on, Description(_, sdp)) => if on == id then Some(sdp) else LastAnswer(log, id)
            case _ => LastAnswer(log, id)
  {
    assert (log + [m])[..|log|] == log;
  }

  lemma CarriedRouteRemembers(h: Hub, k: Hub, steps: seq<Step<Event>>, i: nat, id: Id)
    requires i < |steps| && Remembers(h, steps, i) && Carried(h, k) && id in k.routes
    requires Offer(steps[i].action, k.routes[id].browser, id).None?
    ensures RouteRemembers(k, steps, i + 1, id)
  {
    assert RouteCarried(h, k, id);
    if id in h.routes {
      assert RouteRemembers(h, steps, i, id);
      MildKeepsAnswer(LogOf(h.browserLog, h.routes[id].browser), LogOf(k.browserLog, h.routes[id].browser), id);
    }
  }

  lemma AnsweredRouteRemembers(h: Hub, k: Hub, steps: seq<Step<Event>>, i: nat, on: Id, sdp: Sdp, id: Id)
    requires i < |steps| && Remembers(h, steps, i) && AnswerRelayed(h, k, on, sdp) && id in k.routes
    requires steps[i].action.BackendSays?
    ensures RouteRemembers(k, steps, i + 1, id)
  {
    assert RouteRemembers(h, steps, i, id);
    OneMoreMessage(LogOf(h.browserLog, h.routes[on].browser), SignalFromBackend(on, Description(false, sdp)), id);
  }

  lemma BoundRouteRemembers(cfg: HubConfig, h: Hub, k: Hub, steps: seq<Step<Event>>, i: nat, socket: nat, on: Id, b: Binding, id: Id)
    requires i < |steps| && Remembers(h, steps, i) && BindingRelayed(cfg, h, k, socket, on, b) && id in k.routes
    requires steps[i].action.BackendSays?
    ensures RouteRemembers(k, steps, i + 1, id)
  {
    assert RouteRemembers(h, steps, i, id);
    OneMoreMessage(LogOf(h.browserLog, h.routes[on].browser), ConnectionBinding(on, b), id);
  }

  lemma OfferedRouteRemembers(h: Hub, k: Hub, steps: seq<Step<Event>>, i: nat, browser: nat, on: Id, sdp: Sdp, id: Id)
    requires i < |steps| && Remembers(h, steps, i) && OfferRelayed(h, k, browser, on, sdp) && id in k.routes
    requires steps[i].action == BrowserSays(browser, BrowserSignalCommand(on, Description(true, sdp)))
    ensures RouteRemembers(k, steps, i + 1, id)
  {
    assert RouteRemembers(h, steps, i, id);
  }

  lemma MovesKeep(cfg: HubConfig, h: Hub, k: Hub, steps: seq<Step<Event>>, i: nat)
    requires i < |steps| && Remembers(h, steps, i) && Moves(cfg, h, steps[i].action, k)
    ensures Remembers(k, steps, i + 1)
  {
    forall id | id in k.routes ensures RouteRemembers(k, steps, i + 1, id) {
      match steps[i].action
      case BackendSays(_, BackendSignalCommand(on, Description(_, sdp))) =>
        if Carried(h, k) { CarriedRouteRemembers(h, k, steps, i, id); } else { AnsweredRouteRemembers(h, k, steps, i, on, sdp, id); }
      case BackendSays(socket, BindingCommand(on, b)) =>
        if Carried(h, k) { CarriedRouteRemembers(h, k, steps, i, id); } else { BoundRouteRemembers(cfg, h, k, steps, i, socket, on, b, id); }
      case BrowserSays(browser, BrowserSignalCommand(on, Description(true, sdp))) =>
        if Carried(h, k) && NotOn(k, browser, on) {
          CarriedRouteRemembers(h, k, steps, i, id);
        } else {
          OfferedRouteRemembers(h, k, steps, i, browser, on, sdp, id);
        }
      case _ => CarriedRouteRemembers(h, k, steps, i, id);
    }
  }

  // ---- Whole runs ----------------------------------------------------------------------------

  lemma StepMoves(cfg: ServerConfig, trace: seq<System>, steps: seq<Step<Event>>, i: nat)
    requires Run(cfg, trace, steps) && i < |steps|
    ensures HubInv(trace[i].hub) && Moves(cfg.hub, trace[i].hub, steps[i].action, trace[i + 1].hub)
  {
    RendezvousRuns.RunKeepsInv(cfg, trace, steps, i);
    TrustInvariants.InvIsComplete(cfg.trust, trace[i].store);
    assert StepAt(cfg, trace, steps, i);
    EventMoves(cfg, trace[i], ClockBefore(steps, i), steps[i].action, steps[i].now);
  }

  lemma {:induction false} RunRemembers(cfg: ServerConfig, trace: seq<System>, steps: seq<Step<Event>>, i: nat)
    requires Run(cfg, trace, steps) && i < |trace|
    ensures Remembers(trace[i].hub, steps, i)
    decreases i
  {
    if i > 0 {
      RunRemembers(cfg, trace, steps, i - 1);
      StepMoves(cfg, trace, steps, i - 1);
      MovesKeep(cfg.hub, trace[i - 1].hub, trace[i].hub, steps, i - 1);
    }
  }

  /** What a browser's log gains in a step: nothing, one harmless message, an answer, or a binding. */
  lemma LogMoves(cfg: HubConfig, h: Hub, e: Event, k: Hub, w: BrowserSocket)
    requires Moves(cfg, h, e, k)
    ensures LogOf(h.browserLog, w) <= LogOf(k.browserLog, w) && |LogOf(k.browserLog, w)| <= |LogOf(h.browserLog, w)| + 1
    ensures var before, after := LogOf(h.browserLog, w), LogOf(k.browserLog, w);
            after != before && after[|before|].ConnectionBinding? ==>
              e.BackendSays? && e.order.BindingCommand? && BindingRelayed(cfg, h, k, e.backend, e.order.connectionId, e.order.binding)
              && h.routes[e.order.connectionId].browser == w && w in h.openBrowsers
              && after[|before|] == ConnectionBinding(e.order.connectionId, e.order.binding)
  {
    if Carried(h, k) { assert Mild(LogOf(h.browserLog, w), LogOf(k.browserLog, w)); }
  }

  /**
   In step `j` the backend of the route `id`, which is this browser's, sent this binding: signed, under the backend's own id
   and key, for the last answer that the browser was sent and the last offer that it made on this connection.
   */
  ghost predicate Genuine(cfg: HubConfig, trace: seq<System>, steps: seq<Step<Event>>, j: nat, w: BrowserSocket, id: Id, b: Binding)
    requires |trace| == |steps| + 1 && j < |steps|
  {
    var h, e := trace[j].hub, steps[j].action;
    && e.BackendSays? && e.order == BindingCommand(id, b)
    && e.backend in h.handshakes && h.handshakes[e.backend].registered.Some?
    && var backend := h.handshakes[e.backend].registered.value;
    && id in h.routes && h.routes[id].backendId == backend.backendId && h.routes[id].browser == w
    && b.signatureValid && b.backendId == backend.backendId && b.publicKey == backend.publicKey && b.connectionId == id
    && b.expiresAt == h.routes[id].claims.expiresAt
    && var offer, answer := LastOffer(steps, j, w, id), LastAnswer(LogOf(h.browserLog, w), id);
    && offer.Some? && b.offerSha256 == cfg.sha256(offer.value)
    && answer.Some? && b.answerSha256 == cfg.sha256(answer.value) && cfg.dtlsFingerprint(answer.value) == Some(b.dtlsFingerprint)
  }

  lemma RelayedIsGenuine(cfg: ServerConfig, trace: seq<System>, steps: seq<Step<Event>>, j: nat, w: BrowserSocket, id: Id, b: Binding)
    requires Run(cfg, trace, steps) && j < |steps| && steps[j].action.BackendSays? && steps[j].action.order == BindingCommand(id, b)
    requires BindingRelayed(cfg.hub, trace[j].hub, trace[j + 1].hub, steps[j].action.backend, id, b)
    requires trace[j].hub.routes[id].browser == w && w in trace[j].hub.openBrowsers
    ensures Genuine(cfg.hub, trace, steps, j, w, id, b)
  {
    RunRemembers(cfg, trace, steps, j);
    assert RouteRemembers(trace[j].hub, steps, j, id);
  }

  /** Every binding in a browser's log is genuine, for what that log had relayed before it. */
  lemma {:induction false} BindingsAreGenuine(cfg: ServerConfig, trace: seq<System>, steps: seq<Step<Event>>, i: nat, w: BrowserSocket, n: nat)
    returns (j: nat)
    requires Run(cfg, trace, steps) && i < |trace|
    requires n < |LogOf(trace[i].hub.browserLog, w)| && LogOf(trace[i].hub.browserLog, w)[n].ConnectionBinding?
    ensures j < i && LogOf(trace[j].hub.browserLog, w) == LogOf(trace[i].hub.browserLog, w)[..n]
    ensures var m := LogOf(trace[i].hub.browserLog, w)[n]; Genuine(cfg.hub, trace, steps, j, w, m.connectionId, m.binding)
    decreases i
  {
    var after := LogOf(trace[i].hub.browserLog, w);
    assert i > 0;
    var before := LogOf(trace[i - 1].hub.browserLog, w);
    StepMoves(cfg, trace, steps, i - 1);
    LogMoves(cfg.hub, trace[i - 1].hub, steps[i - 1].action, trace[i].hub, w);
    if n < |before| {
      assert after[n] == before[n] && after[..n] == before[..n];
      j := BindingsAreGenuine(cfg, trace, steps, i - 1, w, n);
    } else {
      j := i - 1;
      assert after[..n] == before;
      RelayedIsGenuine(cfg, trace, steps, j, w, after[n].connectionId, after[n].binding);
    }
  }
}
