/**
 The rendezvous as one transition system. A step is one HTTP handler, one WebSocket message or
 one socket event; handlers make their store calls and their hub calls without interruption.
 */
module ServerModel {
  import opened Wrappers
  import opened TrustProtocol
  import TrustModel
  import TrustRuns
  import opened HubModel

  datatype ServerConfig = ServerConfig(trust: TrustModel.Config, hub: HubConfig)

  datatype System = System(store: TrustModel.Store, hub: Hub)

  datatype Event =
    | PostChallenge(request: ChallengeRequest, challengeId: Id)
    | GetPairing(pairId: Id)
    | PostPairingTicket(pairId: Id, signed: SignedChallenge, ticketId: Id)
    | PostConnectionTicket(signed: SignedChallenge, ticketId: Id)
    | PostDiscover(signed: SignedChallenge)
    | PostInvite(signed: SignedChallenge, inviteId: Id, secret: Secret)
    | PostAccept(signed: SignedChallenge, inviteId: Id, secret: Secret)
    | PostRevokeDevice(signed: SignedChallenge)
    | PostRevokeBackend(signed: SignedChallenge)
    | BackendArrives(backend: BackendSocket, nonce: Id)
    | BackendSays(backend: BackendSocket, order: BackendCommand)
    | BackendStopsListening(backend: BackendSocket)
    | BackendLeaves(backend: BackendSocket)
    | BrowserArrives(browser: BrowserSocket)
    | BrowserSays(browser: BrowserSocket, command: BrowserCommand)
    | BrowserStopsListening(browser: BrowserSocket)
    | BrowserLeaves(browser: BrowserSocket)

  const EmptySystem := System(TrustModel.EmptyStore, EmptyHub)

  // ---- Handlers ------------------------------------------------------------------------------

  function AnswerChallenge(cfg: ServerConfig, sys: System, r: ChallengeRequest, challengeId: Id, now: Millis): System {
    if r.purpose == ToPair && (r.pairId.None? || !LeadsTo(sys.hub, r.pairId.value, r.backendId, now)) then
      if r.pairId.None? then sys else sys.(hub := DropDeadPairing(sys.hub, r.pairId.value, now))
    else if r.purpose == ToConnect && r.backendId.Some? && !IsBackendOnline(sys.hub, r.backendId.value) then sys
    else sys.(store := TrustModel.CreateChallenge(cfg.trust, sys.store, r, challengeId, now).0)
  }

  predicate LeadsTo(h: Hub, pairId: Id, backendId: Option<Id>, now: Millis) {
    OpenPairingOf(h, pairId, now).Some? && Some(OpenPairingOf(h, pairId, now).value.backendId) == backendId
  }

  function AnswerPairingTicket(cfg: ServerConfig, sys: System, pairId: Id, signed: SignedChallenge, ticketId: Id, now: Millis): System
    requires TrustModel.Complete(sys.store)
  {
    if OpenPairingOf(sys.hub, pairId, now).None? then sys.(hub := DropDeadPairing(sys.hub, pairId, now))
    else sys.(store := TrustModel.IssuePairingTicket(cfg.trust, sys.store, signed, ticketId, now).0)
  }

  /** The store revokes first; then the hub tells the backends and ends the routes. */
  function AnswerRevocation(sys: System, revoked: (TrustModel.Store, TrustModel.Answer<TrustModel.RevocationResult>)): System {
    match revoked.1
    case Err(_) => sys.(store := revoked.0)
    case Ok(r) => System(revoked.0, NotifyRevocation(sys.hub, revoked.0.state, r))
  }

  function Handle(cfg: ServerConfig, sys: System, e: Event, now: Millis): System
    requires TrustModel.Complete(sys.store)
  {
    match e
    case PostChallenge(r, id) => AnswerChallenge(cfg, sys, r, id, now)
    case GetPairing(pairId) => sys.(hub := DropDeadPairing(sys.hub, pairId, now))
    case PostPairingTicket(pairId, signed, id) => AnswerPairingTicket(cfg, sys, pairId, signed, id, now)
    case PostConnectionTicket(signed, id) => sys.(store := TrustModel.IssueConnectionTicket(cfg.trust, sys.store, signed, id, now).0)
    case PostDiscover(signed) => sys.(store := TrustModel.ListAuthorizedBackendIds(sys.store, signed, now).0)
    case PostInvite(signed, id, secret) => sys.(store := TrustModel.CreateDeviceInvite(cfg.trust, sys.store, signed, id, secret, now).0)
    case PostAccept(signed, id, secret) => sys.(store := TrustModel.AcceptDeviceInvite(cfg.trust, sys.store, signed, id, secret, now).0)
    case PostRevokeDevice(signed) => AnswerRevocation(sys, TrustModel.RevokeDevice(sys.store, signed, now))
    case PostRevokeBackend(signed) => AnswerRevocation(sys, TrustModel.RevokeBackend(sys.store, signed, now))
    case BackendArrives(socket, nonce) => sys.(hub := AcceptBackend(sys.hub, socket, nonce))
    case BackendSays(socket, order) =>
      var (hub, store) := HandleBackendCommand(cfg.hub, sys.hub, sys.store, socket, order, now);
      System(store, hub)
    case BackendStopsListening(socket) => sys.(hub := sys.hub.(openBackends := sys.hub.openBackends - {socket}))
    case BackendLeaves(socket) =>
      sys.(hub := RemoveBackendSocket(sys.hub.(openBackends := sys.hub.openBackends - {socket}), socket))
    case BrowserArrives(socket) => sys.(hub := sys.hub.(openBrowsers := sys.hub.openBrowsers + {socket}))
    case BrowserSays(socket, command) =>
      var (hub, store) := HandleBrowserCommand(sys.hub, sys.store, socket, command, now);
      System(store, hub)
    case BrowserStopsListening(socket) => sys.(hub := sys.hub.(openBrowsers := sys.hub.openBrowsers - {socket}))
    case BrowserLeaves(socket) => sys.(hub := RemoveBrowser(sys.hub.(openBrowsers := sys.hub.openBrowsers - {socket}), socket))
  }

  /** The random identifier that an event draws. */
  function Drawn(e: Event): set<Id> {
    match e
    case PostChallenge(_, id) => {id}
    case PostPairingTicket(_, _, id) => {id}
    case PostConnectionTicket(_, id) => {id}
    case PostInvite(_, id, _) => {id}
    case BackendSays(_, ConfirmPairingCommand(_, id)) => {id}
    case _ => {}
  }

  /** Time moves on, random identifiers are fresh, and a new connection is a new socket. */
  ghost predicate Possible(sys: System, clock: Millis, e: Event, now: Millis) {
    && 0 < now && clock <= now
    && Drawn(e) !! sys.store.drawn
    && (e.BackendArrives? ==> e.backend !in sys.hub.handshakes)
    && (e.BrowserArrives? ==> e.browser !in sys.hub.browserRoutes)
    && (e.BrowserSays? && e.command.ConnectCommand? ==> 0 < e.command.verifiedAt && clock <= e.command.verifiedAt <= e.command.prunedAt <= now)
  }

  /** The pairing of these claims was confirmed with this very ticket. */
  predicate Confirmed(s: TrustModel.State, c: Claims) {
    && c.kind.Pairing? && c.pairId.Some? && c.pairId.value in s.pairingCompletions
    && s.pairingCompletions[c.pairId.value].ticketId == c.ticketId
  }

  /**
   The ticket of a completed pairing expires between the check and the pruning of the step that
   consumes it: the one way in which such a ticket passes again.
   */
  predicate Slips(s: TrustModel.State, ticket: Claims, verifiedAt: Millis, prunedAt: Millis) {
    verifiedAt < ticket.expiresAt <= prunedAt && Confirmed(s, ticket)
  }

  ghost predicate StepAt(cfg: ServerConfig, trace: seq<System>, steps: seq<Step<Event>>, i: nat)
    requires |trace| == |steps| + 1 && i < |steps|
  {
    && Possible(trace[i], ClockBefore(steps, i), steps[i].action, steps[i].now)
    && (TrustModel.Complete(trace[i].store) ==> trace[i + 1] == Handle(cfg, trace[i], steps[i].action, steps[i].now))
  }

  /** A run of the rendezvous; `trace[i]` is the system before `steps[i]`. */
  ghost predicate Run(cfg: ServerConfig, trace: seq<System>, steps: seq<Step<Event>>) {
    && |trace| == |steps| + 1
    && trace[0] == EmptySystem
    && forall i: nat {:trigger StepAt(cfg, trace, steps, i)} | i < |steps| :: StepAt(cfg, trace, steps, i)
  }
}
