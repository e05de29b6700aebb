/**
 The safety of the rendezvous: whatever happens, a live route that carries rights still has them,
 unless its ticket slipped through a second time.
 */
module RouteSafety {
  import opened Wrappers
  import opened TrustProtocol
  import opened TrustModel
  import opened TrustInvariants
  import TrustRuns
  import H = HubModel
  import opened HubInvariants
  import opened ServerModel

  // ---- What is safe --------------------------------------------------------------------------

  /** A route that carries rights: a connection, or a pairing that was confirmed. */
  predicate Decided(s: State, c: Claims) {
    c.kind.Connection? || Confirmed(s, c)
  }

  /** The account of the claims owns the backend, and the device is one of its active devices. */
  predicate Authorised(s: State, c: Claims) {
    && c.accountId.Some?
    && BackendOwner(s, c.backendId) == c.accountId
    && IsDeviceActive(s, c.deviceId)
    && s.devices[c.deviceId].accountId == c.accountId.value
  }

  ghost predicate Safe(sys: System) {
    forall id | id in sys.hub.routes && Decided(sys.store.state, sys.hub.routes[id].claims) ::
      Authorised(sys.store.state, sys.hub.routes[id].claims)
  }

  // ---- The exception -------------------------------------------------------------------------

  /** A ticket that passes: signed here, valid at `verifiedAt`, and not recorded as used at `prunedAt`. */
  predicate Presentable(s: Store, ticket: Claims, verifiedAt: Millis, prunedAt: Millis) {
    && ticket.ticketId in s.minted && s.minted[ticket.ticketId] == ticket
    && ticket.issuedAt < ticket.expiresAt && verifiedAt < ticket.expiresAt && ticket.issuedAt <= verifiedAt + MAX_ISSUE_SKEW_MS
    && (ticket.ticketId !in s.state.usedTickets || s.state.usedTickets[ticket.ticketId] <= prunedAt)
  }

  /** The browser gets a route: the ticket passes, the hub admits it, and its connection id is free. */
  predicate Opens(sys: System, backendId: Id, ticket: Claims, verifiedAt: Millis, prunedAt: Millis, now: Millis) {
    && H.IsBackendOnline(sys.hub, backendId)
    && Presentable(sys.store, ticket, verifiedAt, prunedAt)
    && H.Admits(sys.hub, sys.store.state, backendId, ticket, now)
    && ticket.connectionId !in sys.hub.routes
  }

  /** A slipping ticket opens a route although its rights are gone or were never written into it. */
  predicate Misfires(sys: System, backendId: Id, ticket: Claims, verifiedAt: Millis, prunedAt: Millis, now: Millis) {
    && Slips(sys.store.state, ticket, verifiedAt, prunedAt)
    && Opens(sys, backendId, ticket, verifiedAt, prunedAt, now)
    && !Authorised(sys.store.state, ticket)
  }

  lemma PassesIff(s: Store, ticket: Claims, verifiedAt: Millis, now: Millis)
    ensures ConsumeRouteTicket(s, ticket, verifiedAt, now).1.Ok? <==> Presentable(s, ticket, verifiedAt, now)
  {
  }

  /** Consuming a ticket changes nobody's rights. */
  lemma ConsumptionKeepsRights(s: Store, ticket: Claims, verifiedAt: Millis, now: Millis, c: Claims)
    ensures var t := ConsumeRouteTicket(s, ticket, verifiedAt, now).0;
            (Decided(t.state, c) <==> Decided(s.state, c)) && (Authorised(t.state, c) <==> Authorised(s.state, c))
  {
  }

  lemma ConsumptionKeepsAdmission(h: H.Hub, s: Store, backendId: Id, ticket: Claims, verifiedAt: Millis, prunedAt: Millis, now: Millis)
    ensures H.Admits(h, ConsumeRouteTicket(s, ticket, verifiedAt, prunedAt).0.state, backendId, ticket, now)
       <==> H.Admits(h, s.state, backendId, ticket, now)
  {
  }

  /** A completed pairing names the device of its ticket and that device's account. */
  ghost predicate CompletionFits(s: Store, p: Id)
    requires p in s.state.pairingCompletions
  {
    var done := s.state.pairingCompletions[p];
    && done.ticketId in s.minted && s.minted[done.ticketId].deviceId == done.deviceId
    && done.deviceId in s.state.devices && s.state.devices[done.deviceId].accountId == done.accountId
  }

  ghost predicate CompletionsFit(s: Store) {
    forall p {:trigger CompletionFits(s, p)} | p in s.state.pairingCompletions :: CompletionFits(s, p)
  }

  /** What is confirmed for the ticket of these claims is confirmed for their device. */
  lemma ConfirmedAccount(s: Store, c: Claims)
    requires CompletionsFit(s) && Confirmed(s.state, c)
    requires c.ticketId in s.minted && s.minted[c.ticketId].deviceId == c.deviceId
    ensures var account := s.state.pairingCompletions[c.pairId.value].accountId;
            c.deviceId in s.state.devices && s.state.devices[c.deviceId].accountId == account
  {
    assert CompletionFits(s, c.pairId.value);
  }

  // ---- The invariant -------------------------------------------------------------------------

  /** The claims come from a signed ticket that can no longer be presented. */
  ghost predicate FromSpentTicket(s: Store, c: Claims, clock: Millis) {
    && c.ticketId in s.minted
    && TrustRuns.Spent(s, s.minted[c.ticketId], clock)
    && c == s.minted[c.ticketId].(accountId := c.accountId)
  }

  ghost predicate ClaimsSafe(s: State, c: Claims) {
    && (Decided(s, c) ==> Authorised(s, c))
    && (Confirmed(s, c) ==> c.accountId == Some(s.pairingCompletions[c.pairId.value].accountId))
  }

  ghost predicate RouteFits(cfg: ServerConfig, slipped: set<Id>, s: Store, c: Claims, clock: Millis) {
    && FromSpentTicket(s, c, clock) && ClaimsFit(cfg.trust, s.state, c)
    && (c.ticketId in slipped || ClaimsSafe(s.state, c))
  }

  /** The ticket of a completed pairing can no longer be presented. */
  ghost predicate CompletionSpent(s: Store, p: Id, clock: Millis)
    requires p in s.state.pairingCompletions
  {
    var t := s.state.pairingCompletions[p].ticketId;
    t in s.minted && TrustRuns.Spent(s, s.minted[t], clock)
  }

  /** No two routes were opened with the same ticket. */
  ghost predicate TicketsApart(h: H.Hub) {
    forall i, j | i in h.routes && j in h.routes && h.routes[i].claims.ticketId == h.routes[j].claims.ticketId :: i == j
  }

  ghost predicate RoutesFit(cfg: ServerConfig, slipped: set<Id>, s: Store, h: H.Hub, clock: Millis) {
    forall id {:trigger id in h.routes} | id in h.routes :: RouteFits(cfg, slipped, s, h.routes[id].claims, clock)
  }

  ghost predicate CompletionsSpent(s: Store, clock: Millis) {
    forall p {:trigger p in s.state.pairingCompletions} | p in s.state.pairingCompletions :: CompletionSpent(s, p, clock)
  }

  /** Holds throughout a run, with the tickets that slipped so far. */
  ghost predicate SystemInv(cfg: ServerConfig, slipped: set<Id>, sys: System, clock: Millis) {
    && StoreInv(cfg.trust, sys.store)
    && HubInv(sys.hub)
    && RoutesFit(cfg, slipped, sys.store, sys.hub, clock)
    && TicketsApart(sys.hub)
    && CompletionsSpent(sys.store, clock)
  }

  lemma SlippedRoutesAreTheUnsafe(cfg: ServerConfig, slipped: set<Id>, sys: System, clock: Millis)
    requires SystemInv(cfg, slipped, sys, clock)
    ensures forall id | id in sys.hub.routes && Decided(sys.store.state, sys.hub.routes[id].claims) ::
              sys.hub.routes[id].claims.ticketId in slipped || Authorised(sys.store.state, sys.hub.routes[id].claims)
  {
    forall id | id in sys.hub.routes && Decided(sys.store.state, sys.hub.routes[id].claims)
      ensures sys.hub.routes[id].claims.ticketId in slipped || Authorised(sys.store.state, sys.hub.routes[id].claims)
    {
      assert RouteFits(cfg, slipped, sys.store, sys.hub.routes[id].claims, clock);
    }
  }

  lemma InvIsSafe(cfg: ServerConfig, sys: System, clock: Millis)
    requires SystemInv(cfg, {}, sys, clock)
    ensures Safe(sys)
  {
    SlippedRoutesAreTheUnsafe(cfg, {}, sys, clock);
  }

  /** Once a system is safe again, what slipped before no longer matters. */
  lemma SafetyForgetsSlips(cfg: ServerConfig, slipped: set<Id>, sys: System, clock: Millis)
    requires SystemInv(cfg, slipped, sys, clock) && CompletionsFit(sys.store) && Safe(sys)
    ensures SystemInv(cfg, {}, sys, clock)
  {
    forall id | id in sys.hub.routes ensures RouteFits(cfg, {}, sys.store, sys.hub.routes[id].claims, clock) {
      var c := sys.hub.routes[id].claims;
      assert RouteFits(cfg, slipped, sys.store, c, clock);
      if Confirmed(sys.store.state, c) { ConfirmedAccount(sys.store, c); }
    }
  }

  lemma MoreSlipped(cfg: ServerConfig, slipped: set<Id>, more: set<Id>, sys: System, clock: Millis)
    requires SystemInv(cfg, slipped, sys, clock) && slipped <= more
    ensures SystemInv(cfg, more, sys, clock)
  {
    forall id | id in sys.hub.routes ensures RouteFits(cfg, more, sys.store, sys.hub.routes[id].claims, clock) {
      assert RouteFits(cfg, slipped, sys.store, sys.hub.routes[id].claims, clock);
    }
  }

  // ---- Steps that decide nothing -------------------------------------------------------------

  /** Spent tickets stay spent. */
  ghost predicate SpentKept(s: Store, clock: Millis, t: Store, now: Millis) {
    forall k {:trigger k in t.minted} | k in s.minted ::
      && k in t.minted && t.minted[k] == s.minted[k]
      && (TrustRuns.Spent(s, s.minted[k], clock) ==> TrustRuns.Spent(t, s.minted[k], now))
  }

  /** Owners, completions and active devices are as before. */
  ghost predicate Calm(s: State, t: State) {
    && t.backendOwners == s.backendOwners
    && t.pairingCompletions == s.pairingCompletions
    && forall d | IsDeviceActive(s, d) :: IsDeviceActive(t, d)
  }

  lemma CalmClaims(cfg: ServerConfig, slipped: set<Id>, s: Store, clock: Millis, t: Store, now: Millis, c: Claims)
    requires RouteFits(cfg, slipped, s, c, clock) && SpentKept(s, clock, t, now)
    requires DevicesKept(s.state, t.state) && Calm(s.state, t.state)
    ensures RouteFits(cfg, slipped, t, c, now)
  {
    ClaimsStillFit(cfg.trust, s.state, t.state, c);
    if c.deviceId in s.state.devices { assert DeviceKept(s.state, t.state, c.deviceId); }
  }

  /** A step that is calm in the store and only ends routes in the hub keeps everything. */
  lemma CalmKeeps(cfg: ServerConfig, slipped: set<Id>, sys: System, clock: Millis, next: System, now: Millis)
    requires SystemInv(cfg, slipped, sys, clock) && StoreInv(cfg.trust, next.store) && HubInv(next.hub)
    requires SpentKept(sys.store, clock, next.store, now)
    requires DevicesKept(sys.store.state, next.store.state) && Calm(sys.store.state, next.store.state)
    requires RoutesShrink(sys.hub, next.hub)
    ensures SystemInv(cfg, slipped, next, now)
  {
    forall id | id in next.hub.routes ensures RouteFits(cfg, slipped, next.store, next.hub.routes[id].claims, now) {
      CalmClaims(cfg, slipped, sys.store, clock, next.store, now, sys.hub.routes[id].claims);
    }
    forall p | p in next.store.state.pairingCompletions ensures CompletionSpent(next.store, p, now) {
      assert CompletionSpent(sys.store, p, clock);
    }
  }

  lemma ActKeepsSpent(cfg: ServerConfig, s: Store, clock: Millis, step: Step<TrustRuns.Action>)
    requires StoreInv(cfg.trust, s) && TrustRuns.Enabled(cfg.trust, s, clock, step)
    ensures Complete(s)
    ensures var t := TrustRuns.Act(cfg.trust, s, step);
            StoreInv(cfg.trust, t) && Evolves(s.state, t.state) && SpentKept(s, clock, t, step.now)
  {
    TrustRuns.ActKeeps(cfg.trust, s, clock, step);
    TrustRuns.ActGrows(cfg.trust, s, clock, step);
    var t := TrustRuns.Act(cfg.trust, s, step);
    forall k | k in s.minted ensures TrustRuns.Spent(s, s.minted[k], clock) ==> TrustRuns.Spent(t, s.minted[k], step.now) {
      if TrustRuns.Spent(s, s.minted[k], clock) { TrustRuns.SpentStays(cfg.trust, s, clock, step, t, s.minted[k]); }
    }
  }

  /** Store operations that neither confirm nor revoke are calm. */
  lemma QuietActIsCalm(cfg: ServerConfig, s: Store, clock: Millis, step: Step<TrustRuns.Action>)
    requires StoreInv(cfg.trust, s) && TrustRuns.Enabled(cfg.trust, s, clock, step)
    requires !step.action.ConfirmOp? && !step.action.RevokeDeviceOp? && !step.action.RevokeBackendOp?
    ensures Complete(s)
    ensures Calm(s.state, TrustRuns.Act(cfg.trust, s, step).state)
  {
    InvIsComplete(cfg.trust, s);
    var t := TrustRuns.Act(cfg.trust, s, step).state;
    match step.action
    case CreateChallengeOp(_, _) => assert t == s.state.(deviceInvites := t.deviceInvites, usedTickets := t.usedTickets);
    case ConsumeTicketOp(_, _) => assert t == s.state.(deviceInvites := t.deviceInvites, usedTickets := t.usedTickets);
    case AcceptOp(_, _, _) => AcceptIsCalm(cfg, s, step);
    case _ => IssuingIsCalm(cfg, s, step);
  }

  lemma IssuingIsCalm(cfg: ServerConfig, s: Store, step: Step<TrustRuns.Action>)
    requires Complete(s)
    requires step.action.PairingTicketOp? || step.action.ConnectionTicketOp? || step.action.DiscoverOp? || step.action.InviteOp?
    ensures Calm(s.state, TrustRuns.Act(cfg.trust, s, step).state)
  {
    var t := TrustRuns.Act(cfg.trust, s, step).state;
    if step.action.InviteOp? { assert t == s.state.(deviceInvites := t.deviceInvites); } else { assert t == s.state; }
  }

  lemma AcceptIsCalm(cfg: ServerConfig, s: Store, step: Step<TrustRuns.Action>)
    requires Complete(s) && step.action.AcceptOp?
    ensures Calm(s.state, TrustRuns.Act(cfg.trust, s, step).state)
  {
  }

  lemma QuietKeeps(cfg: ServerConfig, slipped: set<Id>, sys: System, clock: Millis, step: Step<TrustRuns.Action>, next: System)
    requires SystemInv(cfg, slipped, sys, clock) && TrustRuns.Enabled(cfg.trust, sys.store, clock, step)
    requires !step.action.ConfirmOp? && !step.action.RevokeDeviceOp? && !step.action.RevokeBackendOp?
    requires Complete(sys.store) && next.store == TrustRuns.Act(cfg.trust, sys.store, step)
    requires HubInv(next.hub) && RoutesShrink(sys.hub, next.hub)
    ensures SystemInv(cfg, slipped, next, step.now)
  {
    ActKeepsSpent(cfg, sys.store, clock, step);
    QuietActIsCalm(cfg, sys.store, clock, step);
    CalmKeeps(cfg, slipped, sys, clock, next, step.now);
  }

  lemma HubStepKeeps(cfg: ServerConfig, slipped: set<Id>, sys: System, clock: Millis, hub: H.Hub, now: Millis)
    requires SystemInv(cfg, slipped, sys, clock) && clock <= now && HubInv(hub) && RoutesShrink(sys.hub, hub)
    ensures SystemInv(cfg, slipped, sys.(hub := hub), now)
  {
    CalmKeeps(cfg, slipped, sys, clock, sys.(hub := hub), now);
  }

  // ---- Confirming a pairing ------------------------------------------------------------------

  /** What a successful first confirmation makes of any route's claims. */
  lemma GrantKeepsClaims(cfg: ServerConfig, s: Store, granted: Claims, drawnAccount: Id, now: Millis, c: Claims)
    requires StoreInv(cfg.trust, s) && ClaimsFit(cfg.trust, s.state, granted) && ClaimsFit(cfg.trust, s.state, c) && ClaimsSafe(s.state, c)
    requires granted.pairId.Some? && granted.pairId.value !in s.state.pairingCompletions
    requires ConfirmPairing(s, granted, drawnAccount, now).1.Ok?
    requires c.ticketId != granted.ticketId
    ensures ClaimsSafe(ConfirmPairing(s, granted, drawnAccount, now).0.state, c)
  {
    ConfirmPairingKeeps(cfg.trust, s, granted, drawnAccount, now);
    var t := ConfirmPairing(s, granted, drawnAccount, now).0;
    assert Confirmed(t.state, c) ==> Confirmed(s.state, c);
    if Decided(s.state, c) { assert DeviceKept(s.state, t.state, c.deviceId); }
  }

  lemma GrantIsSafe(cfg: ServerConfig, s: Store, granted: Claims, drawnAccount: Id, now: Millis)
    requires StoreInv(cfg.trust, s) && ClaimsFit(cfg.trust, s.state, granted)
    requires granted.pairId.Some? && granted.pairId.value !in s.state.pairingCompletions
    requires ConfirmPairing(s, granted, drawnAccount, now).1.Ok?
    ensures var (t, a) := ConfirmPairing(s, granted, drawnAccount, now);
            var c := granted.(accountId := Some(a.value.accountId));
            ClaimsSafe(t.state, c) && ClaimsFit(cfg.trust, t.state, c)
  {
    if granted.deviceId in s.state.devices { assert DeviceOk(cfg.trust, s.state, granted.deviceId); }
  }

  lemma ConfirmKeeps(
    cfg: ServerConfig, slipped: set<Id>, sys: System, clock: Millis, backend: H.RegisteredBackend, id: Id, drawnAccount: Id, now: Millis)
    requires SystemInv(cfg, slipped, sys, clock) && 0 < now && clock <= now && drawnAccount !in sys.store.drawn && CompletionsFit(sys.store)
    ensures var (hub, store) := H.ConfirmPairing(sys.hub, sys.store, backend, id, drawnAccount, now);
            SystemInv(cfg, slipped, System(store, hub), now)
  {
    var (hub, store) := H.ConfirmPairing(sys.hub, sys.store, backend, id, drawnAccount, now);
    if Confirmable(sys.hub, backend, id, now) {
      ConfirmableKeeps(cfg, slipped, sys, clock, backend, id, drawnAccount, now);
    } else {
      RefusedHub(sys, backend, id, drawnAccount, now);
      SameRoutingKeeps(sys.hub, hub);
      HubStepKeeps(cfg, slipped, sys, clock, hub, now);
    }
  }

  /** The hub's own conditions for asking the store to confirm. */
  predicate Confirmable(h: H.Hub, backend: H.RegisteredBackend, id: Id, now: Millis) {
    && H.RouteForBackend(h, backend, id).Some?
    && var c := h.routes[id].claims;
    && c.kind.Pairing? && c.pairId.Some?
    && H.OpenPairingOf(h, c.pairId.value, now).Some?
    && H.OpenPairingOf(h, c.pairId.value, now).value.backendId == backend.backendId
  }

  lemma RefusedHub(sys: System, backend: H.RegisteredBackend, id: Id, drawnAccount: Id, now: Millis)
    requires !Confirmable(sys.hub, backend, id, now)
    ensures var (hub, store) := H.ConfirmPairing(sys.hub, sys.store, backend, id, drawnAccount, now);
            store == sys.store && SameRouting(sys.hub, hub)
  {
    var hub := H.ConfirmPairing(sys.hub, sys.store, backend, id, drawnAccount, now).0;
    var found := H.RouteForBackend(sys.hub, backend, id);
    if found.None? || found.value.claims.kind.Connection? || found.value.claims.pairId.None? {
      assert hub == sys.hub.(backendLog := hub.backendLog);
    } else {
      var dropped := H.DropDeadPairing(sys.hub, found.value.claims.pairId.value, now);
      assert dropped == sys.hub.(pairings := dropped.pairings);
      assert hub == dropped.(backendLog := hub.backendLog);
    }
  }

  lemma ConfirmableKeeps(
    cfg: ServerConfig, slipped: set<Id>, sys: System, clock: Millis, backend: H.RegisteredBackend, id: Id, drawnAccount: Id, now: Millis)
    requires SystemInv(cfg, slipped, sys, clock) && 0 < now && clock <= now && drawnAccount !in sys.store.drawn && CompletionsFit(sys.store)
    requires Confirmable(sys.hub, backend, id, now)
    ensures var (hub, store) := H.ConfirmPairing(sys.hub, sys.store, backend, id, drawnAccount, now);
            SystemInv(cfg, slipped, System(store, hub), now)
  {
    var (hub, store) := H.ConfirmPairing(sys.hub, sys.store, backend, id, drawnAccount, now);
    var route := sys.hub.routes[id];
    assert RouteOk(sys.hub, id);
    ConfirmRouteKeeps(cfg, slipped, sys, clock, route, drawnAccount, now);
    AskedHub(sys, backend, id, drawnAccount, now);
    var confirmed := ConfirmedHub(sys, route, drawnAccount, now);
    SameRoutingKeeps(confirmed, hub);
    HubStepKeeps(cfg, slipped, System(store, confirmed), now, hub, now);
  }

  lemma AskedHub(sys: System, backend: H.RegisteredBackend, id: Id, drawnAccount: Id, now: Millis)
    requires Confirmable(sys.hub, backend, id, now)
    ensures var (hub, store) := H.ConfirmPairing(sys.hub, sys.store, backend, id, drawnAccount, now);
            && store == ConfirmPairing(sys.store, sys.hub.routes[id].claims, drawnAccount, now).0
            && SameRouting(ConfirmedHub(sys, sys.hub.routes[id], drawnAccount, now), hub)
  {
    var hub := H.ConfirmPairing(sys.hub, sys.store, backend, id, drawnAccount, now).0;
    var confirmed := ConfirmedHub(sys, sys.hub.routes[id], drawnAccount, now);
    assert hub == confirmed.(pairings := hub.pairings, backendLog := hub.backendLog);
  }

  /** The hub after the store answered: the account is written into the route. */
  function ConfirmedHub(sys: System, route: H.Route, drawnAccount: Id, now: Millis): H.Hub {
    match ConfirmPairing(sys.store, route.claims, drawnAccount, now).1
    case Err(_) => sys.hub
    case Ok(c) => H.PutRoute(sys.hub, route.(claims := route.claims.(accountId := Some(c.accountId))))
  }

  lemma ConfirmRouteKeeps(cfg: ServerConfig, slipped: set<Id>, sys: System, clock: Millis, route: H.Route, drawnAccount: Id, now: Millis)
    requires SystemInv(cfg, slipped, sys, clock) && 0 < now && clock <= now && drawnAccount !in sys.store.drawn && CompletionsFit(sys.store)
    requires route.connectionId in sys.hub.routes && sys.hub.routes[route.connectionId] == route && route.claims.kind.Pairing?
    ensures SystemInv(cfg, slipped, System(ConfirmPairing(sys.store, route.claims, drawnAccount, now).0,
                                  ConfirmedHub(sys, route, drawnAccount, now)), now)
  {
    var c := route.claims;
    assert RouteOk(sys.hub, route.connectionId) && RouteFits(cfg, slipped, sys.store, c, clock);
    var (store, a) := ConfirmPairing(sys.store, c, drawnAccount, now);
    if a.Err? {
      HubStepKeeps(cfg, slipped, sys, clock, sys.hub, now);
    } else {
      var hub := ConfirmedHub(sys, route, drawnAccount, now);
      PutRouteKeeps(sys.hub, route.(claims := c.(accountId := Some(a.value.accountId))));
      if c.pairId.value in sys.store.state.pairingCompletions {
        ConfirmedAgainKeeps(cfg, slipped, sys, clock, route, drawnAccount, now);
      } else {
        FirstConfirmationKeeps(cfg, slipped, sys, clock, route, drawnAccount, now);
      }
    }
  }

  /** The retry: a route that was confirmed before already carries this account. */
  lemma ConfirmedAgainKeeps(
    cfg: ServerConfig, slipped: set<Id>, sys: System, clock: Millis, route: H.Route, drawnAccount: Id, now: Millis)
    requires SystemInv(cfg, slipped, sys, clock) && clock <= now && CompletionsFit(sys.store)
    requires route.connectionId in sys.hub.routes && sys.hub.routes[route.connectionId] == route && route.claims.kind.Pairing?
    requires route.claims.pairId.Some? && route.claims.pairId.value in sys.store.state.pairingCompletions
    requires ConfirmPairing(sys.store, route.claims, drawnAccount, now).1.Ok?
    requires HubInv(ConfirmedHub(sys, route, drawnAccount, now))
    ensures SystemInv(cfg, slipped, System(ConfirmPairing(sys.store, route.claims, drawnAccount, now).0,
                                           ConfirmedHub(sys, route, drawnAccount, now)), now)
  {
    var c := route.claims;
    assert RouteFits(cfg, slipped, sys.store, c, clock);
    ConfirmedAccount(sys.store, c);
    HubStepKeeps(cfg, slipped, sys, clock, sys.hub, now);
    var account := sys.store.state.pairingCompletions[c.pairId.value].accountId;
    RewriteKeeps(cfg, slipped, sys, now, route, c.(accountId := Some(account)));
  }

  /** Other claims of the same ticket are written into a route. */
  lemma RewriteKeeps(cfg: ServerConfig, slipped: set<Id>, sys: System, now: Millis, route: H.Route, c: Claims)
    requires SystemInv(cfg, slipped, sys, now) && route.connectionId in sys.hub.routes && sys.hub.routes[route.connectionId] == route
    requires c.ticketId == route.claims.ticketId && RouteFits(cfg, slipped, sys.store, c, now)
    requires HubInv(H.PutRoute(sys.hub, route.(claims := c)))
    ensures SystemInv(cfg, slipped, sys.(hub := H.PutRoute(sys.hub, route.(claims := c))), now)
  {
    var hub := H.PutRoute(sys.hub, route.(claims := c));
    assert hub.routes == sys.hub.routes[route.connectionId := route.(claims := c)];
    forall id | id in hub.routes ensures RouteFits(cfg, slipped, sys.store, hub.routes[id].claims, now) {
      if id != route.connectionId { assert RouteFits(cfg, slipped, sys.store, sys.hub.routes[id].claims, now); }
    }
  }

  lemma FirstConfirmationKeeps(cfg: ServerConfig, slipped: set<Id>, sys: System, clock: Millis, route: H.Route, drawnAccount: Id, now: Millis)
    requires SystemInv(cfg, slipped, sys, clock) && 0 < now && clock <= now && drawnAccount !in sys.store.drawn
    requires route.connectionId in sys.hub.routes && sys.hub.routes[route.connectionId] == route && route.claims.kind.Pairing?
    requires route.claims.pairId.Some? && route.claims.pairId.value !in sys.store.state.pairingCompletions
    requires ConfirmPairing(sys.store, route.claims, drawnAccount, now).1.Ok?
    requires HubInv(ConfirmedHub(sys, route, drawnAccount, now))
    ensures SystemInv(cfg, slipped, System(ConfirmPairing(sys.store, route.claims, drawnAccount, now).0,
                                  ConfirmedHub(sys, route, drawnAccount, now)), now)
  {
    var c := route.claims;
    var s := sys.store;
    assert RouteFits(cfg, slipped, s, c, clock);
    ConfirmKeepsSpent(cfg, s, clock, c, drawnAccount, now);
    FirstConfirmationFits(cfg, slipped, sys, clock, route, drawnAccount, now);
    CompletionsStaySpent(s, clock, c, drawnAccount, now);
    ConfirmedRoutesApart(sys, route, drawnAccount, now);
  }

  lemma ConfirmedRoutesApart(sys: System, route: H.Route, drawnAccount: Id, now: Millis)
    requires route.connectionId in sys.hub.routes && sys.hub.routes[route.connectionId] == route
    requires TicketsApart(sys.hub)
    ensures TicketsApart(ConfirmedHub(sys, route, drawnAccount, now))
  {
  }

  lemma ConfirmedRoutes(sys: System, route: H.Route, drawnAccount: Id, now: Millis)
    requires ConfirmPairing(sys.store, route.claims, drawnAccount, now).1.Ok?
    ensures var c := route.claims.(accountId := Some(ConfirmPairing(sys.store, route.claims, drawnAccount, now).1.value.accountId));
            ConfirmedHub(sys, route, drawnAccount, now).routes == sys.hub.routes[route.connectionId := route.(claims := c)]
  {
  }

  lemma FirstConfirmationFits(cfg: ServerConfig, slipped: set<Id>, sys: System, clock: Millis, route: H.Route, drawnAccount: Id, now: Millis)
    requires SystemInv(cfg, slipped, sys, clock) && 0 < now && clock <= now && drawnAccount !in sys.store.drawn
    requires route.connectionId in sys.hub.routes && sys.hub.routes[route.connectionId] == route && route.claims.kind.Pairing?
    requires route.claims.pairId.Some? && route.claims.pairId.value !in sys.store.state.pairingCompletions
    requires ConfirmPairing(sys.store, route.claims, drawnAccount, now).1.Ok?
    ensures RoutesFit(cfg, slipped, ConfirmPairing(sys.store, route.claims, drawnAccount, now).0,
                      ConfirmedHub(sys, route, drawnAccount, now), now)
  {
    var c := route.claims;
    assert RouteFits(cfg, slipped, sys.store, c, clock);
    ConfirmKeepsSpent(cfg, sys.store, clock, c, drawnAccount, now);
    GrantIsSafe(cfg, sys.store, c, drawnAccount, now);
    ConfirmedRoutes(sys, route, drawnAccount, now);
    var (t, a) := ConfirmPairing(sys.store, c, drawnAccount, now);
    RoutesFitAfterGrant(cfg, slipped, sys, clock, route, drawnAccount, now, t, c.(accountId := Some(a.value.accountId)),
                        ConfirmedHub(sys, route, drawnAccount, now));
  }

  lemma RoutesFitAfterGrant(
    cfg: ServerConfig, slipped: set<Id>, sys: System, clock: Millis, route: H.Route, drawnAccount: Id, now: Millis,
    t: Store, c: Claims, hub: H.Hub)
    requires SystemInv(cfg, slipped, sys, clock)
    requires route.connectionId in sys.hub.routes && sys.hub.routes[route.connectionId] == route
    requires route.claims.pairId.Some? && route.claims.pairId.value !in sys.store.state.pairingCompletions
    requires var (u, a) := ConfirmPairing(sys.store, route.claims, drawnAccount, now);
             t == u && a.Ok? && Evolves(sys.store.state, t.state) && SpentKept(sys.store, clock, t, now)
    requires RouteFits(cfg, slipped, t, c, now)
    requires hub.routes == sys.hub.routes[route.connectionId := route.(claims := c)]
    ensures RoutesFit(cfg, slipped, t, hub, now)
  {
    forall id | id in hub.routes ensures RouteFits(cfg, slipped, t, hub.routes[id].claims, now) {
      if id != route.connectionId { OtherRouteFits(cfg, slipped, sys, clock, route, drawnAccount, now, id); }
    }
  }

  lemma CompletionsStaySpent(s: Store, clock: Millis, c: Claims, drawnAccount: Id, now: Millis)
    requires CompletionsSpent(s, clock) && FromSpentTicket(s, c, clock)
    requires SpentKept(s, clock, ConfirmPairing(s, c, drawnAccount, now).0, now)
    ensures CompletionsSpent(ConfirmPairing(s, c, drawnAccount, now).0, now)
  {
    var t := ConfirmPairing(s, c, drawnAccount, now).0;
    forall p | p in t.state.pairingCompletions ensures CompletionSpent(t, p, now) {
      if p in s.state.pairingCompletions { assert CompletionSpent(s, p, clock); }
    }
  }

  lemma ConfirmKeepsSpent(cfg: ServerConfig, s: Store, clock: Millis, c: Claims, drawnAccount: Id, now: Millis)
    requires StoreInv(cfg.trust, s) && ClaimsFit(cfg.trust, s.state, c) && 0 < now && clock <= now && drawnAccount !in s.drawn
    ensures var t := ConfirmPairing(s, c, drawnAccount, now).0;
            StoreInv(cfg.trust, t) && Evolves(s.state, t.state) && SpentKept(s, clock, t, now)
  {
    ActKeepsSpent(cfg, s, clock, Step(TrustRuns.ConfirmOp(c, drawnAccount), now));
  }

  lemma OtherRouteFits(cfg: ServerConfig, slipped: set<Id>, sys: System, clock: Millis, route: H.Route, drawnAccount: Id, now: Millis, id: Id)
    requires SystemInv(cfg, slipped, sys, clock)
    requires route.connectionId in sys.hub.routes && sys.hub.routes[route.connectionId] == route
    requires route.claims.pairId.Some? && route.claims.pairId.value !in sys.store.state.pairingCompletions
    requires var (t, a) := ConfirmPairing(sys.store, route.claims, drawnAccount, now);
             a.Ok? && Evolves(sys.store.state, t.state) && SpentKept(sys.store, clock, t, now)
    requires id in sys.hub.routes && id != route.connectionId
    ensures RouteFits(cfg, slipped, ConfirmPairing(sys.store, route.claims, drawnAccount, now).0, sys.hub.routes[id].claims, now)
  {
    var other := sys.hub.routes[id].claims;
    assert RouteFits(cfg, slipped, sys.store, other, clock) && RouteFits(cfg, slipped, sys.store, route.claims, clock);
    if other.ticketId !in slipped { GrantKeepsClaims(cfg, sys.store, route.claims, drawnAccount, now, other); }
    ClaimsStillFit(cfg.trust, sys.store.state, ConfirmPairing(sys.store, route.claims, drawnAccount, now).0.state, other);
  }

  // ---- Revocation ----------------------------------------------------------------------------

  /** Claims that a revocation does not concern stay safe. */
  lemma RevokeDeviceKeepsClaims(cfg: ServerConfig, s: Store, signed: SignedChallenge, now: Millis, c: Claims)
    requires StoreInv(cfg.trust, s) && Complete(s) && now > 0 && ClaimsSafe(s.state, c)
    requires var a := RevokeDevice(s, signed, now).1;
             a.Ok? ==> !(c.accountId == Some(a.value.accountId) && Some(c.deviceId) == a.value.deviceId)
    ensures ClaimsSafe(RevokeDevice(s, signed, now).0.state, c)
  {
    RevokeDeviceKeeps(cfg.trust, s, signed, now);
    var t := RevokeDevice(s, signed, now).0;
    if Decided(s.state, c) { assert DeviceKept(s.state, t.state, c.deviceId); }
  }

  lemma RevokeBackendKeepsClaims(cfg: ServerConfig, s: Store, signed: SignedChallenge, now: Millis, c: Claims)
    requires StoreInv(cfg.trust, s) && Complete(s) && ClaimsSafe(s.state, c)
    requires var a := RevokeBackend(s, signed, now).1;
             a.Ok? ==> !(c.accountId == Some(a.value.accountId) && Some(c.backendId) == a.value.backendId)
    ensures ClaimsSafe(RevokeBackend(s, signed, now).0.state, c)
  {
    RevokeBackendKeeps(cfg.trust, s, signed, now);
  }

  lemma RevocationKeepsClaims(cfg: ServerConfig, s: Store, e: Event, now: Millis, c: Claims)
    requires StoreInv(cfg.trust, s) && Complete(s) && 0 < now && ClaimsSafe(s.state, c) && (e.PostRevokeDevice? || e.PostRevokeBackend?)
    requires var a := if e.PostRevokeDevice? then RevokeDevice(s, e.signed, now).1 else RevokeBackend(s, e.signed, now).1;
             a.Ok? ==> && !(c.accountId == Some(a.value.accountId) && Some(c.deviceId) == a.value.deviceId)
                       && !(c.accountId == Some(a.value.accountId) && Some(c.backendId) == a.value.backendId)
    ensures ClaimsSafe((if e.PostRevokeDevice? then RevokeDevice(s, e.signed, now).0 else RevokeBackend(s, e.signed, now).0).state, c)
  {
    if e.PostRevokeDevice? { RevokeDeviceKeepsClaims(cfg, s, e.signed, now, c); } else { RevokeBackendKeepsClaims(cfg, s, e.signed, now, c); }
  }

  lemma RevocationEventKeeps(cfg: ServerConfig, slipped: set<Id>, sys: System, clock: Millis, e: Event, now: Millis)
    requires SystemInv(cfg, slipped, sys, clock) && Complete(sys.store) && 0 < now && clock <= now
    requires e.PostRevokeDevice? || e.PostRevokeBackend?
    ensures SystemInv(cfg, slipped, Handle(cfg, sys, e, now), now)
  {
    var s := sys.store;
    var (t, a) := if e.PostRevokeDevice? then RevokeDevice(s, e.signed, now) else RevokeBackend(s, e.signed, now);
    var action := if e.PostRevokeDevice? then TrustRuns.RevokeDeviceOp(e.signed) else TrustRuns.RevokeBackendOp(e.signed);
    ActKeepsSpent(cfg, s, clock, Step(action, now));
    assert t == TrustRuns.Act(cfg.trust, s, Step(action, now));
    if e.PostRevokeDevice? { RevokeDeviceKeeps(cfg.trust, s, e.signed, now); } else { RevokeBackendKeeps(cfg.trust, s, e.signed, now); }
    var next := Handle(cfg, sys, e, now);
    assert next.store == t;
    if a.Err? {
      CalmKeeps(cfg, slipped, sys, clock, next, now);
    } else {
      NotifyRevocationKeeps(sys.hub, t.state, a.value);
      forall id | id in next.hub.routes ensures RouteFits(cfg, slipped, t, next.hub.routes[id].claims, now) {
        var c := sys.hub.routes[id].claims;
        assert RouteFits(cfg, slipped, s, c, clock) && RouteOk(sys.hub, id) && id !in H.Affected(sys.hub, a.value);
        if c.ticketId !in slipped { RevocationKeepsClaims(cfg, s, e, now, c); }
        ClaimsStillFit(cfg.trust, s.state, t.state, c);
      }
      forall p | p in t.state.pairingCompletions ensures CompletionSpent(t, p, now) {
        assert CompletionSpent(s, p, clock);
      }
    }
  }

  // ---- Connecting a browser ------------------------------------------------------------------

  /** A ticket that passes completed no pairing, unless it slips; and it is spent then. */
  lemma PassingTicket(cfg: ServerConfig, s: Store, ticket: Claims, clock: Millis, verifiedAt: Millis, now: Millis)
    requires StoreInv(cfg.trust, s) && CompletionsSpent(s, clock) && clock <= verifiedAt <= now
    requires ConsumeRouteTicket(s, ticket, verifiedAt, now).1.Ok?
    ensures Confirmed(s.state, ticket) ==> Slips(s.state, ticket, verifiedAt, now)
    ensures TrustRuns.Spent(ConsumeRouteTicket(s, ticket, verifiedAt, now).0, ticket, now)
  {
    UsedStillFits(s);
    if ticket.pairId.Some? && ticket.pairId.value in s.state.pairingCompletions {
      assert CompletionSpent(s, ticket.pairId.value, clock);
    }
  }

  lemma ConnectKeeps(
    cfg: ServerConfig, slipped: set<Id>, sys: System, clock: Millis, socket: nat, backendId: Id, ticket: Claims,
    verifiedAt: Millis, prunedAt: Millis, now: Millis)
    requires SystemInv(cfg, slipped, sys, clock) && 0 < verifiedAt && clock <= verifiedAt <= prunedAt <= now && CompletionsFit(sys.store)
    requires Misfires(sys, backendId, ticket, verifiedAt, prunedAt, now) ==> ticket.ticketId in slipped
    ensures var (hub, store) := H.ConnectBrowser(sys.hub, sys.store, socket, backendId, ticket, verifiedAt, prunedAt, now);
            SystemInv(cfg, slipped, System(store, hub), now)
  {
    var (hub, store) := H.ConnectBrowser(sys.hub, sys.store, socket, backendId, ticket, verifiedAt, prunedAt, now);
    if !H.IsBackendOnline(sys.hub, backendId) {
      TellBrowserKeeps(sys.hub, socket, H.BrowserError(H.BackendOffline, None));
      HubStepKeeps(cfg, slipped, sys, clock, hub, now);
    } else {
      var (t, a) := ConsumeRouteTicket(sys.store, ticket, verifiedAt, prunedAt);
      if a.Err? {
        TellBrowserKeeps(sys.hub, socket, H.BrowserError(H.InvalidTicket, None));
        ConsumptionKeeps(cfg, slipped, sys, clock, ticket, verifiedAt, prunedAt, now, hub);
      } else {
        CheckedKeeps(cfg, slipped, sys, clock, socket, backendId, ticket, verifiedAt, prunedAt, now);
      }
    }
  }

  lemma ConsumptionKeeps(
    cfg: ServerConfig, slipped: set<Id>, sys: System, clock: Millis, ticket: Claims,
    verifiedAt: Millis, prunedAt: Millis, now: Millis, hub: H.Hub)
    requires SystemInv(cfg, slipped, sys, clock) && 0 < verifiedAt && clock <= verifiedAt <= prunedAt <= now
    requires HubInv(hub) && RoutesShrink(sys.hub, hub)
    ensures SystemInv(cfg, slipped, System(ConsumeRouteTicket(sys.store, ticket, verifiedAt, prunedAt).0, hub), now)
  {
    InvIsComplete(cfg.trust, sys.store);
    var next := System(ConsumeRouteTicket(sys.store, ticket, verifiedAt, prunedAt).0, hub);
    QuietKeeps(cfg, slipped, sys, clock, Step(TrustRuns.ConsumeTicketOp(ticket, verifiedAt), prunedAt), next);
    HubStepKeeps(cfg, slipped, next, prunedAt, hub, now);
  }

  /** What the hub does once the store has consumed the ticket. */
  function HubAfterConsumption(sys: System, socket: nat, backendId: Id, ticket: Claims, verifiedAt: Millis, prunedAt: Millis, now: Millis): H.Hub
    requires H.IsBackendOnline(sys.hub, backendId)
  {
    var t := ConsumeRouteTicket(sys.store, ticket, verifiedAt, prunedAt).0;
    var h1 := H.AfterChecks(sys.hub, backendId, ticket, now);
    if !H.Admits(sys.hub, t.state, backendId, ticket, now) || ticket.connectionId in h1.routes
    then H.TellBrowser(h1, socket, H.BrowserError(H.InvalidTicket, None))
    else H.InstallRoute(H.DropPrevious(h1, socket), socket, backendId, ticket)
  }

  lemma ChecksKeep(h: H.Hub, backendId: Id, ticket: Claims, now: Millis)
    requires HubInv(h)
    ensures var h1 := H.AfterChecks(h, backendId, ticket, now);
            HubInv(h1) && RoutesShrink(h, h1) && h1.routes == h.routes && h1.backends == h.backends
  {
    var h1 := H.AfterChecks(h, backendId, ticket, now);
    assert h1 == h.(pairings := h1.pairings);
    SameRoutingKeeps(h, h1);
  }

  /** The ticket was consumed; the hub checks the claims and opens the route. */
  lemma CheckedKeeps(
    cfg: ServerConfig, slipped: set<Id>, sys: System, clock: Millis, socket: nat, backendId: Id, ticket: Claims,
    verifiedAt: Millis, prunedAt: Millis, now: Millis)
    requires SystemInv(cfg, slipped, sys, clock) && 0 < verifiedAt && clock <= verifiedAt <= prunedAt <= now && CompletionsFit(sys.store)
    requires Misfires(sys, backendId, ticket, verifiedAt, prunedAt, now) ==> ticket.ticketId in slipped
    requires H.IsBackendOnline(sys.hub, backendId) && ConsumeRouteTicket(sys.store, ticket, verifiedAt, prunedAt).1.Ok?
    ensures SystemInv(cfg, slipped, System(ConsumeRouteTicket(sys.store, ticket, verifiedAt, prunedAt).0,
                                  HubAfterConsumption(sys, socket, backendId, ticket, verifiedAt, prunedAt, now)), now)
  {
    var t := ConsumeRouteTicket(sys.store, ticket, verifiedAt, prunedAt).0;
    var h1 := H.AfterChecks(sys.hub, backendId, ticket, now);
    ChecksKeep(sys.hub, backendId, ticket, now);
    ConsumptionKeeps(cfg, slipped, sys, clock, ticket, verifiedAt, prunedAt, now, h1);
    if !H.Admits(sys.hub, t.state, backendId, ticket, now) || ticket.connectionId in h1.routes {
      RefusedKeeps(cfg, slipped, System(t, h1), socket, now);
    } else {
      PassesIff(sys.store, ticket, verifiedAt, prunedAt);
      ConsumptionKeepsAdmission(sys.hub, sys.store, backendId, ticket, verifiedAt, prunedAt, now);
      AdmittedKeeps(cfg, slipped, sys, clock, h1, socket, backendId, ticket, verifiedAt, prunedAt, now, t, H.DropPrevious(h1, socket));
    }
  }

  lemma RefusedKeeps(cfg: ServerConfig, slipped: set<Id>, sys: System, socket: nat, now: Millis)
    requires SystemInv(cfg, slipped, sys, now)
    ensures SystemInv(cfg, slipped, sys.(hub := H.TellBrowser(sys.hub, socket, H.BrowserError(H.InvalidTicket, None))), now)
  {
    TellBrowserKeeps(sys.hub, socket, H.BrowserError(H.InvalidTicket, None));
    HubStepKeeps(cfg, slipped, sys, now, H.TellBrowser(sys.hub, socket, H.BrowserError(H.InvalidTicket, None)), now);
  }

  lemma AdmittedKeeps(
    cfg: ServerConfig, slipped: set<Id>, sys: System, clock: Millis, h: H.Hub, socket: nat, backendId: Id, ticket: Claims,
    verifiedAt: Millis, prunedAt: Millis, now: Millis, t: Store, h2: H.Hub)
    requires SystemInv(cfg, slipped, sys, clock) && clock <= verifiedAt <= prunedAt <= now && CompletionsFit(sys.store)
    requires ticket.ticketId in slipped || !Slips(sys.store.state, ticket, verifiedAt, prunedAt) || Authorised(sys.store.state, ticket)
    requires ConsumeRouteTicket(sys.store, ticket, verifiedAt, prunedAt) == (t, Ok(ticket))
    requires SystemInv(cfg, slipped, System(t, h), now) && H.Admits(sys.hub, t.state, backendId, ticket, now)
    requires h2 == H.DropPrevious(h, socket) && backendId in h2.backends && ticket.connectionId !in h.routes
    ensures SystemInv(cfg, slipped, System(t, H.InstallRoute(h2, socket, backendId, ticket)), now)
  {
    DropPreviousKeeps(h, socket);
    HubStepKeeps(cfg, slipped, System(t, h), now, h2, now);
    NewRouteFits(cfg, slipped, sys, clock, t, backendId, ticket, verifiedAt, prunedAt, now);
    NewTicketApart(cfg, slipped, System(t, h2), now, ticket);
    InstallKeeps(cfg, slipped, System(t, h2), now, socket, backendId, ticket);
  }

  lemma InstallKeeps(cfg: ServerConfig, slipped: set<Id>, sys: System, now: Millis, socket: nat, backendId: Id, ticket: Claims)
    requires SystemInv(cfg, slipped, sys, now) && RouteFits(cfg, slipped, sys.store, ticket, now)
    requires backendId in sys.hub.backends && socket !in sys.hub.browserRoutes && ticket.connectionId !in sys.hub.routes
    requires ticket.backendId == backendId
    requires forall id | id in sys.hub.routes :: sys.hub.routes[id].claims.ticketId != ticket.ticketId
    ensures SystemInv(cfg, slipped, sys.(hub := H.InstallRoute(sys.hub, socket, backendId, ticket)), now)
  {
    InstallRouteKeeps(sys.hub, socket, backendId, ticket);
    InstalledRoute(sys.hub, socket, backendId, ticket);
  }

  /** While its connection id is free, a ticket has no route. */
  lemma NewTicketApart(cfg: ServerConfig, slipped: set<Id>, sys: System, clock: Millis, ticket: Claims)
    requires HubInv(sys.hub) && RoutesFit(cfg, slipped, sys.store, sys.hub, clock) && ticket.connectionId !in sys.hub.routes
    requires ticket.ticketId in sys.store.minted && sys.store.minted[ticket.ticketId] == ticket
    ensures forall id | id in sys.hub.routes :: sys.hub.routes[id].claims.ticketId != ticket.ticketId
  {
    forall id | id in sys.hub.routes ensures sys.hub.routes[id].claims.ticketId != ticket.ticketId {
      assert RouteFits(cfg, slipped, sys.store, sys.hub.routes[id].claims, clock) && RouteOk(sys.hub, id);
    }
  }

  /** An admitted connection ticket is authorised; an admitted pairing ticket was never confirmed. */
  lemma NewRouteFits(
    cfg: ServerConfig, slipped: set<Id>, sys: System, clock: Millis, t: Store, backendId: Id, ticket: Claims,
    verifiedAt: Millis, prunedAt: Millis, now: Millis)
    requires SystemInv(cfg, slipped, sys, clock) && clock <= verifiedAt <= prunedAt <= now && CompletionsFit(sys.store)
    requires ticket.ticketId in slipped || !Slips(sys.store.state, ticket, verifiedAt, prunedAt) || Authorised(sys.store.state, ticket)
    requires ConsumeRouteTicket(sys.store, ticket, verifiedAt, prunedAt) == (t, Ok(ticket))
    requires StoreInv(cfg.trust, t) && H.Admits(sys.hub, t.state, backendId, ticket, now)
    ensures RouteFits(cfg, slipped, t, ticket, now)
  {
    PassingTicket(cfg, sys.store, ticket, clock, verifiedAt, prunedAt);
    assert TicketFits(cfg.trust, t, ticket.ticketId);
    assert t.state.pairingCompletions == sys.store.state.pairingCompletions && t.minted == sys.store.minted;
    ConsumptionKeepsRights(sys.store, ticket, verifiedAt, prunedAt, ticket);
    if Confirmed(sys.store.state, ticket) { ConfirmedAccount(sys.store, ticket); }
  }
}
