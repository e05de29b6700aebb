/**
 A run in which a route ends up without rights. The backend opens its pairing a second time, and
 the ticket of the first one is presented again while it expires between the two clock readings.
 */
module SlippingTicket {
  import opened Wrappers
  import opened TrustProtocol
  import opened TrustModel
  import opened HubModel
  import opened ServerModel
  import RouteSafety
  import RendezvousRuns

  const BACKEND: Id := 4
  const BACKEND_KEY: PublicKey := 5
  const DEVICE: Id := 2
  const DEVICE_KEY: PublicKey := 3
  const PAIR: Id := 6
  const CONNECTION: Id := 7
  const CHALLENGE: Id := 8
  const TICKET: Id := 9
  const ACCOUNT: Id := 10

  const Registration := RegisteredBackend(BACKEND, BACKEND_KEY, 0)
  const Ticket := Claims(Pairing, TICKET, BACKEND, CONNECTION, DEVICE, DEVICE_KEY, None, Some(PAIR), 1, 3)
  const Asked := Challenge(CHALLENGE, ToPair, DEVICE, DEVICE_KEY, Some(BACKEND), Some(CONNECTION), Some(PAIR), None, 11)
  const Request := ChallengeRequest(ToPair, Some(DEVICE), Some(DEVICE_KEY), Some(BACKEND), Some(CONNECTION), Some(PAIR), None)

  /** Challenges live for 10 ms and tickets for 2 ms; the keys have the names above. */
  ghost predicate Example(cfg: ServerConfig) {
    && cfg.trust.challengeTtlMs == 10 && cfg.trust.ticketTtlMs == 2
    && cfg.trust.deriveDeviceId(DEVICE_KEY) == Some(DEVICE)
    && cfg.hub.deriveBackendId(BACKEND_KEY) == Some(BACKEND)
  }

  const Steps: seq<Step<Event>> := [
    Step(BackendArrives(0, 0), 1),
    Step(BackendSays(0, RegisterBackendCommand(BACKEND_KEY, true)), 1),
    Step(BackendSays(0, OpenPairingCommand(PAIR, 100)), 1),
    Step(PostChallenge(Request, CHALLENGE), 1),
    Step(PostPairingTicket(PAIR, SignedChallenge(CHALLENGE, true), TICKET), 1),
    Step(BrowserArrives(0), 1),
    Step(BrowserSays(0, ConnectCommand(BACKEND, Ticket, 1, 1)), 1),
    Step(BackendSays(0, ConfirmPairingCommand(CONNECTION, ACCOUNT)), 1),
    Step(BrowserLeaves(0), 1),
    Step(BackendSays(0, OpenPairingCommand(PAIR, 100)), 1),
    Step(BrowserArrives(1), 1),
    Step(BrowserSays(1, ConnectCommand(BACKEND, Ticket, 2, 3)), 3)
  ]

  /** The hub without what it told, and without the sockets of browsers. */
  function Bare(h: Hub): Hub {
    h.(openBrowsers := {}, backendLog := map[], browserLog := map[])
  }

  /** The hub with the backend online, these pairings and these routes. */
  function Serving(pairings: map<Id, ActivePairing>, browserRoutes: map<BrowserSocket, Route>, routes: map<Id, Route>): Hub {
    Hub(map[0 := Handshake(0, Some(Registration))], map[BACKEND := Registration], browserRoutes, routes, pairings,
        {0}, {}, map[], map[])
  }

  const Open := map[PAIR := ActivePairing(PAIR, BACKEND, 100)]

  function RouteOf(socket: BrowserSocket, claims: Claims): Route {
    Route(CONNECTION, BACKEND, socket, Ticket, claims, None, None)
  }

  const Minted := Store(EmptyState, map[], map[TICKET := Ticket], {CHALLENGE, TICKET})
  const Used := Minted.(state := EmptyState.(usedTickets := map[TICKET := 3]))
  const Granted := Used.(state := Grant(Used.state, Ticket, ACCOUNT, PAIR, 1), drawn := {CHALLENGE, TICKET, ACCOUNT})

  ghost predicate At(sys: System, store: Store, hub: Hub) {
    sys.store == store && Bare(sys.hub) == hub
  }

  /** The hub with one backend that has not registered yet. */
  const Greeting := Hub(map[0 := Handshake(0, None)], map[], map[], map[], map[], {0}, {}, map[], map[])

  lemma Arrives(cfg: ServerConfig)
    ensures Complete(EmptyStore) && Possible(EmptySystem, 0, Steps[0].action, 1)
    ensures At(Handle(cfg, EmptySystem, Steps[0].action, 1), EmptyStore, Greeting)
  {
    var next := Handle(cfg, EmptySystem, Steps[0].action, 1);
    assert next.hub.handshakes == map[0 := Handshake(0, None)] && next.hub.openBackends == {0};
  }

  lemma Registers(cfg: ServerConfig, sys: System)
    requires Example(cfg) && At(sys, EmptyStore, Greeting) && Complete(EmptyStore)
    ensures At(Handle(cfg, sys, Steps[1].action, 1), EmptyStore, Serving(map[], map[], map[]))
  {
    var next := Handle(cfg, sys, Steps[1].action, 1);
    assert next.hub.handshakes == map[0 := Handshake(0, Some(Registration))];
    assert next.hub.backends == map[BACKEND := Registration];
  }

  lemma Opens(cfg: ServerConfig, sys: System, store: Store)
    requires At(sys, store, Serving(map[], map[], map[])) && Complete(store)
    ensures At(Handle(cfg, sys, BackendSays(0, OpenPairingCommand(PAIR, 100)), 1), store, Serving(Open, map[], map[]))
  {
    var k := OpenPairing(sys.hub, Registration, PAIR, 100, 1);
    assert DropDeadPairing(sys.hub, PAIR, 1).pairings == map[];
    assert k.pairings == Open;
  }

  lemma Tickets(cfg: ServerConfig, sys: System)
    requires Example(cfg) && At(sys, EmptyStore, Serving(Open, map[], map[]))
    ensures Complete(EmptyStore)
    ensures var asked := Handle(cfg, sys, Steps[3].action, 1);
            && Complete(asked.store) && CHALLENGE !in sys.store.drawn && TICKET !in asked.store.drawn
            && At(Handle(cfg, asked, Steps[4].action, 1), Minted, Serving(Open, map[], map[]))
  {
    assert OpenPairingOf(sys.hub, PAIR, 1) == Some(ActivePairing(PAIR, BACKEND, 100));
    var asked := Handle(cfg, sys, Steps[3].action, 1);
    assert Prune(EmptyStore, 1) == EmptyStore;
    assert asked.store == EmptyStore.(challenges := map[CHALLENGE := Asked], drawn := {CHALLENGE});
    assert asked.store.challenges - {CHALLENGE} == map[];
  }

  lemma Consumes()
    ensures Complete(Minted) && ConsumeRouteTicket(Minted, Ticket, 1, 1) == (Used, Ok(Ticket))
  {
    assert Prune(Minted, 1) == Minted;
  }

  lemma Admitted(h: Hub, used: Store)
    requires Bare(h) == Serving(Open, map[], map[]) && ConsumeRouteTicket(Minted, Ticket, 1, 1) == (used, Ok(Ticket))
    ensures var (hub, store) := ConnectBrowser(h, Minted, 0, BACKEND, Ticket, 1, 1, 1);
            store == used && Bare(hub) == Serving(Open, map[0 := RouteOf(0, Ticket)], map[CONNECTION := RouteOf(0, Ticket)])
  {
    assert OpenPairingOf(h, PAIR, 1) == Some(ActivePairing(PAIR, BACKEND, 100));
  }

  lemma Connects(cfg: ServerConfig, sys: System)
    requires At(sys, Minted, Serving(Open, map[], map[]))
    ensures Complete(Minted)
    ensures At(Handle(cfg, sys, Steps[6].action, 1), Used,
               Serving(Open, map[0 := RouteOf(0, Ticket)], map[CONNECTION := RouteOf(0, Ticket)]))
  {
    Consumes();
    Admitted(sys.hub, Used);
    RendezvousRuns.ConnectionIsHandled(cfg, sys, Steps[6].action, 1);
  }

  /** The store's half of the confirmation. */
  lemma Grants()
    ensures Complete(Used) && Complete(Granted)
    ensures TrustModel.ConfirmPairing(Used, Ticket, ACCOUNT, 1) == (Granted, Ok(Confirmation(ACCOUNT, DEVICE, BACKEND)))
  {
    assert Used.drawn + {ACCOUNT} == {CHALLENGE, TICKET, ACCOUNT};
  }

  /** The hub's half, whatever the store made of it. */
  lemma Completes(h: Hub, granted: Store)
    requires Bare(h) == Serving(Open, map[0 := RouteOf(0, Ticket)], map[CONNECTION := RouteOf(0, Ticket)])
    requires TrustModel.ConfirmPairing(Used, Ticket, ACCOUNT, 1) == (granted, Ok(Confirmation(ACCOUNT, DEVICE, BACKEND)))
    ensures var (hub, store) := HubModel.ConfirmPairing(h, Used, Registration, CONNECTION, ACCOUNT, 1);
            store == granted && Bare(hub) == Serving(map[], map[0 := RouteOf(0, Ticket.(accountId := Some(ACCOUNT)))],
                                                     map[CONNECTION := RouteOf(0, Ticket.(accountId := Some(ACCOUNT)))])
  {
    assert OpenPairingOf(h, PAIR, 1) == Some(ActivePairing(PAIR, BACKEND, 100));
    assert Open - {PAIR} == map[];
  }

  lemma Confirms(cfg: ServerConfig, sys: System)
    requires At(sys, Used, Serving(Open, map[0 := RouteOf(0, Ticket)], map[CONNECTION := RouteOf(0, Ticket)]))
    ensures Complete(Used) && Complete(Granted)
    ensures At(Handle(cfg, sys, Steps[7].action, 1), Granted,
               Serving(map[], map[0 := RouteOf(0, Ticket.(accountId := Some(ACCOUNT)))],
                       map[CONNECTION := RouteOf(0, Ticket.(accountId := Some(ACCOUNT)))]))
  {
    Grants();
    Completes(sys.hub, Granted);
    ConfirmationIsHandled(cfg, sys);
  }

  lemma ConfirmationIsHandled(cfg: ServerConfig, sys: System)
    requires Complete(sys.store) && 0 in sys.hub.handshakes && sys.hub.handshakes[0] == Handshake(0, Some(Registration))
    ensures var (hub, store) := HubModel.ConfirmPairing(sys.hub, sys.store, Registration, CONNECTION, ACCOUNT, 1);
            Handle(cfg, sys, Steps[7].action, 1) == System(store, hub)
  {
  }

  lemma Leaves(cfg: ServerConfig, sys: System)
    requires At(sys, Granted, Serving(map[], map[0 := RouteOf(0, Ticket.(accountId := Some(ACCOUNT)))],
                                      map[CONNECTION := RouteOf(0, Ticket.(accountId := Some(ACCOUNT)))]))
    ensures Complete(Granted) && At(Handle(cfg, sys, Steps[8].action, 1), Granted, Serving(map[], map[], map[]))
  {
    var route := RouteOf(0, Ticket.(accountId := Some(ACCOUNT)));
    assert map[0 := route] - {0} == map[] && map[CONNECTION := route] - {CONNECTION} == map[];
  }

  /** The second time: checked at 2, when it is valid, and pruned at 3, when it is not. */
  lemma Slides(cfg: ServerConfig, sys: System)
    requires At(sys, Granted, Serving(Open, map[], map[]))
    ensures Complete(Granted)
    ensures !RouteSafety.Safe(Handle(cfg, sys, Steps[11].action, 3))
  {
    assert OpenPairingOf(sys.hub, PAIR, 3) == Some(ActivePairing(PAIR, BACKEND, 100));
    assert RouteSafety.Misfires(sys, BACKEND, Ticket, 2, 3, 3);
    RendezvousRuns.MisfireIsUnsafe(sys, 1, BACKEND, Ticket, 2, 3, 3);
    RendezvousRuns.ConnectionIsHandled(cfg, sys, Steps[11].action, 3);
  }

  // ---- The run -------------------------------------------------------------------------------

  ghost predicate StepFits(cfg: ServerConfig, trace: seq<System>, i: nat)
    requires i + 1 < |trace| && i < |Steps|
  {
    && Possible(trace[i], ClockBefore(Steps, i), Steps[i].action, Steps[i].now)
    && (Complete(trace[i].store) ==> trace[i + 1] == Handle(cfg, trace[i], Steps[i].action, Steps[i].now))
  }

  /** The run up to its `n`-th step, and what it has come to. */
  ghost predicate Reaches(cfg: ServerConfig, trace: seq<System>, n: nat, store: Store, hub: Hub) {
    && n <= |Steps| && |trace| == n + 1 && trace[0] == EmptySystem && At(trace[n], store, hub)
    && forall i: nat {:trigger StepFits(cfg, trace, i)} | i < n :: StepFits(cfg, trace, i)
  }

  lemma Extends(cfg: ServerConfig, trace: seq<System>, n: nat, store: Store, hub: Hub) returns (longer: seq<System>)
    requires Reaches(cfg, trace, n, store, hub) && n < |Steps| && Complete(store)
    requires Possible(trace[n], ClockBefore(Steps, n), Steps[n].action, Steps[n].now)
    ensures |longer| == n + 2 && longer[n + 1] == Handle(cfg, trace[n], Steps[n].action, Steps[n].now)
    ensures Reaches(cfg, longer, n + 1, longer[n + 1].store, Bare(longer[n + 1].hub))
  {
    longer := trace + [Handle(cfg, trace[n], Steps[n].action, Steps[n].now)];
    forall i: nat | i < n + 1 ensures StepFits(cfg, longer, i) {
      if i < n { assert StepFits(cfg, trace, i); }
    }
  }

  lemma ReachesGreeting(cfg: ServerConfig) returns (trace: seq<System>)
    ensures Reaches(cfg, trace, 1, EmptyStore, Greeting)
  {
    Arrives(cfg);
    trace := Extends(cfg, [EmptySystem], 0, EmptyStore, EmptyHub);
  }

  lemma ReachesRegistration(cfg: ServerConfig, trace: seq<System>) returns (longer: seq<System>)
    requires Example(cfg) && Reaches(cfg, trace, 1, EmptyStore, Greeting) && Complete(EmptyStore)
    ensures Reaches(cfg, longer, 2, EmptyStore, Serving(map[], map[], map[]))
  {
    Registers(cfg, trace[1]);
    longer := Extends(cfg, trace, 1, EmptyStore, Greeting);
  }

  lemma ReachesOpening(cfg: ServerConfig, trace: seq<System>, n: nat, store: Store) returns (longer: seq<System>)
    requires Reaches(cfg, trace, n, store, Serving(map[], map[], map[])) && Complete(store) && (n == 2 || n == 9)
    ensures Reaches(cfg, longer, n + 1, store, Serving(Open, map[], map[]))
  {
    Opens(cfg, trace[n], store);
    longer := Extends(cfg, trace, n, store, Serving(map[], map[], map[]));
  }

  lemma ReachesChallenge(cfg: ServerConfig, trace: seq<System>) returns (longer: seq<System>)
    requires Example(cfg) && Reaches(cfg, trace, 3, EmptyStore, Serving(Open, map[], map[]))
    ensures |longer| == 5 && Reaches(cfg, longer, 4, longer[4].store, Bare(longer[4].hub))
    ensures Complete(longer[4].store) && TICKET !in longer[4].store.drawn
    ensures At(Handle(cfg, longer[4], Steps[4].action, 1), Minted, Serving(Open, map[], map[]))
  {
    Tickets(cfg, trace[3]);
    longer := Extends(cfg, trace, 3, EmptyStore, Serving(Open, map[], map[]));
  }

  lemma ReachesTicket(cfg: ServerConfig, trace: seq<System>) returns (longer: seq<System>)
    requires |trace| == 5 && Reaches(cfg, trace, 4, trace[4].store, Bare(trace[4].hub))
    requires Complete(trace[4].store) && TICKET !in trace[4].store.drawn
    requires At(Handle(cfg, trace[4], Steps[4].action, 1), Minted, Serving(Open, map[], map[]))
    ensures Reaches(cfg, longer, 5, Minted, Serving(Open, map[], map[]))
  {
    longer := Extends(cfg, trace, 4, trace[4].store, Bare(trace[4].hub));
  }

  /** A browser arrives: nothing else changes. */
  lemma ReachesArrival(cfg: ServerConfig, trace: seq<System>, n: nat, store: Store) returns (longer: seq<System>)
    requires Reaches(cfg, trace, n, store, Serving(Open, map[], map[])) && Complete(store) && (n == 5 || n == 10)
    ensures Reaches(cfg, longer, n + 1, store, Serving(Open, map[], map[]))
  {
    longer := Extends(cfg, trace, n, store, Serving(Open, map[], map[]));
  }

  lemma ReachesConnection(cfg: ServerConfig, trace: seq<System>) returns (longer: seq<System>)
    requires Reaches(cfg, trace, 6, Minted, Serving(Open, map[], map[]))
    ensures Reaches(cfg, longer, 7, Used, Serving(Open, map[0 := RouteOf(0, Ticket)], map[CONNECTION := RouteOf(0, Ticket)]))
  {
    Connects(cfg, trace[6]);
    longer := Extends(cfg, trace, 6, Minted, Serving(Open, map[], map[]));
  }

  lemma ReachesConfirmation(cfg: ServerConfig, trace: seq<System>) returns (longer: seq<System>)
    requires Reaches(cfg, trace, 7, Used, Serving(Open, map[0 := RouteOf(0, Ticket)], map[CONNECTION := RouteOf(0, Ticket)]))
    ensures Reaches(cfg, longer, 8, Granted, Serving(map[], map[0 := RouteOf(0, Ticket.(accountId := Some(ACCOUNT)))],
                                                     map[CONNECTION := RouteOf(0, Ticket.(accountId := Some(ACCOUNT)))]))
  {
    Confirms(cfg, trace[7]);
    longer := Extends(cfg, trace, 7, Used, Serving(Open, map[0 := RouteOf(0, Ticket)], map[CONNECTION := RouteOf(0, Ticket)]));
  }

  lemma ReachesLeave(cfg: ServerConfig, trace: seq<System>) returns (longer: seq<System>)
    requires Reaches(cfg, trace, 8, Granted, Serving(map[], map[0 := RouteOf(0, Ticket.(accountId := Some(ACCOUNT)))],
                                                     map[CONNECTION := RouteOf(0, Ticket.(accountId := Some(ACCOUNT)))]))
    ensures Reaches(cfg, longer, 9, Granted, Serving(map[], map[], map[]))
  {
    Leaves(cfg, trace[8]);
    longer := Extends(cfg, trace, 8, Granted, trace[8].hub.(openBrowsers := {}, backendLog := map[], browserLog := map[]));
  }

  lemma WholeRun(cfg: ServerConfig, trace: seq<System>, store: Store, hub: Hub)
    requires Reaches(cfg, trace, |Steps|, store, hub)
    ensures Run(cfg, trace, Steps)
  {
    forall i: nat | i < |Steps| ensures StepAt(cfg, trace, Steps, i) { assert StepFits(cfg, trace, i); }
  }

  lemma ReachesEnd(cfg: ServerConfig, trace: seq<System>) returns (longer: seq<System>)
    requires Reaches(cfg, trace, 11, Granted, Serving(Open, map[], map[])) && Complete(Granted)
    ensures |longer| == 13 && Reaches(cfg, longer, 12, longer[12].store, Bare(longer[12].hub)) && !RouteSafety.Safe(longer[12])
  {
    Slides(cfg, trace[11]);
    longer := Extends(cfg, trace, 11, Granted, Serving(Open, map[], map[]));
  }

  lemma StoresAreComplete()
    ensures Complete(EmptyStore) && Complete(Minted) && Complete(Granted)
  {
  }

  /** A run that ends with a route for a completed pairing that names no account. */
  lemma RunCanEndUnsafe(cfg: ServerConfig) returns (trace: seq<System>)
    requires Example(cfg)
    ensures Run(cfg, trace, Steps) && !RouteSafety.Safe(trace[|Steps|])
  {
    StoresAreComplete();
    trace := ReachesGreeting(cfg);
    trace := ReachesRegistration(cfg, trace);
    trace := ReachesOpening(cfg, trace, 2, EmptyStore);
    trace := ReachesChallenge(cfg, trace);
    trace := ReachesTicket(cfg, trace);
    trace := ReachesArrival(cfg, trace, 5, Minted);
    trace := ReachesConnection(cfg, trace);
    trace := ReachesConfirmation(cfg, trace);
    trace := ReachesLeave(cfg, trace);
    trace := ReachesOpening(cfg, trace, 9, Granted);
    trace := ReachesArrival(cfg, trace, 10, Granted);
    trace := ReachesEnd(cfg, trace);
    WholeRun(cfg, trace, trace[12].store, Bare(trace[12].hub));
  }
}
