/**
 Client, handler and carriers together. Carriers drop, repeat and reorder frames: the handler may
 receive anything a client ever sent, any number of times, and a client anything ever sent to it.
 */
module ProtocolRuns {
  import opened Wrappers
  import opened ProtocolModel

  /** The device behind each client, and the size of an encoded response. */
  datatype Config = Config(deviceOf: nat -> string, size: Response -> nat)

  datatype Issue = Issue(client: nat, request: Request)
  datatype Entry = Entry(key: string, response: Response)

  /**
   `issued` holds every request by its name. The rest records what the handler did: the keys it
   dispatched and forgot, the answers it remembered, in order, and every verdict of the API.
   */
  datatype System = System(
    handler: Handler,
    open: set<Connection>,
    clients: map<nat, Client>,
    issued: map<string, Issue>,
    dispatched: seq<string>,
    forgotten: seq<string>,
    history: seq<Entry>,
    computed: set<(Request, Verdict)>)

  const NewSystem := System(NewHandler, {}, map[], map[], [], [], [], {})

  datatype Action =
    | AskOp(client: nat, verb: Method, params: Payload, uuid: string, sendFails: bool)
    | ReceiveOp(from: Connection, request: Request)
    | CompleteOp(key: string, verdict: Verdict)
    | FrameOp(to: Connection, response: Response)
    | TimeOutOp(client: nat, id: string)
    | ChangeOp(client: nat, connected: bool, reconnected: bool, failing: set<string>)
    | OpenOp(connection: Connection)
    | CloseOp(connection: Connection)

  function ClientOf(s: System, c: nat): Client {
    if c in s.clients then s.clients[c] else NewClient
  }

  function AskedRequest(s: System, a: Action): Request
    requires a.AskOp?
  {
    Request(RequestName(ClientOf(s, a.client).requestId + 1, a.uuid), a.verb, a.params)
  }

  function AnswerTo(s: System, key: string, verdict: Verdict): Response
    requires key in s.handler.active
  {
    Response(s.handler.active[key].request.id, s.handler.active[key].request.verb, verdict)
  }

  predicate Remembered(cfg: Config, response: Response) {
    cfg.size(response) <= MAX_CACHED_RESPONSE_BYTES
  }

  /** What the handler gives up when it remembers, or does not remember, the answer of `key`. */
  function GivesUp(cfg: Config, h: Handler, key: string, response: Response): seq<string> {
    if !Remembered(cfg, response) then [key]
    else if |h.order| >= MAX_COMPLETED_REQUESTS then [h.order[0]]
    else []
  }

  function Act(cfg: Config, s: System, a: Action): System {
    match a
    case AskOp(c, verb, params, uuid, sendFails) =>
      var client := ClientOf(s, c);
      s.(clients := s.clients[c := Ask(client, verb, params, uuid, sendFails)],
         issued := if client.connected then s.issued[AskedRequest(s, a).id := Issue(c, AskedRequest(s, a))] else s.issued)
    case ReceiveOp(from, request) => AfterMessage(cfg, s, from, request)
    case CompleteOp(key, verdict) => if key in s.handler.active then AfterCompletion(cfg, s, key, verdict) else s
    case FrameOp(to, response) => s.(clients := s.clients[to.client := HandleFrame(ClientOf(s, to.client), response)])
    case TimeOutOp(c, id) => s.(clients := s.clients[c := TimeOut(ClientOf(s, c), id)])
    case ChangeOp(c, connected, reconnected, failing) =>
      s.(clients := s.clients[c := ConnectionChange(ClientOf(s, c), connected, reconnected, failing)])
    case OpenOp(connection) => s.(open := s.open + {connection})
    case CloseOp(connection) => s.(open := s.open - {connection})
  }

  function AfterMessage(cfg: Config, s: System, from: Connection, request: Request): System {
    var key := CacheKey(cfg.deviceOf(from.client), request.id);
    s.(handler := OnMessage(s.handler, s.open, cfg.deviceOf(from.client), from, request),
       dispatched := if Dispatches(s.handler, key) then s.dispatched + [key] else s.dispatched)
  }

  function AfterCompletion(cfg: Config, s: System, key: string, verdict: Verdict): System
    requires key in s.handler.active
  {
    var response := AnswerTo(s, key, verdict);
    s.(handler := Complete(cfg.size, s.handler, s.open, key, verdict),
       forgotten := s.forgotten + GivesUp(cfg, s.handler, key, response),
       history := if Remembered(cfg, response) then s.history + [Entry(key, response)] else s.history,
       computed := s.computed + {(s.handler.active[key].request, verdict)})
  }

  /** Names are new, and only frames that were sent arrive. */
  ghost predicate Enabled(s: System, a: Action) {
    && (a.AskOp? ==> AskedRequest(s, a).id !in s.issued)
    && (a.ReceiveOp? ==> a.request in ClientOf(s, a.from.client).transmitted)
    && (a.FrameOp? ==> Delivery(a.to, a.response) in s.handler.outbox)
  }

  predicate Ambiguous(d: string, e: string) {
    d != e && (d + ":" <= e || e + ":" <= d)
  }

  /** No two devices in use could share a cache key. */
  ghost predicate Sound(cfg: Config) {
    forall c, k :: !Ambiguous(cfg.deviceOf(c), cfg.deviceOf(k))
  }

  ghost predicate StepAt(cfg: Config, trace: seq<System>, actions: seq<Action>, i: nat)
    requires |trace| == |actions| + 1 && i < |actions|
  {
    Enabled(trace[i], actions[i]) && trace[i + 1] == Act(cfg, trace[i], actions[i])
  }

  ghost predicate Run(cfg: Config, trace: seq<System>, actions: seq<Action>) {
    && Sound(cfg)
    && |trace| == |actions| + 1
    && trace[0] == NewSystem
    && forall i: nat {:trigger StepAt(cfg, trace, actions, i)} | i < |actions| :: StepAt(cfg, trace, actions, i)
  }

  // ---- Cache keys ----------------------------------------------------------------------------

  /** A key tells its device and its name, unless two device ids stand in the one relation that lets keys coincide. */
  lemma CacheKeyTellsAll(d: string, id: string, e: string, jd: string)
    requires !Ambiguous(d, e) && CacheKey(d, id) == CacheKey(e, jd)
    ensures d == e && id == jd
  {
    if d == e {
      assert CacheKey(d, id)[|d| + 1..] == id && CacheKey(e, jd)[|e| + 1..] == jd;
    } else {
      CacheKeysCollideIff(d, e);
    }
  }

  /** Two devices can share a key exactly if the id of one, with a colon behind it, begins the id of the other. */
  lemma CacheKeysCollideIff(d: string, e: string)
    requires d != e
    ensures (exists id, jd :: CacheKey(d, id) == CacheKey(e, jd)) <==> Ambiguous(d, e)
  {
    if id, jd :| CacheKey(d, id) == CacheKey(e, jd) {
      if |d| <= |e| { ShorterBeginsLonger(d, id, e, jd); } else { ShorterBeginsLonger(e, jd, d, id); }
    }
    if d + ":" <= e { BeginningCollides(d, e); }
    if e + ":" <= d { BeginningCollides(e, d); }
  }

  lemma ShorterBeginsLonger(d: string, id: string, e: string, jd: string)
    requires d != e && |d| <= |e| && CacheKey(d, id) == CacheKey(e, jd)
    ensures d + ":" <= e
  {
    var key := CacheKey(d, id);
    assert key[..|d|] == d && key[..|e|] == e;
    assert |d| < |e|;
    assert key[..|d| + 1] == d + ":" && e[..|d| + 1] == key[..|d| + 1];
  }

  lemma BeginningCollides(d: string, e: string)
    requires d + ":" <= e
    ensures CacheKey(d, e[|d| + 1..] + ":") == CacheKey(e, "")
  {
    assert e == d + ":" + e[|d| + 1..];
  }

  /** An input for which it happens. */
  lemma CacheKeysCollideWithColons()
    ensures CacheKey("a", "b:c") == CacheKey("a:b", "c")
  {
    assert CacheKey("a", "b:c") == "a:b:c" == CacheKey("a:b", "c");
  }

  // ---- The cache -----------------------------------------------------------------------------

  function Recent(s: System): nat {
    if |s.history| <= MAX_COMPLETED_REQUESTS then |s.history| else MAX_COMPLETED_REQUESTS
  }

  ghost predicate SlotOk(s: System, i: nat)
    requires i < |s.handler.order| <= |s.history|
  {
    var entry := s.history[|s.history| - |s.handler.order| + i];
    && s.handler.order[i] == entry.key
    && entry.key in s.handler.completed && s.handler.completed[entry.key] == entry.response
    && (forall j | i < j < |s.handler.order| :: s.handler.order[j] != s.handler.order[i])
  }

  /** The cache holds exactly the last answers that were remembered, at most 128 of them. */
  ghost predicate CacheOk(s: System) {
    && |s.handler.order| == Recent(s)
    && (forall i: nat {:trigger SlotOk(s, i)} | i < |s.handler.order| :: SlotOk(s, i))
    && (forall key | key in s.handler.completed :: key in s.handler.order)
  }

  lemma OrderHoldsCompleted(s: System, key: string)
    requires CacheOk(s)
    ensures key in s.handler.order <==> key in s.handler.completed
  {
    forall i: nat | i < |s.handler.order| ensures s.handler.order[i] in s.handler.completed { assert SlotOk(s, i); }
  }

  /** The new answer takes the last slot; if the cache was full, the oldest leaves. */
  ghost predicate Remembers(cfg: Config, s: System, key: string, response: Response, t: System) {
    && CacheOk(s) && key !in s.handler.completed && Remembered(cfg, response)
    && t.history == s.history + [Entry(key, response)]
    && t.handler.order == Remember(cfg.size, s.handler, key, response).order
    && t.handler.completed == Remember(cfg.size, s.handler, key, response).completed
  }

  lemma RememberShape(cfg: Config, s: System, key: string, response: Response, t: System)
    requires Remembers(cfg, s, key, response, t)
    ensures var h, full := s.handler, |s.handler.order| == MAX_COMPLETED_REQUESTS;
            && |h.order| <= MAX_COMPLETED_REQUESTS
            && t.handler.order == (if full then h.order[1..] else h.order) + [key]
            && t.handler.completed == (if full then h.completed - {h.order[0]} else h.completed)[key := response]
  {
    OrderHoldsCompleted(s, key);
    var h := s.handler;
    if |h.order| == MAX_COMPLETED_REQUESTS {
      assert (h.order + [key])[1..] == h.order[1..] + [key];
      assert h.order[0] != key;
    }
  }

  lemma RememberKeepsSlot(cfg: Config, s: System, key: string, response: Response, t: System, i: nat)
    requires Remembers(cfg, s, key, response, t) && i < |t.handler.order|
    ensures |t.handler.order| <= |t.history| && SlotOk(t, i)
  {
    RememberShape(cfg, s, key, response, t);
    OrderHoldsCompleted(s, key);
    var dropped := |s.handler.order| + 1 - |t.handler.order|;
    if dropped == 1 { assert SlotOk(s, 0); }
    if i + dropped < |s.handler.order| { assert SlotOk(s, i + dropped); }
  }

  lemma RememberKeepsCache(cfg: Config, s: System, key: string, response: Response, t: System)
    requires Remembers(cfg, s, key, response, t)
    ensures CacheOk(t)
  {
    RememberShape(cfg, s, key, response, t);
    forall i: nat | i < |t.handler.order| ensures |t.handler.order| <= |t.history| && SlotOk(t, i) {
      RememberKeepsSlot(cfg, s, key, response, t, i);
    }
    forall other | other in t.handler.completed ensures other in t.handler.order {
      if other == key {
        assert t.handler.order[|t.handler.order| - 1] == key;
      } else {
        RememberKeepsOthers(cfg, s, key, response, t, other);
      }
    }
  }

  lemma RememberKeepsOthers(cfg: Config, s: System, key: string, response: Response, t: System, other: string)
    requires Remembers(cfg, s, key, response, t) && other != key && other in t.handler.completed
    ensures other in t.handler.order
  {
    RememberShape(cfg, s, key, response, t);
    var dropped := |s.handler.order| + 1 - |t.handler.order|;
    var i :| 0 <= i < |s.handler.order| && s.handler.order[i] == other;
    assert t.handler.order[i - dropped] == other;
  }

  // ---- The invariant -------------------------------------------------------------------------

  function KeyOf(cfg: Config, s: System, id: string): string
    requires id in s.issued
  {
    CacheKey(cfg.deviceOf(s.issued[id].client), id)
  }

  /** The response carries a verdict that the API gave on the very request of that name. */
  ghost predicate Answers(s: System, r: Response) {
    r.id in s.issued && r.verb == s.issued[r.id].request.verb && (s.issued[r.id].request, r.verdict) in s.computed
  }

  ghost predicate ActiveOk(cfg: Config, s: System, key: string)
    requires key in s.handler.active
  {
    var operation := s.handler.active[key];
    var id := operation.request.id;
    && id in s.issued && s.issued[id].request == operation.request && key == KeyOf(cfg, s, id)
    && (forall w | w in operation.waiters :: w.client == s.issued[id].client)
    && key !in s.handler.completed
  }

  ghost predicate CompletedOk(cfg: Config, s: System, key: string)
    requires key in s.handler.completed
  {
    var r := s.handler.completed[key];
    Answers(s, r) && key == KeyOf(cfg, s, r.id)
  }

  ghost predicate DeliveryOk(s: System, d: Delivery) {
    && d.response.id in s.issued && s.issued[d.response.id].client == d.to.client
    && (Answers(s, d.response) || d.response == ConflictFor(s.issued[d.response.id].request))
  }

  ghost predicate PendingOk(s: System, c: nat, id: string)
    requires id in ClientOf(s, c).pending
  {
    var request := ClientOf(s, c).pending[id];
    id in s.issued && s.issued[id] == Issue(c, request) && request in ClientOf(s, c).transmitted
  }

  /** The order lists the pending names, each once. */
  ghost predicate OrderOk(s: System, c: nat) {
    var client := ClientOf(s, c);
    && (forall id :: id in client.order <==> id in client.pending)
    && Distinct(client.order)
  }

  ghost predicate Distinct(order: seq<string>) {
    forall i, j | 0 <= i < j < |order| :: order[i] != order[j]
  }

  lemma {:induction false} WithoutKeepsDistinct(order: seq<string>, id: string)
    requires Distinct(order)
    ensures Distinct(Without(order, id))
    decreases |order|
  {
    if order != [] {
      var rest := order[1..];
      assert forall i | 0 <= i < |rest| :: rest[i] == order[i + 1];
      WithoutKeepsDistinct(rest, id);
      var kept := Without(rest, id);
      forall i | 0 <= i < |kept| ensures kept[i] != order[0] {
        assert kept[i] in rest;
        var k :| 0 <= k < |rest| && rest[k] == kept[i];
        assert order[k + 1] == kept[i];
      }
      var whole := Without(order, id);
      assert whole == kept || whole == [order[0]] + kept;
    }
  }

  ghost predicate SentOk(s: System, c: nat, r: Request) {
    r.id in s.issued && s.issued[r.id] == Issue(c, r)
  }

  /** The backend reported an error of its API, not merely that it is busy. */
  predicate Failed(outcome: Outcome) {
    outcome.Rejected? && outcome.reason.BackendFailed? && outcome.reason.error.ApiError?
  }

  /** How a promise may end: by the API's verdict on its own request, or by a refusal on the way. */
  ghost predicate EndingOk(s: System, c: nat, i: nat)
    requires i < |ClientOf(s, c).settled|
  {
    var ending := ClientOf(s, c).settled[i];
    && ending.outcome != Rejected(MethodMismatch)
    && (ending.id.None? ==> ending.outcome == Rejected(NotConnected))
    && (ending.id.Some? ==>
          && ending.id.value in s.issued && s.issued[ending.id.value].client == c
          && ending.id.value !in ClientOf(s, c).pending
          && (ending.outcome.Fulfilled? ==> (s.issued[ending.id.value].request, Success(ending.outcome.result)) in s.computed)
          && (Failed(ending.outcome) ==>
                (s.issued[ending.id.value].request, Failure(ending.outcome.reason.error)) in s.computed)
          && (forall j | i < j < |ClientOf(s, c).settled| :: ClientOf(s, c).settled[j].id != ending.id))
  }

  /** A promise waits or has ended. */
  ghost predicate Accounted(s: System, id: string)
    requires id in s.issued
  {
    var client := ClientOf(s, s.issued[id].client);
    id in client.pending || exists i :: 0 <= i < |client.settled| && client.settled[i].id == Some(id)
  }

  /** Every dispatch of a key is still running, remembered, or was forgotten. */
  ghost predicate Conserved(s: System, key: string) {
    multiset(s.dispatched)[key]
    == One(key in s.handler.active) + One(key in s.handler.completed) + multiset(s.forgotten)[key]
  }

  ghost predicate HandlerInv(cfg: Config, s: System) {
    && |s.handler.active| <= MAX_ACTIVE_REQUESTS
    && CacheOk(s)
    && (forall key {:trigger ActiveOk(cfg, s, key)} | key in s.handler.active :: ActiveOk(cfg, s, key))
    && (forall key {:trigger CompletedOk(cfg, s, key)} | key in s.handler.completed :: CompletedOk(cfg, s, key))
    && (forall d {:trigger DeliveryOk(s, d)} | d in s.handler.outbox :: DeliveryOk(s, d))
    && (forall key {:trigger Conserved(s, key)} :: Conserved(s, key))
  }

  ghost predicate ClientInv(s: System) {
    && (forall c {:trigger OrderOk(s, c)} :: OrderOk(s, c))
    && (forall c, id {:trigger PendingOk(s, c, id)} | id in ClientOf(s, c).pending :: PendingOk(s, c, id))
    && (forall c, r {:trigger SentOk(s, c, r)} | r in ClientOf(s, c).transmitted :: SentOk(s, c, r))
    && (forall c, i: nat {:trigger EndingOk(s, c, i)} | i < |ClientOf(s, c).settled| :: EndingOk(s, c, i))
    && (forall id {:trigger Accounted(s, id)} | id in s.issued :: Accounted(s, id))
    && (forall id | id in s.issued :: s.issued[id].request.id == id)
  }

  ghost predicate SystemInv(cfg: Config, s: System) {
    HandlerInv(cfg, s) && ClientInv(s)
  }

  // ---- Client steps --------------------------------------------------------------------------

  /** New names and new clients leave the handler's side in order. */
  lemma IssuingKeepsHandler(cfg: Config, s: System, t: System)
    requires HandlerInv(cfg, s)
    requires t == s.(clients := t.clients, issued := t.issued, open := t.open)
    requires forall id | id in s.issued :: id in t.issued && t.issued[id] == s.issued[id]
    ensures HandlerInv(cfg, t)
  {
    assert CacheOk(t) by {
      forall i: nat | i < |t.handler.order| ensures SlotOk(t, i) { assert SlotOk(s, i); }
    }
    forall key | key in t.handler.active ensures ActiveOk(cfg, t, key) { assert ActiveOk(cfg, s, key); }
    forall key | key in t.handler.completed ensures CompletedOk(cfg, t, key) { assert CompletedOk(cfg, s, key); }
    forall d | d in t.handler.outbox ensures DeliveryOk(t, d) { assert DeliveryOk(s, d); }
    forall key ensures Conserved(t, key) { assert Conserved(s, key); }
  }

  /** A client step that sends and issues nothing new, and at most ends one promise. */
  lemma SettlingKeepsClients(s: System, t: System, c: nat, client: Client, ended: Option<Ending>)
    requires ClientInv(s)
    requires t == s.(clients := s.clients[c := client])
    requires ClientOf(s, c).transmitted <= client.transmitted
    requires forall r | r in client.transmitted :: r in ClientOf(s, c).transmitted || r in ClientOf(s, c).pending.Values
    requires ended.None? ==> client.pending == ClientOf(s, c).pending && client.settled == ClientOf(s, c).settled
    requires ended.Some? ==>
      var id, outcome := ended.value.id, ended.value.outcome;
      && id.Some? && id.value in ClientOf(s, c).pending && client.pending == ClientOf(s, c).pending - {id.value}
      && client.settled == ClientOf(s, c).settled + [ended.value]
      && outcome != Rejected(MethodMismatch)
      && (outcome.Fulfilled? ==> id.value in s.issued && (s.issued[id.value].request, Success(outcome.result)) in s.computed)
      && (Failed(outcome) ==> id.value in s.issued && (s.issued[id.value].request, Failure(outcome.reason.error)) in s.computed)
    requires client.order == if ended.None? then ClientOf(s, c).order else Without(ClientOf(s, c).order, ended.value.id.value)
    ensures ClientInv(t)
  {
    var before := ClientOf(s, c);
    forall d ensures OrderOk(t, d) {
      assert OrderOk(s, d);
      if d == c && ended.Some? { WithoutKeepsDistinct(before.order, ended.value.id.value); }
    }
    forall d, id | id in ClientOf(t, d).pending ensures PendingOk(t, d, id) { assert PendingOk(s, d, id); }
    forall d, r | r in ClientOf(t, d).transmitted ensures SentOk(t, d, r) {
      if r in ClientOf(s, d).transmitted {
        assert SentOk(s, d, r);
      } else {
        var id :| id in before.pending && before.pending[id] == r;
        assert PendingOk(s, c, id);
      }
    }
    forall d, i: nat | i < |ClientOf(t, d).settled| ensures EndingOk(t, d, i) {
      if i < |ClientOf(s, d).settled| {
        assert EndingOk(s, d, i);
      } else {
        var id := client.settled[i].id.value;
        assert PendingOk(s, c, id);
      }
    }
    assert forall k | k in before.pending && k !in client.pending ::
        |client.settled| > |before.settled| && client.settled[|before.settled|].id == Some(k);
    forall id | id in t.issued ensures Accounted(t, id) {
      assert Accounted(s, id);
      EndingsStay(s, t, c, client, id);
    }
  }

  lemma EndingsStay(s: System, t: System, c: nat, client: Client, id: string)
    requires id in s.issued && Accounted(s, id)
    requires t == s.(clients := s.clients[c := client])
    requires ClientOf(s, c).settled <= client.settled
    requires forall k | k in ClientOf(s, c).pending && k !in client.pending ::
               exists i :: 0 <= i < |client.settled| && client.settled[i].id == Some(k)
    ensures Accounted(t, id)
  {
  }

  lemma AskKeeps(cfg: Config, s: System, a: Action)
    requires SystemInv(cfg, s) && Enabled(s, a) && a.AskOp?
    ensures SystemInv(cfg, Act(cfg, s, a))
  {
    var t := Act(cfg, s, a);
    IssuingKeepsHandler(cfg, s, t);
    forall d ensures OrderOk(t, d) { AskKeepsOrder(cfg, s, a, d); }
    AskKeepsFrames(cfg, s, a);
    forall d, i: nat | i < |ClientOf(t, d).settled| ensures EndingOk(t, d, i) { AskKeepsEnding(cfg, s, a, d, i); }
    forall id | id in t.issued ensures Accounted(t, id) { AskAccounts(cfg, s, a, id); }
  }

  lemma AskKeepsFrames(cfg: Config, s: System, a: Action)
    requires SystemInv(cfg, s) && Enabled(s, a) && a.AskOp?
    ensures var t := Act(cfg, s, a);
            && (forall d, id {:trigger PendingOk(t, d, id)} | id in ClientOf(t, d).pending :: PendingOk(t, d, id))
            && (forall d, r {:trigger SentOk(t, d, r)} | r in ClientOf(t, d).transmitted :: SentOk(t, d, r))
  {
    var t := Act(cfg, s, a);
    forall d, id | id in ClientOf(t, d).pending ensures PendingOk(t, d, id) {
      if id in ClientOf(s, d).pending { assert PendingOk(s, d, id); }
    }
    forall d, r | r in ClientOf(t, d).transmitted ensures SentOk(t, d, r) {
      if r in ClientOf(s, d).transmitted { assert SentOk(s, d, r); }
    }
  }

  lemma AskKeepsEnding(cfg: Config, s: System, a: Action, d: nat, i: nat)
    requires SystemInv(cfg, s) && Enabled(s, a) && a.AskOp? && i < |ClientOf(Act(cfg, s, a), d).settled|
    ensures EndingOk(Act(cfg, s, a), d, i)
  {
    if i < |ClientOf(s, d).settled| { assert EndingOk(s, d, i); }
  }

  lemma AskKeepsOrder(cfg: Config, s: System, a: Action, d: nat)
    requires SystemInv(cfg, s) && Enabled(s, a) && a.AskOp?
    ensures OrderOk(Act(cfg, s, a), d)
  {
    assert OrderOk(s, d);
    if d == a.client && ClientOf(s, d).connected {
      var client, name := ClientOf(s, d), AskedRequest(s, a).id;
      forall id | id in client.pending ensures id in s.issued { assert PendingOk(s, d, id); }
      AskedOrder(client, name, a.verb, a.params, a.uuid, a.sendFails);
    }
  }

  lemma AskedOrder(client: Client, name: string, verb: Method, params: Payload, uuid: string, sendFails: bool)
    requires client.connected && name == RequestName(client.requestId + 1, uuid) && name !in client.pending
    requires (forall id :: id in client.order <==> id in client.pending) && Distinct(client.order)
    ensures var after := Ask(client, verb, params, uuid, sendFails);
            (forall id :: id in after.order <==> id in after.pending) && Distinct(after.order)
  {
    assert Distinct(client.order + [name]);
    WithoutKeepsDistinct(client.order + [name], name);
  }

  lemma AskAccounts(cfg: Config, s: System, a: Action, id: string)
    requires SystemInv(cfg, s) && Enabled(s, a) && a.AskOp? && id in Act(cfg, s, a).issued
    ensures Accounted(Act(cfg, s, a), id)
  {
    var t := Act(cfg, s, a);
    var before, after := ClientOf(s, a.client), ClientOf(t, a.client);
    if id in s.issued {
      assert Accounted(s, id);
      forall k | k in before.pending ensures k in after.pending { assert PendingOk(s, a.client, k); }
      EndingsStay(s, s.(clients := t.clients), a.client, after, id);
    } else if a.sendFails {
      assert after.settled[|before.settled|].id == Some(id);
    }
  }

  lemma FrameKeeps(cfg: Config, s: System, a: Action)
    requires SystemInv(cfg, s) && Enabled(s, a) && a.FrameOp?
    ensures SystemInv(cfg, Act(cfg, s, a))
  {
    var t, c, r := Act(cfg, s, a), a.to.client, a.response;
    IssuingKeepsHandler(cfg, s, t);
    assert DeliveryOk(s, Delivery(a.to, r));
    var outcome := if r.verdict.Success? then Fulfilled(r.verdict.result) else Rejected(BackendFailed(r.verdict.error));
    if r.id in ClientOf(s, c).pending {
      assert PendingOk(s, c, r.id);
      SettlingKeepsClients(s, t, c, HandleFrame(ClientOf(s, c), r), Some(Ending(Some(r.id), outcome)));
    } else {
      SettlingKeepsClients(s, t, c, ClientOf(s, c), None);
    }
  }

  lemma TimeOutKeeps(cfg: Config, s: System, a: Action)
    requires SystemInv(cfg, s) && a.TimeOutOp?
    ensures SystemInv(cfg, Act(cfg, s, a))
  {
    var t := Act(cfg, s, a);
    IssuingKeepsHandler(cfg, s, t);
    var client := ClientOf(s, a.client);
    SettlingKeepsClients(s, t, a.client, TimeOut(client, a.id),
                         if a.id in client.pending then Some(Ending(Some(a.id), Rejected(TimedOut))) else None);
  }

  lemma {:induction false} ResendsArePending(pending: map<string, Request>, order: seq<string>, failing: set<string>)
    ensures forall r | r in Resends(pending, order, failing) :: exists id :: id in order && id in pending && id !in failing && pending[id] == r
    ensures forall id | id in order && id in pending && id !in failing :: pending[id] in Resends(pending, order, failing)
    decreases |order|
  {
    if order != [] {
      ResendsArePending(pending, order[..|order| - 1], failing);
      assert order == order[..|order| - 1] + [order[|order| - 1]];
    }
  }

  lemma ChangeKeeps(cfg: Config, s: System, a: Action)
    requires SystemInv(cfg, s) && a.ChangeOp?
    ensures SystemInv(cfg, Act(cfg, s, a))
  {
    var t := Act(cfg, s, a);
    IssuingKeepsHandler(cfg, s, t);
    ResendsArePending(ClientOf(s, a.client).pending, ClientOf(s, a.client).order, a.failing);
    SettlingKeepsClients(s, t, a.client, ConnectionChange(ClientOf(s, a.client), a.connected, a.reconnected, a.failing), None);
  }

  lemma CarrierKeeps(cfg: Config, s: System, open: set<Connection>)
    requires SystemInv(cfg, s)
    ensures SystemInv(cfg, s.(open := open))
  {
    var t := s.(open := open);
    IssuingKeepsHandler(cfg, s, t);
    ClientsUntouched(s, t);
  }

  /** The handler's steps leave the clients alone. */
  lemma ClientsUntouched(s: System, t: System)
    requires ClientInv(s) && t.clients == s.clients && t.issued == s.issued && s.computed <= t.computed
    ensures ClientInv(t)
  {
    forall c ensures OrderOk(t, c) { assert OrderOk(s, c); }
    forall c, id | id in ClientOf(t, c).pending ensures PendingOk(t, c, id) { assert PendingOk(s, c, id); }
    forall c, r | r in ClientOf(t, c).transmitted ensures SentOk(t, c, r) { assert SentOk(s, c, r); }
    forall c, i: nat | i < |ClientOf(t, c).settled| ensures EndingOk(t, c, i) { assert EndingOk(s, c, i); }
    forall id | id in t.issued ensures Accounted(t, id) { assert Accounted(s, id); }
  }

  // ---- Handler steps -------------------------------------------------------------------------

  lemma SendKeepsDeliveries(s: System, t: System, open: set<Connection>, to: Connection, response: Response)
    requires forall d {:trigger DeliveryOk(s, d)} | d in s.handler.outbox :: DeliveryOk(s, d)
    requires t.issued == s.issued && s.computed <= t.computed
    requires t.handler.outbox == Send(s.handler, open, to, response).outbox
    requires to in open ==> DeliveryOk(t, Delivery(to, response))
    ensures forall d {:trigger DeliveryOk(t, d)} | d in t.handler.outbox :: DeliveryOk(t, d)
  {
    forall d | d in t.handler.outbox ensures DeliveryOk(t, d) {
      if d in s.handler.outbox { assert DeliveryOk(s, d); }
    }
  }

  lemma MessageKeeps(cfg: Config, s: System, from: Connection, request: Request)
    requires Sound(cfg) && SystemInv(cfg, s) && request in ClientOf(s, from.client).transmitted
    ensures SystemInv(cfg, AfterMessage(cfg, s, from, request))
  {
    var t := AfterMessage(cfg, s, from, request);
    var key := CacheKey(cfg.deviceOf(from.client), request.id);
    assert SentOk(s, from.client, request);
    ClientsUntouched(s, t);
    if key in s.handler.completed {
      assert CompletedOk(cfg, s, key);
      CacheKeyTellsAll(cfg.deviceOf(from.client), request.id,
                       cfg.deviceOf(s.issued[s.handler.completed[key].id].client), s.handler.completed[key].id);
      SendKeepsDeliveries(s, t, s.open, from, s.handler.completed[key]);
      AnsweringKeepsTables(cfg, s, t);
    } else if key in s.handler.active {
      JoiningKeeps(cfg, s, from, request);
    } else if |s.handler.active| >= MAX_ACTIVE_REQUESTS {
      SendKeepsDeliveries(s, t, s.open, from, ConflictFor(request));
      AnsweringKeepsTables(cfg, s, t);
    } else {
      DispatchKeeps(cfg, s, from, request);
    }
  }

  /** Only the outbox changed, and it is in order. */
  lemma AnsweringKeepsTables(cfg: Config, s: System, t: System)
    requires HandlerInv(cfg, s) && t == s.(handler := s.handler.(outbox := t.handler.outbox))
    requires forall d {:trigger DeliveryOk(t, d)} | d in t.handler.outbox :: DeliveryOk(t, d)
    ensures HandlerInv(cfg, t)
  {
    assert CacheOk(t) by {
      forall i: nat | i < |t.handler.order| ensures SlotOk(t, i) { assert SlotOk(s, i); }
    }
    forall key | key in t.handler.active ensures ActiveOk(cfg, t, key) { assert ActiveOk(cfg, s, key); }
    forall key | key in t.handler.completed ensures CompletedOk(cfg, t, key) { assert CompletedOk(cfg, s, key); }
    forall key ensures Conserved(t, key) { assert Conserved(s, key); }
  }

  lemma JoiningKeeps(cfg: Config, s: System, from: Connection, request: Request)
    requires Sound(cfg) && SystemInv(cfg, s) && SentOk(s, from.client, request)
    requires var key := CacheKey(cfg.deviceOf(from.client), request.id); key !in s.handler.completed && key in s.handler.active
    ensures HandlerInv(cfg, AfterMessage(cfg, s, from, request))
  {
    var t := AfterMessage(cfg, s, from, request);
    var joined := CacheKey(cfg.deviceOf(from.client), request.id);
    assert ActiveOk(cfg, s, joined);
    var id := s.handler.active[joined].request.id;
    CacheKeyTellsAll(cfg.deviceOf(from.client), request.id, cfg.deviceOf(s.issued[id].client), id);
    assert t.handler.active.Keys == s.handler.active.Keys;
    assert |t.handler.active| == |t.handler.active.Keys| && |s.handler.active| == |s.handler.active.Keys|;
    assert CacheOk(t) by {
      forall i: nat | i < |t.handler.order| ensures SlotOk(t, i) { assert SlotOk(s, i); }
    }
    forall key | key in t.handler.active ensures ActiveOk(cfg, t, key) { assert ActiveOk(cfg, s, key); }
    forall key | key in t.handler.completed ensures CompletedOk(cfg, t, key) { assert CompletedOk(cfg, s, key); }
    forall d | d in t.handler.outbox ensures DeliveryOk(t, d) { assert DeliveryOk(s, d); }
    forall key ensures Conserved(t, key) { assert Conserved(s, key); }
  }

  lemma DispatchKeeps(cfg: Config, s: System, from: Connection, request: Request)
    requires SystemInv(cfg, s) && SentOk(s, from.client, request)
    requires Dispatches(s.handler, CacheKey(cfg.deviceOf(from.client), request.id))
    ensures HandlerInv(cfg, AfterMessage(cfg, s, from, request))
  {
    var t := AfterMessage(cfg, s, from, request);
    var started := CacheKey(cfg.deviceOf(from.client), request.id);
    assert CacheOk(t) by {
      forall i: nat | i < |t.handler.order| ensures SlotOk(t, i) { assert SlotOk(s, i); }
    }
    forall key | key in t.handler.active ensures ActiveOk(cfg, t, key) { if key != started { assert ActiveOk(cfg, s, key); } }
    forall key | key in t.handler.completed ensures CompletedOk(cfg, t, key) { assert CompletedOk(cfg, s, key); }
    forall d | d in t.handler.outbox ensures DeliveryOk(t, d) { assert DeliveryOk(s, d); }
    forall key ensures Conserved(t, key) { assert Conserved(s, key); }
  }

  /** Sending to all only adds to the outbox, and only that response to those waiters. */
  lemma {:induction false} SendAllAdds(h: Handler, open: set<Connection>, waiters: seq<Connection>, response: Response)
    ensures var k := SendAll(h, open, waiters, response);
            && k == h.(outbox := k.outbox)
            && (forall d | d in k.outbox :: d in h.outbox || (d.response == response && d.to in waiters && d.to in open))
    decreases |waiters|
  {
    if waiters != [] {
      var most, last := waiters[..|waiters| - 1], waiters[|waiters| - 1];
      SendAllAdds(h, open, most, response);
      assert forall w | w in most :: w in waiters;
    }
  }

  lemma CompletionKeeps(cfg: Config, s: System, key: string, verdict: Verdict)
    requires SystemInv(cfg, s) && key in s.handler.active
    ensures SystemInv(cfg, AfterCompletion(cfg, s, key, verdict))
  {
    var t := AfterCompletion(cfg, s, key, verdict);
    ClientsUntouched(s, t);
    CompletionShape(cfg, s, key, verdict);
    CompletionKeepsTables(cfg, s, key, verdict);
    CompletionKeepsCache(cfg, s, key, verdict);
    forall other ensures Conserved(t, other) { CompletionConserves(cfg, s, key, verdict, other); }
  }

  lemma CompletionShape(cfg: Config, s: System, key: string, verdict: Verdict)
    requires key in s.handler.active
    ensures var k, r := AfterCompletion(cfg, s, key, verdict).handler, AnswerTo(s, key, verdict);
            && k.active == s.handler.active - {key}
            && k.order == Remember(cfg.size, s.handler, key, r).order
            && k.completed == Remember(cfg.size, s.handler, key, r).completed
            && (forall d | d in k.outbox :: d in s.handler.outbox || (d.response == r && d.to in s.handler.active[key].waiters))
  {
    var r := AnswerTo(s, key, verdict);
    var done := Remember(cfg.size, s.handler, key, r);
    SendAllAdds(done.(active := done.active - {key}), s.open, s.handler.active[key].waiters, r);
  }

  lemma CompletionKeepsTables(cfg: Config, s: System, done: string, verdict: Verdict)
    requires SystemInv(cfg, s) && done in s.handler.active
    ensures var t := AfterCompletion(cfg, s, done, verdict);
            && |t.handler.active| <= MAX_ACTIVE_REQUESTS
            && (forall key {:trigger ActiveOk(cfg, t, key)} | key in t.handler.active :: ActiveOk(cfg, t, key))
            && (forall key {:trigger CompletedOk(cfg, t, key)} | key in t.handler.completed :: CompletedOk(cfg, t, key))
            && (forall d {:trigger DeliveryOk(t, d)} | d in t.handler.outbox :: DeliveryOk(t, d))
  {
    var t := AfterCompletion(cfg, s, done, verdict);
    CompletionShape(cfg, s, done, verdict);
    assert ActiveOk(cfg, s, done);
    assert |s.handler.active| == |t.handler.active| + 1;
    forall key | key in t.handler.active ensures ActiveOk(cfg, t, key) { assert ActiveOk(cfg, s, key); }
    forall key | key in t.handler.completed ensures CompletedOk(cfg, t, key) { if key != done { assert CompletedOk(cfg, s, key); } }
    forall d | d in t.handler.outbox ensures DeliveryOk(t, d) { if d in s.handler.outbox { assert DeliveryOk(s, d); } }
  }

  lemma CompletionKeepsCache(cfg: Config, s: System, key: string, verdict: Verdict)
    requires SystemInv(cfg, s) && key in s.handler.active
    ensures CacheOk(AfterCompletion(cfg, s, key, verdict))
  {
    var t := AfterCompletion(cfg, s, key, verdict);
    CompletionShape(cfg, s, key, verdict);
    assert ActiveOk(cfg, s, key);
    if Remembered(cfg, AnswerTo(s, key, verdict)) {
      RememberKeepsCache(cfg, s, key, AnswerTo(s, key, verdict), t);
    } else {
      forall i: nat | i < |t.handler.order| ensures SlotOk(t, i) { assert SlotOk(s, i); }
    }
  }

  lemma CompletionConserves(cfg: Config, s: System, key: string, verdict: Verdict, other: string)
    requires SystemInv(cfg, s) && key in s.handler.active
    ensures Conserved(AfterCompletion(cfg, s, key, verdict), other)
  {
    CompletionShape(cfg, s, key, verdict);
    assert ActiveOk(cfg, s, key);
    assert Conserved(s, other);
    if |s.handler.order| > 0 { assert SlotOk(s, 0); }
  }

  // ---- Runs ----------------------------------------------------------------------------------

  lemma ActKeeps(cfg: Config, s: System, a: Action)
    requires Sound(cfg) && SystemInv(cfg, s) && Enabled(s, a)
    ensures SystemInv(cfg, Act(cfg, s, a))
  {
    match a
    case AskOp(_, _, _, _, _) => AskKeeps(cfg, s, a);
    case ReceiveOp(from, request) => MessageKeeps(cfg, s, from, request);
    case CompleteOp(key, verdict) => if key in s.handler.active { CompletionKeeps(cfg, s, key, verdict); }
    case FrameOp(_, _) => FrameKeeps(cfg, s, a);
    case TimeOutOp(_, _) => TimeOutKeeps(cfg, s, a);
    case ChangeOp(_, _, _, _) => ChangeKeeps(cfg, s, a);
    case OpenOp(connection) => CarrierKeeps(cfg, s, s.open + {connection});
    case CloseOp(connection) => CarrierKeeps(cfg, s, s.open - {connection});
  }

  lemma NewSystemInv(cfg: Config)
    ensures SystemInv(cfg, NewSystem)
  {
  }

  lemma {:induction false} RunKeepsInv(cfg: Config, trace: seq<System>, actions: seq<Action>, i: nat)
    requires Run(cfg, trace, actions) && i < |trace|
    ensures SystemInv(cfg, trace[i])
    decreases i
  {
    if i == 0 {
      NewSystemInv(cfg);
    } else {
      RunKeepsInv(cfg, trace, actions, i - 1);
      assert StepAt(cfg, trace, actions, i - 1);
      ActKeeps(cfg, trace[i - 1], actions[i - 1]);
    }
  }

  // ---- What follows --------------------------------------------------------------------------

  /** The handler never runs what it remembers, runs at most 64 requests and remembers at most 128 answers. */
  lemma TablesAreDisjointAndBounded(cfg: Config, trace: seq<System>, actions: seq<Action>, n: nat)
    requires Run(cfg, trace, actions) && n < |trace|
    ensures trace[n].handler.active.Keys !! trace[n].handler.completed.Keys
    ensures |trace[n].handler.active| <= MAX_ACTIVE_REQUESTS
    ensures |trace[n].handler.completed| <= MAX_COMPLETED_REQUESTS
  {
    RunKeepsInv(cfg, trace, actions, n);
    var h := trace[n].handler;
    forall key | key in h.active ensures key !in h.completed { assert ActiveOk(cfg, trace[n], key); }
    SetOfSeqIsSmall(h.order, h.completed.Keys);
    assert |h.completed| == |h.completed.Keys|;
  }

  lemma {:induction false} SetOfSeqIsSmall(order: seq<string>, keys: set<string>)
    requires forall key | key in keys :: key in order
    ensures |keys| <= |order|
    decreases |order|
  {
    if order != [] {
      SetOfSeqIsSmall(order[1..], keys - {order[0]});
      if order[0] in keys { assert |keys - {order[0]}| == |keys| - 1; } else { assert keys - {order[0]} == keys; }
    } else {
      assert keys == {};
    }
  }

  /** Each dispatch of a key is still running, remembered, or was forgotten; so nothing runs twice unless it was forgotten. */
  lemma DispatchesAreConserved(cfg: Config, trace: seq<System>, actions: seq<Action>, n: nat, key: string)
    requires Run(cfg, trace, actions) && n < |trace|
    ensures Conserved(trace[n], key)
    ensures key !in trace[n].forgotten ==> multiset(trace[n].dispatched)[key] <= 1
  {
    RunKeepsInv(cfg, trace, actions, n);
    assert Conserved(trace[n], key);
    if key in trace[n].handler.active { assert ActiveOk(cfg, trace[n], key); }
  }

  lemma {:induction false} HistoryGrows(cfg: Config, trace: seq<System>, actions: seq<Action>, i: nat, j: nat)
    requires Run(cfg, trace, actions) && i <= j < |trace|
    ensures trace[i].history <= trace[j].history
    decreases j - i
  {
    if i < j {
      assert StepAt(cfg, trace, actions, i);
      HistoryGrows(cfg, trace, actions, i + 1, j);
    }
  }

  /** A remembered answer outlives the next 127 remembered answers, unchanged, and no more than those. */
  lemma AnswerIsRememberedIff(cfg: Config, trace: seq<System>, actions: seq<Action>, i: nat, j: nat, e: nat)
    requires Run(cfg, trace, actions) && i <= j < |trace| && e < |trace[i].history|
    ensures |trace[i].history| <= |trace[j].history|
    ensures var entry, later := trace[i].history[e], |trace[j].history| - 1 - e;
            && (later <= 127 ==> entry.key in trace[j].handler.completed && trace[j].handler.completed[entry.key] == entry.response)
            && ((forall k | e < k < |trace[j].history| :: trace[j].history[k].key != entry.key) ==>
                  (entry.key in trace[j].handler.completed <==> later <= 127))
  {
    RunKeepsInv(cfg, trace, actions, j);
    HistoryGrows(cfg, trace, actions, i, j);
    var t := trace[j];
    var entry := trace[i].history[e];
    assert t.history[e] == entry;
    var offset := |t.history| - |t.handler.order|;
    if e >= offset {
      assert SlotOk(t, e - offset);
    } else if entry.key in t.handler.completed {
      var k :| 0 <= k < |t.handler.order| && t.handler.order[k] == entry.key;
      assert SlotOk(t, k);
      assert t.history[offset + k].key == entry.key;
    }
  }

  /**
   A request whose answer is among the last 128 remembered is answered with exactly that answer, to
   whoever repeats it: nothing is dispatched, and nothing else changes.
   */
  lemma RepeatedRequestIsReplayed(
    cfg: Config, trace: seq<System>, actions: seq<Action>, i: nat, j: nat, e: nat, from: Connection, request: Request)
    requires Run(cfg, trace, actions) && i <= j < |actions| && e < |trace[i].history|
    requires |trace[j].history| <= e + 128
    requires actions[j] == ReceiveOp(from, request) && CacheKey(cfg.deviceOf(from.client), request.id) == trace[i].history[e].key
    ensures var s, t, answer := trace[j], trace[j + 1], trace[i].history[e].response;
            && answer.id == request.id && answer.verb == request.verb
            && t == s.(handler := s.handler.(outbox :=
                 if from in s.open then s.handler.outbox + [Delivery(from, answer)] else s.handler.outbox))
  {
    AnswerIsRememberedIff(cfg, trace, actions, i, j, e);
    RunKeepsInv(cfg, trace, actions, j);
    assert StepAt(cfg, trace, actions, j);
    var s, key := trace[j], trace[i].history[e].key;
    assert CompletedOk(cfg, s, key) && SentOk(s, from.client, request);
    var answer := s.handler.completed[key];
    CacheKeyTellsAll(cfg.deviceOf(from.client), request.id, cfg.deviceOf(s.issued[answer.id].client), answer.id);
  }

  /** No promise ends twice, none waits after it ended, and each waits or has ended. */
  lemma PromiseSettlesOnce(cfg: Config, trace: seq<System>, actions: seq<Action>, n: nat, id: string)
    requires Run(cfg, trace, actions) && n < |trace| && id in trace[n].issued
    ensures var client := ClientOf(trace[n], trace[n].issued[id].client);
            && (forall i, j | 0 <= i < |client.settled| && 0 <= j < |client.settled|
                              && client.settled[i].id == Some(id) && client.settled[j].id == Some(id) :: i == j)
            && (id in client.pending <==> forall i | 0 <= i < |client.settled| :: client.settled[i].id != Some(id))
  {
    RunKeepsInv(cfg, trace, actions, n);
    var s, c := trace[n], trace[n].issued[id].client;
    assert Accounted(s, id);
    var settled := ClientOf(s, c).settled;
    forall i: nat | i < |settled| && settled[i].id == Some(id)
      ensures id !in ClientOf(s, c).pending && forall j | i < j < |settled| :: settled[j].id != Some(id)
    {
      assert EndingOk(s, c, i);
    }
  }

  /** End to end: a promise is fulfilled only with what the API returned for that very request, or fails so with its error. */
  lemma FulfilledByItsOwnRequest(cfg: Config, trace: seq<System>, actions: seq<Action>, n: nat, c: nat, i: nat)
    requires Run(cfg, trace, actions) && n < |trace| && i < |ClientOf(trace[n], c).settled|
    requires ClientOf(trace[n], c).settled[i].outcome.Fulfilled? || Failed(ClientOf(trace[n], c).settled[i].outcome)
    ensures var ending := ClientOf(trace[n], c).settled[i];
            && ending.id.Some? && ending.id.value in trace[n].issued
            && trace[n].issued[ending.id.value].client == c
            && (trace[n].issued[ending.id.value].request,
                if ending.outcome.Fulfilled? then Success(ending.outcome.result) else Failure(ending.outcome.reason.error)) in trace[n].computed
  {
    RunKeepsInv(cfg, trace, actions, n);
    assert EndingOk(trace[n], c, i);
  }

  /** With this handler at the other end, a client never sees an answer to another method. */
  lemma MethodsAlwaysMatch(cfg: Config, trace: seq<System>, actions: seq<Action>, n: nat, c: nat, i: nat)
    requires Run(cfg, trace, actions) && n < |trace| && i < |ClientOf(trace[n], c).settled|
    ensures ClientOf(trace[n], c).settled[i].outcome != Rejected(MethodMismatch)
  {
    RunKeepsInv(cfg, trace, actions, n);
    assert EndingOk(trace[n], c, i);
  }

  ghost predicate Before(order: seq<string>, a: string, b: string) {
    exists k, m :: 0 <= k < m < |order| && order[k] == a && order[m] == b
  }

  ghost predicate InOrder(again: seq<Request>, order: seq<string>) {
    forall i, j | 0 <= i < j < |again| :: Before(order, again[i].id, again[j].id)
  }

  lemma BeforeStays(order: seq<string>, last: string, a: string, b: string)
    ensures Before(order, a, b) ==> Before(order + [last], a, b)
    ensures a in order ==> Before(order + [last], a, last)
  {
    var longer := order + [last];
    assert longer[|order|] == last;
    if k, m :| 0 <= k < m < |order| && order[k] == a && order[m] == b { assert longer[k] == a && longer[m] == b; }
    if k :| 0 <= k < |order| && order[k] == a { assert longer[k] == a; }
  }

  lemma OneMoreInOrder(again: seq<Request>, order: seq<string>, r: Request)
    requires InOrder(again, order) && forall q | q in again :: q.id in order
    ensures InOrder(again + [r], order + [r.id])
  {
    var longer := again + [r];
    forall i, j | 0 <= i < j < |longer| ensures Before(order + [r.id], longer[i].id, longer[j].id) {
      if j < |again| {
        assert Before(order, again[i].id, again[j].id);
        BeforeStays(order, r.id, again[i].id, again[j].id);
      } else {
        assert again[i] in again;
        BeforeStays(order, r.id, again[i].id, r.id);
      }
    }
  }

  lemma InOrderStays(again: seq<Request>, order: seq<string>, last: string)
    requires InOrder(again, order)
    ensures InOrder(again, order + [last])
  {
    forall i, j | 0 <= i < j < |again| ensures Before(order + [last], again[i].id, again[j].id) {
      assert Before(order, again[i].id, again[j].id);
      BeforeStays(order, last, again[i].id, again[j].id);
    }
  }

  /** The frames are resent in the order of their names. */
  lemma {:induction false} ResendsAreOrdered(pending: map<string, Request>, order: seq<string>, failing: set<string>)
    requires forall id | id in order && id in pending :: pending[id].id == id
    ensures InOrder(Resends(pending, order, failing), order)
    decreases |order|
  {
    if order != [] {
      var most, last := order[..|order| - 1], order[|order| - 1];
      ResendsAreOrdered(pending, most, failing);
      ResendsArePending(pending, most, failing);
      assert order == most + [last];
      if last in pending && last !in failing {
        OneMoreInOrder(Resends(pending, most, failing), most, pending[last]);
      } else {
        InOrderStays(Resends(pending, most, failing), most, last);
        assert Resends(pending, order, failing) == Resends(pending, most, failing);
      }
    }
  }

  /** Each pending request but for the failing ones, once, oldest first, as it was issued; and nothing else. */
  ghost predicate EachPendingOnce(s: System, c: nat, failing: set<string>, again: seq<Request>) {
    var client := ClientOf(s, c);
    && (forall r | r in again :: r.id in client.pending && r.id !in failing && r.id in s.issued && s.issued[r.id] == Issue(c, r))
    && (forall id | id in client.pending && id !in failing :: exists r :: r in again && r.id == id)
    && (forall i, j | 0 <= i < j < |again| :: again[i].id != again[j].id)
    && InOrder(again, client.order)
  }

  lemma ResendsEachPendingOnce(s: System, c: nat, failing: set<string>)
    requires ClientInv(s)
    ensures EachPendingOnce(s, c, failing, Resends(ClientOf(s, c).pending, ClientOf(s, c).order, failing))
  {
    var client := ClientOf(s, c);
    var again := Resends(client.pending, client.order, failing);
    assert OrderOk(s, c);
    forall id | id in client.pending ensures client.pending[id].id == id && id in s.issued && s.issued[id] == Issue(c, client.pending[id]) {
      assert PendingOk(s, c, id);
    }
    ResendsArePending(client.pending, client.order, failing);
    ResendsAreOrdered(client.pending, client.order, failing);
    forall i, j | 0 <= i < j < |again| ensures again[i].id != again[j].id {
      assert Before(client.order, again[i].id, again[j].id);
    }
  }

  /**
   After a reconnect the transport takes each pending request again, once, oldest first and under the
   name and content it was issued with, but for those on which it throws; and nothing else. Any other
   change of the connection sends nothing.
   */
  lemma ReconnectResendsEachPendingOnce(
    cfg: Config, trace: seq<System>, actions: seq<Action>, n: nat, c: nat, connected: bool, reconnected: bool, failing: set<string>)
    requires Run(cfg, trace, actions) && n < |trace|
    ensures var before, after := ClientOf(trace[n], c), ConnectionChange(ClientOf(trace[n], c), connected, reconnected, failing);
            exists again :: after.transmitted == before.transmitted + again
                            && if connected && reconnected then EachPendingOnce(trace[n], c, failing, again) else again == []
  {
    RunKeepsInv(cfg, trace, actions, n);
    ResendsEachPendingOnce(trace[n], c, failing);
    var client := ClientOf(trace[n], c);
    if connected && reconnected {
      assert ConnectionChange(client, true, true, failing).transmitted
          == client.transmitted + Resends(client.pending, client.order, failing);
    } else {
      assert client.transmitted + [] == client.transmitted;
    }
  }
}
