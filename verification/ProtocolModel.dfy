/**
 The two ends of the backend's request protocol as functions: the handler that answers a request
 at most once while it remembers the answer, and the client that asks again after a reconnect.
 A frame stands for its encoding: equal frames are equal bytes.
 */
module ProtocolModel {
  import opened Wrappers

  const MAX_COMPLETED_REQUESTS: nat := 128
  const MAX_CACHED_RESPONSE_BYTES: nat := 256 * 1024
  const MAX_ACTIVE_REQUESTS: nat := 64

  type Method = nat
  type Payload = nat

  datatype Request = Request(id: string, verb: Method, params: Payload)

  datatype ErrorPayload = Conflict | ApiError(payload: Payload)

  datatype Verdict = Success(result: Payload) | Failure(error: ErrorPayload)

  datatype Response = Response(id: string, verb: Method, verdict: Verdict)

  /** One carrier of a client; a client that reconnects gets another. */
  datatype Connection = Connection(client: nat, number: nat)

  datatype Delivery = Delivery(to: Connection, response: Response)

  // ---- The handler ---------------------------------------------------------------------------

  /** A running request, and the connections that wait for its answer. */
  datatype Operation = Operation(request: Request, waiters: seq<Connection>)

  /** The remembered answers, oldest key first, and everything sent so far. */
  datatype Handler = Handler(
    order: seq<string>,
    completed: map<string, Response>,
    active: map<string, Operation>,
    outbox: seq<Delivery>)

  const NewHandler := Handler([], map[], map[], [])

  function CacheKey(deviceId: string, id: string): string {
    deviceId + ":" + id
  }

  function Send(h: Handler, open: set<Connection>, to: Connection, response: Response): Handler {
    if to in open then h.(outbox := h.outbox + [Delivery(to, response)]) else h
  }

  /** The same answer to each waiter whose connection is open, in their order. */
  function SendAll(h: Handler, open: set<Connection>, waiters: seq<Connection>, response: Response): Handler {
    if waiters == [] then h
    else Send(SendAll(h, open, waiters[..|waiters| - 1], response), open, waiters[|waiters| - 1], response)
  }

  function ConflictFor(request: Request): Response {
    Response(request.id, request.verb, Failure(Conflict))
  }

  predicate Dispatches(h: Handler, key: string) {
    key !in h.completed && key !in h.active && |h.active| < MAX_ACTIVE_REQUESTS
  }

  function OnMessage(h: Handler, open: set<Connection>, deviceId: string, from: Connection, request: Request): Handler {
    var key := CacheKey(deviceId, request.id);
    if key in h.completed then Send(h, open, from, h.completed[key])
    else if key in h.active then
      h.(active := h.active[key := h.active[key].(waiters := h.active[key].waiters + [from])])
    else if |h.active| >= MAX_ACTIVE_REQUESTS then Send(h, open, from, ConflictFor(request))
    else h.(active := h.active[key := Operation(request, [from])])
  }

  /** A map that was set and, past its capacity, gave up its oldest key. */
  function Remember(size: Response -> nat, h: Handler, key: string, response: Response): Handler {
    if size(response) > MAX_CACHED_RESPONSE_BYTES then h
    else
      var order := if key in h.completed then h.order else h.order + [key];
      var completed := h.completed[key := response];
      if |order| <= MAX_COMPLETED_REQUESTS then h.(order := order, completed := completed)
      else h.(order := order[1..], completed := completed - {order[0]})
  }

  /** The dispatched call of `key` ended with `verdict`. */
  function Complete(size: Response -> nat, h: Handler, open: set<Connection>, key: string, verdict: Verdict): Handler
    requires key in h.active
  {
    var operation := h.active[key];
    var response := Response(operation.request.id, operation.request.verb, verdict);
    var done := Remember(size, h, key, response);
    SendAll(done.(active := done.active - {key}), open, operation.waiters, response)
  }

  // ---- The client ----------------------------------------------------------------------------

  datatype Reason = NotConnected | SendFailed | TimedOut | MethodMismatch | BackendFailed(error: ErrorPayload)

  datatype Outcome = Fulfilled(result: Payload) | Rejected(reason: Reason)

  /** How a promise ended. */
  datatype Ending = Ending(id: Option<string>, outcome: Outcome)

  /**
   `order` holds the pending names, oldest first. `settled` lists how each promise ended, and
   `transmitted` every frame that the transport took, in order.
   */
  datatype Client = Client(
    connected: bool,
    requestId: nat,
    pending: map<string, Request>,
    order: seq<string>,
    settled: seq<Ending>,
    transmitted: seq<Request>)

  const NewClient := Client(false, 0, map[], [], [], [])

  function Decimal(n: nat): string {
    if n < 10 then [DIGITS[n]] else Decimal(n / 10) + [DIGITS[n % 10]]
  }

  const DIGITS := "0123456789"

  function RequestName(number: nat, uuid: string): string {
    "api_" + Decimal(number) + "_" + uuid
  }

  function Settle(c: Client, id: string, outcome: Outcome): Client {
    c.(pending := c.pending - {id}, order := Without(c.order, id), settled := c.settled + [Ending(Some(id), outcome)])
  }

  /** A call without a connection is rejected before it has a name. */
  function Ask(c: Client, verb: Method, params: Payload, uuid: string, sendFails: bool): Client {
    if !c.connected then c.(settled := c.settled + [Ending(None, Rejected(NotConnected))])
    else
      var request := Request(RequestName(c.requestId + 1, uuid), verb, params);
      var asked := c.(requestId := c.requestId + 1, pending := c.pending[request.id := request], order := c.order + [request.id]);
      if sendFails then Settle(asked, request.id, Rejected(SendFailed))
      else asked.(transmitted := asked.transmitted + [request])
  }

  function HandleFrame(c: Client, response: Response): Client {
    if response.id !in c.pending then c
    else if response.verb != c.pending[response.id].verb then Settle(c, response.id, Rejected(MethodMismatch))
    else match response.verdict
      case Success(result) => Settle(c, response.id, Fulfilled(result))
      case Failure(error) => Settle(c, response.id, Rejected(BackendFailed(error)))
  }

  function TimeOut(c: Client, id: string): Client {
    if id in c.pending then Settle(c, id, Rejected(TimedOut)) else c
  }

  /** The pending frames in the order of their names, but for those that the transport fails to take. */
  function Resends(pending: map<string, Request>, order: seq<string>, failing: set<string>): seq<Request> {
    if order == [] then []
    else
      var last := order[|order| - 1];
      Resends(pending, order[..|order| - 1], failing) + (if last in pending && last !in failing then [pending[last]] else [])
  }

  /** The transport's state changed; after a reconnect every pending frame is sent again. */
  function ConnectionChange(c: Client, connected: bool, reconnected: bool, failing: set<string>): Client {
    if connected && reconnected then
      c.(connected := true, transmitted := c.transmitted + Resends(c.pending, c.order, failing))
    else c.(connected := connected)
  }
}
