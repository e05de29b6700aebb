/**
 The handler and the client of the request protocol as the program runs them, proved method by
 method against `ProtocolModel`.
 */
module BackendProtocol {
  import opened Wrappers
  import Model = ProtocolModel
  import opened ProtocolModel

  class BackendProtocolHandler {
    const size: Response -> nat
    var order: seq<string>
    var completed: map<string, Response>
    var active: map<string, Operation>
    var outbox: seq<Delivery>

    ghost function View(): Handler
      reads this
    {
      Handler(order, completed, active, outbox)
    }

    constructor (size: Response -> nat)
      ensures this.size == size && View() == NewHandler
    {
      this.size := size;
      order, completed, active, outbox := [], map[], map[], [];
    }

    method Send(open: set<Connection>, to: Connection, response: Response)
      modifies this`outbox
      ensures View() == Model.Send(old(View()), open, to, response)
    {
      if to in open { outbox := outbox + [Delivery(to, response)]; }
    }

    method OnMessage(open: set<Connection>, deviceId: string, from: Connection, request: Request) returns (dispatched: bool)
      modifies this`active, this`outbox
      ensures View() == Model.OnMessage(old(View()), open, deviceId, from, request)
      ensures dispatched == Dispatches(old(View()), CacheKey(deviceId, request.id))
    {
      var cacheKey := CacheKey(deviceId, request.id);
      if cacheKey in completed {
        Send(open, from, completed[cacheKey]);
        return false;
      }
      dispatched := false;
      if cacheKey !in active {
        if |active| >= MAX_ACTIVE_REQUESTS {
          Send(open, from, ConflictFor(request));
          return;
        }
        dispatched := true;
        active := active[cacheKey := Operation(request, [])];
      }
      assert [] + [from] == [from];
      active := active[cacheKey := active[cacheKey].(waiters := active[cacheKey].waiters + [from])];
    }

    method Remember(key: string, response: Response)
      requires |order| <= MAX_COMPLETED_REQUESTS
      modifies this`order, this`completed
      ensures View() == Model.Remember(size, old(View()), key, response)
    {
      if size(response) > MAX_CACHED_RESPONSE_BYTES { return; }
      if key !in completed { order := order + [key]; }
      completed := completed[key := response];
      if |order| <= MAX_COMPLETED_REQUESTS { return; }
      var oldest := order[0];
      completed := completed - {oldest};
      order := order[1..];
    }

    method Complete(open: set<Connection>, key: string, verdict: Verdict)
      requires key in active && |order| <= MAX_COMPLETED_REQUESTS
      modifies this
      ensures View() == Model.Complete(size, old(View()), open, key, verdict)
    {
      var operation := active[key];
      var response := Response(operation.request.id, operation.request.verb, verdict);
      Remember(key, response);
      active := active - {key};
      ghost var before := View();
      var i := 0;
      while i < |operation.waiters|
        invariant 0 <= i <= |operation.waiters|
        invariant View() == SendAll(before, open, operation.waiters[..i], response)
      {
        assert operation.waiters[..i + 1][..i] == operation.waiters[..i];
        Send(open, operation.waiters[i], response);
        i := i + 1;
      }
      assert operation.waiters[..i] == operation.waiters;
    }
  }

  class DataChannelBackendApi {
    var connected: bool
    var requestId: nat
    var pending: map<string, Request>
    var order: seq<string>
    var settled: seq<Ending>
    var transmitted: seq<Request>

    ghost function View(): Client
      reads this
    {
      Client(connected, requestId, pending, order, settled, transmitted)
    }

    constructor ()
      ensures View() == NewClient
    {
      connected, requestId, pending := false, 0, map[];
      order, settled, transmitted := [], [], [];
    }

    method Ask(verb: Method, params: Payload, uuid: string, sendFails: bool)
      modifies this
      ensures View() == Model.Ask(old(View()), verb, params, uuid, sendFails)
    {
      if !connected {
        settled := settled + [Ending(None, Rejected(NotConnected))];
        return;
      }
      requestId := requestId + 1;
      var id := RequestName(requestId, uuid);
      var request := Request(id, verb, params);
      pending, order := pending[id := request], order + [id];
      if sendFails {
        pending, order := pending - {id}, Without(order, id);
        settled := settled + [Ending(Some(id), Rejected(SendFailed))];
      } else {
        transmitted := transmitted + [request];
      }
    }

    method HandleFrame(response: Response)
      modifies this`pending, this`order, this`settled
      ensures View() == Model.HandleFrame(old(View()), response)
    {
      if response.id !in pending { return; }
      var waiting := pending[response.id];
      pending, order := pending - {response.id}, Without(order, response.id);
      if response.verb != waiting.verb {
        settled := settled + [Ending(Some(response.id), Rejected(MethodMismatch))];
        return;
      }
      match response.verdict
      case Success(result) => settled := settled + [Ending(Some(response.id), Fulfilled(result))];
      case Failure(error) => settled := settled + [Ending(Some(response.id), Rejected(BackendFailed(error)))];
    }

    method TimeOut(id: string)
      modifies this`pending, this`order, this`settled
      ensures View() == Model.TimeOut(old(View()), id)
    {
      if id in pending {
        pending, order := pending - {id}, Without(order, id);
        settled := settled + [Ending(Some(id), Rejected(TimedOut))];
      }
    }

    /** `failing` names the frames on which the transport throws; the loop goes on behind them. */
    method ConnectionChange(nowConnected: bool, reconnected: bool, failing: set<string>)
      modifies this`connected, this`transmitted
      ensures View() == Model.ConnectionChange(old(View()), nowConnected, reconnected, failing)
    {
      connected := nowConnected;
      if !nowConnected || !reconnected { return; }
      ghost var before := transmitted;
      var i := 0;
      while i < |order|
        invariant 0 <= i <= |order| && connected == nowConnected
        invariant transmitted == before + Resends(pending, order[..i], failing)
      {
        assert order[..i + 1][..i] == order[..i];
        if order[i] in pending && order[i] !in failing { transmitted := transmitted + [pending[order[i]]]; }
        i := i + 1;
      }
      assert order[..i] == order;
    }
  }
}
