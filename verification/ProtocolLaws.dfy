/**
 What each step of the protocol is for, on the tables and lists of both ends: exactly what is different
 after it, in every run.
 */
module ProtocolLaws {
  import opened Wrappers
  import opened ProtocolModel
  import opened ProtocolRuns

  // ---- The client ----------------------------------------------------------------------------

  /** Nothing but this one client is different. */
  ghost predicate OnlyClient(s: System, t: System, c: nat) {
    && t == s.(clients := t.clients, issued := t.issued)
    && forall d | d != c :: ClientOf(t, d) == ClientOf(s, d)
  }

  /** The promise ended like this, and no longer waits. */
  ghost predicate Ends(before: Client, after: Client, id: string, outcome: Outcome) {
    && after == before.(pending := before.pending - {id}, order := after.order, settled := before.settled + [Ending(Some(id), outcome)])
    && forall other :: other in after.order <==> other in before.order && other != id
  }

  /** A call over an open connection is sent and waits, unless the send fails; any other is rejected at once. */
  lemma AskIsSentIff(cfg: Config, trace: seq<System>, actions: seq<Action>, i: nat)
    requires Run(cfg, trace, actions) && i < |actions| && actions[i].AskOp?
    ensures var s, t, a := trace[i], trace[i + 1], actions[i];
            var before, after, request := ClientOf(s, a.client), ClientOf(t, a.client), AskedRequest(s, a);
            && OnlyClient(s, t, a.client) && request.verb == a.verb && request.params == a.params
            && if !before.connected then
                 t.issued == s.issued && after == before.(settled := before.settled + [Ending(None, Rejected(NotConnected))])
               else
                 && request.id !in s.issued && t.issued == s.issued[request.id := Issue(a.client, request)]
                 && if a.sendFails then
                      && after.pending == before.pending && after.transmitted == before.transmitted
                      && after.settled == before.settled + [Ending(Some(request.id), Rejected(SendFailed))]
                    else
                      && after.pending == before.pending[request.id := request] && after.transmitted == before.transmitted + [request]
                      && after.settled == before.settled && after.order == before.order + [request.id]
  {
    RunKeepsInv(cfg, trace, actions, i);
    assert StepAt(cfg, trace, actions, i);
    var c := actions[i].client;
    forall id | id in ClientOf(trace[i], c).pending ensures id in trace[i].issued { assert PendingOk(trace[i], c, id); }
  }

  /** How a frame with this verdict ends the promise that it is for. */
  function Verdicted(verdict: Verdict): Outcome {
    match verdict
    case Success(result) => Fulfilled(result)
    case Failure(error) => Rejected(BackendFailed(error))
  }

  /** Whatever arrives: a frame that names another method than the promise under its name rejects that promise. */
  lemma AnyFrameEndsIff(c: Client, r: Response)
    ensures var after := HandleFrame(c, r);
            if r.id !in c.pending then after == c
            else Ends(c, after, r.id, if r.verb == c.pending[r.id].verb then Verdicted(r.verdict) else Rejected(MethodMismatch))
  {
  }

  /** A frame ends the promise that waits under its name, and no other, exactly as its verdict says; without one it is ignored. */
  lemma FrameSettlesIff(cfg: Config, trace: seq<System>, actions: seq<Action>, i: nat)
    requires Run(cfg, trace, actions) && i < |actions| && actions[i].FrameOp?
    ensures var c, r := actions[i].to.client, actions[i].response;
            var before, after := ClientOf(trace[i], c), ClientOf(trace[i + 1], c);
            && OnlyClient(trace[i], trace[i + 1], c)
            && if r.id in before.pending then Ends(before, after, r.id, Verdicted(r.verdict)) else after == before
  {
    RunKeepsInv(cfg, trace, actions, i);
    assert StepAt(cfg, trace, actions, i);
    var s, c, r := trace[i], actions[i].to.client, actions[i].response;
    assert DeliveryOk(s, Delivery(actions[i].to, r));
    if r.id in ClientOf(s, c).pending { assert PendingOk(s, c, r.id); }
    AnyFrameEndsIff(ClientOf(s, c), r);
  }

  lemma TimeOutEndsIff(cfg: Config, trace: seq<System>, actions: seq<Action>, i: nat)
    requires Run(cfg, trace, actions) && i < |actions| && actions[i].TimeOutOp?
    ensures var c, id := actions[i].client, actions[i].id;
            var before, after := ClientOf(trace[i], c), ClientOf(trace[i + 1], c);
            && OnlyClient(trace[i], trace[i + 1], c)
            && if id in before.pending then Ends(before, after, id, Rejected(TimedOut)) else after == before
  {
    assert StepAt(cfg, trace, actions, i);
  }

  /** The step that makes a promise of this client end so. */
  ghost predicate Causes(s: System, a: Action, c: nat, e: Ending) {
    match e.outcome
    case Fulfilled(result) => a.FrameOp? && a.to.client == c && e.id == Some(a.response.id) && a.response.verdict == Success(result)
    case Rejected(BackendFailed(error)) =>
      a.FrameOp? && a.to.client == c && e.id == Some(a.response.id) && a.response.verdict == Failure(error)
    case Rejected(TimedOut) => e.id.Some? && a == TimeOutOp(c, e.id.value)
    case Rejected(SendFailed) =>
      a.AskOp? && a.client == c && ClientOf(s, c).connected && a.sendFails && e.id == Some(AskedRequest(s, a).id)
    case Rejected(NotConnected) => a.AskOp? && a.client == c && !ClientOf(s, c).connected && e.id == None
    case Rejected(MethodMismatch) => false
  }

  /** A step adds at most one ending to a client's list, and causes it. */
  lemma StepCauses(cfg: Config, trace: seq<System>, actions: seq<Action>, i: nat, c: nat)
    requires Run(cfg, trace, actions) && i < |actions|
    ensures var before, after := ClientOf(trace[i], c).settled, ClientOf(trace[i + 1], c).settled;
            || after == before
            || (|after| == |before| + 1 && after[..|before|] == before && Causes(trace[i], actions[i], c, after[|before|]))
  {
    match actions[i]
    case AskOp(_, _, _, _, _) => AskIsSentIff(cfg, trace, actions, i);
    case FrameOp(_, _) => FrameSettlesIff(cfg, trace, actions, i);
    case TimeOutOp(_, _) => TimeOutEndsIff(cfg, trace, actions, i);
    case _ => OtherStepsEndNothing(cfg, trace, actions, i, c);
  }

  lemma OtherStepsEndNothing(cfg: Config, trace: seq<System>, actions: seq<Action>, i: nat, c: nat)
    requires Run(cfg, trace, actions) && i < |actions| && !actions[i].AskOp? && !actions[i].FrameOp? && !actions[i].TimeOutOp?
    ensures ClientOf(trace[i + 1], c).settled == ClientOf(trace[i], c).settled
  {
    assert StepAt(cfg, trace, actions, i);
  }

  /** Every ending of every client has its cause in an earlier step. */
  lemma {:induction false} EndingHasItsCause(cfg: Config, trace: seq<System>, actions: seq<Action>, n: nat, c: nat, k: nat) returns (j: nat)
    requires Run(cfg, trace, actions) && n < |trace| && k < |ClientOf(trace[n], c).settled|
    ensures j < n && Causes(trace[j], actions[j], c, ClientOf(trace[n], c).settled[k])
    decreases n
  {
    assert n > 0;
    StepCauses(cfg, trace, actions, n - 1, c);
    var before, after := ClientOf(trace[n - 1], c).settled, ClientOf(trace[n], c).settled;
    if k < |before| {
      assert after[k] == before[k];
      j := EndingHasItsCause(cfg, trace, actions, n - 1, c, k);
    } else {
      j := n - 1;
    }
  }

  // ---- The handler ---------------------------------------------------------------------------

  /** One answer more for this connection, if it is open. */
  predicate Sends(s: System, t: System, to: Connection, r: Response) {
    t.handler.outbox == s.handler.outbox + (if to in s.open then [Delivery(to, r)] else [])
  }

  /** A request is answered from memory, joins the one that runs, is refused when 64 run, or is dispatched. */
  lemma RequestIsServedIff(cfg: Config, trace: seq<System>, actions: seq<Action>, i: nat, from: Connection, request: Request)
    requires Run(cfg, trace, actions) && i < |actions| && actions[i] == ReceiveOp(from, request)
    ensures var s, t, key := trace[i], trace[i + 1], CacheKey(cfg.deviceOf(from.client), request.id);
            var h, k := s.handler, t.handler;
            && t == s.(handler := k, dispatched := t.dispatched) && k.completed == h.completed && k.order == h.order
            && if key in h.completed then
                 k.active == h.active && t.dispatched == s.dispatched && Sends(s, t, from, h.completed[key])
               else if key in h.active then
                 && key in k.active && k.active == h.active[key := k.active[key]]
                 && k.active[key] == Operation(request, h.active[key].waiters + [from])
                 && k.outbox == h.outbox && t.dispatched == s.dispatched
               else if |h.active| >= 64 then
                 && k.active == h.active && t.dispatched == s.dispatched
                 && Sends(s, t, from, Response(request.id, request.verb, Failure(Conflict)))
               else
                 && k.active == h.active[key := Operation(request, [from])]
                 && k.outbox == h.outbox && t.dispatched == s.dispatched + [key]
  {
    RunKeepsInv(cfg, trace, actions, i);
    assert StepAt(cfg, trace, actions, i);
    var s, key := trace[i], CacheKey(cfg.deviceOf(from.client), request.id);
    if key in s.handler.active {
      assert ActiveOk(cfg, s, key) && SentOk(s, from.client, request);
      var id := s.handler.active[key].request.id;
      CacheKeyTellsAll(cfg.deviceOf(from.client), request.id, cfg.deviceOf(s.issued[id].client), id);
    }
  }

  /** The answer goes to each waiter as often as it waits, if its connection is open, and to nobody else. */
  lemma {:induction false} AllAreAnswered(h: Handler, open: set<Connection>, waiters: seq<Connection>, r: Response)
    ensures var k := SendAll(h, open, waiters, r);
            && k == h.(outbox := k.outbox) && h.outbox <= k.outbox
            && forall d :: multiset(k.outbox[|h.outbox|..])[d] == if d.response == r && d.to in open then multiset(waiters)[d.to] else 0
    decreases |waiters|
  {
    if waiters != [] {
      var most, last := waiters[..|waiters| - 1], waiters[|waiters| - 1];
      AllAreAnswered(h, open, most, r);
      var before := SendAll(h, open, most, r);
      assert waiters == most + [last];
      var k := SendAll(h, open, waiters, r);
      if last in open {
        assert k.outbox[|h.outbox|..] == before.outbox[|h.outbox|..] + [Delivery(last, r)];
      }
    } else {
      assert h.outbox[|h.outbox|..] == [];
    }
  }

  /** When the API returns, the request no longer runs, and each of its waiters gets what was returned. */
  lemma CompletionAnswersAll(cfg: Config, trace: seq<System>, actions: seq<Action>, i: nat, key: string, verdict: Verdict)
    requires Run(cfg, trace, actions) && i < |actions| && actions[i] == CompleteOp(key, verdict) && key in trace[i].handler.active
    ensures var s, t, operation := trace[i], trace[i + 1], trace[i].handler.active[key];
            var r := Response(operation.request.id, operation.request.verb, verdict);
            && t.handler.active == s.handler.active - {key} && s.handler.outbox <= t.handler.outbox
            && t.computed == s.computed + {(operation.request, verdict)}
            && forall d :: multiset(t.handler.outbox[|s.handler.outbox|..])[d]
                           == if d.response == r && d.to in s.open then multiset(operation.waiters)[d.to] else 0
  {
    assert StepAt(cfg, trace, actions, i);
    var s := trace[i];
    var r := AnswerTo(s, key, verdict);
    var done := Remember(cfg.size, s.handler, key, r);
    AllAreAnswered(done.(active := done.active - {key}), s.open, s.handler.active[key].waiters, r);
  }

  /** Whoever waits keeps waiting until the request completes. */
  lemma {:induction false} WaiterStays(cfg: Config, trace: seq<System>, actions: seq<Action>, i: nat, j: nat, key: string, w: Connection)
    requires Run(cfg, trace, actions) && i <= j < |trace|
    requires key in trace[i].handler.active && w in trace[i].handler.active[key].waiters
    requires forall m | i <= m < j :: !(actions[m].CompleteOp? && actions[m].key == key)
    ensures key in trace[j].handler.active && w in trace[j].handler.active[key].waiters
    ensures trace[j].handler.active[key].request == trace[i].handler.active[key].request
    decreases j
  {
    if i < j {
      WaiterStays(cfg, trace, actions, i, j - 1, key, w);
      StepKeepsWaiter(cfg, trace, actions, j - 1, key, w);
    }
  }

  lemma StepKeepsWaiter(cfg: Config, trace: seq<System>, actions: seq<Action>, i: nat, key: string, w: Connection)
    requires Run(cfg, trace, actions) && i < |actions| && !(actions[i].CompleteOp? && actions[i].key == key)
    requires key in trace[i].handler.active && w in trace[i].handler.active[key].waiters
    ensures key in trace[i + 1].handler.active && w in trace[i + 1].handler.active[key].waiters
    ensures trace[i + 1].handler.active[key].request == trace[i].handler.active[key].request
  {
    match actions[i]
    case ReceiveOp(from, request) =>
      RunKeepsInv(cfg, trace, actions, i);
      assert ActiveOk(cfg, trace[i], key);
      RequestIsServedIff(cfg, trace, actions, i, from, request);
      assert StepAt(cfg, trace, actions, i);
    case CompleteOp(other, verdict) =>
      assert StepAt(cfg, trace, actions, i);
      if other in trace[i].handler.active { CompletionAnswersAll(cfg, trace, actions, i, other, verdict); }
    case _ => assert StepAt(cfg, trace, actions, i);
  }

  /**
   No request is lost: one that is neither answered from memory nor refused is answered, over the
   connection that it came by if that is still open, with the next verdict on its key.
   */
  lemma WaiterIsAnswered(
    cfg: Config, trace: seq<System>, actions: seq<Action>, i: nat, j: nat, from: Connection, request: Request, verdict: Verdict)
    requires Run(cfg, trace, actions) && i < j < |actions| && actions[i] == ReceiveOp(from, request)
    requires var h, key := trace[i].handler, CacheKey(cfg.deviceOf(from.client), request.id);
             && key !in h.completed && (key in h.active || |h.active| < 64)
             && actions[j] == CompleteOp(key, verdict)
             && forall m | i < m < j :: !(actions[m].CompleteOp? && actions[m].key == key)
    ensures |trace[j].handler.outbox| <= |trace[j + 1].handler.outbox|
    ensures from in trace[j].open ==>
              Delivery(from, Response(request.id, request.verb, verdict)) in trace[j + 1].handler.outbox[|trace[j].handler.outbox|..]
    ensures (request, verdict) in trace[j + 1].computed
  {
    var key := CacheKey(cfg.deviceOf(from.client), request.id);
    RequestIsServedIff(cfg, trace, actions, i, from, request);
    assert trace[i + 1].handler.active[key].request == request;
    WaiterStays(cfg, trace, actions, i + 1, j, key, from);
    CompletionAnswersAll(cfg, trace, actions, j, key, verdict);
    var r := Response(request.id, request.verb, verdict);
    var more := trace[j + 1].handler.outbox[|trace[j].handler.outbox|..];
    if from in trace[j].open { assert multiset(more)[Delivery(from, r)] > 0; }
  }
}
