/**
 Runs of the backend's authorizer: any number of `authorize` calls, suspended and resumed in any
 order between new pairings and revocations.
 */
module BackendRuns {
  import opened Wrappers
  import opened TrustProtocol
  import opened BackendModel

  /** `ticket` is the record of what the rendezvous signed: an identifier names one ticket. */
  datatype Config = Config(hashSecret: Secret -> Digest, ticket: Id -> Claims)

  datatype Grant = Grant(claims: Claims, accountId: Id, at: Millis)

  /** `waiting` holds the suspended calls, `granted` every authorization so far, `drawn` the pairing ids so far. */
  datatype Backend = Backend(state: State, waiting: map<nat, Claims>, granted: seq<Grant>, drawn: set<Id>)

  const NewBackend := Backend(EmptyState, map[], [], {})

  datatype Action =
    | CreateOp(ttlMs: int, pairId: Id, secret: Secret)
    | ListOp
    | BeginOp(call: nat, claims: Claims, presented: Option<Secret>, prunedAt: Millis)
    | FinishOp(waiter: nat, answer: Option<Confirmation>)
    | RevokeOp(accountId: Id, deviceId: Option<Id>)

  function Record(b: Backend, state: State, claims: Claims, r: Result<Authorization, BackendError>, now: Millis): Backend {
    if r.Err? then b.(state := state)
    else b.(state := state, granted := b.granted + [Grant(claims, r.value.accountId, now)])
  }

  function Act(cfg: Config, b: Backend, step: Step<Action>): Backend {
    match step.action
    case CreateOp(ttlMs, pairId, secret) =>
      b.(state := CreatePairing(cfg.hashSecret, b.state, ttlMs, pairId, secret, step.now).0, drawn := b.drawn + {pairId})
    case ListOp => b.(state := Prune(b.state, step.now))
    case BeginOp(call, claims, presented, prunedAt) =>
      AfterBegin(b, call, claims, Begin(cfg.hashSecret, b.state, claims, presented, prunedAt, step.now), step.now)
    case FinishOp(call, answer) =>
      if call !in b.waiting then b
      else
        var (state, r) := Finish(b.state, b.waiting[call], answer);
        Record(b.(waiting := b.waiting - {call}), state, b.waiting[call], r, step.now)
    case RevokeOp(accountId, deviceId) => b.(state := ApplyRevocation(b.state, accountId, deviceId, step.now))
  }

  function AfterBegin(b: Backend, call: nat, claims: Claims, begun: (State, Progress), now: Millis): Backend {
    match begun.1
    case Waiting => b.(state := begun.0, waiting := b.waiting[call := claims])
    case Over(r) => Record(b, begun.0, claims, r, now)
  }

  /** Time moves on, pairing ids and calls are new, and tickets are those the rendezvous signed. */
  ghost predicate Enabled(cfg: Config, b: Backend, clock: Millis, step: Step<Action>) {
    && clock <= step.now
    && (step.action.CreateOp? ==> step.action.pairId !in b.drawn)
    && (step.action.BeginOp? ==> clock <= step.action.prunedAt <= step.now)
    && (step.action.BeginOp? ==> step.action.call !in b.waiting && cfg.ticket(step.action.claims.ticketId) == step.action.claims)
  }

  ghost predicate StepAt(cfg: Config, trace: seq<Backend>, steps: seq<Step<Action>>, i: nat)
    requires |trace| == |steps| + 1 && i < |steps|
  {
    Enabled(cfg, trace[i], ClockBefore(steps, i), steps[i]) && trace[i + 1] == Act(cfg, trace[i], steps[i])
  }

  ghost predicate Run(cfg: Config, trace: seq<Backend>, steps: seq<Step<Action>>) {
    && |trace| == |steps| + 1
    && trace[0] == NewBackend
    && forall i: nat {:trigger StepAt(cfg, trace, steps, i)} | i < |steps| :: StepAt(cfg, trace, steps, i)
  }

  // ---- The invariant -------------------------------------------------------------------------

  /** No call can consume the pairing any more. */
  ghost predicate Spent(b: Backend, pairId: Id) {
    pairId in b.drawn && (pairId in b.state.pairings ==> b.state.pairings[pairId].usedAt.Some?)
  }

  /** A suspended call, and a granted pairing, hold a pairing that nobody else can have. */
  ghost predicate Holds(cfg: Config, b: Backend, claims: Claims) {
    && claims.kind.Pairing? && claims.pairId.Some? && Spent(b, claims.pairId.value)
    && cfg.ticket(claims.ticketId) == claims
  }

  ghost predicate WaiterOk(cfg: Config, b: Backend, call: nat)
    requires call in b.waiting
  {
    && Holds(cfg, b, b.waiting[call])
    && (forall other | other in b.waiting && other != call :: b.waiting[other].pairId != b.waiting[call].pairId)
  }

  ghost predicate GrantOk(cfg: Config, b: Backend, clock: Millis, i: nat)
    requires i < |b.granted|
  {
    var c := b.granted[i].claims;
    && cfg.ticket(c.ticketId) == c
    && b.granted[i].at <= clock
    && (c.kind.Pairing? ==> Holds(cfg, b, c))
    && (c.ticketId in b.state.usedTickets || c.expiresAt <= clock)
  }

  /** Two authorizations never share a pairing, and share a ticket only after its expiry. */
  ghost predicate Apart(b: Backend, i: nat, j: nat)
    requires i < j < |b.granted|
  {
    var c, d := b.granted[i].claims, b.granted[j].claims;
    && (c.kind.Pairing? && d.kind.Pairing? ==> c.pairId != d.pairId)
    && (c.ticketId == d.ticketId ==> c.kind.Connection? && c.expiresAt <= b.granted[j].at)
  }

  /** A suspended call's pairing has not been granted. */
  ghost predicate Ungranted(b: Backend, call: nat, i: nat)
    requires call in b.waiting && i < |b.granted|
  {
    b.granted[i].claims.kind.Pairing? ==> b.granted[i].claims.pairId != b.waiting[call].pairId
  }

  /** A used ticket is one that was granted. */
  ghost predicate UseOk(b: Backend, t: Id)
    requires t in b.state.usedTickets
  {
    exists i :: 0 <= i < |b.granted| && b.granted[i].claims.ticketId == t && b.state.usedTickets[t] == b.granted[i].claims.expiresAt
  }

  ghost predicate BackendInv(cfg: Config, b: Backend, clock: Millis) {
    && b.state.pairings.Keys <= b.drawn
    && (forall call {:trigger WaiterOk(cfg, b, call)} | call in b.waiting :: WaiterOk(cfg, b, call))
    && (forall i: nat {:trigger GrantOk(cfg, b, clock, i)} | i < |b.granted| :: GrantOk(cfg, b, clock, i))
    && (forall i: nat, j: nat {:trigger Apart(b, i, j)} | i < j < |b.granted| :: Apart(b, i, j))
    && (forall call, i: nat {:trigger Ungranted(b, call, i)} | call in b.waiting && i < |b.granted| :: Ungranted(b, call, i))
    && (forall t {:trigger UseOk(b, t)} | t in b.state.usedTickets :: UseOk(b, t))
  }

  // ---- Every step keeps it -------------------------------------------------------------------

  /** Nothing is granted and nobody waits anew; pairings only get spent, used tickets only expire. */
  lemma SettledKeeps(cfg: Config, b: Backend, clock: Millis, c: Backend, now: Millis)
    requires BackendInv(cfg, b, clock) && clock <= now
    requires c.granted == b.granted && c.waiting.Keys <= b.waiting.Keys && b.drawn <= c.drawn
    requires forall call | call in c.waiting :: c.waiting[call] == b.waiting[call]
    requires c.state.pairings.Keys <= c.drawn
    requires forall p | Spent(b, p) :: Spent(c, p)
    requires forall t | t in c.state.usedTickets :: t in b.state.usedTickets && c.state.usedTickets[t] == b.state.usedTickets[t]
    requires forall t | t in b.state.usedTickets && b.state.usedTickets[t] > now :: t in c.state.usedTickets
    ensures BackendInv(cfg, c, now)
  {
    forall call | call in c.waiting ensures WaiterOk(cfg, c, call) { assert WaiterOk(cfg, b, call); }
    forall i: nat | i < |c.granted| ensures GrantOk(cfg, c, now, i) {
      assert GrantOk(cfg, b, clock, i);
      UsedUntilExpiry(cfg, b, clock, i);
    }
    forall i: nat, j: nat | i < j < |c.granted| ensures Apart(c, i, j) { assert Apart(b, i, j); }
    forall call, i: nat | call in c.waiting && i < |c.granted| ensures Ungranted(c, call, i) { assert Ungranted(b, call, i); }
    forall t | t in c.state.usedTickets ensures UseOk(c, t) { assert UseOk(b, t); }
  }

  lemma UsedUntilExpiry(cfg: Config, b: Backend, clock: Millis, i: nat)
    requires BackendInv(cfg, b, clock) && i < |b.granted|
    ensures var t := b.granted[i].claims.ticketId;
            t in b.state.usedTickets ==> b.state.usedTickets[t] == b.granted[i].claims.expiresAt
  {
    var t := b.granted[i].claims.ticketId;
    assert GrantOk(cfg, b, clock, i);
    if t in b.state.usedTickets {
      assert UseOk(b, t);
      var k :| 0 <= k < |b.granted| && b.granted[k].claims.ticketId == t && b.state.usedTickets[t] == b.granted[k].claims.expiresAt;
      assert GrantOk(cfg, b, clock, k);
    }
  }

  lemma PruneKeeps(cfg: Config, b: Backend, clock: Millis, now: Millis)
    requires BackendInv(cfg, b, clock) && clock <= now
    ensures BackendInv(cfg, b.(state := Prune(b.state, now)), now)
  {
    SettledKeeps(cfg, b, clock, b.(state := Prune(b.state, now)), now);
  }

  lemma CreateKeeps(cfg: Config, b: Backend, clock: Millis, step: Step<Action>)
    requires BackendInv(cfg, b, clock) && Enabled(cfg, b, clock, step) && step.action.CreateOp?
    ensures BackendInv(cfg, Act(cfg, b, step), step.now)
  {
    SettledKeeps(cfg, b, clock, Act(cfg, b, step), step.now);
  }

  lemma RevokeKeeps(cfg: Config, b: Backend, clock: Millis, step: Step<Action>)
    requires BackendInv(cfg, b, clock) && Enabled(cfg, b, clock, step) && step.action.RevokeOp?
    ensures BackendInv(cfg, Act(cfg, b, step), step.now)
  {
    SettledKeeps(cfg, b, clock, Act(cfg, b, step), step.now);
  }

  /** A call that consumed a fresh pairing starts to wait. */
  lemma WaitKeeps(cfg: Config, b: Backend, clock: Millis, call: nat, claims: Claims, state: State)
    requires BackendInv(cfg, b, clock) && call !in b.waiting
    requires claims.kind.Pairing? && claims.pairId.Some? && cfg.ticket(claims.ticketId) == claims
    requires claims.pairId.value in b.state.pairings && b.state.pairings[claims.pairId.value].usedAt.None?
    requires exists at :: state == b.state.(pairings := b.state.pairings[
               claims.pairId.value := b.state.pairings[claims.pairId.value].(usedAt := Some(at))])
    ensures BackendInv(cfg, b.(state := state, waiting := b.waiting[call := claims]), clock)
  {
    var pairId := claims.pairId.value;
    var c := b.(state := state, waiting := b.waiting[call := claims]);
    assert !Spent(b, pairId) && Spent(c, pairId);
    forall p | Spent(b, p) ensures Spent(c, p) && p != pairId {}
    forall w | w in c.waiting ensures WaiterOk(cfg, c, w) {
      if w != call { assert WaiterOk(cfg, b, w); }
      forall other | other in c.waiting && other != w ensures c.waiting[other].pairId != c.waiting[w].pairId {
        if other != call { assert WaiterOk(cfg, b, other); }
      }
    }
    forall i: nat | i < |c.granted| ensures GrantOk(cfg, c, clock, i) { assert GrantOk(cfg, b, clock, i); }
    forall i: nat, j: nat | i < j < |c.granted| ensures Apart(c, i, j) { assert Apart(b, i, j); }
    forall w, i: nat | w in c.waiting && i < |c.granted| ensures Ungranted(c, w, i) {
      assert GrantOk(cfg, b, clock, i);
      if w != call { assert Ungranted(b, w, i); }
    }
    forall t | t in c.state.usedTickets ensures UseOk(c, t) { assert UseOk(b, t); }
  }

  /** An authorization whose pairing, if it is one, nobody else holds. */
  lemma GrantKeeps(cfg: Config, b: Backend, clock: Millis, claims: Claims, owner: Option<Id>, accountId: Id)
    requires BackendInv(cfg, b, clock) && cfg.ticket(claims.ticketId) == claims && claims.ticketId !in b.state.usedTickets
    requires claims.kind.Pairing? ==> Holds(cfg, b, claims)
    requires claims.kind.Pairing? ==> forall i: nat | i < |b.granted| && b.granted[i].claims.kind.Pairing? :: b.granted[i].claims.pairId != claims.pairId
    requires claims.kind.Pairing? ==> forall call | call in b.waiting :: b.waiting[call].pairId != claims.pairId
    ensures var state := b.state.(owner := owner, usedTickets := b.state.usedTickets[claims.ticketId := claims.expiresAt]);
            BackendInv(cfg, b.(state := state, granted := b.granted + [Grant(claims, accountId, clock)]), clock)
  {
    var state := b.state.(owner := owner, usedTickets := b.state.usedTickets[claims.ticketId := claims.expiresAt]);
    var c := b.(state := state, granted := b.granted + [Grant(claims, accountId, clock)]);
    var last := |b.granted|;
    assert c.granted[last].claims == claims;
    forall p | Spent(b, p) ensures Spent(c, p) {}
    forall call | call in c.waiting ensures WaiterOk(cfg, c, call) { assert WaiterOk(cfg, b, call); }
    forall i: nat | i < |c.granted| ensures GrantOk(cfg, c, clock, i) { if i < last { assert GrantOk(cfg, b, clock, i); } }
    forall i: nat, j: nat | i < j < |c.granted| ensures Apart(c, i, j) {
      assert GrantOk(cfg, b, clock, i);
      if j < last { assert Apart(b, i, j); }
    }
    forall call, i: nat | call in c.waiting && i < |c.granted| ensures Ungranted(c, call, i) {
      if i < last { assert Ungranted(b, call, i); }
    }
    forall t | t in c.state.usedTickets ensures UseOk(c, t) {
      if t == claims.ticketId {
        assert c.granted[last].claims.ticketId == t;
      } else {
        assert UseOk(b, t);
        var i :| 0 <= i < last && b.granted[i].claims.ticketId == t && b.state.usedTickets[t] == b.granted[i].claims.expiresAt;
        assert c.granted[i] == b.granted[i];
      }
    }
  }

  lemma BeginKeeps(cfg: Config, b: Backend, clock: Millis, step: Step<Action>)
    requires BackendInv(cfg, b, clock) && Enabled(cfg, b, clock, step) && step.action.BeginOp?
    ensures BackendInv(cfg, Act(cfg, b, step), step.now)
  {
    var claims, prunedAt, now := step.action.claims, step.action.prunedAt, step.now;
    var (state, progress) := Begin(cfg.hashSecret, b.state, claims, step.action.presented, prunedAt, now);
    PruneKeeps(cfg, b, clock, prunedAt);
    var p := b.(state := Prune(b.state, prunedAt));
    SettledKeeps(cfg, p, prunedAt, p, now);
    if progress.Waiting? {
      WaitKeeps(cfg, p, now, step.action.call, claims, state);
    } else if progress.result.Ok? {
      GrantKeeps(cfg, p, now, claims, p.state.owner, claims.accountId.value);
    }
  }

  /** A suspended call never finds its ticket used: only its own authorization could have used it. */
  lemma WaiterFindsTicketUnused(cfg: Config, b: Backend, clock: Millis, call: nat)
    requires BackendInv(cfg, b, clock) && call in b.waiting
    ensures b.waiting[call].ticketId !in b.state.usedTickets
  {
    var claims := b.waiting[call];
    assert WaiterOk(cfg, b, call);
    forall i: nat | i < |b.granted| ensures b.granted[i].claims.ticketId != claims.ticketId {
      assert GrantOk(cfg, b, clock, i) && Ungranted(b, call, i);
    }
    UsedTicketWasGranted(cfg, b, clock, claims.ticketId);
  }

  lemma UsedTicketWasGranted(cfg: Config, b: Backend, clock: Millis, t: Id)
    requires BackendInv(cfg, b, clock)
    ensures t in b.state.usedTickets ==> exists i :: 0 <= i < |b.granted| && b.granted[i].claims.ticketId == t
  {
    if t in b.state.usedTickets { assert UseOk(b, t); }
  }

  lemma FinishKeeps(cfg: Config, b: Backend, clock: Millis, step: Step<Action>)
    requires BackendInv(cfg, b, clock) && Enabled(cfg, b, clock, step) && step.action.FinishOp?
    ensures BackendInv(cfg, Act(cfg, b, step), step.now)
  {
    var call, now := step.action.waiter, step.now;
    if call !in b.waiting {
      SettledKeeps(cfg, b, clock, b, now);
      return;
    }
    var claims := b.waiting[call];
    WaiterFindsTicketUnused(cfg, b, clock, call);
    assert WaiterOk(cfg, b, call);
    var rest := b.(waiting := b.waiting - {call});
    SettledKeeps(cfg, b, clock, rest, now);
    var (state, r) := Finish(b.state, claims, step.action.answer);
    if r.Ok? {
      forall i: nat | i < |rest.granted| && rest.granted[i].claims.kind.Pairing? ensures rest.granted[i].claims.pairId != claims.pairId {
        assert Ungranted(b, call, i);
      }
      GrantKeeps(cfg, rest, now, claims, Some(r.value.accountId), r.value.accountId);
    }
  }

  lemma ActKeeps(cfg: Config, b: Backend, clock: Millis, step: Step<Action>)
    requires BackendInv(cfg, b, clock) && Enabled(cfg, b, clock, step)
    ensures BackendInv(cfg, Act(cfg, b, step), step.now)
  {
    match step.action
    case CreateOp(_, _, _) => CreateKeeps(cfg, b, clock, step);
    case ListOp => PruneKeeps(cfg, b, clock, step.now);
    case BeginOp(_, _, _, _) => BeginKeeps(cfg, b, clock, step);
    case FinishOp(_, _) => FinishKeeps(cfg, b, clock, step);
    case RevokeOp(_, _) => RevokeKeeps(cfg, b, clock, step);
  }

  lemma {:induction false} RunKeepsInv(cfg: Config, trace: seq<Backend>, steps: seq<Step<Action>>, i: nat)
    requires Run(cfg, trace, steps) && i < |trace|
    ensures BackendInv(cfg, trace[i], ClockBefore(steps, i))
    decreases i
  {
    if i > 0 {
      RunKeepsInv(cfg, trace, steps, i - 1);
      assert StepAt(cfg, trace, steps, i - 1);
      ActKeeps(cfg, trace[i - 1], ClockBefore(steps, i - 1), steps[i - 1]);
    }
  }

  // ---- What follows --------------------------------------------------------------------------

  lemma GrantsAreApart(cfg: Config, b: Backend, clock: Millis)
    requires BackendInv(cfg, b, clock)
    ensures forall i: nat, j: nat | i < j < |b.granted| && b.granted[i].claims.kind.Pairing? && b.granted[j].claims.kind.Pairing? ::
              b.granted[i].claims.pairId != b.granted[j].claims.pairId
  {
    forall i: nat, j: nat | i < j < |b.granted| && b.granted[i].claims.kind.Pairing? && b.granted[j].claims.kind.Pairing?
      ensures b.granted[i].claims.pairId != b.granted[j].claims.pairId
    {
      assert Apart(b, i, j);
    }
  }

  /** However the calls interleave, a pairing capability yields at most one authorization. */
  lemma CapabilityAuthorisesOnce(cfg: Config, trace: seq<Backend>, steps: seq<Step<Action>>, n: nat, i: nat, j: nat)
    requires Run(cfg, trace, steps) && n < |trace| && i < |trace[n].granted| && j < |trace[n].granted|
    requires trace[n].granted[i].claims.kind.Pairing? && trace[n].granted[j].claims.kind.Pairing?
    requires trace[n].granted[i].claims.pairId == trace[n].granted[j].claims.pairId
    ensures i == j
  {
    RunKeepsInv(cfg, trace, steps, n);
    GrantsAreApart(cfg, trace[n], ClockBefore(steps, n));
  }

  /** A ticket yields a second authorization only after its expiry, and a pairing ticket never. */
  lemma TicketAuthorisesOnceWhileValid(cfg: Config, trace: seq<Backend>, steps: seq<Step<Action>>, n: nat, i: nat, j: nat)
    requires Run(cfg, trace, steps) && n < |trace| && i < j < |trace[n].granted|
    requires trace[n].granted[i].claims.ticketId == trace[n].granted[j].claims.ticketId
    ensures trace[n].granted[i].claims.kind.Connection? && trace[n].granted[j].claims.expiresAt <= trace[n].granted[j].at
  {
    RunKeepsInv(cfg, trace, steps, n);
    assert Apart(trace[n], i, j);
    assert GrantOk(cfg, trace[n], ClockBefore(steps, n), i) && GrantOk(cfg, trace[n], ClockBefore(steps, n), j);
  }

  predicate Passes(p: Progress) {
    p.Waiting? || p.result.Ok?
  }

  /** A ticket that was granted is granted again exactly when it is an expired connection ticket with its rights intact. */
  lemma GrantedTicketPassesIff(
    cfg: Config, trace: seq<Backend>, steps: seq<Step<Action>>, n: nat, i: nat, presented: Option<Secret>, prunedAt: Millis, now: Millis)
    requires Run(cfg, trace, steps) && n < |trace| && i < |trace[n].granted| && ClockBefore(steps, n) <= prunedAt <= now
    ensures var s, c := trace[n].state, trace[n].granted[i].claims;
            Passes(Begin(cfg.hashSecret, s, c, presented, prunedAt, now).1)
            <==> && c.kind.Connection? && c.expiresAt <= prunedAt
                 && c.accountId.Some? && c.accountId == s.owner && c.deviceId !in s.revokedDevices
  {
    RunKeepsInv(cfg, trace, steps, n);
    var b := trace[n];
    assert GrantOk(cfg, b, ClockBefore(steps, n), i);
    UsedUntilExpiry(cfg, b, ClockBefore(steps, n), i);
  }

  /** A step that authorizes leaves the backend owned by the account it authorized. */
  lemma AuthorizedAccountIsOwner(cfg: Config, b: Backend, clock: Millis, step: Step<Action>)
    requires BackendInv(cfg, b, clock) && Enabled(cfg, b, clock, step)
    requires |Act(cfg, b, step).granted| > |b.granted|
    ensures var c := Act(cfg, b, step);
            && c.granted == b.granted + [c.granted[|b.granted|]]
            && c.state.owner == Some(c.granted[|b.granted|].accountId)
            && (c.granted[|b.granted|].claims.kind.Connection? ==> c.granted[|b.granted|].claims.deviceId !in c.state.revokedDevices)
  {
    if step.action.FinishOp? && step.action.waiter in b.waiting {
      assert WaiterOk(cfg, b, step.action.waiter);
    }
  }

  lemma OwnerStep(cfg: Config, b: Backend, step: Step<Action>)
    ensures Act(cfg, b, step).state.owner == b.state.owner || Act(cfg, b, step).state.owner.None? || b.state.owner.None?
  {
  }

  /** Between two different owners there is a moment with none. */
  lemma {:induction false} OwnerMovesThroughNobody(cfg: Config, trace: seq<Backend>, steps: seq<Step<Action>>, i: nat, j: nat)
    requires Run(cfg, trace, steps) && i <= j < |trace|
    requires trace[i].state.owner.Some? && trace[j].state.owner.Some? && trace[i].state.owner != trace[j].state.owner
    ensures exists k :: i < k < j && trace[k].state.owner.None?
    decreases j - i
  {
    assert StepAt(cfg, trace, steps, i);
    OwnerStep(cfg, trace[i], steps[i]);
    if trace[i + 1].state.owner.Some? {
      OwnerMovesThroughNobody(cfg, trace, steps, i + 1, j);
    }
  }

  /** The authorizer leaves the expiry of a ticket to its caller: at its expiry the record of its use is gone. */
  lemma ExpiredTicketPassesAgain(hashSecret: Secret -> Digest)
    ensures var c := Claims(Connection, 7, 1, 2, 3, 4, Some(9), None, 0, 5);
            var first := Begin(hashSecret, State(Some(9), map[], map[], map[]), c, None, 4, 4);
            && first.1 == Over(Ok(Authorization(9, 3)))
            && Begin(hashSecret, first.0, c, None, 4, 4).1 == Over(Err(TicketUsed))
            && Begin(hashSecret, first.0, c, None, 5, 5).1 == Over(Ok(Authorization(9, 3)))
  {
    var c := Claims(Connection, 7, 1, 2, 3, 4, Some(9), None, 0, 5);
    var s := State(Some(9), map[], map[], map[]);
    var first := Begin(hashSecret, s, c, None, 4, 4);
    assert first.0.usedTickets == map[7 := 5];
  }

  /** A suspended call succeeds exactly when the rendezvous confirms its own pairing and device for the owner or a first owner. */
  lemma WaiterSucceedsIff(cfg: Config, trace: seq<Backend>, steps: seq<Step<Action>>, n: nat, call: nat, answer: Option<Confirmation>)
    requires Run(cfg, trace, steps) && n < |trace| && call in trace[n].waiting
    ensures var s, c := trace[n].state, trace[n].waiting[call];
            Finish(s, c, answer).1.Ok?
            <==> && answer.Some? && Some(answer.value.pairId) == c.pairId && answer.value.deviceId == c.deviceId
                 && (s.owner.None? || s.owner == Some(answer.value.accountId))
  {
    RunKeepsInv(cfg, trace, steps, n);
    WaiterFindsTicketUnused(cfg, trace[n], ClockBefore(steps, n), call);
  }

  // ---- Revoked devices -----------------------------------------------------------------------

  lemma {:induction false} RevokedForGood(cfg: Config, trace: seq<Backend>, steps: seq<Step<Action>>, i: nat, j: nat, device: Id)
    requires Run(cfg, trace, steps) && i <= j < |trace| && device in trace[i].state.revokedDevices
    ensures device in trace[j].state.revokedDevices
    decreases j - i
  {
    if i < j {
      assert StepAt(cfg, trace, steps, i);
      RevokedForGood(cfg, trace, steps, i + 1, j, device);
    }
  }

  /** From its revocation on, a device gets no connection; it may still take part in a pairing. */
  lemma RevokedDeviceNeverConnects(cfg: Config, trace: seq<Backend>, steps: seq<Step<Action>>, i: nat, j: nat, device: Id)
    requires Run(cfg, trace, steps) && i <= j < |steps| && device in trace[i].state.revokedDevices
    requires |trace[j + 1].granted| > |trace[j].granted|
    ensures var g := trace[j + 1].granted[|trace[j].granted|].claims; g.deviceId == device ==> g.kind.Pairing?
  {
    RevokedForGood(cfg, trace, steps, i, j + 1, device);
    assert StepAt(cfg, trace, steps, j);
    RunKeepsInv(cfg, trace, steps, j);
    AuthorizedAccountIsOwner(cfg, trace[j], ClockBefore(steps, j), steps[j]);
  }

  // ---- A revoked device pairs ----------------------------------------------------------------

  lemma Extends(cfg: Config, trace: seq<Backend>, steps: seq<Step<Action>>, step: Step<Action>) returns (longer: seq<Backend>)
    requires Run(cfg, trace, steps) && Enabled(cfg, trace[|steps|], ClockBefore(steps, |steps|), step)
    ensures Run(cfg, longer, steps + [step])
    ensures longer == trace + [Act(cfg, trace[|steps|], step)]
  {
    longer := trace + [Act(cfg, trace[|steps|], step)];
    var more := steps + [step];
    forall i: nat | i < |more| ensures StepAt(cfg, longer, more, i) {
      if i < |steps| { assert StepAt(cfg, trace, steps, i); }
    }
  }

  /** A pairing ticket of device 1 at backend 2 for the pairing and the ticket of the same number. */
  function PairingTicket(number: Id): Claims {
    Claims(Pairing, number, 2, 3, 1, 4, None, Some(number), 1, 50)
  }

  /** A pairing is opened, called for and confirmed for account 9. */
  function PairingSteps(number: Id): seq<Step<Action>> {
    [Step(CreateOp(100, number, 5), 1),
     Step(BeginOp(number, PairingTicket(number), Some(5), 1), 1),
     Step(FinishOp(number, Some(Confirmation(number, 9, 1))), 1)]
  }

  lemma PairingIsGranted(cfg: Config, b: Backend, number: Id)
    requires number !in b.waiting && number !in b.state.usedTickets && (b.state.owner.None? || b.state.owner == Some(9))
    ensures var created := Act(cfg, b, PairingSteps(number)[0]);
            var called := Act(cfg, created, PairingSteps(number)[1]);
            var t := Act(cfg, called, PairingSteps(number)[2]);
            && created.waiting == b.waiting
            && t.granted == b.granted + [Grant(PairingTicket(number), 9, 1)]
            && t.drawn == b.drawn + {number} && t.waiting == b.waiting
            && t.state.owner == Some(9) && t.state.revokedDevices == b.state.revokedDevices
            && t.state.usedTickets.Keys <= b.state.usedTickets.Keys + {number}
  {
    var created := Act(cfg, b, PairingSteps(number)[0]);
    var called := Act(cfg, created, PairingSteps(number)[1]);
    assert called.waiting == b.waiting[number := PairingTicket(number)];
    assert called.waiting - {number} == b.waiting;
  }

  lemma PairingGoesThrough(cfg: Config, trace: seq<Backend>, steps: seq<Step<Action>>, number: Id) returns (longer: seq<Backend>)
    requires Run(cfg, trace, steps) && (steps == [] || steps[|steps| - 1].now == 1) && cfg.ticket(number) == PairingTicket(number)
    requires var b := trace[|steps|];
             && number !in b.drawn && number !in b.waiting && number !in b.state.usedTickets
             && (b.state.owner.None? || b.state.owner == Some(9))
    ensures Run(cfg, longer, steps + PairingSteps(number)) && trace <= longer
    ensures var b, t := trace[|steps|], longer[|steps| + 3];
            && t.granted == b.granted + [Grant(PairingTicket(number), 9, 1)]
            && t.drawn == b.drawn + {number} && t.waiting == b.waiting
            && t.state.owner == Some(9) && t.state.revokedDevices == b.state.revokedDevices
            && t.state.usedTickets.Keys <= b.state.usedTickets.Keys + {number}
  {
    PairingIsGranted(cfg, trace[|steps|], number);
    var create, begin, finish := PairingSteps(number)[0], PairingSteps(number)[1], PairingSteps(number)[2];
    longer := Extends(cfg, trace, steps, create);
    longer := Extends(cfg, longer, steps + [create], begin);
    longer := Extends(cfg, longer, steps + [create] + [begin], finish);
    assert steps + [create] + [begin] + [finish] == steps + PairingSteps(number);
  }

  const RevokingSteps: seq<Step<Action>> := PairingSteps(7) + [Step(RevokeOp(9, Some(1)), 1)] + PairingSteps(8)

  /** A run in which device 1 pairs, is revoked, and pairs again. */
  lemma RevokedDevicePairs(cfg: Config) returns (trace: seq<Backend>)
    requires cfg.ticket(7) == PairingTicket(7) && cfg.ticket(8) == PairingTicket(8)
    ensures Run(cfg, trace, RevokingSteps)
    ensures 1 in trace[4].state.revokedDevices && |trace[4].granted| == 1
    ensures trace[7].granted == trace[4].granted + [Grant(PairingTicket(8), 9, 1)] && PairingTicket(8).deviceId == 1
  {
    trace := PairingGoesThrough(cfg, [NewBackend], [], 7);
    assert [] + PairingSteps(7) == PairingSteps(7);
    trace := Extends(cfg, trace, PairingSteps(7), Step(RevokeOp(9, Some(1)), 1));
    trace := PairingGoesThrough(cfg, trace, PairingSteps(7) + [Step(RevokeOp(9, Some(1)), 1)], 8);
  }
}
