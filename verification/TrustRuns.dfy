/**
 Whole lives of the trust store: any sequence of operations, under a clock that never goes back
 and a random source that never repeats an identifier.
 */
module TrustRuns {
  import opened Wrappers
  import opened TrustProtocol
  import opened TrustModel
  import opened TrustInvariants
  import opened TrustLaws

  datatype Action =
    | CreateChallengeOp(request: ChallengeRequest, challengeId: Id)
    | PairingTicketOp(signed: SignedChallenge, ticketId: Id)
    | ConnectionTicketOp(signed: SignedChallenge, ticketId: Id)
    | ConsumeTicketOp(ticket: Claims, verifiedAt: Millis)
    | ConfirmOp(claims: Claims, drawnAccount: Id)
    | DiscoverOp(signed: SignedChallenge)
    | InviteOp(signed: SignedChallenge, inviteId: Id, secret: Secret)
    | AcceptOp(signed: SignedChallenge, inviteId: Id, secret: Secret)
    | RevokeDeviceOp(signed: SignedChallenge)
    | RevokeBackendOp(signed: SignedChallenge)

  function Act(cfg: Config, s: Store, step: Step<Action>): Store
    requires Complete(s)
  {
    match step.action
    case CreateChallengeOp(r, id) => CreateChallenge(cfg, s, r, id, step.now).0
    case PairingTicketOp(signed, id) => IssuePairingTicket(cfg, s, signed, id, step.now).0
    case ConnectionTicketOp(signed, id) => IssueConnectionTicket(cfg, s, signed, id, step.now).0
    case ConsumeTicketOp(ticket, verifiedAt) => ConsumeRouteTicket(s, ticket, verifiedAt, step.now).0
    case ConfirmOp(claims, id) => ConfirmPairing(s, claims, id, step.now).0
    case DiscoverOp(signed) => ListAuthorizedBackendIds(s, signed, step.now).0
    case InviteOp(signed, id, secret) => CreateDeviceInvite(cfg, s, signed, id, secret, step.now).0
    case AcceptOp(signed, id, secret) => AcceptDeviceInvite(cfg, s, signed, id, secret, step.now).0
    case RevokeDeviceOp(signed) => RevokeDevice(s, signed, step.now).0
    case RevokeBackendOp(signed) => RevokeBackend(s, signed, step.now).0
  }

  /** The random identifier that the action draws. */
  function Drawn(a: Action): set<Id> {
    match a
    case CreateChallengeOp(_, id) => {id}
    case PairingTicketOp(_, id) => {id}
    case ConnectionTicketOp(_, id) => {id}
    case ConfirmOp(_, id) => {id}
    case InviteOp(_, id, _) => {id}
    case _ => {}
  }

  /** The action can happen at this clock: fresh randomness, time moving on, and a ticket's own claims confirmed. */
  ghost predicate Enabled(cfg: Config, s: Store, clock: Millis, step: Step<Action>) {
    && 0 < step.now && clock <= step.now
    && Drawn(step.action) !! s.drawn
    && (step.action.ConsumeTicketOp? ==> clock <= step.action.verifiedAt <= step.now)
    && (step.action.ConfirmOp? ==> ClaimsFit(cfg, s.state, step.action.claims))
  }

  /** `Complete` always holds in a run (`InvIsComplete`); where it failed, anything could follow. */
  ghost predicate Next(cfg: Config, s: Store, step: Step<Action>, t: Store) {
    Complete(s) ==> t == Act(cfg, s, step)
  }

  ghost predicate StepAt(cfg: Config, trace: seq<Store>, steps: seq<Step<Action>>, i: nat)
    requires |trace| == |steps| + 1 && i < |steps|
  {
    Enabled(cfg, trace[i], ClockBefore(steps, i), steps[i]) && Next(cfg, trace[i], steps[i], trace[i + 1])
  }

  /** `trace[i]` is the store before `steps[i]`. */
  ghost predicate Run(cfg: Config, trace: seq<Store>, steps: seq<Step<Action>>) {
    && |trace| == |steps| + 1
    && trace[0] == EmptyStore
    && forall i: nat {:trigger StepAt(cfg, trace, steps, i)} | i < |steps| :: StepAt(cfg, trace, steps, i)
  }

  // ---- One step ------------------------------------------------------------------------------

  /** What a step does to the identifiers and the tickets, whatever the action is. */
  ghost predicate Grows(s: Store, step: Step<Action>, t: Store) {
    && s.drawn <= t.drawn <= s.drawn + Drawn(step.action)
    && t.challenges.Keys <= s.challenges.Keys + Drawn(step.action)
    && t.state.deviceInvites.Keys <= s.state.deviceInvites.Keys + Drawn(step.action)
    && t.challenges.Keys * t.state.deviceInvites.Keys * Drawn(step.action) == {}
    && (forall k | k in s.minted :: k in t.minted && t.minted[k] == s.minted[k])
    && (forall k | k in t.minted && k !in s.minted :: t.minted[k].issuedAt == step.now)
    && (forall k | k in s.state.usedTickets :: k in t.state.usedTickets || s.state.usedTickets[k] <= step.now)
  }

  lemma ActKeeps(cfg: Config, s: Store, clock: Millis, step: Step<Action>)
    requires StoreInv(cfg, s) && Enabled(cfg, s, clock, step)
    ensures Complete(s)
    ensures StoreInv(cfg, Act(cfg, s, step)) && Evolves(s.state, Act(cfg, s, step).state)
  {
    InvIsComplete(cfg, s);
    match step.action
    case CreateChallengeOp(r, id) => CreateChallengeKeeps(cfg, s, r, id, step.now);
    case PairingTicketOp(signed, id) => IssuePairingTicketKeeps(cfg, s, signed, id, step.now);
    case ConnectionTicketOp(signed, id) => IssueConnectionTicketKeeps(cfg, s, signed, id, step.now);
    case ConsumeTicketOp(ticket, verifiedAt) => ConsumeRouteTicketKeeps(cfg, s, ticket, verifiedAt, step.now);
    case ConfirmOp(claims, id) => ConfirmPairingKeeps(cfg, s, claims, id, step.now);
    case _ => AccountActKeeps(cfg, s, step);
  }

  lemma AccountActKeeps(cfg: Config, s: Store, step: Step<Action>)
    requires StoreInv(cfg, s) && Complete(s) && step.now > 0
    requires !step.action.CreateChallengeOp? && !step.action.PairingTicketOp? && !step.action.ConnectionTicketOp?
    requires !step.action.ConsumeTicketOp? && !step.action.ConfirmOp?
    ensures StoreInv(cfg, Act(cfg, s, step)) && Evolves(s.state, Act(cfg, s, step).state)
  {
    match step.action
    case DiscoverOp(signed) => ConsumeKeeps(cfg, s, signed, ToDiscover, step.now);
    case InviteOp(signed, id, secret) => CreateDeviceInviteKeeps(cfg, s, signed, id, secret, step.now);
    case AcceptOp(signed, id, secret) => AcceptDeviceInviteKeeps(cfg, s, signed, id, secret, step.now);
    case RevokeDeviceOp(signed) => RevokeDeviceKeeps(cfg, s, signed, step.now);
    case RevokeBackendOp(signed) => RevokeBackendKeeps(cfg, s, signed, step.now);
  }

  lemma ActGrows(cfg: Config, s: Store, clock: Millis, step: Step<Action>)
    requires Complete(s) && IdsDrawn(s) && Enabled(cfg, s, clock, step)
    ensures Grows(s, step, Act(cfg, s, step))
  {
    match step.action
    case CreateChallengeOp(_, _) => CreateChallengeGrows(cfg, s, step);
    case PairingTicketOp(_, _) => PairingTicketGrows(cfg, s, step);
    case ConnectionTicketOp(_, _) => ConnectionTicketGrows(cfg, s, step);
    case ConsumeTicketOp(_, _) => ConsumeTicketGrows(cfg, s, step);
    case ConfirmOp(_, _) => ConfirmGrows(cfg, s, step);
    case InviteOp(_, _, _) => InviteGrows(cfg, s, step);
    case AcceptOp(_, _, _) => AcceptGrows(cfg, s, step);
    case DiscoverOp(_) =>
    case RevokeDeviceOp(_) => RevokeDeviceGrows(cfg, s, step);
    case RevokeBackendOp(_) => RevokeBackendGrows(cfg, s, step);
  }

  lemma CreateChallengeGrows(cfg: Config, s: Store, step: Step<Action>)
    requires Complete(s) && step.action.CreateChallengeOp? && IdsDrawn(s) && Drawn(step.action) !! s.drawn
    ensures Grows(s, step, Act(cfg, s, step))
  {
    var p := Prune(s, step.now);
    assert Grows(s, step, p);
  }

  lemma PairingTicketGrows(cfg: Config, s: Store, step: Step<Action>)
    requires Complete(s) && step.action.PairingTicketOp? && IdsDrawn(s) && Drawn(step.action) !! s.drawn
    ensures Grows(s, step, Act(cfg, s, step))
  {
  }

  lemma ConnectionTicketGrows(cfg: Config, s: Store, step: Step<Action>)
    requires Complete(s) && step.action.ConnectionTicketOp? && IdsDrawn(s) && Drawn(step.action) !! s.drawn
    ensures Grows(s, step, Act(cfg, s, step))
  {
  }

  lemma ConsumeTicketGrows(cfg: Config, s: Store, step: Step<Action>)
    requires Complete(s) && step.action.ConsumeTicketOp?
    ensures Grows(s, step, Act(cfg, s, step))
  {
    var p := Prune(s, step.now);
    assert Grows(s, step, p);
  }

  lemma ConfirmGrows(cfg: Config, s: Store, step: Step<Action>)
    requires Complete(s) && step.action.ConfirmOp? && IdsDrawn(s) && Drawn(step.action) !! s.drawn
    ensures Grows(s, step, Act(cfg, s, step))
  {
  }

  lemma InviteGrows(cfg: Config, s: Store, step: Step<Action>)
    requires Complete(s) && step.action.InviteOp? && IdsDrawn(s) && Drawn(step.action) !! s.drawn
    ensures Grows(s, step, Act(cfg, s, step))
  {
  }

  lemma AcceptGrows(cfg: Config, s: Store, step: Step<Action>)
    requires Complete(s) && step.action.AcceptOp?
    ensures Grows(s, step, Act(cfg, s, step))
  {
  }

  lemma RevokeDeviceGrows(cfg: Config, s: Store, step: Step<Action>)
    requires Complete(s) && step.action.RevokeDeviceOp?
    ensures Grows(s, step, Act(cfg, s, step))
  {
    DeviceIsRevokedIff(s, step.action.signed, step.now);
    var t := RevokeDevice(s, step.action.signed, step.now).0;
    DevicesOnlyGrow(s, step, t);
  }

  lemma DevicesOnlyGrow(s: Store, step: Step<Action>, t: Store)
    requires t == s.(challenges := t.challenges, state := s.state.(devices := t.state.devices)) && t.challenges.Keys <= s.challenges.Keys
    requires Drawn(step.action) == {}
    ensures Grows(s, step, t)
  {
  }

  lemma RevokeBackendGrows(cfg: Config, s: Store, step: Step<Action>)
    requires Complete(s) && step.action.RevokeBackendOp?
    ensures Grows(s, step, Act(cfg, s, step))
  {
  }

  // ---- The invariant over a run --------------------------------------------------------------

  lemma {:induction false} RunKeepsInv(cfg: Config, trace: seq<Store>, steps: seq<Step<Action>>, i: nat)
    requires Run(cfg, trace, steps) && i < |trace|
    ensures StoreInv(cfg, trace[i])
    decreases i
  {
    if i > 0 {
      RunKeepsInv(cfg, trace, steps, i - 1);
      assert StepAt(cfg, trace, steps, i - 1);
      ActKeeps(cfg, trace[i - 1], ClockBefore(steps, i - 1), steps[i - 1]);
    }
  }

  /** After any number of operations the load-time check accepts the state, and every record is in order. */
  lemma StateAlwaysReloads(cfg: Config, trace: seq<Store>, steps: seq<Step<Action>>, i: nat)
    requires Run(cfg, trace, steps) && i < |trace|
    ensures Consistent(cfg, trace[i].state) && HasConsistentReferences(cfg, trace[i].state)
  {
    RunKeepsInv(cfg, trace, steps, i);
    ConsistentPassesTheLoadCheck(cfg, trace[i].state);
  }

  lemma StepOfRun(cfg: Config, trace: seq<Store>, steps: seq<Step<Action>>, i: nat)
    requires Run(cfg, trace, steps) && i < |steps|
    ensures StoreInv(cfg, trace[i]) && Complete(trace[i]) && Enabled(cfg, trace[i], ClockBefore(steps, i), steps[i])
    ensures trace[i + 1] == Act(cfg, trace[i], steps[i])
    ensures StoreInv(cfg, trace[i + 1]) && Evolves(trace[i].state, trace[i + 1].state) && Grows(trace[i], steps[i], trace[i + 1])
  {
    RunKeepsInv(cfg, trace, steps, i);
    RunKeepsInv(cfg, trace, steps, i + 1);
    assert StepAt(cfg, trace, steps, i);
    ActKeeps(cfg, trace[i], ClockBefore(steps, i), steps[i]);
    ActGrows(cfg, trace[i], ClockBefore(steps, i), steps[i]);
  }

  /** What most arguments about a run need of a step, without the action itself. */
  lemma StepEffects(cfg: Config, trace: seq<Store>, steps: seq<Step<Action>>, i: nat)
    requires Run(cfg, trace, steps) && i < |steps|
    ensures StoreInv(cfg, trace[i]) && StoreInv(cfg, trace[i + 1])
    ensures Evolves(trace[i].state, trace[i + 1].state) && Grows(trace[i], steps[i], trace[i + 1])
    ensures ClockBefore(steps, i) <= steps[i].now && Drawn(steps[i].action) !! trace[i].drawn
  {
    StepOfRun(cfg, trace, steps, i);
  }

  // ---- Ownership, devices and completions over a run -----------------------------------------

  /** One step moves a backend's owner from nobody to an account or from an account to nobody. */
  lemma OwnerMovesThroughNobody(cfg: Config, trace: seq<Store>, steps: seq<Step<Action>>, i: nat, backendId: Id)
    requires Run(cfg, trace, steps) && i < |steps|
    ensures var before := BackendOwner(trace[i].state, backendId);
            var after := BackendOwner(trace[i + 1].state, backendId);
            before == after || before.None? || after.None?
  {
    StepEffects(cfg, trace, steps, i);
  }

  lemma {:induction false} DeviceIsForGood(cfg: Config, trace: seq<Store>, steps: seq<Step<Action>>, i: nat, j: nat, d: Id)
    requires Run(cfg, trace, steps) && i <= j < |trace| && d in trace[i].state.devices
    ensures DeviceKept(trace[i].state, trace[j].state, d)
    decreases j
  {
    if i < j {
      DeviceIsForGood(cfg, trace, steps, i, j - 1, d);
      StepEffects(cfg, trace, steps, j - 1);
      assert DeviceKept(trace[j - 1].state, trace[j].state, d);
    }
  }

  lemma {:induction false} CompletionIsForGood(cfg: Config, trace: seq<Store>, steps: seq<Step<Action>>, i: nat, j: nat, p: Id)
    requires Run(cfg, trace, steps) && i <= j < |trace| && p in trace[i].state.pairingCompletions
    ensures p in trace[j].state.pairingCompletions
    ensures trace[j].state.pairingCompletions[p] == trace[i].state.pairingCompletions[p]
    decreases j
  {
    if i < j {
      CompletionIsForGood(cfg, trace, steps, i, j - 1, p);
      StepEffects(cfg, trace, steps, j - 1);
    }
  }

  /** Once a pairing completed, its own ticket gets the same answer for ever and any other ticket is refused. */
  lemma CompletedPairingAnswersTheSame(
    cfg: Config, trace: seq<Store>, steps: seq<Step<Action>>, i: nat, j: nat, first: Claims, later: Claims, id1: Id, id2: Id, now: Millis)
    requires Run(cfg, trace, steps) && i < |steps| && i < j < |trace|
    requires steps[i].action == ConfirmOp(first, id1) && ConfirmPairing(trace[i], first, id1, steps[i].now).1.Ok?
    requires later.kind.Pairing? && later.pairId == first.pairId
    ensures ConfirmPairing(trace[j], later, id2, now)
         == (trace[j], if later.ticketId == first.ticketId then ConfirmPairing(trace[i], first, id1, steps[i].now).1 else Err(PairingUsed))
  {
    StepOfRun(cfg, trace, steps, i);
    CompletionIsForGood(cfg, trace, steps, i + 1, j, first.pairId.value);
  }

  // ---- Discovery -----------------------------------------------------------------------------

  /** A signed discovery of an active device is answered, with exactly the backends that the account owns, each once. */
  lemma DiscoveryIsExact(cfg: Config, trace: seq<Store>, steps: seq<Step<Action>>, i: nat, signed: SignedChallenge, now: Millis)
    requires Run(cfg, trace, steps) && i < |trace|
    ensures Complete(trace[i])
    ensures var answer := ListAuthorizedBackendIds(trace[i], signed, now).1;
            && (answer.Ok? <==> Signed(trace[i], signed, ToDiscover, now) && exists a :: ActsFor(trace[i], signed, a))
            && (answer.Ok? ==>
              && signed.challengeId in trace[i].challenges
              && var device := trace[i].challenges[signed.challengeId].deviceId;
              && IsDeviceActive(trace[i].state, device)
              && Distinct(answer.value)
              && forall b :: b in answer.value <==> BackendOwner(trace[i].state, b) == Some(trace[i].state.devices[device].accountId))
  {
    RunKeepsInv(cfg, trace, steps, i);
    var s := trace[i];
    InvIsComplete(cfg, s);
    BackendsAreListedIff(s, signed, now);
    var answer := ListAuthorizedBackendIds(s, signed, now).1;
    if answer.Ok? {
      var a := s.state.devices[s.challenges[signed.challengeId].deviceId].accountId;
      assert AccountOk(s.state, a);
      forall b ensures b in answer.value <==> BackendOwner(s.state, b) == Some(a) {
        if BackendOwner(s.state, b) == Some(a) { assert OwnerOk(s.state, b); }
      }
    }
  }

  // ---- A route ticket is used once -----------------------------------------------------------

  /** The ticket can no longer pass, at any clock from `clock` on: it is recorded as used or has expired. */
  ghost predicate Spent(s: Store, c: Claims, clock: Millis) {
    && c.ticketId in s.minted && s.minted[c.ticketId] == c
    && (c.ticketId in s.state.usedTickets || c.expiresAt <= clock)
  }

  lemma SpentAfterUse(cfg: Config, s: Store, c: Claims, verifiedAt: Millis, now: Millis)
    requires StoreInv(cfg, s) && ConsumeRouteTicket(s, c, verifiedAt, now).1.Ok?
    ensures Spent(ConsumeRouteTicket(s, c, verifiedAt, now).0, c, now)
  {
  }

  lemma SpentStays(cfg: Config, s: Store, clock: Millis, step: Step<Action>, t: Store, c: Claims)
    requires StoreInv(cfg, s) && Grows(s, step, t) && clock <= step.now && Spent(s, c, clock)
    ensures Spent(t, c, step.now)
  {
    if c.ticketId in s.state.usedTickets { assert UsedFits(s, c.ticketId); }
  }

  /** What a spent ticket can still do: pass only if it expires between the two clock readings. */
  lemma SpentTicketPassesIff(cfg: Config, s: Store, c: Claims, clock: Millis, verifiedAt: Millis, now: Millis)
    requires StoreInv(cfg, s) && Spent(s, c, clock) && clock <= verifiedAt <= now
    requires c.issuedAt < c.expiresAt && c.issuedAt <= clock
    ensures ConsumeRouteTicket(s, c, verifiedAt, now).1.Ok? <==> verifiedAt < c.expiresAt <= now
  {
    if c.ticketId in s.state.usedTickets { assert UsedFits(s, c.ticketId); }
  }

  lemma {:induction false} SpentForGood(cfg: Config, trace: seq<Store>, steps: seq<Step<Action>>, i: nat, j: nat, c: Claims)
    requires Run(cfg, trace, steps) && i < j < |trace|
    requires Spent(trace[i + 1], c, steps[i].now)
    ensures Spent(trace[j], c, ClockBefore(steps, j)) && steps[i].now <= ClockBefore(steps, j)
    decreases j
  {
    if i + 1 < j {
      SpentForGood(cfg, trace, steps, i, j - 1, c);
      StepEffects(cfg, trace, steps, j - 1);
      SpentStays(cfg, trace[j - 1], ClockBefore(steps, j - 1), steps[j - 1], trace[j], c);
    }
  }

  /** Tickets carry the time at which they were signed. */
  lemma {:induction false} TicketsArePast(cfg: Config, trace: seq<Store>, steps: seq<Step<Action>>, i: nat, t: Id)
    requires Run(cfg, trace, steps) && i < |trace| && t in trace[i].minted
    ensures trace[i].minted[t].issuedAt <= ClockBefore(steps, i)
    decreases i
  {
    if i > 0 {
      StepEffects(cfg, trace, steps, i - 1);
      if t in trace[i - 1].minted { TicketsArePast(cfg, trace, steps, i - 1, t); }
    }
  }

  /**
   The exact law of single use. After a ticket was consumed, a later attempt succeeds if and only
   if the ticket expires between the two clock readings of that attempt: its check still passes,
   and the pruning that follows forgets that it was used.
   */
  lemma TicketIsUsedOnceIff(cfg: Config, trace: seq<Store>, steps: seq<Step<Action>>, i: nat, j: nat, c: Claims)
    requires Run(cfg, trace, steps) && i < j < |steps|
    requires steps[i].action.ConsumeTicketOp? && steps[i].action.ticket == c
    requires ConsumeRouteTicket(trace[i], c, steps[i].action.verifiedAt, steps[i].now).1.Ok?
    requires steps[j].action.ConsumeTicketOp? && steps[j].action.ticket == c
    ensures var second := steps[j].action;
            ConsumeRouteTicket(trace[j], c, second.verifiedAt, steps[j].now).1.Ok?
            <==> second.verifiedAt < c.expiresAt <= steps[j].now
  {
    StepOfRun(cfg, trace, steps, i);
    SpentAfterUse(cfg, trace[i], c, steps[i].action.verifiedAt, steps[i].now);
    SpentForGood(cfg, trace, steps, i, j, c);
    StepOfRun(cfg, trace, steps, j);
    TicketsArePast(cfg, trace, steps, j, c.ticketId);
    SpentTicketPassesIff(cfg, trace[j], c, ClockBefore(steps, j), steps[j].action.verifiedAt, steps[j].now);
  }

  /** The law is not vacuous: a ticket that expires at time 10 is consumed at 5 and again at 9/10. */
  lemma TicketCanBeUsedTwice(ticket: Claims, s: Store)
    requires ticket.issuedAt == 1 && ticket.expiresAt == 10
    requires s == EmptyStore.(minted := map[ticket.ticketId := ticket])
    ensures var (t, first) := ConsumeRouteTicket(s, ticket, 5, 5);
            first.Ok? && ConsumeRouteTicket(t, ticket, 9, 10).1.Ok? && ConsumeRouteTicket(t, ticket, 9, 9).1 == Err(TicketUsed)
  {
    var (t, _) := ConsumeRouteTicket(s, ticket, 5, 5);
    assert ticket.ticketId in t.state.usedTickets;
  }

  // ---- Challenges and invites are used once --------------------------------------------------

  /** What the step answers with a signed challenge, and the purpose that challenge must have. */
  function Asks(a: Action): Option<(SignedChallenge, Purpose)> {
    match a
    case PairingTicketOp(signed, _) => Some((signed, ToPair))
    case ConnectionTicketOp(signed, _) => Some((signed, ToConnect))
    case DiscoverOp(signed) => Some((signed, ToDiscover))
    case InviteOp(signed, _, _) => Some((signed, ToCreateInvite))
    case AcceptOp(signed, _, _) => Some((signed, ToAcceptInvite))
    case RevokeDeviceOp(signed) => Some((signed, ToRevokeDevice))
    case RevokeBackendOp(signed) => Some((signed, ToRevokeBackend))
    case _ => None
  }

  /** The step presents the challenge, open and unexpired, for its own purpose and with a valid signature. */
  predicate Authorises(s: Store, step: Step<Action>, id: Id) {
    match Asks(step.action)
    case Some((signed, purpose)) => signed.challengeId == id && Signed(s, signed, purpose, step.now)
    case None => false
  }

  /** Without that, an operation that takes a challenge strikes the challenge and changes nothing else. */
  lemma NothingWithoutSignature(cfg: Config, trace: seq<Store>, steps: seq<Step<Action>>, i: nat)
    requires Run(cfg, trace, steps) && i < |steps| && Asks(steps[i].action).Some?
    ensures var signed := Asks(steps[i].action).value.0;
            Authorises(trace[i], steps[i], signed.challengeId) || trace[i + 1] == Struck(trace[i], signed)
  {
    StepOfRun(cfg, trace, steps, i);
    UnsignedIsStruck(cfg, trace[i], steps[i]);
  }

  lemma UnsignedIsStruck(cfg: Config, s: Store, step: Step<Action>)
    requires Complete(s) && Asks(step.action).Some?
    ensures var signed := Asks(step.action).value.0; Authorises(s, step, signed.challengeId) || Act(cfg, s, step) == Struck(s, signed)
  {
    match step.action
    case PairingTicketOp(signed, id) => PairingTicketIsIssuedIff(cfg, s, signed, id, step.now);
    case ConnectionTicketOp(signed, id) => ConnectionTicketIsIssuedIff(cfg, s, signed, id, step.now);
    case DiscoverOp(signed) => BackendsAreListedIff(s, signed, step.now);
    case InviteOp(signed, id, secret) => InviteIsCreatedIff(cfg, s, signed, id, secret, step.now);
    case AcceptOp(signed, id, secret) => DeviceJoinsIff(cfg, s, signed, id, secret, step.now);
    case RevokeDeviceOp(signed) => DeviceIsRevokedIff(s, signed, step.now);
    case RevokeBackendOp(signed) => BackendIsRevokedIff(s, signed, step.now);
  }

  /** Drawn in the past and no longer open: such an identifier never opens again. */
  ghost predicate Retired(s: Store, id: Id) {
    id in s.drawn && id !in s.challenges && id !in s.state.deviceInvites
  }

  lemma {:induction false} RetiredForGood(cfg: Config, trace: seq<Store>, steps: seq<Step<Action>>, i: nat, j: nat, id: Id)
    requires Run(cfg, trace, steps) && i <= j < |trace| && Retired(trace[i], id)
    ensures Retired(trace[j], id)
    decreases j
  {
    if i < j {
      RetiredForGood(cfg, trace, steps, i, j - 1, id);
      StepEffects(cfg, trace, steps, j - 1);
    }
  }

  lemma AuthorisingRetires(cfg: Config, s: Store, clock: Millis, step: Step<Action>, id: Id)
    requires StoreInv(cfg, s) && Enabled(cfg, s, clock, step) && Authorises(s, step, id)
    requires id !in s.state.deviceInvites
    ensures Complete(s)
    ensures Retired(Act(cfg, s, step), id)
  {
    InvIsComplete(cfg, s);
    ActGrows(cfg, s, clock, step);
    AuthorisingDeletes(cfg, s, step, id);
  }

  lemma AuthorisingDeletes(cfg: Config, s: Store, step: Step<Action>, id: Id)
    requires Complete(s) && Authorises(s, step, id)
    ensures id in s.challenges && id !in Act(cfg, s, step).challenges
  {
  }

  /** Challenges and invites never share an identifier. */
  lemma {:induction false} ChallengesAreNotInvites(cfg: Config, trace: seq<Store>, steps: seq<Step<Action>>, i: nat)
    requires Run(cfg, trace, steps) && i < |trace|
    ensures trace[i].challenges.Keys !! trace[i].state.deviceInvites.Keys
    decreases i
  {
    if i > 0 {
      ChallengesAreNotInvites(cfg, trace, steps, i - 1);
      StepEffects(cfg, trace, steps, i - 1);
      var s, t, drawn := trace[i - 1], trace[i], Drawn(steps[i - 1].action);
      forall id | id in t.challenges ensures id !in t.state.deviceInvites {
        if id in drawn { assert id !in s.challenges && id !in s.state.deviceInvites; }
      }
    }
  }

  lemma RetiredAuthorisesNothing(s: Store, step: Step<Action>, id: Id)
    requires Retired(s, id)
    ensures !Authorises(s, step, id)
  {
  }

  /** A challenge authorises at most one action in the whole life of the store. */
  lemma ChallengeAuthorisesOnce(cfg: Config, trace: seq<Store>, steps: seq<Step<Action>>, i: nat, j: nat, id: Id)
    requires Run(cfg, trace, steps) && i < j < |steps|
    requires Authorises(trace[i], steps[i], id)
    ensures !Authorises(trace[j], steps[j], id)
  {
    StepOfRun(cfg, trace, steps, i);
    ChallengesAreNotInvites(cfg, trace, steps, i);
    AuthorisingRetires(cfg, trace[i], ClockBefore(steps, i), steps[i], id);
    RetiredForGood(cfg, trace, steps, i + 1, j, id);
    RetiredAuthorisesNothing(trace[j], steps[j], id);
  }

  lemma AdmittingRetires(cfg: Config, s: Store, clock: Millis, step: Step<Action>)
    requires StoreInv(cfg, s) && Enabled(cfg, s, clock, step) && s.challenges.Keys !! s.state.deviceInvites.Keys
    requires step.action.AcceptOp? && Complete(s)
    requires var a := step.action; AcceptDeviceInvite(cfg, s, a.signed, a.inviteId, a.secret, step.now).1.Ok?
    ensures Retired(Act(cfg, s, step), step.action.inviteId)
  {
    ActGrows(cfg, s, clock, step);
    assert step.action.inviteId in s.state.deviceInvites;
  }

  lemma RetiredAdmitsNobody(cfg: Config, s: Store, signed: SignedChallenge, inviteId: Id, secret: Secret, now: Millis)
    requires Complete(s) && Retired(s, inviteId)
    ensures AcceptDeviceInvite(cfg, s, signed, inviteId, secret, now).1.Err?
  {
  }

  /** An invite admits at most one device. */
  lemma InviteAdmitsOnce(cfg: Config, trace: seq<Store>, steps: seq<Step<Action>>, i: nat, j: nat)
    requires Run(cfg, trace, steps) && i < j < |steps|
    requires steps[i].action.AcceptOp? && steps[j].action.AcceptOp? && steps[i].action.inviteId == steps[j].action.inviteId
    requires var a := steps[i].action; AcceptDeviceInvite(cfg, trace[i], a.signed, a.inviteId, a.secret, steps[i].now).1.Ok?
    ensures var a := steps[j].action; AcceptDeviceInvite(cfg, trace[j], a.signed, a.inviteId, a.secret, steps[j].now).1.Err?
  {
    StepOfRun(cfg, trace, steps, i);
    ChallengesAreNotInvites(cfg, trace, steps, i);
    AdmittingRetires(cfg, trace[i], ClockBefore(steps, i), steps[i]);
    RetiredForGood(cfg, trace, steps, i + 1, j, steps[i].action.inviteId);
    StepOfRun(cfg, trace, steps, j);
    RetiredAdmitsNobody(cfg, trace[j], steps[j].action.signed, steps[j].action.inviteId, steps[j].action.secret, steps[j].now);
  }

  // ---- Revoked devices -----------------------------------------------------------------------

  /** The program tests the revocation time for truth: an inactive device pairs exactly if it was revoked at time 0. */
  lemma RevokedDeviceIsConfirmedIff(s: Store, claims: Claims, drawnAccount: Id, now: Millis)
    requires claims.kind.Pairing? && claims.pairId.Some? && claims.pairId.value !in s.state.pairingCompletions
    requires claims.deviceId in s.state.devices && !IsDeviceActive(s.state, claims.deviceId)
    ensures var device, owner := s.state.devices[claims.deviceId], BackendOwner(s.state, claims.backendId);
            ConfirmPairing(s, claims, drawnAccount, now).1.Ok?
            <==> && device.revokedAt == Some(0)
                 && device.publicKey == claims.devicePublicKey && claims.accountId == Some(device.accountId)
                 && (owner.None? || owner == claims.accountId)
  {
  }

  /** While the clock is positive, as `Enabled` has it, a revoked device confirms no new pairing and changes nothing. */
  lemma RevokedDeviceConfirmsNothing(
    cfg: Config, trace: seq<Store>, steps: seq<Step<Action>>, i: nat, claims: Claims, drawnAccount: Id, now: Millis)
    requires Run(cfg, trace, steps) && i < |trace|
    requires claims.deviceId in trace[i].state.devices && !IsDeviceActive(trace[i].state, claims.deviceId)
    requires claims.pairId.Some? && claims.pairId.value !in trace[i].state.pairingCompletions
    ensures ConfirmPairing(trace[i], claims, drawnAccount, now).1.Err?
    ensures ConfirmPairing(trace[i], claims, drawnAccount, now).0 == trace[i]
  {
    RunKeepsInv(cfg, trace, steps, i);
    assert DeviceOk(cfg, trace[i].state, claims.deviceId);
    if claims.kind.Pairing? { RevokedDeviceIsConfirmedIff(trace[i], claims, drawnAccount, now); }
  }

  /** An input: a device that was revoked at time 0 gets a backend. */
  lemma RevocationAtTimeZeroIsIgnored()
    ensures var claims := Claims(Pairing, 1, 2, 3, 4, 5, Some(6), Some(7), 8, 9);
            var revoked := EmptyState.(devices := map[4 := Device(4, 5, 6, 0, Some(0))], accounts := map[6 := Account(6, [4], [], 0)]);
            && !IsDeviceActive(revoked, 4)
            && ConfirmPairing(EmptyStore.(state := revoked), claims, 10, 8).1 == Ok(Confirmation(6, 4, 2))
  {
  }
}
