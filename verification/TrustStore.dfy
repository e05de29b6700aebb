/**
 The trust store as the program runs it: two mutable fields, updated in place, step by step.
 Each method is proved against the function of the same name in `TrustModel`.
 */
module TrustStore {
  import opened Wrappers
  import opened TrustProtocol
  import Model = TrustModel
  import opened TrustModel

  class RendezvousTrustStore {
    const cfg: Config
    var state: State
    var challenges: map<Id, Challenge>
    /** What the private signing key stands for: the claims that were signed. */
    var minted: map<Id, Claims>
    ghost var drawn: set<Id>

    ghost function View(): Store
      reads this
    {
      Store(state, challenges, minted, drawn)
    }

    constructor (cfg: Config)
      ensures this.cfg == cfg && View() == EmptyStore
    {
      this.cfg := cfg;
      state := EmptyState;
      challenges := map[];
      minted := map[];
      drawn := {};
    }

    method Prune(now: Millis)
      modifies this
      ensures View() == Model.Prune(old(View()), now)
    {
      ForgetChallenges(now);
      ForgetInvites(now);
      ForgetTickets(now);
    }

    method ForgetChallenges(now: Millis)
      modifies this
      ensures View() == old(View()).(challenges := PruneChallenges(old(challenges), now))
    {
      var ids := challenges.Keys;
      while ids != {}
        invariant challenges.Keys <= old(challenges).Keys && ids <= challenges.Keys
        invariant forall id :: id in challenges <==> id in old(challenges) && (id in ids || old(challenges)[id].expiresAt > now)
        invariant forall id | id in challenges :: challenges[id] == old(challenges)[id]
        invariant state == old(state) && minted == old(minted) && drawn == old(drawn)
        decreases ids
      {
        var id :| id in ids;
        if challenges[id].expiresAt <= now { challenges := challenges - {id}; }
        ids := ids - {id};
      }
      assert challenges == PruneChallenges(old(challenges), now);
    }

    method ForgetInvites(now: Millis)
      modifies this
      ensures View() == old(View()).(state := old(state).(deviceInvites := PruneInvites(old(state).deviceInvites, now)))
    {
      var ids := state.deviceInvites.Keys;
      while ids != {}
        invariant ids <= state.deviceInvites.Keys
        invariant forall id :: id in state.deviceInvites
                    <==> id in old(state).deviceInvites && (id in ids || old(state).deviceInvites[id].expiresAt > now)
        invariant forall id | id in state.deviceInvites :: state.deviceInvites[id] == old(state).deviceInvites[id]
        invariant state == old(state).(deviceInvites := state.deviceInvites)
        invariant challenges == old(challenges) && minted == old(minted) && drawn == old(drawn)
        decreases ids
      {
        var id :| id in ids;
        if state.deviceInvites[id].expiresAt <= now { state := state.(deviceInvites := state.deviceInvites - {id}); }
        ids := ids - {id};
      }
      assert state.deviceInvites == PruneInvites(old(state).deviceInvites, now);
    }

    method ForgetTickets(now: Millis)
      modifies this
      ensures View() == old(View()).(state := old(state).(usedTickets := PruneTickets(old(state).usedTickets, now)))
    {
      var ids := state.usedTickets.Keys;
      while ids != {}
        invariant ids <= state.usedTickets.Keys
        invariant forall id :: id in state.usedTickets
                    <==> id in old(state).usedTickets && (id in ids || old(state).usedTickets[id] > now)
        invariant forall id | id in state.usedTickets :: state.usedTickets[id] == old(state).usedTickets[id]
        invariant state == old(state).(usedTickets := state.usedTickets)
        invariant challenges == old(challenges) && minted == old(minted) && drawn == old(drawn)
        decreases ids
      {
        var id :| id in ids;
        if state.usedTickets[id] <= now { state := state.(usedTickets := state.usedTickets - {id}); }
        ids := ids - {id};
      }
      assert state.usedTickets == PruneTickets(old(state).usedTickets, now);
    }

    method CreateChallenge(r: ChallengeRequest, challengeId: Id, now: Millis) returns (a: Answer<Challenge>)
      modifies this
      ensures (View(), a) == Model.CreateChallenge(cfg, old(View()), r, challengeId, now)
    {
      Prune(now);
      var bad := ContextError(state, r);
      if bad.Some? { return Err(bad.value); }
      var identity := ResolveIdentity(cfg, state, r);
      if identity.Err? { return Err(identity.error); }
      var c := Challenge(challengeId, r.purpose, identity.value.0, identity.value.1,
                         r.backendId, r.connectionId, r.pairId, r.targetDeviceId, now + cfg.challengeTtlMs);
      drawn := drawn + {challengeId};
      challenges := challenges[challengeId := c];
      return Ok(c);
    }

    method ConsumeChallenge(signed: SignedChallenge, purpose: Purpose, now: Millis) returns (a: Answer<Challenge>)
      modifies this
      ensures (View(), a) == Model.ConsumeChallenge(old(View()), signed, purpose, now)
    {
      var found := if signed.challengeId in challenges then Some(challenges[signed.challengeId]) else None;
      challenges := challenges - {signed.challengeId};
      if found.None? || found.value.expiresAt <= now { return Err(ChallengeMissing); }
      if found.value.purpose != purpose { return Err(WrongPurpose); }
      if !signed.signatureValid { return Err(BadSignature); }
      return Ok(found.value);
    }

    method IssuePairingTicket(signed: SignedChallenge, ticketId: Id, now: Millis) returns (a: Answer<Claims>)
      requires Complete(View())
      modifies this
      ensures (View(), a) == Model.IssuePairingTicket(cfg, old(View()), signed, ticketId, now)
    {
      var c := ConsumeChallenge(signed, ToPair, now);
      if c.Err? { return Err(c.error); }
      var challenge := c.value;
      var accountId := if challenge.deviceId in state.devices then Some(state.devices[challenge.deviceId].accountId) else None;
      var claims := Claims(Pairing, ticketId, challenge.backendId.value, challenge.connectionId.value, challenge.deviceId,
                           challenge.devicePublicKey, accountId, challenge.pairId, now, now + cfg.ticketTtlMs);
      Sign(claims);
      return Ok(claims);
    }

    method IssueConnectionTicket(signed: SignedChallenge, ticketId: Id, now: Millis) returns (a: Answer<Claims>)
      requires Complete(View())
      modifies this
      ensures (View(), a) == Model.IssueConnectionTicket(cfg, old(View()), signed, ticketId, now)
    {
      var c := ConsumeChallenge(signed, ToConnect, now);
      if c.Err? { return Err(c.error); }
      if !IsDeviceActive(state, c.value.deviceId) { return Err(UnknownOrRevokedDevice); }
      var device := state.devices[c.value.deviceId];
      if BackendOwner(state, c.value.backendId.value) != Some(device.accountId) { return Err(NotAuthorized); }
      var claims := Claims(Connection, ticketId, c.value.backendId.value, c.value.connectionId.value, device.deviceId,
                           device.publicKey, Some(device.accountId), None, now, now + cfg.ticketTtlMs);
      Sign(claims);
      return Ok(claims);
    }

    method Sign(claims: Claims)
      modifies this
      ensures View() == Mint(old(View()), claims)
    {
      drawn := drawn + {claims.ticketId};
      minted := minted[claims.ticketId := claims];
    }

    method ConsumeRouteTicket(ticket: Claims, verifiedAt: Millis, now: Millis) returns (a: Answer<Claims>)
      modifies this
      ensures (View(), a) == Model.ConsumeRouteTicket(old(View()), ticket, verifiedAt, now)
    {
      if ticket.ticketId !in minted || minted[ticket.ticketId] != ticket || ticket.expiresAt <= ticket.issuedAt { return Err(BadTicket); }
      if ticket.expiresAt <= verifiedAt { return Err(TicketExpired); }
      if ticket.issuedAt > verifiedAt + MAX_ISSUE_SKEW_MS { return Err(BadTicket); }
      Prune(now);
      if ticket.ticketId in state.usedTickets { return Err(TicketUsed); }
      state := state.(usedTickets := state.usedTickets[ticket.ticketId := ticket.expiresAt]);
      return Ok(ticket);
    }

    method ConfirmPairing(claims: Claims, drawnAccount: Id, now: Millis) returns (a: Answer<Confirmation>)
      modifies this
      ensures (View(), a) == Model.ConfirmPairing(old(View()), claims, drawnAccount, now)
    {
      if claims.kind != Pairing || claims.pairId.None? { return Err(NotPairing); }
      var pairId := claims.pairId.value;
      if pairId in state.pairingCompletions {
        var prior := state.pairingCompletions[pairId];
        if prior.ticketId != claims.ticketId { return Err(PairingUsed); }
        return Ok(Confirmation(prior.accountId, prior.deviceId, prior.backendId));
      }

      var currentOwner := BackendOwner(state, claims.backendId);
      var accountId := if claims.accountId.Some? then claims.accountId else currentOwner;
      if claims.accountId.Some? && currentOwner.Some? && claims.accountId != currentOwner { return Err(OwnedByAnother); }
      var existing := if claims.deviceId in state.devices then Some(state.devices[claims.deviceId]) else None;
      if existing.Some? && CountsAsRevoked(existing.value) { return Err(DeviceRevoked); }
      if existing.Some? && existing.value.publicKey != claims.devicePublicKey { return Err(KeyMismatch); }
      if existing.Some? && claims.accountId != Some(existing.value.accountId) { return Err(AccountMismatch); }
      if accountId.None? { accountId := Some(drawnAccount); }
      var id := accountId.value;
      if existing.Some? && existing.value.accountId != id { return Err(AccountMismatch); }

      var account := if id in state.accounts then state.accounts[id] else Account(id, [], [], now);
      if claims.deviceId !in account.deviceIds { account := account.(deviceIds := account.deviceIds + [claims.deviceId]); }
      if claims.backendId !in account.backendIds { account := account.(backendIds := account.backendIds + [claims.backendId]); }
      state := state.(accounts := state.accounts[id := account]);
      if existing.None? {
        state := state.(devices := state.devices[claims.deviceId := Device(claims.deviceId, claims.devicePublicKey, id, now, None)]);
      }
      state := state.(backendOwners := state.backendOwners[claims.backendId := id]);
      state := state.(backendRevocations := state.backendRevocations - {claims.backendId});
      var completion := Completion(pairId, claims.ticketId, id, claims.deviceId, claims.backendId, now);
      state := state.(pairingCompletions := state.pairingCompletions[pairId := completion]);
      drawn := drawn + {drawnAccount};
      return Ok(Confirmation(id, claims.deviceId, claims.backendId));
    }

    method ListAuthorizedBackendIds(signed: SignedChallenge, now: Millis) returns (a: Answer<seq<Id>>)
      requires Complete(View())
      modifies this
      ensures (View(), a) == Model.ListAuthorizedBackendIds(old(View()), signed, now)
    {
      var c := ConsumeChallenge(signed, ToDiscover, now);
      if c.Err? { return Err(c.error); }
      if !IsDeviceActive(state, c.value.deviceId) { return Err(UnknownOrRevokedDevice); }
      return Ok(state.accounts[state.devices[c.value.deviceId].accountId].backendIds);
    }

    method CreateDeviceInvite(signed: SignedChallenge, inviteId: Id, secret: Secret, now: Millis) returns (a: Answer<InviteCapability>)
      modifies this
      ensures (View(), a) == Model.CreateDeviceInvite(cfg, old(View()), signed, inviteId, secret, now)
    {
      var c := ConsumeChallenge(signed, ToCreateInvite, now);
      if c.Err? { return Err(c.error); }
      if !IsDeviceActive(state, c.value.deviceId) { return Err(UnknownOrRevokedDevice); }
      var actor := state.devices[c.value.deviceId];
      var invite := Invite(inviteId, cfg.hashSecret(secret), actor.accountId, actor.deviceId, now, now + DEVICE_INVITE_TTL_MS);
      drawn := drawn + {inviteId};
      state := state.(deviceInvites := state.deviceInvites[inviteId := invite]);
      return Ok(InviteCapability(inviteId, secret, invite.expiresAt));
    }

    method AcceptDeviceInvite(signed: SignedChallenge, inviteId: Id, secret: Secret, now: Millis) returns (a: Answer<Acceptance>)
      modifies this
      ensures (View(), a) == Model.AcceptDeviceInvite(cfg, old(View()), signed, inviteId, secret, now)
    {
      var c := ConsumeChallenge(signed, ToAcceptInvite, now);
      if c.Err? { return Err(c.error); }
      var challenge := c.value;
      if challenge.pairId != Some(inviteId) { return Err(InviteMismatch); }
      if inviteId !in state.deviceInvites || state.deviceInvites[inviteId].expiresAt <= now { return Err(InviteMissing); }
      var invite := state.deviceInvites[inviteId];
      if cfg.hashSecret(secret) != invite.secretHash { return Err(BadInviteSecret); }
      if challenge.deviceId in state.devices {
        if state.devices[challenge.deviceId].accountId == invite.accountId { return Err(AlreadyMember); }
        return Err(ForeignDevice);
      }
      if invite.accountId !in state.accounts { return Err(AccountMissing); }
      var account := state.accounts[invite.accountId];
      account := account.(deviceIds := account.deviceIds + [challenge.deviceId]);
      state := state.(accounts := state.accounts[invite.accountId := account]);
      var device := Device(challenge.deviceId, challenge.devicePublicKey, account.accountId, now, None);
      state := state.(devices := state.devices[challenge.deviceId := device]);
      state := state.(deviceInvites := state.deviceInvites - {inviteId});
      return Ok(Acceptance(account.accountId, challenge.deviceId));
    }

    method RevokeDevice(signed: SignedChallenge, now: Millis) returns (a: Answer<RevocationResult>)
      requires Complete(View())
      modifies this
      ensures (View(), a) == Model.RevokeDevice(old(View()), signed, now)
    {
      var c := ConsumeChallenge(signed, ToRevokeDevice, now);
      if c.Err? { return Err(c.error); }
      if !IsDeviceActive(state, c.value.deviceId) { return Err(UnknownOrRevokedDevice); }
      var actor := state.devices[c.value.deviceId];
      var targetId := c.value.targetDeviceId.value;
      if targetId !in state.devices || state.devices[targetId].accountId != actor.accountId { return Err(AccountMismatch); }
      var target := state.devices[targetId].(revokedAt := Some(now));
      state := state.(devices := state.devices[targetId := target]);
      return Ok(RevocationResult(actor.accountId, Some(target.deviceId), None));
    }

    method RevokeBackend(signed: SignedChallenge, now: Millis) returns (a: Answer<RevocationResult>)
      requires Complete(View())
      modifies this
      ensures (View(), a) == Model.RevokeBackend(old(View()), signed, now)
    {
      var c := ConsumeChallenge(signed, ToRevokeBackend, now);
      if c.Err? { return Err(c.error); }
      if !IsDeviceActive(state, c.value.deviceId) { return Err(UnknownOrRevokedDevice); }
      var actor := state.devices[c.value.deviceId];
      var backendId := c.value.backendId.value;
      if BackendOwner(state, backendId) != Some(actor.accountId) { return Err(NotAuthorized); }
      state := state.(backendOwners := state.backendOwners - {backendId});
      state := state.(backendRevocations := state.backendRevocations[backendId := Revocation(actor.accountId, now)]);
      var account := state.accounts[actor.accountId];
      account := account.(backendIds := Without(account.backendIds, backendId));
      state := state.(accounts := state.accounts[actor.accountId := account]);
      return Ok(RevocationResult(actor.accountId, None, Some(backendId)));
    }
  }
}
