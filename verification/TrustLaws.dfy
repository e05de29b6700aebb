/**
 What each operation of the trust store is for, on its maps: exactly when it succeeds, and what is
 different then.
 */
module TrustLaws {
  import opened Wrappers
  import opened TrustProtocol
  import opened TrustModel

  // ---- Signed challenges ---------------------------------------------------------------------

  /** The challenge is open, was issued for this purpose, has not expired, and its device signed it. */
  predicate Signed(s: Store, signed: SignedChallenge, purpose: Purpose, now: Millis) {
    && signed.challengeId in s.challenges
    && s.challenges[signed.challengeId].purpose == purpose
    && now < s.challenges[signed.challengeId].expiresAt
    && signed.signatureValid
  }

  /** All that an answer leaves that does not get past its challenge: the challenge is gone. */
  function Struck(s: Store, signed: SignedChallenge): Store {
    s.(challenges := s.challenges - {signed.challengeId})
  }

  /** The device that signs is one of the account's, and not revoked. */
  predicate ActsFor(s: Store, signed: SignedChallenge, account: Id)
    requires signed.challengeId in s.challenges
  {
    var device := s.challenges[signed.challengeId].deviceId;
    device in s.state.devices && s.state.devices[device].revokedAt == None && s.state.devices[device].accountId == account
  }

  lemma PairingTicketIsIssuedIff(cfg: Config, s: Store, signed: SignedChallenge, ticketId: Id, now: Millis)
    requires Complete(s)
    ensures var (t, answer) := IssuePairingTicket(cfg, s, signed, ticketId, now);
            && (answer.Ok? <==> Signed(s, signed, ToPair, now))
            && (answer.Err? ==> t == Struck(s, signed))
            && (answer.Ok? ==>
                  var c, devices := s.challenges[signed.challengeId], s.state.devices;
                  && answer.value == Claims(Pairing, ticketId, c.backendId.value, c.connectionId.value, c.deviceId, c.devicePublicKey,
                                            if c.deviceId in devices then Some(devices[c.deviceId].accountId) else None,
                                            c.pairId, now, now + cfg.ticketTtlMs)
                  && t == Struck(s, signed).(minted := s.minted[ticketId := answer.value], drawn := s.drawn + {ticketId}))
  {
  }

  lemma ConnectionTicketIsIssuedIff(cfg: Config, s: Store, signed: SignedChallenge, ticketId: Id, now: Millis)
    requires Complete(s)
    ensures var (t, answer) := IssueConnectionTicket(cfg, s, signed, ticketId, now);
            && (answer.Ok? <==>
                  && Signed(s, signed, ToConnect, now)
                  && var backend := s.challenges[signed.challengeId].backendId.value;
                     backend in s.state.backendOwners && ActsFor(s, signed, s.state.backendOwners[backend]))
            && (answer.Err? ==> t == Struck(s, signed))
            && (answer.Ok? ==>
                  var c := s.challenges[signed.challengeId];
                  && answer.value == Claims(Connection, ticketId, c.backendId.value, c.connectionId.value, s.state.devices[c.deviceId].deviceId,
                                            s.state.devices[c.deviceId].publicKey, Some(s.state.backendOwners[c.backendId.value]),
                                            None, now, now + cfg.ticketTtlMs)
                  && t == Struck(s, signed).(minted := s.minted[ticketId := answer.value], drawn := s.drawn + {ticketId}))
  {
  }

  lemma BackendsAreListedIff(s: Store, signed: SignedChallenge, now: Millis)
    requires Complete(s)
    ensures var (t, answer) := ListAuthorizedBackendIds(s, signed, now);
            && t == Struck(s, signed)
            && (answer.Ok? <==> Signed(s, signed, ToDiscover, now) && exists a :: ActsFor(s, signed, a))
            && forall a :: answer.Ok? && ActsFor(s, signed, a) ==> a in s.state.accounts && answer.value == s.state.accounts[a].backendIds
  {
    if Signed(s, signed, ToDiscover, now) && IsDeviceActive(s.state, s.challenges[signed.challengeId].deviceId) {
      assert ActsFor(s, signed, s.state.devices[s.challenges[signed.challengeId].deviceId].accountId);
    }
  }

  lemma InviteIsCreatedIff(cfg: Config, s: Store, signed: SignedChallenge, inviteId: Id, secret: Secret, now: Millis)
    ensures var (t, answer) := CreateDeviceInvite(cfg, s, signed, inviteId, secret, now);
            && (answer.Ok? <==> Signed(s, signed, ToCreateInvite, now) && exists a :: ActsFor(s, signed, a))
            && (answer.Err? ==> t == Struck(s, signed))
            && (answer.Ok? ==>
                  && answer.value == InviteCapability(inviteId, secret, now + DEVICE_INVITE_TTL_MS)
                  && inviteId in t.state.deviceInvites && ActsFor(s, signed, t.state.deviceInvites[inviteId].accountId)
                  && t.state.deviceInvites[inviteId].secretHash == cfg.hashSecret(secret)
                  && t.state.deviceInvites[inviteId].expiresAt == now + DEVICE_INVITE_TTL_MS
                  && t == Struck(s, signed).(drawn := s.drawn + {inviteId}, state := s.state.(
                            deviceInvites := s.state.deviceInvites[inviteId := t.state.deviceInvites[inviteId]])))
  {
    if Signed(s, signed, ToCreateInvite, now) && IsDeviceActive(s.state, s.challenges[signed.challengeId].deviceId) {
      assert ActsFor(s, signed, s.state.devices[s.challenges[signed.challengeId].deviceId].accountId);
    }
  }

  /** The challenge was for this invite, which is still open, and the secret is the one that was invited with. */
  predicate Invited(cfg: Config, s: Store, signed: SignedChallenge, inviteId: Id, secret: Secret, now: Millis)
    requires signed.challengeId in s.challenges
  {
    && s.challenges[signed.challengeId].pairId == Some(inviteId)
    && inviteId in s.state.deviceInvites
    && now < s.state.deviceInvites[inviteId].expiresAt
    && s.state.deviceInvites[inviteId].secretHash == cfg.hashSecret(secret)
  }

  /** A device joins the account that invited it exactly with a signature, the secret and no account yet. */
  lemma DeviceJoinsIff(cfg: Config, s: Store, signed: SignedChallenge, inviteId: Id, secret: Secret, now: Millis)
    ensures var (t, answer) := AcceptDeviceInvite(cfg, s, signed, inviteId, secret, now);
            && (answer.Ok? <==>
                  && Signed(s, signed, ToAcceptInvite, now) && Invited(cfg, s, signed, inviteId, secret, now)
                  && s.challenges[signed.challengeId].deviceId !in s.state.devices
                  && s.state.deviceInvites[inviteId].accountId in s.state.accounts)
            && (answer.Err? ==> t == Struck(s, signed))
            && (answer.Ok? ==>
                  var c, account := s.challenges[signed.challengeId], s.state.deviceInvites[inviteId].accountId;
                  var joined := s.state.accounts[account];
                  && answer.value == Acceptance(joined.accountId, c.deviceId)
                  && t == Struck(s, signed).(state := s.state.(
                            accounts := s.state.accounts[account := joined.(deviceIds := joined.deviceIds + [c.deviceId])],
                            devices := s.state.devices[c.deviceId := Device(c.deviceId, c.devicePublicKey, joined.accountId, now, None)],
                            deviceInvites := s.state.deviceInvites - {inviteId})))
  {
  }

  lemma DeviceIsRevokedIff(s: Store, signed: SignedChallenge, now: Millis)
    requires Complete(s)
    ensures var (t, answer) := RevokeDevice(s, signed, now);
            && (answer.Ok? <==>
                  && Signed(s, signed, ToRevokeDevice, now)
                  && var target := s.challenges[signed.challengeId].targetDeviceId.value;
                     target in s.state.devices && ActsFor(s, signed, s.state.devices[target].accountId))
            && (answer.Err? ==> t == Struck(s, signed))
            && (answer.Ok? ==>
                  var target := s.challenges[signed.challengeId].targetDeviceId.value;
                  var device := s.state.devices[target];
                  && answer.value == RevocationResult(device.accountId, Some(device.deviceId), None)
                  && t == Struck(s, signed).(state := s.state.(devices := s.state.devices[target := device.(revokedAt := Some(now))])))
  {
  }

  lemma BackendIsRevokedIff(s: Store, signed: SignedChallenge, now: Millis)
    requires Complete(s)
    ensures var (t, answer) := RevokeBackend(s, signed, now);
            && (answer.Ok? <==>
                  && Signed(s, signed, ToRevokeBackend, now)
                  && var backend := s.challenges[signed.challengeId].backendId.value;
                     backend in s.state.backendOwners && ActsFor(s, signed, s.state.backendOwners[backend]))
            && (answer.Err? ==> t == Struck(s, signed))
            && (answer.Ok? ==>
                  var backend := s.challenges[signed.challengeId].backendId.value;
                  var owner := s.state.backendOwners[backend];
                  && answer.value == RevocationResult(owner, None, Some(backend))
                  && owner in t.state.accounts
                  && (forall b :: b in t.state.accounts[owner].backendIds <==> b in s.state.accounts[owner].backendIds && b != backend)
                  && t == Struck(s, signed).(state := s.state.(
                            backendOwners := s.state.backendOwners - {backend},
                            backendRevocations := s.state.backendRevocations[backend := Revocation(owner, now)],
                            accounts := s.state.accounts[owner := s.state.accounts[owner].(backendIds := t.state.accounts[owner].backendIds)])))
  {
  }

  // ---- Creating challenges -------------------------------------------------------------------

  /** The fields that a request of its purpose must have; an invite must be there and open. */
  predicate ContextGiven(s: Store, r: ChallengeRequest, now: Millis) {
    match r.purpose
    case ToPair => r.backendId.Some? && r.connectionId.Some? && r.pairId.Some?
    case ToConnect => r.backendId.Some? && r.connectionId.Some?
    case ToAcceptInvite =>
      r.pairId.Some? && r.pairId.value in s.state.deviceInvites && now < s.state.deviceInvites[r.pairId.value].expiresAt
    case ToRevokeDevice => r.backendId.Some? && r.targetDeviceId.Some?
    case ToRevokeBackend => r.backendId.Some?
    case ToDiscover => true
    case ToCreateInvite => true
    case UnknownPurpose => false
  }

  /**
   The request speaks for this device and key: it names a known, active device and no other key than its own;
   or, to pair or to join, it brings the key of which the device's id is the fingerprint.
   */
  predicate SpeaksFor(cfg: Config, s: Store, r: ChallengeRequest, device: Id, key: PublicKey) {
    if r.deviceId == Some(device) && device in s.state.devices then
      && s.state.devices[device].revokedAt == None && s.state.devices[device].publicKey == key
      && (r.devicePublicKey == None || r.devicePublicKey == Some(key))
    else
      && r.purpose in {ToPair, ToAcceptInvite} && (r.deviceId == None || r.deviceId == Some(device))
      && r.devicePublicKey == Some(key) && cfg.deriveDeviceId(key) == Some(device)
  }

  /** Devices are stored under their own ids. */
  predicate DevicesNamed(s: Store) {
    forall d | d in s.state.devices :: s.state.devices[d].deviceId == d
  }

  lemma ChallengeIsCreatedIff(cfg: Config, s: Store, r: ChallengeRequest, challengeId: Id, now: Millis)
    requires DevicesNamed(s)
    ensures var (t, answer) := CreateChallenge(cfg, s, r, challengeId, now);
            && (answer.Ok? <==> ContextGiven(s, r, now) && exists d, k :: SpeaksFor(cfg, s, r, d, k))
            && (answer.Ok? ==>
                  var c := answer.value;
                  && SpeaksFor(cfg, s, r, c.deviceId, c.devicePublicKey)
                  && c == Challenge(challengeId, r.purpose, c.deviceId, c.devicePublicKey, r.backendId, r.connectionId, r.pairId,
                                    r.targetDeviceId, now + cfg.challengeTtlMs)
                  && challengeId in t.challenges && t.challenges[challengeId] == c && t.drawn == s.drawn + {challengeId})
            && (answer.Err? ==> t.drawn == s.drawn)
            && t.minted == s.minted && t.state == s.state.(deviceInvites := t.state.deviceInvites, usedTickets := t.state.usedTickets)
            && (forall id | !(answer.Ok? && id == challengeId) ::
                  id in t.challenges <==> id in s.challenges && now < s.challenges[id].expiresAt)
            && (forall id | id in t.challenges && !(answer.Ok? && id == challengeId) :: t.challenges[id] == s.challenges[id])
  {
    var answer := CreateChallenge(cfg, s, r, challengeId, now).1;
    if answer.Ok? { assert SpeaksFor(cfg, s, r, answer.value.deviceId, answer.value.devicePublicKey); }
  }

  // ---- Tickets -------------------------------------------------------------------------------

  /** The check at `verifiedAt`, the pruning at `prunedAt`, and the use that is recorded. */
  lemma TicketPassesIff(s: Store, ticket: Claims, verifiedAt: Millis, prunedAt: Millis)
    ensures var (t, answer) := ConsumeRouteTicket(s, ticket, verifiedAt, prunedAt);
            && (answer.Ok? <==>
                  && ticket.ticketId in s.minted && s.minted[ticket.ticketId] == ticket
                  && ticket.issuedAt < ticket.expiresAt && ticket.issuedAt <= verifiedAt + MAX_ISSUE_SKEW_MS
                  && verifiedAt < ticket.expiresAt
                  && (ticket.ticketId in s.state.usedTickets ==> s.state.usedTickets[ticket.ticketId] <= prunedAt))
            && (answer.Ok? ==>
                  && answer.value == ticket
                  && ticket.ticketId in t.state.usedTickets && t.state.usedTickets[ticket.ticketId] == ticket.expiresAt
                  && forall id | id != ticket.ticketId ::
                       && (id in t.state.usedTickets <==> id in s.state.usedTickets && prunedAt < s.state.usedTickets[id])
                       && (id in t.state.usedTickets ==> t.state.usedTickets[id] == s.state.usedTickets[id]))
            && t.minted == s.minted && t.drawn == s.drawn
            && t.state == s.state.(usedTickets := t.state.usedTickets, deviceInvites := t.state.deviceInvites)
  {
  }

  // ---- Pairing -------------------------------------------------------------------------------

  /** The account that a first confirmation is for: the ticket's, else the backend's owner, else a new one. */
  function AccountFor(s: Store, claims: Claims, drawnAccount: Id): Id {
    match claims.accountId
    case Some(account) => account
    case None => if claims.backendId in s.state.backendOwners then s.state.backendOwners[claims.backendId] else drawnAccount
  }

  /** The account owns the backend, the device is one of its devices, and the completion is on record. */
  ghost predicate Paired(s: Store, t: Store, claims: Claims, account: Id, now: Millis) {
    var before := if account in s.state.accounts then s.state.accounts[account] else Account(account, [], [], now);
    && claims.pairId.Some?
    && t.state.backendOwners == s.state.backendOwners[claims.backendId := account]
    && t.state.backendRevocations == s.state.backendRevocations - {claims.backendId}
    && t.state.devices == (if claims.deviceId in s.state.devices then s.state.devices
                           else s.state.devices[claims.deviceId := Device(claims.deviceId, claims.devicePublicKey, account, now, None)])
    && t.state.pairingCompletions == s.state.pairingCompletions[
         claims.pairId.value := Completion(claims.pairId.value, claims.ticketId, account, claims.deviceId, claims.backendId, now)]
    && account in t.state.accounts && t.state.accounts == s.state.accounts[account := t.state.accounts[account]]
    && t.state.accounts[account].accountId == before.accountId && t.state.accounts[account].createdAt == before.createdAt
    && (forall d :: d in t.state.accounts[account].deviceIds <==> d in before.deviceIds || d == claims.deviceId)
    && (forall b :: b in t.state.accounts[account].backendIds <==> b in before.backendIds || b == claims.backendId)
    && t.challenges == s.challenges && t.minted == s.minted
    && t.state.deviceInvites == s.state.deviceInvites && t.state.usedTickets == s.state.usedTickets
  }

  /** A new pairing succeeds exactly for an unowned backend or its owner, and for a new device or one of that account. */
  lemma PairingSucceedsIff(s: Store, claims: Claims, drawnAccount: Id, now: Millis)
    requires claims.pairId.Some? && claims.pairId.value !in s.state.pairingCompletions
    ensures var (t, answer) := ConfirmPairing(s, claims, drawnAccount, now);
            var owners, devices := s.state.backendOwners, s.state.devices;
            && (answer.Ok? <==>
                  && claims.kind == Pairing
                  && (claims.backendId in owners && claims.accountId.Some? ==> owners[claims.backendId] == claims.accountId.value)
                  && (claims.deviceId in devices ==>
                        && (devices[claims.deviceId].revokedAt == None || devices[claims.deviceId].revokedAt == Some(0))
                        && devices[claims.deviceId].publicKey == claims.devicePublicKey
                        && claims.accountId == Some(devices[claims.deviceId].accountId)))
            && (answer.Err? ==> t == s)
            && (answer.Ok? ==> Paired(s, t, claims, AccountFor(s, claims, drawnAccount), now)
                               && answer.value == Confirmation(AccountFor(s, claims, drawnAccount), claims.deviceId, claims.backendId))
  {
    var account, t := AccountFor(s, claims, drawnAccount), ConfirmPairing(s, claims, drawnAccount, now).0;
    assert account == PairingAccount(s.state, claims, drawnAccount);
    if t != s { GrantPairs(s, t, claims, account, now); }
  }

  lemma GrantPairs(s: Store, t: Store, claims: Claims, account: Id, now: Millis)
    requires claims.pairId.Some?
    requires t == s.(state := Grant(s.state, claims, account, claims.pairId.value, now), drawn := t.drawn)
    ensures Paired(s, t, claims, account, now)
  {
  }
}
