/**
 The backend's trust store and authorizer as the program runs them, proved step by step against
 `BackendModel`.
 */
module BackendAuthorizer {
  import opened Wrappers
  import opened TrustProtocol
  import Model = BackendModel
  import opened BackendModel

  class BackendTrustStore {
    const hashSecret: Secret -> Digest
    var ownerAccountId: Option<Id>
    var pairings: map<Id, StoredPairing>
    var usedTickets: map<Id, Millis>
    var revokedDevices: map<Id, Millis>

    ghost function View(): State
      reads this
    {
      State(ownerAccountId, pairings, usedTickets, revokedDevices)
    }

    constructor (hashSecret: Secret -> Digest)
      ensures this.hashSecret == hashSecret && View() == EmptyState
    {
      this.hashSecret := hashSecret;
      ownerAccountId := None;
      pairings, usedTickets, revokedDevices := map[], map[], map[];
    }

    method Prune(now: Millis)
      modifies this`pairings, this`usedTickets
      ensures View() == Model.Prune(old(View()), now)
    {
      ForgetPairings(now);
      ForgetTickets(now);
    }

    method ForgetPairings(now: Millis)
      modifies this`pairings
      ensures pairings == PrunePairings(old(pairings), now)
    {
      var left := pairings.Keys;
      while left != {}
        invariant left <= pairings.Keys
        invariant forall p :: p in pairings <==> p in old(pairings) && (p in left || old(pairings)[p].expiresAt > now)
        invariant forall p | p in pairings :: pairings[p] == old(pairings)[p]
        decreases left
      {
        var p :| p in left;
        if pairings[p].expiresAt <= now { pairings := pairings - {p}; }
        left := left - {p};
      }
    }

    method ForgetTickets(now: Millis)
      modifies this`usedTickets
      ensures usedTickets == PruneTickets(old(usedTickets), now)
    {
      var left := usedTickets.Keys;
      while left != {}
        invariant left <= usedTickets.Keys
        invariant forall t :: t in usedTickets <==> t in old(usedTickets) && (t in left || old(usedTickets)[t] > now)
        invariant forall t | t in usedTickets :: usedTickets[t] == old(usedTickets)[t]
        decreases left
      {
        var t :| t in left;
        if usedTickets[t] <= now { usedTickets := usedTickets - {t}; }
        left := left - {t};
      }
    }

    method CreatePairing(ttlMs: int, pairId: Id, secret: Secret, now: Millis) returns (r: Result<Capability, BackendError>)
      modifies this`pairings, this`usedTickets
      ensures (View(), r) == Model.CreatePairing(hashSecret, old(View()), ttlMs, pairId, secret, now)
    {
      if ttlMs <= 0 || ttlMs > MAX_PAIRING_TTL_MS { return Err(BadLifetime); }
      Prune(now);
      pairings := pairings[pairId := StoredPairing(pairId, hashSecret(secret), now + ttlMs, None)];
      return Ok(Capability(pairId, secret, now + ttlMs));
    }

    method ConsumePairing(pairId: Id, secret: Secret, now: Millis) returns (error: Option<BackendError>)
      modifies this`pairings
      ensures (View(), error) == Model.ConsumePairing(hashSecret, old(View()), pairId, secret, now)
    {
      if pairId !in pairings || pairings[pairId].expiresAt <= now || pairings[pairId].usedAt.Some? { return Some(PairingGone); }
      if hashSecret(secret) != pairings[pairId].secretHash { return Some(WrongSecret); }
      pairings := pairings[pairId := pairings[pairId].(usedAt := Some(now))];
      return None;
    }

    method AuthorizeTicket(claims: Claims, now: Millis) returns (error: Option<BackendError>)
      modifies this`pairings, this`usedTickets
      ensures View() == Model.Prune(old(View()), now) && error == TicketError(View(), claims)
    {
      Prune(now);
      if claims.ticketId in usedTickets { return Some(TicketUsed); }
      if claims.kind.Connection? {
        if claims.accountId.None? || claims.accountId != ownerAccountId { return Some(NotTheOwner); }
        if claims.deviceId in revokedDevices { return Some(DeviceRevoked); }
      }
      return None;
    }

    method MarkTicketUsed(claims: Claims) returns (error: Option<BackendError>)
      modifies this`usedTickets
      ensures (View(), error) == Model.MarkTicketUsed(old(View()), claims)
    {
      if claims.ticketId in usedTickets { return Some(TicketUsed); }
      usedTickets := usedTickets[claims.ticketId := claims.expiresAt];
      return None;
    }

    method CompletePairing(accountId: Id) returns (error: Option<BackendError>)
      modifies this`ownerAccountId
      ensures (View(), error) == Model.CompletePairing(old(View()), accountId)
    {
      if ownerAccountId.Some? && ownerAccountId != Some(accountId) { return Some(OwnedByAnother); }
      ownerAccountId := Some(accountId);
      return None;
    }

    method ApplyRevocation(accountId: Id, deviceId: Option<Id>, now: Millis)
      modifies this`ownerAccountId, this`revokedDevices
      ensures View() == Model.ApplyRevocation(old(View()), accountId, deviceId, now)
    {
      if ownerAccountId != Some(accountId) { return; }
      if deviceId.Some? {
        revokedDevices := revokedDevices[deviceId.value := now];
      } else {
        ownerAccountId := None;
      }
    }
  }

  class BackendConnectionAuthorizer {
    const trustStore: BackendTrustStore

    constructor (trustStore: BackendTrustStore)
      ensures this.trustStore == trustStore
    {
      this.trustStore := trustStore;
    }

    /** `authorize` until it waits for the rendezvous, or to its end. */
    method Begin(claims: Claims, secret: Option<Secret>, prunedAt: Millis, now: Millis) returns (progress: Progress)
      modifies trustStore
      ensures (trustStore.View(), progress) == Model.Begin(trustStore.hashSecret, old(trustStore.View()), claims, secret, prunedAt, now)
    {
      var bad := trustStore.AuthorizeTicket(claims, prunedAt);
      if bad.Some? { return Over(Err(bad.value)); }
      if claims.kind.Pairing? {
        if claims.pairId.None? || secret.None? { return Over(Err(SecretRequired)); }
        var refused := trustStore.ConsumePairing(claims.pairId.value, secret.value, now);
        return if refused.Some? then Over(Err(refused.value)) else Waiting;
      }
      var used := trustStore.MarkTicketUsed(claims);
      return if used.Some? then Over(Err(used.value)) else Over(Ok(Authorization(claims.accountId.value, claims.deviceId)));
    }

    /** The rest of `authorize`, once the rendezvous answered. */
    method Finish(claims: Claims, answer: Option<Confirmation>) returns (r: Result<Authorization, BackendError>)
      modifies trustStore
      ensures (trustStore.View(), r) == Model.Finish(old(trustStore.View()), claims, answer)
    {
      if answer.None? { return Err(NoConfirmation); }
      var confirmation := answer.value;
      if Some(confirmation.pairId) != claims.pairId || confirmation.deviceId != claims.deviceId { return Err(WrongConfirmation); }
      var refused := trustStore.CompletePairing(confirmation.accountId);
      if refused.Some? { return Err(refused.value); }
      var used := trustStore.MarkTicketUsed(claims);
      return if used.Some? then Err(used.value) else Ok(Authorization(confirmation.accountId, claims.deviceId));
    }
  }
}
