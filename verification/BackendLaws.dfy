/**
 What each operation of the backend's authorizer is for, on its store: exactly when it succeeds, and what
 is different then.
 */
module BackendLaws {
  import opened Wrappers
  import opened TrustProtocol
  import opened BackendModel

  /** What has expired is forgotten, and nothing else. */
  ghost predicate Pruned<V>(before: map<Id, V>, after: map<Id, V>, expiresAt: V -> Millis, now: Millis) {
    && (forall k :: k in after <==> k in before && now < expiresAt(before[k]))
    && (forall k | k in after :: after[k] == before[k])
  }

  /** The ticket is not on record as used, or only until the pruning. */
  predicate Unused(s: State, claims: Claims, prunedAt: Millis) {
    claims.ticketId in s.usedTickets ==> s.usedTickets[claims.ticketId] <= prunedAt
  }

  /** A connection is granted at once, exactly to an unrevoked device of the owner with a ticket not used before. */
  lemma ConnectionIsGrantedIff(
    hashSecret: Secret -> Digest, s: State, claims: Claims, presented: Option<Secret>, prunedAt: Millis, now: Millis)
    requires claims.kind.Connection?
    ensures var (t, progress) := Begin(hashSecret, s, claims, presented, prunedAt, now);
            && t.owner == s.owner && t.revokedDevices == s.revokedDevices
            && Pruned(s.pairings, t.pairings, (p: StoredPairing) => p.expiresAt, prunedAt)
            && if && claims.accountId.Some? && s.owner == claims.accountId && claims.deviceId !in s.revokedDevices
                  && Unused(s, claims, prunedAt)
               then
                 && progress == Over(Ok(Authorization(claims.accountId.value, claims.deviceId)))
                 && claims.ticketId in t.usedTickets && t.usedTickets[claims.ticketId] == claims.expiresAt
                 && Pruned(s.usedTickets - {claims.ticketId}, t.usedTickets - {claims.ticketId}, (at: Millis) => at, prunedAt)
               else progress.Over? && progress.result.Err? && Pruned(s.usedTickets, t.usedTickets, (at: Millis) => at, prunedAt)
  {
  }

  /** The capability of the claims is there, unexpired and unused, and the secret is the one it was made with. */
  predicate Capable(hashSecret: Secret -> Digest, s: State, claims: Claims, presented: Option<Secret>, prunedAt: Millis, now: Millis) {
    && claims.pairId.Some? && presented.Some? && claims.pairId.value in s.pairings
    && var pairing := s.pairings[claims.pairId.value];
    && prunedAt < pairing.expiresAt && now < pairing.expiresAt && pairing.usedAt == None
    && pairing.secretHash == hashSecret(presented.value)
  }

  /** A pairing gets to wait exactly with such a capability, which is used up by that; else it is refused at once. */
  lemma PairingWaitsIff(
    hashSecret: Secret -> Digest, s: State, claims: Claims, presented: Option<Secret>, prunedAt: Millis, now: Millis)
    requires claims.kind.Pairing?
    ensures var (t, progress) := Begin(hashSecret, s, claims, presented, prunedAt, now);
            && t.owner == s.owner && t.revokedDevices == s.revokedDevices
            && Pruned(s.usedTickets, t.usedTickets, (at: Millis) => at, prunedAt)
            && if Unused(s, claims, prunedAt) && Capable(hashSecret, s, claims, presented, prunedAt, now) then
                 var p := claims.pairId.value;
                 && progress == Waiting && p in t.pairings && t.pairings[p] == s.pairings[p].(usedAt := Some(now))
                 && Pruned(s.pairings - {p}, t.pairings - {p}, (q: StoredPairing) => q.expiresAt, prunedAt)
               else
                 && progress.Over? && progress.result.Err?
                 && Pruned(s.pairings, t.pairings, (q: StoredPairing) => q.expiresAt, prunedAt)
  {
  }

  /** The answer names the pairing and the device that asked, and an account that may own the backend. */
  predicate Agrees(s: State, claims: Claims, answer: Option<Confirmation>) {
    && answer.Some? && Some(answer.value.pairId) == claims.pairId && answer.value.deviceId == claims.deviceId
    && (s.owner == None || s.owner == Some(answer.value.accountId))
  }

  /** The rest of a pairing: the confirmed account owns the backend, exactly if the answer agrees; its ticket is used then. */
  lemma PairingFinishesIff(s: State, claims: Claims, answer: Option<Confirmation>)
    requires claims.ticketId !in s.usedTickets
    ensures var (t, r) := Finish(s, claims, answer);
            if Agrees(s, claims, answer) then
              && r == Ok(Authorization(answer.value.accountId, claims.deviceId))
              && t == s.(owner := Some(answer.value.accountId), usedTickets := s.usedTickets[claims.ticketId := claims.expiresAt])
            else r.Err? && t == s
  {
  }

  /** A capability is made exactly for up to a quarter of an hour; it is stored with the hash of its secret, unused. */
  lemma CapabilityIsMadeIff(hashSecret: Secret -> Digest, s: State, ttlMs: int, pairId: Id, secret: Secret, now: Millis)
    ensures var (t, made) := CreatePairing(hashSecret, s, ttlMs, pairId, secret, now);
            if 0 < ttlMs <= 900_000 then
              && made == Ok(Capability(pairId, secret, now + ttlMs))
              && pairId in t.pairings && t.pairings[pairId] == StoredPairing(pairId, hashSecret(secret), now + ttlMs, None)
              && Pruned(s.pairings - {pairId}, t.pairings - {pairId}, (p: StoredPairing) => p.expiresAt, now)
              && Pruned(s.usedTickets, t.usedTickets, (at: Millis) => at, now)
              && t.owner == s.owner && t.revokedDevices == s.revokedDevices
            else made.Err? && t == s
  {
  }

  /** A revocation counts exactly when it comes from the owner: of one device, or of the whole ownership. */
  lemma RevocationAppliesIff(s: State, accountId: Id, deviceId: Option<Id>, now: Millis)
    ensures var t := ApplyRevocation(s, accountId, deviceId, now);
            if s.owner != Some(accountId) then t == s
            else match deviceId
              case Some(device) => t == s.(revokedDevices := s.revokedDevices[device := now])
              case None => t == s.(owner := None)
  {
  }
}
