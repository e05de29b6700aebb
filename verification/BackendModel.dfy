/**
 What the backend's own trust store does to its state, and what `authorize` does up to its one
 suspension point and from there on.
 */
module BackendModel {
  import opened Wrappers
  import opened TrustProtocol

  const MAX_PAIRING_TTL_MS: Millis := 15 * 60_000

  datatype StoredPairing = StoredPairing(pairId: Id, secretHash: Digest, expiresAt: Millis, usedAt: Option<Millis>)

  datatype State = State(
    owner: Option<Id>,
    pairings: map<Id, StoredPairing>,
    usedTickets: map<Id, Millis>,
    revokedDevices: map<Id, Millis>)

  const EmptyState := State(None, map[], map[], map[])

  datatype BackendError =
    | BadLifetime
    | TicketUsed
    | NotTheOwner
    | DeviceRevoked
    | SecretRequired
    | PairingGone
    | WrongSecret
    | NoConfirmation
    | WrongConfirmation
    | OwnedByAnother

  datatype Capability = Capability(pairId: Id, secret: Secret, expiresAt: Millis)
  datatype Authorization = Authorization(accountId: Id, deviceId: Id)
  datatype Confirmation = Confirmation(pairId: Id, accountId: Id, deviceId: Id)

  // ---- The trust store -----------------------------------------------------------------------

  function PrunePairings(pairings: map<Id, StoredPairing>, now: Millis): map<Id, StoredPairing> {
    map p | p in pairings && pairings[p].expiresAt > now :: pairings[p]
  }

  function PruneTickets(usedTickets: map<Id, Millis>, now: Millis): map<Id, Millis> {
    map t | t in usedTickets && usedTickets[t] > now :: usedTickets[t]
  }

  function Prune(s: State, now: Millis): State {
    s.(pairings := PrunePairings(s.pairings, now), usedTickets := PruneTickets(s.usedTickets, now))
  }

  function CreatePairing(hashSecret: Secret -> Digest, s: State, ttlMs: int, pairId: Id, secret: Secret, now: Millis)
    : (State, Result<Capability, BackendError>)
  {
    if ttlMs <= 0 || ttlMs > MAX_PAIRING_TTL_MS then (s, Err(BadLifetime))
    else
      var p := Prune(s, now);
      (p.(pairings := p.pairings[pairId := StoredPairing(pairId, hashSecret(secret), now + ttlMs, None)]),
       Ok(Capability(pairId, secret, now + ttlMs)))
  }

  function ConsumePairing(hashSecret: Secret -> Digest, s: State, pairId: Id, secret: Secret, now: Millis)
    : (State, Option<BackendError>)
  {
    if pairId !in s.pairings || s.pairings[pairId].expiresAt <= now || s.pairings[pairId].usedAt.Some? then (s, Some(PairingGone))
    else if hashSecret(secret) != s.pairings[pairId].secretHash then (s, Some(WrongSecret))
    else (s.(pairings := s.pairings[pairId := s.pairings[pairId].(usedAt := Some(now))]), None)
  }

  /** The verdict on a ticket; `s` is pruned already. */
  function TicketError(s: State, claims: Claims): Option<BackendError> {
    if claims.ticketId in s.usedTickets then Some(TicketUsed)
    else if claims.kind.Connection? then
      if claims.accountId.None? || claims.accountId != s.owner then Some(NotTheOwner)
      else if claims.deviceId in s.revokedDevices then Some(DeviceRevoked)
      else None
    else None
  }

  function MarkTicketUsed(s: State, claims: Claims): (State, Option<BackendError>) {
    if claims.ticketId in s.usedTickets then (s, Some(TicketUsed))
    else (s.(usedTickets := s.usedTickets[claims.ticketId := claims.expiresAt]), None)
  }

  function CompletePairing(s: State, accountId: Id): (State, Option<BackendError>) {
    if s.owner.Some? && s.owner != Some(accountId) then (s, Some(OwnedByAnother))
    else (s.(owner := Some(accountId)), None)
  }

  function ApplyRevocation(s: State, accountId: Id, deviceId: Option<Id>, now: Millis): State {
    if s.owner != Some(accountId) then s
    else if deviceId.Some? then s.(revokedDevices := s.revokedDevices[deviceId.value := now])
    else s.(owner := None)
  }

  // ---- Authorizing a connection --------------------------------------------------------------

  /** A call either waits for the rendezvous to confirm its pairing, or is over. */
  datatype Progress = Waiting | Over(result: Result<Authorization, BackendError>)

  /**
   `authorize` up to the point where it waits, or to its end. The clock is read at `prunedAt` for
   the ticket check, then at `now` for the pairing.
   */
  function Begin(hashSecret: Secret -> Digest, s: State, claims: Claims, secret: Option<Secret>, prunedAt: Millis, now: Millis)
    : (State, Progress)
  {
    var p := Prune(s, prunedAt);
    var bad := TicketError(p, claims);
    if bad.Some? then (p, Over(Err(bad.value)))
    else if claims.kind.Pairing? then
      if claims.pairId.None? || secret.None? then (p, Over(Err(SecretRequired)))
      else match ConsumePairing(hashSecret, p, claims.pairId.value, secret.value, now)
        case (t, Some(e)) => (t, Over(Err(e)))
        case (t, None) => (t, Waiting)
    else
      match MarkTicketUsed(p, claims)
      case (t, Some(e)) => (t, Over(Err(e)))
      case (t, None) => (t, Over(Ok(Authorization(claims.accountId.value, claims.deviceId))))
  }

  /** The rest of `authorize`, on the rendezvous' answer; `None` when the rendezvous refused. */
  function Finish(s: State, claims: Claims, answer: Option<Confirmation>): (State, Result<Authorization, BackendError>) {
    if answer.None? then (s, Err(NoConfirmation))
    else if Some(answer.value.pairId) != claims.pairId || answer.value.deviceId != claims.deviceId then (s, Err(WrongConfirmation))
    else match CompletePairing(s, answer.value.accountId)
      case (t, Some(e)) => (t, Err(e))
      case (t, None) =>
        match MarkTicketUsed(t, claims)
        case (u, Some(e)) => (u, Err(e))
        case (u, None) => (u, Ok(Authorization(answer.value.accountId, claims.deviceId)))
  }
}
