/**
 What each operation of the rendezvous trust store does to the stored state.

 Every operation is a function from the store before to the store after and the answer.
 `TrustStore.RendezvousTrustStore` implements these functions step by step.
 */
module TrustModel {
  import opened Wrappers
  import opened TrustProtocol

  const DEFAULT_CHALLENGE_TTL_MS: Millis := 2 * 60_000
  const DEFAULT_TICKET_TTL_MS: Millis := 2 * 60_000
  const DEVICE_INVITE_TTL_MS: Millis := 10 * 60_000
  const MAX_ISSUE_SKEW_MS: Millis := 30_000

  /** Lifetimes and the foreign calls: key fingerprint (fails on a malformed key) and secret hash. */
  datatype Config = Config(
    challengeTtlMs: Millis,
    ticketTtlMs: Millis,
    deriveDeviceId: PublicKey -> Option<Id>,
    hashSecret: Secret -> Digest)

  datatype Account = Account(accountId: Id, deviceIds: seq<Id>, backendIds: seq<Id>, createdAt: Millis)

  datatype Device = Device(
    deviceId: Id, publicKey: PublicKey, accountId: Id, createdAt: Millis, revokedAt: Option<Millis>)

  datatype Revocation = Revocation(accountId: Id, revokedAt: Millis)

  datatype Completion = Completion(
    pairId: Id, ticketId: Id, accountId: Id, deviceId: Id, backendId: Id, completedAt: Millis)

  datatype Invite = Invite(
    inviteId: Id, secretHash: Digest, accountId: Id, createdByDeviceId: Id, createdAt: Millis, expiresAt: Millis)

  datatype State = State(
    accounts: map<Id, Account>,
    devices: map<Id, Device>,
    backendOwners: map<Id, Id>,
    backendRevocations: map<Id, Revocation>,
    pairingCompletions: map<Id, Completion>,
    deviceInvites: map<Id, Invite>,
    usedTickets: map<Id, Millis>)

  /**
   The store. `minted` holds the claims the store has signed so far: a ticket verifies exactly
   when it is among them. `drawn` holds the random identifiers generated so far.
   */
  datatype Store = Store(
    state: State,
    challenges: map<Id, Challenge>,
    minted: map<Id, Claims>,
    drawn: set<Id>)

  const EmptyState := State(map[], map[], map[], map[], map[], map[], map[])
  const EmptyStore := Store(EmptyState, map[], map[], {})

  datatype TrustError =
    | UnsupportedPurpose
    | MissingContext
    | InviteMissing
    | UnknownOrRevokedDevice
    | KeyMismatch
    | DeviceRequired
    | ChallengeMissing
    | WrongPurpose
    | BadSignature
    | NotAuthorized
    | BadTicket
    | TicketExpired
    | TicketUsed
    | NotPairing
    | PairingUsed
    | OwnedByAnother
    | DeviceRevoked
    | AccountMismatch
    | InviteMismatch
    | BadInviteSecret
    | AlreadyMember
    | ForeignDevice
    | AccountMissing

  type Answer<T> = Result<T, TrustError>

  datatype Confirmation = Confirmation(accountId: Id, deviceId: Id, backendId: Id)
  datatype InviteCapability = InviteCapability(inviteId: Id, secret: Secret, expiresAt: Millis)
  datatype Acceptance = Acceptance(accountId: Id, deviceId: Id)
  datatype RevocationResult = RevocationResult(accountId: Id, deviceId: Option<Id>, backendId: Option<Id>)

  /** The context fields that `validateChallengeContext` demands before a challenge exists. */
  predicate HasContext(c: Challenge) {
    && !c.purpose.UnknownPurpose?
    && (c.purpose in {ToPair, ToConnect, ToRevokeDevice, ToRevokeBackend} ==> c.backendId.Some?)
    && (c.purpose in {ToPair, ToConnect} ==> c.connectionId.Some?)
    && (c.purpose in {ToPair, ToAcceptInvite} ==> c.pairId.Some?)
    && (c.purpose == ToRevokeDevice ==> c.targetDeviceId.Some?)
  }

  /** What the code relies on without checking: challenge contexts and the accounts of devices are present. */
  ghost predicate Complete(s: Store) {
    && (forall id <- s.challenges :: HasContext(s.challenges[id]))
    && (forall id <- s.state.devices :: s.state.devices[id].accountId in s.state.accounts)
  }

  // ---- Lookups -------------------------------------------------------------------------------

  predicate IsDeviceActive(s: State, deviceId: Id) {
    deviceId in s.devices && s.devices[deviceId].revokedAt.None?
  }

  function BackendOwner(s: State, backendId: Id): Option<Id> {
    if backendId in s.backendOwners then Some(s.backendOwners[backendId]) else None
  }

  function PendingBackendRevocation(s: State, backendId: Id): Option<RevocationResult> {
    if backendId in s.backendRevocations
    then Some(RevocationResult(s.backendRevocations[backendId].accountId, None, Some(backendId)))
    else None
  }

  // ---- Pruning -------------------------------------------------------------------------------

  function PruneChallenges(challenges: map<Id, Challenge>, now: Millis): map<Id, Challenge> {
    map id | id in challenges && challenges[id].expiresAt > now :: challenges[id]
  }

  function PruneInvites(invites: map<Id, Invite>, now: Millis): map<Id, Invite> {
    map id | id in invites && invites[id].expiresAt > now :: invites[id]
  }

  function PruneTickets(usedTickets: map<Id, Millis>, now: Millis): map<Id, Millis> {
    map id | id in usedTickets && usedTickets[id] > now :: usedTickets[id]
  }

  function Prune(s: Store, now: Millis): Store {
    s.(challenges := PruneChallenges(s.challenges, now),
       state := s.state.(deviceInvites := PruneInvites(s.state.deviceInvites, now),
                         usedTickets := PruneTickets(s.state.usedTickets, now)))
  }

  // ---- Challenges ----------------------------------------------------------------------------

  function ContextError(s: State, r: ChallengeRequest): Option<TrustError> {
    if r.purpose.UnknownPurpose? then Some(UnsupportedPurpose)
    else if r.purpose !in {ToDiscover, ToCreateInvite, ToAcceptInvite} && r.backendId.None? then Some(MissingContext)
    else if r.purpose in {ToPair, ToConnect} && r.connectionId.None? then Some(MissingContext)
    else if r.purpose == ToPair && r.pairId.None? then Some(MissingContext)
    else if r.purpose == ToAcceptInvite && (r.pairId.None? || r.pairId.value !in s.deviceInvites) then Some(InviteMissing)
    else if r.purpose == ToRevokeDevice && r.targetDeviceId.None? then Some(MissingContext)
    else None
  }

  function ResolveIdentity(cfg: Config, s: State, r: ChallengeRequest): Answer<(Id, PublicKey)> {
    var mayBeNew := r.purpose == ToPair || r.purpose == ToAcceptInvite;
    match r.deviceId
    case Some(deviceId) =>
      if deviceId in s.devices then
        var device := s.devices[deviceId];
        if device.revokedAt.Some? then Err(UnknownOrRevokedDevice)
        else if r.devicePublicKey.Some? && r.devicePublicKey.value != device.publicKey then Err(KeyMismatch)
        else Ok((device.deviceId, device.publicKey))
      else if mayBeNew && r.devicePublicKey.Some? && cfg.deriveDeviceId(r.devicePublicKey.value) == Some(deviceId) then
        Ok((deviceId, r.devicePublicKey.value))
      else Err(UnknownOrRevokedDevice)
    case None =>
      if !mayBeNew || r.devicePublicKey.None? then Err(DeviceRequired)
      else match cfg.deriveDeviceId(r.devicePublicKey.value)
        case Some(deviceId) => Ok((deviceId, r.devicePublicKey.value))
        case None => Err(KeyMismatch)
  }

  /** `challengeId` is the identifier drawn for the new challenge. */
  function CreateChallenge(cfg: Config, s: Store, r: ChallengeRequest, challengeId: Id, now: Millis)
    : (Store, Answer<Challenge>)
  {
    var p := Prune(s, now);
    var bad := ContextError(p.state, r);
    if bad.Some? then (p, Err(bad.value)) else
    match ResolveIdentity(cfg, p.state, r)
    case Err(e) => (p, Err(e))
    case Ok(identity) =>
      var c := Challenge(challengeId, r.purpose, identity.0, identity.1,
                         r.backendId, r.connectionId, r.pairId, r.targetDeviceId, now + cfg.challengeTtlMs);
      (p.(challenges := p.challenges[challengeId := c], drawn := p.drawn + {challengeId}), Ok(c))
  }

  /** The challenge is gone afterwards, whatever the verdict. */
  function ConsumeChallenge(s: Store, signed: SignedChallenge, purpose: Purpose, now: Millis): (Store, Answer<Challenge>) {
    var id := signed.challengeId;
    var rest := s.(challenges := s.challenges - {id});
    if id !in s.challenges || s.challenges[id].expiresAt <= now then (rest, Err(ChallengeMissing))
    else if s.challenges[id].purpose != purpose then (rest, Err(WrongPurpose))
    else if !signed.signatureValid then (rest, Err(BadSignature))
    else (rest, Ok(s.challenges[id]))
  }

  // ---- Tickets -------------------------------------------------------------------------------

  function IssuePairingTicket(cfg: Config, s: Store, signed: SignedChallenge, ticketId: Id, now: Millis)
    : (Store, Answer<Claims>)
    requires Complete(s)
  {
    match ConsumeChallenge(s, signed, ToPair, now)
    case (s1, Err(e)) => (s1, Err(e))
    case (s1, Ok(c)) =>
      var accountId := if c.deviceId in s1.state.devices then Some(s1.state.devices[c.deviceId].accountId) else None;
      var claims := Claims(Pairing, ticketId, c.backendId.value, c.connectionId.value, c.deviceId, c.devicePublicKey,
                           accountId, Some(c.pairId.value), now, now + cfg.ticketTtlMs);
      (Mint(s1, claims), Ok(claims))
  }

  function IssueConnectionTicket(cfg: Config, s: Store, signed: SignedChallenge, ticketId: Id, now: Millis)
    : (Store, Answer<Claims>)
    requires Complete(s)
  {
    match ConsumeChallenge(s, signed, ToConnect, now)
    case (s1, Err(e)) => (s1, Err(e))
    case (s1, Ok(c)) =>
      if !IsDeviceActive(s1.state, c.deviceId) then (s1, Err(UnknownOrRevokedDevice)) else
      var device := s1.state.devices[c.deviceId];
      if BackendOwner(s1.state, c.backendId.value) != Some(device.accountId) then (s1, Err(NotAuthorized)) else
      var claims := Claims(Connection, ticketId, c.backendId.value, c.connectionId.value, device.deviceId, device.publicKey,
                           Some(device.accountId), None, now, now + cfg.ticketTtlMs);
      (Mint(s1, claims), Ok(claims))
  }

  function Mint(s: Store, claims: Claims): Store {
    s.(minted := s.minted[claims.ticketId := claims], drawn := s.drawn + {claims.ticketId})
  }

  /** The verdict of the ticket check at `now`. */
  function VerifyTicket(s: Store, ticket: Claims, now: Millis): Answer<Claims> {
    if ticket.ticketId !in s.minted || s.minted[ticket.ticketId] != ticket || ticket.expiresAt <= ticket.issuedAt then Err(BadTicket)
    else if ticket.expiresAt <= now then Err(TicketExpired)
    else if ticket.issuedAt > now + MAX_ISSUE_SKEW_MS then Err(BadTicket)
    else Ok(ticket)
  }

  /** The clock is read twice: `verifiedAt` for the ticket check, then `now` for the pruning. */
  function ConsumeRouteTicket(s: Store, ticket: Claims, verifiedAt: Millis, now: Millis): (Store, Answer<Claims>) {
    match VerifyTicket(s, ticket, verifiedAt)
    case Err(e) => (s, Err(e))
    case Ok(claims) =>
      var p := Prune(s, now);
      if claims.ticketId in p.state.usedTickets then (p, Err(TicketUsed))
      else (p.(state := p.state.(usedTickets := p.state.usedTickets[claims.ticketId := claims.expiresAt])), Ok(claims))
  }

  // ---- Pairing -------------------------------------------------------------------------------

  /** The program tests `revokedAt` for truth, so a revocation at time 0 does not count. */
  predicate CountsAsRevoked(d: Device) {
    d.revokedAt.Some? && d.revokedAt.value != 0
  }

  /** Why a first confirmation is refused; `account` is the account it would go to. */
  function ConfirmError(s: State, claims: Claims, account: Id): Option<TrustError> {
    var owner := BackendOwner(s, claims.backendId);
    if claims.accountId.Some? && owner.Some? && claims.accountId != owner then Some(OwnedByAnother)
    else if claims.deviceId !in s.devices then None
    else
      var device := s.devices[claims.deviceId];
      if CountsAsRevoked(device) then Some(DeviceRevoked)
      else if device.publicKey != claims.devicePublicKey then Some(KeyMismatch)
      else if claims.accountId != Some(device.accountId) then Some(AccountMismatch)
      else if device.accountId != account then Some(AccountMismatch)
      else None
  }

  /** The claimed account, else the backend's owner, else the new account `drawnAccount`. */
  function PairingAccount(s: State, claims: Claims, drawnAccount: Id): Id {
    if claims.accountId.Some? then claims.accountId.value
    else if claims.backendId in s.backendOwners then s.backendOwners[claims.backendId]
    else drawnAccount
  }

  function AppendNew(ids: seq<Id>, id: Id): seq<Id> {
    if id in ids then ids else ids + [id]
  }

  /** The state after the first confirmation of `claims` for `account`. */
  function Grant(s: State, claims: Claims, account: Id, pairId: Id, now: Millis): State {
    var prior := if account in s.accounts then s.accounts[account] else Account(account, [], [], now);
    s.(accounts := s.accounts[account := prior.(deviceIds := AppendNew(prior.deviceIds, claims.deviceId),
                                                backendIds := AppendNew(prior.backendIds, claims.backendId))],
       devices := if claims.deviceId in s.devices then s.devices
                  else s.devices[claims.deviceId := Device(claims.deviceId, claims.devicePublicKey, account, now, None)],
       backendOwners := s.backendOwners[claims.backendId := account],
       backendRevocations := s.backendRevocations - {claims.backendId},
       pairingCompletions := s.pairingCompletions[
         pairId := Completion(pairId, claims.ticketId, account, claims.deviceId, claims.backendId, now)])
  }

  function ConfirmPairing(s: Store, claims: Claims, drawnAccount: Id, now: Millis): (Store, Answer<Confirmation>) {
    if claims.kind != Pairing || claims.pairId.None? then (s, Err(NotPairing)) else
    var pairId := claims.pairId.value;
    if pairId in s.state.pairingCompletions then
      var prior := s.state.pairingCompletions[pairId];
      if prior.ticketId != claims.ticketId then (s, Err(PairingUsed))
      else (s, Ok(Confirmation(prior.accountId, prior.deviceId, prior.backendId)))
    else
      var account := PairingAccount(s.state, claims, drawnAccount);
      var bad := ConfirmError(s.state, claims, account);
      if bad.Some? then (s, Err(bad.value))
      else (s.(state := Grant(s.state, claims, account, pairId, now), drawn := s.drawn + {drawnAccount}),
            Ok(Confirmation(account, claims.deviceId, claims.backendId)))
  }

  // ---- Account operations --------------------------------------------------------------------

  function ListAuthorizedBackendIds(s: Store, signed: SignedChallenge, now: Millis): (Store, Answer<seq<Id>>)
    requires Complete(s)
  {
    match ConsumeChallenge(s, signed, ToDiscover, now)
    case (s1, Err(e)) => (s1, Err(e))
    case (s1, Ok(c)) =>
      if !IsDeviceActive(s1.state, c.deviceId) then (s1, Err(UnknownOrRevokedDevice)) else
      (s1, Ok(s1.state.accounts[s1.state.devices[c.deviceId].accountId].backendIds))
  }

  function CreateDeviceInvite(cfg: Config, s: Store, signed: SignedChallenge, inviteId: Id, secret: Secret, now: Millis)
    : (Store, Answer<InviteCapability>)
  {
    match ConsumeChallenge(s, signed, ToCreateInvite, now)
    case (s1, Err(e)) => (s1, Err(e))
    case (s1, Ok(c)) =>
      if !IsDeviceActive(s1.state, c.deviceId) then (s1, Err(UnknownOrRevokedDevice)) else
      var actor := s1.state.devices[c.deviceId];
      var invite := Invite(inviteId, cfg.hashSecret(secret), actor.accountId, actor.deviceId, now, now + DEVICE_INVITE_TTL_MS);
      (s1.(state := s1.state.(deviceInvites := s1.state.deviceInvites[inviteId := invite]), drawn := s1.drawn + {inviteId}),
       Ok(InviteCapability(inviteId, secret, invite.expiresAt)))
  }

  function InviteError(cfg: Config, s: State, c: Challenge, inviteId: Id, secret: Secret, now: Millis): Option<TrustError> {
    if c.pairId != Some(inviteId) then Some(InviteMismatch)
    else if inviteId !in s.deviceInvites || s.deviceInvites[inviteId].expiresAt <= now then Some(InviteMissing)
    else if cfg.hashSecret(secret) != s.deviceInvites[inviteId].secretHash then Some(BadInviteSecret)
    else if c.deviceId in s.devices then
      Some(if s.devices[c.deviceId].accountId == s.deviceInvites[inviteId].accountId then AlreadyMember else ForeignDevice)
    else if s.deviceInvites[inviteId].accountId !in s.accounts then Some(AccountMissing)
    else None
  }

  /** The state after the device of `c` joined the account of the invite. */
  function Join(s: State, c: Challenge, inviteId: Id, now: Millis): State
    requires inviteId in s.deviceInvites && s.deviceInvites[inviteId].accountId in s.accounts
  {
    var accountId := s.deviceInvites[inviteId].accountId;
    var account := s.accounts[accountId];
    s.(accounts := s.accounts[accountId := account.(deviceIds := account.deviceIds + [c.deviceId])],
       devices := s.devices[c.deviceId := Device(c.deviceId, c.devicePublicKey, account.accountId, now, None)],
       deviceInvites := s.deviceInvites - {inviteId})
  }

  function AcceptDeviceInvite(
    cfg: Config, s: Store, signed: SignedChallenge, inviteId: Id, secret: Secret, now: Millis): (Store, Answer<Acceptance>)
  {
    match ConsumeChallenge(s, signed, ToAcceptInvite, now)
    case (s1, Err(e)) => (s1, Err(e))
    case (s1, Ok(c)) =>
      var bad := InviteError(cfg, s1.state, c, inviteId, secret, now);
      if bad.Some? then (s1, Err(bad.value)) else
      var joined := Join(s1.state, c, inviteId, now);
      (s1.(state := joined), Ok(Acceptance(joined.devices[c.deviceId].accountId, c.deviceId)))
  }

  function RevokeDevice(s: Store, signed: SignedChallenge, now: Millis): (Store, Answer<RevocationResult>)
    requires Complete(s)
  {
    match ConsumeChallenge(s, signed, ToRevokeDevice, now)
    case (s1, Err(e)) => (s1, Err(e))
    case (s1, Ok(c)) =>
      if !IsDeviceActive(s1.state, c.deviceId) then (s1, Err(UnknownOrRevokedDevice)) else
      var actor := s1.state.devices[c.deviceId];
      var target := c.targetDeviceId.value;
      if target !in s1.state.devices || s1.state.devices[target].accountId != actor.accountId then (s1, Err(AccountMismatch)) else
      var revoked := s1.state.devices[target].(revokedAt := Some(now));
      (s1.(state := s1.state.(devices := s1.state.devices[target := revoked])),
       Ok(RevocationResult(actor.accountId, Some(revoked.deviceId), None)))
  }

  /** The state after `account` gave up `backendId`. */
  function Release(s: State, account: Id, backendId: Id, now: Millis): State
    requires account in s.accounts
  {
    s.(backendOwners := s.backendOwners - {backendId},
       backendRevocations := s.backendRevocations[backendId := Revocation(account, now)],
       accounts := s.accounts[account := s.accounts[account].(backendIds := Without(s.accounts[account].backendIds, backendId))])
  }

  function RevokeBackend(s: Store, signed: SignedChallenge, now: Millis): (Store, Answer<RevocationResult>)
    requires Complete(s)
  {
    match ConsumeChallenge(s, signed, ToRevokeBackend, now)
    case (s1, Err(e)) => (s1, Err(e))
    case (s1, Ok(c)) =>
      if !IsDeviceActive(s1.state, c.deviceId) then (s1, Err(UnknownOrRevokedDevice)) else
      var account := s1.state.devices[c.deviceId].accountId;
      var backendId := c.backendId.value;
      if BackendOwner(s1.state, backendId) != Some(account) then (s1, Err(NotAuthorized))
      else (s1.(state := Release(s1.state, account, backendId, now)),
            Ok(RevocationResult(account, None, Some(backendId))))
  }
}
