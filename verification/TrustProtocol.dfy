/**
 The values that devices, backends and the rendezvous exchange.

 Identifiers, keys, secrets and digests are opaque: the program only compares them, so they are
 numbers here. A field that the program tests for presence is an `Option`; the program's
 identifiers are never the empty string, which it would also treat as absent.
 */
module TrustProtocol {
  import opened Wrappers

  type Id = nat
  type PublicKey = nat
  type Secret = nat
  type Digest = nat
  type Millis = nat

  datatype Purpose =
    | ToPair
    | ToConnect
    | ToDiscover
    | ToCreateInvite
    | ToAcceptInvite
    | ToRevokeDevice
    | ToRevokeBackend
    | UnknownPurpose

  datatype ChallengeRequest = ChallengeRequest(
    purpose: Purpose,
    deviceId: Option<Id>,
    devicePublicKey: Option<PublicKey>,
    backendId: Option<Id>,
    connectionId: Option<Id>,
    pairId: Option<Id>,
    targetDeviceId: Option<Id>)

  datatype Challenge = Challenge(
    challengeId: Id,
    purpose: Purpose,
    deviceId: Id,
    devicePublicKey: PublicKey,
    backendId: Option<Id>,
    connectionId: Option<Id>,
    pairId: Option<Id>,
    targetDeviceId: Option<Id>,
    expiresAt: Millis)

  datatype TicketKind = Pairing | Connection

  datatype Claims = Claims(
    kind: TicketKind,
    ticketId: Id,
    backendId: Id,
    connectionId: Id,
    deviceId: Id,
    devicePublicKey: PublicKey,
    accountId: Option<Id>,
    pairId: Option<Id>,
    issuedAt: Millis,
    expiresAt: Millis)

  /** A signed challenge as it comes back: its id and the verdict on the signature. */
  datatype SignedChallenge = SignedChallenge(challengeId: Id, signatureValid: bool)
}
