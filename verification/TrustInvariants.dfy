/**
 What every operation of the trust store keeps, and how the stored state may evolve.

 The invariant is stated record by record, so that a proof names the records it is about.
 */
module TrustInvariants {
  import opened Wrappers
  import opened TrustProtocol
  import opened TrustModel

  // ---- References between the records --------------------------------------------------------

  ghost predicate Distinct(ids: seq<Id>) {
    forall i, j | 0 <= i < j < |ids| :: ids[i] != ids[j]
  }

  /** The clock never reads 0, so no revocation carries the time 0. */
  ghost predicate DeviceOk(cfg: Config, s: State, d: Id)
    requires d in s.devices
  {
    var device := s.devices[d];
    && device.deviceId == d
    && cfg.deriveDeviceId(device.publicKey) == Some(d)
    && device.accountId in s.accounts
    && d in s.accounts[device.accountId].deviceIds
    && (device.revokedAt.Some? ==> device.revokedAt.value > 0)
  }

  ghost predicate AccountOk(s: State, a: Id)
    requires a in s.accounts
  {
    var account := s.accounts[a];
    && account.accountId == a
    && Distinct(account.deviceIds)
    && Distinct(account.backendIds)
    && (forall d | d in account.deviceIds :: d in s.devices && s.devices[d].accountId == a)
    && (forall b | b in account.backendIds :: b in s.backendOwners && s.backendOwners[b] == a)
  }

  ghost predicate OwnerOk(s: State, b: Id)
    requires b in s.backendOwners
  {
    var a := s.backendOwners[b];
    a in s.accounts && b in s.accounts[a].backendIds
  }

  ghost predicate InviteOk(s: State, i: Id)
    requires i in s.deviceInvites
  {
    var invite := s.deviceInvites[i];
    && invite.inviteId == i
    && invite.accountId in s.accounts
    && invite.createdByDeviceId in s.devices
    && s.devices[invite.createdByDeviceId].accountId == invite.accountId
  }

  ghost predicate CompletionOk(s: State, p: Id)
    requires p in s.pairingCompletions
  {
    s.pairingCompletions[p].pairId == p
  }

  ghost predicate Consistent(cfg: Config, s: State) {
    && (forall d {:trigger DeviceOk(cfg, s, d)} | d in s.devices :: DeviceOk(cfg, s, d))
    && (forall a {:trigger AccountOk(s, a)} | a in s.accounts :: AccountOk(s, a))
    && (forall b {:trigger OwnerOk(s, b)} | b in s.backendOwners :: OwnerOk(s, b))
    && (forall i {:trigger InviteOk(s, i)} | i in s.deviceInvites :: InviteOk(s, i))
    && (forall p {:trigger CompletionOk(s, p)} | p in s.pairingCompletions :: CompletionOk(s, p))
  }

  /** The cross-reference check that the program makes once, when it loads a stored state. */
  ghost predicate HasConsistentReferences(cfg: Config, s: State) {
    && (forall d <- s.devices ::
          && cfg.deriveDeviceId(s.devices[d].publicKey) == Some(s.devices[d].deviceId)
          && s.devices[d].accountId in s.accounts
          && s.devices[d].deviceId in s.accounts[s.devices[d].accountId].deviceIds)
    && (forall a <- s.accounts, d <- s.accounts[a].deviceIds ::
          d in s.devices && s.devices[d].accountId == s.accounts[a].accountId)
    && (forall a <- s.accounts, b <- s.accounts[a].backendIds ::
          b in s.backendOwners && s.backendOwners[b] == s.accounts[a].accountId)
    && (forall b <- s.backendOwners :: s.backendOwners[b] in s.accounts && b in s.accounts[s.backendOwners[b]].backendIds)
    && (forall i <- s.deviceInvites ::
          && s.deviceInvites[i].accountId in s.accounts
          && s.deviceInvites[i].createdByDeviceId in s.devices
          && s.devices[s.deviceInvites[i].createdByDeviceId].accountId == s.deviceInvites[i].accountId)
  }

  lemma ConsistentPassesTheLoadCheck(cfg: Config, s: State)
    requires Consistent(cfg, s)
    ensures HasConsistentReferences(cfg, s)
  {
    ConsistentAccounts(cfg, s);
    forall d | d in s.devices
      ensures && cfg.deriveDeviceId(s.devices[d].publicKey) == Some(s.devices[d].deviceId)
              && s.devices[d].accountId in s.accounts
              && s.devices[d].deviceId in s.accounts[s.devices[d].accountId].deviceIds
    {
      assert DeviceOk(cfg, s, d);
    }
    forall b | b in s.backendOwners ensures OwnerOk(s, b) {}
    forall i | i in s.deviceInvites ensures InviteOk(s, i) {}
  }

  lemma ConsistentAccounts(cfg: Config, s: State)
    requires Consistent(cfg, s)
    ensures forall a <- s.accounts, d <- s.accounts[a].deviceIds :: d in s.devices && s.devices[d].accountId == s.accounts[a].accountId
    ensures forall a <- s.accounts, b <- s.accounts[a].backendIds ::
              b in s.backendOwners && s.backendOwners[b] == s.accounts[a].accountId
  {
    forall a | a in s.accounts ensures AccountOk(s, a) {}
  }

  // ---- The rest of the invariant -------------------------------------------------------------

  /** The device named by some claims: its key fits, and a named account is the device's. */
  ghost predicate ClaimsFit(cfg: Config, s: State, c: Claims) {
    && cfg.deriveDeviceId(c.devicePublicKey) == Some(c.deviceId)
    && (c.accountId.Some? ==> c.deviceId in s.devices && s.devices[c.deviceId].accountId == c.accountId.value)
    && (c.kind.Connection? ==> c.accountId.Some?)
    && (c.kind.Pairing? ==> c.pairId.Some?)
  }

  ghost predicate ChallengeFits(cfg: Config, s: Store, id: Id)
    requires id in s.challenges
  {
    var c := s.challenges[id];
    c.challengeId == id && HasContext(c) && cfg.deriveDeviceId(c.devicePublicKey) == Some(c.deviceId)
  }

  ghost predicate TicketFits(cfg: Config, s: Store, t: Id)
    requires t in s.minted
  {
    s.minted[t].ticketId == t && ClaimsFit(cfg, s.state, s.minted[t])
  }

  ghost predicate UsedFits(s: Store, t: Id)
    requires t in s.state.usedTickets
  {
    t in s.minted && s.state.usedTickets[t] == s.minted[t].expiresAt
  }

  ghost predicate IdsDrawn(s: Store) {
    && s.challenges.Keys <= s.drawn
    && s.minted.Keys <= s.drawn
    && s.state.accounts.Keys <= s.drawn
    && s.state.deviceInvites.Keys <= s.drawn
  }

  ghost predicate StoreInv(cfg: Config, s: Store) {
    && Consistent(cfg, s.state)
    && (forall id {:trigger ChallengeFits(cfg, s, id)} | id in s.challenges :: ChallengeFits(cfg, s, id))
    && (forall t {:trigger TicketFits(cfg, s, t)} | t in s.minted :: TicketFits(cfg, s, t))
    && (forall t {:trigger UsedFits(s, t)} | t in s.state.usedTickets :: UsedFits(s, t))
    && IdsDrawn(s)
  }

  lemma InvIsComplete(cfg: Config, s: Store)
    requires StoreInv(cfg, s)
    ensures Complete(s)
  {
    forall id | id in s.challenges ensures HasContext(s.challenges[id]) {
      assert ChallengeFits(cfg, s, id);
    }
    forall d | d in s.state.devices ensures s.state.devices[d].accountId in s.state.accounts {
      assert DeviceOk(cfg, s.state, d);
    }
  }

  // ---- How the state may evolve --------------------------------------------------------------

  /** A device keeps its key and its account, and stays revoked once it is. */
  ghost predicate DeviceKept(s: State, t: State, d: Id)
    requires d in s.devices
  {
    && d in t.devices
    && t.devices[d].publicKey == s.devices[d].publicKey
    && t.devices[d].accountId == s.devices[d].accountId
    && (s.devices[d].revokedAt.Some? ==> t.devices[d].revokedAt.Some?)
  }

  ghost predicate DevicesKept(s: State, t: State) {
    forall d {:trigger DeviceKept(s, t, d)} | d in s.devices :: DeviceKept(s, t, d)
  }

  /** A pairing completion never changes. */
  ghost predicate CompletionsKept(s: State, t: State) {
    forall p {:trigger p in t.pairingCompletions} | p in s.pairingCompletions ::
      p in t.pairingCompletions && t.pairingCompletions[p] == s.pairingCompletions[p]
  }

  /** In one step a backend gains an owner or loses it, but never passes from one owner to another. */
  ghost predicate OwnersStep(s: State, t: State) {
    forall b {:trigger b in t.backendOwners} | b in s.backendOwners && b in t.backendOwners ::
      t.backendOwners[b] == s.backendOwners[b]
  }

  ghost predicate Evolves(s: State, t: State) {
    DevicesKept(s, t) && CompletionsKept(s, t) && OwnersStep(s, t)
  }

  lemma ClaimsStillFit(cfg: Config, s: State, t: State, c: Claims)
    requires DevicesKept(s, t) && ClaimsFit(cfg, s, c)
    ensures ClaimsFit(cfg, t, c)
  {
    if c.accountId.Some? {
      assert DeviceKept(s, t, c.deviceId);
    }
  }

  /** The part of the invariant outside the state survives every evolution of the state. */
  lemma StateChangeKeeps(cfg: Config, s: Store, state: State, drawn: set<Id>)
    requires StoreInv(cfg, s) && Consistent(cfg, state) && DevicesKept(s.state, state)
    requires forall t {:trigger t in state.usedTickets} | t in state.usedTickets ::
               t in s.minted && state.usedTickets[t] == s.minted[t].expiresAt
    requires s.drawn <= drawn && state.accounts.Keys <= drawn && state.deviceInvites.Keys <= drawn
    ensures StoreInv(cfg, s.(state := state, drawn := drawn))
  {
    var r := s.(state := state, drawn := drawn);
    forall id | id in r.challenges ensures ChallengeFits(cfg, r, id) {
      assert ChallengeFits(cfg, s, id);
    }
    forall t | t in r.minted ensures TicketFits(cfg, r, t) {
      assert TicketFits(cfg, s, t);
      ClaimsStillFit(cfg, s.state, state, s.minted[t]);
    }
  }

  // ---- Lists ---------------------------------------------------------------------------------

  lemma AppendNewDistinct(ids: seq<Id>, id: Id)
    requires Distinct(ids)
    ensures Distinct(AppendNew(ids, id))
    ensures forall x :: x in AppendNew(ids, id) <==> x in ids || x == id
  {
  }

  lemma {:induction false} WithoutDistinct(ids: seq<Id>, id: Id)
    requires Distinct(ids)
    ensures Distinct(Without(ids, id))
  {
    if ids != [] {
      var rest := ids[1..];
      assert Distinct(rest);
      WithoutDistinct(rest, id);
      assert ids[0] !in rest;
    }
  }

  // ---- Each state change keeps the references consistent -------------------------------------

  /** The invites and the used tickets can change without touching the other references. */
  lemma FrameKeeps(cfg: Config, s: State, t: State)
    requires Consistent(cfg, s)
    requires t == s.(deviceInvites := t.deviceInvites, usedTickets := t.usedTickets)
    requires forall i {:trigger InviteOk(t, i)} | i in t.deviceInvites :: InviteOk(t, i)
    ensures Consistent(cfg, t) && Evolves(s, t)
  {
    forall d | d in t.devices ensures DeviceOk(cfg, t, d) { assert DeviceOk(cfg, s, d); }
    forall a | a in t.accounts ensures AccountOk(t, a) { assert AccountOk(s, a); }
    forall b | b in t.backendOwners ensures OwnerOk(t, b) { assert OwnerOk(s, b); }
    forall p | p in t.pairingCompletions ensures CompletionOk(t, p) { assert CompletionOk(s, p); }
  }

  lemma PruneKeeps(cfg: Config, s: Store, now: Millis)
    requires StoreInv(cfg, s)
    ensures StoreInv(cfg, Prune(s, now)) && Evolves(s.state, Prune(s, now).state)
  {
    var t := Prune(s, now);
    forall i | i in t.state.deviceInvites ensures InviteOk(t.state, i) { assert InviteOk(s.state, i); }
    FrameKeeps(cfg, s.state, t.state);
    ChallengesShrinkKeeps(cfg, s, t.challenges);
    UsedStillFits(s);
    StateChangeKeeps(cfg, s.(challenges := t.challenges), t.state, s.drawn);
  }

  lemma ChallengesShrinkKeeps(cfg: Config, s: Store, challenges: map<Id, Challenge>)
    requires StoreInv(cfg, s)
    requires forall id {:trigger id in challenges} | id in challenges :: id in s.challenges && challenges[id] == s.challenges[id]
    ensures StoreInv(cfg, s.(challenges := challenges))
  {
    var t := s.(challenges := challenges);
    forall id | id in t.challenges ensures ChallengeFits(cfg, t, id) { assert ChallengeFits(cfg, s, id); }
    forall k | k in t.minted ensures TicketFits(cfg, t, k) { assert TicketFits(cfg, s, k); }
    forall k | k in t.state.usedTickets ensures UsedFits(t, k) { assert UsedFits(s, k); }
  }

  lemma ConsumeKeeps(cfg: Config, s: Store, signed: SignedChallenge, purpose: Purpose, now: Millis)
    requires StoreInv(cfg, s)
    ensures var (t, a) := ConsumeChallenge(s, signed, purpose, now);
            && StoreInv(cfg, t) && t == s.(challenges := s.challenges - {signed.challengeId})
            && (a.Ok? ==> HasContext(a.value) && a.value.purpose == purpose
                          && cfg.deriveDeviceId(a.value.devicePublicKey) == Some(a.value.deviceId))
  {
    ChallengesShrinkKeeps(cfg, s, s.challenges - {signed.challengeId});
    if signed.challengeId in s.challenges {
      assert ChallengeFits(cfg, s, signed.challengeId);
    }
  }

  lemma MintKeeps(cfg: Config, s: Store, claims: Claims)
    requires StoreInv(cfg, s) && claims.ticketId !in s.drawn && ClaimsFit(cfg, s.state, claims)
    ensures StoreInv(cfg, Mint(s, claims))
  {
    var t := Mint(s, claims);
    forall id | id in t.challenges ensures ChallengeFits(cfg, t, id) { assert ChallengeFits(cfg, s, id); }
    forall k | k in t.minted ensures TicketFits(cfg, t, k) {
      assert k != claims.ticketId ==> TicketFits(cfg, s, k);
    }
    forall k | k in t.state.usedTickets ensures UsedFits(t, k) { assert UsedFits(s, k); }
  }

  lemma GrantKeeps(cfg: Config, s: State, claims: Claims, account: Id, pairId: Id, now: Millis)
    requires Consistent(cfg, s) && ClaimsFit(cfg, s, claims) && pairId !in s.pairingCompletions
    requires claims.deviceId in s.devices ==> s.devices[claims.deviceId].accountId == account
    requires claims.backendId in s.backendOwners ==> s.backendOwners[claims.backendId] == account
    ensures Consistent(cfg, Grant(s, claims, account, pairId, now)) && Evolves(s, Grant(s, claims, account, pairId, now))
  {
    GrantEvolves(cfg, s, claims, account, pairId, now);
    var t := Grant(s, claims, account, pairId, now);
    forall d | d in t.devices ensures DeviceOk(cfg, t, d) { GrantDeviceOk(cfg, s, claims, account, pairId, now, d); }
    forall a | a in t.accounts ensures AccountOk(t, a) { GrantAccountOk(cfg, s, claims, account, pairId, now, a); }
    forall b | b in t.backendOwners ensures OwnerOk(t, b) { GrantOwnerOk(cfg, s, claims, account, pairId, now, b); }
    forall i | i in t.deviceInvites ensures InviteOk(t, i) { GrantInviteOk(cfg, s, claims, account, pairId, now, i); }
    forall p | p in t.pairingCompletions ensures CompletionOk(t, p) {
      if p in s.pairingCompletions { assert CompletionOk(s, p); }
    }
  }

  lemma GrantEvolves(cfg: Config, s: State, claims: Claims, account: Id, pairId: Id, now: Millis)
    requires Consistent(cfg, s) && ClaimsFit(cfg, s, claims) && pairId !in s.pairingCompletions
    requires claims.deviceId in s.devices ==> s.devices[claims.deviceId].accountId == account
    requires claims.backendId in s.backendOwners ==> s.backendOwners[claims.backendId] == account
    ensures Evolves(s, Grant(s, claims, account, pairId, now))
  {
  }

  lemma GrantOwnerOk(cfg: Config, s: State, claims: Claims, account: Id, pairId: Id, now: Millis, b: Id)
    requires Consistent(cfg, s)
    requires b in Grant(s, claims, account, pairId, now).backendOwners
    ensures OwnerOk(Grant(s, claims, account, pairId, now), b)
  {
    if b in s.backendOwners { assert OwnerOk(s, b); }
  }

  lemma GrantInviteOk(cfg: Config, s: State, claims: Claims, account: Id, pairId: Id, now: Millis, i: Id)
    requires Consistent(cfg, s)
    requires i in Grant(s, claims, account, pairId, now).deviceInvites
    ensures InviteOk(Grant(s, claims, account, pairId, now), i)
  {
    assert InviteOk(s, i);
  }

  lemma GrantDeviceOk(cfg: Config, s: State, claims: Claims, account: Id, pairId: Id, now: Millis, d: Id)
    requires Consistent(cfg, s) && ClaimsFit(cfg, s, claims)
    requires d in Grant(s, claims, account, pairId, now).devices
    requires claims.deviceId in s.devices ==> s.devices[claims.deviceId].accountId == account
    ensures DeviceOk(cfg, Grant(s, claims, account, pairId, now), d)
  {
    if d in s.devices { assert DeviceOk(cfg, s, d); }
  }

  lemma GrantAccountOk(cfg: Config, s: State, claims: Claims, account: Id, pairId: Id, now: Millis, a: Id)
    requires Consistent(cfg, s)
    requires claims.deviceId in s.devices ==> s.devices[claims.deviceId].accountId == account
    requires claims.backendId in s.backendOwners ==> s.backendOwners[claims.backendId] == account
    requires a in Grant(s, claims, account, pairId, now).accounts
    ensures AccountOk(Grant(s, claims, account, pairId, now), a)
  {
    if a in s.accounts { assert AccountOk(s, a); }
    if a == account {
      var prior := if a in s.accounts then s.accounts[a] else Account(a, [], [], now);
      AppendNewDistinct(prior.deviceIds, claims.deviceId);
      AppendNewDistinct(prior.backendIds, claims.backendId);
    }
  }

  lemma JoinKeeps(cfg: Config, s: State, c: Challenge, inviteId: Id, now: Millis)
    requires Consistent(cfg, s)
    requires inviteId in s.deviceInvites && s.deviceInvites[inviteId].accountId in s.accounts
    requires c.deviceId !in s.devices && cfg.deriveDeviceId(c.devicePublicKey) == Some(c.deviceId)
    ensures Consistent(cfg, Join(s, c, inviteId, now)) && Evolves(s, Join(s, c, inviteId, now))
  {
    var t := Join(s, c, inviteId, now);
    forall d | d in t.devices ensures DeviceOk(cfg, t, d) {
      assert d in s.devices ==> DeviceOk(cfg, s, d);
      assert AccountOk(s, s.deviceInvites[inviteId].accountId);
    }
    forall a | a in t.accounts ensures AccountOk(t, a) { assert AccountOk(s, a); }
    forall b | b in t.backendOwners ensures OwnerOk(t, b) { assert OwnerOk(s, b); }
    forall i | i in t.deviceInvites ensures InviteOk(t, i) { assert InviteOk(s, i); }
    forall p | p in t.pairingCompletions ensures CompletionOk(t, p) { assert CompletionOk(s, p); }
  }

  lemma ReleaseKeeps(cfg: Config, s: State, account: Id, backendId: Id, now: Millis)
    requires Consistent(cfg, s) && account in s.accounts
    requires backendId in s.backendOwners && s.backendOwners[backendId] == account
    ensures Consistent(cfg, Release(s, account, backendId, now)) && Evolves(s, Release(s, account, backendId, now))
  {
    var t := Release(s, account, backendId, now);
    forall d | d in t.devices ensures DeviceOk(cfg, t, d) { assert DeviceOk(cfg, s, d); }
    forall a | a in t.accounts ensures AccountOk(t, a) {
      assert AccountOk(s, a);
      if a == account { WithoutDistinct(s.accounts[a].backendIds, backendId); }
    }
    forall b | b in t.backendOwners ensures OwnerOk(t, b) { assert OwnerOk(s, b); }
    forall i | i in t.deviceInvites ensures InviteOk(t, i) { assert InviteOk(s, i); }
    forall p | p in t.pairingCompletions ensures CompletionOk(t, p) { assert CompletionOk(s, p); }
  }

  lemma RevocationKeeps(cfg: Config, s: State, target: Id, now: Millis)
    requires Consistent(cfg, s) && target in s.devices && now > 0
    ensures var t := s.(devices := s.devices[target := s.devices[target].(revokedAt := Some(now))]);
            Consistent(cfg, t) && Evolves(s, t)
  {
    var t := s.(devices := s.devices[target := s.devices[target].(revokedAt := Some(now))]);
    forall d | d in t.devices ensures DeviceOk(cfg, t, d) { assert DeviceOk(cfg, s, d); }
    forall a | a in t.accounts ensures AccountOk(t, a) { assert AccountOk(s, a); }
    forall b | b in t.backendOwners ensures OwnerOk(t, b) { assert OwnerOk(s, b); }
    forall i | i in t.deviceInvites ensures InviteOk(t, i) { assert InviteOk(s, i); }
    forall p | p in t.pairingCompletions ensures CompletionOk(t, p) { assert CompletionOk(s, p); }
  }

  // ---- Each operation keeps the invariant ----------------------------------------------------

  lemma CreateChallengeKeeps(cfg: Config, s: Store, r: ChallengeRequest, challengeId: Id, now: Millis)
    requires StoreInv(cfg, s) && challengeId !in s.drawn
    ensures var t := CreateChallenge(cfg, s, r, challengeId, now).0; StoreInv(cfg, t) && Evolves(s.state, t.state)
  {
    PruneKeeps(cfg, s, now);
    var p := Prune(s, now);
    var (t, a) := CreateChallenge(cfg, s, r, challengeId, now);
    if a.Ok? {
      if r.deviceId.Some? && r.deviceId.value in p.state.devices {
        assert DeviceOk(cfg, p.state, r.deviceId.value);
      }
      forall id | id in t.challenges ensures ChallengeFits(cfg, t, id) {
        assert id != challengeId ==> ChallengeFits(cfg, p, id);
      }
      forall k | k in t.minted ensures TicketFits(cfg, t, k) { assert TicketFits(cfg, p, k); }
      forall k | k in t.state.usedTickets ensures UsedFits(t, k) { assert UsedFits(p, k); }
    }
  }

  lemma IssuePairingTicketKeeps(cfg: Config, s: Store, signed: SignedChallenge, ticketId: Id, now: Millis)
    requires StoreInv(cfg, s) && ticketId !in s.drawn
    ensures Complete(s)
    ensures var (t, a) := IssuePairingTicket(cfg, s, signed, ticketId, now);
            StoreInv(cfg, t) && t.state == s.state && (a.Ok? ==> a.value.kind.Pairing?)
  {
    InvIsComplete(cfg, s);
    ConsumeKeeps(cfg, s, signed, ToPair, now);
    var (t, a) := IssuePairingTicket(cfg, s, signed, ticketId, now);
    if a.Ok? {
      MintKeeps(cfg, ConsumeChallenge(s, signed, ToPair, now).0, a.value);
    }
  }

  lemma IssueConnectionTicketKeeps(cfg: Config, s: Store, signed: SignedChallenge, ticketId: Id, now: Millis)
    requires StoreInv(cfg, s) && ticketId !in s.drawn
    ensures Complete(s)
    ensures var (t, a) := IssueConnectionTicket(cfg, s, signed, ticketId, now);
            && StoreInv(cfg, t) && t.state == s.state
            && (a.Ok? ==> BackendOwner(s.state, a.value.backendId) == a.value.accountId && IsDeviceActive(s.state, a.value.deviceId))
  {
    InvIsComplete(cfg, s);
    ConsumeKeeps(cfg, s, signed, ToConnect, now);
    var (s1, c) := ConsumeChallenge(s, signed, ToConnect, now);
    var (t, a) := IssueConnectionTicket(cfg, s, signed, ticketId, now);
    if a.Ok? {
      assert DeviceOk(cfg, s1.state, c.value.deviceId);
      MintKeeps(cfg, s1, a.value);
    }
  }

  lemma ConsumeRouteTicketKeeps(cfg: Config, s: Store, ticket: Claims, verifiedAt: Millis, now: Millis)
    requires StoreInv(cfg, s)
    ensures var t := ConsumeRouteTicket(s, ticket, verifiedAt, now).0; StoreInv(cfg, t) && Evolves(s.state, t.state)
  {
    PruneKeeps(cfg, s, now);
    var p := Prune(s, now);
    var (t, a) := ConsumeRouteTicket(s, ticket, verifiedAt, now);
    if a.Ok? {
      forall i | i in t.state.deviceInvites ensures InviteOk(t.state, i) { assert InviteOk(p.state, i); }
      FrameKeeps(cfg, p.state, t.state);
      forall k | k in t.state.usedTickets ensures k in p.minted && t.state.usedTickets[k] == p.minted[k].expiresAt {
        assert k != ticket.ticketId ==> UsedFits(p, k);
      }
      StateChangeKeeps(cfg, p, t.state, p.drawn);
    }
  }

  lemma ConfirmPairingKeeps(cfg: Config, s: Store, claims: Claims, drawnAccount: Id, now: Millis)
    requires StoreInv(cfg, s) && ClaimsFit(cfg, s.state, claims)
    ensures var t := ConfirmPairing(s, claims, drawnAccount, now).0; StoreInv(cfg, t) && Evolves(s.state, t.state)
  {
    var (t, a) := ConfirmPairing(s, claims, drawnAccount, now);
    if a.Ok? && claims.pairId.value !in s.state.pairingCompletions {
      GrantKeeps(cfg, s.state, claims, a.value.accountId, claims.pairId.value, now);
      UsedStillFits(s);
      if claims.deviceId in s.state.devices { assert DeviceOk(cfg, s.state, claims.deviceId); }
      if claims.backendId in s.state.backendOwners { assert OwnerOk(s.state, claims.backendId); }
      StateChangeKeeps(cfg, s, t.state, t.drawn);
    }
  }

  lemma UsedStillFits(s: Store)
    requires forall t {:trigger UsedFits(s, t)} | t in s.state.usedTickets :: UsedFits(s, t)
    ensures forall t | t in s.state.usedTickets :: t in s.minted && s.state.usedTickets[t] == s.minted[t].expiresAt
  {
    forall t | t in s.state.usedTickets ensures t in s.minted && s.state.usedTickets[t] == s.minted[t].expiresAt {
      assert UsedFits(s, t);
    }
  }

  lemma CreateDeviceInviteKeeps(
    cfg: Config, s: Store, signed: SignedChallenge, inviteId: Id, secret: Secret, now: Millis)
    requires StoreInv(cfg, s)
    ensures var t := CreateDeviceInvite(cfg, s, signed, inviteId, secret, now).0; StoreInv(cfg, t) && Evolves(s.state, t.state)
  {
    ConsumeKeeps(cfg, s, signed, ToCreateInvite, now);
    var (s1, c) := ConsumeChallenge(s, signed, ToCreateInvite, now);
    var (t, a) := CreateDeviceInvite(cfg, s, signed, inviteId, secret, now);
    if a.Ok? {
      assert DeviceOk(cfg, s1.state, c.value.deviceId);
      forall i | i in t.state.deviceInvites ensures InviteOk(t.state, i) {
        if i != inviteId { assert InviteOk(s1.state, i); }
      }
      FrameKeeps(cfg, s1.state, t.state);
      UsedStillFits(s1);
      StateChangeKeeps(cfg, s1, t.state, t.drawn);
    }
  }

  lemma AcceptDeviceInviteKeeps(
    cfg: Config, s: Store, signed: SignedChallenge, inviteId: Id, secret: Secret, now: Millis)
    requires StoreInv(cfg, s)
    ensures var t := AcceptDeviceInvite(cfg, s, signed, inviteId, secret, now).0; StoreInv(cfg, t) && Evolves(s.state, t.state)
  {
    ConsumeKeeps(cfg, s, signed, ToAcceptInvite, now);
    var (s1, c) := ConsumeChallenge(s, signed, ToAcceptInvite, now);
    var (t, a) := AcceptDeviceInvite(cfg, s, signed, inviteId, secret, now);
    if a.Ok? {
      JoinKeeps(cfg, s1.state, c.value, inviteId, now);
      UsedStillFits(s1);
      StateChangeKeeps(cfg, s1, t.state, t.drawn);
    }
  }

  lemma RevokeDeviceKeeps(cfg: Config, s: Store, signed: SignedChallenge, now: Millis)
    requires StoreInv(cfg, s) && now > 0
    ensures Complete(s)
    ensures var (t, a) := RevokeDevice(s, signed, now);
            && StoreInv(cfg, t) && Evolves(s.state, t.state)
            && t.state.backendOwners == s.state.backendOwners && t.state.pairingCompletions == s.state.pairingCompletions
            && (a.Err? ==> t.state == s.state)
            && (a.Ok? ==> a.value.backendId.None? && a.value.deviceId.Some?
                          && a.value.deviceId.value in s.state.devices
                          && s.state.devices[a.value.deviceId.value].accountId == a.value.accountId
                          && !IsDeviceActive(t.state, a.value.deviceId.value)
                          && forall d | IsDeviceActive(s.state, d) && d != a.value.deviceId.value :: IsDeviceActive(t.state, d))
  {
    InvIsComplete(cfg, s);
    ConsumeKeeps(cfg, s, signed, ToRevokeDevice, now);
    var (s1, c) := ConsumeChallenge(s, signed, ToRevokeDevice, now);
    var (t, a) := RevokeDevice(s, signed, now);
    if a.Ok? {
      assert DeviceOk(cfg, s1.state, c.value.targetDeviceId.value);
      RevocationKeeps(cfg, s1.state, a.value.deviceId.value, now);
      UsedStillFits(s1);
      StateChangeKeeps(cfg, s1, t.state, t.drawn);
    }
  }

  lemma RevokeBackendKeeps(cfg: Config, s: Store, signed: SignedChallenge, now: Millis)
    requires StoreInv(cfg, s)
    ensures Complete(s)
    ensures var (t, a) := RevokeBackend(s, signed, now);
            && StoreInv(cfg, t) && Evolves(s.state, t.state)
            && t.state.devices == s.state.devices && t.state.pairingCompletions == s.state.pairingCompletions
            && (a.Err? ==> t.state == s.state)
            && (a.Ok? ==> a.value.deviceId.None? && a.value.backendId.Some?
                          && BackendOwner(s.state, a.value.backendId.value) == Some(a.value.accountId)
                          && t.state.backendOwners == s.state.backendOwners - {a.value.backendId.value})
  {
    InvIsComplete(cfg, s);
    ConsumeKeeps(cfg, s, signed, ToRevokeBackend, now);
    var (s1, c) := ConsumeChallenge(s, signed, ToRevokeBackend, now);
    var (t, a) := RevokeBackend(s, signed, now);
    if a.Ok? {
      ReleaseKeeps(cfg, s1.state, a.value.accountId, a.value.backendId.value, now);
      UsedStillFits(s1);
      StateChangeKeeps(cfg, s1, t.state, t.drawn);
    }
  }
}
