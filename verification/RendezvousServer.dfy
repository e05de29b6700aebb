/**
 The HTTP handlers that decide which store and hub calls form one step, run against the mutable
 store and hub. Each method is proved against `ServerModel.Handle` on its event.
 */
module RendezvousServer {
  import opened Wrappers
  import opened TrustProtocol
  import TrustModel
  import TrustStore
  import RendezvousHub
  import opened HubModel
  import opened ServerModel

  class RendezvousServer {
    const trustStore: TrustStore.RendezvousTrustStore
    const hub: RendezvousHub.RendezvousHub

    ghost predicate Valid()
      reads this, hub, hub.routes.Values, trustStore
    {
      hub.trustStore == trustStore && hub.Valid() && TrustModel.Complete(trustStore.View())
    }

    ghost function Config(): ServerConfig {
      ServerConfig(trustStore.cfg, hub.cfg)
    }

    ghost function View(): System
      reads hub, trustStore
    {
      System(trustStore.View(), hub.view)
    }

    constructor (trustStore: TrustStore.RendezvousTrustStore, hub: RendezvousHub.RendezvousHub)
      requires hub.trustStore == trustStore
      ensures this.trustStore == trustStore && this.hub == hub
    {
      this.trustStore := trustStore;
      this.hub := hub;
    }

    method GetPairing(pairId: Id, now: Millis) returns (pairing: Option<ActivePairing>)
      requires Valid()
      modifies hub
      ensures hub.Valid() && View() == Handle(Config(), old(View()), Event.GetPairing(pairId), now)
      ensures pairing == OpenPairingOf(old(hub.view), pairId, now)
    {
      pairing := hub.GetOpenPairing(pairId, now);
    }

    /** `None` when the pairing or the backend is not there. */
    method PostChallenge(r: ChallengeRequest, challengeId: Id, now: Millis) returns (a: Option<TrustModel.Answer<Challenge>>)
      requires Valid()
      modifies hub, trustStore
      ensures hub.Valid() && View() == AnswerChallenge(Config(), old(View()), r, challengeId, now)
      ensures a.Some? ==> a.value == TrustModel.CreateChallenge(trustStore.cfg, old(trustStore.View()), r, challengeId, now).1
      ensures a.Some? <==> (&& (r.purpose == ToPair ==> r.pairId.Some? && LeadsTo(old(hub.view), r.pairId.value, r.backendId, now))
                            && (r.purpose == ToConnect && r.backendId.Some? ==> IsBackendOnline(old(hub.view), r.backendId.value)))
    {
      var open := MayBeChallenged(r, now);
      if !open { return None; }
      var created := trustStore.CreateChallenge(r, challengeId, now);
      return Some(created);
    }

    /** Whether the pairing or the backend that the request names is there. */
    method MayBeChallenged(r: ChallengeRequest, now: Millis) returns (open: bool)
      requires Valid()
      modifies hub
      ensures hub.Valid() && trustStore.View() == old(trustStore.View())
      ensures hub.view == if r.purpose == ToPair && r.pairId.Some? then DropDeadPairing(old(hub.view), r.pairId.value, now) else old(hub.view)
      ensures open <==> (&& (r.purpose == ToPair ==> r.pairId.Some? && LeadsTo(old(hub.view), r.pairId.value, r.backendId, now))
                         && (r.purpose == ToConnect && r.backendId.Some? ==> IsBackendOnline(old(hub.view), r.backendId.value)))
    {
      if r.purpose == ToPair {
        if r.pairId.None? { return false; }
        var pairing := hub.GetOpenPairing(r.pairId.value, now);
        return pairing.Some? && Some(pairing.value.backendId) == r.backendId;
      }
      if r.purpose == ToConnect && r.backendId.Some? {
        var id := r.backendId.value;
        return id in hub.backends && hub.backends[id].socket in hub.openBackends;
      }
      return true;
    }

    method PostPairingTicket(pairId: Id, signed: SignedChallenge, ticketId: Id, now: Millis) returns (ticket: Option<Claims>)
      requires Valid()
      modifies hub, trustStore
      ensures hub.Valid() && View() == AnswerPairingTicket(Config(), old(View()), pairId, signed, ticketId, now)
      ensures var pairing, issued := OpenPairingOf(old(hub.view), pairId, now),
                TrustModel.IssuePairingTicket(trustStore.cfg, old(trustStore.View()), signed, ticketId, now).1;
              ticket == if && pairing.Some? && issued.Ok?
                           && issued.value.pairId == Some(pairing.value.pairId) && issued.value.backendId == pairing.value.backendId
                        then Some(issued.value) else None
    {
      var pairing := hub.GetOpenPairing(pairId, now);
      if pairing.None? { return None; }
      ticket := IssueTicketFor(pairing.value, signed, ticketId, now);
    }

    /** The ticket is issued before it is compared with the pairing, so a refused answer issued it too. */
    method IssueTicketFor(pairing: ActivePairing, signed: SignedChallenge, ticketId: Id, now: Millis) returns (ticket: Option<Claims>)
      requires Valid()
      modifies trustStore
      ensures hub.Valid() && hub.view == old(hub.view)
      ensures trustStore.View() == TrustModel.IssuePairingTicket(trustStore.cfg, old(trustStore.View()), signed, ticketId, now).0
      ensures var issued := TrustModel.IssuePairingTicket(trustStore.cfg, old(trustStore.View()), signed, ticketId, now).1;
              ticket == if issued.Ok? && issued.value.pairId == Some(pairing.pairId) && issued.value.backendId == pairing.backendId
                        then Some(issued.value) else None
    {
      var issued := trustStore.IssuePairingTicket(signed, ticketId, now);
      if issued.Err? || issued.value.pairId != Some(pairing.pairId) || issued.value.backendId != pairing.backendId { return None; }
      return Some(issued.value);
    }

    method PostConnectionTicket(signed: SignedChallenge, ticketId: Id, now: Millis) returns (a: TrustModel.Answer<Claims>)
      requires Valid()
      modifies trustStore
      ensures hub.Valid() && View() == Handle(Config(), old(View()), Event.PostConnectionTicket(signed, ticketId), now)
      ensures a == TrustModel.IssueConnectionTicket(trustStore.cfg, old(trustStore.View()), signed, ticketId, now).1
    {
      a := trustStore.IssueConnectionTicket(signed, ticketId, now);
    }

    method PostRevokeDevice(signed: SignedChallenge, now: Millis) returns (a: TrustModel.Answer<TrustModel.RevocationResult>)
      requires Valid()
      modifies hub, trustStore
      ensures hub.Valid() && View() == AnswerRevocation(old(View()), TrustModel.RevokeDevice(old(trustStore.View()), signed, now))
      ensures a == TrustModel.RevokeDevice(old(trustStore.View()), signed, now).1
    {
      a := trustStore.RevokeDevice(signed, now);
      if a.Ok? { hub.NotifyRevocation(a.value); }
    }

    method PostRevokeBackend(signed: SignedChallenge, now: Millis) returns (a: TrustModel.Answer<TrustModel.RevocationResult>)
      requires Valid()
      modifies hub, trustStore
      ensures hub.Valid() && View() == AnswerRevocation(old(View()), TrustModel.RevokeBackend(old(trustStore.View()), signed, now))
      ensures a == TrustModel.RevokeBackend(old(trustStore.View()), signed, now).1
    {
      a := trustStore.RevokeBackend(signed, now);
      if a.Ok? { hub.NotifyRevocation(a.value); }
    }
  }
}
