/** The retry loops of the auction service, over a storage that may lose replies, conflict and fail over. */
module AuctionService {
  import opened Text
  import opened AuctionDomain
  import opened Replica
  import LocalInvariant
  import Cluster
  import Durability
  import Provenance

  datatype Operation =
    | CreateAuction(
        auctionId: string, sellerId: string, title: string, category: string, description: string,
        reservePrice: Money, endsAt: Option<Timestamp>)
    | Bid(auctionId: string, bidderId: string, amount: Money)
    | Withdraw(auctionId: string, bidderId: string)
    | RevealAuction(auctionId: string, sellerId: string)

  function BlankAuction(auctionId: string): RequestedAuction
  {
    RequestedAuction(auctionId, "", "", "", "", Finite(0.0), map[], Unspecified, 0, None, false)
  }

  /** What one attempt sends: only the expected version and the epoch differ between attempts. */
  function RequestOf(op: Operation, requestId: string, version: int, epoch: int): MutationRequest
  {
    match op
    case CreateAuction(id, seller, title, category, description, reserve, endsAt) =>
      MutationRequest(
        Create, RequestedAuction(id, seller, title, category, description, reserve, map[], Open, 0, endsAt, false),
        "", 0, requestId, epoch)
    case Bid(id, bidder, amount) =>
      MutationRequest(
        PlaceBid, BlankAuction(id).(bids := map[bidder := amount], version := version),
        bidder, version, requestId, epoch)
    case Withdraw(id, bidder) => MutationRequest(WithdrawBid, BlankAuction(id), bidder, version, requestId, epoch)
    case RevealAuction(id, seller) =>
      MutationRequest(
        Reveal, BlankAuction(id).(sellerId := seller, state := Revealed, version := version),
        "", version, requestId, epoch)
  }

  /** The fingerprint of an operation, as a client would describe it. */
  function FingerprintFor(op: Operation): Fingerprint
  {
    match op
    case CreateAuction(id, seller, title, category, description, reserve, endsAt) =>
      CreateFingerprint(id, seller, title, category, description, reserve, endsAt)
    case Bid(id, bidder, amount) => BidFingerprint(id, bidder, amount)
    case Withdraw(id, bidder) => WithdrawFingerprint(id, bidder)
    case RevealAuction(id, seller) => RevealFingerprint(id, seller)
  }

  /** No attempt changes the fingerprint, so storage recognizes each one as the same operation. */
  lemma AttemptsShareFingerprint(op: Operation, requestId: string, version: int, epoch: int)
    ensures var request := RequestOf(op, requestId, version, epoch);
      && request.requestId == requestId && request.mutationType != UnspecifiedType
      && FingerprintOf(request, request.mutationType) == FingerprintFor(op)
  {
  }

  datatype Target = Target(address: string, epoch: int)

  /** How the call of an attempt ended: no answer in time, some other failure, or a response. */
  datatype Call = Unreachable | Broken | Answer(response: Response)

  /** The environment's part in one attempt. */
  datatype Attempt = Attempt(resolved: Option<Target>, inTime: bool, call: Call, recovered: Option<Target>)

  /** `auctionId` is reported by a creation only. */
  datatype ServiceReply = ServiceReply(
    ok: bool, retryable: bool, outcomeUnknown: bool, finalVersion: int, auctionId: string)

  const REFUSED := ServiceReply(false, false, false, 0, "")
  const UNAVAILABLE := ServiceReply(false, true, false, 0, "")
  const UNKNOWN := ServiceReply(false, true, true, 0, "")

  predicate IsConflict(call: Call)
  {
    call.Answer? && !call.response.success
    && call.response.reason == ConcurrencyConflict && call.response.currentVersion != 0
  }

  /** The only outcomes after which the loop goes on. */
  predicate Retried(call: Call)
  {
    call.Unreachable? || IsConflict(call)
  }

  predicate Succeeded(call: Call)
  {
    call.Answer? && call.response.success
  }

  /** The version the next attempt expects. */
  function NextVersion(call: Call, version: int): int
  {
    if IsConflict(call) then call.response.currentVersion else version
  }

  /** The requests and outcomes of the attempts that reached the network, in order. */
  datatype Trace = Trace(sent: seq<MutationRequest>, calls: seq<Call>)

  function ExpectedAt(calls: seq<Call>, start: int): int
  {
    if calls == [] then start else NextVersion(calls[|calls| - 1], ExpectedAt(calls[..|calls| - 1], start))
  }

  /** Every request is an attempt of this operation and every outcome but the last called for another attempt. */
  ghost predicate Faithful(t: Trace, op: Operation, requestId: string, start: int, limit: nat)
  {
    && |t.sent| == |t.calls| <= limit
    && (forall i :: 0 <= i < |t.sent| ==>
          t.sent[i] == RequestOf(op, requestId, ExpectedAt(t.calls[..i], start), t.sent[i].epoch))
    && (forall i :: 0 <= i < |t.calls| - 1 ==> Retried(t.calls[i]))
  }

  function Extended(t: Trace, request: MutationRequest, call: Call): Trace
  {
    Trace(t.sent + [request], t.calls + [call])
  }

  lemma ExtendedIsFaithful(t: Trace, op: Operation, requestId: string, start: int, limit: nat, epoch: int, call: Call)
    requires Faithful(t, op, requestId, start, limit) && |t.sent| < limit
    requires forall i :: 0 <= i < |t.calls| ==> Retried(t.calls[i])
    ensures var request := RequestOf(op, requestId, ExpectedAt(t.calls, start), epoch);
      && Faithful(Extended(t, request, call), op, requestId, start, limit)
      && ExpectedAt(Extended(t, request, call).calls, start) == NextVersion(call, ExpectedAt(t.calls, start))
  {
    var request := RequestOf(op, requestId, ExpectedAt(t.calls, start), epoch);
    var after := Extended(t, request, call);
    assert after.calls[..|t.calls|] == t.calls;
    forall i | 0 <= i < |after.sent|
      ensures after.sent[i] == RequestOf(op, requestId, ExpectedAt(after.calls[..i], start), after.sent[i].epoch)
    {
      assert after.calls[..i] == t.calls[..i];
    }
  }

  /** What the reply owes to the last outcome. */
  predicate Justified(reply: ServiceReply, t: Trace)
  {
    && (reply.ok ==> t.calls != [] && Succeeded(t.calls[|t.calls| - 1]))
    && (t.calls != [] && Succeeded(t.calls[|t.calls| - 1]) ==> reply.ok)
    && (reply.outcomeUnknown ==>
          && reply.retryable && t.calls != []
          && var last := t.calls[|t.calls| - 1];
             last.Unreachable? || (last.Answer? && last.response.reason == AcknowledgementPending))
  }

  function NextTarget(recovered: Option<Target>, attempt: Attempt): Option<Target>
  {
    if recovered.Some? then recovered else attempt.resolved
  }

  /** Bids, withdrawals and reveals: conflicts are retried against the latest version, failovers as they are. */
  method RetryMutation(op: Operation, requestId: string, expectedVersion: int, limit: nat, script: nat -> Attempt)
    returns (reply: ServiceReply, trace: Trace)
    requires !op.CreateAuction?
    ensures Blank(requestId) ==> reply == REFUSED && trace.sent == []
    ensures Faithful(trace, op, requestId, expectedVersion, limit) && Justified(reply, trace)
    ensures reply.ok ==> reply.finalVersion == trace.calls[|trace.calls| - 1].response.currentVersion
  {
    trace := Trace([], []);
    if Blank(requestId) {
      return REFUSED, trace;
    }
    var version, recovered := expectedVersion, None;
    for attempt := 0 to limit
      invariant |trace.sent| == attempt && Faithful(trace, op, requestId, expectedVersion, limit)
      invariant forall i :: 0 <= i < attempt ==> Retried(trace.calls[i])
      invariant version == ExpectedAt(trace.calls, expectedVersion)
    {
      var now := script(attempt);
      var target := NextTarget(recovered, now);
      recovered := None;
      if target.None? || !now.inTime {
        return UNAVAILABLE, trace;
      }
      ExtendedIsFaithful(trace, op, requestId, expectedVersion, limit, target.value.epoch, now.call);
      trace := Extended(trace, RequestOf(op, requestId, version, target.value.epoch), now.call);
      match now.call
      case Answer(response) =>
        if response.success {
          return ServiceReply(true, false, false, response.currentVersion, ""), trace;
        }
        if response.reason == AcknowledgementPending {
          return ServiceReply(false, true, true, response.currentVersion, ""), trace;
        }
        if !IsConflict(now.call) || attempt == limit - 1 {
          return ServiceReply(false, false, false, response.currentVersion, ""), trace;
        }
        version := response.currentVersion;
      case Unreachable =>
        if attempt == limit - 1 || now.recovered.None? {
          return UNKNOWN, trace;
        }
        recovered := now.recovered;
      case Broken =>
        return REFUSED, trace;
    }
    return REFUSED, trace;
  }

  /** The auction a creation reports: the one storage named, or else the one it asked for. */
  function NamedAuction(response: Response, op: Operation): string
  {
    if response.auctionId != "" then response.auctionId else op.auctionId
  }

  /** A creation is retried after a failover only. */
  method RetryCreation(op: Operation, requestId: string, limit: nat, script: nat -> Attempt)
    returns (reply: ServiceReply, trace: Trace)
    requires op.CreateAuction?
    ensures Blank(requestId) ==> reply == REFUSED && trace.sent == []
    ensures Faithful(trace, op, requestId, 0, limit) && Justified(reply, trace)
    ensures forall i :: 0 <= i < |trace.calls| - 1 ==> trace.calls[i].Unreachable?
    ensures reply.auctionId ==
            if reply.ok then NamedAuction(trace.calls[|trace.calls| - 1].response, op) else ""
  {
    trace := Trace([], []);
    if Blank(requestId) {
      return REFUSED, trace;
    }
    var recovered := None;
    for attempt := 0 to limit
      invariant |trace.sent| == attempt && Faithful(trace, op, requestId, 0, limit)
      invariant forall i :: 0 <= i < attempt ==> trace.calls[i].Unreachable?
    {
      var now := script(attempt);
      var target := NextTarget(recovered, now);
      recovered := None;
      if target.None? || !now.inTime {
        return UNAVAILABLE, trace;
      }
      ExtendedIsFaithful(trace, op, requestId, 0, limit, target.value.epoch, now.call);
      trace := Extended(trace, RequestOf(op, requestId, 0, target.value.epoch), now.call);
      match now.call
      case Answer(response) =>
        if response.success {
          return ServiceReply(true, false, false, 0, NamedAuction(response, op)), trace;
        }
        if response.reason == AcknowledgementPending {
          return UNKNOWN, trace;
        }
        return REFUSED, trace;
      case Unreachable =>
        if attempt == limit - 1 || now.recovered.None? {
          return UNKNOWN, trace;
        }
        recovered := now.recovered;
      case Broken =>
        return REFUSED, trace;
    }
    return REFUSED, trace;
  }

  /** Wherever an attempt of the loop is submitted, it counts as an attempt of the same operation. */
  lemma AttemptsAreOne(t: Trace, op: Operation, requestId: string, start: int, limit: nat, i: nat, node: string,
      now: real)
    requires Faithful(t, op, requestId, start, limit) && i < |t.sent|
    ensures t.sent[i].requestId == requestId
    ensures Provenance.Attempts(Cluster.Submit(node, t.sent[i], now), requestId, FingerprintFor(op))
  {
  }

  /**
   * One call of the service, however its attempts end: if the submissions under its request id are attempts of
   * this call, every receipt under that id, on any replica, is this operation's, and there is one version for it.
   */
  lemma CallLeavesOneReceipt(
    t: Trace, op: Operation, requestId: string, start: int, limit: nat,
    w: Cluster.World, events: seq<Cluster.Event>, k: string)
    requires Faithful(t, op, requestId, start, limit)
    requires Durability.Reached(w) && Provenance.Unheard(w, requestId) && Cluster.Run(w, events)
    requires forall i :: 0 <= i < |events| && events[i].Submit? && events[i].request.requestId == requestId ==>
               events[i].request in t.sent
    requires k in Cluster.After(w, events).replicas
    ensures var records := Cluster.After(w, events).replicas[k].records;
      requestId in records ==>
        && records[requestId].fingerprint == FingerprintFor(op) && records[requestId].response.success
        && forall j :: j in records && j != requestId ==>
             !LocalInvariant.Names(records[j], records[requestId].response.auctionId,
                 records[requestId].response.currentVersion)
  {
    forall i | 0 <= i < |events| ensures Provenance.Attempts(events[i], requestId, FingerprintFor(op)) {
      if events[i].Submit? && events[i].request.requestId == requestId {
        var j :| 0 <= j < |t.sent| && t.sent[j] == events[i].request;
        AttemptsAreOne(t, op, requestId, start, limit, j, events[i].node, events[i].now);
      }
    }
    Provenance.OneOperationOneReceipt(w, events, requestId, FingerprintFor(op), k);
  }
}
