/** A storage replica as a value: each function is one lock-held region of a handler. */
module Replica {
  import opened Text
  import opened AuctionDomain

  datatype Role = Primary | Backup

  datatype Fingerprint =
    | CreateFingerprint(
        auctionId: string, sellerId: string, title: string, category: string, description: string,
        reservePrice: Money, endsAt: Option<Timestamp>)
    | BidFingerprint(auctionId: string, bidderId: string, amount: Money)
    | WithdrawFingerprint(auctionId: string, bidderId: string)
    | RevealFingerprint(auctionId: string, sellerId: string)
    | OtherFingerprint(kind: MutationType, auctionId: string)

  datatype Response = Response(
    success: bool, currentVersion: int, reason: FailureReason, auctionId: string, replayed: bool)

  datatype Record = Record(requestId: string, fingerprint: Fingerprint, response: Response)

  datatype Prepare = Prepare(
    requestId: string, candidate: Auction, record: Record, primaryId: string, epoch: int)

  datatype Decision = Decision(requestId: string, auctionId: string, primaryId: string, epoch: int)

  datatype CommitDecision = CommitDecision(
    requestId: string, auction: Auction, record: Record, primaryId: string,
    backupAddress: string, epoch: int)

  /** `reported` is the readiness the replica announces to the controller; it is not persisted. */
  datatype State = State(
    address: string,
    role: Role,
    auctions: map<string, Auction>,
    records: map<string, Record>,
    prepared: map<string, Prepare>,
    aborted: map<string, Decision>,
    pending: map<string, CommitDecision>,
    epoch: int,
    ready: bool,
    backup: string,
    reported: bool)

  function Failure(reason: FailureReason, currentVersion: int, auctionId: string): Response
  {
    Response(false, currentVersion, reason, auctionId, false)
  }

  function VersionOf(auctions: map<string, Auction>, auctionId: string): int
  {
    if auctionId in auctions then auctions[auctionId].version else 0
  }

  // ---------------------------------------------------------------- the primary's side of a mutation

  function EffectiveType(request: MutationRequest, existing: Option<Auction>): MutationType
  {
    if request.mutationType != UnspecifiedType then request.mutationType
    else if existing.None? then Create
    else if request.auction.bids != map[] then PlaceBid
    else UnspecifiedType
  }

  function FingerprintOf(request: MutationRequest, kind: MutationType): Fingerprint
  {
    var auction := request.auction;
    match kind
    case Create =>
      CreateFingerprint(auction.auctionId, auction.sellerId, auction.title, auction.category,
                        auction.description, auction.reservePrice, auction.endsAt)
    case PlaceBid =>
      if request.bidderId != "" then
        BidFingerprint(auction.auctionId, request.bidderId,
                       if request.bidderId in auction.bids then auction.bids[request.bidderId] else Finite(0.0))
      else if |auction.bids| == 1 then
        BidFingerprint(auction.auctionId, OnlyKey(auction.bids), auction.bids[OnlyKey(auction.bids)])
      else BidFingerprint(auction.auctionId, "", Finite(0.0))
    case WithdrawBid => WithdrawFingerprint(auction.auctionId, request.bidderId)
    case Reveal => RevealFingerprint(auction.auctionId, auction.sellerId)
    case UnspecifiedType => OtherFingerprint(kind, auction.auctionId)
  }

  /** How a mutation starts: an immediate reply, an unfinished commit to resume, or a proposal. */
  datatype Start =
    | Reply(response: Response)
    | Resume(requestId: string)
    | Propose(requestId: string, candidate: Auction, record: Record, previousVersion: int)

  function StartMutation(r: State, request: MutationRequest, now: real): Start
  {
    var id := request.requestId;
    if r.role != Primary || !r.ready then Reply(Failure(InvalidState, 0, ""))
    else if request.epoch != r.epoch then Reply(Failure(StaleEpoch, 0, ""))
    else if id != "" && id in r.aborted then Reply(Failure(IdempotencyConflict, 0, ""))
    else
      var existing := Lookup(r.auctions, request.auction.auctionId);
      var kind := EffectiveType(request, existing);
      var fingerprint := FingerprintOf(request, kind);
      if id != "" && id in r.records then
        if r.records[id].fingerprint != fingerprint then
          Reply(Failure(IdempotencyConflict, VersionOf(r.auctions, request.auction.auctionId), ""))
        else if id in r.pending then Resume(id)
        else Reply(r.records[id].response.(replayed := true))
      else
        match BuildCandidate(request, kind, existing, now)
        case Rejected(reason, version) => Reply(Failure(reason, version, ""))
        case Candidate(candidate) =>
          var previous := VersionOf(r.auctions, request.auction.auctionId);
          if id == "" then Reply(Failure(InvalidState, previous, ""))
          else
            var response := Response(true, candidate.version, NoFailure, candidate.auctionId, false);
            Propose(id, candidate, Record(id, fingerprint, response), previous)
  }

  function PrepareMessage(r: State, id: string, candidate: Auction, record: Record): Prepare
  {
    Prepare(id, candidate, record, r.address, r.epoch)
  }

  function AbortMessage(r: State, id: string, auctionId: string): Decision
  {
    Decision(id, auctionId, r.address, r.epoch)
  }

  function CommitMessage(decision: CommitDecision): Decision
  {
    Decision(decision.requestId, decision.auction.auctionId, decision.primaryId, decision.epoch)
  }

  /** Durably publishes the candidate, its receipt and the pending decision, or changes nothing. */
  function RecordDecision(r: State, id: string, candidate: Auction, record: Record, saved: bool): (State, bool)
  {
    if r.role != Primary || id == "" || candidate.auctionId == "" || r.backup == "" || !saved then (r, false)
    else
      var decision := CommitDecision(id, candidate, record, r.address, r.backup, r.epoch);
      (r.(auctions := r.auctions[candidate.auctionId := candidate],
          records := r.records[id := record],
          pending := r.pending[id := decision]), true)
  }

  /** Clears a pending decision after the backup acknowledged its version, or changes nothing. */
  function ClearPending(r: State, id: string, reply: Option<DecisionReply>, saved: bool): (State, bool)
  {
    if r.role != Primary || id !in r.pending || r.pending[id].backupAddress == "" then (r, false)
    else if reply.None? || !reply.value.success
            || reply.value.committedVersion != r.pending[id].auction.version || !saved then (r, false)
    else (r.(pending := r.pending - {id}), true)
  }

  // ---------------------------------------------------------------- the backup's side of a mutation

  datatype PrepareReply = PrepareReply(success: bool, preparedVersion: int)

  datatype DecisionReply = DecisionReply(success: bool, committedVersion: int)

  function OnPrepare(r: State, m: Prepare, saved: bool): (State, PrepareReply)
  {
    var id := Strip(m.requestId);
    var auctionId := Strip(m.candidate.auctionId);
    var refused := (r, PrepareReply(false, 0));
    if r.role != Backup || m.epoch != r.epoch then refused
    else if id == "" || Blank(m.primaryId) || auctionId == "" then refused
    else if id in r.aborted then refused
    else if id in r.prepared then
      (r, if r.prepared[id] == m then PrepareReply(true, m.candidate.version)
          else PrepareReply(false, VersionOf(r.auctions, auctionId)))
    else if id in r.records || m.record.requestId != id then refused
    else if !CommittedStateValid(m.candidate) then refused
    else if m.candidate.version != VersionOf(r.auctions, auctionId) + 1 then
      (r, PrepareReply(false, VersionOf(r.auctions, auctionId)))
    else if !saved then refused
    else (r.(prepared := r.prepared[id := m]), PrepareReply(true, m.candidate.version))
  }

  function OnCommit(r: State, m: Decision, saved: bool): (State, DecisionReply)
  {
    var id := Strip(m.requestId);
    var auctionId := Strip(m.auctionId);
    var primaryId := Strip(m.primaryId);
    var refused := (r, DecisionReply(false, 0));
    if r.role != Backup || m.epoch != r.epoch then refused
    else if id == "" || auctionId == "" || primaryId == "" then refused
    else if id in r.aborted then refused
    else if id !in r.prepared then
      if id in r.records && r.records[id].response.success && r.records[id].response.auctionId == auctionId then
        (r, DecisionReply(true, r.records[id].response.currentVersion))
      else refused
    else
      var prepared := r.prepared[id];
      var current := VersionOf(r.auctions, auctionId);
      if prepared.candidate.auctionId != auctionId || prepared.primaryId != primaryId then refused
      else if prepared.candidate.version != current + 1 || !saved then (r, DecisionReply(false, current))
      else
        (r.(auctions := r.auctions[auctionId := prepared.candidate],
            records := r.records[id := prepared.record],
            prepared := r.prepared - {id}),
         DecisionReply(true, prepared.candidate.version))
  }

  function OnAbort(r: State, m: Decision, saved: bool): (State, DecisionReply)
  {
    var id := Strip(m.requestId);
    var auctionId := Strip(m.auctionId);
    var primaryId := Strip(m.primaryId);
    var refused := (r, DecisionReply(false, 0));
    var current := VersionOf(r.auctions, auctionId);
    if r.role != Backup || m.epoch != r.epoch then refused
    else if id == "" || auctionId == "" || primaryId == "" then refused
    else if id in r.records then refused
    else if id in r.aborted then
      (r, DecisionReply(r.aborted[id].auctionId == auctionId && r.aborted[id].primaryId == primaryId, current))
    else if id !in r.prepared then (r, DecisionReply(true, current))
    else
      var prepared := r.prepared[id];
      if prepared.candidate.auctionId != auctionId || prepared.primaryId != primaryId || !saved then
        (r, DecisionReply(false, current))
      else
        (r.(prepared := r.prepared - {id}, aborted := r.aborted[id := m]), DecisionReply(true, current))
  }

  // ---------------------------------------------------------------- a whole mutation at the primary

  /** What the network and the disk do to one mutation; `None` is a call without an answer. */
  datatype Network = Network(
    prepare: Option<PrepareReply>, decided: bool, commit: Option<DecisionReply>, cleared: bool)

  /** The reply of a mutation that proposes `candidate`: prepare, decide durably, then commit at the backup. */
  function Coordinate(
    r: State, id: string, candidate: Auction, record: Record, previousVersion: int, net: Network): (State, Response)
  {
    var failed := Failure(ReplicationFailed, previousVersion, candidate.auctionId);
    if r.role != Primary || r.backup == "" || net.prepare.None? || !net.prepare.value.success
       || net.prepare.value.preparedVersion != candidate.version then (r, failed)
    else
      var (decided, done) := RecordDecision(r, id, candidate, record, net.decided);
      if !done then (decided, failed)
      else
        var (cleared, acknowledged) := ClearPending(decided, id, net.commit, net.cleared);
        (cleared, if acknowledged then Response(true, candidate.version, NoFailure, candidate.auctionId, false)
                  else Failure(AcknowledgementPending, candidate.version, candidate.auctionId))
  }

  function Apply(r: State, request: MutationRequest, now: real, net: Network): (State, Response)
  {
    match StartMutation(r, request, now)
    case Reply(response) => (r, response)
    case Resume(id) =>
      var (cleared, acknowledged) := ClearPending(r, id, net.commit, net.cleared);
      (cleared,
       if !acknowledged && id in r.pending then
         Failure(AcknowledgementPending, r.pending[id].auction.version, r.pending[id].auction.auctionId)
       else if id in r.records then r.records[id].response.(replayed := true)
       else Failure(InvalidState, 0, ""))
    case Propose(id, candidate, record, previous) => Coordinate(r, id, candidate, record, previous, net)
  }

  // ---------------------------------------------------------------- promotion and synchronization

  /** Accepting a new epoch fences the previous primary and discards every prepared mutation. */
  function OnBegin(r: State, epoch: int, saved: bool): (State, bool)
  {
    if epoch <= 0 || epoch < r.epoch then (r, false)
    else if epoch == r.epoch then (r, r.role == Primary)
    else if !saved then (r, false)
    else (r.(role := Primary, epoch := epoch, ready := false, reported := false, prepared := map[]), true)
  }

  predicate Confirmed(r: State, epoch: int)
  {
    && epoch > 0 && epoch == r.epoch
    && r.role == Primary
    && (forall k :: k in r.auctions ==> CommittedStateValid(r.auctions[k]))
    && r.prepared == map[]
    && r.pending == map[]
  }

  function OnComplete(r: State, epoch: int, backupAddress: string, saved: bool): (State, bool)
  {
    var backup := Strip(backupAddress);
    if epoch != r.epoch || r.role != Primary || backup == "" || backup == r.address then (r, false)
    else if r.ready && r.backup == backup then (r, true)
    else if !saved then (r, false)
    else (r.(backup := backup, ready := true, reported := true), true)
  }

  /** What a replica hands to a replica that synchronizes from it. */
  datatype FullState = FullState(auctions: map<string, Auction>, records: map<string, Record>)

  function OnSyncFullState(r: State, epoch: int): Option<FullState>
  {
    if r.role != Primary || epoch != r.epoch then None
    else Some(FullState(r.auctions, r.records))
  }

  predicate Installable(full: FullState)
  {
    && (forall k :: k in full.auctions ==> !Blank(k) && CommittedStateValid(full.auctions[k]))
    && (forall k :: k in full.records ==> !Blank(k))
  }

  function OnInstall(r: State, full: FullState, epoch: int, saved: bool): (State, bool)
  {
    if !Installable(full) || r.role != Backup || epoch < r.epoch || !saved then (r, false)
    else
      (r.(auctions := full.auctions, records := full.records, prepared := map[], aborted := map[],
          pending := map[], epoch := epoch, ready := false, reported := false), true)
  }

  /** A restart: the role is not stored, it follows from readiness and a configured backup. */
  function Reload(r: State): State
  {
    var primary := r.ready && r.backup != "";
    r.(role := if primary then Primary else Backup, reported := primary)
  }
}
