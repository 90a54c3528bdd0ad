/** What every handler keeps on a single replica, whatever the network does. */
module LocalInvariant {
  import opened Text
  import opened AuctionDomain
  import opened AuctionLog
  import opened Replica

  /** A usable identifier: not empty and without surrounding white space. */
  predicate Id(s: string)
  {
    s != "" && Trimmed(s)
  }

  /** The receipt of an auction: it names the auction and the version it produced. */
  predicate Receipts(record: Record, auction: Auction)
  {
    && record.response.success
    && record.response.currentVersion == auction.version
    && record.response.auctionId == auction.auctionId
  }

  ghost predicate StoreOk(auctions: map<string, Auction>)
  {
    forall k :: k in auctions ==> auctions[k].auctionId == k && Id(k) && Reachable(auctions[k])
  }

  predicate Names(record: Record, auctionId: string, version: int)
  {
    record.response.auctionId == auctionId && record.response.currentVersion == version
  }

  predicate ReceiptInRange(auctions: map<string, Auction>, record: Record)
  {
    && record.response.success
    && 1 <= record.response.currentVersion <= VersionOf(auctions, record.response.auctionId)
  }

  predicate Exists(auctions: map<string, Auction>, auctionId: string, version: int)
  {
    1 <= version <= VersionOf(auctions, auctionId)
  }

  ghost predicate Accounted(records: map<string, Record>, auctionId: string, version: int)
  {
    exists k :: k in records && Names(records[k], auctionId, version)
  }

  predicate ReceiptsInRange(auctions: map<string, Auction>, records: map<string, Record>)
  {
    forall k :: k in records ==> records[k].requestId == k && Id(k) && ReceiptInRange(auctions, records[k])
  }

  ghost predicate ReceiptsDistinct(records: map<string, Record>)
  {
    forall j, k, a, n :: j in records && k in records && Names(records[j], a, n) && Names(records[k], a, n) ==> j == k
  }

  ghost predicate VersionsAccounted(auctions: map<string, Auction>, records: map<string, Record>)
  {
    forall a, n :: Exists(auctions, a, n) ==> Accounted(records, a, n)
  }

  /** Exactly-once accounting: versions 1..n of an auction and the receipts naming it are in bijection. */
  ghost predicate Accounting(auctions: map<string, Auction>, records: map<string, Record>)
  {
    && ReceiptsInRange(auctions, records)
    && ReceiptsDistinct(records)
    && VersionsAccounted(auctions, records)
  }

  /** A prepare message as a primary with trimmed identifiers sends it. */
  ghost predicate GoodPrepare(m: Prepare)
  {
    && Id(m.requestId)
    && Id(m.candidate.auctionId)
    && Id(m.primaryId)
    && Reachable(m.candidate)
    && m.record.requestId == m.requestId
    && Receipts(m.record, m.candidate)
  }

  ghost predicate Stageable(auctions: map<string, Auction>, m: Prepare)
  {
    GoodPrepare(m) && m.candidate.version <= VersionOf(auctions, m.candidate.auctionId) + 1
  }

  ghost predicate PreparedOk(auctions: map<string, Auction>, prepared: map<string, Prepare>)
  {
    forall k :: k in prepared ==> prepared[k].requestId == k && Stageable(auctions, prepared[k])
  }

  /** A pending decision repeats the receipt the primary already holds. */
  predicate Decides(decision: CommitDecision, id: string, record: Record)
  {
    && decision.requestId == id
    && decision.record == record
    && Receipts(record, decision.auction)
    && Id(decision.auction.auctionId)
    && Id(decision.primaryId)
  }

  predicate PendingOk(records: map<string, Record>, pending: map<string, CommitDecision>)
  {
    forall k :: k in pending ==> k in records && Decides(pending[k], k, records[k])
  }

  predicate AbortedOk(r: State)
  {
    forall k :: k in r.aborted ==> r.aborted[k].requestId == k
  }

  /** A request id is committed, prepared or aborted, never two of them. */
  predicate Disjoint(r: State)
  {
    && r.records.Keys !! r.prepared.Keys
    && r.records.Keys !! r.aborted.Keys
    && r.prepared.Keys !! r.aborted.Keys
  }

  ghost predicate Sound(r: State)
  {
    && StoreOk(r.auctions)
    && Accounting(r.auctions, r.records)
    && PreparedOk(r.auctions, r.prepared)
    && PendingOk(r.records, r.pending)
    && AbortedOk(r)
    && Disjoint(r)
  }

  /** A primary's proposal that no receipt or tombstone of the replica contradicts. */
  ghost predicate Proposable(r: State, id: string, candidate: Auction, record: Record)
  {
    && id !in r.records
    && id !in r.aborted
    && GoodPrepare(PrepareMessage(r, id, candidate, record))
    && candidate.version == VersionOf(r.auctions, candidate.auctionId) + 1
  }

  // ---------------------------------------------------------------- accounting

  lemma OneMoreReceipt(auctions: map<string, Auction>, records: map<string, Record>, id: string, auction: Auction,
      record: Record)
    requires Accounting(auctions, records)
    requires id !in records && record.requestId == id && Id(id)
    requires Receipts(record, auction) && auction.version == VersionOf(auctions, auction.auctionId) + 1
    requires auction.version >= 1
    ensures Accounting(auctions[auction.auctionId := auction], records[id := record])
  {
    var after, more := auctions[auction.auctionId := auction], records[id := record];
    forall k | k in more ensures more[k].requestId == k && Id(k) && ReceiptInRange(after, more[k]) {
      assert k != id ==> ReceiptInRange(auctions, records[k]);
    }
    assert forall k :: k in records ==> !Names(records[k], auction.auctionId, auction.version) by {
      forall k | k in records ensures !Names(records[k], auction.auctionId, auction.version) {
        assert ReceiptInRange(auctions, records[k]);
      }
    }
    forall a, n | Exists(after, a, n) ensures Accounted(more, a, n) {
      if Exists(auctions, a, n) {
        assert Accounted(records, a, n);
        var k :| k in records && Names(records[k], a, n);
        assert k in more && Names(more[k], a, n);
      } else {
        assert id in more && Names(more[id], a, n);
      }
    }
  }

  function ReceiptsUpTo(records: map<string, Record>, auctionId: string, version: int): set<string>
  {
    set k | k in records && records[k].response.auctionId == auctionId
        && 1 <= records[k].response.currentVersion <= version
  }

  /** The receipts of the first n versions of an auction are n in number. */
  lemma {:induction false} ReceiptsCounted(auctions: map<string, Auction>, records: map<string, Record>,
      auctionId: string, n: nat)
    requires Accounting(auctions, records) && n <= VersionOf(auctions, auctionId)
    ensures |ReceiptsUpTo(records, auctionId, n)| == n
  {
    if n == 0 {
      assert ReceiptsUpTo(records, auctionId, 0) == {};
    } else {
      assert Exists(auctions, auctionId, n);
      assert Accounted(records, auctionId, n);
      var k :| k in records && Names(records[k], auctionId, n);
      ReceiptsCounted(auctions, records, auctionId, n - 1);
      forall j | j in ReceiptsUpTo(records, auctionId, n)
        ensures j == k || j in ReceiptsUpTo(records, auctionId, n - 1)
      {
        assert records[j].response.currentVersion == n ==> Names(records[j], auctionId, n);
      }
      assert ReceiptsUpTo(records, auctionId, n) == ReceiptsUpTo(records, auctionId, n - 1) + {k};
    }
  }

  function ReceiptsOf(records: map<string, Record>, auctionId: string): set<string>
  {
    set k | k in records && records[k].response.auctionId == auctionId
  }

  /** The version of an auction is the number of receipts naming it, one for each version. */
  lemma VersionCountsReceipts(auctions: map<string, Auction>, records: map<string, Record>, auctionId: string)
    requires StoreOk(auctions) && Accounting(auctions, records)
    ensures |ReceiptsOf(records, auctionId)| == VersionOf(auctions, auctionId)
  {
    var n := VersionOf(auctions, auctionId);
    if auctionId in auctions {
      ReachablePassesCheck(auctions[auctionId]);
    }
    ReceiptsCounted(auctions, records, auctionId, n);
    forall k | k in ReceiptsOf(records, auctionId) ensures k in ReceiptsUpTo(records, auctionId, n) {
      assert ReceiptInRange(auctions, records[k]);
    }
    assert ReceiptsOf(records, auctionId) == ReceiptsUpTo(records, auctionId, n);
  }

  lemma OneMoreAuction(auctions: map<string, Auction>, auction: Auction)
    requires StoreOk(auctions) && Id(auction.auctionId) && Reachable(auction)
    requires auction.version == VersionOf(auctions, auction.auctionId) + 1
    ensures StoreOk(auctions[auction.auctionId := auction])
    ensures forall a :: VersionOf(auctions, a) <= VersionOf(auctions[auction.auctionId := auction], a)
  {
  }

  // ---------------------------------------------------------------- the primary's regions

  lemma StartIsProposable(r: State, request: MutationRequest, now: real)
    requires Sound(r) && Id(r.address)
    requires Trimmed(request.requestId) && Trimmed(request.auction.auctionId)
    requires StartMutation(r, request, now).Propose?
    ensures var s := StartMutation(r, request, now);
      Proposable(r, s.requestId, s.candidate, s.record) && s.requestId == request.requestId
  {
    var existing := Lookup(r.auctions, request.auction.auctionId);
    var kind := EffectiveType(request, existing);
    CandidateReachable(request, kind, existing, now);
  }

  /** Committing a receipt and its auction, the step both sides of a commit share. */
  lemma CommitSound(r: State, id: string, auction: Auction, record: Record)
    requires Sound(r) && id !in r.records && Id(id) && record.requestId == id
    requires Id(auction.auctionId) && Reachable(auction) && Receipts(record, auction)
    requires auction.version == VersionOf(r.auctions, auction.auctionId) + 1
    ensures var auctions, records := r.auctions[auction.auctionId := auction], r.records[id := record];
      && StoreOk(auctions)
      && Accounting(auctions, records)
      && PreparedOk(auctions, r.prepared)
      && PendingOk(records, r.pending)
  {
    var auctions := r.auctions[auction.auctionId := auction];
    ReachablePassesCheck(auction);
    OneMoreReceipt(r.auctions, r.records, id, auction, record);
    OneMoreAuction(r.auctions, auction);
    forall k | k in r.prepared ensures Stageable(auctions, r.prepared[k]) {
      assert Stageable(r.auctions, r.prepared[k]);
    }
  }

  lemma OneMorePending(r: State, id: string, decision: CommitDecision, record: Record)
    requires PendingOk(r.records, r.pending) && Decides(decision, id, record)
    ensures PendingOk(r.records[id := record], r.pending[id := decision])
  {
  }

  lemma RecordDecisionSound(r: State, id: string, candidate: Auction, record: Record, saved: bool)
    requires Sound(r) && Proposable(r, id, candidate, record) && id !in r.prepared
    ensures Sound(RecordDecision(r, id, candidate, record, saved).0)
  {
    if RecordDecision(r, id, candidate, record, saved).1 {
      assert Id(id) && Id(candidate.auctionId) && Reachable(candidate) && Receipts(record, candidate);
      CommitSound(r, id, candidate, record);
      OneMorePending(r, id, CommitDecision(id, candidate, record, r.address, r.backup, r.epoch), record);
    }
  }

  lemma ClearPendingSound(r: State, id: string, reply: Option<DecisionReply>, saved: bool)
    requires Sound(r)
    ensures Sound(ClearPending(r, id, reply, saved).0)
  {
  }

  // ---------------------------------------------------------------- the backup's handlers

  lemma OnPrepareSound(r: State, m: Prepare, saved: bool)
    requires Sound(r) && GoodPrepare(m)
    ensures Sound(OnPrepare(r, m, saved).0)
  {
  }

  lemma OnCommitSound(r: State, m: Decision, saved: bool)
    requires Sound(r)
    ensures Sound(OnCommit(r, m, saved).0)
  {
    var id := Strip(m.requestId);
    if OnCommit(r, m, saved).0 != r {
      assert Stageable(r.auctions, r.prepared[id]);
      CommitSound(r, id, r.prepared[id].candidate, r.prepared[id].record);
    }
  }

  lemma TombstoneSound(r: State, m: Decision)
    requires Sound(r) && m.requestId !in r.records
    ensures Sound(r.(prepared := r.prepared - {m.requestId}, aborted := r.aborted[m.requestId := m]))
  {
    forall k | k in r.prepared - {m.requestId} ensures Stageable(r.auctions, r.prepared[k]) {
      assert Stageable(r.auctions, r.prepared[k]);
    }
  }

  lemma OnAbortSound(r: State, m: Decision, saved: bool)
    requires Sound(r) && Trimmed(m.requestId)
    ensures Sound(OnAbort(r, m, saved).0)
  {
    if OnAbort(r, m, saved).0 != r {
      TombstoneSound(r, m);
    }
  }

  // ---------------------------------------------------------------- promotion and synchronization

  lemma OnBeginSound(r: State, epoch: int, saved: bool)
    requires Sound(r)
    ensures Sound(OnBegin(r, epoch, saved).0)
  {
  }

  lemma OnInstallSound(r: State, full: FullState, epoch: int, saved: bool)
    requires Sound(r) && StoreOk(full.auctions) && Accounting(full.auctions, full.records)
    ensures Sound(OnInstall(r, full, epoch, saved).0)
  {
  }

  /** Confirmation never fails on the auctions of a sound replica, and its state can be installed. */
  lemma SoundStateInstalls(r: State)
    requires Sound(r)
    ensures forall k :: k in r.auctions ==> CommittedStateValid(r.auctions[k])
    ensures Installable(FullState(r.auctions, r.records))
  {
  }
}
