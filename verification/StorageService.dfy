/**
 * The storage replica as an object updated in place. Every handler changes the fields, writes a snapshot and
 * undoes the changes when the write fails; each is proved equal to the region of the same name.
 */
module StorageService {
  import opened Text
  import opened AuctionDomain
  import opened Replica
  import opened Snapshot
  import opened Reconciliation
  import LocalInvariant

  function Put<V>(m: map<string, V>, key: string, previous: Option<V>): map<string, V>
  {
    if previous.None? then m - {key} else m[key := previous.value]
  }

  lemma PutUndoes<V>(m: map<string, V>, key: string, value: V)
    ensures Put(m[key := value], key, Lookup(m, key)) == m
  {
  }

  class StorageReplicaService {
    const nodeAddress: string
    var replicaRole: Role
    var auctionStore: map<string, Auction>
    var idempotencyRecords: map<string, Record>
    var preparedMutations: map<string, Prepare>
    var abortedMutations: map<string, Decision>
    var pendingBackupCommits: map<string, CommitDecision>
    var currentEpoch: int
    var promotionReady: bool
    var storageMetricsReady: bool
    var synchronousBackupAddress: string
    var disk: Snapshot

    /** A replica that has saved its empty state once. */
    constructor (address: string, backup: string)
      ensures Valid() && nodeAddress == address
      ensures View() == State(address, Backup, map[], map[], map[], map[], map[], 0, false, backup, false)
    {
      nodeAddress, replicaRole, synchronousBackupAddress := address, Backup, backup;
      auctionStore, idempotencyRecords, preparedMutations := map[], map[], map[];
      abortedMutations, pendingBackupCommits := map[], map[];
      currentEpoch, promotionReady, storageMetricsReady := 0, false, false;
      disk := Snapshot([], [], [], [], [], 0, false, backup);
      new;
      EmptyLists<Auction>();
      EmptyLists<Record>();
      EmptyLists<Prepare>();
      EmptyLists<Decision>();
      EmptyLists<CommitDecision>();
    }

    function View(): State
      reads this
    {
      State(nodeAddress, replicaRole, auctionStore, idempotencyRecords, preparedMutations, abortedMutations,
            pendingBackupCommits, currentEpoch, promotionReady, synchronousBackupAddress, storageMetricsReady)
    }

    /** The snapshot on the disk is the state in memory. */
    ghost predicate Valid()
      reads this
    {
      Saves(disk, View())
    }

    // -------------------------------------------------------------- persistence

    /** An atomic save: all of the state or, when it fails, none of it. */
    method PersistStateToDisk(saved: bool)
      modifies `disk
      ensures saved ==> Valid()
      ensures !saved ==> disk == old(disk)
    {
      var auctions := Values(auctionStore);
      var records := Values(idempotencyRecords);
      var prepared := Values(preparedMutations);
      var aborted := Values(abortedMutations);
      var pending := Values(pendingBackupCommits);
      var snapshot := Snapshot(auctions, records, prepared, aborted, pending,
                               currentEpoch, promotionReady, synchronousBackupAddress);
      if saved {
        disk := snapshot;
      }
    }

    /** A restart: everything comes from the snapshot, or loading refuses it and changes nothing. */
    method LoadStateFromDisk() returns (loaded: bool)
      modifies this
      ensures disk == old(disk)
      ensures loaded <==> Loadable(disk)
      ensures View() == if loaded then Loaded(nodeAddress, disk) else old(View())
    {
      var stored := Read(nodeAddress, disk);
      loaded := stored.Some?;
      if loaded {
        Adopt(stored.value);
      }
    }

    method Adopt(r: State)
      requires r.address == nodeAddress
      modifies this
      ensures View() == r && disk == old(disk)
    {
      auctionStore, idempotencyRecords, preparedMutations := r.auctions, r.records, r.prepared;
      abortedMutations, pendingBackupCommits := r.aborted, r.pending;
      currentEpoch, promotionReady, synchronousBackupAddress := r.epoch, r.ready, r.backup;
      replicaRole, storageMetricsReady := r.role, r.reported;
    }

    /** A crash after the last successful handler: a storable replica comes back as it was. */
    method Restart() returns (loaded: bool)
      requires Valid()
      modifies this
      ensures loaded && View() == Reload(old(View())) <==> Storable(old(View()))
      ensures Storable(old(View())) ==> Valid()
    {
      ghost var before := View();
      LoadRestores(disk, before);
      SavedIsReloaded(disk, before);
      loaded := LoadStateFromDisk();
    }

    // -------------------------------------------------------------- the backup's side of a mutation

    /** The reply that refuses a preparation or repeats an earlier one. */
    method AnswerPrepare(m: Prepare) returns (reply: Option<PrepareReply>)
      ensures reply.Some? ==> forall saved :: OnPrepare(View(), m, saved) == (View(), reply.value)
      ensures reply.None? ==>
        && Strip(m.requestId) !in preparedMutations
        && OnPrepare(View(), m, false) == (View(), PrepareReply(false, 0))
        && OnPrepare(View(), m, true) ==
             (View().(prepared := preparedMutations[Strip(m.requestId) := m]), PrepareReply(true, m.candidate.version))
    {
      if replicaRole != Backup || m.epoch != currentEpoch {
        return Some(PrepareReply(false, 0));
      }
      var id, auctionId := Strip(m.requestId), Strip(m.candidate.auctionId);
      if id == "" || Strip(m.primaryId) == "" || auctionId == "" || id in abortedMutations {
        return Some(PrepareReply(false, 0));
      }
      var current := if auctionId in auctionStore then auctionStore[auctionId].version else 0;
      if id in preparedMutations {
        if preparedMutations[id] == m {
          return Some(PrepareReply(true, preparedMutations[id].candidate.version));
        }
        return Some(PrepareReply(false, current));
      }
      if id in idempotencyRecords || m.record.requestId != id || !CommittedStateValid(m.candidate) {
        return Some(PrepareReply(false, 0));
      }
      if m.candidate.version != current + 1 {
        return Some(PrepareReply(false, current));
      }
      return None;
    }

    method PrepareAuctionMutation(m: Prepare, saved: bool) returns (reply: PrepareReply)
      requires Valid()
      modifies this
      ensures Valid() && (View(), reply) == OnPrepare(old(View()), m, saved)
    {
      var answered := AnswerPrepare(m);
      if answered.Some? {
        return answered.value;
      }
      var id := Strip(m.requestId);
      preparedMutations := preparedMutations[id := m];
      PersistStateToDisk(saved);
      if !saved {
        preparedMutations := preparedMutations - {id};
        assert preparedMutations == old(preparedMutations);
        return PrepareReply(false, 0);
      }
      return PrepareReply(true, m.candidate.version);
    }

    /** The reply that refuses a commit or repeats an earlier one. */
    method AnswerCommit(m: Decision) returns (reply: Option<DecisionReply>)
      ensures reply.Some? ==> forall saved :: OnCommit(View(), m, saved) == (View(), reply.value)
      ensures reply.None? ==>
        var id, auctionId := Strip(m.requestId), Strip(m.auctionId);
        && id in preparedMutations && preparedMutations[id].candidate.auctionId == auctionId
        && OnCommit(View(), m, false) == (View(), DecisionReply(false, VersionOf(auctionStore, auctionId)))
        && OnCommit(View(), m, true) ==
             (View().(auctions := auctionStore[auctionId := preparedMutations[id].candidate],
                      records := idempotencyRecords[id := preparedMutations[id].record],
                      prepared := preparedMutations - {id}),
              DecisionReply(true, preparedMutations[id].candidate.version))
    {
      if replicaRole != Backup || m.epoch != currentEpoch {
        return Some(DecisionReply(false, 0));
      }
      var id, auctionId, primaryId := Strip(m.requestId), Strip(m.auctionId), Strip(m.primaryId);
      if id == "" || auctionId == "" || primaryId == "" || id in abortedMutations {
        return Some(DecisionReply(false, 0));
      }
      if id !in preparedMutations {
        if id in idempotencyRecords && idempotencyRecords[id].response.success
           && idempotencyRecords[id].response.auctionId == auctionId {
          return Some(DecisionReply(true, idempotencyRecords[id].response.currentVersion));
        }
        return Some(DecisionReply(false, 0));
      }
      var prepared := preparedMutations[id];
      if prepared.candidate.auctionId != auctionId || prepared.primaryId != primaryId {
        return Some(DecisionReply(false, 0));
      }
      var current := if auctionId in auctionStore then auctionStore[auctionId].version else 0;
      if prepared.candidate.version != current + 1 {
        return Some(DecisionReply(false, current));
      }
      return None;
    }

    method CommitPreparedMutation(m: Decision, saved: bool) returns (reply: DecisionReply)
      requires Valid()
      modifies this
      ensures Valid() && (View(), reply) == OnCommit(old(View()), m, saved)
    {
      var answered := AnswerCommit(m);
      if answered.Some? {
        return answered.value;
      }
      var id, auctionId := Strip(m.requestId), Strip(m.auctionId);
      var prepared, previous := preparedMutations[id], VersionOf(auctionStore, auctionId);
      PublishPrepared(id, auctionId, prepared, saved);
      return DecisionReply(saved, if saved then prepared.candidate.version else previous);
    }

    method PublishPrepared(id: string, auctionId: string, prepared: Prepare, saved: bool)
      requires Valid() && id in preparedMutations && preparedMutations[id] == prepared
      modifies this
      ensures Valid()
      ensures View() == if saved then
        old(View()).(auctions := old(auctionStore)[auctionId := prepared.candidate],
                     records := old(idempotencyRecords)[id := prepared.record],
                     prepared := old(preparedMutations) - {id})
        else old(View())
    {
      var previousAuction, previousRecord := Lookup(auctionStore, auctionId), Lookup(idempotencyRecords, id);
      auctionStore := auctionStore[auctionId := prepared.candidate];
      idempotencyRecords := idempotencyRecords[id := prepared.record];
      preparedMutations := preparedMutations - {id};
      PersistStateToDisk(saved);
      if !saved {
        PutUndoes(old(auctionStore), auctionId, prepared.candidate);
        PutUndoes(old(idempotencyRecords), id, prepared.record);
        RestoreCommitted(id, auctionId, previousAuction, previousRecord, prepared);
        assert preparedMutations == old(preparedMutations);
        assert View() == old(View());
      }
    }

    /** Puts back what a failed save has to undo. */
    method RestoreCommitted(
      id: string, auctionId: string, previousAuction: Option<Auction>, previousRecord: Option<Record>,
      prepared: Prepare)
      modifies `auctionStore, `idempotencyRecords, `preparedMutations
      ensures auctionStore == Put(old(auctionStore), auctionId, previousAuction)
      ensures idempotencyRecords == Put(old(idempotencyRecords), id, previousRecord)
      ensures preparedMutations == old(preparedMutations)[id := prepared]
    {
      auctionStore := Put(auctionStore, auctionId, previousAuction);
      idempotencyRecords := Put(idempotencyRecords, id, previousRecord);
      preparedMutations := preparedMutations[id := prepared];
    }

    method AbortPreparedMutation(m: Decision, saved: bool) returns (reply: DecisionReply)
      requires Valid()
      modifies this
      ensures Valid() && (View(), reply) == OnAbort(old(View()), m, saved)
    {
      if replicaRole != Backup || m.epoch != currentEpoch {
        return DecisionReply(false, 0);
      }
      var id, auctionId, primaryId := Strip(m.requestId), Strip(m.auctionId), Strip(m.primaryId);
      if id == "" || auctionId == "" || primaryId == "" || id in idempotencyRecords {
        return DecisionReply(false, 0);
      }
      var current := if auctionId in auctionStore then auctionStore[auctionId].version else 0;
      var previous := Lookup(abortedMutations, id);
      if previous.Some? {
        return DecisionReply(previous.value.auctionId == auctionId && previous.value.primaryId == primaryId, current);
      }
      if id !in preparedMutations {
        return DecisionReply(true, current);
      }
      var prepared := preparedMutations[id];
      if prepared.candidate.auctionId != auctionId || prepared.primaryId != primaryId {
        return DecisionReply(false, current);
      }
      preparedMutations := preparedMutations - {id};
      abortedMutations := abortedMutations[id := m];
      PersistStateToDisk(saved);
      if !saved {
        preparedMutations := preparedMutations[id := prepared];
        abortedMutations := Put(abortedMutations, id, previous);
        PutUndoes(old(abortedMutations), id, m);
        assert preparedMutations == old(preparedMutations);
        return DecisionReply(false, current);
      }
      return DecisionReply(true, current);
    }

    // -------------------------------------------------------------- the primary's side of a mutation

    method RecordCommitDecision(id: string, candidate: Auction, record: Record, saved: bool) returns (done: bool)
      requires Valid()
      modifies this
      ensures Valid() && (View(), done) == RecordDecision(old(View()), id, candidate, record, saved)
    {
      if replicaRole != Primary || id == "" || candidate.auctionId == "" || synchronousBackupAddress == "" {
        return false;
      }
      var decision := CommitDecision(id, candidate, record, nodeAddress, synchronousBackupAddress, currentEpoch);
      var previousAuction := Lookup(auctionStore, candidate.auctionId);
      var previousRecord, previousDecision := Lookup(idempotencyRecords, id), Lookup(pendingBackupCommits, id);
      auctionStore := auctionStore[candidate.auctionId := candidate];
      idempotencyRecords := idempotencyRecords[id := record];
      pendingBackupCommits := pendingBackupCommits[id := decision];
      PersistStateToDisk(saved);
      if !saved {
        auctionStore := Put(auctionStore, candidate.auctionId, previousAuction);
        idempotencyRecords := Put(idempotencyRecords, id, previousRecord);
        pendingBackupCommits := Put(pendingBackupCommits, id, previousDecision);
        PutUndoes(old(auctionStore), candidate.auctionId, candidate);
        PutUndoes(old(idempotencyRecords), id, record);
        PutUndoes(old(pendingBackupCommits), id, decision);
      }
      return saved;
    }

    method CompletePendingBackupCommit(id: string, reply: Option<DecisionReply>, saved: bool) returns (done: bool)
      requires Valid()
      modifies this
      ensures Valid() && (View(), done) == ClearPending(old(View()), id, reply, saved)
    {
      if replicaRole != Primary || id !in pendingBackupCommits || pendingBackupCommits[id].backupAddress == "" {
        return false;
      }
      var decision := pendingBackupCommits[id];
      if reply.None? || !reply.value.success || reply.value.committedVersion != decision.auction.version {
        return false;
      }
      pendingBackupCommits := pendingBackupCommits - {id};
      PersistStateToDisk(saved);
      if !saved {
        pendingBackupCommits := pendingBackupCommits[id := decision];
        assert pendingBackupCommits == old(pendingBackupCommits);
      }
      return saved;
    }

    method CoordinateSynchronousCommit(
      id: string, candidate: Auction, record: Record, previousVersion: int, net: Network) returns (response: Response)
      requires Valid()
      modifies this
      ensures Valid() && (View(), response) == Coordinate(old(View()), id, candidate, record, previousVersion, net)
    {
      var prepared := replicaRole == Primary && synchronousBackupAddress != "" && net.prepare.Some?
        && net.prepare.value.success && net.prepare.value.preparedVersion == candidate.version;
      var decided := false;
      if prepared {
        decided := RecordCommitDecision(id, candidate, record, net.decided);
      }
      if !decided {
        return Failure(ReplicationFailed, previousVersion, candidate.auctionId);
      }
      var acknowledged := CompletePendingBackupCommit(id, net.commit, net.cleared);
      if !acknowledged {
        return Failure(AcknowledgementPending, candidate.version, candidate.auctionId);
      }
      return Response(true, candidate.version, NoFailure, candidate.auctionId, false);
    }

    /** The reply to a request whose id has a receipt, after completing its commit if that is outstanding. */
    method CheckIdempotency(id: string, fingerprint: Fingerprint, auctionId: string, net: Network)
      returns (response: Option<Response>)
      requires Valid()
      modifies this
      ensures Valid()
      ensures response.None? <==> id == "" || id !in old(idempotencyRecords)
      ensures response.None? ==> View() == old(View())
      ensures response.Some? ==>
        var r := old(View());
        if r.records[id].fingerprint != fingerprint then
          View() == r && response.value == Failure(IdempotencyConflict, VersionOf(r.auctions, auctionId), "")
        else if id !in r.pending then
          View() == r && response.value == r.records[id].response.(replayed := true)
        else
          var (cleared, done) := ClearPending(r, id, net.commit, net.cleared);
          View() == cleared
          && response.value == if done then r.records[id].response.(replayed := true)
                               else Failure(AcknowledgementPending, r.pending[id].auction.version,
                                   r.pending[id].auction.auctionId)
    {
      if id == "" || id !in idempotencyRecords {
        return None;
      }
      var record := idempotencyRecords[id];
      if record.fingerprint != fingerprint {
        return Some(Failure(IdempotencyConflict, VersionOf(auctionStore, auctionId), ""));
      }
      if id in pendingBackupCommits {
        var decision := pendingBackupCommits[id];
        var done := CompletePendingBackupCommit(id, net.commit, net.cleared);
        if !done {
          return Some(Failure(AcknowledgementPending, decision.auction.version, decision.auction.auctionId));
        }
      }
      return Some(record.response.(replayed := true));
    }

    method ApplyAuctionMutation(request: MutationRequest, now: real, net: Network) returns (response: Response)
      requires Valid()
      modifies this
      ensures Valid() && (View(), response) == Apply(old(View()), request, now, net)
    {
      if replicaRole != Primary || !promotionReady {
        return Failure(InvalidState, 0, "");
      }
      if request.epoch != currentEpoch {
        return Failure(StaleEpoch, 0, "");
      }
      if request.requestId != "" && request.requestId in abortedMutations {
        return Failure(IdempotencyConflict, 0, "");
      }
      var auctionId := request.auction.auctionId;
      var existing := Lookup(auctionStore, auctionId);
      var kind := EffectiveType(request, existing);
      var fingerprint := FingerprintOf(request, kind);
      var answered := CheckIdempotency(request.requestId, fingerprint, auctionId, net);
      if answered.Some? {
        return answered.value;
      }
      var built := BuildCandidate(request, kind, existing, now);
      if built.Rejected? {
        return Failure(built.reason, built.currentVersion, "");
      }
      var candidate := built.auction;
      var previousVersion := if existing.Some? then existing.value.version else 0;
      if request.requestId == "" {
        return Failure(InvalidState, previousVersion, "");
      }
      var record := Record(request.requestId, fingerprint,
          Response(true, candidate.version, NoFailure, candidate.auctionId, false));
      response := CoordinateSynchronousCommit(request.requestId, candidate, record, previousVersion, net);
    }

    // -------------------------------------------------------------- promotion and synchronization

    method BeginPrimaryPromotion(epoch: int, saved: bool) returns (accepted: bool)
      requires Valid()
      modifies this
      ensures Valid() && (View(), accepted) == OnBegin(old(View()), epoch, saved)
    {
      if epoch <= 0 || epoch < currentEpoch {
        return false;
      }
      if epoch == currentEpoch {
        return replicaRole == Primary;
      }
      var previousRole, previousEpoch, previousReady := replicaRole, currentEpoch, promotionReady;
      var previousMetricsReady, previousPrepared := storageMetricsReady, preparedMutations;
      replicaRole, currentEpoch, promotionReady, storageMetricsReady := Primary, epoch, false, false;
      preparedMutations := map[];
      PersistStateToDisk(saved);
      if !saved {
        replicaRole, currentEpoch, promotionReady := previousRole, previousEpoch, previousReady;
        storageMetricsReady, preparedMutations := previousMetricsReady, previousPrepared;
      }
      return saved;
    }

    method ConfirmPromotionState(epoch: int) returns (confirmed: bool)
      ensures confirmed == Confirmed(View(), epoch)
    {
      if epoch <= 0 || epoch != currentEpoch || replicaRole != Primary {
        return false;
      }
      var rest := auctionStore.Keys;
      while rest != {}
        invariant rest <= auctionStore.Keys
        invariant forall k :: k in auctionStore && k !in rest ==> CommittedStateValid(auctionStore[k])
        decreases |rest|
      {
        var k :| k in rest;
        if !CommittedStateValid(auctionStore[k]) {
          return false;
        }
        rest := rest - {k};
      }
      return preparedMutations == map[] && pendingBackupCommits == map[];
    }

    /** The overdue reveals that follow a completion are submitted separately. */
    method CompletePrimaryPromotion(epoch: int, backupAddress: string, saved: bool) returns (success: bool)
      requires Valid()
      modifies this
      ensures Valid() && (View(), success) == OnComplete(old(View()), epoch, backupAddress, saved)
    {
      var backup := Strip(backupAddress);
      if epoch != currentEpoch || replicaRole != Primary || backup == "" || backup == nodeAddress {
        return false;
      }
      if promotionReady && synchronousBackupAddress == backup {
        return true;
      }
      var previousBackup, previousReady := synchronousBackupAddress, promotionReady;
      var previousMetricsReady := storageMetricsReady;
      synchronousBackupAddress, promotionReady, storageMetricsReady := backup, true, true;
      PersistStateToDisk(saved);
      if !saved {
        synchronousBackupAddress, promotionReady := previousBackup, previousReady;
        storageMetricsReady := previousMetricsReady;
      }
      return saved;
    }

    /** Hands out the stored values as lists; the state they stand for is what the region returns. */
    method SyncFullState(epoch: int) returns (ok: bool, auctions: seq<Auction>, records: seq<Record>)
      ensures ok <==> OnSyncFullState(View(), epoch).Some?
      ensures ok ==>
        && Lists(auctions, OnSyncFullState(View(), epoch).value.auctions)
        && Lists(records, OnSyncFullState(View(), epoch).value.records)
    {
      ok, auctions, records := false, [], [];
      if replicaRole == Primary && epoch == currentEpoch {
        ok := true;
        auctions := Values(auctionStore);
        records := Values(idempotencyRecords);
      }
    }

    /** Indexes a received state, refusing blank, duplicate and invalid entries. */
    method IndexFullState(auctions: seq<Auction>, records: seq<Record>) returns (full: Option<FullState>)
      ensures full.Some? <==> Receivable(auctions, records)
      ensures full.Some? ==> full.value == Received(auctions, records)
    {
      var store := IndexValid(auctions, AuctionKey, auction => ReceivableAuction(auction));
      if store.None? {
        return None;
      }
      var index := IndexValid(records, RecordKey, record => ReceivableRecord(record));
      if index.None? {
        return None;
      }
      return Some(FullState(store.value, index.value));
    }

    method ReplaceWithFullState(auctions: seq<Auction>, records: seq<Record>, epoch: int, saved: bool)
      returns (done: bool)
      requires Valid()
      modifies this
      ensures Valid()
      ensures (View(), done) ==
        if Receivable(auctions, records) then OnInstall(old(View()), Received(auctions, records), epoch, saved)
        else (old(View()), false)
    {
      var full := IndexFullState(auctions, records);
      if full.None? || replicaRole != Backup || epoch < currentEpoch {
        return false;
      }
      ReceivedIsInstallable(auctions, records);
      InstallFullState(full.value, epoch, saved);
      return saved;
    }

    method InstallFullState(full: FullState, epoch: int, saved: bool)
      requires Valid()
      modifies this
      ensures Valid()
      ensures View() == if saved then
        old(View()).(auctions := full.auctions, records := full.records, prepared := map[], aborted := map[],
                     pending := map[], epoch := epoch, ready := false, reported := false)
        else old(View())
    {
      var previous := View();
      auctionStore, idempotencyRecords := full.auctions, full.records;
      preparedMutations, abortedMutations, pendingBackupCommits := map[], map[], map[];
      currentEpoch, promotionReady, storageMetricsReady := epoch, false, false;
      PersistStateToDisk(saved);
      if !saved {
        Adopt(previous);
      }
    }

    // -------------------------------------------------------------- overdue auctions

    method FindOverdueOpenAuctionIds(now: real) returns (ids: seq<string>)
      ensures ids == Sorted(OverdueIds(auctionStore, now))
    {
      var found: set<string> := {};
      var rest := auctionStore.Keys;
      while rest != {}
        invariant rest <= auctionStore.Keys
        invariant found == set k | k in auctionStore && k !in rest && Overdue(auctionStore[k], now)
        decreases |rest|
      {
        var k :| k in rest;
        rest := rest - {k};
        if Overdue(auctionStore[k], now) {
          found := found + {k};
        }
      }
      assert found == OverdueIds(auctionStore, now);
      return Sorted(found);
    }

    method FinalizeOverdueAuction(auctionId: string, epoch: int, now: real, net: Network)
      returns (response: Option<Response>)
      requires Valid()
      modifies this
      ensures Valid() && (View(), response) == Finalize(old(View()), auctionId, epoch, now, net)
    {
      if replicaRole != Primary || !promotionReady || epoch != currentEpoch || synchronousBackupAddress == "" {
        return None;
      }
      if auctionId !in auctionStore || !Overdue(auctionStore[auctionId], now) {
        return None;
      }
      var applied := ApplyAuctionMutation(RevealRequest(auctionId, auctionStore[auctionId], epoch), now, net);
      return Some(applied);
    }

    method ReconcileOverdueAuctions(epoch: int, now: real, nets: Networks) returns (responses: seq<Response>)
      requires Valid()
      modifies this
      ensures Valid() && View() == Reconcile(old(View()), epoch, now, nets)
      ensures responses == Answers(old(View()), epoch, now, nets)
    {
      responses := [];
      if replicaRole != Primary || !promotionReady || epoch != currentEpoch || synchronousBackupAddress == "" {
        return;
      }
      var ids := FindOverdueOpenAuctionIds(now);
      for i := 0 to |ids|
        invariant Valid() && responses == AnswersOf(old(View()), ids[..i], epoch, now, nets)
        invariant View() == FinalizeAll(old(View()), ids[..i], epoch, now, nets)
      {
        FinalizeOneMore(old(View()), ids, i, epoch, now, nets);
        AnswersOneMore(old(View()), ids, i, epoch, now, nets);
        var response := FinalizeOverdueAuction(ids[i], epoch, now, NetworkFor(nets, ids[i]));
        responses := responses + (if response.Some? then [response.value] else []);
      }
      assert ids[..|ids|] == ids;
    }
  }

  lemma EmptyLists<V(!new)>()
    ensures Lists<V>([], map[])
  {
    assert ListedBy<V>([], [], map[]);
  }

  // ---------------------------------------------------------------- the state that travels

  predicate ReceivableAuction(auction: Auction)
  {
    !Blank(auction.auctionId) && CommittedStateValid(auction)
  }

  predicate ReceivableRecord(record: Record)
  {
    !Blank(record.requestId)
  }

  predicate Receivable(auctions: seq<Auction>, records: seq<Record>)
  {
    && (forall i :: 0 <= i < |auctions| ==> ReceivableAuction(auctions[i]))
    && DistinctKeys(auctions, AuctionKey)
    && (forall i :: 0 <= i < |records| ==> ReceivableRecord(records[i]))
    && DistinctKeys(records, RecordKey)
  }

  function Received(auctions: seq<Auction>, records: seq<Record>): FullState
  {
    FullState(IndexBy(auctions, AuctionKey), IndexBy(records, RecordKey))
  }

  lemma ReceivedIsInstallable(auctions: seq<Auction>, records: seq<Record>)
    requires Receivable(auctions, records)
    ensures Installable(Received(auctions, records))
  {
    IndexIsKeyed(auctions, AuctionKey);
    IndexIsKeyed(records, RecordKey);
  }

  /** The lists a sound source hands out are received as exactly its stores. */
  lemma SentIsReceived(r: State, auctions: seq<Auction>, records: seq<Record>)
    requires LocalInvariant.Sound(r) && Lists(auctions, r.auctions) && Lists(records, r.records)
    ensures Receivable(auctions, records) && Received(auctions, records) == FullState(r.auctions, r.records)
  {
    SoundIsStorable(r);
    LocalInvariant.SoundStateInstalls(r);
    IndexRestores(auctions, r.auctions, AuctionKey);
    IndexRestores(records, r.records, RecordKey);
    ListingIsDistinct(auctions, r.auctions, AuctionKey);
    ListingIsDistinct(records, r.records, RecordKey);
    ListedValues(auctions, r.auctions);
    ListedValues(records, r.records);
  }

  lemma ListedValues<V(!new)>(values: seq<V>, m: map<string, V>)
    requires Lists(values, m)
    ensures forall i :: 0 <= i < |values| ==> values[i] in m.Values
  {
  }
}
