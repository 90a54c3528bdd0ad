/** A primary and its designated backup: equal, or one decided mutation apart. */
module PairInvariant {
  import opened Text
  import opened AuctionDomain
  import opened AuctionLog
  import opened Replica
  import opened LocalInvariant
  import opened Cluster

  /** Facts about a replica that hold outside the promotion of a ready primary. */
  predicate RoleOk(r: State)
  {
    && Id(r.address)
    && (r.ready ==> r.role == Primary && r.backup != "")
    && (!r.ready ==> r.pending == map[])
    && (r.role == Primary ==> r.prepared == map[])
    && (forall k :: k in r.pending ==> r.pending[k].epoch == r.epoch && r.pending[k].primaryId == r.address)
  }

  /** A request the primary has decided and the backup has only prepared. */
  predicate Ahead(q: State, x: State, id: string)
  {
    && id in q.records && id in q.pending && id in x.prepared
    && q.pending[id].backupAddress == x.address
    && x.prepared[id].candidate == q.pending[id].auction
    && x.prepared[id].record == q.records[id]
    && x.prepared[id].primaryId == q.address
    && Lookup(q.auctions, q.pending[id].auction.auctionId) == Some(q.pending[id].auction)
    && VersionOf(x.auctions, q.pending[id].auction.auctionId) + 1 == q.pending[id].auction.version
  }

  ghost predicate AheadOn(q: State, x: State, auctionId: string)
  {
    exists id :: id !in x.records && Ahead(q, x, id) && q.pending[id].auction.auctionId == auctionId
  }

  predicate InStep(q: State, x: State, auctionId: string)
  {
    Lookup(q.auctions, auctionId) == Lookup(x.auctions, auctionId)
  }

  predicate BackupBehind(q: State, x: State)
  {
    forall id :: id in x.records ==> id in q.records && q.records[id] == x.records[id]
  }

  /** The backup has staged exactly what the operation in flight is about to decide. */
  predicate Staged(q: State, x: State, op: Op)
  {
    && op.requestId in x.prepared
    && x.prepared[op.requestId] == PrepareMessage(q, op.requestId, op.candidate, op.record)
    && InStep(q, x, op.candidate.auctionId)
  }

  ghost predicate Paired(q: State, x: State)
  {
    && BackupBehind(q, x)
    && (forall id :: id in q.records && id !in x.records ==> Ahead(q, x, id))
    && (forall a :: InStep(q, x, a) || AheadOn(q, x, a))
    && x.aborted.Keys !! q.records.Keys
  }

  // ---------------------------------------------------------------- fencing of single messages

  lemma RefusedByEpochOrRole(x: State, m: Prepare, d: Decision, saved: bool)
    ensures x.role != Backup || m.epoch != x.epoch ==>
      OnPrepare(x, m, saved).0 == x && !OnPrepare(x, m, saved).1.success
    ensures x.role != Backup || d.epoch != x.epoch ==> OnCommit(x, d, saved).0 == x && !OnCommit(x, d, saved).1.success
    ensures x.role != Backup || d.epoch != x.epoch ==> OnAbort(x, d, saved).0 == x && !OnAbort(x, d, saved).1.success
  {
  }

  // ---------------------------------------------------------------- steps of the pair

  /** What neither side may touch while the primary is ahead: the undelivered decisions and their preparations. */
  predicate KeepsGap(q: State, x: State, q': State, x': State)
  {
    && q'.address == q.address && x'.address == x.address
    && q'.auctions == q.auctions && x'.auctions == x.auctions
    && q'.records == q.records && x'.records == x.records
    && (forall k :: k in q.records && k !in x.records && k in q.pending && k in x.prepared ==>
          && k in q'.pending && q'.pending[k] == q.pending[k]
          && k in x'.prepared && x'.prepared[k] == x.prepared[k])
  }

  lemma FramePaired(q: State, x: State, q': State, x': State)
    requires Paired(q, x) && KeepsGap(q, x, q', x')
    requires x'.aborted.Keys !! q.records.Keys
    ensures Paired(q', x')
  {
    forall k | k in q'.records && k !in x'.records ensures Ahead(q', x', k) {
      assert Ahead(q, x, k);
    }
    forall b ensures InStep(q', x', b) || AheadOn(q', x', b) {
      if !InStep(q, x, b) {
        assert AheadOn(q, x, b);
        var k :| k !in x.records && Ahead(q, x, k) && q.pending[k].auction.auctionId == b;
        assert Ahead(q', x', k);
      }
    }
  }

  /** A primary whose next version the backup accepts holds the same auction as the backup. */
  lemma AcceptedMeansInStep(q: State, x: State, auctionId: string)
    requires Paired(q, x)
    requires VersionOf(q.auctions, auctionId) <= VersionOf(x.auctions, auctionId)
    ensures InStep(q, x, auctionId)
  {
  }

  /** How a prepare may change the backup, and what its acknowledgement means. */
  predicate PrepareChange(x: State, x': State, m: Prepare, acknowledged: bool)
  {
    && (x' == x || (m.requestId !in x.prepared && x' == x.(prepared := x.prepared[m.requestId := m])))
    && (acknowledged ==>
          && m.requestId in x'.prepared && x'.prepared[m.requestId] == m
          && (m.requestId !in x.prepared ==> m.candidate.version == VersionOf(x.auctions, m.candidate.auctionId) + 1))
  }

  lemma PrepareEffect(x: State, m: Prepare, saved: bool)
    requires Trimmed(m.requestId) && Trimmed(m.candidate.auctionId)
    ensures var (x', reply) := OnPrepare(x, m, saved); PrepareChange(x, x', m, reply.success)
  {
  }

  lemma StagePaired(q: State, x: State, x': State, op: Op, acknowledged: bool)
    requires Paired(q, x)
    requires op.requestId !in q.records
    requires op.candidate.version == VersionOf(q.auctions, op.candidate.auctionId) + 1
    requires forall k :: k in x.prepared ==>
      x.prepared[k].candidate.version <= VersionOf(x.auctions, x.prepared[k].candidate.auctionId) + 1
    requires PrepareChange(x, x', PrepareMessage(q, op.requestId, op.candidate, op.record), acknowledged)
    ensures Paired(q, x') && (acknowledged ==> Staged(q, x', op))
  {
    FramePaired(q, x, q, x');
    if acknowledged {
      AcceptedMeansInStep(q, x, op.candidate.auctionId);
    }
  }

  /** A prepare leaves the pair as it was; an acknowledged one stages the candidate on an equal auction. */
  lemma PreparePaired(q: State, x: State, op: Op, delivery: Delivery)
    requires Paired(q, x) && PreparedOk(x.auctions, x.prepared)
    requires Trimmed(op.requestId) && Trimmed(op.candidate.auctionId) && op.requestId !in q.records
    requires op.candidate.version == VersionOf(q.auctions, op.candidate.auctionId) + 1
    ensures var (x', acknowledged) := PrepareCall(q, x, op, delivery);
      Paired(q, x') && (acknowledged ==> Staged(q, x', op))
  {
    forall k | k in x.prepared
      ensures x.prepared[k].candidate.version <= VersionOf(x.auctions, x.prepared[k].candidate.auctionId) + 1
    {
      assert Stageable(x.auctions, x.prepared[k]);
    }
    if delivery.Delivered? {
      PrepareEffect(x, PrepareMessage(q, op.requestId, op.candidate, op.record), delivery.saved);
    }
    var (x', acknowledged) := PrepareCall(q, x, op, delivery);
    StagePaired(q, x, x', op, acknowledged);
  }

  /** Deciding a staged candidate puts the primary exactly one version ahead on that auction. */
  lemma DecidePaired(q: State, x: State, op: Op, saved: bool)
    requires Paired(q, x) && Disjoint(x)
    requires op.requestId !in q.records && op.candidate.version == VersionOf(q.auctions, op.candidate.auctionId) + 1
    requires Staged(q, x, op) && q.backup == x.address
    ensures Paired(RecordDecision(q, op.requestId, op.candidate, op.record, saved).0, x)
  {
    var (q', done) := RecordDecision(q, op.requestId, op.candidate, op.record, saved);
    var id, a := op.requestId, op.candidate.auctionId;
    if done {
      assert Ahead(q', x, id);
      forall k | k in q'.records && k !in x.records ensures Ahead(q', x, k) {
        if k != id {
          assert Ahead(q, x, k);
        }
      }
      forall b ensures InStep(q', x, b) || AheadOn(q', x, b) {
        if b != a && !InStep(q, x, b) {
          assert AheadOn(q, x, b);
          var k :| k !in x.records && Ahead(q, x, k) && q.pending[k].auction.auctionId == b;
          assert Ahead(q', x, k);
        }
      }
    }
  }

  /** Two requests the backup lacks concern different auctions. */
  lemma OtherAuction(q: State, x: State, j: string, k: string)
    requires PendingOk(q.records, q.pending) && ReceiptsDistinct(q.records)
    requires Ahead(q, x, j) && Ahead(q, x, k) && j != k
    ensures q.pending[j].auction.auctionId != q.pending[k].auction.auctionId
  {
    assert Decides(q.pending[j], j, q.records[j]) && Decides(q.pending[k], k, q.records[k]);
    var a, n := q.pending[j].auction.auctionId, q.pending[j].auction.version;
    assert Names(q.records[j], a, n);
    assert q.pending[k].auction.auctionId == a ==> Names(q.records[k], a, n);
  }

  lemma GapElsewhere(q: State, x: State, x': State, id: string, k: string)
    requires PendingOk(q.records, q.pending) && ReceiptsDistinct(q.records)
    requires Ahead(q, x, id) && Ahead(q, x, k) && k != id
    requires x' == x.(auctions := x.auctions[q.pending[id].auction.auctionId := q.pending[id].auction],
                      records := x.records[id := q.records[id]], prepared := x.prepared - {id})
    ensures Ahead(q, x', k)
  {
    OtherAuction(q, x, id, k);
  }

  /** The backup publishes a request it lacked: the gap on that auction closes, the others stay. */
  lemma CloseGap(q: State, x: State, x': State, id: string)
    requires Paired(q, x) && PendingOk(q.records, q.pending) && ReceiptsDistinct(q.records)
    requires id !in x.records && Ahead(q, x, id)
    requires x' == x.(auctions := x.auctions[q.pending[id].auction.auctionId := q.pending[id].auction],
                      records := x.records[id := q.records[id]], prepared := x.prepared - {id})
    ensures Paired(q, x')
  {
    var a := q.pending[id].auction.auctionId;
    forall k | k in q.records && k !in x'.records ensures Ahead(q, x', k) {
      assert Ahead(q, x, k);
      GapElsewhere(q, x, x', id, k);
    }
    forall b ensures InStep(q, x', b) || AheadOn(q, x', b) {
      if b != a && !InStep(q, x, b) {
        assert AheadOn(q, x, b);
        var k :| k !in x.records && Ahead(q, x, k) && q.pending[k].auction.auctionId == b;
        GapElsewhere(q, x, x', id, k);
      }
    }
  }

  /** How a commit may change the backup, and what its acknowledgement means. */
  predicate CommitChange(x: State, x': State, id: string, acknowledged: bool)
  {
    && (x' == x
        || (id in x.prepared
            && x' == x.(auctions := x.auctions[x.prepared[id].candidate.auctionId := x.prepared[id].candidate],
                        records := x.records[id := x.prepared[id].record], prepared := x.prepared - {id})))
    && (acknowledged ==> id in x'.records)
  }

  lemma CommitEffect(x: State, m: Decision, saved: bool)
    requires Trimmed(m.requestId)
    ensures var (x', reply) := OnCommit(x, m, saved); CommitChange(x, x', m.requestId, reply.success)
  {
  }

  predicate Grows(records: map<string, Record>, more: map<string, Record>)
  {
    forall k :: k in records ==> k in more && more[k] == records[k]
  }

  /** A commit message for a decided request closes the gap or changes nothing. */
  lemma CommitPaired(q: State, x: State, x': State, id: string, acknowledged: bool)
    requires Paired(q, x) && PendingOk(q.records, q.pending) && ReceiptsDistinct(q.records) && Disjoint(x)
    requires id in q.pending && CommitChange(x, x', id, acknowledged)
    ensures Paired(q, x') && Grows(x.records, x'.records)
  {
    if x' != x {
      assert Decides(q.pending[id], id, q.records[id]);
      assert Ahead(q, x, id);
      CloseGap(q, x, x', id);
    }
  }

  lemma ClearPaired(q: State, x: State, id: string, reply: Option<DecisionReply>, saved: bool)
    requires Paired(q, x)
    requires reply.Some? && reply.value.success && id in q.pending ==> id in x.records
    ensures Paired(ClearPending(q, id, reply, saved).0, x)
  {
    FramePaired(q, x, ClearPending(q, id, reply, saved).0, x);
  }

  /** Aborting an undecided request only discards its preparation. */
  lemma AbortPaired(q: State, x: State, m: Decision, saved: bool)
    requires Paired(q, x)
    requires Trimmed(m.requestId) && m.requestId !in q.records
    ensures Paired(q, OnAbort(x, m, saved).0)
  {
    FramePaired(q, x, q, OnAbort(x, m, saved).0);
  }

  /** A backup that holds the primary's state is in step with it. */
  lemma CopyPaired(q: State, x: State)
    requires x.auctions == q.auctions && x.records == q.records && x.aborted.Keys !! x.records.Keys
    ensures Paired(q, x)
  {
  }

  lemma CommitAnswered(q: State, x: State, id: string)
    requires q.role == Primary && x.role == Backup && q.epoch == x.epoch
    requires id in q.pending && id in q.records && Decides(q.pending[id], id, q.records[id]) && Id(id)
    requires q.pending[id].epoch == x.epoch && q.pending[id].backupAddress != "" && q.pending[id].primaryId == q.address
    requires id in x.records ==> x.records[id] == q.records[id]
    requires id !in x.records ==> Ahead(q, x, id)
    requires Disjoint(x) && id !in x.aborted
    ensures var (q', x', done) := CommitExchange(q, x, id, Delivered(true, true), true);
      done && q'.pending == q.pending - {id} && id in x'.records
  {
  }

  /** A decided request can always be completed once its commit message reaches the designated backup. */
  lemma GapCanClose(q: State, x: State, id: string)
    requires Paired(q, x) && RoleOk(q) && PendingOk(q.records, q.pending) && Disjoint(x)
    requires q.role == Primary && x.role == Backup && q.epoch == x.epoch
    requires id in q.pending && Id(id) && q.pending[id].backupAddress != ""
    ensures var (q', x', done) := CommitExchange(q, x, id, Delivered(true, true), true);
      done && q'.pending == q.pending - {id} && id in x'.records
  {
    CommitAnswered(q, x, id);
  }
}
