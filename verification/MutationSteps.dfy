/** The events of a mutation keep the cluster invariant. */
module MutationSteps {
  import opened Text
  import opened AuctionDomain
  import opened AuctionLog
  import opened Replica
  import opened LocalInvariant
  import opened Cluster
  import opened PairInvariant
  import opened ClusterInvariant

  // ---------------------------------------------------------------- roles and epochs

  /** The designated backup has no operation in flight: it is a backup, or not ready. */
  lemma BackupIsIdle(w: World)
    requires Inv(w)
    ensures w.config.backup !in w.ops
    ensures !w.replicas[w.config.backup].ready
  {
    var x := w.config.backup;
    assert Placed(x, w.replicas[x]);
    assert x in w.ops ==> OpOk(w.replicas[x], w.ops[x]);
  }

  /** Only the current primary, and only before the promotion begins, reaches a backup of its own epoch. */
  lemma OnlyPairTalks(w: World, node: string)
    requires Inv(w) && node in w.replicas && w.replicas[node].ready && w.replicas[node].backup in w.replicas
    ensures w.replicas[w.replicas[node].backup].epoch == w.replicas[node].epoch ==>
      node == w.config.primary && !Begun(w.config)
    ensures node == w.config.primary ==> w.replicas[node].backup == w.config.backup
  {
    if node != w.config.primary {
      assert Fenced(w.replicas, w.replicas[node]);
    }
  }

  // ---------------------------------------------------------------- submit

  lemma SubmitInv(w: World, node: string, request: MutationRequest, now: real)
    requires Inv(w) && Enabled(w, Submit(node, request, now))
    ensures Inv(Next(w, Submit(node, request, now)))
  {
    var r := w.replicas[node];
    assert Sound(r) && Placed(node, r) && Covered(w.replicas[w.config.backup].records, r);
    match StartMutation(r, request, now)
    case Reply(response) =>
      if response.success && request.requestId in r.records {
        ReplyIsSettled(r, request, now);
        AckInv(w, request.requestId, r.records[request.requestId]);
      }
    case Resume(id) =>
      ResumeOk(r, request, now);
      WithOpInv(w, node, Op(id, r.pending[id].auction, r.records[id], r.pending[id].auction.version, Completing, true));
    case Propose(id, candidate, record, previous) =>
      StartIsProposable(r, request, now);
      ProposeOk(r, request, now);
      WithOpInv(w, node, Op(id, candidate, record, previous, Preparing, false));
  }

  lemma ReplyIsSettled(r: State, request: MutationRequest, now: real)
    requires StartMutation(r, request, now).Reply? && StartMutation(r, request, now).response.success
    ensures r.ready && Settled(r, request.requestId)
    ensures StartMutation(r, request, now).response == r.records[request.requestId].response.(replayed := true)
  {
  }

  lemma ResumeOk(r: State, request: MutationRequest, now: real)
    requires StartMutation(r, request, now).Resume? && ReceiptsInRange(r.auctions, r.records)
    requires PendingOk(r.records, r.pending)
    ensures var id := StartMutation(r, request, now).requestId;
      && r.role == Primary && r.ready && id in r.pending && id in r.records && Id(id)
      && r.pending[id].record == r.records[id]
  {
  }

  lemma ProposeOk(r: State, request: MutationRequest, now: real)
    requires StartMutation(r, request, now).Propose?
    ensures r.role == Primary && r.ready
  {
  }

  // ---------------------------------------------------------------- prepare

  lemma PreparedPlaced(k: string, x: State, m: Prepare, saved: bool)
    requires Placed(k, x)
    ensures Placed(k, OnPrepare(x, m, saved).0) && SamePlace(x, OnPrepare(x, m, saved).0)
    ensures OnPrepare(x, m, saved).0.records == x.records
  {
  }

  lemma PrepareFits(w: World, node: string, delivery: Delivery)
    requires Inv(w) && Enabled(w, SendPrepare(node, delivery))
    requires w.replicas[node].backup in w.replicas && delivery.Delivered?
    requires w.replicas[w.replicas[node].backup].epoch == w.replicas[node].epoch
    ensures var (q, op) := (w.replicas[node], w.ops[node]);
      var (x', acknowledged) := PrepareCall(q, w.replicas[q.backup], op, delivery);
      && q.backup !in w.ops
      && Fits(w, q.backup, x')
      && (acknowledged ==> Staged(q, x', op))
  {
    var q, op := w.replicas[node], w.ops[node];
    var x := w.replicas[q.backup];
    assert OpOk(q, op);
    OnlyPairTalks(w, node);
    BackupIsIdle(w);
    assert Sound(x) && Placed(q.backup, x);
    PreparePaired(q, x, op, delivery);
    OnPrepareSound(x, PrepareMessage(q, op.requestId, op.candidate, op.record), delivery.saved);
    PreparedPlaced(q.backup, x, PrepareMessage(q, op.requestId, op.candidate, op.record), delivery.saved);
  }

  /** The backup's part of a prepare, and what an acknowledgement tells the primary. */
  lemma PrepareCalled(w: World, node: string, delivery: Delivery)
    requires Inv(w) && Enabled(w, SendPrepare(node, delivery)) && w.replicas[node].backup in w.replicas
    ensures var q, op := w.replicas[node], w.ops[node];
      var (x', acknowledged) := PrepareCall(q, w.replicas[q.backup], op, delivery);
      && Inv(WithReplica(w, q.backup, x'))
      && (x' != w.replicas[q.backup] ==> q.backup != node)
      && (acknowledged ==> q.backup == w.config.backup && !InWindow(w.config) && Staged(q, x', op))
  {
    var q, op := w.replicas[node], w.ops[node];
    assert OpOk(q, op);
    OnlyPairTalks(w, node);
    if delivery.Delivered? && w.replicas[q.backup].epoch == q.epoch {
      PrepareFits(w, node, delivery);
      ReplaceInv(w, q.backup, PrepareCall(q, w.replicas[q.backup], op, delivery).0);
    } else {
      PrepareRefused(q, w.replicas[q.backup], op, delivery);
      assert WithReplica(w, q.backup, w.replicas[q.backup]) == w;
    }
  }

  lemma PrepareInv(w: World, node: string, delivery: Delivery)
    requires Inv(w) && Enabled(w, SendPrepare(node, delivery))
    ensures Inv(Next(w, SendPrepare(node, delivery)))
  {
    var q, op := w.replicas[node], w.ops[node];
    assert OpOk(q, op);
    if q.backup == "" || q.backup !in w.replicas {
      UnstagedOpInv(w, node, op.(stage := Aborting));
    } else {
      var (x', acknowledged) := PrepareCall(q, w.replicas[q.backup], op, delivery);
      PrepareCalled(w, node, delivery);
      WithOpInv(WithReplica(w, q.backup, x'), node, op.(stage := if acknowledged then Prepared else Aborting));
    }
  }

  lemma PrepareRefused(q: State, x: State, op: Op, delivery: Delivery)
    requires delivery.Lost? || x.epoch != q.epoch
    ensures PrepareCall(q, x, op, delivery) == (x, false)
  {
  }

  // ---------------------------------------------------------------- decide

  lemma DecidedPlaced(k: string, q: State, id: string, candidate: Auction, record: Record, saved: bool,
      records: map<string, Record>)
    requires Placed(k, q) && q.role == Primary && q.ready && id !in q.records && Covered(records, q)
    ensures var q' := RecordDecision(q, id, candidate, record, saved).0;
      Placed(k, q') && SamePlace(q, q') && Covered(records, q')
  {
  }

  lemma DecidedPairKept(w: World, node: string, saved: bool)
    requires Inv(w) && Enabled(w, Decide(node, saved))
    ensures var op := w.ops[node];
      PairKept(w, node, RecordDecision(w.replicas[node], op.requestId, op.candidate, op.record, saved).0)
  {
    var q, op := w.replicas[node], w.ops[node];
    assert OpOk(q, op) && Placed(node, q);
    BackupIsIdle(w);
    if node == w.config.primary && !Begun(w.config) {
      var x := w.replicas[w.config.backup];
      assert Sound(x) && Placed(w.config.backup, x);
      DecidePaired(q, x, op, saved);
    }
  }

  lemma DecideFits(w: World, node: string, saved: bool)
    requires Inv(w) && Enabled(w, Decide(node, saved))
    ensures var op := w.ops[node];
      Fits(WithoutOp(w, node), node, RecordDecision(w.replicas[node], op.requestId, op.candidate, op.record, saved).0)
  {
    var q, op := w.replicas[node], w.ops[node];
    assert OpOk(q, op) && Placed(node, q) && Sound(q);
    assert Covered(w.replicas[w.config.backup].records, q);
    RecordDecisionSound(q, op.requestId, op.candidate, op.record, saved);
    DecidedPlaced(node, q, op.requestId, op.candidate, op.record, saved, w.replicas[w.config.backup].records);
    BackupIsIdle(w);
    DecidedPairKept(w, node, saved);
  }

  lemma DecidedOp(q: State, op: Op, saved: bool)
    requires OpOk(q, op) && op.stage == Prepared
    ensures var (q', done) := RecordDecision(q, op.requestId, op.candidate, op.record, saved);
      OpOk(q', op.(stage := if done then Completing else Aborting))
  {
  }

  lemma DecideInv(w: World, node: string, saved: bool)
    requires Inv(w) && Enabled(w, Decide(node, saved))
    ensures Inv(Next(w, Decide(node, saved)))
  {
    var q, op := w.replicas[node], w.ops[node];
    var (q', done) := RecordDecision(q, op.requestId, op.candidate, op.record, saved);
    DecideFits(w, node, saved);
    assert OpOk(q, op);
    DecidedOp(q, op, saved);
    ReplaceWithOpInv(w, node, q', op.(stage := if done then Completing else Aborting));
  }

  // ---------------------------------------------------------------- commit

  lemma CommitPlaced(k: string, x: State, m: Decision, saved: bool)
    requires Placed(k, x)
    ensures Placed(k, OnCommit(x, m, saved).0) && SamePlace(x, OnCommit(x, m, saved).0)
    ensures OnCommit(x, m, saved).0 != x ==> x.role == Backup && m.epoch == x.epoch
    ensures OnCommit(x, m, saved).1.success ==> x.role == Backup && m.epoch == x.epoch
  {
  }

  /** A commit is accepted only by the pair's backup or by one whose copy of the decision is held already. */
  lemma CommitRoute(w: World, node: string, id: string)
    requires Inv(w) && node in w.replicas && w.replicas[node].ready && id in w.replicas[node].pending
    requires w.replicas[node].pending[id].backupAddress in w.replicas
    ensures var q := w.replicas[node];
      var target := q.pending[id].backupAddress;
      w.replicas[target].role == Backup && w.replicas[target].epoch == q.pending[id].epoch ==>
        && target != node && target != w.config.primary
        && (target == w.config.backup <==> target == q.backup)
        && (target == q.backup ==> node == w.config.primary && !Begun(w.config))
  {
    var q := w.replicas[node];
    var target := q.pending[id].backupAddress;
    assert Placed(node, q);
    if node != w.config.primary {
      assert Fenced(w.replicas, q);
      assert w.replicas[q.backup].epoch <= NewestEpoch(w.config);
    }
  }

  /** A ready primary speaks at the pair's epoch only if it is the pair's, never at that of a promotion under way. */
  lemma SenderIsTimely(w: World, node: string)
    requires Inv(w) && node in w.replicas && w.replicas[node].ready
    ensures Timely(w.replicas[node].epoch, w.config)
    ensures !Begun(w.config) && w.replicas[node].epoch == w.config.epoch ==> node == w.config.primary
  {
    if node != w.config.primary {
      assert Fenced(w.replicas, w.replicas[node]);
      assert w.replicas[w.replicas[node].backup].epoch <= NewestEpoch(w.config);
    }
  }

  /** A copy takes no commit of another epoch or for a request it holds. */
  lemma CopyRefusesCommit(x: State, full: FullState, epoch: int, m: Decision, saved: bool)
    requires Disjoint(x) && Holds(x, full, epoch) && Trimmed(m.requestId)
    requires m.epoch == epoch ==> m.requestId in full.records
    ensures OnCommit(x, m, saved).0 == x
  {
  }

  lemma CommitKeepsSync(w: World, k: string, m: Decision, saved: bool)
    requires Inv(w) && k in w.replicas && MailOk(Commitment(m), w.config, w.replicas[w.config.primary].records)
    ensures SyncKept(w, k, OnCommit(w.replicas[k], m, saved).0)
  {
    var x := w.replicas[k];
    assert Sound(x) && Placed(k, x);
    CommitPlaced(k, x, m, saved);
    if SyncOf(w.config.mode).Some? {
      var sync := SyncOf(w.config.mode).value;
      if k == sync.target && sync.installed {
        CopyRefusesCommit(x, sync.full, EpochOf(w.config), m, saved);
      }
    }
  }

  lemma DecisionIsTimely(w: World, node: string, id: string)
    requires Inv(w) && node in w.replicas && w.replicas[node].ready && id in w.replicas[node].pending && Id(id)
    ensures MailOk(Commitment(CommitMessage(w.replicas[node].pending[id])), w.config,
                   w.replicas[w.config.primary].records)
  {
    var q := w.replicas[node];
    assert Sound(q) && Placed(node, q) && Decides(q.pending[id], id, q.records[id]);
    SenderIsTimely(w, node);
  }

  lemma CommitTargetFits(w: World, node: string, id: string, saved: bool)
    requires Inv(w) && node in w.replicas && node !in w.ops
    requires w.replicas[node].ready && id in w.replicas[node].pending && Id(id)
    requires w.replicas[node].pending[id].backupAddress in w.replicas
    ensures var q := w.replicas[node];
      var target := q.pending[id].backupAddress;
      var (x', reply) := OnCommit(w.replicas[target], CommitMessage(q.pending[id]), saved);
      && Fits(w, target, x')
      && (reply.success && target == q.backup ==> id in x'.records && target == w.config.backup)
  {
    var q := w.replicas[node];
    var target := q.pending[id].backupAddress;
    var x, m := w.replicas[target], CommitMessage(q.pending[id]);
    var (x', reply) := OnCommit(x, m, saved);
    assert Sound(q) && Sound(x) && Placed(target, x) && Decides(q.pending[id], id, q.records[id]);
    assert Covered(w.replicas[w.config.backup].records, x);
    OnCommitSound(x, m, saved);
    CommitPlaced(target, x, m, saved);
    CommitRoute(w, node, id);
    CommitEffect(x, m, saved);
    DecisionIsTimely(w, node, id);
    CommitKeepsSync(w, target, m, saved);
    if x' != x && target == q.backup {
      CommitPaired(q, x, x', id, reply.success);
    }
  }

  lemma ClearPlaced(k: string, q: State, id: string, reply: Option<DecisionReply>, cleared: bool,
      records: map<string, Record>)
    requires Placed(k, q) && q.ready && Covered(records, q)
    requires ClearPending(q, id, reply, cleared).1 ==> id in q.records && Held(records, id, q.records[id])
    ensures var q' := ClearPending(q, id, reply, cleared).0;
      && Placed(k, q') && SamePlace(q, q') && Covered(records, q')
      && q'.auctions == q.auctions && q'.records == q.records
  {
  }

  /** The primary's part of the exchange, once the target's part is in place. */
  lemma ClearFits(w: World, node: string, id: string, reply: Option<DecisionReply>, cleared: bool)
    requires Inv(w) && node in w.replicas && node !in w.ops
    requires w.replicas[node].ready && id in w.replicas[node].pending
    requires (&& reply.Some? && reply.value.success
              && w.replicas[node].pending[id].backupAddress == w.replicas[node].backup) ==>
      id in w.replicas[w.config.backup].records && node == w.config.primary && !Begun(w.config)
    ensures var (q', done) := ClearPending(w.replicas[node], id, reply, cleared);
      && Fits(w, node, q')
      && (done ==> Held(w.replicas[w.config.backup].records, id, w.replicas[node].pending[id].record))
  {
    var q, records := w.replicas[node], w.replicas[w.config.backup].records;
    assert Sound(q) && Placed(node, q) && Decides(q.pending[id], id, q.records[id]) && Covered(records, q);
    assert q.pending[id].backupAddress != q.backup ==> Settled(q, id);
    ClearPlaced(node, q, id, reply, cleared, records);
    ClearPendingSound(q, id, reply, cleared);
    BackupIsIdle(w);
    if node == w.config.primary && !Begun(w.config) {
      AckedIsCommitted(w, id, reply);
      ClearPaired(q, w.replicas[w.config.backup], id, reply, cleared);
    }
  }

  lemma AckedIsCommitted(w: World, id: string, reply: Option<DecisionReply>)
    requires Inv(w) && !Begun(w.config)
    requires var q := w.replicas[w.config.primary];
      id in q.pending && (reply.Some? && reply.value.success && q.pending[id].backupAddress == q.backup ==>
        id in w.replicas[w.config.backup].records)
    ensures reply.Some? && reply.value.success ==> id in w.replicas[w.config.backup].records
  {
    var q := w.replicas[w.config.primary];
    assert Sound(q) && Decides(q.pending[id], id, q.records[id]);
    assert Covered(w.replicas[w.config.backup].records, q);
    assert q.pending[id].backupAddress != q.backup ==> Settled(q, id);
  }

  /** The target's part of the exchange. */
  lemma CommitDelivered(w: World, node: string, id: string, saved: bool)
    requires Inv(w) && node in w.replicas && node !in w.ops
    requires w.replicas[node].ready && id in w.replicas[node].pending && Id(id)
    requires w.replicas[node].pending[id].backupAddress in w.replicas
    ensures var q := w.replicas[node];
      var target := q.pending[id].backupAddress;
      var (x', reply) := OnCommit(w.replicas[target], CommitMessage(q.pending[id]), saved);
      && Inv(WithReplica(w, target, x'))
      && (x' != w.replicas[target] ==> target != node)
      && (reply.success && target == q.backup ==>
            id in x'.records && target == w.config.backup && node == w.config.primary && !Begun(w.config))
  {
    var q := w.replicas[node];
    var target := q.pending[id].backupAddress;
    var x, m := w.replicas[target], CommitMessage(q.pending[id]);
    assert Placed(target, x);
    CommitTargetFits(w, node, id, saved);
    CommitPlaced(target, x, m, saved);
    CommitRoute(w, node, id);
    HandledInv(w, target, OnCommit(x, m, saved).0);
  }

  lemma CommitCalled(w: World, node: string, id: string, delivery: Delivery)
    requires Inv(w) && node in w.replicas && node !in w.ops
    requires w.replicas[node].ready && id in w.replicas[node].pending && Id(id)
    requires w.replicas[node].pending[id].backupAddress in w.replicas
    ensures var q := w.replicas[node];
      var target := q.pending[id].backupAddress;
      var (x', reply) := CommitCall(w.replicas[target], CommitMessage(q.pending[id]), delivery);
      var mid := WithReplica(w, target, x');
      && Inv(mid) && mid.replicas[node] == q
      && (reply.Some? && reply.value.success && target == q.backup ==>
            id in mid.replicas[w.config.backup].records && node == w.config.primary && !Begun(w.config))
  {
    var target := w.replicas[node].pending[id].backupAddress;
    if delivery.Delivered? {
      CommitDelivered(w, node, id, delivery.saved);
    } else {
      assert WithReplica(w, target, w.replicas[target]) == w;
    }
  }

  /** The primary clears its decision and may confirm the request to the client. */
  lemma ClearInv(w: World, node: string, id: string, reply: Option<DecisionReply>, cleared: bool)
    requires Inv(w) && node in w.replicas && node !in w.ops
    requires w.replicas[node].ready && id in w.replicas[node].pending
    requires (&& reply.Some? && reply.value.success
              && w.replicas[node].pending[id].backupAddress == w.replicas[node].backup) ==>
      id in w.replicas[w.config.backup].records && node == w.config.primary && !Begun(w.config)
    ensures var (q', done) := ClearPending(w.replicas[node], id, reply, cleared);
      var after := WithReplica(w, node, q');
      && Inv(after)
      && (done ==> Inv(after.(acked := w.acked[id := w.replicas[node].pending[id].record])))
  {
    var (q', done) := ClearPending(w.replicas[node], id, reply, cleared);
    ClearFits(w, node, id, reply, cleared);
    ReplaceInv(w, node, q');
    BackupIsIdle(w);
    if done {
      AckInv(WithReplica(w, node, q'), id, w.replicas[node].pending[id].record);
    }
  }

  lemma CommitInv(w: World, node: string, delivery: Delivery, cleared: bool)
    requires Inv(w) && Enabled(w, SendCommit(node, delivery, cleared))
    ensures Inv(Next(w, SendCommit(node, delivery, cleared)))
  {
    var idle := WithoutOp(w, node);
    WithoutOpInv(w, node);
    assert OpOk(w.replicas[node], w.ops[node]);
    if CommitReachable(w, node) {
      var q, id := w.replicas[node], w.ops[node].requestId;
      var target := q.pending[id].backupAddress;
      var (x, reply) := CommitCall(w.replicas[target], CommitMessage(q.pending[id]), delivery);
      CommitCalled(idle, node, id, delivery);
      ClearInv(WithReplica(idle, target, x), node, id, reply, cleared);
    }
  }

  // ---------------------------------------------------------------- abort

  lemma AbortPlaced(k: string, x: State, m: Decision, saved: bool)
    requires Placed(k, x)
    ensures var x' := OnAbort(x, m, saved).0;
      && Placed(k, x') && SamePlace(x, x') && x'.records == x.records && x'.auctions == x.auctions
      && (x.prepared == map[] ==> x' == x)
  {
  }

  lemma AbortFits(w: World, node: string, saved: bool)
    requires Inv(w) && node in w.replicas && node in w.ops && w.ops[node].stage == Aborting
    requires w.replicas[node].backup in w.replicas
    requires w.replicas[w.replicas[node].backup].epoch == w.replicas[node].epoch
    ensures var (q, op) := (w.replicas[node], w.ops[node]);
      var m := AbortMessage(q, op.requestId, op.candidate.auctionId);
      q.backup !in w.ops && Fits(w, q.backup, OnAbort(w.replicas[q.backup], m, saved).0)
  {
    var q, op := w.replicas[node], w.ops[node];
    var x := w.replicas[q.backup];
    var m := AbortMessage(q, op.requestId, op.candidate.auctionId);
    assert OpOk(q, op);
    OnlyPairTalks(w, node);
    BackupIsIdle(w);
    assert Sound(x) && Placed(q.backup, x);
    AbortPaired(q, x, m, saved);
    OnAbortSound(x, m, saved);
    AbortPlaced(q.backup, x, m, saved);
  }

  lemma AbortInv(w: World, node: string, delivery: Delivery)
    requires Inv(w) && Enabled(w, SendAbort(node, delivery))
    ensures Inv(Next(w, SendAbort(node, delivery)))
  {
    var q, op := w.replicas[node], w.ops[node];
    assert OpOk(q, op);
    WithoutOpInv(w, node);
    if q.backup in w.replicas && delivery.Delivered? {
      var x, m := w.replicas[q.backup], AbortMessage(q, op.requestId, op.candidate.auctionId);
      var x' := OnAbort(x, m, delivery.saved).0;
      if x.epoch == q.epoch {
        AbortFits(w, node, delivery.saved);
        ReplaceInv(w, q.backup, x');
      } else {
        RefusedByEpochOrRole(x, PrepareMessage(q, "", op.candidate, op.record), m, delivery.saved);
        assert WithReplica(w, q.backup, x') == w;
      }
      WithoutOpInv(WithReplica(w, q.backup, x'), node);
    }
  }

  // ---------------------------------------------------------------- restart

  lemma ReloadSound(k: string, r: State)
    requires Sound(r) && Placed(k, r)
    ensures Sound(Reload(r)) && Placed(k, Reload(r)) && SamePlace(r, Reload(r))
    ensures Reload(r) == r.(role := Reload(r).role, reported := Reload(r).reported)
    ensures r.ready || r.role == Backup ==> Reload(r).role == r.role
  {
  }

  lemma RestartInv(w: World, node: string)
    requires Inv(w) && Enabled(w, Restart(node))
    ensures Inv(Next(w, Restart(node)))
  {
    var r, x := w.replicas[node], w.replicas[w.config.backup];
    var idle := WithoutOp(w, node);
    WithoutOpInv(w, node);
    assert Sound(r) && Placed(node, r) && Covered(x.records, r);
    ReloadSound(node, r);
    if !Begun(w.config) && node == w.config.primary {
      FramePaired(r, x, Reload(r), x);
    }
    if !Begun(w.config) && node == w.config.backup {
      FramePaired(w.replicas[w.config.primary], r, w.replicas[w.config.primary], Reload(r));
    }
    ReplaceInv(idle, node, Reload(r));
    assert WithReplica(idle, node, Reload(r)) == Next(w, Restart(node));
  }
}
