/** What clients and operators may rely on in every state a run can reach. */
module Durability {
  import opened Text
  import opened AuctionDomain
  import opened AuctionLog
  import opened Replica
  import opened LocalInvariant
  import opened Cluster
  import opened PairInvariant
  import opened ClusterInvariant
  import opened MutationSteps
  import opened ConfigSteps

  ghost predicate Reached(w: World)
  {
    exists start, events :: Initial(start) && Run(start, events) && After(start, events) == w
  }

  lemma ReachedInv(w: World)
    requires Reached(w)
    ensures Inv(w)
  {
    var start, events :| Initial(start) && Run(start, events) && After(start, events) == w;
    InitialInv(start);
    RunInv(start, events);
  }

  // ---------------------------------------------------------------- agreement of the pair

  /** The primary's version of the auction is decided, named for this backup, and prepared there. */
  predicate AwaitsBackup(p: State, x: State, auctionId: string, id: string)
  {
    && id in p.pending && id in p.records && id in x.prepared && id !in x.records
    && Lookup(p.auctions, auctionId) == Some(p.pending[id].auction)
    && p.pending[id].backupAddress == x.address
    && x.prepared[id].candidate == p.pending[id].auction
    && x.prepared[id].record == p.records[id]
    && p.pending[id].record == p.records[id]
  }

  lemma PairedMeans(p: State, x: State, auctionId: string)
    requires Paired(p, x) && PendingOk(p.records, p.pending)
    ensures VersionOf(x.auctions, auctionId) <= VersionOf(p.auctions, auctionId) <= VersionOf(x.auctions, auctionId) + 1
    ensures VersionOf(p.auctions, auctionId) == VersionOf(x.auctions, auctionId) ==>
      Lookup(p.auctions, auctionId) == Lookup(x.auctions, auctionId)
    ensures VersionOf(p.auctions, auctionId) == VersionOf(x.auctions, auctionId) + 1 ==>
      exists id :: AwaitsBackup(p, x, auctionId, id)
  {
    if !InStep(p, x, auctionId) {
      assert AheadOn(p, x, auctionId);
      var id :| id !in x.records && Ahead(p, x, id) && p.pending[id].auction.auctionId == auctionId;
      assert Decides(p.pending[id], id, p.records[id]);
      assert AwaitsBackup(p, x, auctionId, id);
    }
  }

  /** The designated backup equals the primary on an auction or waits for one prepared, decided version. */
  lemma PairAgreement(w: World, auctionId: string)
    requires Reached(w) && !Begun(w.config)
    ensures Shape(w.replicas, w.config)
    ensures var p, x := w.replicas[w.config.primary], w.replicas[w.config.backup];
      var ahead, behind := VersionOf(p.auctions, auctionId), VersionOf(x.auctions, auctionId);
      && (ahead == behind || ahead == behind + 1)
      && (ahead == behind ==> Lookup(p.auctions, auctionId) == Lookup(x.auctions, auctionId))
      && (ahead == behind + 1 ==> exists id :: AwaitsBackup(p, x, auctionId, id))
  {
    ReachedInv(w);
    assert Sound(w.replicas[w.config.primary]);
    PairedMeans(w.replicas[w.config.primary], w.replicas[w.config.backup], auctionId);
  }

  /** A tombstone on the designated backup: the request is decided on neither side. */
  lemma TombstonedIsUndecided(w: World, id: string)
    requires Reached(w) && !Begun(w.config)
    ensures Shape(w.replicas, w.config)
    ensures id in w.replicas[w.config.backup].aborted ==>
      id !in w.replicas[w.config.primary].records && id !in w.replicas[w.config.backup].records
  {
    ReachedInv(w);
    var x := w.replicas[w.config.backup];
    assert Sound(x);
  }

  /** On every replica a request id is committed, prepared or tombstoned, and never two of these. */
  lemma RequestIdsDisjoint(w: World, k: string, id: string)
    requires Reached(w) && k in w.replicas
    ensures var r := w.replicas[k];
      && !(id in r.records && id in r.prepared)
      && !(id in r.records && id in r.aborted)
      && !(id in r.prepared && id in r.aborted)
  {
    ReachedInv(w);
    assert Sound(w.replicas[k]);
  }

  // ---------------------------------------------------------------- exactly-once accounting

  /**
   * On every replica of every reachable world an auction's version is the number of receipts naming it, and
   * each version from 1 on is named by exactly one of them.
   */
  lemma ExactlyOnce(w: World, k: string, auctionId: string, version: int)
    requires Reached(w) && k in w.replicas
    ensures var r := w.replicas[k];
      && |ReceiptsOf(r.records, auctionId)| == VersionOf(r.auctions, auctionId)
      && (1 <= version <= VersionOf(r.auctions, auctionId) <==>
            exists id :: id in r.records && Names(r.records[id], auctionId, version))
      && (forall i, j | i in r.records && j in r.records ::
            Names(r.records[i], auctionId, version) && Names(r.records[j], auctionId, version) ==> i == j)
  {
    ReachedInv(w);
    var r := w.replicas[k];
    assert Sound(r);
    VersionCountsReceipts(r.auctions, r.records, auctionId);
    if 1 <= version <= VersionOf(r.auctions, auctionId) {
      assert Exists(r.auctions, auctionId, version);
      assert Accounted(r.records, auctionId, version);
    }
    forall id | id in r.records && Names(r.records[id], auctionId, version)
      ensures 1 <= version <= VersionOf(r.auctions, auctionId)
    {
      assert ReceiptInRange(r.auctions, r.records[id]);
    }
  }

  // ---------------------------------------------------------------- when a mutation goes through

  lemma PrepareAccepted(q: State, x: State, op: Op)
    requires Paired(q, x) && Proposable(q, op.requestId, op.candidate, op.record)
    requires x.role == Backup && x.epoch == q.epoch
    ensures PrepareCall(q, x, op, Delivered(true, true)).1 <==>
      && op.requestId !in x.aborted
      && (if op.requestId in x.prepared then
            x.prepared[op.requestId] == PrepareMessage(q, op.requestId, op.candidate, op.record)
          else InStep(q, x, op.candidate.auctionId))
  {
  }

  /**
   * With the calls delivered and the disk working, the primary's proposal is acknowledged exactly when its id is not
   * tombstoned, no different proposal is prepared under it, and the backup has caught up on the auction.
   */
  lemma ProposalAcceptedIff(w: World)
    requires Reached(w) && !Begun(w.config) && !InWindow(w.config)
    requires w.config.primary in w.ops && w.ops[w.config.primary].stage == Preparing
    ensures Shape(w.replicas, w.config) && Enabled(w, SendPrepare(w.config.primary, Delivered(true, true)))
    ensures var p, x, op := w.replicas[w.config.primary], w.replicas[w.config.backup], w.ops[w.config.primary];
      Next(w, SendPrepare(w.config.primary, Delivered(true, true))).ops[w.config.primary].stage == Prepared <==>
        && op.requestId !in x.aborted
        && (if op.requestId in x.prepared then
              x.prepared[op.requestId] == PrepareMessage(p, op.requestId, op.candidate, op.record)
            else InStep(p, x, op.candidate.auctionId))
  {
    ReachedInv(w);
    var p, x, op := w.replicas[w.config.primary], w.replicas[w.config.backup], w.ops[w.config.primary];
    assert OpOk(p, op) && Placed(w.config.primary, p);
    PrepareAccepted(p, x, op);
  }

  // ---------------------------------------------------------------- acknowledged writes

  lemma CommitGrowsRecords(q: State, x: State, id: string, delivery: Delivery, cleared: bool)
    requires id in q.pending && Disjoint(x) && Trimmed(q.pending[id].requestId)
    ensures var (q', x', done) := CommitExchange(q, x, id, delivery, cleared);
      q'.records == q.records && Grows(x.records, x'.records)
  {
  }

  predicate Remembers(acked: map<string, Record>, later: map<string, Record>)
  {
    forall id :: id in acked ==> id in later && later[id] == acked[id]
  }

  lemma HeldIsUnique(records: map<string, Record>, more: map<string, Record>, acked: map<string, Record>,
      later: map<string, Record>)
    requires AckedHeld(records, acked) && AckedHeld(more, later) && Grows(records, more)
    requires acked.Keys <= later.Keys
    ensures Remembers(acked, later)
  {
  }

  lemma SubmitRemembers(w: World, node: string, request: MutationRequest, now: real)
    requires Inv(w) && Enabled(w, Submit(node, request, now))
    ensures Remembers(w.acked, Next(w, Submit(node, request, now)).acked)
  {
    var records := w.replicas[w.config.backup].records;
    SubmitInv(w, node, request, now);
    HeldIsUnique(records, records, w.acked, Next(w, Submit(node, request, now)).acked);
  }

  lemma CommitPreconditions(w: World, node: string)
    requires Inv(w) && node in w.replicas && node in w.ops && CommitReachable(w, node)
    ensures var q, id := w.replicas[node], w.ops[node].requestId;
      Disjoint(w.replicas[q.pending[id].backupAddress]) && Trimmed(q.pending[id].requestId)
  {
    var q, id := w.replicas[node], w.ops[node].requestId;
    assert OpOk(q, w.ops[node]) && Sound(q) && Decides(q.pending[id], id, q.records[id]);
    assert Sound(w.replicas[q.pending[id].backupAddress]);
  }

  lemma CommitReplicas(w: World, node: string, delivery: Delivery, cleared: bool)
    requires Enabled(w, SendCommit(node, delivery, cleared)) && CommitReachable(w, node)
    ensures var q, id := w.replicas[node], w.ops[node].requestId;
      var target := q.pending[id].backupAddress;
      var (q', x', done) := CommitExchange(q, w.replicas[target], id, delivery, cleared);
      Next(w, SendCommit(node, delivery, cleared)).replicas == w.replicas[target := x'][node := q']
  {
  }

  lemma CommitGrowsBackup(w: World, node: string, delivery: Delivery, cleared: bool)
    requires Inv(w) && Enabled(w, SendCommit(node, delivery, cleared))
    ensures Next(w, SendCommit(node, delivery, cleared)).config == w.config
    ensures w.config.backup in Next(w, SendCommit(node, delivery, cleared)).replicas
    ensures Grows(w.replicas[w.config.backup].records,
                  Next(w, SendCommit(node, delivery, cleared)).replicas[w.config.backup].records)
  {
    if CommitReachable(w, node) {
      var q, id := w.replicas[node], w.ops[node].requestId;
      CommitPreconditions(w, node);
      CommitGrowsRecords(q, w.replicas[q.pending[id].backupAddress], id, delivery, cleared);
      CommitReplicas(w, node, delivery, cleared);
    }
  }

  lemma CommitRemembers(w: World, node: string, delivery: Delivery, cleared: bool)
    requires Inv(w) && Enabled(w, SendCommit(node, delivery, cleared))
    ensures Remembers(w.acked, Next(w, SendCommit(node, delivery, cleared)).acked)
  {
    var w' := Next(w, SendCommit(node, delivery, cleared));
    CommitInv(w, node, delivery, cleared);
    CommitGrowsBackup(w, node, delivery, cleared);
    HeldIsUnique(w.replicas[w.config.backup].records, w'.replicas[w.config.backup].records, w.acked, w'.acked);
  }

  lemma OthersRemember(w: World, ev: Event)
    requires Enabled(w, ev) && !ev.Submit? && !ev.SendCommit?
    ensures Next(w, ev).acked == w.acked
  {
  }

  /** No event forgets or alters an acknowledgement. */
  lemma NextRemembers(w: World, ev: Event)
    requires Inv(w) && Enabled(w, ev)
    ensures Remembers(w.acked, Next(w, ev).acked)
  {
    match ev
    case Submit(node, request, now) => SubmitRemembers(w, node, request, now);
    case SendCommit(node, delivery, cleared) => CommitRemembers(w, node, delivery, cleared);
    case _ => OthersRemember(w, ev);
  }

  lemma {:induction false} RunRemembers(w: World, events: seq<Event>)
    requires Inv(w) && Run(w, events)
    ensures Remembers(w.acked, After(w, events).acked)
    decreases |events|
  {
    if events != [] {
      NextInv(w, events[0]);
      NextRemembers(w, events[0]);
      RunRemembers(Next(w, events[0]), events[1..]);
    }
  }

  /** The request a reply answers. */
  function RequestIdOf(w: World, ev: Event): string
    requires Allowed(w, ev)
  {
    match ev
    case Submit(_, request, _) => request.requestId
    case SendCommit(node, _, _) => w.ops[node].requestId
    case SendAbort(node, _) => w.ops[node].requestId
    case _ => ""
  }

  /** Every success reply, fresh or replayed, repeats a receipt that is acknowledged from then on. */
  lemma SuccessIsAcked(w: World, ev: Event)
    requires Inv(w) && Enabled(w, ev)
    requires ReplyTo(w, ev).Some? && ReplyTo(w, ev).value.success
    ensures var id := RequestIdOf(w, ev);
      && id in Next(w, ev).acked
      && ReplyTo(w, ev).value == Next(w, ev).acked[id].response.(replayed := ReplyTo(w, ev).value.replayed)
  {
    match ev
    case Submit(node, request, now) => ReplyIsSettled(w.replicas[node], request, now);
    case SendCommit(node, delivery, cleared) => assert OpOk(w.replicas[node], w.ops[node]);
    case SendAbort(_, _) =>
    case _ =>
  }

  /**
   * Acknowledged writes survive: after a success reply and whatever happens later, restarts, lost messages
   * and any number of promotions and reprotections included, the designated backup holds the receipt with
   * the version the client was told, and so does the primary that is paired with it.
   */
  lemma AcknowledgedWritesSurvive(w: World, ev: Event, events: seq<Event>)
    requires Reached(w) && Enabled(w, ev)
    requires ReplyTo(w, ev).Some? && ReplyTo(w, ev).value.success
    requires Run(Next(w, ev), events)
    ensures var later, id := After(Next(w, ev), events), RequestIdOf(w, ev);
      && Inv(later)
      && id in later.replicas[later.config.backup].records
      && ReplyTo(w, ev).value ==
           later.replicas[later.config.backup].records[id].response.(replayed := ReplyTo(w, ev).value.replayed)
      && (!Begun(later.config) ==>
            Lookup(later.replicas[later.config.primary].records, id) ==
            Lookup(later.replicas[later.config.backup].records, id))
  {
    ReachedInv(w);
    NextInv(w, ev);
    SuccessIsAcked(w, ev);
    RunInv(Next(w, ev), events);
    RunRemembers(Next(w, ev), events);
    var later := After(Next(w, ev), events);
    assert Held(later.replicas[later.config.backup].records, RequestIdOf(w, ev), later.acked[RequestIdOf(w, ev)]);
  }

  /** Two success replies to the same request, at any two moments of a run, tell the same story. */
  lemma RepliesAgree(w: World, first: Event, events: seq<Event>, second: Event)
    requires Reached(w) && Enabled(w, first) && Run(Next(w, first), events)
    requires Enabled(After(Next(w, first), events), second)
    requires RequestIdOf(w, first) == RequestIdOf(After(Next(w, first), events), second)
    requires ReplyTo(w, first).Some? && ReplyTo(w, first).value.success
    requires ReplyTo(After(Next(w, first), events), second).Some?
    requires ReplyTo(After(Next(w, first), events), second).value.success
    ensures var one, two := ReplyTo(w, first).value, ReplyTo(After(Next(w, first), events), second).value;
      one.currentVersion == two.currentVersion && one.auctionId == two.auctionId
  {
    ReachedInv(w);
    NextInv(w, first);
    SuccessIsAcked(w, first);
    RunInv(Next(w, first), events);
    RunRemembers(Next(w, first), events);
    SuccessIsAcked(After(Next(w, first), events), second);
    NextRemembers(After(Next(w, first), events), second);
  }

  /** How a ready primary answers a typed request whose receipt it holds. */
  lemma ReceiptAnswers(p: State, request: MutationRequest, now: real, record: Record)
    requires p.role == Primary && p.ready && request.epoch == p.epoch
    requires request.mutationType != UnspecifiedType
        && FingerprintOf(request, request.mutationType) == record.fingerprint
    requires request.requestId != "" && Held(p.records, request.requestId, record) && request.requestId !in p.aborted
    ensures StartMutation(p, request, now) ==
      if request.requestId in p.pending then Resume(request.requestId)
      else Reply(record.response.(replayed := true))
  {
  }

  lemma PrimaryHolds(w: World, id: string)
    requires Inv(w) && !Begun(w.config) && id in w.acked
    ensures var p := w.replicas[w.config.primary];
      && p.role == Primary && p.ready && p.epoch == w.config.epoch
      && Held(p.records, id, w.acked[id]) && id !in p.aborted && id != ""
  {
    var p, x := w.replicas[w.config.primary], w.replicas[w.config.backup];
    assert Sound(p) && Held(x.records, id, w.acked[id]);
  }

  /** Resubmitting an acknowledged request to the primary proposes nothing and changes no replica. */
  lemma RetryReplays(w: World, request: MutationRequest, now: real)
    requires Reached(w) && !Begun(w.config)
    requires var node := w.config.primary;
      && Enabled(w, Submit(node, request, now))
      && request.epoch == w.config.epoch && request.mutationType != UnspecifiedType
      && request.requestId in w.acked
      && FingerprintOf(request, request.mutationType) == w.acked[request.requestId].fingerprint
    ensures w.config.primary in w.replicas
    ensures var p := w.replicas[w.config.primary];
      && Next(w, Submit(w.config.primary, request, now)).replicas == w.replicas
      && StartMutation(p, request, now) ==
           if request.requestId in p.pending then Resume(request.requestId)
           else Reply(w.acked[request.requestId].response.(replayed := true))
  {
    ReachedInv(w);
    PrimaryHolds(w, request.requestId);
    ReceiptAnswers(w.replicas[w.config.primary], request, now, w.acked[request.requestId]);
  }

  // ---------------------------------------------------------------- fencing

  lemma HandledKeepsEpoch(x: State, message: Message, saved: bool)
    ensures Handled(x, message, saved).epoch == x.epoch
  {
  }

  /** No mutation message moves an epoch. */
  lemma PreparesKeepEpochs(w: World, ev: Event, k: string)
    requires Inv(w) && Enabled(w, ev) && k in w.replicas && (ev.SendPrepare? || ev.SendAbort?)
    ensures k in Next(w, ev).replicas && Next(w, ev).replicas[k].epoch == w.replicas[k].epoch
  {
    var q, op := w.replicas[ev.node], w.ops[ev.node];
    var m := PrepareMessage(q, op.requestId, op.candidate, op.record);
    var d := AbortMessage(q, op.requestId, op.candidate.auctionId);
    forall x, saved ensures OnPrepare(x, m, saved).0.epoch == x.epoch && OnAbort(x, d, saved).0.epoch == x.epoch {
      HandledKeepsEpoch(x, Preparation(m), saved);
      HandledKeepsEpoch(x, Cancellation(d), saved);
    }
  }

  lemma CommitsKeepEpochs(w: World, ev: Event, k: string)
    requires Inv(w) && Enabled(w, ev) && k in w.replicas && ev.SendCommit?
    ensures k in Next(w, ev).replicas && Next(w, ev).replicas[k].epoch == w.replicas[k].epoch
  {
    var q, id := w.replicas[ev.node], w.ops[ev.node].requestId;
    if id in q.pending {
      forall x, saved ensures OnCommit(x, CommitMessage(q.pending[id]), saved).0.epoch == x.epoch {
        HandledKeepsEpoch(x, Commitment(CommitMessage(q.pending[id])), saved);
      }
    }
  }

  /** Nor does an event at one replica that is not about its configuration. */
  lemma LocalEventsKeepEpochs(w: World, ev: Event, k: string)
    requires Enabled(w, ev) && k in w.replicas
    requires ev.Submit? || ev.Decide? || ev.Restart? || ev.Delay?
    ensures k in Next(w, ev).replicas && Next(w, ev).replicas[k].epoch == w.replicas[k].epoch
  {
  }

  lemma LateKeepsEpochs(w: World, mail: Mail, saved: bool, k: string)
    requires Enabled(w, Late(mail, saved)) && k in w.replicas
    ensures var w' := Next(w, Late(mail, saved)); k in w'.replicas && w'.replicas[k].epoch == w.replicas[k].epoch
  {
    HandledKeepsEpoch(w.replicas[mail.target], mail.message, saved);
  }

  lemma PlanningKeepsEpochs(w: World, ev: Event, k: string)
    requires Enabled(w, ev) && k in w.replicas
    requires !MutationEvent(ev) && !ev.Install? && !ev.SendBegin?
    ensures k in Next(w, ev).replicas && Next(w, ev).replicas[k].epoch == w.replicas[k].epoch
  {
  }

  lemma InstallKeepsEpochs(w: World, copy: Copy, saved: bool, k: string)
    requires Enabled(w, Install(copy, saved)) && k in w.replicas
    ensures var w' := Next(w, Install(copy, saved)); k in w'.replicas && w.replicas[k].epoch <= w'.replicas[k].epoch
  {
  }

  lemma BeginKeepsEpochs(w: World, saved: bool, k: string)
    requires Enabled(w, SendBegin(saved)) && k in w.replicas
    ensures var w' := Next(w, SendBegin(saved)); k in w'.replicas && w.replicas[k].epoch <= w'.replicas[k].epoch
  {
  }

  /** Replica epochs never decrease. */
  lemma EpochsNeverDecrease(w: World, ev: Event, k: string)
    requires Inv(w) && Enabled(w, ev) && k in w.replicas
    ensures k in Next(w, ev).replicas && w.replicas[k].epoch <= Next(w, ev).replicas[k].epoch
  {
    if ev.SendPrepare? || ev.SendAbort? {
      PreparesKeepEpochs(w, ev, k);
    } else if ev.SendCommit? {
      CommitsKeepEpochs(w, ev, k);
    } else if ev.Late? {
      LateKeepsEpochs(w, ev.mail, ev.saved, k);
    } else if ev.Install? {
      InstallKeepsEpochs(w, ev.copy, ev.saved, k);
    } else if ev.SendBegin? {
      BeginKeepsEpochs(w, ev.saved, k);
    } else if MutationEvent(ev) {
      LocalEventsKeepEpochs(w, ev, k);
    } else {
      PlanningKeepsEpochs(w, ev, k);
    }
  }

  lemma {:induction false} RunEpochs(w: World, events: seq<Event>, k: string)
    requires Inv(w) && Run(w, events) && k in w.replicas
    ensures k in After(w, events).replicas && w.replicas[k].epoch <= After(w, events).replicas[k].epoch
    decreases |events|
  {
    if events != [] {
      EpochsNeverDecrease(w, events[0], k);
      NextInv(w, events[0]);
      RunEpochs(Next(w, events[0]), events[1..], k);
    }
  }

  /** Once a replica has reached an epoch, no message of an earlier one succeeds there or changes it, ever. */
  lemma FencedForever(w: World, events: seq<Event>, k: string, m: Prepare, d: Decision, saved: bool)
    requires Reached(w) && Run(w, events) && k in w.replicas
    requires m.epoch < w.replicas[k].epoch && d.epoch < w.replicas[k].epoch
    ensures k in After(w, events).replicas
    ensures var r := After(w, events).replicas[k];
      && OnPrepare(r, m, saved).0 == r && !OnPrepare(r, m, saved).1.success
      && OnCommit(r, d, saved).0 == r && !OnCommit(r, d, saved).1.success
      && OnAbort(r, d, saved).0 == r && !OnAbort(r, d, saved).1.success
  {
    ReachedInv(w);
    RunEpochs(w, events, k);
    RefusedByEpochOrRole(After(w, events).replicas[k], m, d, saved);
  }

  /** A primary outside the pair, or whose backup began its promotion, is never acknowledged again. */
  lemma StalePrimaryIsRefused(w: World, node: string, delivery: Delivery)
    requires Reached(w) && Enabled(w, SendPrepare(node, delivery))
    requires node != w.config.primary || Begun(w.config)
    ensures Next(w, SendPrepare(node, delivery)).ops[node].stage == Aborting
    ensures Next(w, SendPrepare(node, delivery)).replicas == w.replicas
  {
    ReachedInv(w);
    var q, op := w.replicas[node], w.ops[node];
    assert OpOk(q, op) && Placed(node, q);
    if q.backup in w.replicas {
      OnlyPairTalks(w, node);
      PrepareRefused(q, w.replicas[q.backup], op, delivery);
      assert w.replicas[q.backup := w.replicas[q.backup]] == w.replicas;
    }
  }

  lemma FreshCommitIsCurrent(w: World, node: string, delivery: Delivery, cleared: bool)
    requires Inv(w) && Enabled(w, SendCommit(node, delivery, cleared))
    requires ReplyTo(w, SendCommit(node, delivery, cleared)).value.success && !w.ops[node].replay
    ensures node == w.config.primary && !Begun(w.config)
  {
    var q, op := w.replicas[node], w.ops[node];
    assert OpOk(q, op) && Placed(node, q);
    var target := q.pending[op.requestId].backupAddress;
    assert Placed(target, w.replicas[target]);
    CommitPlaced(target, w.replicas[target], CommitMessage(q.pending[op.requestId]),
                 delivery.Delivered? && delivery.saved);
    CommitRoute(w, node, op.requestId);
  }

  /** A success that is not a replay comes from the current primary before its backup is promoted. */
  lemma FreshSuccessIsCurrent(w: World, ev: Event)
    requires Reached(w) && Enabled(w, ev)
    requires ReplyTo(w, ev).Some? && ReplyTo(w, ev).value.success && !ReplyTo(w, ev).value.replayed
    ensures ev.SendCommit? && ev.node == w.config.primary && !Begun(w.config)
  {
    ReachedInv(w);
    match ev
    case Submit(node, request, now) => ReplyIsSettled(w.replicas[node], request, now);
    case SendCommit(node, delivery, cleared) => FreshCommitIsCurrent(w, node, delivery, cleared);
    case SendAbort(_, _) =>
    case _ =>
  }

  // ---------------------------------------------------------------- promotion

  lemma PrepareFrozen(w: World, node: string, delivery: Delivery)
    requires Inv(w) && Enabled(w, SendPrepare(node, delivery)) && Begun(w.config)
    ensures Next(w, SendPrepare(node, delivery)).replicas == w.replicas
  {
    var q, op := w.replicas[node], w.ops[node];
    assert OpOk(q, op);
    if q.backup in w.replicas {
      OnlyPairTalks(w, node);
      PrepareRefused(q, w.replicas[q.backup], op, delivery);
      assert w.replicas[q.backup := w.replicas[q.backup]] == w.replicas;
    }
  }

  lemma AbortFrozen(w: World, node: string, delivery: Delivery)
    requires Inv(w) && Enabled(w, SendAbort(node, delivery)) && Begun(w.config)
    ensures Next(w, SendAbort(node, delivery)).replicas == w.replicas
  {
    var q, op := w.replicas[node], w.ops[node];
    assert OpOk(q, op);
    if q.backup in w.replicas && delivery.Delivered? {
      OnlyPairTalks(w, node);
      RefusedByEpochOrRole(w.replicas[q.backup], PrepareMessage(q, "", op.candidate, op.record),
                           AbortMessage(q, op.requestId, op.candidate.auctionId), delivery.saved);
      assert w.replicas[q.backup := w.replicas[q.backup]] == w.replicas;
    }
  }

  lemma CommitFrozen(w: World, node: string, delivery: Delivery, cleared: bool)
    requires Inv(w) && Enabled(w, SendCommit(node, delivery, cleared)) && Begun(w.config)
    ensures Next(w, SendCommit(node, delivery, cleared)).replicas[w.config.backup] == w.replicas[w.config.backup]
  {
    BackupIsIdle(w);
    if CommitReachable(w, node) && delivery.Delivered? {
      var q, op := w.replicas[node], w.ops[node];
      assert OpOk(q, op) && Placed(node, q);
      var target := q.pending[op.requestId].backupAddress;
      assert Placed(target, w.replicas[target]);
      CommitPlaced(target, w.replicas[target], CommitMessage(q.pending[op.requestId]), delivery.saved);
      CommitRoute(w, node, op.requestId);
    }
  }

  /** The replica's auctions and receipts are the same in both. */
  predicate SameStores(before: Replicas, after: Replicas, k: string)
  {
    && k in before && k in after
    && after[k].auctions == before[k].auctions && after[k].records == before[k].records
  }

  lemma LocallyFrozen(w: World, ev: Event)
    requires Inv(w) && Enabled(w, ev) && Begun(w.config) && w.config.backup !in w.ops
    requires ev.Decide? || ev.Restart?
    ensures SameStores(w.replicas, Next(w, ev).replicas, w.config.backup)
  {
  }

  lemma QuietlyFrozen(w: World, ev: Event)
    requires Inv(w) && Enabled(w, ev) && (ev.Submit? || ev.Delay?)
    ensures SameStores(w.replicas, Next(w, ev).replicas, w.config.backup)
  {
  }

  /** A delayed call is of an epoch the candidate has left behind. */
  lemma LateFrozen(w: World, mail: Mail, saved: bool)
    requires Inv(w) && Enabled(w, Late(mail, saved)) && Begun(w.config)
    ensures SameStores(w.replicas, Next(w, Late(mail, saved)).replicas, w.config.backup)
  {
    assert MailOk(mail.message, w.config, w.replicas[w.config.primary].records);
  }

  lemma MessagesFrozen(w: World, ev: Event)
    requires Inv(w) && Enabled(w, ev) && Begun(w.config)
    requires ev.SendPrepare? || ev.SendAbort? || ev.SendCommit?
    ensures SameStores(w.replicas, Next(w, ev).replicas, w.config.backup)
  {
    match ev
    case SendPrepare(node, delivery) => PrepareFrozen(w, node, delivery);
    case SendAbort(node, delivery) => AbortFrozen(w, node, delivery);
    case SendCommit(node, delivery, cleared) => CommitFrozen(w, node, delivery, cleared);
  }

  lemma InstallFrozen(w: World, copy: Copy, saved: bool)
    requires Inv(w) && Enabled(w, Install(copy, saved)) && Begun(w.config)
    ensures SameStores(w.replicas, Next(w, Install(copy, saved)).replicas, w.config.backup)
  {
  }

  lemma PlanFrozen(w: World, ev: Event)
    requires Inv(w) && Enabled(w, ev) && Begun(w.config) && !MutationEvent(ev) && !ev.Install?
    ensures SameStores(w.replicas, Next(w, ev).replicas, w.config.backup)
  {
  }

  /** From the accepted Begin to the completion no event touches the candidate's auctions or receipts. */
  lemma CandidateIsFrozen(w: World, ev: Event)
    requires Reached(w) && Enabled(w, ev) && Begun(w.config)
    ensures SameStores(w.replicas, Next(w, ev).replicas, w.config.backup)
  {
    ReachedInv(w);
    BackupIsIdle(w);
    if ev.SendPrepare? || ev.SendAbort? || ev.SendCommit? {
      MessagesFrozen(w, ev);
    } else if ev.Late? {
      LateFrozen(w, ev.mail, ev.saved);
    } else if ev.Submit? || ev.Delay? {
      QuietlyFrozen(w, ev);
    } else if MutationEvent(ev) {
      LocallyFrozen(w, ev);
    } else if ev.Install? {
      InstallFrozen(w, ev.copy, ev.saved);
    } else {
      PlanFrozen(w, ev);
    }
  }

  /** Both hold the same auctions and receipts, what the second has staged or discarded is undecided, and they serve. */
  predicate Agree(p: State, x: State)
  {
    && p.auctions == x.auctions && p.records == x.records
    && x.prepared.Keys !! p.records.Keys && x.aborted.Keys !! p.records.Keys
    && p.ready && p.backup == x.address
  }

  lemma CompletionAgrees(w: World, call: Completion, saved: bool)
    requires Inv(w) && Allowed(w, TakeComplete(call, saved)) && CurrentCall(w.config, call)
    requires OnComplete(w.replicas[call.primary], call.epoch, call.target, saved).1
    ensures call.target in w.replicas && call.target != call.primary
    ensures var s := OnComplete(w.replicas[call.primary], call.epoch, call.target, saved).0;
      Agree(s, w.replicas[call.target]) && (w.config.mode.Promoting? ==> s.pending == map[])
  {
    assert Placed(call.primary, w.replicas[call.primary]) && Placed(call.target, w.replicas[call.target]);
    assert Sound(w.replicas[call.target]);
    CompletedPlaced(call.primary, w.replicas[call.primary], call.epoch, call.target, saved);
  }

  /** When the pair that serves changes, the new backup holds exactly the new primary's auctions and receipts. */
  lemma ActivationAgreement(w: World, call: Completion, saved: bool)
    requires Reached(w) && Enabled(w, TakeComplete(call, saved))
    requires Next(w, TakeComplete(call, saved)).config != w.config
    ensures var w' := Next(w, TakeComplete(call, saved));
      && Shape(w'.replicas, w'.config) && w'.config == Config(call.primary, call.target, call.epoch, Ready)
      && Agree(w'.replicas[call.primary], w'.replicas[call.target])
      && (w.config.mode.Promoting? ==> w'.replicas[call.primary].pending == map[])
  {
    ReachedInv(w);
    CompletionAgrees(w, call, saved);
    CompleteInv(w, call, saved);
  }
}
