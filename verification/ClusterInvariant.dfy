/** What every event of the cluster keeps. */
module ClusterInvariant {
  import opened Text
  import opened AuctionDomain
  import opened AuctionLog
  import opened Replica
  import opened LocalInvariant
  import opened Cluster
  import opened PairInvariant

  type Replicas = map<string, State>

  predicate Begun(config: Config)
  {
    config.mode.Promoting? && config.mode.begun
  }

  predicate Shape(replicas: Replicas, config: Config)
  {
    && config.primary in replicas && config.backup in replicas && config.primary != config.backup
    && (config.mode.Promoting? ==> config.mode.promotedEpoch > config.epoch)
    && config.epoch >= 1
  }

  ghost predicate AllSound(replicas: Replicas)
  {
    forall k {:trigger Sound(replicas[k])} :: k in replicas ==> Sound(replicas[k])
  }

  predicate Placed(k: string, r: State)
  {
    r.address == k && RoleOk(r)
  }

  predicate AllPlaced(replicas: Replicas)
  {
    forall k {:trigger Placed(k, replicas[k])} :: k in replicas ==> Placed(k, replicas[k])
  }

  /** An operation belongs to a ready primary and is undecided until it reaches the completing stage. */
  ghost predicate OpOk(q: State, op: Op)
  {
    && q.role == Primary && q.ready
    && Id(op.requestId)
    && (op.stage == Completing ==>
          && op.requestId in q.pending && q.pending[op.requestId].record == op.record
          && (!op.replay ==> q.pending[op.requestId].backupAddress == q.backup))
    && (op.stage != Completing ==> Proposable(q, op.requestId, op.candidate, op.record))
  }

  ghost predicate OpsOk(replicas: Replicas, ops: map<string, Op>)
  {
    && ops.Keys <= replicas.Keys
    && forall k {:trigger OpOk(replicas[k], ops[k])} :: k in ops ==> OpOk(replicas[k], ops[k])
  }

  predicate PrimaryOk(p: State, config: Config)
  {
    p.role == Primary && p.ready && p.backup == config.backup && p.epoch == config.epoch
  }

  /** Until the backup accepts its promotion it is paired with the primary; from then on it is frozen. */
  ghost predicate BackupOk(p: State, x: State, config: Config)
  {
    if Begun(config) then x.epoch == config.mode.promotedEpoch && !x.ready
    else x.role == Backup && x.epoch == config.epoch && Paired(p, x)
  }

  predicate StageOk(p: State, x: State, op: Option<Op>, config: Config)
  {
    op.Some? && op.value.stage == Prepared ==>
      !InWindow(config) && (!Begun(config) ==> Staged(p, x, op.value))
  }

  function NewestEpoch(config: Config): int
  {
    if Begun(config) then config.mode.promotedEpoch else config.epoch
  }

  /** A ready primary outside the pair names a backup that has moved to a later epoch. */
  predicate Fenced(replicas: Replicas, r: State)
  {
    r.ready ==> r.backup in replicas && r.epoch < replicas[r.backup].epoch
  }

  predicate OthersFenced(replicas: Replicas, primary: string)
  {
    forall k {:trigger Fenced(replicas, replicas[k])} :: k in replicas && k != primary ==> Fenced(replicas, replicas[k])
  }

  predicate EpochsBounded(replicas: Replicas, epoch: int)
  {
    forall k {:trigger replicas[k].epoch} :: k in replicas ==> replicas[k].epoch <= epoch
  }

  predicate Copied(t: State, full: FullState, epoch: int)
  {
    && t.role == Backup && t.epoch == epoch
    && t.auctions == full.auctions && t.records == full.records
    && t.prepared == map[] && t.aborted == map[]
  }

  /** A copy that may have staged or discarded requests since, but none that changes what it holds. */
  predicate Holds(t: State, full: FullState, epoch: int)
  {
    t.role == Backup && t.epoch == epoch && t.auctions == full.auctions && t.records == full.records
  }

  /** The state handed to a synchronization target is still the source's state. */
  predicate SyncOk(replicas: Replicas, config: Config)
  {
    var source := SourceOf(config);
    SyncOf(config.mode).Some? ==>
      var sync := SyncOf(config.mode).value;
      && source in replicas && sync.target in replicas && sync.target != source
      && sync.full == FullState(replicas[source].auctions, replicas[source].records)
      && (sync.installed ==> Holds(replicas[sync.target], sync.full, EpochOf(config)))
      && (config.mode.Promoting? ==> Begun(config))
  }

  /** A state in flight is one a sound replica of its epoch handed out. */
  ghost predicate CopyOk(copy: Copy, epoch: int)
  {
    && copy.epoch <= epoch
    && StoreOk(copy.full.auctions) && Accounting(copy.full.auctions, copy.full.records)
  }

  ghost predicate CopiesOk(copies: set<Copy>, epoch: int)
  {
    forall copy {:trigger CopyOk(copy, epoch)} {:trigger copy in copies} :: copy in copies ==> CopyOk(copy, epoch)
  }

  /** The epoch of a call: the pair's or an earlier one, and always before that of a promotion under way. */
  predicate Timely(epoch: int, config: Config)
  {
    if Begun(config) then epoch < config.mode.promotedEpoch else epoch <= config.epoch
  }

  /** A delayed call of a mutation; a commit of the pair's epoch is for a request the primary has decided. */
  ghost predicate MailOk(message: Message, config: Config, decided: map<string, Record>)
  {
    match message
    case Preparation(m) => GoodPrepare(m) && Timely(m.epoch, config)
    case Commitment(m) =>
      && Id(m.requestId) && Timely(m.epoch, config)
      && (!Begun(config) && m.epoch == config.epoch ==> m.requestId in decided)
    case Cancellation(m) => Id(m.requestId) && Timely(m.epoch, config)
  }

  ghost predicate MailsOk(mail: set<Mail>, config: Config, decided: map<string, Record>)
  {
    forall m {:trigger MailOk(m.message, config, decided)} {:trigger m in mail} :: m in mail ==>
      MailOk(m.message, config, decided)
  }

  /** The designated backup holds this receipt. */
  predicate Held(records: map<string, Record>, id: string, record: Record)
  {
    id in records && records[id] == record
  }

  predicate AckedHeld(records: map<string, Record>, acked: map<string, Record>)
  {
    forall id :: id in acked ==> Held(records, id, acked[id])
  }

  /** A receipt that no longer waits for the replica's current backup. */
  predicate Settled(r: State, id: string)
  {
    id in r.records && (id !in r.pending || r.pending[id].backupAddress != r.backup)
  }

  /** Whatever a ready primary may still confirm to a client, the designated backup holds. */
  predicate Covered(records: map<string, Record>, r: State)
  {
    r.ready ==> forall id :: id in r.records && Settled(r, id) ==> Held(records, id, r.records[id])
  }

  predicate AllCovered(replicas: Replicas, records: map<string, Record>)
  {
    forall k {:trigger Covered(records, replicas[k])} :: k in replicas ==> Covered(records, replicas[k])
  }

  ghost predicate Inv(w: World)
  {
    && Shape(w.replicas, w.config)
    && AllSound(w.replicas)
    && AllPlaced(w.replicas)
    && OpsOk(w.replicas, w.ops)
    && PrimaryOk(w.replicas[w.config.primary], w.config)
    && BackupOk(w.replicas[w.config.primary], w.replicas[w.config.backup], w.config)
    && StageOk(w.replicas[w.config.primary], w.replicas[w.config.backup], GetOp(w.ops, w.config.primary), w.config)
    && OthersFenced(w.replicas, w.config.primary)
    && EpochsBounded(w.replicas, NewestEpoch(w.config))
    && SyncOk(w.replicas, w.config)
    && AckedHeld(w.replicas[w.config.backup].records, w.acked)
    && AllCovered(w.replicas, w.replicas[w.config.backup].records)
    && CopiesOk(w.copies, NewestEpoch(w.config))
    && MailsOk(w.mail, w.config, w.replicas[w.config.primary].records)
  }

  function GetOp(ops: map<string, Op>, node: string): Option<Op>
  {
    Lookup(ops, node)
  }

  // ---------------------------------------------------------------- start

  lemma InitialInv(w: World)
    requires Initial(w)
    ensures Inv(w)
  {
  }

  // ---------------------------------------------------------------- changes to one part of the world

  lemma AckInv(w: World, id: string, record: Record)
    requires Inv(w) && Held(w.replicas[w.config.backup].records, id, record)
    ensures Inv(w.(acked := w.acked[id := record]))
  {
  }

  lemma WithoutOpInv(w: World, node: string)
    requires Inv(w)
    ensures Inv(WithoutOp(w, node))
  {
  }

  lemma WithOpInv(w: World, node: string, op: Op)
    requires Inv(w) && node in w.replicas && OpOk(w.replicas[node], op)
    requires node == w.config.primary ==>
      StageOk(w.replicas[node], w.replicas[w.config.backup], Some(op), w.config)
    ensures Inv(WithOp(w, node, op))
  {
  }

  /** A change that leaves the replica's place in the cluster alone. */
  predicate SamePlace(r: State, r': State)
  {
    && r'.address == r.address && r'.epoch == r.epoch && r'.ready == r.ready && r'.backup == r.backup
    && (r'.role == r.role || (r'.role == Backup && !r.ready))
  }

  ghost predicate PairKept(w: World, k: string, r: State)
    requires Shape(w.replicas, w.config)
  {
    var p, x := w.config.primary, w.config.backup;
    && (k == p && !Begun(w.config) ==> Paired(r, w.replicas[x]))
    && (k == p ==> w.replicas[p].records.Keys <= r.records.Keys)
    && (k == x && !Begun(w.config) ==>
          Paired(w.replicas[p], r) && StageOk(w.replicas[p], r, GetOp(w.ops, p), w.config))
    && (k == x ==> Grows(w.replicas[x].records, r.records))
  }

  /** A synchronization in progress sees neither its source nor its installed copy change. */
  predicate SyncKept(w: World, k: string, r: State)
    requires k in w.replicas
  {
    SyncOf(w.config.mode).Some? ==>
      && (k == SourceOf(w.config) ==>
            r.auctions == w.replicas[k].auctions && r.records == w.replicas[k].records)
      && (k == SyncOf(w.config.mode).value.target && SyncOf(w.config.mode).value.installed ==>
            r.auctions == w.replicas[k].auctions && r.records == w.replicas[k].records)
  }

  lemma CoverGrows(replicas: Replicas, replicas': Replicas, k: string, records: map<string, Record>,
      records': map<string, Record>)
    requires AllCovered(replicas, records) && Grows(records, records')
    requires k in replicas' && replicas' == replicas[k := replicas'[k]] && Covered(records', replicas'[k])
    ensures AllCovered(replicas', records')
  {
    forall j | j in replicas' ensures Covered(records', replicas'[j]) {
      if j != k {
        assert Covered(records, replicas[j]);
      }
    }
  }

  lemma FenceKept(replicas: Replicas, k: string, r: State, primary: string)
    requires OthersFenced(replicas, primary) && k in replicas
    requires replicas[k].epoch <= r.epoch
    requires k != primary ==> Fenced(replicas[k := r], r)
    ensures OthersFenced(replicas[k := r], primary)
  {
    var after := replicas[k := r];
    forall j | j in after && j != primary ensures Fenced(after, after[j]) {
      if j != k {
        assert Fenced(replicas, replicas[j]);
      }
    }
  }

  lemma StoreReplica(replicas: Replicas, ops: map<string, Op>, k: string, r: State, epoch: int)
    requires AllSound(replicas) && AllPlaced(replicas) && OpsOk(replicas, ops) && EpochsBounded(replicas, epoch)
    requires k in replicas && k !in ops && Sound(r) && Placed(k, r) && r.epoch <= epoch
    ensures AllSound(replicas[k := r]) && AllPlaced(replicas[k := r]) && OpsOk(replicas[k := r], ops)
    ensures EpochsBounded(replicas[k := r], epoch)
  {
  }

  /** The replica can take the place of the one at `k`. */
  ghost predicate Fits(w: World, k: string, r: State)
    requires Shape(w.replicas, w.config) && k in w.replicas
  {
    && Sound(r) && Placed(k, r) && SamePlace(w.replicas[k], r)
    && PairKept(w, k, r) && SyncKept(w, k, r)
    && Covered(if k == w.config.backup then r.records else w.replicas[w.config.backup].records, r)
  }

  lemma ReplacePair(w: World, k: string, r: State)
    requires Shape(w.replicas, w.config) && k in w.replicas && SamePlace(w.replicas[k], r)
    requires PrimaryOk(w.replicas[w.config.primary], w.config)
    requires BackupOk(w.replicas[w.config.primary], w.replicas[w.config.backup], w.config)
    requires StageOk(w.replicas[w.config.primary], w.replicas[w.config.backup], GetOp(w.ops, w.config.primary),
        w.config)
    requires k !in w.ops && PairKept(w, k, r)
    ensures var w' := WithReplica(w, k, r);
      && PrimaryOk(w'.replicas[w.config.primary], w.config)
      && BackupOk(w'.replicas[w.config.primary], w'.replicas[w.config.backup], w.config)
      && StageOk(w'.replicas[w.config.primary], w'.replicas[w.config.backup], GetOp(w.ops, w.config.primary), w.config)
  {
  }

  lemma ReplaceSync(w: World, k: string, r: State)
    requires k in w.replicas && SamePlace(w.replicas[k], r) && SyncOk(w.replicas, w.config) && SyncKept(w, k, r)
    ensures SyncOk(WithReplica(w, k, r).replicas, w.config)
  {
  }

  lemma MailsKept(mail: set<Mail>, config: Config, decided: map<string, Record>, more: map<string, Record>)
    requires MailsOk(mail, config, decided) && decided.Keys <= more.Keys
    ensures MailsOk(mail, config, more)
  {
    forall m | m in mail ensures MailOk(m.message, config, more) {
      assert MailOk(m.message, config, decided);
    }
  }

  lemma ReplaceInv(w: World, k: string, r: State)
    requires Inv(w) && k in w.replicas && k !in w.ops && Fits(w, k, r)
    ensures Inv(WithReplica(w, k, r))
  {
    var w' := WithReplica(w, k, r);
    var records, records' := w.replicas[w.config.backup].records, w'.replicas[w.config.backup].records;
    CoverGrows(w.replicas, w'.replicas, k, records, records');
    assert k != w.config.primary ==> Fenced(w.replicas, w.replicas[k]);
    FenceKept(w.replicas, k, r, w.config.primary);
    ReplacePair(w, k, r);
    ReplaceSync(w, k, r);
    MailsKept(w.mail, w.config, w.replicas[w.config.primary].records, w'.replicas[w.config.primary].records);
  }

  lemma UnstagedOpInv(w: World, node: string, op: Op)
    requires Inv(w) && node in w.replicas && OpOk(w.replicas[node], op) && op.stage != Prepared
    ensures Inv(WithOp(w, node, op))
  {
  }

  lemma OpReplaced(ops: map<string, Op>, k: string, op: Op)
    ensures (ops - {k})[k := op] == ops[k := op]
  {
  }

  /** The same, with the operation of the replica moved to its next stage. */
  lemma ReplaceWithOpInv(w: World, k: string, r: State, op: Op)
    requires Inv(w) && k in w.replicas && k in w.ops && Fits(WithoutOp(w, k), k, r)
    requires OpOk(r, op) && op.stage != Prepared
    ensures Inv(WithOp(WithReplica(w, k, r), k, op))
  {
    var idle := WithoutOp(w, k);
    WithoutOpInv(w, k);
    ReplaceInv(idle, k, r);
    UnstagedOpInv(WithReplica(idle, k, r), k, op);
    OpReplaced(w.ops, k, op);
  }

  lemma BackupsAreIdle(w: World, k: string)
    requires Inv(w) && k in w.replicas && w.replicas[k].role == Backup
    ensures k !in w.ops
  {
    assert k in w.ops ==> OpOk(w.replicas[k], w.ops[k]);
  }

  /** A handler at a backup either changes nothing or leaves a replica that fits. */
  lemma HandledInv(w: World, k: string, r: State)
    requires Inv(w) && k in w.replicas && Fits(w, k, r)
    requires r != w.replicas[k] ==> w.replicas[k].role == Backup
    ensures Inv(WithReplica(w, k, r))
  {
    if r == w.replicas[k] {
      assert WithReplica(w, k, r) == w;
    } else {
      BackupsAreIdle(w, k);
      ReplaceInv(w, k, r);
    }
  }
}
